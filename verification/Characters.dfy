/** Character classes of the C locale. */
module Characters {
  predicate IsSpace(c: char) {
    c == ' ' || c == '\t' || c == '\n' || c == '\r' || c == '\U{0B}' || c == '\U{0C}'
  }

  const Small := "abcdefghijklmnopqrstuvwxyz"
  const Capitals := "ABCDEFGHIJKLMNOPQRSTUVWXYZ"
  const Digits := "0123456789"

  lemma LetterAt(k: nat)
    requires k < 26
    ensures |Small| == 26 && |Capitals| == 26
    ensures Small[k] == 'a' + k as char && Capitals[k] == 'A' + k as char
  {
  }

  lemma DigitAt(k: nat)
    requires k < 10
    ensures |Digits| == 10 && Digits[k] == '0' + k as char
  {
  }

  lemma SpacesExactly(c: char)
    ensures IsSpace(c) <==> c in " \t\n\r" + ['\U{0B}', '\U{0C}']
  {
    var spaces := " \t\n\r" + ['\U{0B}', '\U{0C}'];
    assert |spaces| == 6 && spaces[0] == ' ' && spaces[1] == '\t' && spaces[2] == '\n' && spaces[3] == '\r';
    assert spaces[4] == '\U{0B}' && spaces[5] == '\U{0C}';
  }
}
