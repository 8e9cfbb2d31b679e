/** The enumerations of pg/src/postgres/IQuery.h and Database.h. */
module QueryTypes {
  datatype Option<+T> = None | Some(value: T)

  datatype QueryStatus = NotRunning | Running | Complete | Aborted | Waiting

  datatype ResultStatus = NoResult | Error | Success

  datatype DatabaseStatus = Connected | Connecting | NotConnected | ConnectionFailed
}
