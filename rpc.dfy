/**
 * The error values a handler can hand back to the RPC layer: a gRPC status
 * (code and message), a plain Go error built with `errors.New`, or an error
 * passed through unchanged from the relational store.
 */
module Rpc {

  /** The gRPC status codes the handlers use. */
  datatype Code = Unauthenticated | NotFound | Internal | InvalidArgument

  /** Errors the relational store reports. */
  datatype DbError =
    | RecordNotFound              // gorm.ErrRecordNotFound
    | DuplicateKey(index: string) // a unique index or primary key already holds the value
    | ForeignKey(column: string)  // the referenced row does not exist
    | Fault(message: string)      // anything else: connection lost, timeout, ...

  datatype Error =
    | Status(code: Code, message: string)
    | Plain(message: string)
    | Db(cause: DbError)

  /** The text of `err.Error()` for a store error. */
  function DbMessage(e: DbError): string {
    match e
    case RecordNotFound => "record not found"
    case DuplicateKey(index) => "duplicate entry for key " + index
    case ForeignKey(column) => "foreign key constraint fails on " + column
    case Fault(message) => message
  }
}
