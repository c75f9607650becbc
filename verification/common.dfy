/** Optional values and the replies of the persistence gateway.

    The gateway (the hosted document store) is not modelled: every call the
    application makes to it is represented by the reply it gives, passed in
    as a parameter. A reply either carries a value or is a rejection. */
module Common {

  datatype Option<+T> = None | Some(value: T)

  /** What a rejected gateway promise carries: a JavaScript `Error` (with its
      message) or any other thrown value. */
  datatype Fault = ErrorObject(message: string) | OtherThrown

  /** The reply of one asynchronous gateway call. */
  datatype Reply<+T> = Done(value: T) | Failed(fault: Fault)

  /** The reply of an update or delete call, which resolves to nothing. */
  type Ack = Reply<()>

  /** `err instanceof Error ? err.message : fallback`, the text every catch
      block of the data hook stores in `error`. */
  function Describe(f: Fault, fallback: string): (text: string)
    ensures f.ErrorObject? ==> text == f.message
    ensures f.OtherThrown? ==> text == fallback
  {
    match f
    case ErrorObject(m) => m
    case OtherThrown => fallback
  }
}
