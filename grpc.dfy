/** gRPC status codes, statuses and the outcome of a backend call. */
module Grpc {

  import opened Common

  /** The gRPC status codes, in the order of their numeric values 0 to 16. */
  datatype StatusCode =
    | OK | Cancelled | Unknown | InvalidArgument | DeadlineExceeded | NotFound
    | AlreadyExists | PermissionDenied | ResourceExhausted | FailedPrecondition
    | Aborted | OutOfRange | Unimplemented | Internal | Unavailable | DataLoss
    | Unauthenticated

  /** The numeric value of a status code (`(int)ex.StatusCode`). */
  function CodeValue(c: StatusCode): (n: int)
    ensures 0 <= n <= 16
    ensures c == Unimplemented <==> n == 12
    ensures c == Unauthenticated <==> n == 16
  {
    match c
    case OK => 0
    case Cancelled => 1
    case Unknown => 2
    case InvalidArgument => 3
    case DeadlineExceeded => 4
    case NotFound => 5
    case AlreadyExists => 6
    case PermissionDenied => 7
    case ResourceExhausted => 8
    case FailedPrecondition => 9
    case Aborted => 10
    case OutOfRange => 11
    case Unimplemented => 12
    case Internal => 13
    case Unavailable => 14
    case DataLoss => 15
    case Unauthenticated => 16
  }

  /** The status code with a given numeric value, if there is one. */
  function CodeOf(n: int): (c: Option<StatusCode>)
    ensures c.Some? <==> 0 <= n <= 16
  {
    if n == 0 then Some(OK)
    else if n == 1 then Some(Cancelled)
    else if n == 2 then Some(Unknown)
    else if n == 3 then Some(InvalidArgument)
    else if n == 4 then Some(DeadlineExceeded)
    else if n == 5 then Some(NotFound)
    else if n == 6 then Some(AlreadyExists)
    else if n == 7 then Some(PermissionDenied)
    else if n == 8 then Some(ResourceExhausted)
    else if n == 9 then Some(FailedPrecondition)
    else if n == 10 then Some(Aborted)
    else if n == 11 then Some(OutOfRange)
    else if n == 12 then Some(Unimplemented)
    else if n == 13 then Some(Internal)
    else if n == 14 then Some(Unavailable)
    else if n == 15 then Some(DataLoss)
    else if n == 16 then Some(Unauthenticated)
    else None
  }

  /** The numeric values identify the codes: decoding a code's value gives the code back. */
  lemma CodeValueRoundTrip(c: StatusCode)
    ensures CodeOf(CodeValue(c)) == Some(c)
  {
  }

  /** Distinct codes have distinct values. */
  lemma CodeValueInjective(c: StatusCode, d: StatusCode)
    ensures CodeValue(c) == CodeValue(d) ==> c == d
  {
    CodeValueRoundTrip(c);
    CodeValueRoundTrip(d);
  }

  /** A gRPC status: its code and its detail text. */
  datatype Status = Status(code: StatusCode, detail: string)

  /** What a call can throw: an `RpcException` carrying a status, or any
      other exception. */
  datatype Exception = RpcException(status: Status) | OtherException(description: string)

  /** The outcome of a call: the response it returned, or the exception it threw. */
  datatype Outcome<+T> = Ok(value: T) | Threw(error: Exception)

  /** True of an outcome that is an `RpcException` whose code is Unimplemented. */
  predicate IsUnimplemented<T>(o: Outcome<T>)
  {
    o.Threw? && o.error.RpcException? && o.error.status.code == Unimplemented
  }

  /** A client's channel address: the configured one, or the adapter's
      default when the setting is absent. */
  function ChannelAddress(configured: Option<string>, fallback: string): (address: string)
    ensures configured.Some? ==> address == configured.value
    ensures configured.None? ==> address == fallback
  {
    configured.GetOr(fallback)
  }
}
