/**
 * The callable's error taxonomy: Firebase `HttpsError` values carrying a
 * `FunctionsErrorCode`, the other errors a stage can throw, and the handler's
 * coercion of the latter into `internal` (functions/src/index.ts, lines 55-61).
 */
module Errors {

  /** The codes an `HttpsError` can carry on the Firebase callable protocol. */
  datatype ErrorCode =
    | Ok | Cancelled | Unknown | InvalidArgument | DeadlineExceeded | NotFound
    | AlreadyExists | PermissionDenied | ResourceExhausted | FailedPrecondition
    | Aborted | OutOfRange | Unimplemented | Internal | Unavailable | DataLoss
    | Unauthenticated

  datatype HttpsError = HttpsError(code: ErrorCode, message: string)

  /** What a stage throws: a typed `HttpsError`, or anything else (a network
      failure, an SDK exception), described only by its text. */
  datatype Thrown = Typed(err: HttpsError) | Untyped(description: string)

  const GENERIC_FAILURE_MESSAGE: string := "Generation failed, please retry later."

  /** The four kinds of error the handler ever lets out. */
  predicate IsHandlerKind(code: ErrorCode) {
    code == Unauthenticated || code == InvalidArgument
    || code == FailedPrecondition || code == Internal
  }

  /** The handler's `catch`: a typed error is rethrown as it is, anything else
      becomes `internal` with a fixed message that leaks no detail. */
  function Coerce(t: Thrown): (e: HttpsError)
    ensures t.Typed? ==> e == t.err
    ensures t.Untyped? ==> e.code == Internal && e.message == GENERIC_FAILURE_MESSAGE
  {
    match t
    case Typed(err) => err
    case Untyped(_) => HttpsError(Internal, GENERIC_FAILURE_MESSAGE)
  }

  /** Coercion never widens the set of kinds: it keeps the handler's four kinds
      closed, and a coerced error coerces to itself. */
  lemma CoercePreservesHandlerKinds(t: Thrown)
    requires t.Typed? ==> IsHandlerKind(t.err.code)
    ensures IsHandlerKind(Coerce(t).code)
    ensures Coerce(Typed(Coerce(t))) == Coerce(t)
  {
  }
}
