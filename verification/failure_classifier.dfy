/** The enriched classifier of failure.go: the same switch, but it builds a
    failure carrying a code, a message and, for an unknown token, a context
    that records the raw token. */
module FailureClassifier {
  import opened Wrappers
  import opened ErrorModel
  import opened ErrTypes

  /** A failure built by `failure.New`: `failure.CodeOf` and `failure.MessageOf`
      are the projections `code` and `message`. */
  datatype Failure = Failure(code: ErrorCode, message: string, context: map<string, string>)

  /** The context key under which an unknown token is recorded. */
  const ErrTypeKey := "errType"

  const UnknownErrorMessage := "Unknown error"

  /** The switch of `handleErrByFailure`; the result is never `nil`, a known
      token gives its kind's code and canonical message with no context, and
      any other token gives `internal_server`, "Unknown error" and the raw token
      under "errType". */
  function HandleErrByFailure(e: ErrType): (r: Option<Failure>)
    ensures r.Some?
    ensures forall k :: e == TokenOf(k) ==>
      r == Some(Failure(Canonical(k).code, Canonical(k).message, map[]))
    ensures (forall k :: e != TokenOf(k)) ==>
      r == Some(Failure(ErrCodeInternalServer, UnknownErrorMessage, map[ErrTypeKey := e.raw]))
  {
    NamedTokens();
    if e == ErrTypeBadRequest then
      Some(Failure(ErrCodeBadRequest, "Bad request", map[]))
    else if e == ErrTypeNotFound then
      Some(Failure(ErrCodeNotFound, "Not found", map[]))
    else if e == ErrTypeInternalServer then
      Some(Failure(ErrCodeInternalServer, "Internal server error", map[]))
    else if e == ErrTypeCarIsAlreadyBooked then
      Some(Failure(ErrCodeCarIsAlreadyBooked, "Car is already booked", map[]))
    else if e == ErrTypeShopClosed then
      Some(Failure(ErrCodeShopClosed, "Shop is closed", map[]))
    else
      Some(Failure(ErrCodeInternalServer, UnknownErrorMessage, map[ErrTypeKey := e.String()]))
  }

  /** Context is attached exactly when the token is not recognised, and then it
      records the raw token verbatim and nothing else. */
  lemma ContextRecordsUnknownToken(e: ErrType)
    ensures HandleErrByFailure(e).value.context != map[] <==> KindOfToken(e).None?
    ensures KindOfToken(e).None? ==>
      HandleErrByFailure(e).value.context == map[ErrTypeKey := e.String()]
  {
    match KindOfToken(e)
    case Some(k) =>
      KindOfTokenInverse(k, e);
    case None =>
      KindOfTokenInverse(InternalServer, e);
      assert ErrTypeKey in HandleErrByFailure(e).value.context;
  }

  /** The explicit `internal_server` token and an unknown token share the code
      but not the message or the context. */
  lemma InternalServerTokenVersusUnknown(e: ErrType)
    requires KindOfToken(e).None?
    ensures HandleErrByFailure(ErrTypeInternalServer).value.code == HandleErrByFailure(e).value.code
    ensures HandleErrByFailure(ErrTypeInternalServer).value.message != HandleErrByFailure(e).value.message
    ensures HandleErrByFailure(ErrTypeInternalServer).value.context != HandleErrByFailure(e).value.context
  {
    KindOfTokenInverse(InternalServer, e);
    assert ErrTypeKey in HandleErrByFailure(e).value.context;
  }
}
