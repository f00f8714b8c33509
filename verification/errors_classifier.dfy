/** The plain classifier of errors.go: a switch over the token that returns one
    of the five canonical `AppErr*` values. */
module ErrorsClassifier {
  import opened Wrappers
  import opened ErrorModel
  import opened ErrTypes

  /** The switch of `handleErrByErrors`; the result is never `nil`, each known
      token gives its kind's canonical value and any other token falls back to
      `AppErrInternalServer`. */
  function HandleErrByErrors(e: ErrType): (r: Option<AppError>)
    ensures r.Some? && r.value in CanonicalErrors
    ensures forall k :: e == TokenOf(k) ==> r == Some(Canonical(k))
    ensures (forall k :: e != TokenOf(k)) ==> r == Some(AppErrInternalServer)
  {
    NamedTokens();
    if e == ErrTypeBadRequest then Some(AppErrBadRequest)
    else if e == ErrTypeNotFound then Some(AppErrNotFound)
    else if e == ErrTypeInternalServer then Some(AppErrInternalServer)
    else if e == ErrTypeCarIsAlreadyBooked then Some(AppErrCarIsAlreadyBooked)
    else if e == ErrTypeShopClosed then Some(AppErrShopClosed)
    else Some(AppErrInternalServer)
  }

  /** The switch agrees with the token table: a recognised token yields its
      kind's canonical value, an unrecognised one the internal-server value. */
  lemma HandleErrByErrorsMatchesTable(e: ErrType)
    ensures HandleErrByErrors(e) ==
      match KindOfToken(e)
      case Some(k) => Some(Canonical(k))
      case None => Some(AppErrInternalServer)
  {
  }

  /** The result's code is decodable, so it is one of the five named codes; a
      corollary of `r.value in CanonicalErrors` and `KindOfCodeRoundTrip`. */
  lemma HandleErrByErrorsNamedCode(e: ErrType)
    ensures KindOfCode(HandleErrByErrors(e).value.code).Some?
  {
  }
}
