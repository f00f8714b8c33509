/** The response logic of main.go: `newStatusCode` and the status and body that
    the `/errors` and `/failure` handlers write for a `type` query parameter.
    Routing, logging and the writing of the response itself are not modelled. */
module Handlers {
  import opened Wrappers
  import opened ErrorModel
  import opened ErrTypes
  import opened ErrorsClassifier
  import opened FailureClassifier

  const StatusOK := 200
  const StatusBadRequest := 400
  const StatusNotFound := 404
  const StatusUnprocessableEntity := 422
  const StatusInternalServerError := 500

  const ErrorStatuses: set<int> :=
    {StatusBadRequest, StatusNotFound, StatusUnprocessableEntity, StatusInternalServerError}

  const HelloWorld := "Hello, World!"

  /** A response body: an `appError` written as JSON, or a plain text body. */
  datatype Body = Json(err: AppError) | Text(text: string)

  datatype Response = Response(status: int, body: Body)

  /** The status policy of `newStatusCode`, switching on `failure.CodeOf(err)`:
      400 and 404 for the two request codes, 422 for the two domain conflicts,
      and 500 for `internal_server` and for every other code. */
  function NewStatusCode(err: Failure): (s: int)
    ensures s in ErrorStatuses
    ensures s == StatusBadRequest <==> err.code == ErrCodeBadRequest
    ensures s == StatusNotFound <==> err.code == ErrCodeNotFound
    ensures s == StatusUnprocessableEntity <==>
      err.code == ErrCodeCarIsAlreadyBooked || err.code == ErrCodeShopClosed
    ensures s == StatusInternalServerError <==>
      KindOfCode(err.code) == None || KindOfCode(err.code) == Some(InternalServer)
  {
    if err.code == ErrCodeBadRequest then StatusBadRequest
    else if err.code == ErrCodeNotFound then StatusNotFound
    else if err.code == ErrCodeCarIsAlreadyBooked || err.code == ErrCodeShopClosed then StatusUnprocessableEntity
    else if err.code == ErrCodeInternalServer then StatusInternalServerError
    else StatusInternalServerError
  }

  /** The `/errors` handler after classification: a non-nil error is written as
      JSON with a status chosen by `errors.Is`, which on these unwrapped values
      is equality of code and message; `nil` gives 200 "Hello, World!". */
  function ErrorsResponse(err: Option<AppError>): (r: Response)
    ensures err.None? <==> r == Response(StatusOK, Text(HelloWorld))
    ensures err.Some? ==> r.body == Json(err.value) && r.status in ErrorStatuses
    ensures err.Some? ==>
      (r.status == StatusUnprocessableEntity <==>
         err.value == AppErrCarIsAlreadyBooked || err.value == AppErrShopClosed)
    ensures err.Some? ==> (r.status == StatusBadRequest <==> err.value == AppErrBadRequest)
    ensures err.Some? ==> (r.status == StatusNotFound <==> err.value == AppErrNotFound)
  {
    match err
    case None => Response(StatusOK, Text(HelloWorld))
    case Some(e) =>
      if e == AppErrCarIsAlreadyBooked then Response(StatusUnprocessableEntity, Json(e))
      else if e == AppErrShopClosed then Response(StatusUnprocessableEntity, Json(e))
      else if e == AppErrBadRequest then Response(StatusBadRequest, Json(e))
      else if e == AppErrNotFound then Response(StatusNotFound, Json(e))
      else Response(StatusInternalServerError, Json(e))
  }

  /** The `/failure` handler after classification: a non-nil failure is written
      as a JSON `appError` rebuilt from its code and message (its context is
      dropped) with the status `newStatusCode` gives; `nil` gives 200. */
  function FailureResponse(err: Option<Failure>): (r: Response)
    ensures err.None? <==> r == Response(StatusOK, Text(HelloWorld))
    ensures err.Some? ==> r.status == NewStatusCode(err.value)
    ensures err.Some? ==>
      r.body.Json? && r.body.err.code == err.value.code && r.body.err.Error() == err.value.message
  {
    match err
    case None => Response(StatusOK, Text(HelloWorld))
    case Some(f) => Response(NewStatusCode(f), Json(NewAppError(f.code, f.message)))
  }

  /** GET /errors?type=t: the token is classified and the error written; the
      200 branch is unreachable, since the classifier never returns `nil`. */
  function ErrorsEndpoint(t: string): (r: Response)
    ensures r.status in ErrorStatuses
    ensures r.body.Json? && r.body.err in CanonicalErrors
  {
    ErrorsResponse(HandleErrByErrors(NewErrType(t)))
  }

  /** GET /failure?type=t: the token is classified and the failure written as
      an `appError`; the 200 branch is unreachable, since the classifier never
      returns `nil`. */
  function FailureEndpoint(t: string): (r: Response)
    ensures r.status in ErrorStatuses
    ensures r.body.Json? && KindOfCode(r.body.err.code).Some?
  {
    FailureResponse(HandleErrByFailure(NewErrType(t)))
  }

  /** Both classifiers give the same code for every token; their messages
      agree exactly when the token is recognised. */
  lemma ClassifiersAgree(e: ErrType)
    ensures HandleErrByErrors(e).value.code == HandleErrByFailure(e).value.code
    ensures HandleErrByErrors(e).value.message == HandleErrByFailure(e).value.message
      <==> KindOfToken(e).Some?
  {
  }

  /** The value-based cascade of `/errors` and the code-based `newStatusCode`
      of `/failure` choose the same status for every token. */
  lemma EndpointsAgreeOnStatus(t: string)
    ensures ErrorsEndpoint(t).status == FailureEndpoint(t).status
  {
  }

  /** The two endpoints write the same body exactly when the token is recognised. */
  lemma EndpointsAgreeOnBody(t: string)
    ensures ErrorsEndpoint(t).body == FailureEndpoint(t).body <==> KindOfToken(NewErrType(t)).Some?
  {
  }

  /** The status of `/failure` depends only on the kind the token selects: the
      table of `newStatusCode` read per kind, 500 for an unrecognised token. */
  lemma FailureStatusByKind(t: string)
    ensures FailureEndpoint(t).status ==
      match KindOfToken(NewErrType(t))
      case Some(BadRequest) => StatusBadRequest
      case Some(NotFound) => StatusNotFound
      case Some(CarIsAlreadyBooked) => StatusUnprocessableEntity
      case Some(ShopClosed) => StatusUnprocessableEntity
      case Some(InternalServer) => StatusInternalServerError
      case None => StatusInternalServerError
  {
  }

  /** `errors.Is` on these values compares message as well as code: an error
      with a known code but another message gets 500 from the `/errors`
      cascade, while `newStatusCode` would give its code's status. */
  lemma ErrorsCascadeComparesMessage()
    ensures ErrorsResponse(Some(AppError(ErrCodeBadRequest, "Bad input"))).status == StatusInternalServerError
    ensures NewStatusCode(Failure(ErrCodeBadRequest, "Bad input", map[])) == StatusBadRequest
  {
  }

  /** Where the two status rules meet: for an arbitrary `appError`, the
      value-based `/errors` cascade agrees with the code-based `newStatusCode`
      exactly when the error is one of the canonical values or its code already
      maps to 500. */
  lemma StatusRulesAgreeExactly(a: AppError)
    ensures ErrorsResponse(Some(a)).status == NewStatusCode(Failure(a.code, a.message, map[]))
      <==> a in CanonicalErrors || KindOfCode(a.code) == None || KindOfCode(a.code) == Some(InternalServer)
  {
  }

  /** The end-to-end cases: a known token's status and code, and the empty
      token's fallback with its recorded context. */
  lemma EndToEndScenarios()
    ensures FailureEndpoint("bad_request") == Response(StatusBadRequest, Json(AppErrBadRequest))
    ensures FailureEndpoint("car_is_already_booked") == Response(StatusUnprocessableEntity, Json(AppErrCarIsAlreadyBooked))
    ensures FailureEndpoint("shop_closed") == Response(StatusUnprocessableEntity, Json(AppErrShopClosed))
    ensures FailureEndpoint("not_found") == Response(StatusNotFound, Json(AppErrNotFound))
    ensures FailureEndpoint("") == Response(StatusInternalServerError, Json(AppError(ErrCodeInternalServer, UnknownErrorMessage)))
    ensures HandleErrByFailure(NewErrType("")).value.context == map[ErrTypeKey := ""]
    ensures ErrorsEndpoint("Bad_Request") == Response(StatusInternalServerError, Json(AppErrInternalServer))
  {
  }
}
