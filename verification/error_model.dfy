/** The application error values of model/error.go: the `ErrorCode` string type,
    the `appError` record with its constructor and `Error()` method, and the five
    canonical `AppErr*` values. */
module ErrorModel {
  import opened Wrappers

  /** `ErrorCode` is a Go string type: every string is a code, five of them are named. */
  datatype ErrorCode = ErrorCode(name: string)

  const ErrCodeBadRequest := ErrorCode("bad_request")
  const ErrCodeNotFound := ErrorCode("not_found")
  const ErrCodeInternalServer := ErrorCode("internal_server")
  const ErrCodeCarIsAlreadyBooked := ErrorCode("car_is_already_booked")
  const ErrCodeShopClosed := ErrorCode("shop_closed")

  /** `appError`: a comparable value carrying a code and a human-readable message.
      It serialises to the JSON object `{"code": …, "message": …}`. */
  datatype AppError = AppError(code: ErrorCode, message: string) {

    /** The Go `error` interface method: the error string is the message alone. */
    function Error(): string {
      message
    }
  }

  function NewAppError(code: ErrorCode, message: string): (e: AppError)
    ensures e.code == code && e.message == message
    ensures e.Error() == message
  {
    AppError(code, message)
  }

  const AppErrBadRequest := NewAppError(ErrCodeBadRequest, "Bad request")
  const AppErrNotFound := NewAppError(ErrCodeNotFound, "Not found")
  const AppErrInternalServer := NewAppError(ErrCodeInternalServer, "Internal server error")
  const AppErrCarIsAlreadyBooked := NewAppError(ErrCodeCarIsAlreadyBooked, "Car is already booked")
  const AppErrShopClosed := NewAppError(ErrCodeShopClosed, "Shop is closed")

  /** The closed taxonomy: one kind per canonical `AppErr*` value. */
  datatype Kind = BadRequest | NotFound | InternalServer | CarIsAlreadyBooked | ShopClosed

  /** The canonical error value of each kind. */
  function Canonical(k: Kind): AppError {
    match k
    case BadRequest => AppErrBadRequest
    case NotFound => AppErrNotFound
    case InternalServer => AppErrInternalServer
    case CarIsAlreadyBooked => AppErrCarIsAlreadyBooked
    case ShopClosed => AppErrShopClosed
  }

  const CanonicalErrors: set<AppError> :=
    {AppErrBadRequest, AppErrNotFound, AppErrInternalServer, AppErrCarIsAlreadyBooked, AppErrShopClosed}

  /** Decoding a wire code back to its kind: the inverse of `Canonical(k).code`. */
  const CodeTable: map<ErrorCode, Kind> :=
    map[ErrCodeBadRequest := BadRequest,
        ErrCodeNotFound := NotFound,
        ErrCodeInternalServer := InternalServer,
        ErrCodeCarIsAlreadyBooked := CarIsAlreadyBooked,
        ErrCodeShopClosed := ShopClosed]

  function KindOfCode(c: ErrorCode): Option<Kind> {
    if c in CodeTable then Some(CodeTable[c]) else None
  }

  /** Every kind's code decodes back to that kind, and a code decodes only to the
      kind whose code it is: the five code literals are pairwise distinct. */
  lemma KindOfCodeRoundTrip(k: Kind, c: ErrorCode)
    ensures KindOfCode(Canonical(k).code) == Some(k)
    ensures KindOfCode(c) == Some(k) <==> c == Canonical(k).code
  {
  }

  /** The five canonical values are pairwise unequal, so value comparison tells them apart. */
  lemma CanonicalInjective(k1: Kind, k2: Kind)
    ensures Canonical(k1) == Canonical(k2) <==> k1 == k2
  {
  }

  /** The canonical values are exactly the `AppErr*` values. */
  lemma CanonicalErrorsAreCanonical(e: AppError)
    ensures e in CanonicalErrors <==> exists k :: Canonical(k) == e
  {
    if e in CanonicalErrors {
      var k :=
        if e == AppErrBadRequest then BadRequest
        else if e == AppErrNotFound then NotFound
        else if e == AppErrInternalServer then InternalServer
        else if e == AppErrCarIsAlreadyBooked then CarIsAlreadyBooked
        else ShopClosed;
      assert Canonical(k) == e;
    }
  }
}
