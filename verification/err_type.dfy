/** The request's error-type token of main.go: the `errType` string type, its
    `String()` method, the `NewErrType` constructor and the five named tokens. */
module ErrTypes {
  import opened Wrappers
  import opened ErrorModel

  /** `errType` is a Go string type holding the raw `type` query parameter. */
  datatype ErrType = ErrType(raw: string) {

    function String(): string {
      raw
    }
  }

  function NewErrType(t: string): ErrType {
    ErrType(t)
  }

  /** Wrapping a string as a token and reading it back is the identity, both ways. */
  lemma NewErrTypeRoundTrip(t: string, e: ErrType)
    ensures NewErrType(t).String() == t
    ensures NewErrType(e.String()) == e
  {
  }

  const ErrTypeBadRequest := ErrType("bad_request")
  const ErrTypeNotFound := ErrType("not_found")
  const ErrTypeInternalServer := ErrType("internal_server")
  const ErrTypeCarIsAlreadyBooked := ErrType("car_is_already_booked")
  const ErrTypeShopClosed := ErrType("shop_closed")

  /** The token that selects each kind. */
  function TokenOf(k: Kind): ErrType {
    match k
    case BadRequest => ErrTypeBadRequest
    case NotFound => ErrTypeNotFound
    case InternalServer => ErrTypeInternalServer
    case CarIsAlreadyBooked => ErrTypeCarIsAlreadyBooked
    case ShopClosed => ErrTypeShopClosed
  }

  /** The five named tokens are the tokens of their kinds; classifiers call
      this so that a statement about every `TokenOf(k)` can be read per token. */
  lemma NamedTokens()
    ensures TokenOf(BadRequest) == ErrTypeBadRequest && TokenOf(NotFound) == ErrTypeNotFound
    ensures TokenOf(InternalServer) == ErrTypeInternalServer
    ensures TokenOf(CarIsAlreadyBooked) == ErrTypeCarIsAlreadyBooked && TokenOf(ShopClosed) == ErrTypeShopClosed
  {
  }

  /** A token is spelled exactly like the wire code of the kind it selects. */
  lemma TokenSpellsCode(k: Kind)
    ensures TokenOf(k).String() == Canonical(k).code.name
  {
  }

  /** Recognising a token: the inverse of `TokenOf`. */
  const TokenTable: map<ErrType, Kind> :=
    map[ErrTypeBadRequest := BadRequest,
        ErrTypeNotFound := NotFound,
        ErrTypeInternalServer := InternalServer,
        ErrTypeCarIsAlreadyBooked := CarIsAlreadyBooked,
        ErrTypeShopClosed := ShopClosed]

  function KindOfToken(e: ErrType): Option<Kind> {
    if e in TokenTable then Some(TokenTable[e]) else None
  }

  /** A token is recognised as kind `k` exactly when it is `k`'s token, and a
      token that no kind owns is not recognised at all. */
  lemma KindOfTokenInverse(k: Kind, e: ErrType)
    ensures KindOfToken(e) == Some(k) <==> e == TokenOf(k)
    ensures KindOfToken(e) == None <==> forall k' :: e != TokenOf(k')
  {
    if KindOfToken(e).Some? {
      assert e == TokenOf(TokenTable[e]);
    }
  }
}
