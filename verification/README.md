# Error classification of go-error-handling-playground, in Dafny

This project models the error-classification layer of a small Go web service.
A request carries an error-type token in its `type` query parameter. A
classifier turns the token into an application error, and the handler maps
that error to an HTTP status and a JSON body. The service has two variants:

- `/errors` uses the plain classifier `handleErrByErrors`. It returns one of the
  five canonical `appError` values. The handler picks the status with an
  `errors.Is` cascade.
- `/failure` uses the enriched classifier `handleErrByFailure`. It returns a
  failure carrying a code, a message and, for unknown tokens, a context. The
  handler picks the status with `newStatusCode` and writes an `appError` rebuilt
  from the code and the message.

Modules, one per source file or concern:

- `Wrappers` (`wrappers.dfy`): `Option`. `None` stands for a `nil` error.
- `ErrorModel` (`error_model.dfy`, model/error.go): `ErrorCode` as a string
  wrapper, `AppError` with `Error()`, `NewAppError`, the five `ErrCode*` and
  `AppErr*` constants. It also holds the `Kind` enum of the five canonical
  kinds, with `Canonical(k)` and the decoding table `KindOfCode`.
- `ErrTypes` (`err_type.dfy`, main.go): `ErrType`, `String()`, `NewErrType`,
  the five tokens, `TokenOf(k)` and the recognising table `KindOfToken`.
- `ErrorsClassifier` (`errors_classifier.dfy`, errors.go): `HandleErrByErrors`.
- `FailureClassifier` (`failure_classifier.dfy`, failure.go): the `Failure`
  record and `HandleErrByFailure`.
- `Handlers` (`handlers.dfy`, main.go): `NewStatusCode`, the two handlers'
  response logic as pure functions, and the lemmas that relate the variants.

The classifiers are written as the source's switches. They are related to
independent tables: `TokenOf`/`KindOfToken` for tokens and
`Canonical`/`KindOfCode` for codes. Lemmas connect the switches to those
tables and to each other.

Points about the code that the model makes explicit:

- `errors.Is` compares code and message. Nothing is wrapped, so `errors.Is` on
  `appError` values is value equality on both fields. `/errors` therefore picks
  its status by the whole value, while `/failure` picks it by code alone.
  `Handlers.StatusRulesAgreeExactly` states exactly where the two rules agree,
  and `Handlers.ErrorsCascadeComparesMessage` gives an error where they differ.
  The plain classifier returns only canonical values, and on those the cascade
  agrees with `newStatusCode`. So the two endpoints give the same status for
  every token (`Handlers.EndpointsAgreeOnStatus`).
- The `/failure` response drops the context. main.go:108 builds the body from
  the code and the message only.
- The two classifiers differ on more than the context. For an unknown token,
  the plain one says "Internal server error" and the enriched one says
  "Unknown error".
- main.go:57-69 compares against `model.ErrCarIsAlreadyBooked`,
  `model.ErrShopClosed`, `model.ErrBadRequest` and `model.ErrNotFound`.
  model/error.go does not define these names; it defines only the `AppErr*`
  values. The model compares against the `AppErr*` values.

## Model

| member | source | states |
|---|---|---|
| ErrorModel.NewAppError | model/error.go:32-37 | the constructed error stores the given code and message unchanged, and its `Error()` string is exactly that message |
| ErrorModel.KindOfCodeRoundTrip | model/error.go:14-20 | each kind's code decodes back to that kind, and a code decodes to a kind only if it is that kind's code, so the five code literals are pairwise distinct |
| ErrorModel.CanonicalInjective | model/error.go:4-10 | two canonical `AppErr*` values are equal exactly when they are of the same kind, so value comparison tells the five apart |
| ErrorModel.CanonicalErrorsAreCanonical | model/error.go:4-10 | an error is one of the five `AppErr*` values exactly when it is the canonical value of some kind |
| ErrTypes.NewErrTypeRoundTrip | main.go:16-30 | wrapping a string as a token and reading it with `String()` gives the string back, and rewrapping a token's string gives the token back |
| ErrTypes.TokenSpellsCode | main.go:20-26 | the token that selects a kind is spelled exactly like that kind's wire code |
| ErrTypes.KindOfTokenInverse | main.go:20-26 | a token is recognised as kind k exactly when it is k's token, and it is unrecognised exactly when no kind owns it |
| ErrorsClassifier.HandleErrByErrors | errors.go:5-21 | the result is never nil and is always one of the five canonical values; each known token gives its kind's value; any other token gives `AppErrInternalServer` |
| ErrorsClassifier.HandleErrByErrorsMatchesTable | errors.go:7-20 | for every token, the switch gives the canonical value of the kind the token table recognises, or `AppErrInternalServer` when it recognises none |
| ErrorsClassifier.HandleErrByErrorsNamedCode | errors.go:5-21 | the returned code is always one of the five named codes |
| FailureClassifier.HandleErrByFailure | failure.go:9-25 | the result is never nil; each known token gives its kind's code and canonical message with empty context; any other token, including "" and differently-cased known tokens, gives `internal_server`, "Unknown error" and context {"errType": raw token} |
| FailureClassifier.ContextRecordsUnknownToken | failure.go:22-23 | the context is non-empty exactly when the token is unrecognised, and then it holds exactly the raw token under "errType" |
| FailureClassifier.InternalServerTokenVersusUnknown | failure.go:16-23 | the explicit `internal_server` token and any unrecognised token share the code but differ in message and context |
| Handlers.NewStatusCode | main.go:32-45 | the status is always one of 400, 404, 422, 500; 400 exactly for `bad_request`, 404 exactly for `not_found`, 422 exactly for `car_is_already_booked` or `shop_closed`, 500 exactly for `internal_server` or any code outside the five |
| Handlers.ErrorsResponse | main.go:55-75 | a nil error gives 200 "Hello, World!" and nothing else does; a non-nil error is written as its own JSON body with 422 exactly for the car-booked and shop-closed values, 400 exactly for the bad-request value, 404 exactly for the not-found value, and 500 otherwise |
| Handlers.FailureResponse | main.go:83-112 | a nil failure gives 200 "Hello, World!" and nothing else does; a failure is written as a JSON `appError` with exactly its code and message, under status `newStatusCode` of it |
| Handlers.ClassifiersAgree | failure.go:11-24 | for every token the two classifiers return the same code, and their messages agree exactly when the token is recognised |
| Handlers.ErrorsEndpoint | main.go:52-75 | for every token, `/errors` answers with an error status and a JSON body holding one of the five canonical values, so the 200 branch is unreachable |
| Handlers.FailureEndpoint | main.go:80-112 | for every token, `/failure` answers with an error status and a JSON body whose code is one of the five named codes, so the 200 branch is unreachable |
| Handlers.EndpointsAgreeOnStatus | main.go:50-113 | for every token, the value-based `/errors` cascade and the code-based `/failure` mapping give the same status |
| Handlers.EndpointsAgreeOnBody | main.go:105-108 | the two endpoints write the same body exactly when the token is recognised |
| Handlers.FailureStatusByKind | main.go:32-45 | the `/failure` status depends only on the recognised kind: 400, 404, 422, 422, 500 for the five kinds and 500 for an unrecognised token |
| Handlers.StatusRulesAgreeExactly | main.go:55-73 | for any `appError`, the `/errors` cascade and `newStatusCode` on its code give the same status exactly when the error is canonical or its code maps to 500 anyway |
| Handlers.ErrorsCascadeComparesMessage | main.go:57-73 | an error with code `bad_request` but a different message gets 500 from the `/errors` cascade, while `newStatusCode` gives it 400 |
| Handlers.EndToEndScenarios | main.go:78-112 | the concrete cases: `bad_request` gives 400, `car_is_already_booked` and `shop_closed` give 422, `not_found` gives 404, "" gives 500 with context {"errType": ""}, and "Bad_Request" on `/errors` gives 500 |

## Left out

- The echo server, routing, reading the query parameter, writing the response and starting the server: HTTP plumbing. The model returns the status and body that would be written (`ErrorsEndpoint`, `FailureEndpoint`).
- The `slog` logging calls: side effects with no behaviour to verify.
- The failure library's internals: call-stack capture and `%+v` formatting. A failure is a record, and `failure.CodeOf` and `failure.MessageOf` are its field projections.
- The "unknown error code" branch of `/failure` (main.go:110). A failure's code is typed as `ErrorCode` here, so the type assertion at main.go:105 always succeeds. Every failure this repository builds carries a `model.ErrorCode`.
- The general unwrapping of `errors.Is`: no error is wrapped here, so it is value equality.
- The JSON encoding of `appError`: a body is the `(code, message)` record.
- Tokens and messages are `seq<char>`, while Go strings are byte strings, so a token that is not valid UTF-8 cannot be represented. No behaviour is lost: classification is an exact match against ASCII literals, and the raw token never reaches a response body.
- Idempotence of classification: the classifiers are pure functions, so two calls with the same token give equal results by construction.
