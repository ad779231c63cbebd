# icuc request ingress, modelled in Dafny

This project models the request-ingress core of icuc, an IM back end built on
gin. The core is the part every HTTP request passes through before and after
its business handler:

- the application error taxonomy (`ICIUError`, the four predefined errors, and
  the `Code`/`Msg` folds that turn any Go `error` into a wire code and message);
- the uniform response envelope `{code, message, data}` and `SendResponse`;
- the JWT bearer-token guard with its process-wide options (skip paths, secret);
- the CORS middleware;
- the trace binder, which tags a request-scoped logger with a trace id;
- the configuration service's `Get` handler.

Modules:

- `Errors` (common/err/error.go) is pure, so it is a datatype, functions and
  lemmas.
- `Httpx` (common/codec/httpx/htttpx.go) has two parts. `newResponse` is a
  function. `SendResponse` is a method that writes to the gin context.
- `Jwt` (common/plugins/jwt.go) keeps `defaultOpt` as a class `Options`.
  - `InitOption` runs a loop over the option closures. It is proved against the
    fold `ApplyAll`.
  - Each request's decision is the pure function `Authorize`. The middleware
    method is proved to act out that decision on the context.
- `Cors` (common/plugins/cors.go) and `Tracer` (common/plugins/tracer.go) are
  methods on the context.
- `ConfigService` (im/app/service/config/service.go) is a pure function: the
  handler builds a constant response.
- `Gin` models the per-request `gin.Context` as a class. It records:
  - the attribute bag;
  - the response headers;
  - the bodies written;
  - the `Abort` and `Next` calls;
  - the log lines written through the context's logger.

  A `Next` call records the attribute bag the rest of the chain would see
  (ghost `handoffs`).
- `Http` models `net/textproto`'s header-key canonicalisation, which
  `Request.Header.Get` applies to the key it is given.
- `Strings` models `strings.Contains`, `strings.Fields` (Unicode White_Space
  separators) and decimal formatting of integers.

Collaborators that cannot be seen become parameters:

- JWT decoding (`jwt.ParseWithClaims`) is an oracle `parse`. The middleware
  relies on one assumption about it, `ParserReportsFailures`: it never rejects
  a token without reporting an error.
- The random draw `rand.Uint64()` is the parameter `draw`.
- The process-wide logger is the parameter `defaultLogger`.
- The rendered elapsed time is the parameter `elapsed`.

Where the middleware departs from the error taxonomy, the model follows the code:

- A malformed credential is rejected with the literal code 4001, and a token
  the decoder refuses with 4002. Neither is the taxonomy's `CodeAuthFail`
  (1001). The 4001 rejection (common/plugins/jwt.go:75-76) even carries
  `ErrAuthFail`'s own message (common/err/error.go:25), but with another code.
- All three rejections write a body `{"code", "msg"}`, not the
  `{code, message, data}` envelope.

## Model

| member | source | states |
|---|---|---|
| Errors.Msg | common/err/error.go:50-58 | any error that is not an `ICIUError` gets the message of `ErrUnknown`, "未知错误" |
| Errors.NilIsSuccess | common/err/error.go:38-53 | a nil error has code 0 and the empty message |
| Errors.NewRoundTrip | common/err/error.go:33-35 | `Code` and `Msg` read back the code and message `New` was given |
| Errors.AppFieldsPassThrough | common/err/error.go:42-56 | an `ICIUError`'s own code and message go on the wire |
| Errors.OtherErrorsFoldToUnknown | common/err/error.go:46-57 | every other error has `ErrUnknown`'s code and message, whatever its text |
| Errors.PredefinedErrors | common/err/error.go:13-25 | the four codes are distinct, and each predefined error carries its code and its message |
| Errors.Code | common/err/error.go:38-47 | code 0 comes exactly from a nil error or an `ICIUError` made with code 0; any other error gets `CodeUnknown` (101) |
| Errors.ErrorText | common/err/error.go:28-30 | `Error()` starts with "ICIU Code: " and ends with the error's message |
| Errors.ErrorTextShape | common/err/error.go:28-30 | `Error()` is "ICIU Code: " and the code's numeral, then ", Msg: " and the message |
| Errors.ErrorTextInjective | common/err/error.go:28-30 | two `ICIUError`s with the same `Error()` text have the same code and message |
| Httpx.NewResponse | common/codec/httpx/htttpx.go:17-23 | data passes through untouched; nil gives (0, ""), an `ICIUError` its own code and message, any other error (101, "未知错误") |
| Httpx.EnvelopeFollowsTaxonomy | common/codec/httpx/htttpx.go:17-23 | the envelope's code and message are `Code(e)` and `Msg(e)` |
| Httpx.UnknownErrorTextHidden | common/codec/httpx/htttpx.go:17-23 | the text of an unrecognised error never reaches the envelope: every such error gives the `ErrUnknown` envelope |
| Httpx.DecodeEncode | common/codec/httpx/htttpx.go:11-15 | a client reading the JSON body gets back exactly the envelope's code, message and data |
| Httpx.SendResponse | common/codec/httpx/htttpx.go:26-33 | with no context nothing happens; otherwise exactly one body is written, the encoded envelope with status 200, and the Content-Type is set to JSON unless one was already set. Nothing else changes |
| Jwt.Options.constructor | common/plugins/jwt.go:15-19 | the process-wide options start with no skip paths and an empty secret |
| Jwt.Options.Apply | common/plugins/jwt.go:35-47 | `WithSecret` replaces the secret; `WithSkipPaths` appends one path |
| Jwt.Options.InitOption | common/plugins/jwt.go:28-33 | the options afterwards are the old ones with every option applied in argument order |
| Jwt.ApplyAllAppend | common/plugins/jwt.go:28-33 | calling `InitOption` twice is the same as calling it once with both argument lists |
| Jwt.ApplyAllSkipPaths | common/plugins/jwt.go:42-47 | skip paths only accumulate: the old list, then each `WithSkipPaths` path in order |
| Jwt.SecretKeptWithoutWithSecret | common/plugins/jwt.go:35-40 | without a `WithSecret` option the secret is unchanged |
| Jwt.LastSecretWins | common/plugins/jwt.go:35-40 | the last `WithSecret` option decides the secret |
| Jwt.ParseToken | common/plugins/jwt.go:98-110 | claims are returned exactly when the decoder reports no error, a token, standard claims and validity; then the error is nil, otherwise it is the decoder's error |
| Jwt.ParseTokenLogged | common/plugins/jwt.go:98-110 | returns exactly `ParseToken`'s result; when no claims come back it logs one "token invalid" line, carrying the token, through the request's logger, otherwise nothing |
| Jwt.ParseTokenUsesSecret | common/plugins/jwt.go:99-101 | the result depends only on what the decoder answers for the token under the configured secret |
| Jwt.MatchSkipPaths | common/plugins/jwt.go:53-57 | the loop answers true exactly when some skip entry is a substring of the path |
| Jwt.Authorize | common/plugins/jwt.go:53-94 | the request is skipped exactly when some skip entry is in its path. It is rejected with 1000 exactly when it is not skipped and has no Authorization value. It is rejected with 4001 exactly when the credential is present but does not split, at any whitespace, into "Bearer" and one more word. It is rejected with 4002 exactly when it does split that way and the decoder reports an error for the token under the secret. Every rejection code is 1000, 4001 or 4002. Admission needs a credential of exactly "Bearer" and one more word |
| Jwt.JWTAuthMiddleware | common/plugins/jwt.go:50-96 | acts out `Authorize`. Skip: the context is untouched. Reject: one `{code, msg}` body with status 200, a JSON Content-Type unless one was set, and an abort. Admit: uid and username are set from the claims' id and audience, then `Next` is called once. The nil-claims case cannot occur. Exactly on a 4002 rejection, one "token invalid" line with the token is logged; on every other path the log is untouched |
| Jwt.EmptySkipEntryExemptsAll | common/plugins/jwt.go:53-57 | an empty skip entry exempts every request |
| Jwt.SkipEntryAnywhereInPath | common/plugins/jwt.go:53-57 | a skip entry anywhere inside the path exempts the request, whatever its header |
| Jwt.MissingCredentialRejected | common/plugins/jwt.go:62-70 | a protected path without an Authorization value is rejected with 1000, "没有认证信息" |
| Jwt.BearerTokenReachesDecoder | common/plugins/jwt.go:72-94 | "Bearer" and a token, with any whitespace around and between them, hand exactly that token to the decoder. An accepted token admits the request with its claims; a decoder error rejects it with 4002 |
| Jwt.WrongSchemeRejected | common/plugins/jwt.go:72-80 | two words, with any whitespace around and between them, whose first word is not exactly "Bearer" are rejected with 4001 |
| Jwt.WrongWordCountRejected | common/plugins/jwt.go:72-80 | a credential of one word, or of three or more words joined by single spaces, is rejected with 4001 |
| Jwt.BlankCredentialRejected | common/plugins/jwt.go:62-80 | a credential of whitespace only gets past the presence check and is rejected with 4001 |
| Jwt.AdmittedOnlyWithAcceptedToken | common/plugins/jwt.go:53-94 | a request is admitted only on a protected path, with "Bearer" and a token the decoder accepted under the secret, and it carries that token's claims |
| Jwt.RejectionCodes | common/plugins/jwt.go:63-90 | a rejection's code is 1000, 4001 or 4002, never the taxonomy's 1001 |
| Jwt.NoNilClaims | common/plugins/jwt.go:82-94 | if the decoder always reports its failures, the middleware never dereferences nil claims |
| Strings.FieldsOfTwoWords | common/plugins/jwt.go:72 | whitespace around and between two words splits them into exactly those two fields |
| Http.CanonicalAuthorization | common/plugins/jwt.go:62 | the Authorization header is looked up under its own canonical name |
| Cors.CorsHeaders | common/plugins/cors.go:13-22 | no headers for an empty Origin; otherwise the five `Access-Control-*` headers, none empty, with Allow-Origin echoing the Origin verbatim |
| Cors.SetHeaders | common/plugins/cors.go:16-21 | the five `c.Header` calls add exactly `CorsHeaders(origin)` to the response headers |
| Cors.Cors | common/plugins/cors.go:10-31 | the response headers gain `CorsHeaders(Origin)`. OPTIONS is answered with 204 and aborted, and `Next` is not called. Any other method calls `Next` once, with no write and no abort |
| Cors.OnlyAccessControlHeaders | common/plugins/cors.go:14-22 | every header set is an `Access-Control-` header |
| Cors.CorsHeadersFixedValues | common/plugins/cors.go:17-21 | with an Origin, exactly five headers are set, and Allow-Methods, Allow-Headers, Expose-Headers and Allow-Credentials ("true") carry their fixed values whatever the origin |
| Http.CanonicalOrigin | common/plugins/cors.go:13 | the Origin header is looked up under its own canonical name |
| Tracer.TraceId | common/plugins/tracer.go:17-20 | a non-empty inbound id is kept verbatim; otherwise the id is the shortest decimal numeral of the random draw: digits only, whose value is the draw, with no leading zero unless it is "0". It is never empty |
| Tracer.ZapTraceLogger | common/plugins/tracer.go:14-33 | stores under "logger" the default logger plus the field ("traceid", id). It logs "recv msg" before `Next` and "done, cost: …" after it, both lines carrying that field. `Next` is called once and sees the logger |
| Tracer.LinesCarryTraceId | common/plugins/tracer.go:23-32 | the request logger's last field is ("traceid", id) |
| Tracer.FreshIdsDistinct | common/plugins/tracer.go:18-19 | different random draws give different trace ids |
| Http.CanonicalTraceId | common/plugins/tracer.go:17 | the inbound header "traceid" is looked up as "Traceid" |
| ConfigService.Get | im/app/service/config/service.go:14-26 | the error is nil. There is one server-info entry, of type 1, holding "127.0.0.1:443" with weight 100, then "127.0.0.1:8080" with weight 90 |
| ConfigService.GetIgnoresRequest | im/app/service/config/service.go:14-26 | the response does not depend on the request |

## Left out

- Log output is not written anywhere. The line texts and fields are kept in the context, but zap formatting, log levels, and the `%v` rendering of values are not modelled.
- Jwt.ParseTokenLogged: the line it logs ends with the token; the `jwtToken:%+v` rendering of the decoded token that follows it in the source is not modelled.
- ConfigService.Get: the two lines it logs (im/app/service/config/service.go:15, 24) go through a `context.Context` that is not a gin context here, and are not recorded.
- ConfigService.New: it has no contract. `Service` has exactly one value and no fields, like the source's empty struct, so there is nothing to state.
- Errors.New: its result is stated by `Errors.NewRoundTrip`, not by its own `ensures`. An `ensures` written through `Msg` would make `ErrUnknown` depend on itself, because `Msg` reads `ErrUnknown` and `ErrUnknown` is defined by `New`.
- A typed-nil `*ICIUError` passed as an `error` cannot be represented. The model's `Error` is either nil, an `ICIUError` value, or another error.
- JWT signature and expiry checking are the jwt-go library's job, so they are the oracle `parse`. A `jwt.Token` is reduced to its claims (all seven `jwt.StandardClaims` fields, when they are standard claims) and its `Valid` flag.
- Jwt.JWTAuthMiddleware: it requires `ParserReportsFailures`. Without it the Go code dereferences nil claims and panics. That outcome is the `NilClaims` verdict of `Authorize`, which no method models.
- The gin engine itself is not modelled: handler chaining, what runs after `Next`, and panic recovery. The order in which the middlewares are installed is set in code that is not part of this model.
- Response header names are stored as given, not canonicalised. Every name the CORS middleware sets is already canonical.
- A header with several values, and request bodies, are not modelled. Request header keys are required to be canonical, as `net/http` stores them.
- Invalid UTF-8 in headers cannot be represented: strings are sequences of code points.
- `Tracer.Uint64Limit` bounds the random draw, which is `rand.Uint64()`. Its distribution is not modelled.
- The protobuf request's fields are unknown here, so `ConfigRequest` is an arbitrary map. The gRPC gateway glue, configuration loading and server bootstrap are not part of this model.
