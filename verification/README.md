# go-surrealdb client core, modelled in Dafny

This project models the deterministic core of the Go HTTP client for
SurrealDB (`main.go`). A `Surreal` client holds a server URL, a version flag
(">= 2.x" or "1.x <="), a namespace, a database and an optional
authentication configuration (Root, Token or Scope). From these, every call:

- builds a request: JSON content headers, the namespace/database headers named
  after the version, and the headers of the authentication scheme;
- sends SurrealQL text raw, or a sign-in/sign-up payload as JSON;
- classifies the reply into the decoded result, the server's own error, or an
  error the client builds itself with code 500.

Modules, one per concern of `main.go`:

- `Types` holds the records of lines 14-82.
- `ClientConfig` covers version normalisation and `AuthVars.ToMap`.
- `Request` covers `setRequest`: headers, body bytes and build failures.
- `Response` covers `processRequest`.
- `Query` covers the URL and outcome of `Query`.
- `Sign` covers payload assembly and the token check shared by `Signin` and
  `Signup`.
- `Client` holds the `Surreal` class. Its methods update the `auth` field or
  build requests write by write, and each is proved against the matching
  specification function.
- `Utf8` and `Base64` define Go's `[]byte(s)` for text and
  `base64.StdEncoding` (section 4 of RFC 4648), each with a decoder and a
  round-trip proof.
- `Foreign` gathers the library calls and network outcomes the model takes as
  inputs.
- `Scenarios` holds concrete exchanges.

The header map and the payload each have two definitions. One is the
successive map writes of the Go code. The other is an independent key-by-key
reference (`ExpectedHeader`, `ExpectedEntry`). A lemma proves that the two
agree on every key.

Two behaviours of the code are kept as written:

- A Root override writes the keys `NS`/`DB` even under ">= 2.x". There they
  sit beside `surreal-ns`/`surreal-db` instead of replacing them
  (main.go:115-120). So under ">= 2.x" a request can carry two
  namespace/database pairs.
- A sign-in reply with code 200 and no token is dereferenced unconditionally
  (main.go:318), which panics in Go. It is modelled as its own outcome,
  `NilToken`, and not as an error value.

## Model

| member | source | states |
|---|---|---|
| ClientConfig.SurrealDB | main.go:85-90 | the version becomes ">= 2.x" or "1.x <="; a recognised version is kept, any other (empty included) becomes ">= 2.x"; URL, namespace, database and auth are copied unchanged |
| ClientConfig.SurrealDBIdempotent | main.go:85-90 | normalising an already normalised configuration changes nothing |
| Client.Surreal.constructor | main.go:85-90 | the new client's state is the normalised copy of the configuration, and its version is one of the two recognised values |
| ClientConfig.ToMap | main.go:405-412 | the flattened credentials have exactly the keys username, password, namespace, database |
| ClientConfig.FromMapToMap | main.go:405-412 | the flattening loses no credential: reading the four keys back gives the original fields |
| Request.HeadersAsExpected | main.go:94-129 | the header map built by successive writes has, for every key, exactly the presence and value given by the key-by-key reference definition |
| Request.ContentHeadersAlwaysJson | main.go:94-97 | every request has Accept and Content-Type equal to application/json |
| Request.NamespaceHeadersByVersion | main.go:99-106 | "1.x <=" sends NS/DB and never surreal-ns/surreal-db; any other version sends surreal-ns/surreal-db with the client's namespace/database, and NS/DB only through a Root override |
| Request.RootHeaders | main.go:111-120 | Root sends Authorization "Basic " + Base64(UTF-8(user:pass)); a non-empty override sets NS or DB to it, an empty one leaves that key as the version set it; surreal-ns/surreal-db are untouched and no SC is sent |
| Request.TokenHeaders | main.go:121-122 | Token adds exactly Authorization "Bearer " + token to the version headers |
| Request.ScopeHeaders | main.go:123-127 | Scope sends SC and the four credential keys with the credential values, and no Authorization |
| Request.NoSchemeHeaders | main.go:108-129 | with no auth or an unrecognised method the headers are exactly the version headers, with no Authorization and no SC |
| Request.BuildRequest | main.go:131-155 | a built request carries the given method, URL and the client's headers; a JSON encoding failure is returned as the error and no request is built; the call fails exactly when encoding or http.NewRequest fails |
| Request.RawBodyVerbatim | main.go:135-136 | a raw body is built whenever http.NewRequest accepts the URL, and its bytes decode back to exactly the SurrealQL text |
| Client.Surreal.RequestHeaders | main.go:94-129 | the write-by-write construction, with its loop over the flattened Scope credentials, yields the specified header map |
| Client.Surreal.SetRequest | main.go:93-156 | the method returns the specified request or build error |
| Response.ProcessRequest | main.go:159-198 | success exactly for a 200 reply, returning its body unchanged; a non-200 reply whose body decodes as an error returns that error unchanged; every other error has code 500 and carries the failing call's message |
| Query.QueryValuesDropNil | main.go:205-210 | a nil variable never reaches the query values; every other variable appears once, as its %v formatting |
| Query.QueryUrl | main.go:202-215 | the query URL always starts with the server URL followed by "/sql" |
| Query.QueryUrlMarksVars | main.go:212-215 | with Go's encoder, "?" and the encoded values follow "/sql" exactly when at least one variable is not nil |
| Query.QueryOutcomeClassified | main.go:201-246 | rows are returned only for a built request answered 200 whose body decodes to them; every error is the server's own error for that request or has code 500; a decodable non-200 error is returned unchanged; conversely, a built request answered 200 whose body decodes returns exactly those rows |
| Client.Surreal.Query | main.go:201-246 | the loop over the variables, the URL, the request and the classification yield the specified outcome |
| Sign.PayloadAsExpected | main.go:251-279 | the payload built by successive writes agrees on every key with the key-by-key reference, in which extra variables win |
| Sign.PayloadFields | main.go:253-279 | ns/db/user/pass appear exactly when given, unless an extra variable takes the key; "ac" only under ">= 2.x" with AC, "sc" only under "1.x <=" with SC, never both from the named fields; every extra variable overwrites its key |
| Sign.CredentialsOnlyPayload | main.go:253-265 | a sign-in with only user and pass sends exactly those two keys |
| Client.Surreal.SignPayload | main.go:251-279 | the write-by-write construction, with its loop over the extra variables, yields the specified payload |
| Sign.AuthToken | main.go:309-318 | the token is returned exactly for code 200 with a token present; any other code gives a code-500 error whose information is the reply's details |
| Sign.SignOutcomeClassified | main.go:249-319 | a token comes only from a built request answered 200 whose body decodes to code 200 with that token; every refusal is the server's own error or has code 500; a payload that fails to encode is refused with the encoder's message; conversely, a 200 reply that decodes is judged by `AuthToken` on its result, and a non-200 reply whose body decodes as an error is refused with that error unchanged, for either endpoint |
| Client.Surreal.Sign | main.go:249-319 | the shared sign-in/sign-up body yields the specified outcome |
| Client.Surreal.Signin | main.go:249-319 | sign-in posts to "/signin" and yields the specified outcome |
| Client.Surreal.Signup | main.go:322-392 | sign-up posts to "/signup" and yields the specified outcome |
| Client.Surreal.Authenticate | main.go:395-397 | the auth state becomes the argument; URL, version, namespace and database are unchanged |
| Client.Surreal.Invalidate | main.go:400-402 | the auth state becomes absent; nothing else changes |
| Client.InvalidateTwice | main.go:400-402 | invalidating twice leaves the same state as invalidating once |
| Utf8.DecodeEncode | main.go:136 | the bytes of a string (Go's []byte conversion) decode back to the string |
| Utf8.EncodeAscii | main.go:112-113 | ASCII text is sent one byte per character, each byte the character's code |
| Base64.Encode | main.go:113 | the encoding has 4 characters per started group of 3 bytes, all from the alphabet, with "=" only in the last two positions |
| Base64.DecodeEncode | main.go:113 | decoding the encoding gives back the bytes, so the encoding is injective |
| Base64.StandardVectors | main.go:113 | the encoder reproduces all seven test vectors of section 10 of RFC 4648 ("", "f", "fo", "foo", "foob", "fooba", "foobar") |
| Scenarios.RootBasicCredentials | main.go:112-113 | user "root" with password "root" is sent as "Basic cm9vdDpyb290", whatever the namespace and database |
| Scenarios.LegacyLocal | main.go:85-90 | a "1.x <=" client of http://localhost:8000 keeps its state unchanged under normalisation |
| Scenarios.LegacyQueryRequest | main.go:94-156 | a "1.x <=" unauthenticated query without variables is a POST of the text's bytes to URL/sql with exactly the Accept, Content-Type and NS/DB "test" headers |
| Scenarios.LegacyQuery | main.go:201-246 | that query answered with 200 returns the rows decoded from the reply |
| Scenarios.ForbiddenQuery | main.go:182-195 | a 403 reply with an error body makes Query return that error unchanged |
| Scenarios.SigninReplies | main.go:309-318 | a 200-coded result with a token yields the token; any other code yields a code-500 error carrying the details |

## Left out

- HTTP transport: `http.Client`, `client.Do`, the 30-second timeout and `io.ReadAll` (main.go:160-180) are I/O. Their outcome is an input, `Exchange`, produced by a `transport` function of the request.
- Foreign library behaviour is taken as inputs, the fields of `Library`:
  - JSON encoding and decoding (`json.Marshal`, `json.Unmarshal`);
  - `url.Values.Encode`, with its percent-encoding and key sorting;
  - `fmt.Sprintf("%v")`;
  - URL parsing inside `http.NewRequest`.
- `Query.QueryUrlMarksVars`: needs the assumption that the encoder's output is empty exactly when no key holds a value. Go's encoder has this property, but the model does not define that encoder.
- Header key canonicalisation by `req.Header.Set` (main.go:151-153): header keys are kept as the code writes them.
- Go strings are modelled as Unicode text. A Go string holding bytes that are not valid UTF-8 is not representable.
- `ClientConfig.SurrealDB`, `Client.Surreal.constructor` and `Client.Surreal.Authenticate`: Go copies the caller's `*AuthConfig` pointer into the client (main.go:85-89, 395-397), so from construction or authentication on the client shares that `AuthConfig` with the caller. The model copies the value, so a later change the caller makes through its own pointer is not captured.
- Go's fields are exported, and callers may assign them directly. The class changes them only through `Authenticate` and `Invalidate`.
- The `body.(string)` type assertion (main.go:136) cannot fail in the model: the body is a tagged union of raw text and a payload map.
- `Value` covers untyped nil, booleans, integers, strings, arrays and objects. Floating-point numbers and typed nil pointers inside interfaces are not modelled; in Go the latter are not nil and would be sent.
- The nil-token panic (main.go:318) is the `NilToken` outcome, not a crash.
- Concurrency between `Authenticate`/`Invalidate` and a request under construction is not modelled.
- `main_test.go` is an integration test against a live server and has no logic to model.
