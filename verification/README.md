# Refresh-token exchange of yup-oauth2, modelled in Dafny

This project models the OAuth2 refresh-token flow of yup-oauth2 (`src/refresh.rs`).
A `RefreshFlow` caches the result of its last exchange. Its `refresh_token`
call sends the refresh request of section 6 of RFC 6749, with the client
credentials in the request body as section 2.3.1 allows. Its handling of the
reply departs from RFC 6749 in two ways, which the model keeps:

- It ignores a new refresh token in the reply and keeps the caller's, where
  section 6 requires the client to replace the old one.
- It requires `expires_in`, which section 5.1 only recommends.

The call does the following:

- If a `Success` is already cached, it returns it without sending anything.
- Otherwise it builds a four-pair form body and sends it.
- It sorts what came back into one of three results.
- It caches that result and returns it.

The model is a pure state machine:

- `wrappers.dfy`: `Option`.
- `tokens.dfy`: the `Token` record with Rust's `i64` as a bounded subset of `int`.
- `refresh.dfy`: `RefreshResult`, the flow, the form body, the classification
  of a transport outcome, and one `refresh_token` call as the function
  `RefreshToken(flow, flow_type, secret, refresh_token, outcome, now)`. The call
  returns the new flow, the result handed back, and the body sent, if any.
- `refresh_lemmas.dfy`: properties of one call.
- `refresh_runs.dfy`: sequences of calls on one flow. It proves that `Success`
  is terminal and that the first decoded reply decides the final token.
- `refresh_examples.dfy`: what the source's test intends. The test's mock
  reply is fed in as the transport outcome. In the source as written, that
  reply never reaches the call (see "## Left out").

The environment is passed in as parameters:

- The network send and the JSON decoding of the reply become one
  `TransportOutcome` parameter: `SendFailed(description)`, `DecodeFailed` or
  `Decoded(access_token, token_type, expires_in)`.
- The clock reading `Utc::now().timestamp()` becomes the `I64` parameter `now`.
- The `FlowType` argument is a type parameter `F` that the call never inspects.

The code and its doc comment (src/refresh.rs:47-50) disagree. The comment says
`Error` means a connection failure worth retrying, and `RefreshError` means a
revoked refresh token. The code does the reverse of what that suggests:

- A failed send becomes `RefreshError(description, None)` (line 91).
- A reply that does not decode becomes `Error` (line 95). That includes an
  OAuth2 error reply such as `invalid_grant`.

The model follows the code. The secondary detail of `RefreshError` is always `None`.

## Model

| member | source | states |
|---|---|---|
| Refresh.NewFlow | src/refresh.rs:39-44 | a new flow caches the `Error` placeholder, which is not `Success` |
| Refresh.RefreshForm | src/refresh.rs:70-74 | the request body has four pairs with pairwise distinct keys |
| Refresh.RefreshFormLookup | src/refresh.rs:71-74 | reading the body by key yields the client id, the client secret, the caller's refresh token and the grant type `refresh_token` |
| RefreshLemmas.RefreshFormRoundTrip | src/refresh.rs:71-74 | a server parsing the body as a refresh request recovers exactly the credentials and refresh token that were sent |
| Refresh.Classify | src/refresh.rs:90-105 | a failed send maps to `RefreshError(description, None)`; a decode failure maps to `Error`; a decoded reply maps to `Success`. Each is an if-and-only-if. The new token has the decoded access token and token type, the caller's refresh token, no relative lifetime, and expiry `now + expires_in` |
| RefreshLemmas.ClassifyRecover | src/refresh.rs:90-105 | the transport outcome can be reconstructed from its classification and the clock reading |
| RefreshLemmas.ClassifyInjective | src/refresh.rs:90-105 | distinct transport outcomes give distinct results |
| Refresh.RefreshToken | src/refresh.rs:60-108 | with a cached `Success`, the flow is unchanged, that result is returned and nothing is sent. Otherwise the refresh form is sent and the cached result is replaced by the classification. The returned result is always the cached one. The flow holds `Success` afterwards iff it did before or the reply decoded |
| RefreshLemmas.FirstCallSends | src/refresh.rs:39-74 | the first call on a new flow always sends the refresh form |
| RefreshLemmas.ShortCircuitIgnoresArguments | src/refresh.rs:66-68 | with a cached `Success`, the call's effect is the same whatever credentials, refresh token, transport outcome or clock reading it gets, and it returns the cached result |
| RefreshLemmas.FlowTypeIrrelevant | src/refresh.rs:65 | the flow type argument does not affect the call |
| RefreshLemmas.FreshTokenExpiresLater | src/refresh.rs:96-102 | a token refreshed with a positive lifetime expires strictly after the moment of the call |
| RefreshRuns.Run | src/refresh.rs:60-108 | over a sequence of calls, each call returns one result and the last one returns the final cached result. A cached `Success` survives, and at most one request is sent per call |
| RefreshRuns.RunFromSuccess | src/refresh.rs:66-68 | `Success` is terminal: from it, every sequence of calls leaves the flow unchanged, returns the cached result every time and sends nothing |
| RefreshRuns.FirstCallSucceeds | src/refresh.rs:90-107 | if the first call's reply decodes, its token is kept for the rest of the run and only its form is sent |
| RefreshRuns.RunKeepsFirstSuccess | src/refresh.rs:66-107 | the first call whose reply decodes decides the final token. Every later call returns that token. Exactly the calls up to and including it send their forms |
| RefreshRuns.RunWithoutSuccess | src/refresh.rs:70-107 | if no reply decodes, every call sends its form. The flow ends with the last call's classification, which is never `Success` |
| RefreshRuns.RunSucceedsIffSomeDecoded | src/refresh.rs:90-107 | a run from a non-`Success` flow ends in `Success` iff some call's reply decodes |
| RefreshExamples.MockReplySucceeds | src/refresh.rs:96-102 | on a new flow, the reply the test's mock holds (line 163 checks its access token) gives `Success` with access token `1/fFAGRNJru1FTz70BzhT3Zg`, refresh token `bogus_refresh_token` and expiry `now + 3920`, after sending the refresh form |
| RefreshExamples.SecondCallReturnsCached | src/refresh.rs:66-68 | after that `Success` is cached, a second call with another refresh token and a failing send returns the same `Success` and sends nothing |
| RefreshExamples.ConnectionRefused | src/refresh.rs:91 | a refused connection on a new flow gives `RefreshError` with no detail, cached in the flow, which stays retryable |

## Left out

- The HTTP POST to `token_uri`, its `Content-Type` header and the reqwest client (src/refresh.rs:84-88): these are network I/O. Their effect is the `TransportOutcome` parameter, and a call's observable request is the form body it sends.
- Percent-encoding of the form body by `form_urlencoded` (src/refresh.rs:71): a library encoding. The body is modelled as the ordered pair list.
- JSON decoding of the reply into `JsonToken` (src/refresh.rs:77-82, 93): a library call. It is modelled as "decoded fields or failure". Any reply that does not carry all three fields counts as a decode failure and becomes `Error`. That includes an out-of-range `expires_in` and a reply that omits `expires_in`, which section 5.1 of RFC 6749 allows.
- Refresh-token rotation (section 6 of RFC 6749): `JsonToken` has no `refresh_token` field, so a new refresh token in the reply is dropped, and line 99 keeps the caller's. The model does the same. A `Decoded` outcome carries no refresh token.
- `Utc::now()` (src/refresh.rs:101): a clock read, passed in as `now`.
- The `client` field and the `BorrowMut<hyper::Client>` bound (src/refresh.rs:21, 37): unused, because line 84 creates its own client.
- The error values carried by `Error` and by a failed send (`reqwest::Error`, `hyper::Error::TooLarge`): foreign types. `Error` carries nothing, and a failed send carries only its description string.
- Refresh.Classify: `now + expires_in` outside `i64` is excluded by a precondition instead of modelled. The source's addition panics in debug builds and wraps in release builds.
- Refresh.RefreshToken: carries the same `i64` precondition as `Refresh.Classify` for a call that reaches the transport. `RefreshRuns.Runnable` states it for every such call in a run.
- `Token::expired()` and the rest of `Token`, `ApplicationSecret` and `FlowType`: these are declared in files that are not part of this model. Only the fields the exchange reads or writes are modelled.
- The mock connector of the test module (src/refresh.rs:113-150): test scaffolding. The test hands the mock-backed client to `RefreshFlow::new` (lines 157-158). `refresh_token` never uses that client. Line 84 builds a new one, which posts to the real `token_uri` of the test's secret (line 150). So in the source the mock reply never reaches the call, and the test can only get `RefreshError` or `Error` there, never `Success`. `RefreshExamples.MockReplySucceeds` shows what the test intends by supplying the mock reply as the outcome. `RefreshExamples.ConnectionRefused` shows the failed send the test actually meets without a network.
