/**
 The OAuth2 refresh-token exchange (section 6 of RFC 6749): a `RefreshFlow`
 caches the outcome of its last exchange and `RefreshToken` performs one
 exchange unless a `Success` is already cached.

 The network send and the JSON decoding of the reply are not modelled; their
 combined effect enters as a `TransportOutcome`. The wall clock enters as the
 integer `now`. Rust's `FlowType` argument is an arbitrary type parameter `F`.
 */
module Refresh {
  import opened Wrappers
  import opened Tokens

  /** The fields of the application secret the exchange reads. */
  datatype ApplicationSecret = ApplicationSecret(
    client_id: string,
    client_secret: string,
    token_uri: string)

  /**
   All outcomes of the refresh flow. The error value carried by `Error` in the
   source is opaque and is not modelled.
   */
  datatype RefreshResult =
    | Error
    | RefreshError(message: string, detail: Option<string>)
    | Success(token: Token)

  /** A refresh flow: the cached result of its last exchange. */
  datatype RefreshFlow = RefreshFlow(result: RefreshResult)

  /**
   What the transport reports back for one request: the send failed with a
   description, the reply body did not decode as the expected JSON token, or
   it decoded into the three expected fields.
   */
  datatype TransportOutcome =
    | SendFailed(description: string)
    | DecodeFailed
    | Decoded(access_token: string, token_type: string, expires_in: I64)

  /** An `application/x-www-form-urlencoded` body before percent-encoding. */
  type FormBody = seq<(string, string)>

  /**
   What one call of `RefreshToken` leaves behind: the updated flow, the result
   handed back to the caller, and the body of the request it sent, if any.
   */
  datatype Call = Call(flow: RefreshFlow, returned: RefreshResult, sent: Option<FormBody>)

  /** The `grant_type` value of a refresh request. */
  const GRANT_TYPE: string := "refresh_token"

  /** A fresh flow; its cached result is the `Error` placeholder. */
  function NewFlow(): (f: RefreshFlow)
    ensures f.result.Error?
  {
    RefreshFlow(Error)
  }

  /**
   The value bound to the first occurrence of `key` in `body`, as a form
   decoder on the server side reads it.
   */
  function Lookup(body: FormBody, key: string): (r: Option<string>)
    ensures r.None? <==> forall i :: 0 <= i < |body| ==> body[i].0 != key
    ensures r.Some? ==>
      exists i :: 0 <= i < |body| && body[i] == (key, r.value) &&
        forall j :: 0 <= j < i ==> body[j].0 != key
    decreases |body|
  {
    if |body| == 0 then None
    else if body[0].0 == key then Some(body[0].1)
    else
      var r := Lookup(body[1..], key);
      assert forall i :: 1 <= i < |body| ==> body[i] == body[1..][i - 1];
      r
  }

  /** In a body whose keys are pairwise distinct, the value at any position is the one looked up. */
  lemma LookupDistinct(body: FormBody, i: nat)
    requires i < |body|
    requires forall j, k :: 0 <= j < k < |body| ==> body[j].0 != body[k].0
    ensures Lookup(body, body[i].0) == Some(body[i].1)
  {
  }

  /**
   The ordered pair list of a refresh request: the client id, the client
   secret, the refresh token and the refresh grant type, each under its own key.
   */
  function RefreshForm(secret: ApplicationSecret, refresh_token: string): (body: FormBody)
    ensures |body| == 4
    ensures forall i, j :: 0 <= i < j < |body| ==> body[i].0 != body[j].0
  {
    [ ("client_id", secret.client_id),
      ("client_secret", secret.client_secret),
      ("refresh_token", refresh_token),
      ("grant_type", GRANT_TYPE) ]
  }

  /** Each field of the refresh form is read back under its key. */
  lemma RefreshFormLookup(secret: ApplicationSecret, refresh_token: string)
    ensures Lookup(RefreshForm(secret, refresh_token), "client_id") == Some(secret.client_id)
    ensures Lookup(RefreshForm(secret, refresh_token), "client_secret") == Some(secret.client_secret)
    ensures Lookup(RefreshForm(secret, refresh_token), "refresh_token") == Some(refresh_token)
    ensures Lookup(RefreshForm(secret, refresh_token), "grant_type") == Some(GRANT_TYPE)
  {
    var body := RefreshForm(secret, refresh_token);
    LookupDistinct(body, 2);
    LookupDistinct(body, 3);
  }

  /**
   What an authorization server reads from a refresh request: the client id,
   client secret and refresh token, provided the grant type names the refresh
   grant.
   */
  function ParseRefreshForm(body: FormBody): (r: Option<(string, string, string)>)
    ensures r.Some? ==> Lookup(body, "grant_type") == Some(GRANT_TYPE)
  {
    match (Lookup(body, "client_id"), Lookup(body, "client_secret"),
           Lookup(body, "refresh_token"), Lookup(body, "grant_type"))
    case (Some(id), Some(sec), Some(rt), Some(g)) =>
      if g == GRANT_TYPE then Some((id, sec, rt)) else None
    case _ => None
  }

  /** The absolute expiry `now + expires_in` of a decoded reply fits an `i64`. */
  predicate ExpiryFits(outcome: TransportOutcome, now: I64) {
    outcome.Decoded? ==> InI64(now + outcome.expires_in)
  }

  /**
   Sorts a transport outcome into a refresh result. A failed send becomes a
   `RefreshError` with no detail, a reply that does not decode becomes `Error`,
   and a decoded reply becomes a `Success` holding a new token that keeps the
   caller's refresh token and expires at `now + expires_in`.
   */
  function Classify(outcome: TransportOutcome, refresh_token: string, now: I64): (r: RefreshResult)
    requires ExpiryFits(outcome, now)
    ensures outcome.SendFailed? <==> r.RefreshError?
    ensures outcome.DecodeFailed? <==> r.Error?
    ensures outcome.Decoded? <==> r.Success?
    ensures r.RefreshError? ==> r.message == outcome.description && r.detail.None?
    ensures r.Success? ==>
      && r.token.access_token == outcome.access_token
      && r.token.token_type == outcome.token_type
      && r.token.refresh_token == refresh_token
      && HasAbsoluteExpiry(r.token)
      && r.token.expires_in_timestamp.value - now == outcome.expires_in
  {
    match outcome
    case SendFailed(description) => RefreshError(description, None)
    case DecodeFailed => Error
    case Decoded(access_token, token_type, expires_in) =>
      Success(Token(access_token, token_type, refresh_token, None, Some(now + expires_in)))
  }

  /**
   One call of `refresh_token`. A cached `Success` is returned as is and no
   request is sent. Otherwise the refresh form is sent, the outcome is
   classified, the classification replaces the cached result and is returned.
   */
  function RefreshToken<F>(flow: RefreshFlow, flow_type: F, secret: ApplicationSecret,
                           refresh_token: string, outcome: TransportOutcome, now: I64): (c: Call)
    requires !flow.result.Success? ==> ExpiryFits(outcome, now)
    ensures c.returned == c.flow.result
    ensures flow.result.Success? ==> c.flow == flow && c.sent.None?
    ensures !flow.result.Success? ==>
      && c.sent == Some(RefreshForm(secret, refresh_token))
      && c.flow.result == Classify(outcome, refresh_token, now)
    ensures c.flow.result.Success? <==> flow.result.Success? || outcome.Decoded?
  {
    if flow.result.Success? then
      Call(flow, flow.result, None)
    else
      var body := RefreshForm(secret, refresh_token);
      var result := Classify(outcome, refresh_token, now);
      Call(RefreshFlow(result), result, Some(body))
  }

  /**
   Reconstructs the transport outcome a result was classified from, given the
   clock reading of the call. Results `Classify` never produces map to `None`.
   */
  function Recover(r: RefreshResult, now: I64): (o: Option<TransportOutcome>)
    ensures o.Some? && o.value.Decoded? ==> r.Success? && r.token.expires_in_timestamp.Some?
  {
    match r
    case Error => Some(DecodeFailed)
    case RefreshError(message, None) => Some(SendFailed(message))
    case RefreshError(_, Some(_)) => None
    case Success(t) =>
      if HasAbsoluteExpiry(t) && InI64(t.expires_in_timestamp.value - now) then
        Some(Decoded(t.access_token, t.token_type, t.expires_in_timestamp.value - now))
      else None
  }
}
