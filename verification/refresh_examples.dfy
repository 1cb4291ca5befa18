/** Concrete runs of a refresh flow. */
module RefreshExamples {
  import opened Wrappers
  import opened Tokens
  import opened Refresh
  import opened RefreshRuns

  /**
   The reply the test's mock connector holds, once decoded. In the source the
   flow never sees it: the call builds its own HTTP client instead of using the
   one the flow was constructed with.
   */
  const MOCK_REPLY: TransportOutcome := Decoded("1/fFAGRNJru1FTz70BzhT3Zg", "Bearer", 3920)

  /**
   A fresh flow refreshing "bogus_refresh_token" that receives the mock reply
   succeeds with the server's access token and the caller's refresh token,
   expiring 3920 seconds after the call.
   */
  lemma MockReplySucceeds<F>(flow_type: F, secret: ApplicationSecret, now: I64)
    requires ExpiryFits(MOCK_REPLY, now)
    ensures var c := RefreshToken(NewFlow(), flow_type, secret, "bogus_refresh_token", MOCK_REPLY, now);
      && c.returned.Success?
      && c.returned.token.access_token == "1/fFAGRNJru1FTz70BzhT3Zg"
      && c.returned.token.refresh_token == "bogus_refresh_token"
      && c.returned.token.expires_in_timestamp == Some(now + 3920)
      && c.sent == Some(RefreshForm(secret, "bogus_refresh_token"))
  {
  }

  /**
   After the mock reply is cached, a second call with "other_token", whose
   send would fail, returns the same `Success` and sends nothing.
   */
  lemma SecondCallReturnsCached<F>(flow_type: F, secret: ApplicationSecret, now: I64, later: I64)
    requires ExpiryFits(MOCK_REPLY, now)
    ensures var attempts := [Attempt(flow_type, secret, "bogus_refresh_token", MOCK_REPLY, now),
                             Attempt(flow_type, secret, "other_token", SendFailed("connection refused"), later)];
      && Runnable(NewFlow(), attempts)
      && var t := Run(NewFlow(), attempts);
      && t.flow.result.Success?
      && t.flow.result.token.refresh_token == "bogus_refresh_token"
      && t.returned == [t.flow.result, t.flow.result]
      && t.sent == [RefreshForm(secret, "bogus_refresh_token")]
  {
    var attempts := [Attempt(flow_type, secret, "bogus_refresh_token", MOCK_REPLY, now),
                     Attempt(flow_type, secret, "other_token", SendFailed("connection refused"), later)];
    var c := Step(NewFlow(), attempts[0]);
    RunFromSuccess(c.flow, attempts[1..]);
    assert Runnable(NewFlow(), attempts);
    RunKeepsFirstSuccess(NewFlow(), attempts, 0);
    assert attempts[..1] == [attempts[0]];
  }

  /** A refused connection on a fresh flow yields `RefreshError` with no detail, and the flow may be retried. */
  lemma ConnectionRefused<F>(flow_type: F, secret: ApplicationSecret, now: I64)
    ensures var c := RefreshToken(NewFlow(), flow_type, secret, "bogus_refresh_token",
                                  SendFailed("connection refused"), now);
      && c.returned == RefreshError("connection refused", None)
      && c.flow == RefreshFlow(c.returned)
      && !c.flow.result.Success?
  {
  }
}
