/** Properties of a single refresh call. */
module RefreshLemmas {
  import opened Wrappers
  import opened Tokens
  import opened Refresh

  /** The refresh form carries the caller's credentials back to the server unchanged. */
  lemma RefreshFormRoundTrip(secret: ApplicationSecret, refresh_token: string)
    ensures ParseRefreshForm(RefreshForm(secret, refresh_token))
         == Some((secret.client_id, secret.client_secret, refresh_token))
  {
    RefreshFormLookup(secret, refresh_token);
  }

  /** Classification loses nothing: the outcome is recoverable from the result. */
  lemma ClassifyRecover(outcome: TransportOutcome, refresh_token: string, now: I64)
    requires ExpiryFits(outcome, now)
    ensures Recover(Classify(outcome, refresh_token, now), now) == Some(outcome)
  {
  }

  /** Distinct outcomes are classified into distinct results. */
  lemma ClassifyInjective(o1: TransportOutcome, o2: TransportOutcome, refresh_token: string, now: I64)
    requires ExpiryFits(o1, now) && ExpiryFits(o2, now)
    requires Classify(o1, refresh_token, now) == Classify(o2, refresh_token, now)
    ensures o1 == o2
  {
    ClassifyRecover(o1, refresh_token, now);
    ClassifyRecover(o2, refresh_token, now);
  }

  /** A fresh flow always attempts an exchange on its first call. */
  lemma FirstCallSends<F>(flow_type: F, secret: ApplicationSecret, refresh_token: string,
                          outcome: TransportOutcome, now: I64)
    requires ExpiryFits(outcome, now)
    ensures RefreshToken(NewFlow(), flow_type, secret, refresh_token, outcome, now).sent
         == Some(RefreshForm(secret, refresh_token))
  {
  }

  /**
   A cached `Success` is returned whatever the arguments: another refresh
   token, other credentials, another transport outcome or clock reading.
   */
  lemma ShortCircuitIgnoresArguments<F>(flow: RefreshFlow,
      f1: F, s1: ApplicationSecret, rt1: string, o1: TransportOutcome, n1: I64,
      f2: F, s2: ApplicationSecret, rt2: string, o2: TransportOutcome, n2: I64)
    requires flow.result.Success?
    ensures RefreshToken(flow, f1, s1, rt1, o1, n1) == RefreshToken(flow, f2, s2, rt2, o2, n2)
    ensures RefreshToken(flow, f1, s1, rt1, o1, n1).returned == flow.result
  {
  }

  /** The flow type argument has no effect on the call. */
  lemma FlowTypeIrrelevant<F>(flow: RefreshFlow, f1: F, f2: F, secret: ApplicationSecret,
                              refresh_token: string, outcome: TransportOutcome, now: I64)
    requires !flow.result.Success? ==> ExpiryFits(outcome, now)
    ensures RefreshToken(flow, f1, secret, refresh_token, outcome, now)
         == RefreshToken(flow, f2, secret, refresh_token, outcome, now)
  {
  }

  /** A token obtained with a positive lifetime has not yet expired at the moment of the call. */
  lemma FreshTokenExpiresLater(outcome: TransportOutcome, refresh_token: string, now: I64)
    requires ExpiryFits(outcome, now)
    requires outcome.Decoded? && outcome.expires_in > 0
    ensures Classify(outcome, refresh_token, now).token.expires_in_timestamp.value > now
  {
  }
}
