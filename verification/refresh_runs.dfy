/**
 Sequences of calls on one refresh flow. Each call supplies its own
 arguments, transport outcome and clock reading; the flow threads through.
 */
module RefreshRuns {
  import opened Wrappers
  import opened Tokens
  import opened Refresh

  /** The arguments and environment of one `refresh_token` call. */
  datatype Attempt<F> = Attempt(
    flow_type: F,
    secret: ApplicationSecret,
    refresh_token: string,
    outcome: TransportOutcome,
    now: I64)

  /** What a sequence of calls leaves behind: the final flow, the result of each call, the bodies sent. */
  datatype Trace = Trace(flow: RefreshFlow, returned: seq<RefreshResult>, sent: seq<FormBody>)

  /** One call of `refresh_token` with the arguments of `a`. */
  function Step<F>(flow: RefreshFlow, a: Attempt<F>): Call
    requires !flow.result.Success? ==> ExpiryFits(a.outcome, a.now)
  {
    RefreshToken(flow, a.flow_type, a.secret, a.refresh_token, a.outcome, a.now)
  }

  /** No call that reaches the transport computes an expiry outside `i64`. */
  predicate Runnable<F>(flow: RefreshFlow, attempts: seq<Attempt<F>>)
    decreases |attempts|
  {
    || |attempts| == 0
    || (&& (!flow.result.Success? ==> ExpiryFits(attempts[0].outcome, attempts[0].now))
        && Runnable(Step(flow, attempts[0]).flow, attempts[1..]))
  }

  /** The refresh forms of the given calls, in order. */
  function Forms<F>(attempts: seq<Attempt<F>>): (bodies: seq<FormBody>)
    ensures |bodies| == |attempts|
    ensures forall i :: 0 <= i < |attempts| ==>
      bodies[i] == RefreshForm(attempts[i].secret, attempts[i].refresh_token)
    decreases |attempts|
  {
    if |attempts| == 0 then []
    else [RefreshForm(attempts[0].secret, attempts[0].refresh_token)] + Forms(attempts[1..])
  }

  /** True when some call's transport reply decodes into a token. */
  predicate SomeDecoded<F>(attempts: seq<Attempt<F>>) {
    exists i :: 0 <= i < |attempts| && attempts[i].outcome.Decoded?
  }

  /**
   Performs the calls in order. Each call returns one result, the last call
   returns the final result, a `Success` once cached stays, and at most one
   request is sent per call.
   */
  function Run<F>(flow: RefreshFlow, attempts: seq<Attempt<F>>): (t: Trace)
    requires Runnable(flow, attempts)
    ensures |t.returned| == |attempts|
    ensures |t.sent| <= |attempts|
    ensures |attempts| > 0 ==> t.returned[|attempts| - 1] == t.flow.result
    ensures |attempts| == 0 ==> t.flow == flow
    ensures flow.result.Success? ==> t.flow.result.Success?
    decreases |attempts|
  {
    if |attempts| == 0 then Trace(flow, [], [])
    else
      var c := Step(flow, attempts[0]);
      var rest := Run(c.flow, attempts[1..]);
      Trace(rest.flow, [c.returned] + rest.returned, SentBy(c) + rest.sent)
  }

  /** The body sent by one call, as a sequence of at most one element. */
  function SentBy(c: Call): seq<FormBody> {
    match c.sent
    case Some(body) => [body]
    case None => []
  }

  /** One step of `Run`: the first call, then the rest from the flow it leaves. */
  lemma RunUnfold<F>(flow: RefreshFlow, attempts: seq<Attempt<F>>)
    requires |attempts| > 0 && Runnable(flow, attempts)
    ensures var c := Step(flow, attempts[0]);
      && Runnable(c.flow, attempts[1..])
      && Run(flow, attempts) == Trace(Run(c.flow, attempts[1..]).flow,
                                      [c.returned] + Run(c.flow, attempts[1..]).returned,
                                      SentBy(c) + Run(c.flow, attempts[1..]).sent)
  {
  }

  /**
   `Success` is terminal: from a cached `Success` every sequence of calls is
   runnable, leaves the flow as it was, returns the cached result each time
   and sends nothing.
   */
  lemma {:induction false} RunFromSuccess<F>(flow: RefreshFlow, attempts: seq<Attempt<F>>)
    requires flow.result.Success?
    ensures Runnable(flow, attempts)
    ensures Run(flow, attempts).flow == flow
    ensures Run(flow, attempts).sent == []
    ensures forall i :: 0 <= i < |attempts| ==> Run(flow, attempts).returned[i] == flow.result
    decreases |attempts|
  {
    if |attempts| > 0 {
      RunFromSuccess(flow, attempts[1..]);
      RunUnfold(flow, attempts);
    }
  }

  /**
   From a non-`Success` flow, a first call whose reply decodes fixes the
   final result: the token built by that call, returned by every call, with
   only that call's refresh form sent.
   */
  lemma FirstCallSucceeds<F>(flow: RefreshFlow, attempts: seq<Attempt<F>>)
    requires !flow.result.Success?
    requires Runnable(flow, attempts)
    requires |attempts| > 0 && attempts[0].outcome.Decoded?
    ensures ExpiryFits(attempts[0].outcome, attempts[0].now)
    ensures Run(flow, attempts).flow.result
         == Classify(attempts[0].outcome, attempts[0].refresh_token, attempts[0].now)
    ensures forall i :: 0 <= i < |attempts| ==>
      Run(flow, attempts).returned[i] == Run(flow, attempts).flow.result
    ensures Run(flow, attempts).sent == Forms(attempts[..1])
  {
    var c := Step(flow, attempts[0]);
    RunUnfold(flow, attempts);
    RunFromSuccess(c.flow, attempts[1..]);
    var t := Run(flow, attempts);
    var tr := Run(c.flow, attempts[1..]);
    forall i | 0 < i < |attempts| ensures t.returned[i] == t.flow.result {
      assert t.returned[i] == tr.returned[i - 1];
    }
  }

  /**
   From a non-`Success` flow, the first call whose reply decodes decides the
   final result for good: the flow keeps the token built by that call, every
   later call returns it, and exactly the calls up to and including it sent
   their refresh form.
   */
  lemma {:induction false} RunKeepsFirstSuccess<F>(flow: RefreshFlow, attempts: seq<Attempt<F>>, k: nat)
    requires !flow.result.Success?
    requires Runnable(flow, attempts)
    requires k < |attempts| && attempts[k].outcome.Decoded?
    requires forall j :: 0 <= j < k ==> !attempts[j].outcome.Decoded?
    ensures ExpiryFits(attempts[k].outcome, attempts[k].now)
    ensures Run(flow, attempts).flow.result
         == Classify(attempts[k].outcome, attempts[k].refresh_token, attempts[k].now)
    ensures forall i :: k <= i < |attempts| ==>
      Run(flow, attempts).returned[i] == Run(flow, attempts).flow.result
    ensures Run(flow, attempts).sent == Forms(attempts[..k + 1])
    decreases |attempts|
  {
    if k == 0 {
      FirstCallSucceeds(flow, attempts);
    } else {
      var c := Step(flow, attempts[0]);
      var rest := attempts[1..];
      RunUnfold(flow, attempts);
      forall j | 0 <= j < k - 1 ensures !rest[j].outcome.Decoded? {
        assert rest[j] == attempts[j + 1];
      }
      RunKeepsFirstSuccess(c.flow, rest, k - 1);
      var a := attempts[k];
      assert rest[k - 1] == a;
      var t := Run(flow, attempts);
      var tr := Run(c.flow, rest);
      assert tr.flow.result == Classify(a.outcome, a.refresh_token, a.now);
      assert t.flow == tr.flow;
      forall i | k <= i < |attempts| ensures t.returned[i] == t.flow.result {
        assert t.returned[i] == tr.returned[i - 1];
      }
      assert attempts[..k + 1][1..] == rest[..k];
    }
  }

  /**
   A run from a non-`Success` flow ends in `Success` exactly when some call's
   reply decodes.
   */
  lemma {:induction false} RunSucceedsIffSomeDecoded<F>(flow: RefreshFlow, attempts: seq<Attempt<F>>)
    requires !flow.result.Success?
    requires Runnable(flow, attempts)
    ensures Run(flow, attempts).flow.result.Success? <==> SomeDecoded(attempts)
    decreases |attempts|
  {
    if SomeDecoded(attempts) {
      var k :| 0 <= k < |attempts| && attempts[k].outcome.Decoded?;
      while exists j :: 0 <= j < k && attempts[j].outcome.Decoded?
        invariant 0 <= k < |attempts| && attempts[k].outcome.Decoded?
        decreases k
      {
        var j :| 0 <= j < k && attempts[j].outcome.Decoded?;
        k := j;
      }
      RunKeepsFirstSuccess(flow, attempts, k);
    } else {
      RunWithoutSuccess(flow, attempts);
    }
  }

  /**
   When no reply decodes, every call sends its refresh form and the flow ends
   with the classification of the last call, which is never `Success`.
   */
  lemma {:induction false} RunWithoutSuccess<F>(flow: RefreshFlow, attempts: seq<Attempt<F>>)
    requires !flow.result.Success?
    requires Runnable(flow, attempts)
    requires forall i :: 0 <= i < |attempts| ==> !attempts[i].outcome.Decoded?
    ensures Run(flow, attempts).sent == Forms(attempts)
    ensures |attempts| > 0 ==>
      var last := attempts[|attempts| - 1];
      Run(flow, attempts).flow.result == Classify(last.outcome, last.refresh_token, last.now)
    ensures !Run(flow, attempts).flow.result.Success?
    decreases |attempts|
  {
    if |attempts| > 0 {
      var c := Step(flow, attempts[0]);
      var rest := attempts[1..];
      RunUnfold(flow, attempts);
      forall j | 0 <= j < |rest| ensures !rest[j].outcome.Decoded? {
        assert rest[j] == attempts[j + 1];
      }
      RunWithoutSuccess(c.flow, rest);
    }
  }
}
