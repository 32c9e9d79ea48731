/** What a whole request leaves behind: the state of every breaker after the handler, and the amount
    settled against the amount reserved. */
module Outcomes {
  import opened Common
  import opened Selector
  import opened CircuitBreaker
  import opened Registry
  import opened Reserve
  import opened Handlers
  import ResolveCandidates
  import Retry

  /** The probed breaker after a non-streaming request, whatever was recorded on the way and whatever
      state it was in: closed with a clean count if its provider answered, and otherwise open from the
      moment the guard was resolved. Either way no probe is in flight. */
  lemma ProbedBreakerAfter(b: Breaker, p: string, attempts: seq<Retry.AttemptRecord>,
                                              end: PathEnd, clock: nat -> Instant)
    ensures var b' := AfterEvents(b, p, PathEvents(attempts, Some(p), end, clock));
      && !b'.probeInFlight
      && (ProbeAnswered(Some(p), end) ==> b'.state == Closed && b'.failureCount == 0)
      && (!ProbeAnswered(Some(p), end) ==>
           b'.state == Open && b'.openedAt == Some(clock(|attempts| + 1)) && b'.lastError == Some(
             match end
             case Answered(last) =>
               if last.reply.Good? then LastError("not_reached", "different provider succeeded")
               else LastError("5xx", "all providers failed")
             case TimedOut => LastError("timeout", "retry chain timed out")
             case Dropped => LastError("dropped", "probe dropped without resolution")))
  {
    var c := if ProbeAnswered(Some(p), end) then ProbeSuccess else ProbeFailure(WhyProbeFailed(end));
    ProbeCallLast(b, p, PathEvents(attempts, Some(p), end, clock), clock(|attempts| + 1), c);
  }

  /** The same for a streaming request. */
  lemma ProbedBreakerAfterStreaming(b: Breaker, p: string, end: StreamEnd, t: Instant, t': Instant)
    ensures var b' := AfterEvents(b, p, StreamingEvents(p, Some(p), end, t, t'));
      && !b'.probeInFlight
      && (end.Opened? ==> b'.state == Closed && b'.failureCount == 0)
      && (!end.Opened? ==> b'.state == Open && b'.openedAt == Some(t') && b'.lastError == Some(
           if end.Disconnected? then LastError("dropped", "probe dropped without resolution")
           else LastError(if 500 <= end.status <= 599 then "5xx" else "non_5xx", "HTTP " + Decimal(end.status))))
  {
    var events := StreamingEvents(p, Some(p), end, t, t');
    StreamingEndsWithProbe(p, end, t, t');
    ProbeCallLast(b, p, events, t', events[|events| - 1].call.call);
  }

  lemma StreamingEndsWithProbe(p: string, end: StreamEnd, t: Instant, t': Instant)
    ensures var events := StreamingEvents(p, Some(p), end, t, t');
      && events != []
      && events[|events| - 1] == Event(p, At(t', events[|events| - 1].call.call))
      && (if end.Opened? then events[|events| - 1].call.call.ProbeSuccess?
          else events[|events| - 1].call.call.ProbeFailure?)
  {
  }

  // ----- breakers without a probe

  function CircuitFailures(attempts: seq<Retry.AttemptRecord>, p: string): nat {
    if attempts == [] then 0
    else
      var a := attempts[|attempts| - 1];
      CircuitFailures(attempts[..|attempts| - 1], p) + if a.provider == p && 500 <= a.status <= 599 then 1 else 0
  }

  lemma {:induction false} FailureCalls(attempts: seq<Retry.AttemptRecord>, clock: nat -> Instant, p: string)
    ensures var calls := CallsOn(FailureEvents(attempts, clock), p);
      |calls| == CircuitFailures(attempts, p) && forall k :: 0 <= k < |calls| ==> calls[k].call.Failure?
  {
    if attempts != [] {
      var n := |attempts| - 1;
      var a, before := attempts[n], FailureEvents(attempts[..n], clock);
      FailureCalls(attempts[..n], clock, p);
      var e := Event(a.provider, At(clock(n), Failure(HttpError("5xx", a.status))));
      assert (before + [e])[..|before|] == before && before + [] == before;
    }
  }

  lemma {:induction false} TripsByFailures(b: Breaker, calls: seq<TimedCall>)
    requires Sound(b) && b.state == Closed && forall k :: 0 <= k < |calls| ==> calls[k].call.Failure?
    requires b.failureCount + |calls| < TWO_TO_THE_32
    ensures var b' := AppliedTo(b, calls);
      && b'.failureCount == b.failureCount + |calls|
      && b'.state == if b.failureCount + |calls| >= FAILURE_THRESHOLD then Open else Closed
  {
    if calls != [] {
      TripsByFailures(b, calls[..|calls| - 1]);
    }
  }

  lemma CallsOfClosing(probe: Option<string>, end: PathEnd, t: Instant, t': Instant, p: string)
    requires probe != Some(p)
    ensures CallsOn(ClosingEvents(probe, end, t, t'), p) ==
      if Succeeded(end) && end.last.provider == p then [At(t, Success)] else []
  {
    var events := ClosingEvents(probe, end, t, t');
    var first := if Succeeded(end) && !ProbeAnswered(probe, end) then [Event(end.last.provider, At(t, Success))]
      else [];
    assert |first| == 1 ==> first[..0] == [];
    if probe.Some? {
      assert events[..|events| - 1] == first;
      assert CallsOn(first, p) + [] == CallsOn(first, p);
    } else {
      assert events == first;
    }
  }

  lemma CallsOfPath(attempts: seq<Retry.AttemptRecord>, probe: Option<string>, end: PathEnd,
                                       clock: nat -> Instant, p: string)
    requires probe != Some(p) && !end.Dropped?
    ensures CallsOn(PathEvents(attempts, probe, end, clock), p) ==
      CallsOn(FailureEvents(attempts, clock), p) +
      (if Succeeded(end) && end.last.provider == p then [At(clock(|attempts|), Success)] else [])
  {
    CallsOnConcat(FailureEvents(attempts, clock),
                  ClosingEvents(probe, end, clock(|attempts|), clock(|attempts| + 1)), p);
    CallsOfClosing(probe, end, clock(|attempts|), clock(|attempts| + 1), p);
  }

  // Some failures, then perhaps a success.
  lemma FailuresThenReset(b: Breaker, failures: seq<TimedCall>, reset: seq<TimedCall>)
    requires Sound(b) && b.state == Closed && forall k :: 0 <= k < |failures| ==> failures[k].call.Failure?
    requires b.failureCount + |failures| < TWO_TO_THE_32
    requires |reset| <= 1 && (|reset| == 1 ==> reset[0].call.Success?)
    ensures var b', total := AppliedTo(b, failures + reset), b.failureCount + |failures|;
      && b'.state == (if total >= FAILURE_THRESHOLD then Open else Closed)
      && b'.failureCount == (if reset != [] then 0 else total)
  {
    AppliedToConcat(b, failures, reset);
    TripsByFailures(b, failures);
    var tripped := AppliedTo(b, failures);
    assert |reset| == 1 ==> reset[..0] == [] && AppliedTo(tripped, reset) == Apply(tripped, reset[0]);
  }

  /** A closed breaker without a probe is open after a request exactly when the circuit failures the
      request recorded for its provider complete the three; that the provider answered in the end does
      not matter for the state, only for the count. */
  lemma TripsIff(b: Breaker, p: string, attempts: seq<Retry.AttemptRecord>, probe: Option<string>,
                                    end: PathEnd, clock: nat -> Instant)
    requires Sound(b) && b.state == Closed && probe != Some(p) && !end.Dropped?
    requires b.failureCount + |attempts| < TWO_TO_THE_32
    ensures var b', total :=
      AfterEvents(b, p, PathEvents(attempts, probe, end, clock)), b.failureCount + CircuitFailures(attempts, p);
      && b'.state == (if total >= FAILURE_THRESHOLD then Open else Closed)
      && b'.failureCount == (if Succeeded(end) && end.last.provider == p then 0 else total)
  {
    CallsOfPath(attempts, probe, end, clock, p);
    FailureCalls(attempts, clock, p);
    FewFailures(attempts, p);
    var reset := if Succeeded(end) && end.last.provider == p then [At(clock(|attempts|), Success)] else [];
    FailuresThenReset(b, CallsOn(FailureEvents(attempts, clock), p), reset);
  }

  /** The same for a stream, without a probe: opened, it clears the count; refused with a server error, it
      counts one failure, which opens the breaker if it is the third; anything else leaves no trace. */
  lemma StreamTripsIff(b: Breaker, name: string, end: StreamEnd, t: Instant, t': Instant)
    requires Sound(b) && b.state == Closed
    ensures var b' := AfterEvents(b, name, StreamingEvents(name, None, end, t, t'));
      if end.Opened? then b' == b.(failureCount := 0, lastSuccessTime := Some(t))
      else if end.SendFailed? && 500 <= end.status <= 599 then
        && b'.failureCount == b.failureCount + 1 && b'.lastFailureTime == Some(t)
        && b'.lastError == Some(LastError("5xx", "HTTP " + Decimal(end.status)))
        && (if b.failureCount == 2 then b'.state == Open && b'.openedAt == Some(t) else b'.state == Closed)
      else b' == b
  {
    var events := StreamingEvents(name, None, end, t, t');
    StreamReportIs(name, None, end, t, t');
    if events != [] {
      assert events == [events[0]];
      OneEvent(b, name, events[0]);
    } else {
      assert CallsOn(events, name) == [];
    }
  }

  lemma {:induction false} FewFailures(attempts: seq<Retry.AttemptRecord>, p: string)
    ensures CircuitFailures(attempts, p) <= |attempts|
  {
    if attempts != [] {
      FewFailures(attempts[..|attempts| - 1], p);
    }
  }

  // The attempts of a run: one to three on the primary, at most one on the second candidate.
  lemma AttemptsShape(names: seq<string>, send: nat -> Retry.Reply, end: PathEnd, attempts: seq<Retry.AttemptRecord>,
                      made: nat)
    requires names != [] && IsTrace(names, send, end, attempts, made)
    ensures |attempts| <= made <= 4
    ensures forall k :: 0 <= k < |attempts| && k < 3 ==> attempts[k].provider == names[0]
    ensures |attempts| > 3 ==> |names| > 1 && attempts[3].provider == names[1]
    ensures |attempts| >= 3 ==> forall k :: 0 <= k < 3 && k + 1 < |Retry.FullRun(names, send)| ==>
      Retry.IsRetryable(attempts[k].status)
    ensures Succeeded(end) ==> |attempts| == made - 1 && (end.last.provider == names[0] <== made <= 3)
    ensures Succeeded(end) && made == 4 ==> |names| > 1 && end.last.provider == names[1]
  {
    var run := Retry.FullRun(names, send);
    Retry.FullRunShape(names, send);
    Retry.AttemptsAreCalls(names, send, 0);
    Retry.FailuresOfPrefix(run, made);
    PrefixLength(run[..made]);
    assert run[..|run|] == run;
    forall k | 0 <= k < |attempts|
      ensures attempts[k].provider == run[k].provider && run[k].reply == Retry.Bad(attempts[k].status)
    {
      Retry.AttemptsAreCalls(names, send, k);
    }
  }

  lemma {:induction false} PrefixLength(calls: seq<Retry.Call>)
    ensures |Retry.Failures(calls)| <= |calls|
  {
    if calls != [] {
      PrefixLength(calls[..|calls| - 1]);
    }
  }

  /** Three retryable failures of the primary leave its breaker open, whether a fallback answers, the
      deadline passes or the request fails, and whether the primary was being probed or closed. */
  lemma ExhaustedPrimaryEndsOpen(b: Breaker, names: seq<string>, send: nat -> Retry.Reply,
                                                    probe: Option<string>, end: PathEnd,
                                 attempts: seq<Retry.AttemptRecord>, made: nat, clock: nat -> Instant)
    requires names != [] && (|names| > 1 ==> names[0] != names[1])
    requires IsTrace(names, send, end, attempts, made) && !end.Dropped?
    requires Retry.PrimaryExhausted(send) && |attempts| >= 3
    requires Sound(b) && (b.state == Closed || probe == Some(names[0]))
    ensures AfterEvents(b, names[0], PathEvents(attempts, probe, end, clock)).state == Open
  {
    AttemptsShape(names, send, end, attempts, made);
    if probe == Some(names[0]) {
      ProbedBreakerAfter(b, names[0], attempts, end, clock);
    } else {
      ThreeOfThem(names, send, end, attempts, made);
      TripsIff(b, names[0], attempts, probe, end, clock);
    }
  }

  lemma ThreeOfThem(names: seq<string>, send: nat -> Retry.Reply, end: PathEnd, attempts: seq<Retry.AttemptRecord>,
                    made: nat)
    requires names != [] && IsTrace(names, send, end, attempts, made)
    requires Retry.PrimaryExhausted(send) && |attempts| >= 3
    ensures CircuitFailures(attempts, names[0]) >= 3
  {
    AttemptsShape(names, send, end, attempts, made);
    var run := Retry.FullRun(names, send);
    Retry.FullRunShape(names, send);
    Retry.FailuresOfPrefix(run, made);
    forall k | 0 <= k < 3 ensures attempts[k].provider == names[0] && IsCircuitFailure(attempts[k].status) {
      Retry.AttemptsAreCalls(names, send, k);
      assert Retry.RetryableFailure(send(k));
    }
    CountFirst(attempts, names[0], 3);
  }

  lemma {:induction false} CountFirst(attempts: seq<Retry.AttemptRecord>, p: string, n: nat)
    requires n <= |attempts|
    requires forall k :: 0 <= k < n ==> attempts[k].provider == p && IsCircuitFailure(attempts[k].status)
    ensures CircuitFailures(attempts, p) >= n
  {
    if attempts != [] {
      CountFirst(attempts[..|attempts| - 1], p, if n == |attempts| then n - 1 else n);
    }
  }

  /** A provider that answers can still be cut off: with one failure counted before, two retryable
      failures and then a good answer leave its breaker open, with a count of zero. */
  lemma AnsweredButOpen(b: Breaker, name: string, clock: nat -> Instant)
    requires Sound(b) && b.state == Closed && b.failureCount == 1
    ensures exists send, attempts, end ::
      && IsTrace([name], send, end, attempts, 3)
      && Succeeded(end) && end.last.provider == name
      && (var b' := AfterEvents(b, name, PathEvents(attempts, None, end, clock));
          b'.state == Open && b'.failureCount == 0)
  {
    var send := (n: nat) => if n < 2 then Retry.Bad(503) else Retry.Good;
    var failed := Retry.AttemptRecord(name, 503);
    var attempts, end := [failed, failed], Answered(Retry.Call(name, Retry.Good));
    AnsweredThird(name, send);
    assert CircuitFailures(attempts, name) == 2 by {
      assert attempts[..1] == [failed] && [failed][..0] == [];
      assert CircuitFailures([failed], name) == 1;
    }
    TripsIff(b, name, attempts, None, end, clock);
    assert IsTrace([name], send, end, attempts, 3);
  }

  lemma AnsweredThird(name: string, send: nat -> Retry.Reply)
    requires send(0) == send(1) == Retry.Bad(503) && send(2) == Retry.Good
    ensures var run, failed := Retry.FullRun([name], send), Retry.AttemptRecord(name, 503);
      |run| == 3 && run[2] == Retry.Call(name, Retry.Good) && Retry.Failures(run[..3]) == [failed, failed]
  {
    var run := Retry.FullRun([name], send);
    Retry.FullRunShape([name], send);
    Retry.MoreCalls([name], send, 2);
    Retry.EndsAt([name], send, 2);
    assert run[..3] == run;
    Retry.AttemptsAreCalls([name], send, 0);
    Retry.AttemptsAreCalls([name], send, 1);
  }

  lemma DroppedEvents(attempts: seq<Retry.AttemptRecord>, probe: Option<string>, clock: nat -> Instant, p: string)
    ensures CallsOn(PathEvents(attempts, probe, Dropped, clock), p) ==
      if probe == Some(p) then [At(clock(|attempts| + 1), ProbeFailure(DROPPED))] else []
  {
    var events := PathEvents(attempts, probe, Dropped, clock);
    assert |events| <= 1 && (|events| == 1 ==> events[..0] == []);
  }

  /** The condition of TripsIff that the handler is not dropped is needed: a request whose client leaves
      can have had three retryable failures of its primary and leave every breaker as it found it. */
  lemma CancelledIsUnrecorded(names: seq<string>, clock: nat -> Instant)
    requires |names| > 1
    ensures exists send, attempts :: (
      && IsTrace(names, send, Dropped, attempts, 3) && CircuitFailures(attempts, names[0]) == 3
      && forall b, p :: AfterEvents(b, p, PathEvents(attempts, None, Dropped, clock)) == b)
  {
    var send := (n: nat) => Retry.Bad(503);
    var attempts := Retry.Failures(Retry.FullRun(names, send)[..3]);
    ThreeFailures(names, send);
    CutAfterThree(names, send);
    forall b, p ensures AfterEvents(b, p, PathEvents(attempts, None, Dropped, clock)) == b {
      DroppedEvents(attempts, None, clock, p);
    }
  }

  lemma CutAfterThree(names: seq<string>, send: nat -> Retry.Reply)
    requires names != [] && |Retry.FullRun(names, send)| == 4
    ensures IsTrace(names, send, Dropped, Retry.Failures(Retry.FullRun(names, send)[..3]), 3)
  {
  }

  lemma ThreeFailures(names: seq<string>, send: nat -> Retry.Reply)
    requires |names| > 1 && forall n :: send(n) == Retry.Bad(503)
    ensures |Retry.FullRun(names, send)| == 4
    ensures CircuitFailures(Retry.Failures(Retry.FullRun(names, send)[..3]), names[0]) == 3
  {
    var run := Retry.FullRun(names, send);
    Retry.FullRunShape(names, send);
    assert Retry.PrimaryExhausted(send);
    assert forall k :: 0 <= k < 3 ==> run[k] == Retry.Call(names[0], Retry.Bad(503));
    AllFail(run[..3], names[0]);
  }

  lemma {:induction false} AllFail(calls: seq<Retry.Call>, p: string)
    requires forall k :: 0 <= k < |calls| ==> calls[k] == Retry.Call(p, Retry.Bad(503))
    ensures CircuitFailures(Retry.Failures(calls), p) == |calls|
  {
    if calls != [] {
      AllFail(calls[..|calls| - 1], p);
      var before := Retry.Failures(calls[..|calls| - 1]);
      assert (before + [Retry.AttemptRecord(p, 503)])[..|before|] == before;
    }
  }

  // ----- the guard of a resolved request

  /** The stream of a resolved request is asked of the very provider that is being probed, if one is: the
      guard makes exactly one call on every path, successful exactly when the stream was opened, and "a
      different provider succeeded" is never recorded. */
  lemma ResolvedStreamGuard(
    ps: seq<Provider>, q: Query, maxTier: Tier, permit: Tier -> nat -> ResolveCandidates.Permit,
    v: ResolveCandidates.Resolved,
    end: StreamEnd, t: Instant, t': Instant)
    requires ResolveCandidates.IsResolution(ps, ResolveCandidates.AnswersOf(ps, q), maxTier, permit, Ok(v))
    ensures v.candidates != [] && v.candidates[0] < |ps|
    ensures var name := ps[v.candidates[0]].name;
      var events := StreamingEvents(name, v.probe, end, t, t');
      && GuardResolvedOnce(events, v.probe, end.Opened?)
      && forall k :: 0 <= k < |events| ==>
           events[k].provider == name && events[k].call.call != ProbeFailure(NOT_REACHED)
  {
    ResolveCandidates.ResolvedAreEligible(ps, q, maxTier, permit, v);
    var name := ps[v.candidates[0]].name;
    StreamingGuard(name, v.probe, end, t, t');
    forall k | 0 <= k < |StreamingEvents(name, v.probe, end, t, t')|
      ensures StreamingEvents(name, v.probe, end, t, t')[k].provider == name
      ensures StreamingEvents(name, v.probe, end, t, t')[k].call.call != ProbeFailure(NOT_REACHED)
    {
      NeverNotReached(name, v.probe, end, t, t', k);
    }
  }

  /** A non-streaming request that was given a probe and answered was answered by the probed provider,
      unless all four calls were made: "a different provider succeeded" means that the probed provider
      had failed three times, retryably, and the fallback answered. */
  lemma ResolvedProbeAnswers(
    ps: seq<Provider>, q: Query, maxTier: Tier, permit: Tier -> nat -> ResolveCandidates.Permit,
    v: ResolveCandidates.Resolved,
    send: nat -> Retry.Reply, end: PathEnd, attempts: seq<Retry.AttemptRecord>, made: nat)
    requires ResolveCandidates.IsResolution(ps, ResolveCandidates.AnswersOf(ps, q), maxTier, permit, Ok(v))
    requires v.probe.Some? && v.candidates != [] && IsTrace(NamesOf(ps, v.candidates), send, end, attempts, made)
    requires Succeeded(end)
    ensures ProbeAnswered(v.probe, end) <==> made <= 3
    ensures !ProbeAnswered(v.probe, end) <==> Retry.PrimaryExhausted(send)
  {
    ResolveCandidates.ResolvedAreEligible(ps, q, maxTier, permit, v);
    var names := NamesOf(ps, v.candidates);
    AttemptsShape(names, send, end, attempts, made);
    Retry.FullRunShape(names, send);
    if made == 4 { assert names[0] == ps[v.candidates[0]].name && names[1] == ps[v.candidates[1]].name; }
  }

  // ----- money

  /** From resolution to settlement: whichever of the resolved candidates answers, at its own rates and
      with token counts within the estimates, the amount settled is the price and at most the amount
      reserved, unless the reservation overflowed. */
  lemma SettlementIsCovered(
    ps: seq<Provider>, q: Query, maxTier: Tier, permit: Tier -> nat -> ResolveCandidates.Permit,
    v: ResolveCandidates.Resolved,
    k: nat, estIn: u32, estOut: u32, a: Answer, b: Handlers.Billing, end: PathEnd)
    requires ResolveCandidates.IsResolution(ps, ResolveCandidates.AnswersOf(ps, q), maxTier, permit, Ok(v))
    requires k < |v.candidates| && v.candidates[k] < |ps| && a.rates == RatesOf(ps[v.candidates[k]])
    requires a.usage.Some? ==> a.usage.value.0 <= estIn && a.usage.value.1 <= estOut
    requires Succeeded(end) && end.last.provider == ps[v.candidates[k]].name && b.reservation.Some?
    ensures FrontierRates(ps, q.model).Some?
    ensures var f, o := FrontierRates(ps, q.model).value, PathOrder(b, end, a);
      && o.Some? && o.value.Settle? && o.value.id == b.reservation.value
      && o.value.meta.provider == ps[v.candidates[k]].name && o.value.meta.latencyMs == b.latencyMs
      && o.value.meta.tokensIn == (if a.usage.Some? then Some(a.usage.value.0) else None)
      && o.value.meta.tokensOut == (if a.usage.Some? then Some(a.usage.value.1) else None)
      && (EstimateReserveMsats(estIn, estOut, f) == PriceMsats(estIn, estOut, f) ==>
           o.value.msats <= EstimateReserveMsats(estIn, estOut, f))
      && (EstimateReserveMsats(estIn, estOut, f) == PriceMsats(estIn, estOut, f) && a.usage.Some? ==>
           o.value.msats == PriceMsats(a.usage.value.0, a.usage.value.1, a.rates))
  {
    var list := Select(ps, q, Some(v.tier)).value;
    ResolveCandidates.FilteredMember(list, permit(v.tier), v.candidates[k]);
    assert v.candidates[k] in v.candidates;
    var j :| 0 <= j < |list| && list[j] == v.candidates[k];
    var (inTokens, outTokens) := if a.usage.Some? then a.usage.value else (0, 0);
    ReservationCoversCost(ps, q, Some(v.tier), list, j, estIn, estOut, inTokens, outTokens);
  }
}
