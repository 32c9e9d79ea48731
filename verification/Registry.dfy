/** The registry of breakers and the guard of a probe, src/proxy/circuit_breaker.rs, without the
    waiting: every call locks one breaker, changes it and is logged. */
module Registry {
  import opened Common
  import opened CircuitBreaker

  datatype Event = Event(provider: string, call: TimedCall)

  function Applied(bs: map<string, Breaker>, e: Event): map<string, Breaker> {
    if e.provider in bs then bs[e.provider := Apply(bs[e.provider], e.call)] else bs
  }

  function AppliedAll(bs: map<string, Breaker>, log: seq<Event>): map<string, Breaker> {
    if log == [] then bs else Applied(AppliedAll(bs, log[..|log| - 1]), log[|log| - 1])
  }

  function CallsOn(log: seq<Event>, p: string): seq<TimedCall> {
    if log == [] then []
    else
      var last := log[|log| - 1];
      CallsOn(log[..|log| - 1], p) + if last.provider == p then [last.call] else []
  }

  function AppliedTo(b: Breaker, calls: seq<TimedCall>): Breaker {
    if calls == [] then b else Apply(AppliedTo(b, calls[..|calls| - 1]), calls[|calls| - 1])
  }

  /** Breakers do not disturb each other: each is changed by the calls made for its own name, in order. */
  lemma {:induction false} EachOnItsOwn(bs: map<string, Breaker>, log: seq<Event>, p: string)
    ensures AppliedAll(bs, log).Keys == bs.Keys
    ensures p in bs ==> AppliedAll(bs, log)[p] == AppliedTo(bs[p], CallsOn(log, p))
  {
    if log != [] {
      EachOnItsOwn(bs, log[..|log| - 1], p);
      var last, before := log[|log| - 1], CallsOn(log[..|log| - 1], p);
      if last.provider == p {
        assert (before + [last.call])[..|before|] == before;
      } else {
        assert before + [] == before;
      }
    }
  }

  lemma {:induction false} AppliedToNew(calls: seq<TimedCall>)
    ensures AppliedTo(NEW_BREAKER, calls) == Run(calls)
  {
    if calls != [] {
      AppliedToNew(calls[..|calls| - 1]);
    }
  }

  lemma {:induction false} AppliedConcat(bs: map<string, Breaker>, a: seq<Event>, b: seq<Event>)
    ensures AppliedAll(bs, a + b) == AppliedAll(AppliedAll(bs, a), b)
  {
    if b == [] {
      assert a + b == a;
    } else {
      AppliedConcat(bs, a, b[..|b| - 1]);
      assert (a + b)[..|a + b| - 1] == a + b[..|b| - 1];
    }
  }

  lemma {:induction false} AppliedToConcat(b: Breaker, s: seq<TimedCall>, t: seq<TimedCall>)
    ensures AppliedTo(b, s + t) == AppliedTo(AppliedTo(b, s), t)
  {
    if t == [] {
      assert s + t == s;
    } else {
      AppliedToConcat(b, s, t[..|t| - 1]);
      assert (s + t)[..|s + t| - 1] == s + t[..|t| - 1];
    }
  }

  lemma {:induction false} CallsOnConcat(a: seq<Event>, b: seq<Event>, p: string)
    ensures CallsOn(a + b, p) == CallsOn(a, p) + CallsOn(b, p)
  {
    if b == [] {
      assert a + b == a;
    } else {
      CallsOnConcat(a, b[..|b| - 1], p);
      assert (a + b)[..|a + b| - 1] == a + b[..|b| - 1];
    }
  }

  function AfterEvents(b: Breaker, p: string, events: seq<Event>): Breaker {
    AppliedTo(b, CallsOn(events, p))
  }

  lemma OneEvent(b: Breaker, x: string, e: Event)
    ensures AfterEvents(b, x, [e]) == if x == e.provider then Apply(b, e.call) else b
  {
    var log, calls := [e], [e.call];
    assert log[..|log| - 1] == [] && calls[..|calls| - 1] == [];
    assert AppliedTo(b, calls) == Apply(b, e.call) && AppliedTo(b, []) == b;
    assert CallsOn(log, x) == if x == e.provider then calls else [];
  }

  // The last call on a breaker is applied last.
  lemma LastEventLast(b: Breaker, p: string, events: seq<Event>)
    requires events != [] && events[|events| - 1].provider == p
    ensures var n := |events| - 1;
      AfterEvents(b, p, events) == Apply(AfterEvents(b, p, events[..n]), events[n].call)
  {
    var before, last := CallsOn(events[..|events| - 1], p), events[|events| - 1];
    assert CallsOn(events, p) == before + [last.call];
    assert (before + [last.call])[..|before|] == before;
  }

  // A probe call settles the state, whatever went before.
  lemma ProbeCallLast(b: Breaker, p: string, events: seq<Event>, t: Instant, c: Call)
    requires events != [] && events[|events| - 1] == Event(p, At(t, c))
    requires c.ProbeSuccess? || c.ProbeFailure?
    ensures var b' := AfterEvents(b, p, events);
      && !b'.probeInFlight
      && (c.ProbeSuccess? ==> b'.state == Closed && b'.failureCount == 0)
      && (c.ProbeFailure? ==> b'.state == Open && b'.openedAt == Some(t) && b'.lastError == Some(c.error))
  {
    LastEventLast(b, p, events);
  }

  // ----- reports

  predicate IsRecord(c: Call) {
    c.Failure? || c.Success?
  }

  predicate IsProbeCall(e: Event) {
    e.call.call.ProbeSuccess? || e.call.call.ProbeFailure?
  }

  // What a handler reports when its provider call is over: all at one time, the guard's call last.
  ghost predicate ReportShape(log: seq<Event>, probe: Option<string>, now: Instant) {
    && (forall k :: 0 <= k < |log| ==> log[k].call.time == now)
    && (forall k :: 0 <= k < |log| - (if probe.Some? then 1 else 0) ==> IsRecord(log[k].call.call))
    && (probe.Some? ==> log != [] && log[|log| - 1].provider == probe.value && IsProbeCall(log[|log| - 1]))
  }

  lemma {:induction false} CallsAreEvents(log: seq<Event>, p: string, k: nat)
    requires k < |CallsOn(log, p)|
    ensures exists j :: 0 <= j < |log| && log[j].provider == p && log[j].call == CallsOn(log, p)[k]
  {
    var n := |log| - 1;
    if k < |CallsOn(log[..n], p)| {
      CallsAreEvents(log[..n], p, k);
      var j :| 0 <= j < |log[..n]| && log[..n][j].provider == p && log[..n][j].call == CallsOn(log[..n], p)[k];
      assert log[j] == log[..n][j];
    } else {
      assert log[n].provider == p && log[n].call == CallsOn(log, p)[k];
    }
  }

  lemma CallsOfReport(log: seq<Event>, probe: Option<string>, now: Instant, p: string)
    requires ReportShape(log, probe, now)
    ensures forall k :: 0 <= k < |CallsOn(log, p)| ==> CallsOn(log, p)[k].time == now
    ensures probe != Some(p) ==> forall k :: 0 <= k < |CallsOn(log, p)| ==> IsRecord(CallsOn(log, p)[k].call)
  {
    forall k | 0 <= k < |CallsOn(log, p)|
      ensures CallsOn(log, p)[k].time == now && (probe != Some(p) ==> IsRecord(CallsOn(log, p)[k].call))
    {
      CallsAreEvents(log, p, k);
      var j :| 0 <= j < |log| && log[j].provider == p && log[j].call == CallsOn(log, p)[k];
      assert probe != Some(p) && probe.Some? ==> j != |log| - 1;
    }
  }

  lemma {:induction false} AppliedToSound(b: Breaker, calls: seq<TimedCall>)
    requires Sound(b)
    ensures Sound(AppliedTo(b, calls))
  {
    if calls != [] {
      AppliedToSound(b, calls[..|calls| - 1]);
      ApplyKeepsSound(AppliedTo(b, calls[..|calls| - 1]), calls[|calls| - 1]);
    }
  }

  /** record_success and record_failure touch no probe; the only change of state they make is to open. */
  lemma {:induction false} RecordsKeepTheProbe(b: Breaker, calls: seq<TimedCall>)
    requires forall k :: 0 <= k < |calls| ==> IsRecord(calls[k].call)
    ensures var b' := AppliedTo(b, calls);
      b'.probeInFlight == b.probeInFlight && (b'.state == b.state || b'.state == Open)
  {
    if calls != [] {
      RecordsKeepTheProbe(b, calls[..|calls| - 1]);
    }
  }

  /** A report leaves the probe of every breaker but the guarded one alone, and ends that one. */
  lemma ReportOnBreaker(b: Breaker, log: seq<Event>, probe: Option<string>, now: Instant, p: string)
    requires ReportShape(log, probe, now)
    ensures var b' := AfterEvents(b, p, log);
      && (Sound(b) ==> Sound(b'))
      && (probe != Some(p) ==> b'.probeInFlight == b.probeInFlight && (b'.state == b.state || b'.state == Open))
      && (probe == Some(p) ==>
           !b'.probeInFlight && b'.state == if log[|log| - 1].call.call.ProbeSuccess? then Closed else Open)
  {
    if Sound(b) { AppliedToSound(b, CallsOn(log, p)); }
    if probe == Some(p) {
      ProbeCallLast(b, p, log, now, log[|log| - 1].call.call);
    } else {
      CallsOfReport(log, probe, now, p);
      RecordsKeepTheProbe(b, CallsOn(log, p));
    }
  }

  function NewBreakers(names: set<string>): map<string, Breaker> {
    map p | p in names :: NEW_BREAKER
  }

  class CircuitBreakerRegistry {
    const cells: map<string, CircuitBreakerInner>
    ghost var log: seq<Event>

    ghost function Footprint(): set<object> {
      set p | p in cells :: cells[p]
    }

    ghost function Breakers(): map<string, Breaker>
      reads Footprint()
    {
      map p | p in cells :: cells[p].View()
    }

    // One breaker per name, each in the state its logged calls have brought it to.
    ghost predicate Valid()
      reads this, Footprint()
    {
      && (forall p, q :: p in cells && q in cells && cells[p] == cells[q] ==> p == q)
      && Breakers() == AppliedAll(NewBreakers(cells.Keys), log)
    }

    constructor (names: seq<string>)
      ensures Valid() && log == [] && fresh(Footprint())
      ensures cells.Keys == set i | 0 <= i < |names| :: names[i]
    {
      var made: map<string, CircuitBreakerInner> := map[];
      for k := 0 to |names|
        invariant made.Keys == set i | 0 <= i < k :: names[i]
        invariant forall p :: p in made ==> fresh(made[p]) && made[p].View() == NEW_BREAKER
        invariant forall p, q :: p in made && q in made && made[p] == made[q] ==> p == q
      {
        var cell := new CircuitBreakerInner();
        made := made[names[k] := cell];
      }
      cells, log := made, [];
    }

    // The first half of acquire_permit; what waiting adds is in ProbeProtocol.
    method CheckPermit(p: string, now: Instant) returns (r: CheckResult)
      requires Valid()
      modifies this`log, Footprint()
      ensures Valid() && log == old(log) + [Event(p, At(now, Check))]
      ensures r == if p in old(Breakers()) then Checked(old(Breakers())[p], now).1 else Allowed
    {
      ghost var e := Event(p, At(now, Check));
      r := Allowed;
      if p in cells {
        r := cells[p].CheckState(now);
      }
      Logged(e, old(Breakers()), old(log));
      log := log + [e];
    }

    method RecordSuccess(p: string, now: Instant)
      requires Valid()
      modifies this`log, Footprint()
      ensures Valid() && log == old(log) + [Event(p, At(now, Success))]
    {
      ghost var e := Event(p, At(now, Success));
      if p in cells {
        cells[p].RecordSuccess(now);
      }
      Logged(e, old(Breakers()), old(log));
      log := log + [e];
    }

    method RecordFailure(p: string, now: Instant, error: LastError)
      requires Valid()
      modifies this`log, Footprint()
      ensures Valid() && log == old(log) + [Event(p, At(now, Failure(error)))]
    {
      ghost var e := Event(p, At(now, Failure(error)));
      if p in cells {
        cells[p].RecordFailure(now, error);
      }
      Logged(e, old(Breakers()), old(log));
      log := log + [e];
    }

    method RecordProbeSuccess(p: string, now: Instant)
      requires Valid()
      modifies this`log, Footprint()
      ensures Valid() && log == old(log) + [Event(p, At(now, ProbeSuccess))]
    {
      ghost var e := Event(p, At(now, ProbeSuccess));
      if p in cells {
        cells[p].RecordProbeSuccess(now);
      }
      Logged(e, old(Breakers()), old(log));
      log := log + [e];
    }

    method RecordProbeFailure(p: string, now: Instant, error: LastError)
      requires Valid()
      modifies this`log, Footprint()
      ensures Valid() && log == old(log) + [Event(p, At(now, ProbeFailure(error)))]
    {
      ghost var e := Event(p, At(now, ProbeFailure(error)));
      if p in cells {
        cells[p].RecordProbeFailure(now, error);
      }
      Logged(e, old(Breakers()), old(log));
      log := log + [e];
    }

    // One breaker was changed as the event says, and no other.
    ghost method Logged(e: Event, before: map<string, Breaker>, log: seq<Event>)
      requires before == AppliedAll(NewBreakers(cells.Keys), log)
      requires Breakers() == Applied(before, e)
      ensures Breakers() == AppliedAll(NewBreakers(cells.Keys), log + [e])
    {
      assert (log + [e])[..|log|] == log;
    }
  }

  /** Whatever was called on a registry, each of its breakers is the run of the calls for its name, so
      everything proved of such runs, the breaker invariant and the spacing of probes, holds of it. */
  lemma RegistryIsRuns(r: CircuitBreakerRegistry, p: string)
    requires r.Valid() && p in r.cells
    ensures r.cells[p].View() == Run(CallsOn(r.log, p)) && Sound(r.cells[p].View())
  {
    EachOnItsOwn(NewBreakers(r.cells.Keys), r.log, p);
    AppliedToNew(CallsOn(r.log, p));
    AlwaysSound(CallsOn(r.log, p));
    assert r.Breakers()[p] == r.cells[p].View();
  }

  const DROPPED: LastError := LastError("dropped", "probe dropped without resolution")

  /** The guard of a probe. Each way it can end makes one call, and no other can follow. */
  class ProbeGuard {
    const registry: CircuitBreakerRegistry
    const provider: string
    var resolved: bool

    constructor (registry: CircuitBreakerRegistry, provider: string)
      ensures this.registry == registry && this.provider == provider && !resolved
    {
      this.registry, this.provider, resolved := registry, provider, false;
    }

    method Success(now: Instant)
      requires registry.Valid() && !resolved
      modifies this, registry`log, registry.Footprint()
      ensures registry.Valid() && resolved
      ensures registry.log == old(registry.log) + [Event(provider, At(now, ProbeSuccess))]
    {
      resolved := true;
      registry.RecordProbeSuccess(provider, now);
      Drop(now);
    }

    method Fail(now: Instant, error: LastError)
      requires registry.Valid() && !resolved
      modifies this, registry`log, registry.Footprint()
      ensures registry.Valid() && resolved
      ensures registry.log == old(registry.log) + [Event(provider, At(now, ProbeFailure(error)))]
    {
      resolved := true;
      registry.RecordProbeFailure(provider, now, error);
      Drop(now);
    }

    method Drop(now: Instant)
      requires registry.Valid()
      modifies this, registry`log, registry.Footprint()
      ensures registry.Valid() && resolved == old(resolved)
      ensures registry.log == old(registry.log) +
        if resolved then [] else [Event(provider, At(now, ProbeFailure(DROPPED)))]
    {
      if !resolved {
        registry.RecordProbeFailure(provider, now, DROPPED);
      }
    }
  }
}
