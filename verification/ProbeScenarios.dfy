/** Reachable states that show the conditions of the probe theorems are needed: each is built step by
    step from an initial state, by requests whose handlers report what they can report. */
module ProbeScenarios {
  import opened Common
  import opened CircuitBreaker
  import opened Registry
  import opened Selector
  import opened ProbeProtocol
  import opened ProbeTheorems
  import opened ProbeWaiting
  import Handlers

  ghost predicate Reachable(ps: seq<Provider>, s: System) {
    exists states, steps :: IsRun(ps, states, steps) && states[|states| - 1] == s
  }

  lemma ReachStep(ps: seq<Provider>, s: System, step: Step)
    requires Reachable(ps, s) && Enabled(ps, s, step)
    ensures Reachable(ps, Next(ps, s, step))
  {
    var states, steps :| IsRun(ps, states, steps) && states[|states| - 1] == s;
    var states', steps' := states + [Next(ps, s, step)], steps + [step];
    forall k | 0 <= k < |steps'| ensures StepAt(ps, states', steps', k) {
      if k < |steps| {
        assert StepAt(ps, states, steps, k);
        assert states'[k] == states[k] && states'[k + 1] == states[k + 1];
      }
    }
    assert IsRun(ps, states', steps');
  }

  lemma ReachableInv(ps: seq<Provider>, s: System)
    requires Reachable(ps, s)
    ensures Inv(ps, s)
  {
    var states, steps :| IsRun(ps, states, steps) && states[|states| - 1] == s;
    RunKeepsInv(ps, states, steps, |states| - 1);
  }

  // ----- the steps the scenarios are made of

  const ANY_MODEL: Query := Query("m", None)

  // The handler of a stream that is refused with 503.
  function Refused(): LastError {
    Handlers.HttpError("5xx", 503)
  }

  function Walk(q: Query, list: seq<nat>): Request {
    Started(NewRequest(q, Local), Local, list)
  }

  // One request has moved, and one cell has changed at most.
  ghost predicate Changed(s: System, s': System, r: nat, p: string, c: Cell) {
    && s'.now == s.now && s'.cells == s.cells[p := c]
    && s'.requests.Keys == s.requests.Keys + {r}
    && forall x :: x in s.requests && x != r ==> s'.requests[x] == s.requests[x]
  }

  // Only one request has moved.
  ghost predicate OnlyMoved(s: System, s': System, r: nat) {
    && s'.now == s.now && s'.cells == s.cells && s'.permits == s.permits
    && s'.requests.Keys == s.requests.Keys + {r}
    && forall x :: x in s.requests && x != r ==> s'.requests[x] == s.requests[x]
  }

  ghost predicate AtName(ps: seq<Provider>, s: System, r: nat, p: string) {
    && r in s.requests && s.requests[r].stage.Walking? && AtCandidate(ps, s.requests[r])
    && CandidateName(ps, s.requests[r]) == p && p in s.cells
  }

  lemma ReachArrive(ps: seq<Provider>, s: System, r: nat, q: Query, list: seq<nat>) returns (s': System)
    requires Reachable(ps, s) && r !in s.requests && Select(ps, q, Some(Local)) == Ok(list)
    ensures Reachable(ps, s') && s' == s.(requests := s.requests[r := Walk(q, list)])
  {
    ReachStep(ps, s, Arrive(r, q, Local));
    s' := s.(requests := s.requests[r := Walk(q, list)]);
  }

  lemma ReachNormal(ps: seq<Provider>, s: System, r: nat, p: string) returns (s': System)
    requires Reachable(ps, s) && AtName(ps, s, r, p) && s.cells[p].breaker.state == Closed
    ensures Reachable(ps, s') && OnlyMoved(s, s', r)
    ensures s'.requests[r] == Permitted(s.requests[r], s.requests[r].list[s.requests[r].pos])
  {
    ReachStep(ps, s, Acquire(r));
    s' := Next(ps, s, Acquire(r));
    assert s'.cells == s.cells;
  }

  lemma ReachRejected(ps: seq<Provider>, s: System, r: nat, p: string) returns (s': System)
    requires Reachable(ps, s) && AtName(ps, s, r, p)
    requires Checked(s.cells[p].breaker, s.now) == (s.cells[p].breaker, Rejected)
    ensures Reachable(ps, s') && OnlyMoved(s, s', r)
    ensures s'.requests[r] == Skipped(s.requests[r])
  {
    ReachStep(ps, s, Acquire(r));
    s' := Next(ps, s, Acquire(r));
    assert s'.cells == s.cells;
  }

  // A breaker that has been open for long enough, and the same with its probe granted.
  predicate Due(c: Cell, now: Instant) {
    && c.breaker.state == Open && c.breaker.openedAt.Some? && now >= c.breaker.openedAt.value + OPEN_DURATION
  }

  function Probing(c: Cell): Cell {
    c.(breaker := c.breaker.(state := HalfOpen, probeInFlight := true))
  }

  lemma ReachProbe(ps: seq<Provider>, s: System, r: nat, p: string) returns (s': System)
    requires Reachable(ps, s) && AtName(ps, s, r, p) && Due(s.cells[p], s.now)
    ensures Reachable(ps, s') && Changed(s, s', r, p, Probing(s.cells[p])) && s'.permits == s.permits + {(r, p)}
    ensures s'.requests[r] == Probed(s.requests[r], s.requests[r].list[s.requests[r].pos], p)
  {
    ReachStep(ps, s, Acquire(r));
    s' := Next(ps, s, Acquire(r));
  }

  lemma ReachWait(ps: seq<Provider>, s: System, r: nat, p: string) returns (s': System)
    requires Reachable(ps, s) && AtName(ps, s, r, p)
    requires s.cells[p].breaker.state == HalfOpen && s.cells[p].breaker.probeInFlight
    ensures Reachable(ps, s') && OnlyMoved(s, s', r)
    ensures s'.requests[r] == s.requests[r].(stage := Waiting(|s.cells[p].sent|)) && Blocked(ps, s', r)
  {
    ReachStep(ps, s, Acquire(r));
    s' := Next(ps, s, Acquire(r));
    assert s'.cells == s.cells;
  }

  lemma ReachResolved(ps: seq<Provider>, s: System, r: nat) returns (s': System)
    requires Reachable(ps, s) && Enabled(ps, s, Finish(r)) && s.requests[r].filtered != []
    ensures Reachable(ps, s') && s' == s.(requests := s.requests[r := s.requests[r].(stage := Resolved)])
  {
    ReachStep(ps, s, Finish(r));
    s' := Next(ps, s, Finish(r));
  }

  lemma ReachHandler(ps: seq<Provider>, s: System, r: nat) returns (s': System)
    requires Reachable(ps, s) && Enabled(ps, s, Finish(r)) && s.requests[r].filtered != []
    ensures Reachable(ps, s') && s'.cells == s.cells && s'.permits == s.permits && s'.now == s.now
    ensures s'.requests == s.requests[r := s.requests[r].(stage := Guarding)]
  {
    var s1 := ReachResolved(ps, s, r);
    ReachStep(ps, s1, CreateGuard(r));
    s' := Next(ps, s1, CreateGuard(r));
  }

  // A streaming request without a guard is refused with 503 by provider p.
  lemma ReachFailure(ps: seq<Provider>, s: System, r: nat, p: string) returns (s': System)
    requires Reachable(ps, s) && r in s.requests && s.requests[r].stage.Guarding? && s.requests[r].probe.None?
    requires s.requests[r].filtered != [] && NamesOf(ps, s.requests[r].filtered)[0] == p && p in s.cells
    ensures Reachable(ps, s') && s'.permits == s.permits && r in s'.requests && s'.requests[r].stage.Gone?
    ensures Changed(s, s', r, p, Cell(AfterFailure(s.cells[p].breaker, s.now, Refused()), s.cells[p].sent))
  {
    var log := Handlers.StreamingEvents(p, None, Handlers.SendFailed(503), s.now, s.now);
    assert Handlers.IsReport(NamesOf(ps, s.requests[r].filtered), None, s.now, log);
    ReachStep(ps, s, Report(r, log, false));
    s' := Next(ps, s, Report(r, log, false));
    FailureReported(ps, s, r, p);
  }

  lemma FailureReported(ps: seq<Provider>, s: System, r: nat, p: string)
    requires r in s.requests && s.requests[r].probe.None? && p in s.cells
    ensures var log := Handlers.StreamingEvents(p, None, Handlers.SendFailed(503), s.now, s.now);
      AfterReport(ps, s, r, log, false).cells ==
        s.cells[p := Cell(AfterFailure(s.cells[p].breaker, s.now, Refused()), s.cells[p].sent)]
  {
    var e := Event(p, At(s.now, Failure(Refused())));
    assert Handlers.StreamingEvents(p, None, Handlers.SendFailed(503), s.now, s.now) == [e];
    FailureOnly(s, e);
  }

  lemma FailureOnly(s: System, e: Event)
    ensures forall x :: x in s.cells ==>
      AfterEvents(s.cells[x].breaker, x, [e]) == if x == e.provider then Apply(s.cells[x].breaker, e.call)
        else s.cells[x].breaker
  {
    forall x | x in s.cells
      ensures AfterEvents(s.cells[x].breaker, x, [e]) == if x == e.provider then Apply(s.cells[x].breaker, e.call)
        else s.cells[x].breaker
    {
      OneEvent(s.cells[x].breaker, x, e);
    }
  }

  // ----- two breakers that are open

  const NEW_CELL: Cell := Cell(NEW_BREAKER, [])

  predicate ForAnyModel(q: Query) {
    q == ANY_MODEL
  }

  // "a" is cheaper than "b" for ANY_MODEL, and there are no other names.
  ghost predicate FirstAThenB(ps: seq<Provider>) {
    && |ps| >= 2 && ps[0].name == "a" && ps[1].name == "b"
    && (forall i :: 0 <= i < |ps| ==> ps[i].name == "a" || ps[i].name == "b")
    && (forall q :: ForAnyModel(q) ==> Select(ps, q, Some(Local)) == Ok([0, 1]))
  }

  lemma Arrives(ps: seq<Provider>, s: System, r: nat) returns (s': System)
    requires FirstAThenB(ps) && Reachable(ps, s) && r !in s.requests
    ensures Reachable(ps, s') && s' == s.(requests := s.requests[r := Walk(ANY_MODEL, [0, 1])])
  {
    assert ForAnyModel(ANY_MODEL);
    s' := ReachArrive(ps, s, r, ANY_MODEL, [0, 1]);
  }

  ghost predicate HasBoth(s: System) {
    "a" in s.cells && "b" in s.cells
  }

  lemma ReachInitial(ps: seq<Provider>) returns (s: System)
    requires FirstAThenB(ps)
    ensures Reachable(ps, s) && s == System(0, map["a" := NEW_CELL, "b" := NEW_CELL], map[], {})
  {
    s := System(0, map["a" := NEW_CELL, "b" := NEW_CELL], map[], {});
    assert IsRun(ps, [s], []);
    assert [s][|[s]| - 1] == s;
  }

  // r goes through both candidates, both closed, and is about to call "a".
  lemma ReachBoth(ps: seq<Provider>, s: System, r: nat) returns (s': System)
    requires FirstAThenB(ps) && Reachable(ps, s) && r !in s.requests && HasBoth(s)
    requires s.cells["a"].breaker.state == Closed && s.cells["b"].breaker.state == Closed
    ensures Reachable(ps, s') && s'.cells == s.cells && s'.permits == s.permits && s'.now == s.now
    ensures s'.requests.Keys == s.requests.Keys + {r} && forall x :: x in s.requests ==> s'.requests[x] == s.requests[x]
    ensures var q := s'.requests[r]; q.stage.Guarding? && q.probe.None? && q.filtered == [0, 1]
  {
    var s1 := WalksThrough(ps, s, r);
    s' := ReachHandler(ps, s1, r);
  }

  lemma WalksThrough(ps: seq<Provider>, s: System, r: nat) returns (s': System)
    requires FirstAThenB(ps) && Reachable(ps, s) && r !in s.requests && HasBoth(s)
    requires s.cells["a"].breaker.state == Closed && s.cells["b"].breaker.state == Closed
    ensures Reachable(ps, s') && OnlyMoved(s, s', r) && Enabled(ps, s', Finish(r))
    ensures s'.requests[r].probe.None? && s'.requests[r].filtered == [0, 1]
  {
    var s1 := Arrives(ps, s, r);
    var s2 := ReachNormal(ps, s1, r, "a");
    s' := ReachNormal(ps, s2, r, "b");
    assert [] + [0] + [1] == [0, 1];
  }

  // r is let through to "b" only.
  lemma ReachSecond(ps: seq<Provider>, s: System, r: nat) returns (s': System)
    requires FirstAThenB(ps) && Reachable(ps, s) && r !in s.requests && HasBoth(s)
    requires Checked(s.cells["a"].breaker, s.now) == (s.cells["a"].breaker, Rejected)
    requires s.cells["b"].breaker.state == Closed
    ensures Reachable(ps, s') && s'.cells == s.cells && s'.permits == s.permits && s'.now == s.now
    ensures s'.requests.Keys == s.requests.Keys + {r} && forall x :: x in s.requests ==> s'.requests[x] == s.requests[x]
    ensures var q := s'.requests[r]; q.stage.Guarding? && q.probe.None? && q.filtered == [1]
  {
    var s1 := Arrives(ps, s, r);
    var s2 := ReachRejected(ps, s1, r, "a");
    var s3 := ReachNormal(ps, s2, r, "b");
    s' := ReachHandler(ps, s3, r);
    assert [] + [1] == [1];
  }

  // What has become of the other requests does not matter: those numbered below 10 are untouched.
  ghost predicate SameBelow10(s: System, s': System) {
    forall x :: x < 10 ==>
      (x in s'.requests <==> x in s.requests) && (x in s.requests ==> s'.requests[x] == s.requests[x])
  }

  // A request that "a" refuses.
  lemma FailA(ps: seq<Provider>, s: System, r: nat) returns (s': System)
    requires FirstAThenB(ps) && Reachable(ps, s) && 10 <= r && r !in s.requests && HasBoth(s)
    requires s.cells["a"].breaker.state == Closed && s.cells["b"].breaker.state == Closed
    ensures Reachable(ps, s') && s'.now == s.now && s'.permits == s.permits && SameBelow10(s, s')
    ensures s'.cells == s.cells["a" := Cell(AfterFailure(s.cells["a"].breaker, s.now, Refused()), s.cells["a"].sent)]
    ensures s'.requests.Keys == s.requests.Keys + {r}
  {
    var s1 := ReachBoth(ps, s, r);
    s' := ReachFailure(ps, s1, r, "a");
  }

  lemma FailB(ps: seq<Provider>, s: System, r: nat) returns (s': System)
    requires FirstAThenB(ps) && Reachable(ps, s) && 10 <= r && r !in s.requests && HasBoth(s)
    requires Checked(s.cells["a"].breaker, s.now) == (s.cells["a"].breaker, Rejected)
    requires s.cells["b"].breaker.state == Closed
    ensures Reachable(ps, s') && s'.now == s.now && s'.permits == s.permits && SameBelow10(s, s')
    ensures s'.cells == s.cells["b" := Cell(AfterFailure(s.cells["b"].breaker, s.now, Refused()), s.cells["b"].sent)]
    ensures s'.requests.Keys == s.requests.Keys + {r}
  {
    var s1 := ReachSecond(ps, s, r);
    s' := ReachFailure(ps, s1, r, "b");
  }

  function AfterThree(t: Instant): Breaker {
    Breaker(Open, 3, Some(t), Some(t), None, Some(Refused()), 1, false)
  }

  // Three refusals in a row.
  lemma TripA(ps: seq<Provider>, s: System) returns (s': System)
    requires FirstAThenB(ps) && Reachable(ps, s) && s.cells == map["a" := NEW_CELL, "b" := NEW_CELL]
    requires forall x :: x in s.requests ==> x < 10
    ensures Reachable(ps, s') && s'.now == s.now && s'.permits == s.permits && SameBelow10(s, s')
    ensures s'.cells == map["a" := Cell(AfterThree(s.now), []), "b" := NEW_CELL]
    ensures forall x :: x in s'.requests ==> x < 13
  {
    var s1 := FailA(ps, s, 10);
    var s2 := FailA(ps, s1, 11);
    s' := FailA(ps, s2, 12);
    assert s'.cells == map["a" := Cell(AfterThree(s.now), []), "b" := NEW_CELL];
  }

  lemma TripB(ps: seq<Provider>, s: System, t: Instant) returns (s': System)
    requires FirstAThenB(ps) && Reachable(ps, s) && s.cells == map["a" := Cell(AfterThree(t), []), "b" := NEW_CELL]
    requires t <= s.now < t + OPEN_DURATION
    requires forall x :: x in s.requests ==> x < 13
    ensures Reachable(ps, s') && s'.now == s.now && s'.permits == s.permits && SameBelow10(s, s')
    ensures s'.cells == map["a" := Cell(AfterThree(t), []), "b" := Cell(AfterThree(s.now), [])]
  {
    var s1 := FailB(ps, s, 13);
    var s2 := FailB(ps, s1, 14);
    s' := FailB(ps, s2, 15);
    assert s'.cells == map["a" := Cell(AfterThree(t), []), "b" := Cell(AfterThree(s.now), [])];
  }

  const DUE: Cell := Cell(AfterThree(0), [])

  lemma ReachTick(ps: seq<Provider>, s: System, d: nat) returns (s': System)
    requires Reachable(ps, s)
    ensures Reachable(ps, s') && s' == s.(now := s.now + d)
  {
    ReachStep(ps, s, Tick(d));
    s' := Next(ps, s, Tick(d));
  }

  // Both breakers have tripped, their 30 seconds are over, and nobody holds a permit.
  ghost predicate BothDue(s: System) {
    && s.now == OPEN_DURATION && s.cells == map["a" := DUE, "b" := DUE] && s.permits == {}
    && forall x :: x < 10 ==> x !in s.requests
  }

  lemma ReachBothDue(ps: seq<Provider>) returns (s: System)
    requires FirstAThenB(ps)
    ensures Reachable(ps, s) && BothDue(s)
  {
    var s0 := ReachInitial(ps);
    var s1 := TripA(ps, s0);
    var s2 := TripB(ps, s1, 0);
    s := ReachTick(ps, s2, OPEN_DURATION);
  }

  // Request 0 has been granted the probe of "a" and is about to ask for "b".
  ghost predicate HoldsA(s: System) {
    && s.now == OPEN_DURATION && s.cells == map["a" := Probing(DUE), "b" := DUE] && s.permits == {(0, "a")}
    && 0 in s.requests && s.requests[0] == Probed(Walk(ANY_MODEL, [0, 1]), 0, "a")
    && forall x :: 0 < x < 10 ==> x !in s.requests
  }

  lemma ReachHoldsA(ps: seq<Provider>) returns (s: System)
    requires FirstAThenB(ps)
    ensures Reachable(ps, s) && HoldsA(s)
  {
    var s0 := ReachBothDue(ps);
    var s1 := Arrives(ps, s0, 0);
    s := ReachProbe(ps, s1, 0, "a");
  }

  // ----- the three ways to lose a permit

  ghost predicate SomeOrphan(ps: seq<Provider>, p: string) {
    exists s :: Reachable(ps, s) && Orphaned(s, p)
  }

  // Request 0 has both probes; its guard will be for "b".
  ghost predicate HoldsBoth(s: System) {
    && s.now == OPEN_DURATION && s.cells == map["a" := Probing(DUE), "b" := Probing(DUE)]
    && s.permits == {(0, "a"), (0, "b")}
    && 0 in s.requests && s.requests[0].probe == Some("b") && s.requests[0].filtered == [1, 0]
    && s.requests[0].stage.Walking? && s.requests[0].pos == 2 == |s.requests[0].list|
    && 1 !in s.requests
  }

  lemma ReachHoldsBoth(ps: seq<Provider>) returns (s: System)
    requires FirstAThenB(ps)
    ensures Reachable(ps, s) && HoldsBoth(s)
  {
    var s0 := ReachHoldsA(ps);
    s := ReachProbe(ps, s0, 0, "b");
    assert [1] + ([0] + []) == [1, 0];
  }

  /** A walk that is granted two probes keeps the name of the last only: its guard resolves that one. */
  lemma SecondProbeOrphansTheFirst(ps: seq<Provider>)
    requires FirstAThenB(ps)
    ensures SomeOrphan(ps, "a")
  {
    var s0 := ReachHoldsBoth(ps);
    var s1 := ReachHandler(ps, s0, 0);
    GuardResolvesOne(ps, s1);
  }

  lemma GuardResolvesOne(ps: seq<Provider>, s: System)
    requires FirstAThenB(ps) && Reachable(ps, s) && 0 in s.requests && s.requests[0].stage.Guarding?
    requires s.requests[0].probe == Some("b") && s.requests[0].filtered == [1, 0]
    requires s.permits == {(0, "a"), (0, "b")} && "a" in s.cells && s.cells["a"] == Probing(DUE)
    ensures SomeOrphan(ps, "a")
  {
    var log := Handlers.StreamingEvents("b", Some("b"), Handlers.Opened, s.now, s.now);
    assert NamesOf(ps, s.requests[0].filtered)[0] == "b";
    assert Handlers.IsReport(NamesOf(ps, s.requests[0].filtered), Some("b"), s.now, log);
    OnlyB(s.now);
    LastHolderLeaves(ps, s, Report(0, log, false), "a");
  }

  lemma OnlyB(now: Instant)
    ensures CallsOn(Handlers.StreamingEvents("b", Some("b"), Handlers.Opened, now, now), "a") == []
  {
    var e, g := Event("b", At(now, Success)), Event("b", At(now, ProbeSuccess));
    assert Handlers.StreamingEvents("b", Some("b"), Handlers.Opened, now, now) == [e, g];
    assert [e, g][..1] == [e] && [e][..0] == [];
    assert CallsOn([e], "a") == [];
  }

  /** A vault refusal between the walk and the guard loses every probe the walk was granted. */
  lemma RefusalOrphans(ps: seq<Provider>)
    requires FirstAThenB(ps)
    ensures SomeOrphan(ps, "a") && SomeOrphan(ps, "b")
  {
    var s0 := ReachHoldsBoth(ps);
    var s := ReachResolved(ps, s0, 0);
    LastHolderLeaves(ps, s, EarlyReturn(0), "a");
    LastHolderLeaves(ps, s, EarlyReturn(0), "b");
  }

  lemma LastHolderLeaves(ps: seq<Provider>, s: System, step: Step, p: string)
    requires Reachable(ps, s) && Enabled(ps, s, step) && LosesPermit(s, step, p)
    ensures Reachable(ps, Next(ps, s, step)) && Orphaned(Next(ps, s, step), p)
  {
    ReachableInv(ps, s);
    ReachStep(ps, s, step);
    LeavingLoses(ps, s, step, p);
  }

  // "a" tripped one tick before "b".
  lemma ReachStaggered(ps: seq<Provider>) returns (s: System)
    requires FirstAThenB(ps)
    ensures Reachable(ps, s) && s.now == OPEN_DURATION && s.permits == {}
    ensures s.cells == map["a" := Cell(AfterThree(0), []), "b" := Cell(AfterThree(1), [])]
    ensures forall x :: x < 10 ==> x !in s.requests
  {
    var s0 := ReachInitial(ps);
    var s1 := TripA(ps, s0);
    var s2 := ReachTick(ps, s1, 1);
    var s3 := TripB(ps, s2, 0);
    s := ReachTick(ps, s3, OPEN_DURATION - 1);
  }

  // Request 3 probes "a" alone, and its client leaves during the call.
  lemma ReachReopened(ps: seq<Provider>, s: System) returns (s': System)
    requires FirstAThenB(ps) && Reachable(ps, s) && s.now == OPEN_DURATION && s.permits == {}
    requires s.cells == map["a" := Cell(AfterThree(0), []), "b" := Cell(AfterThree(1), [])]
    requires forall x :: x < 10 ==> x !in s.requests
    ensures Reachable(ps, s') && s'.now == OPEN_DURATION && s'.permits == {} && HasBoth(s')
    ensures s'.cells["b"] == s.cells["b"]
    ensures s'.cells["a"].breaker == AfterProbeFailure(Probing(s.cells["a"]).breaker, OPEN_DURATION, DROPPED)
    ensures forall x :: x < 3 ==> x !in s'.requests
  {
    var s1 := ReachOnlyA(ps, s);
    s' := ReachDropped(ps, s1, 3, "a");
    assert s1.permits - {(3, "a")} == {};
  }

  lemma ReachOnlyA(ps: seq<Provider>, s: System) returns (s': System)
    requires FirstAThenB(ps) && Reachable(ps, s) && s.permits == {} && HasBoth(s)
    requires forall x :: x < 10 ==> x !in s.requests
    requires Due(s.cells["a"], s.now) && Checked(s.cells["b"].breaker, s.now) == (s.cells["b"].breaker, Rejected)
    ensures Reachable(ps, s') && s'.now == s.now && s'.permits == {(3, "a")}
    ensures s'.cells == s.cells["a" := Probing(s.cells["a"])]
    ensures s'.requests.Keys == s.requests.Keys + {3} && s'.requests[3].stage.Guarding?
    ensures s'.requests[3].probe == Some("a") && s'.requests[3].filtered != []
  {
    var s1 := Arrives(ps, s, 3);
    var s2 := ReachProbe(ps, s1, 3, "a");
    var s3 := ReachRejected(ps, s2, 3, "b");
    s' := ReachHandler(ps, s3, 3);
  }

  // The client of a prober leaves.
  lemma ReachDropped(ps: seq<Provider>, s: System, r: nat, p: string) returns (s': System)
    requires Reachable(ps, s) && r in s.requests && s.requests[r].stage.Guarding? && s.requests[r].probe == Some(p)
    requires s.requests[r].filtered != [] && p in s.cells
    ensures Reachable(ps, s') && s'.permits == s.permits - {(r, p)} && s'.now == s.now
    ensures s'.requests == s.requests[r := s.requests[r].(stage := Gone)] && s'.cells.Keys == s.cells.Keys
    ensures s'.cells[p].breaker == AfterProbeFailure(s.cells[p].breaker, s.now, DROPPED)
    ensures forall x :: x in s.cells && x != p ==> s'.cells[x] == s.cells[x]
  {
    var names := NamesOf(ps, s.requests[r].filtered);
    var log := Handlers.StreamingEvents(names[0], Some(p), Handlers.Disconnected, s.now, s.now);
    assert Handlers.IsReport(names, Some(p), s.now, log);
    ReachStep(ps, s, Report(r, log, false));
    s' := Next(ps, s, Report(r, log, false));
    DropReported(ps, s, r, names[0], p);
  }

  lemma DropReported(ps: seq<Provider>, s: System, r: nat, name: string, p: string)
    requires r in s.requests && s.requests[r].probe == Some(p) && p in s.cells
    ensures var s' :=
      AfterReport(ps, s, r, Handlers.StreamingEvents(name, Some(p), Handlers.Disconnected, s.now, s.now), false);
      && s'.cells.Keys == s.cells.Keys
      && s'.cells[p].breaker == AfterProbeFailure(s.cells[p].breaker, s.now, DROPPED)
      && forall x :: x in s.cells && x != p ==> s'.cells[x] == s.cells[x]
  {
    var e := Event(p, At(s.now, ProbeFailure(DROPPED)));
    assert Handlers.StreamingEvents(name, Some(p), Handlers.Disconnected, s.now, s.now) == [e];
    FailureOnly(s, e);
  }

  // Request 2 probes "b", "a" having been opened again; later request 0 probes "a" and waits for "b".
  lemma ReachParkedHolder(ps: seq<Provider>, s: System) returns (s': System)
    requires FirstAThenB(ps) && Reachable(ps, s) && s.now == OPEN_DURATION && s.permits == {} && HasBoth(s)
    requires s.cells["b"] == Cell(AfterThree(1), []) && forall x :: x < 3 ==> x !in s.requests
    requires s.cells["a"].breaker == AfterProbeFailure(Probing(Cell(AfterThree(0), [])).breaker, OPEN_DURATION, DROPPED)
    ensures Reachable(ps, s') && s'.permits == {(2, "b"), (0, "a")} && HasBoth(s') && 1 !in s'.requests
    ensures s'.cells["a"].breaker.state == HalfOpen && s'.cells["a"].breaker.probeInFlight && Blocked(ps, s', 0)
  {
    var s1 := ReachTick(ps, s, 1);
    var s2 := ReachProberOfB(ps, s1);
    var s3 := ReachTick(ps, s2, OPEN_DURATION - 1);
    s' := ReachParked(ps, s3);
  }

  lemma ReachProberOfB(ps: seq<Provider>, s: System) returns (s': System)
    requires FirstAThenB(ps) && Reachable(ps, s) && s.permits == {} && HasBoth(s)
    requires forall x :: x < 3 ==> x !in s.requests
    requires Checked(s.cells["a"].breaker, s.now) == (s.cells["a"].breaker, Rejected) && Due(s.cells["b"], s.now)
    ensures Reachable(ps, s') && s'.now == s.now && s'.permits == {(2, "b")}
    ensures s'.cells == s.cells["b" := Probing(s.cells["b"])] && 0 !in s'.requests && 1 !in s'.requests
  {
    var s1 := Arrives(ps, s, 2);
    var s2 := ReachRejected(ps, s1, 2, "a");
    var s3 := ReachProbe(ps, s2, 2, "b");
    s' := ReachHandler(ps, s3, 2);
  }

  lemma ReachParked(ps: seq<Provider>, s: System) returns (s': System)
    requires FirstAThenB(ps) && Reachable(ps, s) && HasBoth(s) && s.permits == {(2, "b")} && 0 !in s.requests
    requires 1 !in s.requests
    requires Due(s.cells["a"], s.now) && s.cells["b"].breaker.state == HalfOpen && s.cells["b"].breaker.probeInFlight
    ensures Reachable(ps, s') && s'.permits == {(2, "b"), (0, "a")} && HasBoth(s') && 1 !in s'.requests
    ensures s'.cells["a"].breaker.state == HalfOpen && s'.cells["a"].breaker.probeInFlight && Blocked(ps, s', 0)
  {
    var s1 := Arrives(ps, s, 0);
    var s2 := ReachProbe(ps, s1, 0, "a");
    s' := ReachWait(ps, s2, 0, "b");
  }

  /** A client that leaves while its request waits for one probe loses the other it was granted, and
      whoever waits for that one waits for a permit nobody can give back, unique names or not. */
  lemma AbandonedWaiter(ps: seq<Provider>)
    requires FirstAThenB(ps)
    ensures SomeOrphan(ps, "a")
    ensures exists s :: Reachable(ps, s) && Blocked(ps, s, 1) && LeadsToDoom(ps, s, 1, [1])
  {
    var s0 := ReachStaggered(ps);
    var s1 := ReachReopened(ps, s0);
    var s2 := ReachParkedHolder(ps, s1);
    AbandonedTwice(ps, s2);
  }

  lemma AbandonedTwice(ps: seq<Provider>, s: System)
    requires FirstAThenB(ps) && Reachable(ps, s) && s.permits == {(2, "b"), (0, "a")} && HasBoth(s) && 1 !in s.requests
    requires s.cells["a"].breaker.state == HalfOpen && s.cells["a"].breaker.probeInFlight && Blocked(ps, s, 0)
    ensures SomeOrphan(ps, "a")
    ensures exists s' :: Reachable(ps, s') && Blocked(ps, s', 1) && LeadsToDoom(ps, s', 1, [1])
  {
    var s1 := Arrives(ps, s, 1);
    var s2 := ReachWait(ps, s1, 1, "a");
    LastHolderLeaves(ps, s2, Abandon(0), "a");
    StillWaiting(ps, s2, Next(ps, s2, Abandon(0)));
  }

  lemma StillWaiting(ps: seq<Provider>, s: System, s': System)
    requires Blocked(ps, s, 1) && Wanted(ps, s, 1) == "a" && Doomed(s', "a")
    requires s'.cells == s.cells && 1 in s'.requests && s'.requests[1] == s.requests[1]
    ensures Blocked(ps, s', 1) && LeadsToDoom(ps, s', 1, [1])
  {
    assert IsAwaitChain(ps, s', [1]) && [1][0] == 1;
  }

  // Request 1 waits for a probe whose holder is there, and guards another.
  ghost predicate WaitsInVain(ps: seq<Provider>, s: System) {
    && Reachable(ps, s) && LeadsToDoom(ps, s, 1, [1])
    && 0 in s.requests && s.requests[0].stage.Guarding? && WaitsFor(ps, s, 1, 0) && !Orphaned(s, "a")
  }

  /** A holder that is still there is not enough: when a walk is granted two probes, whoever waits for the
      first waits in vain from the second grant on, long before the handler has ended. */
  lemma GuardedElsewhere(ps: seq<Provider>)
    requires FirstAThenB(ps)
    ensures exists s :: WaitsInVain(ps, s)
  {
    var s0 := ReachHoldsBoth(ps);
    var s1 := ReachHandler(ps, s0, 0);
    var s2 := Arrives(ps, s1, 1);
    var s3 := ReachWait(ps, s2, 1, "a");
    assert Doomed(s3, "a");
    StillWaiting(ps, s3, s3);
    assert WaitsFor(ps, s3, 1, 0);
    assert (0, "a") in s3.permits;
    assert WaitsInVain(ps, s3);
  }

  // ----- two permits at once

  ghost predicate SomeDoubleGrant(ps: seq<Provider>, p: string) {
    exists s, g, h :: (
      && Reachable(ps, s) && Holders(s, p) == {(g, p), (h, p)} && |Holders(s, p)| == 2
      && g in s.requests && s.requests[g].stage.Guarding? && h in s.requests && !s.requests[h].stage.Gone?)
  }

  /** A late failure: a request is let through while "a" is closed; others make it trip; after 30 seconds
      somebody gets the probe; now the first request reports its 503, which opens the half-open breaker
      over the prober's head, and 30 seconds later a second permit is granted. */
  lemma TwoPermitsAtOnce(ps: seq<Provider>)
    requires FirstAThenB(ps)
    ensures SomeDoubleGrant(ps, "a")
  {
    var s0 := ReachInitial(ps);
    var s1 := ReachBoth(ps, s0, 0);
    var s2 := TripA(ps, s1);
    var s3 := ReachTick(ps, s2, OPEN_DURATION);
    var s4 := ReachProberOfA(ps, s3, 1);
    LateFailure(ps, s4);
  }

  // r gets the probe of "a" and is let through to "b".
  lemma ReachProberOfA(ps: seq<Provider>, s: System, r: nat) returns (s': System)
    requires FirstAThenB(ps) && Reachable(ps, s) && HasBoth(s) && r !in s.requests
    requires Due(s.cells["a"], s.now) && s.cells["b"].breaker.state == Closed
    ensures Reachable(ps, s') && s'.now == s.now && s'.permits == s.permits + {(r, "a")}
    ensures s'.cells == s.cells["a" := Probing(s.cells["a"])] && s'.requests.Keys == s.requests.Keys + {r}
    ensures s'.requests[r].stage.Guarding? && forall x :: x in s.requests ==> s'.requests[x] == s.requests[x]
  {
    var s1 := Arrives(ps, s, r);
    var s2 := ReachProbe(ps, s1, r, "a");
    var s3 := ReachNormal(ps, s2, r, "b");
    s' := ReachHandler(ps, s3, r);
  }

  lemma LateFailure(ps: seq<Provider>, s: System)
    requires FirstAThenB(ps) && Reachable(ps, s) && s.permits == {(1, "a")} && 2 !in s.requests
    requires HasBoth(s) && s.cells["a"] == Probing(DUE)
    requires 0 in s.requests && s.requests[0].stage.Guarding? && s.requests[0].probe.None?
    requires s.requests[0].filtered == [0, 1]
    requires 1 in s.requests && s.requests[1].stage.Guarding?
    ensures SomeDoubleGrant(ps, "a")
  {
    var s1 := ReachFailure(ps, s, 0, "a");
    var s2 := ReachTick(ps, s1, OPEN_DURATION);
    var s3 := Arrives(ps, s2, 2);
    var s4 := ReachProbe(ps, s3, 2, "a");
    assert Holders(s4, "a") == {(1, "a"), (2, "a")};
    assert 1 in s4.requests && s4.requests[1].stage.Guarding? && 2 in s4.requests;
  }

  // ----- two names alike

  lemma PairIsCandidateList(ps: seq<Provider>, q: Query, i: nat, j: nat)
    requires Eligible(ps, q, Some(Local), i) && Eligible(ps, q, Some(Local), j)
    requires forall k: nat :: Eligible(ps, q, Some(Local), k) ==> k == i || k == j
    requires Before(ps, i, j) && ps[i].name != ps[j].name
    ensures IsCandidateList(ps, q, Some(Local), [i, j])
  {
    var s := [i, j];
    assert s[0] == i && s[1] == j;
    forall k: nat | Eligible(ps, q, Some(Local), k) ensures Represented(ps, s, k) {
      assert s[if k == i then 0 else 1] == k;
    }
  }

  lemma SelectsPair(ps: seq<Provider>, q: Query, i: nat, j: nat)
    requires IsCandidateList(ps, q, Some(Local), [i, j]) && q.policy.None?
    ensures Select(ps, q, Some(Local)) == Ok([i, j])
  {
    SelectCharacterisation(ps, q, Some(Local), [i, j]);
  }

  // "a" for model "m", then "b", then "a" again for model "n" at a higher price.
  predicate NamedTwice(ps: seq<Provider>) {
    && |ps| == 3
    && ps[0] == Provider("a", ["m"], 1, 1, 0, Local)
    && ps[1] == Provider("b", [], 2, 2, 0, Local)
    && ps[2] == Provider("a", ["n"], 3, 3, 0, Local)
  }

  const OTHER_MODEL: Query := Query("n", None)

  lemma OrderForM(ps: seq<Provider>)
    requires NamedTwice(ps)
    ensures FirstAThenB(ps)
  {
    forall q | ForAnyModel(q) ensures Select(ps, q, Some(Local)) == Ok([0, 1]) {
      PairIsCandidateList(ps, q, 0, 1);
      SelectsPair(ps, q, 0, 1);
    }
  }

  lemma OrderForN(ps: seq<Provider>)
    requires NamedTwice(ps)
    ensures Select(ps, OTHER_MODEL, Some(Local)) == Ok([1, 2])
  {
    PairIsCandidateList(ps, OTHER_MODEL, 1, 2);
    SelectsPair(ps, OTHER_MODEL, 1, 2);
  }

  /** The lists of such a configuration agree on no order of the names ... */
  lemma NamedTwiceDisagree(ps: seq<Provider>, rank: string -> int)
    requires NamedTwice(ps)
    ensures !ListsAgree(ps, rank)
  {
    OrderForM(ps);
    OrderForN(ps);
    assert ForAnyModel(ANY_MODEL);
    Crossed(ps, rank, [0, 1], [1, 2]);
  }

  lemma Crossed(ps: seq<Provider>, rank: string -> int, s: seq<nat>, t: seq<nat>)
    requires |s| == |t| == 2 && InRange(ps, s) && InRange(ps, t)
    requires ps[s[0]].name == ps[t[1]].name && ps[s[1]].name == ps[t[0]].name
    ensures !(Increasing(ps, s, rank) && Increasing(ps, t, rank))
  {
    assert Increasing(ps, s, rank) ==> rank(ps[s[0]].name) < rank(ps[s[1]].name);
  }

  ghost predicate SomeDeadlock(ps: seq<Provider>) {
    exists s :: Reachable(ps, s) && WaitsFor(ps, s, 0, 1) && WaitsFor(ps, s, 1, 0)
  }

  /** ... and two requests for different models can wait for each other. */
  lemma DuplicateNamesDeadlock(ps: seq<Provider>)
    requires NamedTwice(ps)
    ensures SomeDeadlock(ps)
  {
    OrderForM(ps);
    OrderForN(ps);
    var s0 := ReachHoldsA(ps);
    var s1 := ReachArrive(ps, s0, 1, OTHER_MODEL, [1, 2]);
    var s2 := ReachProbe(ps, s1, 1, "b");
    BothPark(ps, s2);
  }

  lemma BothPark(ps: seq<Provider>, s: System)
    requires Reachable(ps, s) && AtName(ps, s, 0, "b") && AtName(ps, s, 1, "a") && s.permits == {(0, "a"), (1, "b")}
    requires s.cells["a"] == Probing(DUE) == s.cells["b"]
    ensures SomeDeadlock(ps)
  {
    var s1 := ReachWait(ps, s, 0, "b");
    var s2 := ReachWait(ps, s1, 1, "a");
    assert WaitsFor(ps, s2, 0, 1) && WaitsFor(ps, s2, 1, 0);
  }

  /** The other scenarios need no more than two providers. */
  lemma TwoProvidersWillDo(ps: seq<Provider>)
    requires ps == [Provider("a", [], 1, 1, 0, Local), Provider("b", [], 2, 2, 0, Local)]
    ensures FirstAThenB(ps) && UniqueNames(ps)
  {
    forall q | ForAnyModel(q) ensures Select(ps, q, Some(Local)) == Ok([0, 1]) {
      PairIsCandidateList(ps, q, 0, 1);
      SelectsPair(ps, q, 0, 1);
    }
  }
}
