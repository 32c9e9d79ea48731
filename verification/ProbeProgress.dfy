/** What a holder of a probe can do on its own: it can give the probe back, and wake whoever waits for
    it, exactly when nothing is in the way of the rest of its walk. */
module ProbeProgress {
  import opened Common
  import opened CircuitBreaker
  import opened Registry
  import opened Selector
  import opened ProbeProtocol
  import opened ProbeTheorems
  import opened ProbeWaiting
  import Handlers

  // The system after a step, if the step can be taken.
  ghost function After(ps: seq<Provider>): (System, Step) -> Option<System> {
    (s: System, step: Step) => if Enabled(ps, s, step) then Some(Next(ps, s, step)) else None
  }

  predicate Follows(after: (System, Step) -> Option<System>, s: System, steps: seq<Step>, s': System)
    decreases |steps|
  {
    if steps == [] then s' == s
    else after(s, steps[0]).Some? && Follows(after, after(s, steps[0]).value, steps[1..], s')
  }

  // The steps can be taken one after the other, and lead from s to s'.
  ghost predicate Leads(ps: seq<Provider>, s: System, steps: seq<Step>, s': System) {
    Follows(After(ps), s, steps, s')
  }

  lemma {:induction false} FollowsOneMore(after: (System, Step) -> Option<System>, s: System, steps: seq<Step>,
                                          m: System, last: Step)
    requires Follows(after, s, steps, m) && after(m, last).Some?
    ensures Follows(after, s, steps + [last], after(m, last).value)
    decreases |steps|
  {
    if steps == [] {
      assert steps + [last] == [last] && [last][1..] == [];
    } else {
      FollowsOneMore(after, after(s, steps[0]).value, steps[1..], m, last);
      assert (steps + [last])[1..] == steps[1..] + [last];
    }
  }

  lemma LeadsOneMore(ps: seq<Provider>, s: System, steps: seq<Step>, m: System, last: Step)
    requires Leads(ps, s, steps, m) && Enabled(ps, m, last)
    ensures Leads(ps, s, steps + [last], Next(ps, m, last))
  {
    assert After(ps)(m, last) == Some(Next(ps, m, last));
    FollowsOneMore(After(ps), s, steps, m, last);
  }

  // A step of h that is not leaving.
  predicate OwnMove(step: Step, h: nat) {
    (step.Acquire? || step.Wake? || step.Finish? || step.CreateGuard? || step.Report?) && step.r == h
  }

  predicate AllOwn(steps: seq<Step>, h: nat) {
    forall k :: 0 <= k < |steps| ==> OwnMove(steps[k], h)
  }

  // One step of h, and then the rest.
  lemma LeadsFirst(ps: seq<Provider>, s: System, h: nat, step: Step, rest: seq<Step>, s': System)
    requires Enabled(ps, s, step) && OwnMove(step, h) && Leads(ps, Next(ps, s, step), rest, s') && AllOwn(rest, h)
    ensures Leads(ps, s, [step] + rest, s') && AllOwn([step] + rest, h)
  {
    assert ([step] + rest)[1..] == rest;
  }

  // Asking for candidate i is answered at once, without a probe.
  predicate Clear(ps: seq<Provider>, s: System, i: nat) {
    && i < |ps| && ps[i].name in s.cells
    && (var answer := Checked(s.cells[ps[i].name].breaker, s.now).1; answer == Allowed || answer == Rejected)
  }

  predicate WayClear(ps: seq<Provider>, s: System, q: Request, from: nat) {
    forall k :: from <= k < |q.list| ==> Clear(ps, s, q.list[k])
  }

  // h has its guard, or nothing is in the way of the rest of its walk.
  predicate Ready(ps: seq<Provider>, s: System, h: nat) {
    h in s.requests &&
      var q := s.requests[h];
      match q.stage
      case Guarding => true
      case Resolved => true
      case Walking => WayClear(ps, s, q, q.pos)
      case Waiting(_) => !Blocked(ps, s, h) && WayClear(ps, s, q, q.pos + 1)
      case Gone => false
  }

  // Only the request of h has changed, and it still has its probe.
  ghost predicate OnlyWalked(s: System, s': System, h: nat) {
    && s'.now == s.now && s'.cells == s.cells && s'.permits == s.permits && s'.requests.Keys == s.requests.Keys
    && (forall x :: x in s.requests && x != h ==> s'.requests[x] == s.requests[x])
    && h in s.requests && s'.requests[h].probe == s.requests[h].probe && s'.requests[h].list == s.requests[h].list
  }

  lemma ClearStep(ps: seq<Provider>, s: System, h: nat)
    requires Inv(ps, s) && h in s.requests && s.requests[h].stage.Walking? && s.requests[h].pos < |s.requests[h].list|
    requires Clear(ps, s, s.requests[h].list[s.requests[h].pos])
    ensures Enabled(ps, s, Acquire(h))
    ensures var s' := Next(ps, s, Acquire(h));
      && OnlyWalked(s, s', h) && s'.requests[h].stage.Walking? && s'.requests[h].pos == s.requests[h].pos + 1
  {
    var s', p := Next(ps, s, Acquire(h)), CandidateName(ps, s.requests[h]);
    assert s'.cells == s.cells[p := s.cells[p]] == s.cells;
  }

  lemma WakeStep(ps: seq<Provider>, s: System, h: nat)
    requires Inv(ps, s) && h in s.requests && s.requests[h].stage.Waiting? && !Blocked(ps, s, h)
    ensures Enabled(ps, s, Wake(h))
    ensures var s' := Next(ps, s, Wake(h));
      && OnlyWalked(s, s', h) && s'.requests[h].stage.Walking? && s'.requests[h].pos == s.requests[h].pos + 1
  {
    var q := s.requests[h];
    assert RequestOk(ps, s, h, q) && CellOk(s, CandidateName(ps, q));
  }

  lemma MakesGuard(ps: seq<Provider>, s: System, h: nat) returns (steps: seq<Step>, s': System)
    requires Inv(ps, s) && h in s.requests && s.requests[h].stage.Resolved?
    ensures Leads(ps, s, steps, s') && AllOwn(steps, h) && Inv(ps, s')
    ensures OnlyWalked(s, s', h) && s'.requests[h].stage.Guarding?
  {
    s' := Next(ps, s, CreateGuard(h));
    LeadsFirst(ps, s, h, CreateGuard(h), [], s');
    steps := [CreateGuard(h)] + [];
    StepKeepsInv(ps, s, CreateGuard(h));
  }

  // The end of a walk that was given a permit.
  lemma FinishStep(ps: seq<Provider>, s: System, h: nat, p: string)
    requires Inv(ps, s) && Able(s, h, p) && s.requests[h].stage.Walking? && s.requests[h].pos == |s.requests[h].list|
    ensures Enabled(ps, s, Finish(h)) && Inv(ps, Next(ps, s, Finish(h)))
    ensures OnlyWalked(s, Next(ps, s, Finish(h)), h) && Next(ps, s, Finish(h)).requests[h].stage.Resolved?
  {
    assert RequestOk(ps, s, h, s.requests[h]);
    StepKeepsInv(ps, s, Finish(h));
  }

  lemma ClearsTheWay(ps: seq<Provider>, s: System, h: nat, p: string, s': System)
    requires Able(s, h, p) && OnlyWalked(s, s', h) && !s'.requests[h].stage.Gone?
    requires s.requests[h].stage.Walking? || s.requests[h].stage.Waiting?
    requires WayClear(ps, s, s.requests[h], s.requests[h].pos + 1) && s'.requests[h].pos == s.requests[h].pos + 1
    ensures Able(s', h, p) && WayClear(ps, s', s'.requests[h], s'.requests[h].pos)
  {
    var q, q' := s.requests[h], s'.requests[h];
    forall k | q'.pos <= k < |q'.list| ensures Clear(ps, s', q'.list[k]) {
      assert Clear(ps, s, q.list[k]);
    }
  }

  // The rest of the walk, down to the guard.
  lemma {:induction false} WalksOn(ps: seq<Provider>, s: System, h: nat, p: string)
    returns (steps: seq<Step>, s': System)
    requires Inv(ps, s) && Able(s, h, p) && s.requests[h].stage.Walking?
    requires WayClear(ps, s, s.requests[h], s.requests[h].pos)
    requires s.requests[h].pos <= |s.requests[h].list|
    ensures Leads(ps, s, steps, s') && AllOwn(steps, h) && Inv(ps, s')
    ensures OnlyWalked(s, s', h) && s'.requests[h].stage.Guarding?
    decreases |s.requests[h].list| - s.requests[h].pos
  {
    var step, rest := if s.requests[h].pos == |s.requests[h].list| then Finish(h) else Acquire(h), [];
    if step.Finish? {
      FinishStep(ps, s, h, p);
      rest, s' := MakesGuard(ps, Next(ps, s, step), h);
    } else {
      ClearStep(ps, s, h);
      ClearsTheWay(ps, s, h, p, Next(ps, s, step));
      StepKeepsInv(ps, s, step);
      rest, s' := WalksOn(ps, Next(ps, s, step), h, p);
    }
    LeadsFirst(ps, s, h, step, rest, s');
    steps := [step] + rest;
  }

  lemma GetsGuard(ps: seq<Provider>, s: System, h: nat, p: string) returns (steps: seq<Step>, s': System)
    requires Inv(ps, s) && Able(s, h, p) && Ready(ps, s, h)
    ensures Leads(ps, s, steps, s') && AllOwn(steps, h) && Inv(ps, s')
    ensures OnlyWalked(s, s', h) && s'.requests[h].stage.Guarding?
  {
    assert RequestOk(ps, s, h, s.requests[h]);
    match s.requests[h].stage {
      case Guarding => steps, s' := [], s;
      case Resolved => steps, s' := MakesGuard(ps, s, h);
      case Walking => steps, s' := WalksOn(ps, s, h, p);
      case Waiting(_) =>
        WakeStep(ps, s, h);
        ClearsTheWay(ps, s, h, p, Next(ps, s, Wake(h)));
        StepKeepsInv(ps, s, Wake(h));
        var rest;
        rest, s' := WalksOn(ps, Next(ps, s, Wake(h)), h, p);
        LeadsFirst(ps, s, h, Wake(h), rest, s');
        steps := [Wake(h)] + rest;
    }
  }

  // The report of a guard: its provider answers, or its client leaves.
  lemma GuardReports(ps: seq<Provider>, s: System, h: nat, p: string, ok: bool) returns (log: seq<Event>)
    requires Inv(ps, s) && Able(s, h, p) && s.requests[h].stage.Guarding?
    ensures Enabled(ps, s, Report(h, log, false)) && Verdict(log) == if ok then Succeeded else Failed
  {
    var q := s.requests[h];
    assert RequestOk(ps, s, h, q);
    var names := NamesOf(ps, q.filtered);
    var end := if ok then Handlers.Opened else Handlers.Disconnected;
    log := Handlers.StreamingEvents(names[0], q.probe, end, s.now, s.now);
    assert names[0] == p;
    assert Handlers.IsReport(names, q.probe, s.now, log);
  }

  // What the report of the guard means for whoever waits.
  lemma ReportWakes(ps: seq<Provider>, s: System, h: nat, p: string, log: seq<Event>, w: nat)
    requires Inv(ps, s) && Able(s, h, p) && Enabled(ps, s, Report(h, log, false)) && w != h
    ensures var s' := Next(ps, s, Report(h, log, false));
      && (h, p) !in s'.permits
      && (Blocked(ps, s, w) && Wanted(ps, s, w) == p ==>
           && w in s'.requests && s'.requests[w] == s.requests[w] && !Blocked(ps, s', w)
           && p in s'.cells && WatchValue(s'.cells[p]) == Verdict(log))
  {
    if Blocked(ps, s, w) && Wanted(ps, s, w) == p {
      ResolutionWakesAll(ps, s, h, log, false, w);
    }
  }

  /** A holder that is ready can give the probe back by steps of its own, with either verdict, and that
      wakes whoever waits for it. */
  lemma ReadyHolderWakes(ps: seq<Provider>, s: System, h: nat, p: string, ok: bool, w: nat)
    returns (steps: seq<Step>, s': System)
    requires Inv(ps, s) && Able(s, h, p) && Ready(ps, s, h)
    ensures Leads(ps, s, steps, s') && AllOwn(steps, h) && (h, p) !in s'.permits
    ensures Blocked(ps, s, w) && Wanted(ps, s, w) == p ==>
      && w in s'.requests && s'.requests[w] == s.requests[w] && !Blocked(ps, s', w)
      && p in s'.cells && WatchValue(s'.cells[p]) == if ok then Succeeded else Failed
  {
    var walk, s1 := GetsGuard(ps, s, h, p);
    var log := GuardReports(ps, s1, h, p, ok);
    var last := Report(h, log, false);
    steps, s' := walk + [last], Next(ps, s1, last);
    LeadsOneMore(ps, s, walk, s1, last);
    if Blocked(ps, s, w) && Wanted(ps, s, w) == p {
      NotOneself(ps, s, h, p, w);
      StillBlocked(ps, s, s1, h, w);
    }
    ReportWakes(ps, s1, h, p, log, if w == h then h + 1 else w);
  }

  lemma StillBlocked(ps: seq<Provider>, s: System, s1: System, h: nat, w: nat)
    requires OnlyWalked(s, s1, h) && w != h && Blocked(ps, s, w)
    ensures Blocked(ps, s1, w) && Wanted(ps, s1, w) == Wanted(ps, s, w) && s1.requests[w] == s.requests[w]
  {
  }

  // Nobody waits for a probe of its own.
  lemma NotOneself(ps: seq<Provider>, s: System, h: nat, p: string, w: nat)
    requires Inv(ps, s) && (h, p) in s.permits && Blocked(ps, s, w) && Wanted(ps, s, w) == p
    ensures w != h
  {
    assert (h, p).0 in s.requests && RequestOk(ps, s, h, s.requests[h]);
  }

  // ----- and a holder that is not ready cannot

  // h cannot give the probe of p back on its own.
  predicate Obstructed(ps: seq<Provider>, s: System, h: nat, p: string) {
    (h, p) in s.permits && !(Able(s, h, p) && Ready(ps, s, h))
  }

  lemma ObstructedStays(ps: seq<Provider>, s: System, step: Step, h: nat, p: string)
    requires Inv(ps, s) && Enabled(ps, s, step) && OwnMove(step, h) && Obstructed(ps, s, h, p)
    ensures Obstructed(ps, Next(ps, s, step), h, p)
  {
    assert (h, p).0 in s.requests && (h, p).1 in s.cells && RequestOk(ps, s, h, s.requests[h]);
    AbilityAfter(ps, s, step, h, p);
    match step {
      case Acquire(_) => AcquireObstructed(ps, s, h, p);
      case Wake(_) => WakeObstructed(ps, s, h, p);
      case Report(_, _, _) => assert Able(s, h, p) ==> Ready(ps, s, h);
      case _ =>
    }
  }

  lemma AcquireObstructed(ps: seq<Provider>, s: System, h: nat, p: string)
    requires Inv(ps, s) && Enabled(ps, s, Acquire(h)) && Obstructed(ps, s, h, p) && p in s.cells
    ensures Obstructed(ps, Next(ps, s, Acquire(h)), h, p)
  {
    var q, s' := s.requests[h], Next(ps, s, Acquire(h));
    assert RequestOk(ps, s, h, q);
    AbilityAfter(ps, s, Acquire(h), h, p);
    AcquireEffect(ps, s, h);
    VisitedIsBehind(ps, q, p);
    if Able(s', h, p) && Able(s, h, p) {
      var k :| q.pos <= k < |q.list| && !Clear(ps, s, q.list[k]);
      if Clear(ps, s, q.list[q.pos]) {
        ClearStep(ps, s, h);
        assert !Clear(ps, s', s'.requests[h].list[k]);
      }
    }
  }

  lemma VisitedIsBehind(ps: seq<Provider>, q: Request, p: string)
    requires ListOk(ps, q) && AtCandidate(ps, q) && Visited(ps, q, p)
    ensures CandidateName(ps, q) != p
  {
  }

  lemma WakeObstructed(ps: seq<Provider>, s: System, h: nat, p: string)
    requires Inv(ps, s) && Enabled(ps, s, Wake(h)) && Obstructed(ps, s, h, p)
    ensures Obstructed(ps, Next(ps, s, Wake(h)), h, p)
  {
    var q, s' := s.requests[h], Next(ps, s, Wake(h));
    WakeStep(ps, s, h);
    if Able(s, h, p) {
      var k :| q.pos + 1 <= k < |q.list| && !Clear(ps, s, q.list[k]);
      assert !Clear(ps, s', s'.requests[h].list[k]);
    }
  }

  lemma {:induction false} ObstructedForGood(ps: seq<Provider>, s: System, steps: seq<Step>, s': System, h: nat,
                                             p: string)
    requires Inv(ps, s) && Leads(ps, s, steps, s') && AllOwn(steps, h) && Obstructed(ps, s, h, p)
    ensures Obstructed(ps, s', h, p)
    decreases |steps|
  {
    if steps != [] {
      ObstructedStays(ps, s, steps[0], h, p);
      StepKeepsInv(ps, s, steps[0]);
      ObstructedForGood(ps, Next(ps, s, steps[0]), steps[1..], s', h, p);
    }
  }

  ghost predicate CanGiveBack(ps: seq<Provider>, s: System, h: nat, p: string) {
    exists steps, s' :: Leads(ps, s, steps, s') && AllOwn(steps, h) && (h, p) !in s'.permits
  }

  /** On its own, a holder can give the probe back if and only if it is able and ready. */
  lemma CanGiveBackIff(ps: seq<Provider>, s: System, h: nat, p: string)
    requires Inv(ps, s) && (h, p) in s.permits
    ensures CanGiveBack(ps, s, h, p) <==> Able(s, h, p) && Ready(ps, s, h)
  {
    if Able(s, h, p) && Ready(ps, s, h) {
      var steps, s' := ReadyHolderWakes(ps, s, h, p, true, h);
    } else {
      forall steps, s' | Leads(ps, s, steps, s') && AllOwn(steps, h) ensures (h, p) in s'.permits {
        ObstructedForGood(ps, s, steps, s', h, p);
      }
    }
  }
}
