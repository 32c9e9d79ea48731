/** What the probe protocol guarantees over whole runs. Every theorem is about all runs of
    ProbeProtocol, with any interleaving of requests and whatever their handlers report. */
module ProbeTheorems {
  import opened Common
  import opened CircuitBreaker
  import opened Registry
  import opened Selector
  import opened ProbeProtocol
  import Resolution = ResolveCandidates

  // ----- wake-ups

  // Parked with nothing new on the channel.
  predicate Blocked(ps: seq<Provider>, s: System, r: nat) {
    && r in s.requests && s.requests[r].stage.Waiting? && AtCandidate(ps, s.requests[r])
    && CandidateName(ps, s.requests[r]) in s.cells
    && s.requests[r].stage.seen == |s.cells[CandidateName(ps, s.requests[r])].sent|
  }

  /** No lost wake-up: in every reachable state a waiter either has a value to read that was
      sent after it subscribed, and then reading it ends the wait with the verdict of that
      value, or the probe it waits for is still in flight and somebody holds its permit. */
  lemma NoLostWakeUp(ps: seq<Provider>, states: seq<System>, steps: seq<Step>, k: nat, r: nat)
    requires IsRun(ps, states, steps) && k < |states|
    requires r in states[k].requests && states[k].requests[r].stage.Waiting?
    ensures var s, q := states[k], states[k].requests[r];
      && AtCandidate(ps, q) && CandidateName(ps, q) in s.cells
      && (var c := s.cells[CandidateName(ps, q)];
          && (Blocked(ps, s, r) <==> !Enabled(ps, s, Wake(r)))
          && (Blocked(ps, s, r) ==> c.breaker.probeInFlight && Held(s, CandidateName(ps, q)))
          && (!Blocked(ps, s, r) ==>
                && q.stage.seen < |c.sent|
                && Next(ps, s, Wake(r)).requests[r] ==
                   (if c.sent[|c.sent| - 1] == Succeeded then Permitted(q, q.list[q.pos]) else Skipped(q))))
  {
    RunKeepsInv(ps, states, steps, k);
    var s, q := states[k], states[k].requests[r];
    assert RequestOk(ps, s, r, q);
    assert CellOk(s, CandidateName(ps, q));
  }

  /** A report that ends a probe wakes everybody who waits for it, with the guard's verdict, and nobody
      else is touched; one that ends none wakes nobody. */
  lemma ResolutionWakesAll(ps: seq<Provider>, s: System, r: nat, log: seq<Event>, other: bool, w: nat)
    requires Inv(ps, s) && Enabled(ps, s, Report(r, log, other))
    requires w in s.requests && s.requests[w].stage.Waiting?
    ensures var s', probe := Next(ps, s, Report(r, log, other)), s.requests[r].probe;
      var p := CandidateNameOf(ps, s, w);
      && s'.requests[w] == s.requests[w]
      && (probe == Some(p) ==> !Blocked(ps, s', w) && p in s'.cells && WatchValue(s'.cells[p]) == Verdict(log))
      && (probe != Some(p) ==> (Blocked(ps, s', w) <==> Blocked(ps, s, w)))
  {
    assert RequestOk(ps, s, r, s.requests[r]) && RequestOk(ps, s, w, s.requests[w]);
    assert w != r;
    var p := CandidateNameOf(ps, s, w);
    assert WaitingOn(ps, s, w, p);
    ReportEffect(ps, s, r, log, other, p);
  }

  function CandidateNameOf(ps: seq<Provider>, s: System, r: nat): string {
    if r in s.requests && AtCandidate(ps, s.requests[r]) then CandidateName(ps, s.requests[r]) else ""
  }

  // ----- what a request is answered

  // The walk has gone past its candidate, which was answered as told and is to be called as told.
  predicate WentOn(q: Request, q': Request, answer: Resolution.Permit, filtered: seq<nat>, probe: Option<string>) {
    && q'.stage.Walking? && q'.pos == q.pos + 1 && q'.list == q.list && q'.tier == q.tier
    && q'.filtered == filtered && q'.probe == probe && AnswersAt(q', q.tier) == AnswersAt(q, q.tier) + [answer]
  }

  /** What a request is answered about a candidate: let through while its breaker is closed, skipped while it
      is open, given the probe as soon as 30 seconds are over, which makes it half-open, and parked while it
      is half-open. A probe is called first and is the one its guard will be for. */
  lemma AskedFor(ps: seq<Provider>, states: seq<System>, steps: seq<Step>, k: nat, r: nat)
    requires IsRun(ps, states, steps) && k < |steps| && steps[k] == Acquire(r)
    ensures r in states[k].requests && AtCandidate(ps, states[k].requests[r]) && r in states[k + 1].requests
    ensures var s, s', q, q' := states[k], states[k + 1], states[k].requests[r], states[k + 1].requests[r];
      var i, p := q.list[q.pos], CandidateName(ps, q);
      && p in s.cells && p in s'.cells
      && (var b, b' := s.cells[p].breaker, s'.cells[p].breaker;
          match b.state
          case Closed =>
            WentOn(q, q', Resolution.Normal, q.filtered + [i], q.probe) && b' == b && s'.permits == s.permits
          case HalfOpen => q' == q.(stage := Waiting(|s.cells[p].sent|)) && b' == b && s'.permits == s.permits
          case Open =>
            if b.openedAt.Some? && s.now >= b.openedAt.value + 30_000_000_000 then
              && WentOn(q, q', Resolution.Probe, [i] + q.filtered, Some(p))
              && b'.state == HalfOpen && s'.permits == s.permits + {(r, p)}
            else WentOn(q, q', Resolution.Denied, q.filtered, q.probe) && b' == b && s'.permits == s.permits)
  {
    RunKeepsInv(ps, states, steps, k);
    assert StepAt(ps, states, steps, k);
    AnsweredBy(ps, states[k], r, states[k + 1]);
    assert CellOk(states[k], CandidateName(ps, states[k].requests[r]));
  }

  lemma AnsweredBy(ps: seq<Provider>, s: System, r: nat, s': System)
    requires Inv(ps, s) && Enabled(ps, s, Acquire(r)) && s' == AfterAcquire(ps, s, r)
    ensures r in s'.requests
    ensures var q, q' := s.requests[r], s'.requests[r];
      var i, p := q.list[q.pos], CandidateName(ps, q);
      && p in s.cells && p in s'.cells && s'.cells[p].breaker == Checked(s.cells[p].breaker, s.now).0
      && match Checked(s.cells[p].breaker, s.now).1
         case Allowed => WentOn(q, q', Resolution.Normal, q.filtered + [i], q.probe) && s'.permits == s.permits
         case Rejected => WentOn(q, q', Resolution.Denied, q.filtered, q.probe) && s'.permits == s.permits
         case WaitForProbe => q' == q.(stage := Waiting(|s.cells[p].sent|)) && s'.permits == s.permits
         case ProbePermit =>
           WentOn(q, q', Resolution.Probe, [i] + q.filtered, Some(p)) && s'.permits == s.permits + {(r, p)}
  {
  }

  // ----- every cell is a breaker with a monotone clock

  // What a step calls on the breaker of p.
  function CallsOf(ps: seq<Provider>, s: System, step: Step, p: string): seq<TimedCall> {
    match step
    case Acquire(r) =>
      if r in s.requests && AtCandidate(ps, s.requests[r]) && CandidateName(ps, s.requests[r]) == p
      then [At(s.now, Check)] else []
    case Report(r, log, _) => CallsOn(log, p)
    case _ => []
  }

  // What a step does to one cell is to make these calls, all at the current time.
  lemma CellStep(ps: seq<Provider>, s: System, step: Step, p: string)
    requires Inv(ps, s) && Enabled(ps, s, step) && p in s.cells
    ensures var s', calls := Next(ps, s, step), CallsOf(ps, s, step, p);
      && s.now <= s'.now && p in s'.cells
      && (forall k :: 0 <= k < |calls| ==> calls[k].time == s.now)
      && s'.cells[p].breaker == AppliedTo(s.cells[p].breaker, calls)
  {
    match step {
      case Acquire(r) =>
        AcquireEffect(ps, s, r);
        var check := At(s.now, Check);
        assert [check][..0] == [];
      case Report(r, log, other) =>
        ReportEffect(ps, s, r, log, other, p);
        CallsOfReport(log, s.requests[r].probe, s.now, p);
      case _ =>
    }
  }

  // ----- the single permit

  ghost function Holders(s: System, p: string): set<(nat, string)> {
    set x | x in s.permits && x.1 == p
  }

  // One outstanding permit while half-open, none otherwise.
  ghost predicate SingleAt(s: System, p: string) {
    p in s.cells ==> |Holders(s, p)| == if s.cells[p].breaker.state == HalfOpen then 1 else 0
  }

  // The record_failure calls of a request that does not guard the probe of p open its half-open breaker.
  predicate TripsHalfOpen(s: System, step: Step, p: string) {
    && step.Report? && step.r in s.requests && s.requests[step.r].probe != Some(p)
    && p in s.cells && s.cells[p].breaker.state == HalfOpen
    && AfterEvents(s.cells[p].breaker, p, step.log).state == Open
  }

  lemma NoNewCells(ps: seq<Provider>, s: System, step: Step)
    requires Inv(ps, s) && Enabled(ps, s, step)
    ensures Next(ps, s, step).cells.Keys == s.cells.Keys
  {
    if step.Acquire? {
      AcquireEffect(ps, s, step.r);
      assert RequestOk(ps, s, step.r, s.requests[step.r]);
    }
  }

  lemma SingleAfterAcquire(ps: seq<Provider>, s: System, r: nat, p: string)
    requires Inv(ps, s) && Enabled(ps, s, Acquire(r)) && SingleAt(s, p) && p in s.cells
    ensures SingleAt(Next(ps, s, Acquire(r)), p)
  {
    var s' := Next(ps, s, Acquire(r));
    assert CellOk(s, p);
    AcquireEffect(ps, s, r);
    if CandidateName(ps, s.requests[r]) == p && Checked(s.cells[p].breaker, s.now).1 == ProbePermit {
      assert Holders(s, p) == {};
      assert Holders(s', p) == {(r, p)};
    } else {
      assert Holders(s', p) == Holders(s, p);
    }
  }

  lemma SingleAfterReport(ps: seq<Provider>, s: System, r: nat, log: seq<Event>, other: bool, p: string)
    requires Inv(ps, s) && Enabled(ps, s, Report(r, log, other)) && SingleAt(s, p) && p in s.cells
    ensures var step := Report(r, log, other); SingleAt(Next(ps, s, step), p) <==> !TripsHalfOpen(s, step, p)
  {
    var s' := Next(ps, s, Report(r, log, other));
    assert RequestOk(ps, s, r, s.requests[r]);
    ReportEffect(ps, s, r, log, other, p);
    HoldersAfterReport(s, s', r, p);
  }

  lemma HoldersAfterReport(s: System, s': System, r: nat, p: string)
    requires r in s.requests
    requires var probe := s.requests[r].probe;
      && s'.permits == (if probe.Some? then s.permits - {(r, probe.value)} else s.permits)
      && (probe == Some(p) ==> (r, p) in s.permits)
    ensures |Holders(s', p)| == |Holders(s, p)| - if s.requests[r].probe == Some(p) then 1 else 0
  {
    if s.requests[r].probe == Some(p) {
      assert (r, p) in Holders(s, p);
      assert Holders(s', p) == Holders(s, p) - {(r, p)};
    } else {
      assert Holders(s', p) == Holders(s, p);
    }
  }

  lemma SingleAfter(ps: seq<Provider>, s: System, step: Step, p: string)
    requires Inv(ps, s) && Enabled(ps, s, step) && SingleAt(s, p)
    ensures SingleAt(Next(ps, s, step), p) <==> !TripsHalfOpen(s, step, p)
  {
    NoNewCells(ps, s, step);
    if p in s.cells {
      match step {
        case Acquire(r) => SingleAfterAcquire(ps, s, r, p);
        case Report(r, log, other) => SingleAfterReport(ps, s, r, log, other, p);
        case _ => assert Holders(Next(ps, s, step), p) == Holders(s, p);
      }
    }
  }

  /** Single probe: in every run, of every provider, one permit is outstanding in half-open and none
      otherwise, all the time, exactly when no failure reported by a request that does not guard the
      probe opens the half-open breaker. What the holder itself reports before its guard never matters. */
  lemma SingleProbeIff(ps: seq<Provider>, states: seq<System>, steps: seq<Step>, p: string)
    requires IsRun(ps, states, steps)
    ensures (forall k :: 0 <= k < |states| ==> SingleAt(states[k], p))
      <==> (forall k :: 0 <= k < |steps| ==> !TripsHalfOpen(states[k], steps[k], p))
  {
    forall k | 0 <= k < |steps| && SingleAt(states[k], p)
      ensures SingleAt(states[k + 1], p) <==> !TripsHalfOpen(states[k], steps[k], p)
    {
      SingleStep(ps, states, steps, k, p);
    }
    if forall k :: 0 <= k < |states| ==> SingleAt(states[k], p) {
      forall k | 0 <= k < |steps| ensures !TripsHalfOpen(states[k], steps[k], p) {
        assert SingleAt(states[k], p) && SingleAt(states[k + 1], p);
      }
    }
    if forall k :: 0 <= k < |steps| ==> !TripsHalfOpen(states[k], steps[k], p) {
      forall k | 0 <= k < |states| ensures SingleAt(states[k], p) {
        SingleUpTo(ps, states, steps, k, p);
      }
    }
  }

  lemma SingleStep(ps: seq<Provider>, states: seq<System>, steps: seq<Step>, k: nat, p: string)
    requires IsRun(ps, states, steps) && k < |steps| && SingleAt(states[k], p)
    ensures SingleAt(states[k + 1], p) <==> !TripsHalfOpen(states[k], steps[k], p)
  {
    RunKeepsInv(ps, states, steps, k);
    assert StepAt(ps, states, steps, k);
    SingleAfter(ps, states[k], steps[k], p);
  }

  lemma {:induction false} SingleUpTo(ps: seq<Provider>, states: seq<System>, steps: seq<Step>, k: nat, p: string)
    requires IsRun(ps, states, steps) && k < |states|
    requires forall j :: 0 <= j < |steps| ==> !TripsHalfOpen(states[j], steps[j], p)
    ensures SingleAt(states[k], p)
  {
    if k == 0 {
      assert Holders(states[0], p) == {};
    } else {
      SingleUpTo(ps, states, steps, k - 1, p);
      SingleStep(ps, states, steps, k - 1, p);
    }
  }

  // The calls the breaker of p has received up to state k.
  function History(ps: seq<Provider>, states: seq<System>, steps: seq<Step>, p: string, k: nat): seq<TimedCall>
    requires k < |states| && k <= |steps|
  {
    if k == 0 then []
    else History(ps, states, steps, p, k - 1) + CallsOf(ps, states[k - 1], steps[k - 1], p)
  }

  // The breaker of p is where the calls h, made on a monotone clock, have brought it.
  ghost predicate Tracks(s: System, p: string, h: seq<TimedCall>) {
    && p in s.cells && s.cells[p].breaker == Run(h)
    && MonotoneClock(h) && (h != [] ==> h[|h| - 1].time <= s.now)
  }

  lemma RunConcat(h: seq<TimedCall>, calls: seq<TimedCall>)
    ensures Run(h + calls) == AppliedTo(Run(h), calls)
  {
    AppliedToNew(h);
    AppliedToNew(h + calls);
    AppliedToConcat(NEW_BREAKER, h, calls);
  }

  lemma CallsExtend(s: System, p: string, h: seq<TimedCall>, s': System, calls: seq<TimedCall>)
    requires Tracks(s, p, h) && s.now <= s'.now && p in s'.cells
    requires forall k :: 0 <= k < |calls| ==> calls[k].time == s.now
    requires s'.cells[p].breaker == AppliedTo(s.cells[p].breaker, calls)
    ensures Tracks(s', p, h + calls)
  {
    RunConcat(h, calls);
    var h' := h + calls;
    forall i, j | 0 <= i <= j < |h'| ensures h'[i].time <= h'[j].time {
      if i < |h| { assert h[i].time <= h[|h| - 1].time; }
    }
  }

  // Going from one state to the next.
  lemma ExtendHistory(ps: seq<Provider>, s: System, step: Step, p: string, h: seq<TimedCall>)
    requires Inv(ps, s) && Enabled(ps, s, step) && Tracks(s, p, h)
    ensures Tracks(Next(ps, s, step), p, h + CallsOf(ps, s, step, p))
  {
    CellStep(ps, s, step, p);
    CallsExtend(s, p, h, Next(ps, s, step), CallsOf(ps, s, step, p));
  }

  lemma OneMoreStep(ps: seq<Provider>, s: System, step: Step, s': System, p: string,
                                       h: seq<TimedCall>, h': seq<TimedCall>)
    requires Inv(ps, s) && Enabled(ps, s, step) && s' == Next(ps, s, step) && Tracks(s, p, h)
    requires h' == h + CallsOf(ps, s, step, p)
    ensures Tracks(s', p, h')
  {
    ExtendHistory(ps, s, step, p, h);
  }

  /** Refinement: in a run of the whole system the breaker of each provider went through a
      sequence of calls with a monotone clock, so all that holds of such sequences holds of it. */
  lemma {:induction false} CellIsABreakerRun(ps: seq<Provider>, states: seq<System>, steps: seq<Step>, p: string,
                                             k: nat)
    requires IsRun(ps, states, steps) && k < |states| && p in states[0].cells
    ensures Tracks(states[k], p, History(ps, states, steps, p, k))
  {
    if k > 0 {
      CellIsABreakerRun(ps, states, steps, p, k - 1);
      RunKeepsInv(ps, states, steps, k - 1);
      TracksNext(ps, states, steps, p, k - 1);
    }
  }

  lemma TracksNext(ps: seq<Provider>, states: seq<System>, steps: seq<Step>, p: string, k: nat)
    requires k < |steps| && |states| == |steps| + 1 && StepAt(ps, states, steps, k) && Inv(ps, states[k])
    requires Tracks(states[k], p, History(ps, states, steps, p, k))
    ensures Tracks(states[k + 1], p, History(ps, states, steps, p, k + 1))
  {
    OneMoreStep(ps, states[k], steps[k], states[k + 1], p,
                History(ps, states, steps, p, k), History(ps, states, steps, p, k + 1));
  }

  // Step k hands out the probe permit of p.
  predicate GrantsPermit(ps: seq<Provider>, s: System, step: Step, p: string) {
    && step.Acquire? && CallsOf(ps, s, step, p) == [At(s.now, Check)]
    && p in s.cells && Checked(s.cells[p].breaker, s.now).1 == ProbePermit
  }

  lemma {:induction false} HistoryGrows(ps: seq<Provider>, states: seq<System>, steps: seq<Step>, p: string, j: nat,
                                        k: nat)
    requires j <= k < |states| && k <= |steps|
    ensures History(ps, states, steps, p, j) <= History(ps, states, steps, p, k)
  {
    if j < k {
      HistoryGrows(ps, states, steps, p, j, k - 1);
      Prolonged(History(ps, states, steps, p, j), History(ps, states, steps, p, k - 1),
                CallsOf(ps, states[k - 1], steps[k - 1], p));
    }
  }

  lemma Prolonged(a: seq<TimedCall>, b: seq<TimedCall>, more: seq<TimedCall>)
    requires a <= b
    ensures a <= b + more
  {
  }

  // The history up to state k ends in a grant that is answered at state k.
  ghost predicate GrantInHistory(ps: seq<Provider>, states: seq<System>, steps: seq<Step>, k: nat, p: string)
    requires k < |states| && k < |steps|
  {
    && CallsOf(ps, states[k], steps[k], p) == [At(states[k].now, Check)]
    && Checked(Run(History(ps, states, steps, p, k)), states[k].now).1 == ProbePermit
  }

  lemma GrantExtendsHistory(ps: seq<Provider>, states: seq<System>, steps: seq<Step>, k: nat, p: string)
    requires k < |steps| && k + 1 < |states| && GrantInHistory(ps, states, steps, k, p)
    ensures History(ps, states, steps, p, k + 1) == History(ps, states, steps, p, k) + [At(states[k].now, Check)]
  {
  }

  lemma GrantStaysInHistory(ps: seq<Provider>, states: seq<System>, steps: seq<Step>, j: nat, k: nat, p: string)
    requires j < k <= |steps| && k < |states| && GrantInHistory(ps, states, steps, j, p)
    ensures History(ps, states, steps, p, j) + [At(states[j].now, Check)] <= History(ps, states, steps, p, k)
  {
    GrantExtendsHistory(ps, states, steps, j, p);
    PrefixGrows(ps, states, steps, p, History(ps, states, steps, p, j) + [At(states[j].now, Check)], j + 1, k);
  }

  lemma PrefixGrows(ps: seq<Provider>, states: seq<System>, steps: seq<Step>, p: string, h: seq<TimedCall>,
                    j: nat, k: nat)
    requires j <= k < |states| && k <= |steps| && h == History(ps, states, steps, p, j)
    ensures h <= History(ps, states, steps, p, k)
  {
    HistoryGrows(ps, states, steps, p, j, k);
  }

  lemma HistoriesAreSpaced(ps: seq<Provider>, states: seq<System>, steps: seq<Step>, j: nat, k: nat, p: string)
    requires j < k < |steps| && k + 1 < |states|
    requires GrantInHistory(ps, states, steps, j, p) && GrantInHistory(ps, states, steps, k, p)
    requires MonotoneClock(History(ps, states, steps, p, k + 1))
    ensures states[k].now >= states[j].now + OPEN_DURATION
  {
    GrantStaysInHistory(ps, states, steps, j, k, p);
    GrantStaysInHistory(ps, states, steps, k, k + 1, p);
    SpacedGrants(History(ps, states, steps, p, k + 1), History(ps, states, steps, p, j), states[j].now,
                 History(ps, states, steps, p, k), states[k].now);
  }

  lemma GrantIsInHistory(ps: seq<Provider>, states: seq<System>, steps: seq<Step>, k: nat, p: string)
    requires IsRun(ps, states, steps) && k < |steps| && p in states[0].cells
    requires GrantsPermit(ps, states[k], steps[k], p)
    ensures GrantInHistory(ps, states, steps, k, p)
  {
    CellIsABreakerRun(ps, states, steps, p, k);
  }

  lemma ClockOfHistory(ps: seq<Provider>, states: seq<System>, steps: seq<Step>, k: nat, p: string)
    requires IsRun(ps, states, steps) && k < |states| && p in states[0].cells
    ensures MonotoneClock(History(ps, states, steps, p, k))
  {
    CellIsABreakerRun(ps, states, steps, p, k);
  }

  /** Probe spacing in the running system: two requests, or one twice, never get the permit of
      the same provider less than OPEN_DURATION apart. */
  lemma PermitsAreSpaced(ps: seq<Provider>, states: seq<System>, steps: seq<Step>, j: nat, k: nat, p: string)
    requires IsRun(ps, states, steps) && j < k < |steps| && p in states[0].cells
    requires GrantsPermit(ps, states[j], steps[j], p) && GrantsPermit(ps, states[k], steps[k], p)
    ensures states[k].now >= states[j].now + OPEN_DURATION
  {
    assert GrantInHistory(ps, states, steps, j, p) by { GrantIsInHistory(ps, states, steps, j, p); }
    assert GrantInHistory(ps, states, steps, k, p) by { GrantIsInHistory(ps, states, steps, k, p); }
    assert MonotoneClock(History(ps, states, steps, p, k + 1)) by { ClockOfHistory(ps, states, steps, k + 1, p); }
    HistoriesAreSpaced(ps, states, steps, j, k, p);
  }

  // ----- permits nobody can resolve

  // Half-open, and every request that was given the permit is gone.
  ghost predicate Orphaned(s: System, p: string) {
    && p in s.cells && s.cells[p].breaker.state == HalfOpen
    && forall r :: (r, p) in s.permits ==> r in s.requests && s.requests[r].stage.Gone?
  }

  predicate Leaves(step: Step) {
    step.EarlyReturn? || step.Abandon? || step.Report?
  }

  // The last request that holds the permit of p leaves without resolving it: the vault refuses it, its
  // client leaves before there is a guard, or its guard is for another probe of the same walk.
  ghost predicate LosesPermit(s: System, step: Step, p: string) {
    && p in s.cells && s.cells[p].breaker.state == HalfOpen
    && Leaves(step) && step.r in s.requests && (step.r, p) in s.permits
    && (step.Report? ==> s.requests[step.r].probe != Some(p) && !TripsHalfOpen(s, step, p))
    && forall h :: (h, p) in s.permits && h != step.r ==> h in s.requests && s.requests[h].stage.Gone?
  }

  // A live holder of a permit of p.
  ghost predicate HeldLive(s: System, p: string, h: nat) {
    (h, p) in s.permits && !(h in s.requests && s.requests[h].stage.Gone?)
  }

  lemma NobodyLost(ps: seq<Provider>, s: System, step: Step, p: string)
    requires Inv(ps, s) && Enabled(ps, s, step) && !Leaves(step) && p in s.cells && !Orphaned(s, p)
    ensures !Orphaned(Next(ps, s, step), p)
  {
    assert CellOk(s, p);
    if s.cells[p].breaker.state == HalfOpen {
      var h :| (h, p) in s.permits && !(h in s.requests && s.requests[h].stage.Gone?);
      assert HeldLive(s, p, h);
      StillHeld(ps, s, step, p, h);
    } else if step.Acquire? {
      AcquireEffect(ps, s, step.r);
      assert Next(ps, s, step).cells[p].breaker.state == HalfOpen ==> HeldLive(Next(ps, s, step), p, step.r);
    }
  }

  lemma StillHeld(ps: seq<Provider>, s: System, step: Step, p: string, h: nat)
    requires Inv(ps, s) && Enabled(ps, s, step) && !Leaves(step) && HeldLive(s, p, h)
    ensures HeldLive(Next(ps, s, step), p, h)
  {
    assert (h, p).0 in s.requests && RequestOk(ps, s, h, s.requests[h]);
    if step.Acquire? { AcquireEffect(ps, s, step.r); }
  }

  lemma LeavingLoses(ps: seq<Provider>, s: System, step: Step, p: string)
    requires Inv(ps, s) && Enabled(ps, s, step) && Leaves(step) && p in s.cells && !Orphaned(s, p)
    ensures Orphaned(Next(ps, s, step), p) <==> LosesPermit(s, step, p)
  {
    assert CellOk(s, p) && RequestOk(ps, s, step.r, s.requests[step.r]);
    if step.Report? {
      ReportEffect(ps, s, step.r, step.log, step.otherReceiver, p);
      ReportLoses(s, step, Next(ps, s, step), p);
    } else {
      ReturnLoses(s, step, Next(ps, s, step), p);
    }
  }

  lemma ReturnLoses(s: System, step: Step, s': System, p: string)
    requires p in s.cells && !Orphaned(s, p) && (step.EarlyReturn? || step.Abandon?) && step.r in s.requests
    requires s' == s.(requests := s.requests[step.r := s.requests[step.r].(stage := Gone)])
    requires !s.requests[step.r].stage.Gone?
    ensures Orphaned(s', p) <==> LosesPermit(s, step, p)
  {
    assert forall r :: (r, p) in s'.permits <==> (r, p) in s.permits;
  }

  lemma ReportLoses(s: System, step: Step, s': System, p: string)
    requires p in s.cells && p in s'.cells && !Orphaned(s, p) && step.Report? && step.r in s.requests
    requires var q := s.requests[step.r];
      && !q.stage.Gone? && s'.requests == s.requests[step.r := q.(stage := Gone)]
      && s'.permits == (if q.probe.Some? then s.permits - {(step.r, q.probe.value)} else s.permits)
      && (q.probe == Some(p) ==> s'.cells[p].breaker.state != HalfOpen)
      && (q.probe != Some(p) ==>
          s'.cells[p].breaker.state == s.cells[p].breaker.state || s'.cells[p].breaker.state == Open)
      && s'.cells[p].breaker == AfterEvents(s.cells[p].breaker, p, step.log)
    ensures Orphaned(s', p) <==> LosesPermit(s, step, p)
  {
    var q := s.requests[step.r];
    if q.probe != Some(p) {
      assert forall r :: (r, p) in s'.permits <==> (r, p) in s.permits;
    }
  }

  lemma OrphanStep(ps: seq<Provider>, s: System, step: Step, p: string)
    requires Inv(ps, s) && Enabled(ps, s, step) && Orphaned(s, p)
    ensures Orphaned(Next(ps, s, step), p) <==> !TripsHalfOpen(s, step, p)
    ensures var s' := Next(ps, s, step); p in s'.cells && s'.cells[p].sent == s.cells[p].sent
  {
    assert CellOk(s, p);
    var s' := Next(ps, s, step);
    match step {
      case Acquire(r) =>
        AcquireEffect(ps, s, r);
      case Report(r, log, other) =>
        assert RequestOk(ps, s, r, s.requests[r]);
        ReportEffect(ps, s, r, log, other, p);
      case _ =>
    }
    forall r | (r, p) in s'.permits ensures r in s'.requests && s'.requests[r].stage.Gone? {
      assert (r, p) in s.permits;
    }
  }

  lemma OrphanedNext(ps: seq<Provider>, states: seq<System>, steps: seq<Step>, k: nat, p: string)
    requires IsRun(ps, states, steps) && k < |steps| && p in states[k].cells
    ensures p in states[k + 1].cells
    ensures Orphaned(states[k + 1], p) <==>
      if Orphaned(states[k], p) then !TripsHalfOpen(states[k], steps[k], p) else LosesPermit(states[k], steps[k], p)
  {
    RunKeepsInv(ps, states, steps, k);
    assert StepAt(ps, states, steps, k);
    NoNewCells(ps, states[k], steps[k]);
    if Orphaned(states[k], p) {
      OrphanStep(ps, states[k], steps[k], p);
    } else if Leaves(steps[k]) {
      LeavingLoses(ps, states[k], steps[k], p);
    } else {
      NobodyLost(ps, states[k], steps[k], p);
    }
  }

  // A live holder is what makes a leaving one lose the permit.
  lemma LoserIsNotOrphaned(ps: seq<Provider>, states: seq<System>, steps: seq<Step>, k: nat, p: string)
    requires IsRun(ps, states, steps) && k < |steps| && LosesPermit(states[k], steps[k], p)
    ensures !Orphaned(states[k], p)
  {
    assert StepAt(ps, states, steps, k);
  }

  // Step j loses the permit of p and no failure has opened the breaker since, up to state k.
  ghost predicate LostAt(states: seq<System>, steps: seq<Step>, p: string, j: nat, k: nat)
    requires k <= |steps| <= |states|
  {
    && j < k && LosesPermit(states[j], steps[j], p)
    && forall i :: j < i < k ==> !TripsHalfOpen(states[i], steps[i], p)
  }

  ghost predicate WasLost(states: seq<System>, steps: seq<Step>, p: string, k: nat)
    requires k <= |steps| <= |states|
  {
    exists j: nat :: LostAt(states, steps, p, j, k)
  }

  /** When a permit is never given back: a half-open breaker has only holders that are gone if and only
      if at some point the last live holder left without resolving the permit, in one of the three ways
      of LosesPermit, and no failure reported since has opened the breaker. */
  lemma {:induction false} OrphanedIff(ps: seq<Provider>, states: seq<System>, steps: seq<Step>, p: string, k: nat)
    requires IsRun(ps, states, steps) && k < |states| && p in states[0].cells
    ensures p in states[k].cells
    ensures Orphaned(states[k], p) <==> WasLost(states, steps, p, k)
  {
    if k == 0 {
      assert states[0].cells[p].breaker == NEW_BREAKER;
    } else {
      OrphanedIff(ps, states, steps, p, k - 1);
      OrphanedNext(ps, states, steps, k - 1, p);
      LostOneMore(ps, states, steps, p, k - 1);
    }
  }

  lemma LostOneMore(ps: seq<Provider>, states: seq<System>, steps: seq<Step>, p: string, k: nat)
    requires IsRun(ps, states, steps) && k < |steps|
    requires Orphaned(states[k], p) <==> WasLost(states, steps, p, k)
    ensures WasLost(states, steps, p, k + 1) <==>
      if Orphaned(states[k], p) then !TripsHalfOpen(states[k], steps[k], p) else LosesPermit(states[k], steps[k], p)
  {
    if Orphaned(states[k], p) {
      var j: nat :| LostAt(states, steps, p, j, k);
      if !TripsHalfOpen(states[k], steps[k], p) {
        assert LostAt(states, steps, p, j, k + 1);
      }
      if WasLost(states, steps, p, k + 1) {
        var i: nat :| LostAt(states, steps, p, i, k + 1);
        if i == k { LoserIsNotOrphaned(ps, states, steps, k, p); }
      }
    } else {
      if LosesPermit(states[k], steps[k], p) {
        assert LostAt(states, steps, p, k, k + 1);
      }
      if WasLost(states, steps, p, k + 1) {
        var i: nat :| LostAt(states, steps, p, i, k + 1);
        assert i < k ==> LostAt(states, steps, p, i, k);
      }
    }
  }

  /** While it is orphaned, its channel is silent, so whoever waits for that probe stays parked. */
  lemma {:induction false} OrphanedStaysOrphaned(ps: seq<Provider>, states: seq<System>, steps: seq<Step>, p: string,
                                                 j: nat, k: nat)
    requires IsRun(ps, states, steps) && j <= k < |states| && Orphaned(states[j], p)
    requires forall i :: j <= i < k ==> !TripsHalfOpen(states[i], steps[i], p)
    ensures Orphaned(states[k], p) && states[k].cells[p].sent == states[j].cells[p].sent
  {
    if j < k {
      OrphanedStaysOrphaned(ps, states, steps, p, j, k - 1);
      RunKeepsInv(ps, states, steps, k - 1);
      assert StepAt(ps, states, steps, k - 1);
      OrphanStep(ps, states[k - 1], steps[k - 1], p);
    }
  }

  // ----- permits nobody will resolve

  // h is there, was given the permit of p, and its guard is, or as far as its walk has come will be, for p.
  predicate Able(s: System, h: nat, p: string) {
    (h, p) in s.permits && h in s.requests && !s.requests[h].stage.Gone? && s.requests[h].probe == Some(p)
  }

  // Half-open with no such holder: every holder is gone or guards another probe.
  ghost predicate Doomed(s: System, p: string) {
    && p in s.cells && s.cells[p].breaker.state == HalfOpen
    && forall h :: !Able(s, h, p)
  }

  predicate GrantsProbe(ps: seq<Provider>, s: System, step: Step) {
    && step.Acquire? && step.r in s.requests && AtCandidate(ps, s.requests[step.r])
    && CandidateName(ps, s.requests[step.r]) in s.cells
    && Checked(s.cells[CandidateName(ps, s.requests[step.r])].breaker, s.now).1 == ProbePermit
  }

  // The last able holder of the probe of p leaves before it has a guard, or is granted another probe.
  ghost predicate DoomsPermit(ps: seq<Provider>, s: System, step: Step, p: string) {
    && p in s.cells && s.cells[p].breaker.state == HalfOpen
    && (step.EarlyReturn? || step.Abandon? || GrantsProbe(ps, s, step))
    && Able(s, step.r, p) && forall h :: h != step.r ==> !Able(s, h, p)
  }

  // Whoever guards, or is on the way to guard, the probe of p was given its permit.
  lemma ProbeIsAble(ps: seq<Provider>, s: System, h: nat, p: string)
    requires Inv(ps, s) && h in s.requests && !s.requests[h].stage.Gone? && s.requests[h].probe == Some(p)
    ensures Able(s, h, p)
  {
    assert RequestOk(ps, s, h, s.requests[h]);
  }

  // What a step can do to a request's ability: end it, or give it by a grant.
  lemma AbilityAfter(ps: seq<Provider>, s: System, step: Step, h: nat, p: string)
    requires Inv(ps, s) && Enabled(ps, s, step) && p in s.cells
    ensures var s' := Next(ps, s, step);
      Able(s', h, p) <==>
        if GrantsProbe(ps, s, step) && step.r == h then CandidateName(ps, s.requests[h]) == p
        else Able(s, h, p) && !(Leaves(step) && step.r == h)
  {
    if h !in s.requests {
      NewcomerHasNoProbe(ps, s, step, h, p);
    } else if step.Acquire? {
      AbilityAfterAcquire(ps, s, step.r, h, p);
    } else {
      AbilityAfterOther(ps, s, step, h, p);
    }
  }

  lemma AbilityAfterOther(ps: seq<Provider>, s: System, step: Step, h: nat, p: string)
    requires Inv(ps, s) && Enabled(ps, s, step) && h in s.requests && !step.Acquire?
    ensures Able(Next(ps, s, step), h, p) <==> Able(s, h, p) && !(Leaves(step) && step.r == h)
  {
    assert RequestOk(ps, s, h, s.requests[h]);
  }

  lemma AbilityAfterAcquire(ps: seq<Provider>, s: System, r: nat, h: nat, p: string)
    requires Inv(ps, s) && Enabled(ps, s, Acquire(r)) && h in s.requests
    ensures var s' := Next(ps, s, Acquire(r));
      Able(s', h, p) <==>
        if GrantsProbe(ps, s, Acquire(r)) && r == h then CandidateName(ps, s.requests[h]) == p else Able(s, h, p)
  {
    AcquireEffect(ps, s, r);
    assert RequestOk(ps, s, h, s.requests[h]);
  }

  lemma NewcomerHasNoProbe(ps: seq<Provider>, s: System, step: Step, h: nat, p: string)
    requires Inv(ps, s) && Enabled(ps, s, step) && h !in s.requests
    ensures !Able(s, h, p) && !Able(Next(ps, s, step), h, p)
    ensures GrantsProbe(ps, s, step) ==> step.r != h
  {
    assert (h, p) in s.permits ==> (h, p).0 in s.requests;
  }

  // Granting one's own probe again cannot happen: its breaker is half-open with the probe in flight.
  lemma GrantIsForAnother(ps: seq<Provider>, s: System, step: Step, p: string)
    requires Inv(ps, s) && Enabled(ps, s, step) && GrantsProbe(ps, s, step)
    requires p in s.cells && s.cells[p].breaker.state == HalfOpen
    ensures CandidateName(ps, s.requests[step.r]) != p
  {
    assert CellOk(s, p);
  }

  // The state of the breaker after a step.
  lemma HalfOpenAfter(ps: seq<Provider>, s: System, step: Step, p: string)
    requires Inv(ps, s) && Enabled(ps, s, step) && p in s.cells
    ensures var s' := Next(ps, s, step); p in s'.cells && (s'.cells[p].breaker.state == HalfOpen <==>
      if s.cells[p].breaker.state == HalfOpen
      then !TripsHalfOpen(s, step, p) && !(step.Report? && s.requests[step.r].probe == Some(p))
      else GrantsProbe(ps, s, step) && CandidateName(ps, s.requests[step.r]) == p)
  {
    assert CellOk(s, p);
    if step.Acquire? { AcquireEffect(ps, s, step.r); }
    if step.Report? { ReportEffect(ps, s, step.r, step.log, step.otherReceiver, p); }
  }

  lemma DoomedAfter(ps: seq<Provider>, s: System, step: Step, p: string)
    requires Inv(ps, s) && Enabled(ps, s, step) && p in s.cells
    ensures Doomed(Next(ps, s, step), p) <==>
      if Doomed(s, p) then !TripsHalfOpen(s, step, p) else DoomsPermit(ps, s, step, p)
  {
    HalfOpenAfter(ps, s, step, p);
    forall h ensures Able(Next(ps, s, step), h, p) <==>
      if GrantsProbe(ps, s, step) && step.r == h then CandidateName(ps, s.requests[h]) == p
      else Able(s, h, p) && !(Leaves(step) && step.r == h)
    {
      AbilityAfter(ps, s, step, h, p);
    }
    if s.cells[p].breaker.state == HalfOpen && GrantsProbe(ps, s, step) { GrantIsForAnother(ps, s, step, p); }
    if step.Report? && s.requests[step.r].probe == Some(p) { ProbeIsAble(ps, s, step.r, p); }
    if s.cells[p].breaker.state != HalfOpen && GrantsProbe(ps, s, step) { AbilityAfter(ps, s, step, step.r, p); }
  }

  lemma DoomedNext(ps: seq<Provider>, states: seq<System>, steps: seq<Step>, k: nat, p: string)
    requires IsRun(ps, states, steps) && k < |steps| && p in states[k].cells
    ensures p in states[k + 1].cells
    ensures Doomed(states[k + 1], p) <==>
      if Doomed(states[k], p) then !TripsHalfOpen(states[k], steps[k], p) else DoomsPermit(ps, states[k], steps[k], p)
  {
    RunKeepsInv(ps, states, steps, k);
    assert StepAt(ps, states, steps, k);
    NoNewCells(ps, states[k], steps[k]);
    DoomedAfter(ps, states[k], steps[k], p);
  }

  ghost predicate DoomedAt(ps: seq<Provider>, states: seq<System>, steps: seq<Step>, p: string, j: nat, k: nat)
    requires k <= |steps| <= |states|
  {
    && j < k && DoomsPermit(ps, states[j], steps[j], p)
    && forall i :: j < i < k ==> !TripsHalfOpen(states[i], steps[i], p)
  }

  ghost predicate WasDoomed(ps: seq<Provider>, states: seq<System>, steps: seq<Step>, p: string, k: nat)
    requires k <= |steps| <= |states|
  {
    exists j: nat :: DoomedAt(ps, states, steps, p, j, k)
  }

  /** When nobody will give a probe back: a half-open breaker has no able holder if and only if at some
      point the last one left before it had a guard, or was granted another probe, and no failure
      reported since has opened the breaker. */
  lemma {:induction false} DoomedIff(ps: seq<Provider>, states: seq<System>, steps: seq<Step>, p: string, k: nat)
    requires IsRun(ps, states, steps) && k < |states| && p in states[0].cells
    ensures p in states[k].cells
    ensures Doomed(states[k], p) <==> WasDoomed(ps, states, steps, p, k)
  {
    if k == 0 {
      assert states[0].cells[p].breaker == NEW_BREAKER;
    } else {
      DoomedIff(ps, states, steps, p, k - 1);
      DoomedNext(ps, states, steps, k - 1, p);
      DoomedOneMore(ps, states, steps, p, k - 1);
    }
  }

  lemma DoomedOneMore(ps: seq<Provider>, states: seq<System>, steps: seq<Step>, p: string, k: nat)
    requires k < |steps| <= |states|
    requires Doomed(states[k], p) <==> WasDoomed(ps, states, steps, p, k)
    ensures WasDoomed(ps, states, steps, p, k + 1) <==>
      if Doomed(states[k], p) then !TripsHalfOpen(states[k], steps[k], p) else DoomsPermit(ps, states[k], steps[k], p)
  {
    if Doomed(states[k], p) {
      var j: nat :| DoomedAt(ps, states, steps, p, j, k);
      if !TripsHalfOpen(states[k], steps[k], p) {
        assert DoomedAt(ps, states, steps, p, j, k + 1);
      }
    } else {
      if DoomsPermit(ps, states[k], steps[k], p) {
        assert DoomedAt(ps, states, steps, p, k, k + 1);
      }
      if WasDoomed(ps, states, steps, p, k + 1) {
        var i: nat :| DoomedAt(ps, states, steps, p, i, k + 1);
        assert i < k ==> DoomedAt(ps, states, steps, p, i, k);
      }
    }
  }

  lemma DoomedIsSilent(ps: seq<Provider>, s: System, step: Step, p: string)
    requires Inv(ps, s) && Enabled(ps, s, step) && Doomed(s, p)
    ensures p in Next(ps, s, step).cells && Next(ps, s, step).cells[p].sent == s.cells[p].sent
  {
    if step.Acquire? { AcquireEffect(ps, s, step.r); }
    if step.Report? {
      ReportEffect(ps, s, step.r, step.log, step.otherReceiver, p);
      assert s.requests[step.r].probe == Some(p) ==> Able(s, step.r, p) by {
        assert RequestOk(ps, s, step.r, s.requests[step.r]);
      }
    }
  }

  /** From then on its channel is silent and it stays half-open, so whoever waits for that probe stays
      parked, until a failure opens the breaker. */
  lemma {:induction false} DoomedStaysDoomed(ps: seq<Provider>, states: seq<System>, steps: seq<Step>, p: string,
                                             j: nat, k: nat)
    requires IsRun(ps, states, steps) && j <= k < |states| && Doomed(states[j], p)
    requires forall i :: j <= i < k ==> !TripsHalfOpen(states[i], steps[i], p)
    ensures Doomed(states[k], p) && states[k].cells[p].sent == states[j].cells[p].sent
  {
    if j < k {
      DoomedStaysDoomed(ps, states, steps, p, j, k - 1);
      RunKeepsInv(ps, states, steps, k - 1);
      assert StepAt(ps, states, steps, k - 1);
      DoomedAfter(ps, states[k - 1], steps[k - 1], p);
      DoomedIsSilent(ps, states[k - 1], steps[k - 1], p);
    }
  }
}
