/** Many requests against many breakers: the registry of src/proxy/circuit_breaker.rs
    and the candidate walk of `resolve_candidates` in src/proxy/handlers.rs as one
    transition system. A step is what happens under one lock acquisition, or between two
    awaits of one request. */
module ProbeProtocol {
  import opened Common
  import opened CircuitBreaker
  import opened Registry
  import opened Selector
  import Handlers
  import Resolution = ResolveCandidates

  datatype ProbeResult = Pending | Succeeded | Failed

  // A breaker with its watch channel; `sent` are the values the channel has accepted, so
  // its version is |sent| and its value the last of them.
  datatype Cell = Cell(breaker: Breaker, sent: seq<ProbeResult>)

  function WatchValue(c: Cell): ProbeResult {
    if c.sent == [] then Pending else c.sent[|c.sent| - 1]
  }

  datatype Stage =
    | Walking            // about to call acquire_permit on list[pos]
    | Waiting(seen: nat) // parked on the watch of list[pos], subscribed at version `seen`
    | Resolved           // resolve_candidates has answered, no guard yet
    | Guarding           // the handler runs; it owns a guard iff probe is set
    | Gone               // answered, failed or cancelled

  // `answers` are the permits the walk was given so far, tier by tier.
  datatype Request = Request(
    query: Query,
    maxTier: Tier,
    tier: Tier,
    list: seq<nat>,
    pos: nat,
    filtered: seq<nat>,
    probe: Option<string>,
    answers: map<Tier, seq<Resolution.Permit>>,
    stage: Stage)

  // `permits` are the probe permits granted and not resolved by the request that got them.
  datatype System = System(
    now: Instant,
    cells: map<string, Cell>,
    requests: map<nat, Request>,
    permits: set<(nat, string)>)

  datatype Step =
    | Tick(d: nat)
    | Arrive(r: nat, query: Query, tier: Tier)
    | Acquire(r: nat)
    | Wake(r: nat)
    | Finish(r: nat)
    | EarlyReturn(r: nat)
    | CreateGuard(r: nat)
    | Report(r: nat, log: seq<Event>, otherReceiver: bool)
    | Abandon(r: nat)

  // A request on its way through the escalation loop, about to walk a list.
  function Started(q: Request, tier: Tier, list: seq<nat>): Request {
    q.(tier := tier, list := list, pos := 0, filtered := [], probe := None, stage := Walking)
  }

  // The top of the loop: the first tier from `tier` upwards that has candidates.
  function Enter(ps: seq<Provider>, q: Request, tier: Tier): Request
    decreases 2 - TierRank(tier)
  {
    var s := Select(ps, q.query, Some(tier));
    if s.Ok? then Started(q, tier, s.value)
    else if s.error.NoTierMatch? && Escalate(tier).Some? then Enter(ps, q, Escalate(tier).value)
    else Started(q, tier, []).(stage := Gone)
  }

  function NewRequest(q: Query, maxTier: Tier): Request {
    Request(q, maxTier, maxTier, [], 0, [], None, map[], Gone)
  }

  predicate AtCandidate(ps: seq<Provider>, q: Request) {
    q.pos < |q.list| && q.list[q.pos] < |ps|
  }

  function CandidateName(ps: seq<Provider>, q: Request): string
    requires AtCandidate(ps, q)
  {
    ps[q.list[q.pos]].name
  }

  predicate WaitingOn(ps: seq<Provider>, s: System, r: nat, p: string) {
    && r in s.requests && s.requests[r].stage.Waiting?
    && AtCandidate(ps, s.requests[r]) && CandidateName(ps, s.requests[r]) == p
  }

  ghost predicate Enabled(ps: seq<Provider>, s: System, step: Step) {
    match step
    case Tick(_) => true
    case Arrive(r, _, _) => r !in s.requests
    case Acquire(r) => r in s.requests && s.requests[r].stage.Walking? && AtCandidate(ps, s.requests[r])
    case Wake(r) =>
      && r in s.requests && s.requests[r].stage.Waiting? && AtCandidate(ps, s.requests[r])
      && CandidateName(ps, s.requests[r]) in s.cells
      && s.requests[r].stage.seen < |s.cells[CandidateName(ps, s.requests[r])].sent|
    case Finish(r) => r in s.requests && s.requests[r].stage.Walking? && s.requests[r].pos == |s.requests[r].list|
    case EarlyReturn(r) => // the vault refuses, or the client leaves while it is asked
      r in s.requests && s.requests[r].stage.Resolved?
    case CreateGuard(r) => r in s.requests && s.requests[r].stage.Resolved?
    case Report(r, log, _) =>
      && r in s.requests && s.requests[r].stage.Guarding? && s.requests[r].filtered != []
      && Handlers.IsReport(NamesOf(ps, s.requests[r].filtered), s.requests[r].probe, s.now, log)
    case Abandon(r) => // the client leaves while a probe is waited for; once there is a guard, leaving is a Report
      r in s.requests && s.requests[r].stage.Waiting?
  }

  function AnswersAt(q: Request, tier: Tier): seq<Resolution.Permit> {
    if tier in q.answers then q.answers[tier] else []
  }

  // The answer for the candidate at hand.
  function Answered(q: Request, a: Resolution.Permit): Request {
    q.(pos := q.pos + 1, answers := q.answers[q.tier := AnswersAt(q, q.tier) + [a]], stage := Walking)
  }

  // Candidate i was let through; a probe goes to the front.
  function Permitted(q: Request, i: nat): Request {
    Answered(q, Resolution.Normal).(filtered := q.filtered + [i])
  }

  function Probed(q: Request, i: nat, p: string): Request {
    Answered(q, Resolution.Probe).(filtered := [i] + q.filtered, probe := Some(p))
  }

  function Skipped(q: Request): Request {
    Answered(q, Resolution.Denied)
  }

  function AfterAcquire(ps: seq<Provider>, s: System, r: nat): System
    requires r in s.requests && AtCandidate(ps, s.requests[r])
  {
    var q := s.requests[r];
    var i := q.list[q.pos];
    var p := ps[i].name;
    if p !in s.cells then s.(requests := s.requests[r := Permitted(q, i)])
    else
      var (b, answer) := Checked(s.cells[p].breaker, s.now);
      var s' := s.(cells := s.cells[p := s.cells[p].(breaker := b)]);
      match answer
      case Allowed => s'.(requests := s.requests[r := Permitted(q, i)])
      case ProbePermit =>
        s'.(requests := s.requests[r := Probed(q, i, p)],
            permits := s.permits + {(r, p)})
      case Rejected => s'.(requests := s.requests[r := Skipped(q)])
      case WaitForProbe => s'.(requests := s.requests[r := q.(stage := Waiting(|s.cells[p].sent|))])
  }

  function AfterWake(ps: seq<Provider>, s: System, r: nat): System
    requires r in s.requests && AtCandidate(ps, s.requests[r]) && CandidateName(ps, s.requests[r]) in s.cells
  {
    var q := s.requests[r];
    var c := s.cells[CandidateName(ps, q)];
    s.(requests := s.requests[r :=
      match WatchValue(c)
      case Succeeded => Permitted(q, q.list[q.pos])
      case Failed => Skipped(q)
      case Pending => q.(stage := Waiting(|c.sent|))])
  }

  function AfterFinish(ps: seq<Provider>, s: System, r: nat): System
    requires r in s.requests
  {
    var q := s.requests[r];
    s.(requests := s.requests[r :=
      if q.filtered != [] then q.(stage := Resolved)
      else if Escalate(q.tier).Some? then Enter(ps, q, Escalate(q.tier).value)
      else q.(stage := Gone)])
  }

  function Verdict(log: seq<Event>): ProbeResult {
    if log != [] && log[|log| - 1].call.call.ProbeSuccess? then Succeeded else Failed
  }

  // The channel of p after a report of r: a watch accepts a value only while some receiver is alive.
  ghost function SentAfter(ps: seq<Provider>, s: System, r: nat, log: seq<Event>, otherReceiver: bool,
                           p: string): seq<ProbeResult>
    requires r in s.requests && p in s.cells
  {
    if s.requests[r].probe == Some(p) && (otherReceiver || exists w :: WaitingOn(ps, s, w, p))
    then s.cells[p].sent + [Verdict(log)]
    else s.cells[p].sent
  }

  // All that a handler tells the breakers, the guard's resolution with its send last.
  ghost function AfterReport(ps: seq<Provider>, s: System, r: nat, log: seq<Event>, otherReceiver: bool): System
    requires r in s.requests
  {
    var q := s.requests[r];
    s.(cells := map p | p in s.cells ::
         Cell(AfterEvents(s.cells[p].breaker, p, log), SentAfter(ps, s, r, log, otherReceiver, p)),
       requests := s.requests[r := q.(stage := Gone)],
       permits := if q.probe.Some? then s.permits - {(r, q.probe.value)} else s.permits)
  }

  ghost function Next(ps: seq<Provider>, s: System, step: Step): System
    requires Enabled(ps, s, step)
  {
    match step
    case Tick(d) => s.(now := s.now + d)
    case Arrive(r, q, t) => s.(requests := s.requests[r := Enter(ps, NewRequest(q, t), t)])
    case Acquire(r) => AfterAcquire(ps, s, r)
    case Wake(r) => AfterWake(ps, s, r)
    case Finish(r) => AfterFinish(ps, s, r)
    case EarlyReturn(r) => s.(requests := s.requests[r := s.requests[r].(stage := Gone)])
    case CreateGuard(r) => s.(requests := s.requests[r := s.requests[r].(stage := Guarding)])
    case Report(r, log, other) => AfterReport(ps, s, r, log, other)
    case Abandon(r) => s.(requests := s.requests[r := s.requests[r].(stage := Gone)])
  }

  ghost predicate Initial(ps: seq<Provider>, s: System) {
    && s.requests == map[] && s.permits == {}
    && (forall p :: p in s.cells ==> s.cells[p] == Cell(NEW_BREAKER, []))
    && (forall i :: 0 <= i < |ps| ==> ps[i].name in s.cells)
  }

  ghost predicate StepAt(ps: seq<Provider>, states: seq<System>, steps: seq<Step>, k: nat)
    requires k < |steps| && |states| == |steps| + 1
  {
    Enabled(ps, states[k], steps[k]) && states[k + 1] == Next(ps, states[k], steps[k])
  }

  ghost predicate IsRun(ps: seq<Provider>, states: seq<System>, steps: seq<Step>) {
    && |states| == |steps| + 1
    && Initial(ps, states[0])
    && forall k :: 0 <= k < |steps| ==> StepAt(ps, states, steps, k)
  }

  // ----- the invariant

  ghost predicate Held(s: System, p: string) {
    exists r :: (r, p) in s.permits
  }

  ghost predicate CellOk(s: System, p: string)
    requires p in s.cells
  {
    var c := s.cells[p];
    Sound(c.breaker) && (forall k :: 0 <= k < |c.sent| ==> c.sent[k] != Pending)
      && (c.breaker.probeInFlight ==> Held(s, p))
  }

  ghost predicate ListOk(ps: seq<Provider>, q: Request) {
    && InRange(ps, q.list) && StrictlySorted(ps, q.list) && NamesDistinct(ps, q.list)
    && q.pos <= |q.list|
  }

  predicate Visited(ps: seq<Provider>, q: Request, p: string)
    requires InRange(ps, q.list) && q.pos <= |q.list|
  {
    exists k :: 0 <= k < q.pos && ps[q.list[k]].name == p
  }

  ghost predicate PermitsOk(ps: seq<Provider>, s: System, r: nat, q: Request)
    requires ListOk(ps, q)
  {
    && (q.stage.Walking? || q.stage.Waiting? ==>
         forall p :: (r, p) in s.permits ==> Visited(ps, q, p) && q.filtered != [])
    && (q.stage.Resolved? || q.stage.Guarding? ==> q.filtered != [])
    && (q.probe.Some? && !q.stage.Gone? ==>
         && (r, q.probe.value) in s.permits
         && q.filtered != [] && q.filtered[0] < |ps| && ps[q.filtered[0]].name == q.probe.value)
  }

  ghost predicate WaitOk(ps: seq<Provider>, s: System, q: Request)
    requires ListOk(ps, q)
  {
    q.stage.Waiting? ==>
      && q.pos < |q.list| && CandidateName(ps, q) in s.cells
      && (var c := s.cells[CandidateName(ps, q)];
          q.stage.seen <= |c.sent| && (q.stage.seen == |c.sent| ==> c.breaker.probeInFlight))
  }

  ghost predicate RequestOk(ps: seq<Provider>, s: System, r: nat, q: Request) {
    ListOk(ps, q) && PermitsOk(ps, s, r, q) && WaitOk(ps, s, q)
  }

  ghost predicate Inv(ps: seq<Provider>, s: System) {
    && (forall i :: 0 <= i < |ps| ==> ps[i].name in s.cells)
    && (forall p :: p in s.cells ==> CellOk(s, p))
    && (forall r :: r in s.requests ==> RequestOk(ps, s, r, s.requests[r]))
    && (forall x :: x in s.permits ==> x.0 in s.requests && x.1 in s.cells)
  }

  lemma InitialInv(ps: seq<Provider>, s: System)
    requires Initial(ps, s)
    ensures Inv(ps, s)
  {
  }

  lemma {:induction false} EnterOk(ps: seq<Provider>, s: System, r: nat, q: Request, tier: Tier)
    requires forall p :: (r, p) !in s.permits
    ensures RequestOk(ps, s, r, Enter(ps, q, tier))
    decreases 2 - TierRank(tier)
  {
    var sel := Select(ps, q.query, Some(tier));
    if sel.Ok? {
      SelectCharacterisation(ps, q.query, Some(tier), sel.value);
    } else if sel.error.NoTierMatch? && Escalate(tier).Some? {
      EnterOk(ps, s, r, q, Escalate(tier).value);
    }
  }

  // What a step may do to the cells and permits without disturbing a request it is not about.
  ghost predicate Undisturbed(ps: seq<Provider>, s: System, s': System, r: nat) {
    && (forall p :: (r, p) in s.permits <==> (r, p) in s'.permits)
    && (forall p :: p in s.cells ==> p in s'.cells)
    && (forall p :: p in s.cells ==>
         && |s.cells[p].sent| <= |s'.cells[p].sent|
         && (|s.cells[p].sent| == |s'.cells[p].sent| && s.cells[p].breaker.probeInFlight && WaitingOn(ps, s, r, p) ==>
              s'.cells[p].breaker.probeInFlight))
  }

  lemma OthersStayOk(ps: seq<Provider>, s: System, s': System, r: nat)
    requires r in s.requests && RequestOk(ps, s, r, s.requests[r]) && Undisturbed(ps, s, s', r)
    ensures RequestOk(ps, s', r, s.requests[r])
  {
    var q := s.requests[r];
    if q.stage.Waiting? {
      assert WaitingOn(ps, s, r, CandidateName(ps, q));
    }
  }

  // The effect of an acquire, seen from the cell and the permits.
  lemma AcquireEffect(ps: seq<Provider>, s: System, r: nat)
    requires Inv(ps, s) && Enabled(ps, s, Acquire(r))
    ensures var s', p := Next(ps, s, Acquire(r)), CandidateName(ps, s.requests[r]);
      var (b, answer) := Checked(s.cells[p].breaker, s.now);
      && Sound(b)
      && (s.cells[p].breaker.probeInFlight ==> b.probeInFlight)
      && (b.probeInFlight ==> s.cells[p].breaker.probeInFlight || answer == ProbePermit)
      && (answer == WaitForProbe ==> b.probeInFlight)
      && s'.cells == s.cells[p := Cell(b, s.cells[p].sent)]
      && s'.permits == (if answer == ProbePermit then s.permits + {(r, p)} else s.permits)
      && s'.now == s.now
  {
    assert CellOk(s, CandidateName(ps, s.requests[r]));
  }

  lemma AcquireKeepsCells(ps: seq<Provider>, s: System, r: nat, p: string)
    requires Inv(ps, s) && Enabled(ps, s, Acquire(r))
    requires p in s.cells
    ensures CellOk(Next(ps, s, Acquire(r)), p)
  {
    AcquireEffect(ps, s, r);
    assert CellOk(s, p);
    var s' := Next(ps, s, Acquire(r));
    if s.cells[p].breaker.probeInFlight {
      var h :| (h, p) in s.permits;
      assert (h, p) in s'.permits;
    } else if s'.cells[p].breaker.probeInFlight {
      assert (r, p) in s'.permits;
    }
  }

  lemma VisitedGrows(ps: seq<Provider>, q: Request, q': Request, p: string)
    requires InRange(ps, q.list) && q.pos <= |q.list|
    requires q'.list == q.list && q.pos <= q'.pos <= |q.list| && Visited(ps, q, p)
    ensures Visited(ps, q', p)
  {
    var k :| 0 <= k < q.pos && ps[q.list[k]].name == p;
    assert ps[q'.list[k]].name == p;
  }

  lemma AcquireKeepsOwn(ps: seq<Provider>, s: System, r: nat)
    requires Inv(ps, s) && Enabled(ps, s, Acquire(r))
    ensures var s' := Next(ps, s, Acquire(r)); r in s'.requests && RequestOk(ps, s', r, s'.requests[r])
  {
    AcquireEffect(ps, s, r);
    var s' := Next(ps, s, Acquire(r));
    var q, q' := s.requests[r], s'.requests[r];
    var p := CandidateName(ps, q);
    assert RequestOk(ps, s, r, q);
    assert ListOk(ps, q');
    forall p' | (r, p') in s'.permits ensures Visited(ps, q', p') && q'.filtered != [] {
      if (r, p') in s.permits {
        VisitedGrows(ps, q, q', p');
      } else {
        assert p' == p && q'.pos == q.pos + 1 && ps[q'.list[q.pos]].name == p;
      }
    }
    assert PermitsOk(ps, s', r, q');
    assert WaitOk(ps, s', q');
  }

  lemma AcquireKeepsInv(ps: seq<Provider>, s: System, r: nat)
    requires Inv(ps, s) && Enabled(ps, s, Acquire(r))
    ensures Inv(ps, Next(ps, s, Acquire(r)))
  {
    var s' := Next(ps, s, Acquire(r));
    AcquireEffect(ps, s, r);
    forall p | p in s'.cells ensures CellOk(s', p) {
      AcquireKeepsCells(ps, s, r, p);
    }
    AcquireKeepsOwn(ps, s, r);
    forall r' | r' in s'.requests ensures RequestOk(ps, s', r', s'.requests[r']) {
      if r' != r {
        OthersStayOk(ps, s, s', r');
      }
    }
  }

  lemma WakeKeepsInv(ps: seq<Provider>, s: System, r: nat)
    requires Inv(ps, s) && Enabled(ps, s, Wake(r))
    ensures Inv(ps, Next(ps, s, Wake(r)))
  {
    var s' := Next(ps, s, Wake(r));
    var q := s.requests[r];
    assert CellOk(s, CandidateName(ps, q)) && RequestOk(ps, s, r, q);
    forall p | p in s'.cells ensures CellOk(s', p) {
      assert CellOk(s, p);
      assert Held(s, p) ==> Held(s', p);
    }
    forall r' | r' in s'.requests ensures RequestOk(ps, s', r', s'.requests[r']) {
      if r' != r {
        OthersStayOk(ps, s, s', r');
      } else {
        var q' := s'.requests[r];
        forall p | (r, p) in s'.permits ensures Visited(ps, q', p) {
          VisitedGrows(ps, q, q', p);
        }
      }
    }
  }

  // The effect of a report on one cell and on the permits.
  lemma ReportEffect(ps: seq<Provider>, s: System, r: nat, log: seq<Event>, other: bool, p: string)
    requires Inv(ps, s) && Enabled(ps, s, Report(r, log, other)) && p in s.cells
    ensures var s', probe := Next(ps, s, Report(r, log, other)), s.requests[r].probe;
      var b, b' := s.cells[p].breaker, s'.cells[p].breaker;
      && s'.cells.Keys == s.cells.Keys && Sound(b')
      && ReportShape(log, probe, s.now)
      && (probe != Some(p) ==>
           s'.cells[p].sent == s.cells[p].sent && b'.probeInFlight == b.probeInFlight
             && (b'.state == b.state || b'.state == Open))
      && (probe == Some(p) ==> !b'.probeInFlight && b'.state == (if Verdict(log) == Succeeded then Closed else Open))
  {
    Handlers.ReportHasShape(NamesOf(ps, s.requests[r].filtered), s.requests[r].probe, s.now, log);
    assert CellOk(s, p);
    ReportOnBreaker(s.cells[p].breaker, log, s.requests[r].probe, s.now, p);
  }

  lemma ReportKeepsCell(ps: seq<Provider>, s: System, r: nat, log: seq<Event>, other: bool, p: string)
    requires Inv(ps, s) && Enabled(ps, s, Report(r, log, other)) && p in s.cells
    ensures p in Next(ps, s, Report(r, log, other)).cells && CellOk(Next(ps, s, Report(r, log, other)), p)
  {
    ReportEffect(ps, s, r, log, other, p);
    assert CellOk(s, p);
    ReportedCellOk(s, Next(ps, s, Report(r, log, other)), r, p, Verdict(log));
  }

  lemma ReportedCellOk(s: System, s': System, r: nat, p: string, verdict: ProbeResult)
    requires p in s.cells && p in s'.cells && CellOk(s, p) && Sound(s'.cells[p].breaker) && r in s.requests
    requires s'.cells[p].sent == s.cells[p].sent || s'.cells[p].sent == s.cells[p].sent + [verdict]
    requires verdict != Pending
    requires var probe := s.requests[r].probe;
      && s'.permits == (if probe.Some? then s.permits - {(r, probe.value)} else s.permits)
      && (probe == Some(p) ==> !s'.cells[p].breaker.probeInFlight)
      && (probe != Some(p) ==> s'.cells[p].breaker.probeInFlight == s.cells[p].breaker.probeInFlight)
    ensures CellOk(s', p)
  {
    if s.requests[r].probe != Some(p) && s.cells[p].breaker.probeInFlight {
      var h :| (h, p) in s.permits;
      assert (h, p) in s'.permits;
    }
  }

  lemma ReportUndisturbed(ps: seq<Provider>, s: System, r: nat, log: seq<Event>, other: bool, w: nat)
    requires Inv(ps, s) && Enabled(ps, s, Report(r, log, other)) && w != r
    ensures Undisturbed(ps, s, Next(ps, s, Report(r, log, other)), w)
  {
    forall p | p in s.cells
      ensures var s' := Next(ps, s, Report(r, log, other));
        && p in s'.cells && |s.cells[p].sent| <= |s'.cells[p].sent|
        && (|s.cells[p].sent| == |s'.cells[p].sent| && s.cells[p].breaker.probeInFlight && WaitingOn(ps, s, w, p) ==>
             s'.cells[p].breaker.probeInFlight)
    {
      ReportEffect(ps, s, r, log, other, p);
    }
  }

  lemma ReportKeepsInv(ps: seq<Provider>, s: System, r: nat, log: seq<Event>, other: bool)
    requires Inv(ps, s) && Enabled(ps, s, Report(r, log, other))
    ensures Inv(ps, Next(ps, s, Report(r, log, other)))
  {
    var s' := Next(ps, s, Report(r, log, other));
    forall p | p in s'.cells ensures CellOk(s', p) {
      ReportKeepsCell(ps, s, r, log, other, p);
    }
    assert RequestOk(ps, s, r, s.requests[r]);
    forall r' | r' in s'.requests ensures RequestOk(ps, s', r', s'.requests[r']) {
      if r' != r {
        ReportUndisturbed(ps, s, r, log, other, r');
        OthersStayOk(ps, s, s', r');
      }
    }
  }

  // The remaining steps change no watch channel and no permit.
  lemma QuietStepKeepsInv(ps: seq<Provider>, s: System, step: Step)
    requires Inv(ps, s) && Enabled(ps, s, step)
    requires !step.Acquire? && !step.Wake? && !step.Report?
    ensures Inv(ps, Next(ps, s, step))
  {
    var s' := Next(ps, s, step);
    forall p | p in s'.cells ensures CellOk(s', p) {
      assert CellOk(s, p);
      assert Held(s, p) ==> Held(s', p);
    }
    forall r | r in s'.requests ensures RequestOk(ps, s', r, s'.requests[r]) {
      if r in s.requests {
        assert RequestOk(ps, s, r, s.requests[r]);
        if s'.requests[r] == s.requests[r] {
          OthersStayOk(ps, s, s', r);
        } else if step.Finish? && s.requests[r].filtered == [] && Escalate(s.requests[r].tier).Some? {
          EnterOk(ps, s', r, s.requests[r], Escalate(s.requests[r].tier).value);
        }
      } else {
        assert forall p :: (r, p) in s.permits ==> r in s.requests;
        EnterOk(ps, s', r, NewRequest(step.query, step.tier), step.tier);
      }
    }
  }

  lemma StepKeepsInv(ps: seq<Provider>, s: System, step: Step)
    requires Inv(ps, s) && Enabled(ps, s, step)
    ensures Inv(ps, Next(ps, s, step))
  {
    match step
    case Acquire(r) => AcquireKeepsInv(ps, s, r);
    case Wake(r) => WakeKeepsInv(ps, s, r);
    case Report(r, log, other) => ReportKeepsInv(ps, s, r, log, other);
    case _ => QuietStepKeepsInv(ps, s, step);
  }

  lemma {:induction false} RunKeepsInv(ps: seq<Provider>, states: seq<System>, steps: seq<Step>, k: nat)
    requires IsRun(ps, states, steps) && k < |states|
    ensures Inv(ps, states[k])
  {
    if k == 0 {
      InitialInv(ps, states[0]);
    } else {
      RunKeepsInv(ps, states, steps, k - 1);
      assert StepAt(ps, states, steps, k - 1);
      StepKeepsInv(ps, states[k - 1], steps[k - 1]);
    }
  }
}
