/** The walks of the probe protocol resolve as `resolve_candidates` is specified to: in every run, what
    a request goes on with is the resolution for the permits it was given, asked one at a time and in
    any interleaving with other requests. */
module ProbeWalks {
  import opened Common
  import opened Registry
  import opened Selector
  import opened ProbeProtocol
  import opened ResolveCandidates

  function PermitsFrom(answers: seq<Permit>): nat -> Permit {
    (k: nat) => if k < |answers| then answers[k] else Denied
  }

  // The permits a request was given, as the input of a resolution.
  function PermitsOf(q: Request): Tier -> nat -> Permit {
    (t: Tier) => PermitsFrom(AnswersAt(q, t))
  }

  predicate IsPassed(select: Answers, q: Request, t: Tier) {
    || NothingConfigured(select, t)
    || (select(t).Ok? && |AnswersAt(q, t)| == |select(t).value|
        && forall k :: 0 <= k < |AnswersAt(q, t)| ==> AnswersAt(q, t)[k] == Denied)
  }

  // Below `tier` every tier was passed over, from there on nothing was asked.
  ghost predicate Climbed(select: Answers, q: Request, tier: Tier) {
    && TierRank(q.maxTier) <= TierRank(tier)
    && (forall t: Tier :: TierRank(q.maxTier) <= TierRank(t) < TierRank(tier) ==> IsPassed(select, q, t))
    && (forall t: Tier :: TierRank(tier) < TierRank(t) ==> AnswersAt(q, t) == [])
  }

  // The walk is at `pos` with the answers it has.
  ghost predicate Built(ps: seq<Provider>, q: Request, answers: seq<Permit>) {
    && q.pos <= |q.list| && |answers| == q.pos
    && q.filtered == Filtered(q.list[..q.pos], PermitsFrom(answers))
    && q.probe == NameOf(ps, LastProbe(q.list[..q.pos], PermitsFrom(answers)))
  }

  ghost predicate WalkOk(ps: seq<Provider>, select: Answers, q: Request) {
    !q.stage.Gone? ==>
      && select(q.tier) == Ok(q.list) && Built(ps, q, AnswersAt(q, q.tier)) && Climbed(select, q, q.tier)
      && (q.stage.Resolved? || q.stage.Guarding? ==> q.pos == |q.list| && q.filtered != [])
  }

  lemma {:induction false} WhereAgrees(list: seq<nat>, f: nat -> Permit, g: nat -> Permit, p: Permit)
    requires forall k: nat :: k < |list| ==> f(k) == g(k)
    ensures Where(list, f, p) == Where(list, g, p)
  {
    if list != [] { WhereAgrees(list[..|list| - 1], f, g, p); }
  }

  lemma {:induction false} LastProbeAgrees(list: seq<nat>, f: nat -> Permit, g: nat -> Permit)
    requires forall k: nat :: k < |list| ==> f(k) == g(k)
    ensures LastProbe(list, f) == LastProbe(list, g)
  {
    if list != [] { LastProbeAgrees(list[..|list| - 1], f, g); }
  }

  // One more answer, seen from the filter.
  lemma AnswerStep(list: seq<nat>, pos: nat, answers: seq<Permit>, a: Permit)
    requires pos < |list| && |answers| == pos
    ensures var before, after := PermitsFrom(answers), PermitsFrom(answers + [a]);
      && Filtered(list[..pos + 1], after) == (
          match a
          case Normal => Filtered(list[..pos], before) + [list[pos]]
          case Probe => [list[pos]] + Filtered(list[..pos], before)
          case Denied => Filtered(list[..pos], before))
      && LastProbe(list[..pos + 1], after) == if a.Probe? then Some(list[pos]) else LastProbe(list[..pos], before)
  {
    var before, after := PermitsFrom(answers), PermitsFrom(answers + [a]);
    assert list[..pos + 1][..pos] == list[..pos];
    FilterStep(list[..pos + 1], after);
    WhereAgrees(list[..pos], before, after, Probe);
    WhereAgrees(list[..pos], before, after, Normal);
    LastProbeAgrees(list[..pos], before, after);
  }

  ghost predicate IsAnswered(ps: seq<Provider>, q: Request, q': Request) {
    && AtCandidate(ps, q)
    && (q' == Permitted(q, q.list[q.pos]) || q' == Skipped(q) || q' == Probed(q, q.list[q.pos], CandidateName(ps, q)))
  }

  lemma BuiltOneMore(ps: seq<Provider>, q: Request, q': Request, answers: seq<Permit>, a: Permit)
    requires Built(ps, q, answers) && AtCandidate(ps, q)
    requires q'.list == q.list && q'.pos == q.pos + 1
    requires q'.filtered == match a
      case Normal => q.filtered + [q.list[q.pos]]
      case Probe => [q.list[q.pos]] + q.filtered
      case Denied => q.filtered
    requires q'.probe == if a.Probe? then Some(CandidateName(ps, q)) else q.probe
    ensures Built(ps, q', answers + [a])
  {
    AnswerStep(q.list, q.pos, answers, a);
  }

  lemma AnswerKeepsWalk(ps: seq<Provider>, select: Answers, q: Request, q': Request)
    requires WalkOk(ps, select, q) && (q.stage.Walking? || q.stage.Waiting?) && IsAnswered(ps, q, q')
    ensures WalkOk(ps, select, q')
  {
    var i := q.list[q.pos];
    var a := if q' == Permitted(q, i) then Normal else if q' == Skipped(q) then Denied else Probe;
    BuiltOneMore(ps, q, q', AnswersAt(q, q.tier), a);
    AnswerKeepsClimb(select, q, q', a);
    assert AnswersAt(q', q.tier) == AnswersAt(q, q.tier) + [a];
  }

  lemma AnswerKeepsClimb(select: Answers, q: Request, q': Request, a: Permit)
    requires Climbed(select, q, q.tier) && q'.maxTier == q.maxTier
    requires q'.answers == q.answers[q.tier := AnswersAt(q, q.tier) + [a]]
    ensures Climbed(select, q', q.tier)
  {
    forall t: Tier | TierRank(q.maxTier) <= TierRank(t) < TierRank(q.tier) ensures IsPassed(select, q', t) {
      assert IsPassed(select, q, t) && t != q.tier;
    }
  }

  lemma {:induction false} EnterKeepsWalk(ps: seq<Provider>, q: Request, tier: Tier)
    requires Climbed(AnswersOf(ps, q.query), q, tier) && AnswersAt(q, tier) == []
    ensures WalkOk(ps, AnswersOf(ps, q.query), Enter(ps, q, tier))
    ensures Enter(ps, q, tier).query == q.query
    decreases 2 - TierRank(tier)
  {
    var select, s := AnswersOf(ps, q.query), Select(ps, q.query, Some(tier));
    if s.Ok? {
      StartKeepsWalk(ps, select, q, tier, s.value);
    } else if s.error.NoTierMatch? && Escalate(tier).Some? {
      assert NothingConfigured(select, tier);
      ClimbOne(select, q, tier);
      EnterKeepsWalk(ps, q, Escalate(tier).value);
    }
  }

  lemma StartKeepsWalk(ps: seq<Provider>, select: Answers, q: Request, tier: Tier, list: seq<nat>)
    requires Climbed(select, q, tier) && AnswersAt(q, tier) == [] && select(tier) == Ok(list)
    ensures WalkOk(ps, select, Started(q, tier, list))
  {
    var q' := Started(q, tier, list);
    forall t: Tier ensures AnswersAt(q', t) == AnswersAt(q, t) {
    }
    forall t: Tier | TierRank(q.maxTier) <= TierRank(t) < TierRank(tier) ensures IsPassed(select, q', t) {
      assert IsPassed(select, q, t);
    }
  }

  lemma ClimbOne(select: Answers, q: Request, tier: Tier)
    requires Climbed(select, q, tier) && IsPassed(select, q, tier) && Escalate(tier).Some?
    ensures Climbed(select, q, Escalate(tier).value) && AnswersAt(q, Escalate(tier).value) == []
  {
    forall t: Tier | TierRank(q.maxTier) <= TierRank(t) < TierRank(Escalate(tier).value)
      ensures IsPassed(select, q, t)
    {
      assert TierRank(t) < TierRank(tier) || t == tier;
    }
  }

  // A walk that leaves nobody.
  lemma FinishPasses(ps: seq<Provider>, select: Answers, q: Request)
    requires WalkOk(ps, select, q) && q.stage.Walking? && q.pos == |q.list| && q.filtered == []
    ensures IsPassed(select, q, q.tier)
  {
    assert q.list[..q.pos] == q.list;
    var permits := PermitsFrom(AnswersAt(q, q.tier));
    NothingFiltered(q.list, permits);
    forall k | 0 <= k < |q.list| ensures AnswersAt(q, q.tier)[k] == Denied {
      assert permits(k) == Denied;
    }
  }

  // The walk of r, if r has arrived.
  ghost predicate WalkOf(ps: seq<Provider>, s: System, r: nat) {
    r in s.requests ==> WalkOk(ps, AnswersOf(ps, s.requests[r].query), s.requests[r])
  }

  // What a step can make of a request that is still there afterwards.
  ghost predicate Moved(ps: seq<Provider>, q: Request, q': Request) {
    || q' == q
    || ((q.stage.Walking? || q.stage.Waiting?)
        && (IsAnswered(ps, q, q') || (q'.stage.Waiting? && q' == q.(stage := q'.stage))))
    || (q.stage.Walking? && q.pos == |q.list| && (
         if q.filtered != [] then q' == q.(stage := Stage.Resolved)
         else Escalate(q.tier).Some? && q' == Enter(ps, q, Escalate(q.tier).value)))
    || (q.stage.Resolved? && q' == q.(stage := Guarding))
  }

  lemma StepOnRequest(ps: seq<Provider>, s: System, step: Step, r: nat)
    requires Enabled(ps, s, step) && r in Next(ps, s, step).requests
    ensures var q' := Next(ps, s, step).requests[r];
      || q'.stage.Gone?
      || (r !in s.requests && step.Arrive? && q' == Enter(ps, NewRequest(step.query, step.tier), step.tier))
      || (r in s.requests && Moved(ps, s.requests[r], q'))
  {
  }

  lemma StepKeepsWalk(ps: seq<Provider>, s: System, step: Step, s': System, r: nat)
    requires WalkOf(ps, s, r) && Enabled(ps, s, step) && s' == Next(ps, s, step)
    ensures WalkOf(ps, s', r)
  {
    if r in s'.requests && !s'.requests[r].stage.Gone? {
      StepOnRequest(ps, s, step, r);
      if r !in s.requests {
        EnterKeepsWalk(ps, NewRequest(step.query, step.tier), step.tier);
      } else if !s.requests[r].stage.Gone? {
        RequestKeepsWalk(ps, AnswersOf(ps, s.requests[r].query), s.requests[r], s'.requests[r]);
      }
    }
  }

  lemma FinishKeepsWalk(ps: seq<Provider>, q: Request)
    requires WalkOk(ps, AnswersOf(ps, q.query), q) && q.stage.Walking?
    requires q.pos == |q.list| && q.filtered == [] && Escalate(q.tier).Some?
    ensures var q' := Enter(ps, q, Escalate(q.tier).value);
      q'.query == q.query && WalkOk(ps, AnswersOf(ps, q.query), q')
  {
    FinishPasses(ps, AnswersOf(ps, q.query), q);
    ClimbOne(AnswersOf(ps, q.query), q, q.tier);
    EnterKeepsWalk(ps, q, Escalate(q.tier).value);
  }

  lemma RequestKeepsWalk(ps: seq<Provider>, select: Answers, q: Request, q': Request)
    requires WalkOk(ps, select, q) && !q.stage.Gone? && Moved(ps, q, q') && select == AnswersOf(ps, q.query)
    ensures q'.query == q.query && WalkOk(ps, select, q')
  {
    if q.stage.Walking? && q.pos == |q.list| && q.filtered == [] && Escalate(q.tier).Some?
      && q' == Enter(ps, q, Escalate(q.tier).value)
    {
      FinishKeepsWalk(ps, q);
    } else if (q.stage.Walking? || q.stage.Waiting?) && IsAnswered(ps, q, q') {
      AnswerKeepsWalk(ps, select, q, q');
    } else {
      StageKeepsWalk(ps, select, q, q');
    }
  }

  lemma StageKeepsWalk(ps: seq<Provider>, select: Answers, q: Request, q': Request)
    requires WalkOk(ps, select, q) && !q.stage.Gone? && q' == q.(stage := q'.stage)
    requires q'.stage.Resolved? || q'.stage.Guarding? ==> q.pos == |q.list| && q.filtered != []
    ensures WalkOk(ps, select, q')
  {
    forall t: Tier ensures AnswersAt(q', t) == AnswersAt(q, t) {
    }
    forall t: Tier | TierRank(q.maxTier) <= TierRank(t) < TierRank(q.tier) ensures IsPassed(select, q', t) {
      assert IsPassed(select, q, t);
    }
  }

  lemma StepAtKeepsWalk(ps: seq<Provider>, states: seq<System>, steps: seq<Step>, k: nat, r: nat)
    requires k < |steps| && |states| == |steps| + 1 && StepAt(ps, states, steps, k) && WalkOf(ps, states[k], r)
    ensures WalkOf(ps, states[k + 1], r)
  {
    StepKeepsWalk(ps, states[k], steps[k], states[k + 1], r);
  }

  lemma RunStepKeepsWalk(ps: seq<Provider>, states: seq<System>, steps: seq<Step>, k: nat, r: nat)
    requires IsRun(ps, states, steps) && k < |steps| && WalkOf(ps, states[k], r)
    ensures WalkOf(ps, states[k + 1], r)
  {
    assert StepAt(ps, states, steps, k);
    StepAtKeepsWalk(ps, states, steps, k, r);
  }

  lemma {:induction false} RunKeepsWalk(ps: seq<Provider>, states: seq<System>, steps: seq<Step>, k: nat, r: nat)
    requires IsRun(ps, states, steps) && k < |states|
    ensures WalkOf(ps, states[k], r)
  {
    if k > 0 {
      RunKeepsWalk(ps, states, steps, k - 1, r);
      RunStepKeepsWalk(ps, states, steps, k - 1, r);
    }
  }

  /** Refinement: in every run, whatever the other requests do in between, a request that has come
      through its walk holds exactly the resolution of the permits it was given. */
  lemma WalksResolve(ps: seq<Provider>, states: seq<System>, steps: seq<Step>, k: nat, r: nat)
    requires IsRun(ps, states, steps) && k < |states| && r in states[k].requests
    requires states[k].requests[r].stage.Resolved? || states[k].requests[r].stage.Guarding?
    ensures var q := states[k].requests[r];
      IsResolution(ps, AnswersOf(ps, q.query), q.maxTier, PermitsOf(q),
                   Ok(ResolveCandidates.Resolved(q.filtered, q.probe, q.tier)))
  {
    RunKeepsWalk(ps, states, steps, k, r);
    var q := states[k].requests[r];
    WalkIsResolution(ps, AnswersOf(ps, q.query), q);
  }

  lemma WalkIsResolution(ps: seq<Provider>, select: Answers, q: Request)
    requires WalkOk(ps, select, q) && (q.stage.Resolved? || q.stage.Guarding?)
    ensures IsResolution(ps, select, q.maxTier, PermitsOf(q),
                         Ok(ResolveCandidates.Resolved(q.filtered, q.probe, q.tier)))
  {
    var permit := PermitsOf(q);
    assert q.list[..q.pos] == q.list;
    assert permit(q.tier) == PermitsFrom(AnswersAt(q, q.tier));
    NothingFiltered(q.list, permit(q.tier));
    forall t: Tier | TierRank(q.maxTier) <= TierRank(t) < TierRank(q.tier) ensures PassedOver(select, permit, t) {
      assert IsPassed(select, q, t);
      assert permit(t) == PermitsFrom(AnswersAt(q, t));
    }
  }

  // A walk with nobody left at the top.
  lemma NobodyIsResolution(ps: seq<Provider>, q: Request)
    requires WalkOk(ps, AnswersOf(ps, q.query), q) && q.stage.Walking? && q.pos == |q.list| && q.filtered == []
    requires q.tier == Frontier
    ensures IsResolution(ps, AnswersOf(ps, q.query), q.maxTier, PermitsOf(q), Err(CircuitOpen))
  {
    var select := AnswersOf(ps, q.query);
    FinishPasses(ps, select, q);
    forall t: Tier | TierRank(q.maxTier) <= TierRank(t) < TierRank(Frontier) + 1
      ensures PassedOver(select, PermitsOf(q), t)
    {
      assert TierRank(t) == TierRank(Frontier) ==> t == Frontier;
      assert IsPassed(select, q, t);
      assert PermitsOf(q)(t) == PermitsFrom(AnswersAt(q, t));
    }
  }

  lemma WalkHasList(ps: seq<Provider>, q: Request)
    requires WalkOk(ps, AnswersOf(ps, q.query), q) && !q.stage.Gone?
    ensures Select(ps, q.query, Some(q.tier)) == Ok(q.list)
  {
  }

  // A walk that starts after another one is not refused by the router.
  lemma HigherTierHasList(ps: seq<Provider>, q: Request, tier: Tier)
    requires Select(ps, q.query, Some(q.tier)).Ok? && TierRank(q.tier) <= TierRank(tier)
    ensures !Enter(ps, q, tier).stage.Gone?
  {
    CandidatesRemain(ps, q.query, q.tier, tier);
  }

  lemma FinishRefuses(ps: seq<Provider>, s: System, r: nat)
    requires WalkOf(ps, s, r) && Enabled(ps, s, Finish(r)) && AfterFinish(ps, s, r).requests[r].stage.Gone?
    ensures var q := s.requests[r];
      IsResolution(ps, AnswersOf(ps, q.query), q.maxTier, PermitsOf(q), Err(CircuitOpen))
  {
    var q := s.requests[r];
    WalkHasList(ps, q);
    if Escalate(q.tier).Some? { HigherTierHasList(ps, q, Escalate(q.tier).value); }
    NobodyIsResolution(ps, q);
  }

  // Nobody is asked before the first list.
  lemma {:induction false} EnterRefuses(ps: seq<Provider>, q: Request, tier: Tier, permit: Tier -> nat -> Permit)
    requires Enter(ps, q, tier).stage.Gone? && TierRank(q.maxTier) <= TierRank(tier)
    requires AllPassedOver(AnswersOf(ps, q.query), permit, q.maxTier, TierRank(tier))
    ensures exists e :: IsResolution(ps, AnswersOf(ps, q.query), q.maxTier, permit, Err(Routing(e)))
    decreases 2 - TierRank(tier)
  {
    var s := Select(ps, q.query, Some(tier));
    if s.error.NoTierMatch? {
      NoMatchPassesOver(ps, q.query, permit, q.maxTier, tier);
      EnterRefuses(ps, q, Escalate(tier).value, permit);
    } else {
      ErrorStops(ps, q.query, permit, q.maxTier, tier);
    }
  }

  /** And the other way to leave a walk: a request that is refused by it, in any run, is refused as specified,
      with an open circuit after the answers it was given, or by the router before it was given any. */
  lemma WalksRefuse(ps: seq<Provider>, states: seq<System>, steps: seq<Step>, k: nat, r: nat,
                    permit: Tier -> nat -> Permit)
    requires IsRun(ps, states, steps) && k < |steps| && r in states[k + 1].requests
    requires states[k + 1].requests[r].stage.Gone?
    ensures steps[k] == Finish(r) ==> r in states[k].requests && var q := states[k].requests[r];
      IsResolution(ps, AnswersOf(ps, q.query), q.maxTier, PermitsOf(q), Err(CircuitOpen))
    ensures steps[k].Arrive? && steps[k].r == r ==>
      exists e :: IsResolution(ps, AnswersOf(ps, steps[k].query), steps[k].tier, permit, Err(Routing(e)))
  {
    RunKeepsWalk(ps, states, steps, k, r);
    assert StepAt(ps, states, steps, k);
    if steps[k] == Finish(r) {
      FinishRefuses(ps, states[k], r);
    } else if steps[k].Arrive? && steps[k].r == r {
      EnterRefuses(ps, NewRequest(steps[k].query, steps[k].tier), steps[k].tier, permit);
    }
  }
}
