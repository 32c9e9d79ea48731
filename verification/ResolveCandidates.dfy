/** Candidate resolution: `resolve_candidates` in src/proxy/handlers.rs, the tier escalation around
    selection and the circuit-breaker filter. What `acquire_permit` answers for the candidate at
    each position of each tier's list is an input. */
module ResolveCandidates {
  import opened Common
  import opened Selector

  datatype Permit = Normal | Probe | Denied

  datatype Resolved = Resolved(candidates: seq<nat>, probe: Option<string>, tier: Tier)

  datatype Refusal = Routing(error: RouteError) | CircuitOpen

  // ----- the permit filter

  // The members of a list whose permit is p, in the order of the list.
  function Where(list: seq<nat>, permit: nat -> Permit, p: Permit): seq<nat> {
    if list == [] then []
    else
      var last := |list| - 1;
      Where(list[..last], permit, p) + if permit(last) == p then [list[last]] else []
  }

  function Reversed(s: seq<nat>): seq<nat> {
    if s == [] then [] else [s[|s| - 1]] + Reversed(s[..|s| - 1])
  }

  /** What the filter leaves: the probes, the last granted first, then the normal candidates. */
  function Filtered(list: seq<nat>, permit: nat -> Permit): seq<nat> {
    Reversed(Where(list, permit, Probe)) + Where(list, permit, Normal)
  }

  // The candidate a guard is made for: the last probe granted.
  function LastProbe(list: seq<nat>, permit: nat -> Permit): Option<nat> {
    if list == [] then None
    else
      var last := |list| - 1;
      if permit(last) == Probe then Some(list[last]) else LastProbe(list[..last], permit)
  }

  function NameOf(ps: seq<Provider>, i: Option<nat>): Option<string> {
    if i.Some? && i.value < |ps| then Some(ps[i.value].name) else None
  }

  ghost predicate AllDenied(list: seq<nat>, permit: nat -> Permit) {
    forall k :: 0 <= k < |list| ==> permit(k) == Denied
  }

  ghost predicate SomePermitted(list: seq<nat>, permit: nat -> Permit, i: nat) {
    exists k :: 0 <= k < |list| && list[k] == i && permit(k) != Denied
  }

  function CountOf(s: seq<nat>, i: nat): nat {
    if s == [] then 0 else CountOf(s[..|s| - 1], i) + if s[|s| - 1] == i then 1 else 0
  }

  lemma {:induction false} CountConcat(s: seq<nat>, t: seq<nat>, i: nat)
    ensures CountOf(s + t, i) == CountOf(s, i) + CountOf(t, i)
  {
    if t == [] {
      assert s + t == s;
    } else {
      CountConcat(s, t[..|t| - 1], i);
      assert (s + t)[..|s + t| - 1] == s + t[..|t| - 1];
    }
  }

  lemma {:induction false} CountReversed(s: seq<nat>, i: nat)
    ensures CountOf(Reversed(s), i) == CountOf(s, i)
  {
    if s != [] {
      CountReversed(s[..|s| - 1], i);
      CountConcat([s[|s| - 1]], Reversed(s[..|s| - 1]), i);
    }
  }

  lemma {:induction false} CountMember(s: seq<nat>, i: nat)
    ensures CountOf(s, i) > 0 <==> i in s
  {
    if s != [] {
      CountMember(s[..|s| - 1], i);
      assert s == s[..|s| - 1] + [s[|s| - 1]];
    }
  }

  lemma CountWhere(list: seq<nat>, permit: nat -> Permit, p: Permit, i: nat)
    requires list != []
    ensures var last := |list| - 1;
      CountOf(Where(list, permit, p), i) ==
        CountOf(Where(list[..last], permit, p), i) + if permit(last) == p && list[last] == i then 1 else 0
  {
    var last := |list| - 1;
    CountConcat(Where(list[..last], permit, p), if permit(last) == p then [list[last]] else [], i);
  }

  lemma {:induction false} WhereSplits(list: seq<nat>, permit: nat -> Permit, i: nat)
    ensures CountOf(Where(list, permit, Normal), i) + CountOf(Where(list, permit, Probe), i)
      + CountOf(Where(list, permit, Denied), i) == CountOf(list, i)
  {
    if list != [] {
      WhereSplits(list[..|list| - 1], permit, i);
      CountWhere(list, permit, Normal, i);
      CountWhere(list, permit, Probe, i);
      CountWhere(list, permit, Denied, i);
    }
  }

  lemma {:induction false} Unrepeated(ps: seq<Provider>, list: seq<nat>, i: nat)
    requires InRange(ps, list) && NamesDistinct(ps, list)
    ensures CountOf(list, i) <= 1
  {
    if list != [] {
      var last := |list| - 1;
      Unrepeated(ps, list[..last], i);
      CountMember(list[..last], i);
      forall k | 0 <= k < last ensures list[..last][k] != list[last] {
        assert ps[list[k]].name != ps[list[last]].name;
      }
    }
  }

  lemma TwiceIn(s: seq<nat>, a: nat, b: nat)
    requires a < b < |s| && s[a] == s[b]
    ensures CountOf(s, s[a]) >= 2
  {
    assert s == s[..b] + ([s[b]] + s[b + 1..]);
    assert s[..b][a] == s[a];
    CountConcat(s[..b], [s[b]] + s[b + 1..], s[a]);
    CountMember(s[..b], s[a]);
    CountMember([s[b]] + s[b + 1..], s[a]);
  }

  lemma {:induction false} WhereMembers(list: seq<nat>, permit: nat -> Permit, p: Permit, i: nat)
    ensures i in Where(list, permit, p) <==> exists k :: 0 <= k < |list| && list[k] == i && permit(k) == p
  {
    if list != [] {
      WhereMembers(list[..|list| - 1], permit, p, i);
      var last := |list| - 1;
      assert forall k :: 0 <= k < last ==> list[..last][k] == list[k];
    }
  }

  lemma {:induction false} WhereKeepsOrder(ps: seq<Provider>, list: seq<nat>, permit: nat -> Permit, p: Permit)
    requires InRange(ps, list) && StrictlySorted(ps, list)
    ensures InRange(ps, Where(list, permit, p)) && StrictlySorted(ps, Where(list, permit, p))
    ensures forall i :: i in Where(list, permit, p) ==> i in list
  {
    if list != [] {
      var last := |list| - 1;
      WhereKeepsOrder(ps, list[..last], permit, p);
      var w := Where(list[..last], permit, p);
      forall i | i in w ensures i < |ps| && Before(ps, i, list[last]) {
        var k :| 0 <= k < last && list[..last][k] == i;
        assert Before(ps, list[k], list[last]);
      }
      if permit(last) == p {
        SortedAppend(ps, w, list[last]);
      }
    }
  }

  lemma SortedAppend(ps: seq<Provider>, s: seq<nat>, i: nat)
    requires InRange(ps, s) && StrictlySorted(ps, s) && i < |ps|
    requires forall j :: j in s ==> j < |ps| && Before(ps, j, i)
    ensures InRange(ps, s + [i]) && StrictlySorted(ps, s + [i])
  {
    assert forall a :: 0 <= a < |s| ==> s[a] in s;
  }

  lemma FilteredMember(list: seq<nat>, permit: nat -> Permit, i: nat)
    ensures i in Filtered(list, permit) <==> SomePermitted(list, permit, i)
    ensures i in Filtered(list, permit) ==> i in list
  {
    CountReversed(Where(list, permit, Probe), i);
    CountMember(Where(list, permit, Probe), i);
    CountMember(Reversed(Where(list, permit, Probe)), i);
    WhereMembers(list, permit, Probe, i);
    WhereMembers(list, permit, Normal, i);
    if SomePermitted(list, permit, i) {
      var k :| 0 <= k < |list| && list[k] == i && permit(k) != Denied;
      assert permit(k) == Probe || permit(k) == Normal;
    }
  }

  lemma NothingFiltered(list: seq<nat>, permit: nat -> Permit)
    ensures Filtered(list, permit) == [] <==> AllDenied(list, permit)
  {
    var f := Filtered(list, permit);
    if f != [] {
      FilteredMember(list, permit, f[0]);
    }
    forall k | 0 <= k < |list| && permit(k) != Denied ensures f != [] {
      assert SomePermitted(list, permit, list[k]);
      FilteredMember(list, permit, list[k]);
    }
  }

  /** The filter loses and invents nobody: with those denied it is a permutation of the list, its
      members are exactly those permitted, and the normal ones are still cheapest first. */
  lemma FilteredIsThePermitted(ps: seq<Provider>, list: seq<nat>, permit: nat -> Permit)
    requires InRange(ps, list) && StrictlySorted(ps, list)
    ensures forall i :: CountOf(Filtered(list, permit), i) + CountOf(Where(list, permit, Denied), i) == CountOf(list, i)
    ensures forall i :: i in Filtered(list, permit) <==> SomePermitted(list, permit, i)
    ensures InRange(ps, Where(list, permit, Normal)) && StrictlySorted(ps, Where(list, permit, Normal))
  {
    WhereKeepsOrder(ps, list, permit, Normal);
    forall i ensures CountOf(Filtered(list, permit), i) + CountOf(Where(list, permit, Denied), i) == CountOf(list, i) {
      WhereSplits(list, permit, i);
      CountConcat(Reversed(Where(list, permit, Probe)), Where(list, permit, Normal), i);
      CountReversed(Where(list, permit, Probe), i);
    }
    forall i ensures i in Filtered(list, permit) <==> SomePermitted(list, permit, i) {
      FilteredMember(list, permit, i);
    }
  }

  lemma NamesStayDistinct(ps: seq<Provider>, list: seq<nat>, permit: nat -> Permit)
    requires InRange(ps, list) && StrictlySorted(ps, list) && NamesDistinct(ps, list)
    ensures InRange(ps, Filtered(list, permit)) && NamesDistinct(ps, Filtered(list, permit))
  {
    FilteredIsThePermitted(ps, list, permit);
    var f := Filtered(list, permit);
    forall a | 0 <= a < |f| ensures f[a] < |ps| && f[a] in list {
      FilteredMember(list, permit, f[a]);
    }
    forall a, b | 0 <= a < b < |f| ensures ps[f[a]].name != ps[f[b]].name {
      Unrepeated(ps, list, f[a]);
      if f[a] == f[b] { TwiceIn(f, a, b); }
      DistinctMembers(ps, list, f[a], f[b]);
    }
  }

  lemma DistinctMembers(ps: seq<Provider>, list: seq<nat>, i: nat, j: nat)
    requires InRange(ps, list) && NamesDistinct(ps, list) && i in list && j in list && i != j
    ensures i < |ps| && j < |ps| && ps[i].name != ps[j].name
  {
    var x :| 0 <= x < |list| && list[x] == i;
    var y :| 0 <= y < |list| && list[y] == j;
  }

  lemma {:induction false} LastProbeIsFirst(list: seq<nat>, permit: nat -> Permit)
    ensures LastProbe(list, permit).Some? <==> Where(list, permit, Probe) != []
    ensures LastProbe(list, permit).Some? ==>
      Filtered(list, permit) != [] && LastProbe(list, permit) == Some(Filtered(list, permit)[0])
  {
    if list != [] {
      LastProbeIsFirst(list[..|list| - 1], permit);
      FilterStep(list, permit);
    }
  }

  // One more candidate.
  lemma FilterStep(list: seq<nat>, permit: nat -> Permit)
    requires list != []
    ensures var last := |list| - 1; var before := Filtered(list[..last], permit);
      Filtered(list, permit) ==
        match permit(last)
        case Normal => before + [list[last]]
        case Probe => [list[last]] + before
        case Denied => before
  {
    var last := |list| - 1;
    var probes, normals := Where(list[..last], permit, Probe), Where(list[..last], permit, Normal);
    assert probes + [] == probes && normals + [] == normals;
    assert Reversed(probes) + (normals + [list[last]]) == (Reversed(probes) + normals) + [list[last]];
    if permit(last) == Probe {
      assert Where(list, permit, Probe)[..|probes|] == probes;
      assert ([list[last]] + Reversed(probes)) + normals == [list[last]] + (Reversed(probes) + normals);
    }
  }

  /** The loop over the candidates. When a probe was granted, the guard's provider is the one that is
      called first. */
  method FilterByPermits(ps: seq<Provider>, list: seq<nat>, permit: nat -> Permit)
    returns (filtered: seq<nat>, probe: Option<string>)
    requires InRange(ps, list)
    ensures filtered == Filtered(list, permit) && probe == NameOf(ps, LastProbe(list, permit))
    ensures probe.Some? ==> filtered != [] && filtered[0] < |ps| && ps[filtered[0]].name == probe.value
    ensures probe.None? ==> filtered == Where(list, permit, Normal)
  {
    filtered, probe := [], None;
    for k := 0 to |list|
      invariant filtered == Filtered(list[..k], permit) && probe == NameOf(ps, LastProbe(list[..k], permit))
    {
      assert list[..k + 1][..k] == list[..k];
      FilterStep(list[..k + 1], permit);
      match permit(k) {
        case Normal => filtered := filtered + [list[k]];
        case Probe =>
          probe := Some(ps[list[k]].name);
          filtered := [list[k]] + filtered;
        case Denied =>
      }
    }
    assert list[..|list|] == list;
    LastProbeIsFirst(list, permit);
    LastProbeInList(list, permit);
  }

  lemma {:induction false} LastProbeInList(list: seq<nat>, permit: nat -> Permit)
    ensures LastProbe(list, permit).Some? ==> LastProbe(list, permit).value in list
  {
    if list != [] {
      LastProbeInList(list[..|list| - 1], permit);
      assert forall i :: i in list[..|list| - 1] ==> i in list;
    }
  }

  // ----- escalation

  // What selection answers at each tier.
  type Answers = Tier -> Result<seq<nat>, RouteError>

  function AnswersOf(ps: seq<Provider>, q: Query): Answers {
    (t: Tier) => Select(ps, q, Some(t))
  }

  predicate NothingConfigured(select: Answers, t: Tier) {
    select(t) == Err(NoTierMatch(t))
  }

  // No provider of the model is within the tier, or none of the candidates was let through.
  ghost predicate PassedOver(select: Answers, permit: Tier -> nat -> Permit, t: Tier) {
    NothingConfigured(select, t) || (select(t).Ok? && AllDenied(select(t).value, permit(t)))
  }

  ghost predicate AllPassedOver(select: Answers, permit: Tier -> nat -> Permit, low: Tier, high: nat) {
    forall t: Tier :: TierRank(low) <= TierRank(t) < high ==> PassedOver(select, permit, t)
  }

  ghost predicate NoneConfigured(select: Answers, low: Tier, high: nat) {
    forall t: Tier :: TierRank(low) <= TierRank(t) < high ==> NothingConfigured(select, t)
  }

  // The escalation arrives at a tier and stops there.
  ghost predicate StopsAt(select: Answers, maxTier: Tier, permit: Tier -> nat -> Permit, t: Tier) {
    && TierRank(maxTier) <= TierRank(t)
    && AllPassedOver(select, permit, maxTier, TierRank(t)) && !PassedOver(select, permit, t)
  }

  /** The answer of `resolve_candidates`: that of the first tier that is not passed over. */
  ghost predicate IsResolution(ps: seq<Provider>, select: Answers, maxTier: Tier, permit: Tier -> nat -> Permit,
                               r: Result<Resolved, Refusal>) {
    match r
    case Ok(v) =>
      && StopsAt(select, maxTier, permit, v.tier)
      && select(v.tier).Ok?
      && v.candidates == Filtered(select(v.tier).value, permit(v.tier)) != []
      && v.probe == NameOf(ps, LastProbe(select(v.tier).value, permit(v.tier)))
    case Err(Routing(e)) =>
      && !e.NoTierMatch?
      && exists t :: (
           StopsAt(select, maxTier, permit, t) && NoneConfigured(select, maxTier, TierRank(t)) && select(t) == Err(e))
    case Err(CircuitOpen) =>
      AllPassedOver(select, permit, maxTier, TierRank(Frontier) + 1) && select(Frontier).Ok?
  }

  // A list at one tier means a list at every higher tier.
  lemma CandidatesRemain(ps: seq<Provider>, q: Query, low: Tier, high: Tier)
    requires TierRank(low) <= TierRank(high) && Select(ps, q, Some(low)).Ok?
    ensures Select(ps, q, Some(high)).Ok?
  {
    SelectOkIff(ps, q, Some(low));
    SelectOkIff(ps, q, Some(high));
    var i: nat :| Eligible(ps, q, Some(low), i);
    assert Eligible(ps, q, Some(high), i);
  }

  lemma PassOver(select: Answers, permit: Tier -> nat -> Permit, maxTier: Tier, t: Tier)
    requires AllPassedOver(select, permit, maxTier, TierRank(t)) && PassedOver(select, permit, t)
    ensures AllPassedOver(select, permit, maxTier, TierRank(t) + 1)
  {
    forall u: Tier | TierRank(maxTier) <= TierRank(u) < TierRank(t) + 1 ensures PassedOver(select, permit, u) {
      assert TierRank(u) == TierRank(t) ==> u == t;
    }
  }

  // An error other than NoTierMatch is not preceded by a list all of whose members were denied.
  lemma ErrorStops(ps: seq<Provider>, q: Query, permit: Tier -> nat -> Permit, maxTier: Tier, t: Tier)
    requires TierRank(maxTier) <= TierRank(t) && AllPassedOver(AnswersOf(ps, q), permit, maxTier, TierRank(t))
    requires AnswersOf(ps, q)(t).Err? && !AnswersOf(ps, q)(t).error.NoTierMatch?
    ensures IsResolution(ps, AnswersOf(ps, q), maxTier, permit, Err(Routing(AnswersOf(ps, q)(t).error)))
  {
    var select := AnswersOf(ps, q);
    forall u: Tier | TierRank(maxTier) <= TierRank(u) < TierRank(t) ensures NothingConfigured(select, u) {
      assert PassedOver(select, permit, u);
      if select(u).Ok? { CandidatesRemain(ps, q, u, t); }
    }
    assert StopsAt(select, maxTier, permit, t);
  }

  // NoTierMatch names the tier it was asked for, which is not the top one.
  lemma NoMatchPassesOver(ps: seq<Provider>, q: Query, permit: Tier -> nat -> Permit,
                                             maxTier: Tier, t: Tier)
    requires AllPassedOver(AnswersOf(ps, q), permit, maxTier, TierRank(t))
    requires AnswersOf(ps, q)(t).Err? && AnswersOf(ps, q)(t).error.NoTierMatch?
    ensures Escalate(t).Some? && AllPassedOver(AnswersOf(ps, q), permit, maxTier, TierRank(t) + 1)
  {
    assert Select(ps, q, Some(t)) == Err(NoTierMatch(t));
    NoTierMatchHasNextTier(ps, q, t);
    PassOver(AnswersOf(ps, q), permit, maxTier, t);
  }

  // A list of which somebody is left is the answer, one of which nobody is left is passed over.
  lemma ListDecides(ps: seq<Provider>, select: Answers, permit: Tier -> nat -> Permit,
                                       maxTier: Tier, t: Tier)
    requires TierRank(maxTier) <= TierRank(t) && AllPassedOver(select, permit, maxTier, TierRank(t)) && select(t).Ok?
    ensures var left := Filtered(select(t).value, permit(t));
      && (left != [] ==> IsResolution(ps, select, maxTier, permit,
                                      Ok(Resolved(left, NameOf(ps, LastProbe(select(t).value, permit(t))), t))))
      && (left == [] ==> AllPassedOver(select, permit, maxTier, TierRank(t) + 1))
  {
    NothingFiltered(select(t).value, permit(t));
    if Filtered(select(t).value, permit(t)) == [] {
      PassOver(select, permit, maxTier, t);
    }
  }

  datatype AtTier = Stop(answer: Result<Resolved, Refusal>) | NoProvider | AllOpen

  // One round of the loop.
  method TryTier(ps: seq<Provider>, q: Query, permit: Tier -> nat -> Permit, current: Tier, ghost maxTier: Tier)
    returns (r: AtTier)
    requires TierRank(maxTier) <= TierRank(current)
    requires AllPassedOver(AnswersOf(ps, q), permit, maxTier, TierRank(current))
    ensures r.Stop? ==> IsResolution(ps, AnswersOf(ps, q), maxTier, permit, r.answer)
    ensures !r.Stop? ==> AllPassedOver(AnswersOf(ps, q), permit, maxTier, TierRank(current) + 1)
    ensures r.NoProvider? ==> Escalate(current).Some?
    ensures r.AllOpen? ==> AnswersOf(ps, q)(current).Ok?
  {
    var selected := SelectAt(ps, q, current);
    match selected {
      case Ok(list) =>
        var filtered, probe := FilterByPermits(ps, list, permit(current));
        ListDecides(ps, AnswersOf(ps, q), permit, maxTier, current);
        return if filtered != [] then Stop(Ok(Resolved(filtered, probe, current))) else AllOpen;
      case Err(e) =>
        if e.NoTierMatch? {
          NoMatchPassesOver(ps, q, permit, maxTier, current);
          return NoProvider;
        }
        ErrorStops(ps, q, permit, maxTier, current);
        return Stop(Err(Routing(e)));
    }
  }

  /** The escalation loop. It answers from the first tier, from the requested one upwards, that is
      not passed over; NoTierMatch at the top tier cannot occur. */
  method Resolve(ps: seq<Provider>, q: Query, maxTier: Tier, permit: Tier -> nat -> Permit)
    returns (r: Result<Resolved, Refusal>)
    ensures IsResolution(ps, AnswersOf(ps, q), maxTier, permit, r)
  {
    var current := maxTier;
    while true
      invariant TierRank(maxTier) <= TierRank(current)
      invariant AllPassedOver(AnswersOf(ps, q), permit, maxTier, TierRank(current))
      decreases TierRank(Frontier) - TierRank(current)
    {
      var tried := TryTier(ps, q, permit, current, maxTier);
      match tried {
        case Stop(answer) =>
          return answer;
        case NoProvider =>
          current := Escalate(current).value;
        case AllOpen =>
          if Escalate(current).None? {
            return Err(CircuitOpen);
          }
          current := Escalate(current).value;
      }
    }
  }

  method SelectAt(ps: seq<Provider>, q: Query, t: Tier) returns (r: Result<seq<nat>, RouteError>)
    ensures r == AnswersOf(ps, q)(t)
    ensures r.Ok? ==> InRange(ps, r.value)
  {
    r := SelectCandidates(ps, q, Some(t));
  }

  /** There is one answer, so the specification is complete. */
  lemma ResolutionIsUnique(ps: seq<Provider>, q: Query, maxTier: Tier, permit: Tier -> nat -> Permit,
                           r: Result<Resolved, Refusal>, r': Result<Resolved, Refusal>)
    requires IsResolution(ps, AnswersOf(ps, q), maxTier, permit, r)
    requires IsResolution(ps, AnswersOf(ps, q), maxTier, permit, r')
    ensures r == r'
  {
    var select := AnswersOf(ps, q);
    if r == Err(CircuitOpen) {
      NowhereToStop(ps, select, maxTier, permit, r');
    } else if r' == Err(CircuitOpen) {
      NowhereToStop(ps, select, maxTier, permit, r);
    } else {
      var t, t' := StopOf(ps, select, maxTier, permit, r), StopOf(ps, select, maxTier, permit, r');
      OneStop(select, maxTier, permit, t, t');
    }
  }

  ghost function StopOf(ps: seq<Provider>, select: Answers, maxTier: Tier, permit: Tier -> nat -> Permit,
                        r: Result<Resolved, Refusal>): (t: Tier)
    requires IsResolution(ps, select, maxTier, permit, r) && r != Err(CircuitOpen)
    ensures StopsAt(select, maxTier, permit, t)
    ensures r.Ok? ==> t == r.value.tier
    ensures r.Err? ==> select(t) == Err(r.error.error)
  {
    if r.Ok? then r.value.tier
    else
      var t :| StopsAt(select, maxTier, permit, t) && NoneConfigured(select, maxTier, TierRank(t))
        && select(t) == Err(r.error.error);
      t
  }

  lemma OneStop(select: Answers, maxTier: Tier, permit: Tier -> nat -> Permit, t: Tier, t': Tier)
    requires StopsAt(select, maxTier, permit, t) && StopsAt(select, maxTier, permit, t')
    ensures t == t'
  {
  }

  lemma NowhereToStop(ps: seq<Provider>, select: Answers, maxTier: Tier, permit: Tier -> nat -> Permit,
                      r: Result<Resolved, Refusal>)
    requires AllPassedOver(select, permit, maxTier, TierRank(Frontier) + 1)
    requires IsResolution(ps, select, maxTier, permit, r)
    ensures r == Err(CircuitOpen)
  {
    if r != Err(CircuitOpen) {
      var t := StopOf(ps, select, maxTier, permit, r);
    }
  }

  /** Everything returned is eligible at the tier that is reported, in name-distinct form, and the
      provider to be probed is called first. */
  lemma ResolvedAreEligible(ps: seq<Provider>, q: Query, maxTier: Tier, permit: Tier -> nat -> Permit, v: Resolved)
    requires IsResolution(ps, AnswersOf(ps, q), maxTier, permit, Ok(v))
    ensures forall k :: 0 <= k < |v.candidates| ==> Eligible(ps, q, Some(v.tier), v.candidates[k])
    ensures InRange(ps, v.candidates) && NamesDistinct(ps, v.candidates)
    ensures v.probe.Some? ==> v.candidates != [] && ps[v.candidates[0]].name == v.probe.value
  {
    var list, f := Select(ps, q, Some(v.tier)).value, permit(v.tier);
    SelectCharacterisation(ps, q, Some(v.tier), list);
    NamesStayDistinct(ps, list, f);
    LastProbeIsFirst(list, f);
    forall k | 0 <= k < |v.candidates| ensures Eligible(ps, q, Some(v.tier), v.candidates[k]) {
      FilteredMember(list, f, v.candidates[k]);
    }
  }

  // The first tier, from the requested one upwards, with a provider of the model.
  ghost predicate FirstInTier(ps: seq<Provider>, q: Query, maxTier: Tier, t: Tier) {
    && TierRank(maxTier) <= TierRank(t) && SomeInTier(ps, q, Some(t))
    && forall u: Tier :: TierRank(maxTier) <= TierRank(u) < TierRank(t) ==> !SomeInTier(ps, q, Some(u))
  }

  lemma NoneBelow(ps: seq<Provider>, q: Query, maxTier: Tier, t: Tier)
    requires TierRank(maxTier) <= TierRank(t) && SomeInTier(ps, q, Some(t))
    ensures FirstInTier(ps, q, maxTier, t) <==> NoneConfigured(AnswersOf(ps, q), maxTier, TierRank(t))
  {
    assert SomeServes(ps, q);
    forall u: Tier ensures NothingConfigured(AnswersOf(ps, q), u) <==> !SomeInTier(ps, q, Some(u)) {
      SelectErrors(ps, q, Some(u));
      SelectsOwnTier(ps, q, u);
    }
  }

  lemma SelectsOwnTier(ps: seq<Provider>, q: Query, t: Tier)
    ensures Select(ps, q, Some(t)).Err? && Select(ps, q, Some(t)).error.NoTierMatch? ==>
      Select(ps, q, Some(t)) == Err(NoTierMatch(t))
  {
  }

  // An error at a tier below which nothing is configured is the answer.
  lemma FirstErrorIsAnswer(ps: seq<Provider>, select: Answers, maxTier: Tier, permit: Tier -> nat -> Permit,
                           r: Result<Resolved, Refusal>, t: Tier)
    requires TierRank(maxTier) <= TierRank(t) && NoneConfigured(select, maxTier, TierRank(t))
    requires select(t).Err? && !select(t).error.NoTierMatch?
    requires IsResolution(ps, select, maxTier, permit, r)
    ensures r == Err(Routing(select(t).error))
  {
    assert StopsAt(select, maxTier, permit, t);
    assert AllPassedOver(select, permit, maxTier, TierRank(Frontier) + 1) ==> PassedOver(select, permit, t);
    if r != Err(CircuitOpen) {
      OneStop(select, maxTier, permit, StopOf(ps, select, maxTier, permit, r), t);
    }
  }

  ghost predicate TooDear(ps: seq<Provider>, q: Query, maxTier: Tier) {
    exists t :: FirstInTier(ps, q, maxTier, t) && !SomeEligible(ps, q, Some(t))
  }

  /** Only the two conditions are escalated from. `NoPolicyMatch` is answered exactly when the policy
      allows the model and its price ceiling leaves nobody at the first tier, from the requested one
      upwards, that has a provider of the model. */
  lemma PriceCeilingIsNotEscalated(ps: seq<Provider>, q: Query, maxTier: Tier, permit: Tier -> nat -> Permit,
                                   r: Result<Resolved, Refusal>)
    requires IsResolution(ps, AnswersOf(ps, q), maxTier, permit, r)
    ensures r == Err(Routing(NoPolicyMatch)) <==> ModelAllowed(q) && TooDear(ps, q, maxTier)
  {
    var select := AnswersOf(ps, q);
    if r == Err(Routing(NoPolicyMatch)) {
      var t :| StopsAt(select, maxTier, permit, t) && NoneConfigured(select, maxTier, TierRank(t))
        && select(t) == Err(NoPolicyMatch);
      SelectErrors(ps, q, Some(t));
      NoneBelow(ps, q, maxTier, t);
    }
    if ModelAllowed(q) && TooDear(ps, q, maxTier) {
      var t :| FirstInTier(ps, q, maxTier, t) && !SomeEligible(ps, q, Some(t));
      SelectErrors(ps, q, Some(t));
      NoneBelow(ps, q, maxTier, t);
      FirstErrorIsAnswer(ps, select, maxTier, permit, r, t);
    }
  }

  // The router refuses although it has candidates at some tier the request may escalate to.
  ghost predicate Misses(ps: seq<Provider>, q: Query, maxTier: Tier, r: Result<Resolved, Refusal>) {
    r.Err? && r.error.Routing? && Listed(AnswersOf(ps, q), maxTier)
  }

  /** When candidates are missed: exactly when the ceiling leaves nobody at that first tier but somebody
      at the top. No other refusal of the router misses anyone. */
  lemma MissesIff(ps: seq<Provider>, q: Query, maxTier: Tier, permit: Tier -> nat -> Permit,
                  r: Result<Resolved, Refusal>)
    requires IsResolution(ps, AnswersOf(ps, q), maxTier, permit, r)
    ensures Misses(ps, q, maxTier, r) <==>
      ModelAllowed(q) && TooDear(ps, q, maxTier) && SomeEligible(ps, q, Some(Frontier))
  {
    PriceCeilingIsNotEscalated(ps, q, maxTier, permit, r);
    ListedIff(ps, q, maxTier);
    if Misses(ps, q, maxTier, r) {
      OtherErrorsMissNobody(ps, q, maxTier, permit, r);
    }
  }

  ghost predicate Listed(select: Answers, maxTier: Tier) {
    exists u: Tier :: TierRank(maxTier) <= TierRank(u) && select(u).Ok?
  }

  lemma ListedAtTheTop(select: Answers, maxTier: Tier)
    requires forall u: Tier :: select(u).Ok? ==> select(Frontier).Ok?
    ensures Listed(select, maxTier) <==> select(Frontier).Ok?
  {
    assert TierRank(maxTier) <= TierRank(Frontier);
  }

  lemma ListedIff(ps: seq<Provider>, q: Query, maxTier: Tier)
    ensures Listed(AnswersOf(ps, q), maxTier) <==> ModelAllowed(q) && SomeEligible(ps, q, Some(Frontier))
  {
    forall u: Tier | AnswersOf(ps, q)(u).Ok? ensures AnswersOf(ps, q)(Frontier).Ok? {
      CandidatesRemain(ps, q, u, Frontier);
    }
    ListedAtTheTop(AnswersOf(ps, q), maxTier);
    SelectOkIff(ps, q, Some(Frontier));
  }

  lemma OtherErrorsMissNobody(ps: seq<Provider>, q: Query, maxTier: Tier, permit: Tier -> nat -> Permit,
                              r: Result<Resolved, Refusal>)
    requires IsResolution(ps, AnswersOf(ps, q), maxTier, permit, r) && r.Err? && r.error.Routing?
    requires ModelAllowed(q) && SomeEligible(ps, q, Some(Frontier))
    ensures r == Err(Routing(NoPolicyMatch))
  {
    var t := StopOf(ps, AnswersOf(ps, q), maxTier, permit, r);
    SelectErrors(ps, q, Some(t));
    assert SomeServes(ps, q) by {
      var i: nat :| Eligible(ps, q, Some(Frontier), i);
    }
  }

  /** Such configurations exist: a dear local provider and a frontier one at the ceiling ... */
  lemma CeilingExample(ps: seq<Provider>, q: Query)
    requires |ps| == 2 && ps[0].models == [] == ps[1].models && ps[0].tier == Local && ps[1].tier == Frontier
    requires q.policy == Some(Policy([], Some(ps[1].outputRate))) && ps[0].outputRate > ps[1].outputRate
    ensures SomeInTier(ps, q, Some(Local)) && ModelAllowed(q) && !SomeEligible(ps, q, Some(Local))
    ensures Select(ps, q, Some(Frontier)).Ok?
  {
    assert Eligible(ps, q, Some(Frontier), 1);
    SelectOkIff(ps, q, Some(Frontier));
    assert 0 < |ps| && Serves(ps[0], q.model) && WithinTier(ps[0], Some(Local));
    assert !Eligible(ps, q, Some(Local), 0) && !Eligible(ps, q, Some(Local), 1);
  }

  /** ... and the ceiling bites as well at a tier that was only reached by escalation. */
  lemma EscalatedCeilingExample(ps: seq<Provider>, q: Query)
    requires |ps| == 2 && ps[0].models == [] == ps[1].models && ps[0].tier == Standard && ps[1].tier == Frontier
    requires q.policy == Some(Policy([], Some(ps[1].outputRate))) && ps[0].outputRate > ps[1].outputRate
    ensures !SomeInTier(ps, q, Some(Local)) && ModelAllowed(q) && TooDear(ps, q, Local)
    ensures SomeEligible(ps, q, Some(Frontier))
  {
    assert Eligible(ps, q, Some(Frontier), 1);
    assert 0 < |ps| && Serves(ps[0], q.model) && WithinTier(ps[0], Some(Standard));
    assert !Eligible(ps, q, Some(Standard), 0) && !Eligible(ps, q, Some(Standard), 1);
    assert FirstInTier(ps, q, Local, Standard) by {
      assert forall u: Tier :: TierRank(u) < TierRank(Standard) ==> u == Local;
    }
  }
}
