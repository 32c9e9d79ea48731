/** Candidate selection (src/router/selector.rs) and the tier order it filters by
    (src/config.rs). A candidate is the index of its entry in the configuration,
    as the source keeps references into one provider vector. */
module Selector {
  import opened Common

  datatype Tier = Local | Standard | Frontier

  function TierRank(t: Tier): nat {
    match t
    case Local => 0
    case Standard => 1
    case Frontier => 2
  }

  function Escalate(t: Tier): Option<Tier> {
    match t
    case Local => Some(Standard)
    case Standard => Some(Frontier)
    case Frontier => None
  }

  datatype Provider = Provider(
    name: string,
    models: seq<string>,
    inputRate: u64,
    outputRate: u64,
    baseFee: u64,
    tier: Tier)

  datatype Policy = Policy(allowedModels: seq<string>, maxSatsPer1kOutput: Option<u64>)

  // The policy is the one `find_policy` settled on for this request.
  datatype Query = Query(model: string, policy: Option<Policy>)

  datatype RouteError = NoProviders | NoTierMatch(tier: Tier) | NoPolicyMatch | BadRequest

  // ----- the vocabulary of the specification

  predicate Serves(p: Provider, model: string) {
    p.models == [] || model in p.models
  }

  predicate WithinTier(p: Provider, maxTier: Option<Tier>) {
    maxTier.Some? ==> TierRank(p.tier) <= TierRank(maxTier.value)
  }

  predicate WithinPolicy(p: Provider, policy: Option<Policy>) {
    policy.Some? && policy.value.maxSatsPer1kOutput.Some? ==>
      p.outputRate <= policy.value.maxSatsPer1kOutput.value
  }

  predicate ModelAllowed(q: Query) {
    q.policy.Some? && q.policy.value.allowedModels != [] ==> q.model in q.policy.value.allowedModels
  }

  predicate Eligible(ps: seq<Provider>, q: Query, maxTier: Option<Tier>, i: nat) {
    && i < |ps|
    && Serves(ps[i], q.model)
    && WithinTier(ps[i], maxTier)
    && WithinPolicy(ps[i], q.policy)
  }

  function RoutingCost(p: Provider): u64 {
    Add64(p.outputRate, p.baseFee)
  }

  // Cheaper first, ties in configuration order.
  predicate Before(ps: seq<Provider>, i: nat, j: nat)
    requires i < |ps| && j < |ps|
  {
    RoutingCost(ps[i]) < RoutingCost(ps[j]) || (RoutingCost(ps[i]) == RoutingCost(ps[j]) && i < j)
  }

  predicate InRange(ps: seq<Provider>, s: seq<nat>) {
    forall k :: 0 <= k < |s| ==> s[k] < |ps|
  }

  predicate Ascending(s: seq<nat>) {
    forall a, b :: 0 <= a < b < |s| ==> s[a] < s[b]
  }

  ghost predicate StrictlySorted(ps: seq<Provider>, s: seq<nat>)
    requires InRange(ps, s)
  {
    forall a, b :: 0 <= a < b < |s| ==> Before(ps, s[a], s[b])
  }

  ghost predicate NamesDistinct(ps: seq<Provider>, s: seq<nat>)
    requires InRange(ps, s)
  {
    forall a, b :: 0 <= a < b < |s| ==> ps[s[a]].name != ps[s[b]].name
  }

  // i's name is represented in s by an entry that does not come after i.
  ghost predicate Represented(ps: seq<Provider>, s: seq<nat>, i: nat)
    requires InRange(ps, s) && i < |ps|
  {
    exists k :: 0 <= k < |s| && ps[s[k]].name == ps[i].name && (s[k] == i || Before(ps, s[k], i))
  }

  /** What the documentation of `select_candidates` promises: the eligible
      providers, cheapest first, each name once and by its cheapest entry. */
  ghost predicate IsCandidateList(ps: seq<Provider>, q: Query, maxTier: Option<Tier>, s: seq<nat>) {
    && s != []
    && InRange(ps, s)
    && (forall k :: 0 <= k < |s| ==> Eligible(ps, q, maxTier, s[k]))
    && StrictlySorted(ps, s)
    && NamesDistinct(ps, s)
    && (forall i: nat :: Eligible(ps, q, maxTier, i) ==> Represented(ps, s, i))
  }

  // Candidates by name.
  function NamesOf(ps: seq<Provider>, s: seq<nat>): seq<string> {
    seq(|s|, k => if 0 <= k < |s| && s[k] < |ps| then ps[s[k]].name else "")
  }

  // ----- what the program computes

  function Indices(n: nat): (s: seq<nat>)
    ensures |s| == n && (forall k :: 0 <= k < n ==> s[k] == k)
    ensures forall i: nat :: i in s <==> i < n
  {
    if n == 0 then [] else Indices(n - 1) + [n - 1]
  }

  function Filter(s: seq<nat>, keep: nat -> bool): (r: seq<nat>)
    ensures forall i :: i in r <==> i in s && keep(i)
    ensures forall k :: 0 <= k < |r| ==> keep(r[k])
  {
    if s == [] then []
    else
      var rest := Filter(s[1..], keep);
      if keep(s[0]) then [s[0]] + rest else rest
  }

  lemma {:induction false} FilterKeepsOrder(s: seq<nat>, keep: nat -> bool)
    requires Ascending(s)
    ensures Ascending(Filter(s, keep))
  {
    if s != [] {
      FilterKeepsOrder(s[1..], keep);
      var rest := Filter(s[1..], keep);
      forall k | 0 <= k < |rest| ensures s[0] < rest[k] {
        assert rest[k] in rest;
        assert rest[k] in s[1..];
      }
    }
  }

  function InsertByCost(ps: seq<Provider>, i: nat, s: seq<nat>): (r: seq<nat>)
    requires i < |ps| && InRange(ps, s)
    ensures InRange(ps, r)
    ensures forall j :: j in r <==> j == i || j in s
  {
    if s == [] then [i]
    else if RoutingCost(ps[i]) <= RoutingCost(ps[s[0]]) then [i] + s
    else [s[0]] + InsertByCost(ps, i, s[1..])
  }

  // The standard library's stable sort by routing cost.
  function SortByCost(ps: seq<Provider>, s: seq<nat>): (r: seq<nat>)
    requires InRange(ps, s)
    ensures InRange(ps, r)
    ensures forall j :: j in r <==> j in s
  {
    if s == [] then [] else InsertByCost(ps, s[0], SortByCost(ps, s[1..]))
  }

  // Keeps the first entry of every name that is not in `seen`.
  function Dedup(ps: seq<Provider>, s: seq<nat>, seen: set<string>): (r: seq<nat>)
    requires InRange(ps, s)
    ensures forall j :: j in r ==> j in s
    ensures InRange(ps, r)
  {
    if s == [] then []
    else if ps[s[0]].name in seen then Dedup(ps, s[1..], seen)
    else [s[0]] + Dedup(ps, s[1..], seen + {ps[s[0]].name})
  }

  function ServingModel(ps: seq<Provider>, model: string): (s: seq<nat>)
    ensures Ascending(s) && InRange(ps, s)
    ensures forall i: nat :: i in s <==> i < |ps| && Serves(ps[i], model)
  {
    FilterKeepsOrder(Indices(|ps|), (i: nat) => i < |ps| && Serves(ps[i], model));
    Filter(Indices(|ps|), (i: nat) => i < |ps| && Serves(ps[i], model))
  }

  function InTier(ps: seq<Provider>, s: seq<nat>, maxTier: Option<Tier>): (r: seq<nat>)
    requires InRange(ps, s) && Ascending(s)
    ensures Ascending(r) && InRange(ps, r)
    ensures forall i :: i in r <==> i in s && WithinTier(ps[i], maxTier)
  {
    FilterKeepsOrder(s, (i: nat) => i < |ps| && WithinTier(ps[i], maxTier));
    assert forall i :: i in s ==> i < |ps|;
    Filter(s, (i: nat) => i < |ps| && WithinTier(ps[i], maxTier))
  }

  function ApplyPolicy(ps: seq<Provider>, s: seq<nat>, policy: Policy, model: string): (r: Result<seq<nat>, RouteError>)
    requires InRange(ps, s) && Ascending(s)
    ensures r.Ok? ==> r.value != [] && Ascending(r.value) && InRange(ps, r.value)
    ensures r.Ok? ==> forall i :: i in r.value <==> i in s && WithinPolicy(ps[i], Some(policy))
  {
    if policy.allowedModels != [] && model !in policy.allowedModels then Err(BadRequest)
    else
      var kept := Filter(s, (i: nat) => i < |ps| && WithinPolicy(ps[i], Some(policy)));
      FilterKeepsOrder(s, (i: nat) => i < |ps| && WithinPolicy(ps[i], Some(policy)));
      assert forall i :: i in s ==> i < |ps|;
      if kept == [] then Err(NoPolicyMatch) else Ok(kept)
  }

  function Select(ps: seq<Provider>, q: Query, maxTier: Option<Tier>): (r: Result<seq<nat>, RouteError>)
    ensures r.Ok? ==> InRange(ps, r.value)
  {
    var serving := ServingModel(ps, q.model);
    if serving == [] then Err(NoProviders)
    else
      var tiered := InTier(ps, serving, maxTier);
      if maxTier.Some? && tiered == [] then Err(NoTierMatch(maxTier.value))
      else
        var allowed := if q.policy.Some? then ApplyPolicy(ps, tiered, q.policy.value, q.model) else Ok(tiered);
        if allowed.Err? then Err(allowed.error)
        else
          var unique := Dedup(ps, SortByCost(ps, allowed.value), {});
          if unique == [] then Err(NoPolicyMatch) else Ok(unique)
  }

  // ----- proofs

  lemma SortedHead(ps: seq<Provider>, s: seq<nat>, j: nat)
    requires InRange(ps, s) && StrictlySorted(ps, s) && s != [] && j in s[1..]
    ensures j < |ps| && Before(ps, s[0], j)
  {
    var k :| 0 <= k < |s[1..]| && s[1..][k] == j;
    assert s[k + 1] == j;
  }

  lemma HeadIsFirst(ps: seq<Provider>, s: seq<nat>, j: nat)
    requires InRange(ps, s) && StrictlySorted(ps, s) && j in s
    ensures s != [] && j < |ps| && (j == s[0] || Before(ps, s[0], j))
  {
    if j != s[0] { SortedHead(ps, s, j); }
  }

  lemma SortedCons(ps: seq<Provider>, i: nat, s: seq<nat>)
    requires i < |ps| && InRange(ps, s) && StrictlySorted(ps, s)
    requires forall j :: j in s ==> j < |ps| && Before(ps, i, j)
    ensures StrictlySorted(ps, [i] + s)
  {
    assert forall k :: 0 <= k < |s| ==> s[k] in s;
  }

  lemma {:induction false} InsertKeepsOrder(ps: seq<Provider>, i: nat, s: seq<nat>)
    requires i < |ps| && InRange(ps, s) && StrictlySorted(ps, s)
    requires forall j :: j in s ==> i < j
    ensures StrictlySorted(ps, InsertByCost(ps, i, s))
  {
    if s == [] {
    } else if RoutingCost(ps[i]) <= RoutingCost(ps[s[0]]) {
      assert s[0] in s;
      forall j | j in s ensures j < |ps| && Before(ps, i, j) {
        if j in s[1..] { SortedHead(ps, s, j); }
      }
      SortedCons(ps, i, s);
    } else {
      assert forall j :: j in s[1..] ==> j in s;
      InsertKeepsOrder(ps, i, s[1..]);
      forall j | j in InsertByCost(ps, i, s[1..]) ensures j < |ps| && Before(ps, s[0], j) {
        if j != i { SortedHead(ps, s, j); }
      }
      SortedCons(ps, s[0], InsertByCost(ps, i, s[1..]));
    }
  }

  lemma {:induction false} SortIsStableAndSorted(ps: seq<Provider>, s: seq<nat>)
    requires InRange(ps, s) && Ascending(s)
    ensures StrictlySorted(ps, SortByCost(ps, s))
  {
    if s != [] {
      SortIsStableAndSorted(ps, s[1..]);
      forall j | j in SortByCost(ps, s[1..]) ensures s[0] < j {
        assert j in s[1..];
      }
      InsertKeepsOrder(ps, s[0], SortByCost(ps, s[1..]));
    }
  }

  lemma {:induction false} DedupIsSorted(ps: seq<Provider>, s: seq<nat>, seen: set<string>)
    requires InRange(ps, s) && StrictlySorted(ps, s)
    ensures StrictlySorted(ps, Dedup(ps, s, seen))
  {
    if s != [] {
      var seen' := if ps[s[0]].name in seen then seen else seen + {ps[s[0]].name};
      DedupIsSorted(ps, s[1..], seen');
      forall j | j in Dedup(ps, s[1..], seen') ensures j < |ps| && Before(ps, s[0], j) {
        SortedHead(ps, s, j);
      }
      SortedCons(ps, s[0], Dedup(ps, s[1..], seen'));
    }
  }

  lemma {:induction false} DedupNames(ps: seq<Provider>, s: seq<nat>, seen: set<string>)
    requires InRange(ps, s)
    ensures NamesDistinct(ps, Dedup(ps, s, seen))
    ensures forall k :: 0 <= k < |Dedup(ps, s, seen)| ==> ps[Dedup(ps, s, seen)[k]].name !in seen
  {
    if s != [] {
      DedupNames(ps, s[1..], if ps[s[0]].name in seen then seen else seen + {ps[s[0]].name});
    }
  }

  lemma {:induction false} DedupRepresents(ps: seq<Provider>, s: seq<nat>, seen: set<string>, i: nat)
    requires InRange(ps, s) && StrictlySorted(ps, s)
    requires i in s && i < |ps| && ps[i].name !in seen
    ensures Represented(ps, Dedup(ps, s, seen), i)
  {
    var r := Dedup(ps, s, seen);
    var keep := ps[s[0]].name !in seen;
    var seen' := if keep then seen + {ps[s[0]].name} else seen;
    if keep && ps[i].name == ps[s[0]].name {
      assert r[0] == s[0];
      if i != s[0] { SortedHead(ps, s, i); }
    } else {
      DedupRepresents(ps, s[1..], seen', i);
      var tail := Dedup(ps, s[1..], seen');
      var k :| 0 <= k < |tail| && ps[tail[k]].name == ps[i].name && (tail[k] == i || Before(ps, tail[k], i));
      assert r[if keep then k + 1 else k] == tail[k];
    }
  }

  lemma Representative(ps: seq<Provider>, s: seq<nat>, i: nat) returns (k: nat)
    requires InRange(ps, s) && i < |ps| && Represented(ps, s, i)
    ensures k < |s| && ps[s[k]].name == ps[i].name && (s[k] == i || Before(ps, s[k], i))
  {
    k :| 0 <= k < |s| && ps[s[k]].name == ps[i].name && (s[k] == i || Before(ps, s[k], i));
  }

  lemma OnePerName(ps: seq<Provider>, s: seq<nat>, j: nat, k: nat)
    requires InRange(ps, s) && NamesDistinct(ps, s) && j < |s| && k < |s| && ps[s[j]].name == ps[s[k]].name
    ensures j == k
  {
  }

  // Two lists that both represent every eligible name by its first entry have the same members ...
  lemma SameMembers(ps: seq<Provider>, q: Query, maxTier: Option<Tier>, s: seq<nat>, t: seq<nat>, k: nat)
    requires IsCandidateList(ps, q, maxTier, s) && IsCandidateList(ps, q, maxTier, t) && k < |s|
    ensures s[k] in t
  {
    var a := Representative(ps, t, s[k]);
    var b := Representative(ps, s, t[a]);
    OnePerName(ps, s, b, k);
  }

  // ... and a strictly sorted sequence is determined by its members.
  lemma {:induction false} SortedListsAgree(ps: seq<Provider>, s: seq<nat>, t: seq<nat>)
    requires InRange(ps, s) && InRange(ps, t) && StrictlySorted(ps, s) && StrictlySorted(ps, t)
    requires forall i :: i in s <==> i in t
    ensures s == t
  {
    assert s != [] ==> s[0] in s;
    assert t != [] ==> t[0] in t;
    if s != [] {
      HeadIsFirst(ps, s, t[0]);
      HeadIsFirst(ps, t, s[0]);
      forall i ensures i in s[1..] <==> i in t[1..] {
        if i in s[1..] { SortedHead(ps, s, i); assert i in t; }
        if i in t[1..] { SortedHead(ps, t, i); assert i in s; }
      }
      SortedListsAgree(ps, s[1..], t[1..]);
      assert s == [s[0]] + s[1..] && t == [t[0]] + t[1..];
    }
  }

  // What sorting and removing duplicates make of the eligible indices.
  lemma SortedUnique(ps: seq<Provider>, q: Query, maxTier: Option<Tier>, eligible: seq<nat>, e: nat)
    requires InRange(ps, eligible) && Ascending(eligible) && Eligible(ps, q, maxTier, e)
    requires forall i: nat :: i in eligible <==> Eligible(ps, q, maxTier, i)
    ensures IsCandidateList(ps, q, maxTier, Dedup(ps, SortByCost(ps, eligible), {}))
  {
    SortIsStableAndSorted(ps, eligible);
    var sorted := SortByCost(ps, eligible);
    DedupIsSorted(ps, sorted, {});
    DedupNames(ps, sorted, {});
    var r := Dedup(ps, sorted, {});
    forall i: nat | Eligible(ps, q, maxTier, i) ensures Represented(ps, r, i) {
      DedupRepresents(ps, sorted, {}, i);
    }
    assert Represented(ps, r, e);
    assert forall k :: 0 <= k < |r| ==> r[k] in r;
  }

  // The list that is sorted: exactly the eligible indices, in configuration order.
  lemma SelectOkSpec(ps: seq<Provider>, q: Query, maxTier: Option<Tier>)
    requires ModelAllowed(q)
    requires exists i: nat :: Eligible(ps, q, maxTier, i)
    ensures Select(ps, q, maxTier).Ok?
    ensures IsCandidateList(ps, q, maxTier, Select(ps, q, maxTier).value)
  {
    var e: nat :| Eligible(ps, q, maxTier, e);
    var serving := ServingModel(ps, q.model);
    assert e in serving;
    var tiered := InTier(ps, serving, maxTier);
    assert e in tiered;
    if q.policy.Some? {
      assert e in Filter(tiered, (i: nat) => i < |ps| && WithinPolicy(ps[i], Some(q.policy.value)));
    }
    var allowed := if q.policy.Some? then ApplyPolicy(ps, tiered, q.policy.value, q.model) else Ok(tiered);
    assert allowed.Ok?;
    SortedUnique(ps, q, maxTier, allowed.value, e);
  }

  /** The complete specification of `select_candidates`: it answers a list exactly when
      the policy admits the model, and then that list is the only one that lists the
      eligible providers cheapest-first with each name once. */
  lemma SelectCharacterisation(ps: seq<Provider>, q: Query, maxTier: Option<Tier>, s: seq<nat>)
    ensures Select(ps, q, maxTier) == Ok(s) <==> ModelAllowed(q) && IsCandidateList(ps, q, maxTier, s)
  {
    if Select(ps, q, maxTier) == Ok(s) {
      SelectedAreEligible(ps, q, maxTier, s);
      assert Eligible(ps, q, maxTier, s[0]);
      SelectOkSpec(ps, q, maxTier);
    }
    if ModelAllowed(q) && IsCandidateList(ps, q, maxTier, s) {
      assert Eligible(ps, q, maxTier, s[0]);
      SelectOkSpec(ps, q, maxTier);
      var t := Select(ps, q, maxTier).value;
      forall i ensures i in s <==> i in t {
        if i in s {
          var k :| 0 <= k < |s| && s[k] == i;
          SameMembers(ps, q, maxTier, s, t, k);
        }
        if i in t {
          var k :| 0 <= k < |t| && t[k] == i;
          SameMembers(ps, q, maxTier, t, s, k);
        }
      }
      SortedListsAgree(ps, s, t);
    }
  }

  lemma SelectedAreEligible(ps: seq<Provider>, q: Query, maxTier: Option<Tier>, s: seq<nat>)
    requires Select(ps, q, maxTier) == Ok(s)
    ensures ModelAllowed(q) && s != []
    ensures forall k :: 0 <= k < |s| ==> Eligible(ps, q, maxTier, s[k])
  {
    var serving := ServingModel(ps, q.model);
    var tiered := InTier(ps, serving, maxTier);
    var allowed := if q.policy.Some? then ApplyPolicy(ps, tiered, q.policy.value, q.model) else Ok(tiered);
    assert s == Dedup(ps, SortByCost(ps, allowed.value), {});
    forall k | 0 <= k < |s| ensures Eligible(ps, q, maxTier, s[k]) {
      assert s[k] in s;
      assert s[k] in allowed.value;
      assert s[k] in tiered;
    }
  }

  ghost predicate SomeServes(ps: seq<Provider>, q: Query) {
    exists i: nat :: i < |ps| && Serves(ps[i], q.model)
  }

  ghost predicate SomeInTier(ps: seq<Provider>, q: Query, maxTier: Option<Tier>) {
    exists i: nat :: i < |ps| && Serves(ps[i], q.model) && WithinTier(ps[i], maxTier)
  }

  ghost predicate SomeEligible(ps: seq<Provider>, q: Query, maxTier: Option<Tier>) {
    exists i: nat :: Eligible(ps, q, maxTier, i)
  }

  lemma ServingIsEmpty(ps: seq<Provider>, q: Query)
    ensures ServingModel(ps, q.model) != [] <==> SomeServes(ps, q)
  {
    var s := ServingModel(ps, q.model);
    if s != [] { assert s[0] in s; }
  }

  lemma InTierIsEmpty(ps: seq<Provider>, q: Query, maxTier: Option<Tier>)
    ensures InTier(ps, ServingModel(ps, q.model), maxTier) != [] <==> SomeInTier(ps, q, maxTier)
    ensures maxTier.None? ==> (SomeInTier(ps, q, maxTier) <==> SomeServes(ps, q))
  {
    var s := InTier(ps, ServingModel(ps, q.model), maxTier);
    if s != [] { assert s[0] in s; }
    if SomeInTier(ps, q, maxTier) {
      var i: nat :| i < |ps| && Serves(ps[i], q.model) && WithinTier(ps[i], maxTier);
      assert i in s;
    }
  }

  lemma SelectOkIff(ps: seq<Provider>, q: Query, maxTier: Option<Tier>)
    ensures Select(ps, q, maxTier).Ok? <==> ModelAllowed(q) && SomeEligible(ps, q, maxTier)
  {
    if ModelAllowed(q) && SomeEligible(ps, q, maxTier) {
      SelectOkSpec(ps, q, maxTier);
    }
    if Select(ps, q, maxTier).Ok? {
      var s := Select(ps, q, maxTier).value;
      SelectedAreEligible(ps, q, maxTier, s);
      assert Eligible(ps, q, maxTier, s[0]);
    }
  }

  /** Which error is answered, and when. `NoPolicyMatch` never comes from the check after
      the duplicate removal: it means that the policy's price ceiling left nobody. */
  lemma SelectErrors(ps: seq<Provider>, q: Query, maxTier: Option<Tier>)
    ensures var r := Select(ps, q, maxTier);
      && (r == Err(NoProviders) <==> !SomeServes(ps, q))
      && (r.Err? && r.error.NoTierMatch? <==> SomeServes(ps, q) && !SomeInTier(ps, q, maxTier))
      && (r == Err(BadRequest) <==> SomeInTier(ps, q, maxTier) && !ModelAllowed(q))
      && (r == Err(NoPolicyMatch) <==>
          SomeInTier(ps, q, maxTier) && ModelAllowed(q) && !SomeEligible(ps, q, maxTier))
  {
    ServingIsEmpty(ps, q);
    InTierIsEmpty(ps, q, maxTier);
    SelectOkIff(ps, q, maxTier);
    assert SomeEligible(ps, q, maxTier) ==> SomeInTier(ps, q, maxTier);
    assert SomeInTier(ps, q, maxTier) ==> SomeServes(ps, q);
  }

  // `NoTierMatch` is never answered at the top tier, so escalation always has somewhere to go.
  lemma NoTierMatchHasNextTier(ps: seq<Provider>, q: Query, t: Tier)
    requires Select(ps, q, Some(t)) == Err(NoTierMatch(t))
    ensures Escalate(t).Some?
  {
    SelectErrors(ps, q, Some(t));
    var i: nat :| i < |ps| && Serves(ps[i], q.model);
    assert !WithinTier(ps[i], Some(t));
  }

  /** Raising the tier keeps every name and never makes the first choice dearer. */
  lemma RaisingTheTier(ps: seq<Provider>, q: Query, low: Tier, high: Tier, s: seq<nat>, t: seq<nat>)
    requires TierRank(low) <= TierRank(high)
    requires Select(ps, q, Some(low)) == Ok(s) && Select(ps, q, Some(high)) == Ok(t)
    ensures forall a :: 0 <= a < |s| ==> Represented(ps, t, s[a])
    ensures s != [] && t != [] && RoutingCost(ps[t[0]]) <= RoutingCost(ps[s[0]])
  {
    SelectCharacterisation(ps, q, Some(low), s);
    SelectCharacterisation(ps, q, Some(high), t);
    forall a | 0 <= a < |s| ensures Represented(ps, t, s[a]) {
      assert Eligible(ps, q, Some(high), s[a]);
    }
    var b := Representative(ps, t, s[0]);
    HeadIsFirst(ps, t, t[b]);
  }

  // ----- in the terms of the configuration

  // Entry i may serve the request: its models, its tier and its price allow it.
  predicate Admitted(ps: seq<Provider>, q: Query, maxTier: Option<Tier>, i: nat) {
    && i < |ps|
    && (ps[i].models == [] || q.model in ps[i].models)
    && (maxTier.None? || maxTier == Some(Frontier) || ps[i].tier == Local || Some(ps[i].tier) == maxTier)
    && (q.policy.None? || q.policy.value.maxSatsPer1kOutput.None? ||
        ps[i].outputRate <= q.policy.value.maxSatsPer1kOutput.value)
  }

  // The sum of rate and fee does not fit its 64 bits.
  predicate Overflows(p: Provider) {
    p.outputRate + p.baseFee >= 0x1_0000_0000_0000_0000
  }

  // A smaller sum of rate and fee, or the same and earlier in the configuration.
  predicate Cheaper(ps: seq<Provider>, i: nat, j: nat)
    requires i < |ps| && j < |ps|
  {
    var a, b := ps[i].outputRate + ps[i].baseFee, ps[j].outputRate + ps[j].baseFee;
    a < b || (a == b && i < j)
  }

  lemma BeforeMeans(ps: seq<Provider>, i: nat, j: nat)
    requires i < |ps| && j < |ps|
    ensures Overflows(ps[i]) == Overflows(ps[j]) ==> (Before(ps, i, j) <==> Cheaper(ps, i, j))
    ensures !Overflows(ps[i]) && Overflows(ps[j]) ==> Cheaper(ps, i, j)
    ensures Overflows(ps[i]) && !Overflows(ps[j]) ==> !Cheaper(ps, i, j)
  {
    var a, b := ps[i].outputRate + ps[i].baseFee, ps[j].outputRate + ps[j].baseFee;
    assert a % TWO_TO_THE_64 == if Overflows(ps[i]) then a - TWO_TO_THE_64 else a;
    assert b % TWO_TO_THE_64 == if Overflows(ps[j]) then b - TWO_TO_THE_64 else b;
  }

  ghost predicate NoSumOverflows(ps: seq<Provider>, q: Query, maxTier: Option<Tier>) {
    forall i: nat :: Admitted(ps, q, maxTier, i) ==> !Overflows(ps[i])
  }

  // The list has entry i, or a cheaper one of its name.
  ghost predicate Offers(ps: seq<Provider>, s: seq<nat>, i: nat)
    requires InRange(ps, s) && i < |ps|
  {
    exists k :: 0 <= k < |s| && ps[s[k]].name == ps[i].name && (s[k] == i || Cheaper(ps, s[k], i))
  }

  // Admitted entries only, each name once, cheapest first; and every admitted entry or a cheaper one.
  ghost predicate IsCheapestFirst(ps: seq<Provider>, q: Query, maxTier: Option<Tier>, s: seq<nat>) {
    && s != [] && InRange(ps, s)
    && (forall k :: 0 <= k < |s| ==> Admitted(ps, q, maxTier, s[k]))
    && (forall k, l :: 0 <= k < l < |s| ==> Cheaper(ps, s[k], s[l]) && ps[s[k]].name != ps[s[l]].name)
    && (forall i: nat :: Admitted(ps, q, maxTier, i) ==>
         (i == s[0] || Cheaper(ps, s[0], i)) && Offers(ps, s, i))
  }

  /** What the configuration promises, where no sum overflows: a list is answered exactly when the policy
      allows the model and somebody is admitted, and it is cheapest first by output rate plus fee. */
  lemma CheapestFirst(ps: seq<Provider>, q: Query, maxTier: Option<Tier>)
    requires NoSumOverflows(ps, q, maxTier)
    ensures Select(ps, q, maxTier).Ok? <==>
      && (q.policy.None? || q.policy.value.allowedModels == [] || q.model in q.policy.value.allowedModels)
      && exists i: nat :: Admitted(ps, q, maxTier, i)
    ensures Select(ps, q, maxTier).Ok? ==> IsCheapestFirst(ps, q, maxTier, Select(ps, q, maxTier).value)
  {
    AdmittedIsEligible(ps, q, maxTier);
    SelectOkIff(ps, q, maxTier);
    if Select(ps, q, maxTier).Ok? {
      SelectCharacterisation(ps, q, maxTier, Select(ps, q, maxTier).value);
      ListIsCheapestFirst(ps, q, maxTier, Select(ps, q, maxTier).value);
    }
  }

  lemma AdmittedIsEligible(ps: seq<Provider>, q: Query, maxTier: Option<Tier>)
    ensures forall i: nat :: Admitted(ps, q, maxTier, i) <==> Eligible(ps, q, maxTier, i)
  {
  }

  lemma ListIsCheapestFirst(ps: seq<Provider>, q: Query, maxTier: Option<Tier>, s: seq<nat>)
    requires NoSumOverflows(ps, q, maxTier) && IsCandidateList(ps, q, maxTier, s)
    ensures IsCheapestFirst(ps, q, maxTier, s)
  {
    AdmittedIsEligible(ps, q, maxTier);
    assert forall k :: 0 <= k < |s| ==> Admitted(ps, q, maxTier, s[k]);
    forall k, l | 0 <= k < l < |s| ensures Cheaper(ps, s[k], s[l]) {
      BeforeMeans(ps, s[k], s[l]);
    }
    forall i: nat | Admitted(ps, q, maxTier, i) ensures (i == s[0] || Cheaper(ps, s[0], i)) && Offers(ps, s, i) {
      var k := Representative(ps, s, i);
      BeforeMeans(ps, s[k], i);
      HeadIsFirst(ps, s, s[k]);
      BeforeMeans(ps, s[0], i);
    }
  }

  /** Where sums overflow they wrap around, and the order can be wrong: it is that of the sums if and only if
      no entry that overflows comes before one that does not. */
  lemma InOrderOfCostIff(ps: seq<Provider>, q: Query, maxTier: Option<Tier>, s: seq<nat>)
    requires Select(ps, q, maxTier) == Ok(s)
    ensures InRange(ps, s)
    ensures (forall k, l :: 0 <= k < l < |s| ==> Cheaper(ps, s[k], s[l])) <==>
      (forall k, l :: 0 <= k < l < |s| ==> (Overflows(ps[s[k]]) ==> Overflows(ps[s[l]])))
  {
    SelectCharacterisation(ps, q, maxTier, s);
    forall k, l | 0 <= k < l < |s|
      ensures Cheaper(ps, s[k], s[l]) <==> (Overflows(ps[s[k]]) ==> Overflows(ps[s[l]]))
    {
      BeforeMeans(ps, s[k], s[l]);
    }
  }

  /** It does go wrong: the dearest provider there can be comes first when its fee makes the sum overflow. */
  lemma DearestFirst(q: Query, dear: Provider, cheap: Provider)
    requires q.policy.None? && dear.models == [] && cheap.models == [] && dear.name != cheap.name
    requires dear.outputRate == TWO_TO_THE_64 - 1 && dear.baseFee == 1 && cheap.outputRate == 1 && cheap.baseFee == 0
    ensures Select([cheap, dear], q, None) == Ok([1, 0])
  {
    var ps := [cheap, dear];
    assert Before(ps, 1, 0) && IsCandidateList(ps, q, None, [1, 0]) by {
      assert Represented(ps, [1, 0], 0) by { assert [1, 0][1] == 0; }
      assert Represented(ps, [1, 0], 1) by { assert [1, 0][0] == 1; }
    }
    SelectCharacterisation(ps, q, None, [1, 0]);
  }

  // ----- the methods

  // The filter that removes duplicates: `seen.insert` is true for a name not met before.
  method DedupByName(ps: seq<Provider>, s: seq<nat>) returns (unique: seq<nat>)
    requires InRange(ps, s)
    ensures unique == Dedup(ps, s, {})
  {
    unique := [];
    var seen: set<string> := {};
    for k := 0 to |s|
      invariant unique + Dedup(ps, s[k..], seen) == Dedup(ps, s, {})
    {
      assert s[k..][1..] == s[k + 1..];
      if ps[s[k]].name !in seen {
        seen := seen + {ps[s[k]].name};
        unique := unique + [s[k]];
      }
    }
  }

  method SelectCandidates(ps: seq<Provider>, q: Query, maxTier: Option<Tier>) returns (r: Result<seq<nat>, RouteError>)
    ensures r == Select(ps, q, maxTier)
    ensures r.Ok? ==> IsCandidateList(ps, q, maxTier, r.value)
  {
    var candidates := ServingModel(ps, q.model);
    if candidates == [] {
      return Err(NoProviders);
    }
    ghost var tiered := InTier(ps, candidates, maxTier);
    if maxTier.Some? {
      candidates := InTier(ps, candidates, maxTier);
      if candidates == [] {
        return Err(NoTierMatch(maxTier.value));
      }
    } else {
      FilterAll(candidates, (i: nat) => i < |ps| && WithinTier(ps[i], maxTier));
    }
    assert candidates == tiered;
    if q.policy.Some? {
      var constrained := ApplyPolicy(ps, candidates, q.policy.value, q.model);
      if constrained.Err? {
        return Err(constrained.error);
      }
      candidates := constrained.value;
    }
    candidates := SortByCost(ps, candidates);
    var unique := DedupByName(ps, candidates);
    if unique == [] {
      return Err(NoPolicyMatch);
    }
    r := Ok(unique);
    SelectCharacterisation(ps, q, maxTier, unique);
  }

  lemma {:induction false} FilterAll(s: seq<nat>, keep: nat -> bool)
    requires forall i :: i in s ==> keep(i)
    ensures Filter(s, keep) == s
  {
    if s != [] {
      assert forall i :: i in s[1..] ==> i in s;
      FilterAll(s[1..], keep);
      assert s[0] in s;
    }
  }

  /** `select` removes element 0 of the list, which is always there: the cheapest eligible provider. */
  method SelectOne(ps: seq<Provider>, q: Query, maxTier: Option<Tier>) returns (r: Result<nat, RouteError>)
    ensures r.Ok? <==> Select(ps, q, maxTier).Ok?
    ensures r.Err? ==> r.error == Select(ps, q, maxTier).error
    ensures r.Ok? ==> Eligible(ps, q, maxTier, r.value)
    ensures r.Ok? ==> forall i: nat :: Eligible(ps, q, maxTier, i) ==> i == r.value || Before(ps, r.value, i)
    ensures r.Ok? && NoSumOverflows(ps, q, maxTier) ==>
      forall i: nat :: Admitted(ps, q, maxTier, i) ==> i == r.value || Cheaper(ps, r.value, i)
  {
    var list := SelectCandidates(ps, q, maxTier);
    if list.Err? {
      return Err(list.error);
    }
    r := Ok(list.value[0]);
    forall i: nat | Eligible(ps, q, maxTier, i) ensures i == r.value || Before(ps, r.value, i) {
      var k := Representative(ps, list.value, i);
      HeadIsFirst(ps, list.value, list.value[k]);
    }
    if NoSumOverflows(ps, q, maxTier) {
      CheapestFirst(ps, q, maxTier);
    }
  }
}
