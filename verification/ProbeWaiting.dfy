/** Requests that wait for each other's probes: when no circle of them can form, and where a chain of
    waits ends. */
module ProbeWaiting {
  import opened Common
  import opened CircuitBreaker
  import opened Registry
  import opened Selector
  import opened ProbeProtocol
  import opened ProbeTheorems
  import Handlers
  import ProbeWalks

  // ----- orders of names

  predicate Increasing(ps: seq<Provider>, list: seq<nat>, rank: string -> int) {
    && InRange(ps, list)
    && forall a, b :: 0 <= a < b < |list| ==> rank(ps[list[a]].name) < rank(ps[list[b]].name)
  }

  // Every list the router can answer with names its candidates in the order of `rank`.
  ghost predicate ListsAgree(ps: seq<Provider>, rank: string -> int) {
    forall q: Query, t: Tier :: Select(ps, q, Some(t)).Ok? ==> Increasing(ps, Select(ps, q, Some(t)).value, rank)
  }

  // "Unique name for this provider" (src/config.rs); the configuration loader does not check it.
  ghost predicate UniqueNames(ps: seq<Provider>) {
    forall i, j :: 0 <= i < |ps| && 0 <= j < |ps| && ps[i].name == ps[j].name ==> i == j
  }

  ghost function Earlier(ps: seq<Provider>, i: nat): set<nat>
    requires i < |ps|
  {
    set j: nat | j < |ps| && Before(ps, j, i)
  }

  ghost predicate Named(ps: seq<Provider>, n: string, i: nat) {
    i < |ps| && ps[i].name == n
  }

  // The place of a name in the routing order.
  ghost function RankOf(ps: seq<Provider>, n: string): int {
    if exists i: nat :: Named(ps, n, i) then
      var i: nat :| Named(ps, n, i);
      |Earlier(ps, i)|
    else 0
  }

  ghost function RoutingRank(ps: seq<Provider>): string -> int {
    (n: string) => RankOf(ps, n)
  }

  lemma SmallerSet(a: set<nat>, b: set<nat>)
    requires a < b
    ensures |a| < |b|
  {
    var x :| x in b && x !in a;
    assert a <= b - {x};
    SubsetCardinality(a, b - {x});
  }

  lemma BeforeIsEarlier(ps: seq<Provider>, i: nat, j: nat)
    requires UniqueNames(ps) && i < |ps| && j < |ps| && Before(ps, i, j)
    ensures RankOf(ps, ps[i].name) < RankOf(ps, ps[j].name)
  {
    assert Named(ps, ps[i].name, i) && Named(ps, ps[j].name, j);
    assert i in Earlier(ps, j) && i !in Earlier(ps, i);
    SmallerSet(Earlier(ps, i), Earlier(ps, j));
  }

  /** With unique names all lists agree on one order, the routing order. */
  lemma UniqueNamesAgree(ps: seq<Provider>)
    requires UniqueNames(ps)
    ensures ListsAgree(ps, RoutingRank(ps))
  {
    forall q: Query, t: Tier | Select(ps, q, Some(t)).Ok?
      ensures Increasing(ps, Select(ps, q, Some(t)).value, RoutingRank(ps))
    {
      var list := Select(ps, q, Some(t)).value;
      SelectCharacterisation(ps, q, Some(t), list);
      SortedIsIncreasing(ps, list);
    }
  }

  lemma SortedIsIncreasing(ps: seq<Provider>, list: seq<nat>)
    requires UniqueNames(ps) && InRange(ps, list) && StrictlySorted(ps, list)
    ensures Increasing(ps, list, RoutingRank(ps))
  {
    forall a, b | 0 <= a < b < |list| ensures RoutingRank(ps)(ps[list[a]].name) < RoutingRank(ps)(ps[list[b]].name) {
      BeforeIsEarlier(ps, list[a], list[b]);
    }
  }

  // ----- no circular wait

  // r is parked on a probe that h has not resolved.
  ghost predicate WaitsFor(ps: seq<Provider>, s: System, r: nat, h: nat) {
    Blocked(ps, s, r) && (h, CandidateName(ps, s.requests[r])) in s.permits
  }

  ghost predicate InOrder(ps: seq<Provider>, s: System, rank: string -> int) {
    forall r :: Blocked(ps, s, r) ==> Increasing(ps, s.requests[r].list, rank)
  }

  lemma RunInOrder(ps: seq<Provider>, states: seq<System>, steps: seq<Step>, k: nat, rank: string -> int)
    requires ListsAgree(ps, rank) && IsRun(ps, states, steps) && k < |states|
    ensures InOrder(ps, states[k], rank)
  {
    forall r | Blocked(ps, states[k], r) ensures Increasing(ps, states[k].requests[r].list, rank) {
      ProbeWalks.RunKeepsWalk(ps, states, steps, k, r);
      var q := states[k].requests[r];
      assert Select(ps, q.query, Some(q.tier)) == Ok(q.list);
    }
  }

  function Wanted(ps: seq<Provider>, s: System, r: nat): string {
    CandidateNameOf(ps, s, r)
  }

  /** A blocked holder waits for a name of strictly greater rank than any probe it holds. */
  lemma HolderWaitsFurtherOn(ps: seq<Provider>, s: System, r: nat, h: nat, rank: string -> int)
    requires Inv(ps, s) && InOrder(ps, s, rank) && WaitsFor(ps, s, r, h) && Blocked(ps, s, h)
    ensures rank(Wanted(ps, s, r)) < rank(Wanted(ps, s, h))
  {
    var q := s.requests[h];
    assert RequestOk(ps, s, h, q);
    var p := CandidateName(ps, s.requests[r]);
    assert Visited(ps, q, p);
    var k :| 0 <= k < q.pos && ps[q.list[k]].name == p;
  }

  ghost predicate IsWaitChain(ps: seq<Provider>, s: System, path: seq<nat>) {
    path != [] && forall i :: 0 <= i < |path| - 1 ==> WaitsFor(ps, s, path[i], path[i + 1])
  }

  lemma {:induction false} ChainIncreases(ps: seq<Provider>, s: System, path: seq<nat>, rank: string -> int)
    requires Inv(ps, s) && InOrder(ps, s, rank) && IsWaitChain(ps, s, path) && |path| > 1
    requires Blocked(ps, s, path[|path| - 1])
    ensures rank(Wanted(ps, s, path[0])) < rank(Wanted(ps, s, path[|path| - 1]))
  {
    var n := |path| - 1;
    assert WaitsFor(ps, s, path[n - 1], path[n]);
    HolderWaitsFurtherOn(ps, s, path[n - 1], path[n], rank);
    if n > 1 {
      var front := path[..n];
      forall i | 0 <= i < |front| - 1 ensures WaitsFor(ps, s, front[i], front[i + 1]) {
        assert WaitsFor(ps, s, path[i], path[i + 1]);
      }
      ChainIncreases(ps, s, front, rank);
    }
  }

  /** No circular wait: if the lists agree on an order of the names, as they do when names are unique,
      then in no reachable state does a chain of waiting requests come back to where it started. */
  lemma NoCircularWait(ps: seq<Provider>, states: seq<System>, steps: seq<Step>, k: nat, path: seq<nat>,
                       rank: string -> int)
    requires ListsAgree(ps, rank) && IsRun(ps, states, steps) && k < |states|
    requires IsWaitChain(ps, states[k], path) && |path| > 1
    ensures path[0] != path[|path| - 1]
  {
    RunKeepsInv(ps, states, steps, k);
    RunInOrder(ps, states, steps, k, rank);
    assert WaitsFor(ps, states[k], path[0], path[1]);
    if path[0] == path[|path| - 1] {
      ChainIncreases(ps, states[k], path, rank);
      assert false;
    }
  }

  // ----- where the waiting ends

  // r can take a step of its own, other than leaving.
  ghost predicate Moves(ps: seq<Provider>, s: System, r: nat) {
    || Enabled(ps, s, Acquire(r)) || Enabled(ps, s, Wake(r)) || Enabled(ps, s, Finish(r))
    || Enabled(ps, s, CreateGuard(r))
    || exists log :: Enabled(ps, s, Report(r, log, false))
  }

  /** A request can move exactly when it is there and not parked. */
  lemma MovesIff(ps: seq<Provider>, s: System, r: nat)
    requires Inv(ps, s)
    ensures Moves(ps, s, r) <==> r in s.requests && !s.requests[r].stage.Gone? && !Blocked(ps, s, r)
  {
    if r in s.requests {
      var q := s.requests[r];
      assert RequestOk(ps, s, r, q);
      if q.stage.Guarding? {
        var names := NamesOf(ps, q.filtered);
        var log := Handlers.StreamingEvents(names[0], q.probe, Handlers.Disconnected, s.now, s.now);
        assert Handlers.IsReport(names, q.probe, s.now, log);
        assert Enabled(ps, s, Report(r, log, false));
      }
    }
  }

  // r is parked on a half-open breaker whose probe h can resolve.
  ghost predicate Awaits(ps: seq<Provider>, s: System, r: nat, h: nat) {
    && Blocked(ps, s, r) && s.cells[Wanted(ps, s, r)].breaker.state == HalfOpen
    && Able(s, h, Wanted(ps, s, r))
  }

  ghost predicate IsAwaitChain(ps: seq<Provider>, s: System, path: seq<nat>) {
    path != [] && forall i :: 0 <= i < |path| - 1 ==> Awaits(ps, s, path[i], path[i + 1])
  }

  // The breaker was opened over the heads of those who wait for its probe: there will be a new one.
  predicate Reopened(s: System, p: string) {
    p in s.cells && s.cells[p].breaker.state == Open
  }

  // A chain of waits from r ends at a holder that can take a step of its own, or at such a breaker ...
  ghost predicate LeadsOn(ps: seq<Provider>, s: System, r: nat, path: seq<nat>) {
    && IsAwaitChain(ps, s, path) && path[0] == r
    && var last := path[|path| - 1];
       (|path| > 1 && Moves(ps, s, last)) || (Blocked(ps, s, last) && Reopened(s, Wanted(ps, s, last)))
  }

  // ... or at a request parked on a probe that nobody will resolve.
  ghost predicate LeadsToDoom(ps: seq<Provider>, s: System, r: nat, path: seq<nat>) {
    && IsAwaitChain(ps, s, path) && path[0] == r
    && Blocked(ps, s, path[|path| - 1]) && Doomed(s, Wanted(ps, s, path[|path| - 1]))
  }

  // The names that rank after a name: what decreases along a chain.
  ghost function Later(ps: seq<Provider>, rank: string -> int, n: string): set<nat> {
    set j: nat | j < |ps| && rank(ps[j].name) > rank(n)
  }

  lemma LaterShrinks(ps: seq<Provider>, s: System, rank: string -> int, r: nat, h: nat)
    requires Blocked(ps, s, h) && rank(Wanted(ps, s, r)) < rank(Wanted(ps, s, h))
    ensures |Later(ps, rank, Wanted(ps, s, h))| < |Later(ps, rank, Wanted(ps, s, r))|
  {
    var a, b := Later(ps, rank, Wanted(ps, s, r)), Later(ps, rank, Wanted(ps, s, h));
    var j := s.requests[h].list[s.requests[h].pos];
    assert j in a && j !in b;
    SmallerSet(b, a);
  }

  // The breaker that is waited for is half-open or open.
  lemma WantedIsTaken(ps: seq<Provider>, s: System, r: nat)
    requires Inv(ps, s) && Blocked(ps, s, r)
    ensures Wanted(ps, s, r) in s.cells && s.cells[Wanted(ps, s, r)].breaker.state != Closed
  {
    assert RequestOk(ps, s, r, s.requests[r]) && CellOk(s, Wanted(ps, s, r));
  }

  lemma AwaitsWaitsFor(ps: seq<Provider>, s: System, r: nat, h: nat)
    requires Awaits(ps, s, r, h)
    ensures WaitsFor(ps, s, r, h)
  {
  }

  lemma {:induction false} ChainEndsFrom(ps: seq<Provider>, s: System, r: nat, rank: string -> int)
    returns (path: seq<nat>)
    requires Inv(ps, s) && InOrder(ps, s, rank) && Blocked(ps, s, r)
    ensures LeadsOn(ps, s, r, path) || LeadsToDoom(ps, s, r, path)
    decreases |Later(ps, rank, Wanted(ps, s, r))|
  {
    var p := Wanted(ps, s, r);
    WantedIsTaken(ps, s, r);
    path := [r];
    if s.cells[p].breaker.state == HalfOpen && !Doomed(s, p) {
      var h: nat :| Able(s, h, p);
      assert Awaits(ps, s, r, h);
      if Blocked(ps, s, h) {
        AwaitsWaitsFor(ps, s, r, h);
        HolderWaitsFurtherOn(ps, s, r, h, rank);
        LaterShrinks(ps, s, rank, r, h);
        var rest := ChainEndsFrom(ps, s, h, rank);
        path := [r] + rest;
        Prepend(ps, s, r, rest);
      } else {
        path := [r, h];
        MovesIff(ps, s, h);
      }
    }
  }

  lemma Prepend(ps: seq<Provider>, s: System, r: nat, rest: seq<nat>)
    requires IsAwaitChain(ps, s, rest) && Awaits(ps, s, r, rest[0])
    ensures IsAwaitChain(ps, s, [r] + rest)
  {
    var path := [r] + rest;
    forall i | 0 <= i < |path| - 1 ensures Awaits(ps, s, path[i], path[i + 1]) {
      if i > 0 { assert Awaits(ps, s, rest[i - 1], rest[i]); }
    }
  }

  /** Where waiting ends: in every reachable state a chain of waits, each for somebody who can resolve the
      probe, leads from every parked request to one that can take a step of its own, to a breaker that was
      opened again, or to a probe that nobody will resolve. */
  lemma EveryWaitEnds(ps: seq<Provider>, states: seq<System>, steps: seq<Step>, k: nat, r: nat, rank: string -> int)
    requires ListsAgree(ps, rank) && IsRun(ps, states, steps) && k < |states| && Blocked(ps, states[k], r)
    ensures exists path :: LeadsOn(ps, states[k], r, path) || LeadsToDoom(ps, states[k], r, path)
  {
    RunKeepsInv(ps, states, steps, k);
    RunInOrder(ps, states, steps, k, rank);
    var path := ChainEndsFrom(ps, states[k], r, rank);
  }

  ghost predicate CanEnd(ps: seq<Provider>, s: System, r: nat) {
    exists path :: LeadsOn(ps, s, r, path)
  }

  ghost predicate NobodyStuck(ps: seq<Provider>, s: System) {
    forall r :: Blocked(ps, s, r) ==> CanEnd(ps, s, r)
  }

  ghost predicate NoneDoomed(ps: seq<Provider>, s: System) {
    forall r :: Blocked(ps, s, r) ==> !Doomed(s, Wanted(ps, s, r))
  }

  /** Which of them it is: every wait leads on if and only if no probe that is waited for is doomed. */
  lemma NobodyStuckIff(ps: seq<Provider>, states: seq<System>, steps: seq<Step>, k: nat, rank: string -> int)
    requires ListsAgree(ps, rank) && IsRun(ps, states, steps) && k < |states|
    ensures NobodyStuck(ps, states[k]) <==> NoneDoomed(ps, states[k])
  {
    var s := states[k];
    RunKeepsInv(ps, states, steps, k);
    if NoneDoomed(ps, s) {
      forall r | Blocked(ps, s, r) ensures CanEnd(ps, s, r) {
        EveryWaitEnds(ps, states, steps, k, r, rank);
      }
    }
    if NobodyStuck(ps, s) {
      forall r | Blocked(ps, s, r) ensures !Doomed(s, Wanted(ps, s, r)) {
        assert CanEnd(ps, s, r);
        var path :| LeadsOn(ps, s, r, path);
        assert |path| > 1 ==> Awaits(ps, s, path[0], path[1]);
      }
    }
  }

  // Of every probe there is at most one holder that can resolve it.
  ghost predicate OneAble(s: System) {
    forall p, g, h :: Able(s, g, p) && Able(s, h, p) ==> g == h
  }

  // Two chains from one request follow the same holders.
  lemma {:induction false} ChainsAgree(ps: seq<Provider>, s: System, path: seq<nat>, path': seq<nat>, i: nat)
    requires OneAble(s) && IsAwaitChain(ps, s, path) && IsAwaitChain(ps, s, path')
    requires path[0] == path'[0] && i < |path| && i < |path'|
    ensures path[i] == path'[i]
  {
    if i > 0 {
      ChainsAgree(ps, s, path, path', i - 1);
      assert Awaits(ps, s, path[i - 1], path[i]) && Awaits(ps, s, path'[i - 1], path'[i]);
    }
  }

  // On a chain that leads on, nobody is parked on a doomed probe.
  lemma NotDoomedOnTheWay(ps: seq<Provider>, s: System, r: nat, path: seq<nat>, i: nat)
    requires Inv(ps, s) && LeadsOn(ps, s, r, path) && i < |path| && Blocked(ps, s, path[i])
    ensures !Doomed(s, Wanted(ps, s, path[i]))
  {
    if i < |path| - 1 {
      assert Awaits(ps, s, path[i], path[i + 1]);
    } else {
      MovesIff(ps, s, path[i]);
    }
  }

  lemma NotBoth(ps: seq<Provider>, s: System, r: nat, a: seq<nat>, b: seq<nat>)
    requires Inv(ps, s) && OneAble(s) && LeadsOn(ps, s, r, a)
    requires IsAwaitChain(ps, s, b) && b[0] == r && Blocked(ps, s, b[|b| - 1])
    ensures !Doomed(s, Wanted(ps, s, b[|b| - 1]))
  {
    var m, n := |a| - 1, |b| - 1;
    MovesIff(ps, s, a[m]);
    assert m < n ==> Awaits(ps, s, b[m], b[m + 1]);
    ChainsAgree(ps, s, a, b, if m < n then m else n);
    if n <= m { NotDoomedOnTheWay(ps, s, r, a, n); }
  }

  /** And request by request, while no probe has two holders that can resolve it: a wait leads on if and
      only if it does not lead to a doomed probe. */
  lemma CanEndIff(ps: seq<Provider>, states: seq<System>, steps: seq<Step>, k: nat, r: nat, rank: string -> int)
    requires ListsAgree(ps, rank) && IsRun(ps, states, steps) && k < |states| && Blocked(ps, states[k], r)
    requires OneAble(states[k])
    ensures CanEnd(ps, states[k], r) <==> !exists path :: LeadsToDoom(ps, states[k], r, path)
  {
    var s := states[k];
    RunKeepsInv(ps, states, steps, k);
    EveryWaitEnds(ps, states, steps, k, r, rank);
    if CanEnd(ps, s, r) {
      var a :| LeadsOn(ps, s, r, a);
      forall b ensures !LeadsToDoom(ps, s, r, b) {
        if IsAwaitChain(ps, s, b) && b[0] == r && Blocked(ps, s, b[|b| - 1]) {
          NotBoth(ps, s, r, a, b);
        }
      }
    }
  }

  lemma OneHolder(s: System, p: string, h: nat, g: nat)
    requires |Holders(s, p)| <= 1 && (h, p) in s.permits && (g, p) in s.permits
    ensures h == g
  {
    var both := {(h, p), (g, p)};
    SubsetCardinality(both, Holders(s, p));
    assert both - {(h, p)} == if h == g then {} else {(g, p)};
  }

  // A single permit has a single able holder.
  lemma SingleMeansOneAble(ps: seq<Provider>, s: System)
    requires Inv(ps, s) && forall p :: SingleAt(s, p)
    ensures OneAble(s)
  {
    forall p, g, h | Able(s, g, p) && Able(s, h, p) ensures g == h {
      assert (g, p).1 in s.cells && SingleAt(s, p);
      OneHolder(s, p, g, h);
    }
  }

  /** No deadlock, then, in a run in which no step dooms a probe: every wait leads on. */
  lemma NoDeadlock(ps: seq<Provider>, states: seq<System>, steps: seq<Step>, k: nat, rank: string -> int)
    requires ListsAgree(ps, rank) && IsRun(ps, states, steps) && k < |states|
    requires forall j, p :: 0 <= j < |steps| ==> !DoomsPermit(ps, states[j], steps[j], p)
    ensures NobodyStuck(ps, states[k])
  {
    var s := states[k];
    RunKeepsInv(ps, states, steps, k);
    CellsFromStart(ps, states, steps, k);
    forall r | Blocked(ps, s, r) ensures !Doomed(s, Wanted(ps, s, r)) {
      WantedIsTaken(ps, s, r);
      DoomedIff(ps, states, steps, Wanted(ps, s, r), k);
      NothingDoomed(ps, states, steps, Wanted(ps, s, r), k);
    }
    NobodyStuckIff(ps, states, steps, k, rank);
  }

  lemma NothingDoomed(ps: seq<Provider>, states: seq<System>, steps: seq<Step>, p: string, k: nat)
    requires k <= |steps| <= |states|
    requires forall j :: 0 <= j < |steps| ==> !DoomsPermit(ps, states[j], steps[j], p)
    ensures !WasDoomed(ps, states, steps, p, k)
  {
  }

  lemma {:induction false} CellsFromStart(ps: seq<Provider>, states: seq<System>, steps: seq<Step>, k: nat)
    requires IsRun(ps, states, steps) && k < |states|
    ensures states[k].cells.Keys == states[0].cells.Keys
  {
    if k > 0 {
      CellsFromStart(ps, states, steps, k - 1);
      RunKeepsInv(ps, states, steps, k - 1);
      assert StepAt(ps, states, steps, k - 1);
      NoNewCells(ps, states[k - 1], steps[k - 1]);
    }
  }
}
