/** The books are kept by the program: a request's own vault call, a reconciliation pass and both request
    paths are sequences of the steps of Billing, so what is proved of its runs holds of them. */
module Ledger {
  import opened Common
  import opened Billing
  import opened Vault
  import CircuitBreaker
  import Handlers
  import Registry
  import Retry

  // ----- sequences of steps

  ghost predicate Leads(c: MetaCodec, b: Books, steps: seq<Step>, b': Books)
    decreases |steps|
  {
    if steps == [] then b' == b
    else Enabled(c, b, steps[0]) && Leads(c, Next(c, b, steps[0]), steps[1..], b')
  }

  lemma {:induction false} LeadsConcat(c: MetaCodec, b: Books, s: seq<Step>, m: Books, t: seq<Step>, b': Books)
    requires Leads(c, b, s, m) && Leads(c, m, t, b')
    ensures Leads(c, b, s + t, b')
    decreases |s|
  {
    if s == [] {
      assert s + t == t;
    } else {
      LeadsConcat(c, Next(c, b, s[0]), s[1..], m, t, b');
      assert (s + t)[1..] == s[1..] + t;
    }
  }

  lemma LeadsOne(c: MetaCodec, b: Books, step: Step)
    requires Enabled(c, b, step)
    ensures Leads(c, b, [step], Next(c, b, step))
  {
    assert [step][1..] == [];
  }

  // One step, and then the rest.
  lemma LeadsFirst(c: MetaCodec, b: Books, step: Step, rest: seq<Step>, b': Books)
    requires Enabled(c, b, step) && Leads(c, Next(c, b, step), rest, b')
    ensures Leads(c, b, [step] + rest, b')
    ensures !step.Decide? ==> Decided([step] + rest) == Decided(rest)
  {
    assert ([step] + rest)[1..] == rest;
  }

  lemma {:induction false} LeadsKeepsInv(c: MetaCodec, b: Books, steps: seq<Step>, b': Books)
    requires Faithful(c) && Inv(c, b) && Leads(c, b, steps, b')
    ensures Inv(c, b')
    decreases |steps|
  {
    if steps != [] {
      StepKeepsInv(c, b, steps[0]);
      LeadsKeepsInv(c, Next(c, b, steps[0]), steps[1..], b');
    }
  }

  /** Steps taken after a run prolong it. */
  lemma {:induction false} LeadsProlongsRun(c: MetaCodec, states: seq<Books>, steps: seq<Step>, more: seq<Step>,
                                            b': Books)
    requires IsRun(c, states, steps) && Leads(c, states[|steps|], more, b')
    ensures exists states' :: IsRun(c, states', steps + more) && states'[|steps + more|] == b'
    decreases |more|
  {
    if more == [] {
      assert steps + more == steps;
      assert IsRun(c, states, steps + more) && states[|steps + more|] == b';
    } else {
      var next := Next(c, states[|steps|], more[0]);
      var states', steps' := states + [next], steps + [more[0]];
      assert IsRun(c, states', steps') by {
        forall k | 0 <= k < |steps'|
          ensures Enabled(c, states'[k], steps'[k]) && states'[k + 1] == Billing.Next(c, states'[k], steps'[k])
        {
          if k < |steps| { assert states'[k] == states[k] && states'[k + 1] == states[k + 1] && steps'[k] == steps[k]; }
        }
      }
      LeadsProlongsRun(c, states', steps', more[1..], b');
      assert steps' + more[1..] == steps + more;
    }
  }

  // The orders decided on, in order.
  function Decided(steps: seq<Step>): seq<Order> {
    if steps == [] then []
    else (if steps[0].Decide? then [steps[0].order] else []) + Decided(steps[1..])
  }

  lemma {:induction false} DecidedConcat(s: seq<Step>, t: seq<Step>)
    ensures Decided(s + t) == Decided(s) + Decided(t)
  {
    if s == [] {
      assert s + t == t;
    } else {
      DecidedConcat(s[1..], t);
      assert (s + t)[0] == s[0] && (s + t)[1..] == s[1..] + t;
      var first := if s[0].Decide? then [s[0].order] else [];
      assert first + (Decided(s[1..]) + Decided(t)) == (first + Decided(s[1..])) + Decided(t);
    }
  }

  lemma {:induction false} NothingDecided(steps: seq<Step>)
    requires forall k :: 0 <= k < |steps| ==> !steps[k].Decide?
    ensures Decided(steps) == []
  {
    if steps != [] { NothingDecided(steps[1..]); }
  }

  // ----- a direct call

  lemma {:induction false} Posting(c: MetaCodec, b: Books, id: string, n: nat) returns (steps: seq<Step>)
    requires CallingAt(b, id, 0) && id in b.orders && b.phases[id].made + n <= MAX_RETRIES
    ensures var b' :=
      b.(phases := b.phases[id := Calling(b.phases[id].made + n)], posts := b.posts + Copies(b.orders[id], n));
      Leads(c, b, steps, b')
    ensures Decided(steps) == []
    decreases n
  {
    steps := [];
    if n == 0 {
      assert b.phases[id := b.phases[id]] == b.phases && b.posts + Copies(b.orders[id], 0) == b.posts;
    } else {
      var b1 := Next(c, b, DirectPost(id));
      var rest := Posting(c, b1, id, n - 1);
      assert b1.posts + Copies(b.orders[id], n - 1) == b.posts + Copies(b.orders[id], n);
      assert b1.phases[id := Calling(b.phases[id].made + n)] == b.phases[id := Calling(b.phases[id].made + n)];
      LeadsFirst(c, b, DirectPost(id), rest, b.(phases := b.phases[id := Calling(b.phases[id].made + n)],
                                                posts := b.posts + Copies(b.orders[id], n)));
      steps := [DirectPost(id)] + rest;
    }
  }

  // What a direct call that ended well, or not, makes of the books.
  function AfterCall(c: MetaCodec, b: Books, o: Order, n: nat, ok: bool, written: bool): Books {
    var posted :=
      b.(phases := b.phases[o.id := Calling(n)], orders := b.orders[o.id := o], posts := b.posts + Copies(o, n));
    if ok then posted.(phases := posted.phases[o.id := Confirmed])
    else if !written then posted.(phases := posted.phases[o.id := GivenUp])
    else if HasRow(b.rows, o.id) then posted.(phases := posted.phases[o.id := Pending])
    else posted.(phases := posted.phases[o.id := Pending],
                 rows := b.rows[b.nextId := ToRow(c, o)], nextId := b.nextId + 1)
  }

  lemma CallSteps(c: MetaCodec, b: Books, o: Order, n: nat, ok: bool, written: bool) returns (steps: seq<Step>)
    requires o.id in b.phases && b.phases[o.id] == Reserved && 1 <= n <= MAX_RETRIES
    ensures Leads(c, b, steps, AfterCall(c, b, o, n, ok, written)) && Decided(steps) == [o]
  {
    var b1 := Next(c, b, Decide(o));
    var posting := Posting(c, b1, o.id, n);
    var b2 :=
      b.(phases := b.phases[o.id := Calling(n)], orders := b.orders[o.id := o], posts := b.posts + Copies(o, n));
    assert b1.phases[o.id := Calling(n)] == b2.phases;
    var last := if ok then DirectAccepted(o.id) else DirectFailed(o.id, written);
    steps := ThreeParts(c, b, Decide(o), b1, posting, b2, last, Next(c, b2, last));
  }

  // The books agree with the vault's history and the table.
  ghost predicate Agree(b: Books, vault: VaultClient, db: PendingTable?)
    reads vault, db
  {
    b.posts == vault.posts && (db != null ==> db.Valid() && b.rows == db.rows && b.nextId == db.nextId)
  }

  /** The fire-and-forget call of a request is a sequence of steps that decides on this order once. */
  method CallInBooks(vault: VaultClient, o: Order, db: PendingTable?, c: MetaCodec, ghost b: Books)
    returns (ok: bool, ghost steps: seq<Step>, ghost b': Books)
    requires Faithful(c) && Inv(c, b) && Agree(b, vault, db)
    requires o.id in b.phases && b.phases[o.id] == Reserved
    modifies vault`posts, db
    ensures Agree(b', vault, db) && Leads(c, b, steps, b') && Decided(steps) == [o]
    ensures b'.replay == b.replay && b'.phases.Keys == b.phases.Keys
    ensures b'.phases[o.id] ==
      if ok then Confirmed else if db != null && old(db.writes) !in db.broken then Pending else GivenUp
  {
    ghost var written := db != null && db.writes !in db.broken;
    ok := SpawnVaultCall(vault, o, db, c);
    ghost var n := |vault.posts| - |b.posts|;
    b' := AfterCall(c, b, o, n, ok, written);
    steps := CallSteps(c, b, o, n, ok, written);
    if db != null && !ok && written && !HasRow(b.rows, o.id) {
      assert b.nextId in db.rows && b.nextId !in b.rows;
    }
  }

  // ----- a pass

  lemma {:induction false} Replaying(c: MetaCodec, b: Books, i: nat, m: nat, n: nat) returns (steps: seq<Step>)
    requires b.replay == Some((i, m)) && i in b.rows && m + n <= MAX_RETRIES
    requires n > 0 ==> FromRow(c, b.rows[i]).Some?
    ensures var posts := if FromRow(c, b.rows[i]).Some? then b.posts + Copies(FromRow(c, b.rows[i]).value, n)
      else b.posts;
      Leads(c, b, steps, b.(posts := posts, replay := Some((i, m + n))))
    ensures Decided(steps) == []
    decreases n
  {
    steps := [];
    if n == 0 {
      assert FromRow(c, b.rows[i]).Some? ==> b.posts + Copies(FromRow(c, b.rows[i]).value, 0) == b.posts;
    } else {
      var o := FromRow(c, b.rows[i]).value;
      var b1 := Next(c, b, ReplayPost);
      var rest := Replaying(c, b1, i, m + 1, n - 1);
      assert b1.posts + Copies(o, n - 1) == b.posts + Copies(o, n);
      LeadsFirst(c, b, ReplayPost, rest, b.(posts := b.posts + Copies(o, n), replay := Some((i, m + n))));
      steps := [ReplayPost] + rest;
    }
  }

  // The reservation of a row after a visit: the vault has accepted its order, or it was given up.
  function PhasesAfter(b: Books, v: Visit): map<string, Phase> {
    if v.row !in b.rows then b.phases
    else if v.fate.Replayed? then b.phases[b.rows[v.row].id := Confirmed]
    else if v.fate.Evicted? then b.phases[b.rows[v.row].id := GivenUp]
    else b.phases
  }

  function ReplayEnd(f: Fate): Step {
    if f.Replayed? || f.ReplayedButKept? then ReplayAccepted(f.Replayed?) else ReplayFailed(f.Failed?)
  }

  lemma VisitSteps(c: MetaCodec, b: Books, v: Visit) returns (steps: seq<Step>, b': Books)
    requires Inv(c, b) && b.replay.None? && VisitOk(c, b.rows, v)
    ensures Leads(c, b, steps, b') && Decided(steps) == []
    ensures b'.rows == AfterVisit(b.rows, v) && b'.posts == b.posts + VisitPosts(c, b.rows, v)
    ensures b'.replay.None? && b'.nextId == b.nextId && b'.phases == PhasesAfter(b, v)
  {
    var i := v.row;
    assert RowOk(c, b, i);
    if IsEviction(v.fate) {
      var step := Evict(i, v.fate.Evicted?);
      steps, b' := [step], Next(c, b, step);
      LeadsOne(c, b, step);
      assert b.posts + VisitPosts(c, b.rows, v) == b.posts;
      assert b.rows[i := b.rows[i]] == b.rows;
    } else {
      steps, b' := ReplaySteps(c, b, v);
    }
  }

  // The last step of a replay.
  lemma ReplayEnds(c: MetaCodec, b: Books, v: Visit)
    requires v.row in b.rows && b.replay == Some((v.row, v.posts)) && VisitOk(c, b.rows, v) && !IsEviction(v.fate)
    requires b.rows[v.row].id in b.phases
    ensures var last := ReplayEnd(v.fate);
      && Enabled(c, b, last)
      && (var b' := Next(c, b, last);
          && b'.rows == AfterVisit(b.rows, v) && b'.posts == b.posts && b'.nextId == b.nextId
          && b'.replay.None? && b'.phases == PhasesAfter(b, v))
  {
    assert b.rows[v.row := b.rows[v.row]] == b.rows;
  }

  lemma ReplaySteps(c: MetaCodec, b: Books, v: Visit) returns (steps: seq<Step>, b': Books)
    requires RowsOk(c, b) && b.replay.None? && VisitOk(c, b.rows, v) && !IsEviction(v.fate)
    ensures Leads(c, b, steps, b') && Decided(steps) == []
    ensures b'.rows == AfterVisit(b.rows, v) && b'.posts == b.posts + VisitPosts(c, b.rows, v)
    ensures b'.replay.None? && b'.nextId == b.nextId && b'.phases == PhasesAfter(b, v)
  {
    var i := v.row;
    assert RowOk(c, b, i);
    var b1 := Next(c, b, ReplayStart(i));
    var replaying := Replaying(c, b1, i, 0, v.posts);
    var b2 := b1.(posts := b.posts + VisitPosts(c, b.rows, v), replay := Some((i, v.posts)));
    assert FromRow(c, b.rows[i]).None? ==> b.posts + VisitPosts(c, b.rows, v) == b.posts;
    var last := ReplayEnd(v.fate);
    ReplayEnds(c, b2, v);
    b' := Next(c, b2, last);
    steps := ThreeParts(c, b, ReplayStart(i), b1, replaying, b2, last, b');
  }

  lemma ThreeParts(c: MetaCodec, b: Books, first: Step, b1: Books, middle: seq<Step>, b2: Books, last: Step, b': Books)
    returns (steps: seq<Step>)
    requires Enabled(c, b, first) && b1 == Next(c, b, first) && Leads(c, b1, middle, b2)
    requires Enabled(c, b2, last) && b' == Next(c, b2, last) && Decided(middle) == []
    ensures Leads(c, b, steps, b') && Decided(steps) == Decided([first]) + Decided([last])
  {
    LeadsOne(c, b, first);
    LeadsOne(c, b2, last);
    LeadsConcat(c, b, [first], b1, middle, b2);
    LeadsConcat(c, b, [first] + middle, b2, [last], b');
    steps := [first] + middle + [last];
    DecidedConcat([first], middle);
    DecidedConcat([first] + middle, [last]);
    assert Decided([first]) + [] == Decided([first]);
  }

  lemma {:induction false} PassSteps(c: MetaCodec, b: Books, visits: seq<Visit>) returns (steps: seq<Step>, b': Books)
    requires Faithful(c) && Inv(c, b) && b.replay.None? && VisitsOk(c, b.rows, visits)
    ensures Leads(c, b, steps, b') && Inv(c, b') && Decided(steps) == []
    ensures b'.rows == TableVisited(b.rows, visits) && b'.posts == PostsVisited(c, b.rows, b.posts, visits)
    ensures b'.replay.None? && b'.nextId == b.nextId && b'.phases.Keys == b.phases.Keys
    decreases |visits|
  {
    steps, b' := [], b;
    if visits != [] {
      var front, m := PassSteps(c, b, visits[..|visits| - 1]);
      var last, b2 := VisitSteps(c, m, visits[|visits| - 1]);
      LeadsConcat(c, b, front, m, last, b2);
      DecidedConcat(front, last);
      steps, b' := front + last, b2;
      LeadsKeepsInv(c, b, steps, b');
    }
  }

  /** A reconciliation pass is a sequence of steps that decides on nothing. */
  method ReconcileInBooks(vault: VaultClient, db: PendingTable, c: MetaCodec, countFails: bool, fetchFails: bool,
                          ghost b: Books)
    returns (replayed: nat, failed: nat, evicted: nat, ghost steps: seq<Step>, ghost b': Books)
    requires Faithful(c) && Inv(c, b) && Agree(b, vault, db) && b.replay.None?
    modifies vault, db`rows, db`writes
    ensures Agree(b', vault, db) && Leads(c, b, steps, b') && Decided(steps) == []
    ensures b'.replay.None? && b'.phases.Keys == b.phases.Keys
    ensures replayed + failed + evicted <= |b.rows|
    ensures db.broken == {} && !countFails && !fetchFails ==> replayed + failed + evicted == |b.rows|
  {
    ghost var rows := db.rows;
    ghost var fates, visits;
    replayed, failed, evicted, fates, visits := ReconcileOnce(vault, db, c, countFails, fetchFails);
    steps, b' := PassSteps(c, b, visits);
    CountersFit(rows, fates, replayed, failed, evicted);
    if db.broken == {} && !countFails && !fetchFails { PassConserves(rows, fates); }
  }

  lemma CountersFit(rows: map<nat, Row>, fates: map<nat, Fate>, replayed: nat, failed: nat, evicted: nat)
    requires fates.Keys <= rows.Keys && Counted(fates, replayed, failed, evicted)
    ensures replayed + failed + evicted <= |rows|
  {
    var r, f, u, e :=
      IdsWith(fates, Replayed), IdsWith(fates, Failed), IdsWith(fates, FailedUncounted), IdsWith(fates, Evicted);
    assert |r + f + u + e| == |r| + |f| + |u| + |e|;
    SubsetCardinality(r + f + u + e, rows.Keys);
    assert |rows.Keys| == |rows|;
  }

  // ----- the request paths

  // The steps of a request decide on its order if it has one, and on nothing else.
  ghost predicate DecidesOnce(steps: seq<Step>, order: Option<Order>, reservation: Option<string>) {
    && Decided(steps) == (if order.Some? then [order.value] else [])
    && (order.Some? ==> reservation == Some(order.value.id))
  }

  /** A non-streaming request, from its reservation to the end of its vault call: it decides at most once,
      and only for its own reservation. It decides exactly if its client stays. */
  method ServeNonStreaming(
    reg: Registry.CircuitBreakerRegistry, names: seq<string>, probe: Option<string>, billing: Handlers.Billing,
    send: nat -> Retry.Reply, answers: string -> Handlers.Answer, awaits: nat, gone: bool,
    clock: nat -> CircuitBreaker.Instant,
    vault: VaultClient, db: PendingTable?, c: MetaCodec, ghost b: Books)
    returns (end: Handlers.PathEnd, order: Option<Order>, ghost steps: seq<Step>, ghost b': Books)
    requires reg.Valid() && names != [] && Faithful(c) && Inv(c, b) && Agree(b, vault, db)
    requires billing.reservation.Some? ==>
      billing.reservation.value in b.phases && b.phases[billing.reservation.value] == Reserved
    modifies reg`log, reg.Footprint(), vault`posts, db
    ensures reg.Valid() && Agree(b', vault, db) && Leads(c, b, steps, b')
    ensures DecidesOnce(steps, order, billing.reservation)
    ensures order.Some? <==> billing.reservation.Some? && !end.Dropped?
    ensures order.Some? ==> (order.value.Settle? <==> Handlers.Succeeded(end))
  {
    var attempts;
    ghost var made;
    end, attempts, order, made :=
      Handlers.HandleNonStreamingPath(reg, names, probe, billing, send, answers, awaits, gone, clock);
    steps, b' := [], b;
    if order.Some? {
      var ok;
      ok, steps, b' := CallInBooks(vault, order.value, db, c, b);
    }
  }

  /** A streaming request, and the task it leaves behind. */
  method ServeStreaming(
    reg: Registry.CircuitBreakerRegistry, names: seq<string>, probe: Option<string>, end: Handlers.StreamEnd,
    up: Handlers.Upstream,
    t: CircuitBreaker.Instant, t': CircuitBreaker.Instant, vault: VaultClient, db: PendingTable?, c: MetaCodec,
    ghost b: Books)
    returns (order: Option<Order>, ghost steps: seq<Step>, ghost b': Books)
    requires reg.Valid() && names != [] && Faithful(c) && Inv(c, b) && Agree(b, vault, db)
    requires up.job.reservation.Some? ==>
      up.job.reservation.value in b.phases && b.phases[up.job.reservation.value] == Reserved
    modifies reg`log, reg.Footprint(), vault`posts, db
    ensures reg.Valid() && Agree(b', vault, db) && Leads(c, b, steps, b')
    ensures DecidesOnce(steps, order, up.job.reservation)
    ensures order.Some? <==> up.job.reservation.Some? && !end.Disconnected?
    ensures order.Some? ==> order.value.Release?
  {
    var direct, later := Handlers.HandleStreamingPath(reg, names, probe, end, up, t, t');
    order := if direct.Some? then direct else later;
    steps, b' := [], b;
    if order.Some? {
      var ok;
      ok, steps, b' := CallInBooks(vault, order.value, db, c, b);
    }
  }
}
