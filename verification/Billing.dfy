/** Billing over whole runs: every reservation from the reserve call on, the direct settle or release
    of the request, the pending table and the reconciler, in any interleaving
    (src/proxy/vault.rs and the vault code of src/proxy/handlers.rs). */
module Billing {
  import opened Common
  import opened Vault

  datatype Phase =
    | Reserved             // the request is being handled
    | Calling(made: nat)   // the direct call has made this many posts
    | Pending              // a row of the table stands for it
    | Confirmed            // the vault accepted a post
    | GivenUp              // evicted, or its row could not be written

  datatype Books = Books(
    phases: map<string, Phase>,
    orders: map<string, Order>,
    posts: seq<Order>,
    rows: map<nat, Row>,
    nextId: nat,
    replay: Option<(nat, nat)>, // the row being replayed and the posts made for it
    unrecorded: multiset<string>) // one entry per replay whose outcome could not be written to the row

  datatype Step =
    | Reserve(id: string)
    | Decide(order: Order)
    | DirectPost(id: string)
    | DirectAccepted(id: string)
    | DirectFailed(id: string, written: bool)
    | ReplayStart(row: nat)
    | ReplayPost
    | ReplayAccepted(written: bool)
    | ReplayFailed(written: bool)
    | Evict(row: nat, written: bool)

  const NO_BOOKS: Books := Books(map[], map[], [], map[], 0, None, multiset{})

  // serde reads back what it wrote.
  ghost predicate Faithful(c: MetaCodec) {
    forall m :: c.decode(c.encode(m)) == Some(m)
  }

  predicate HasRow(rows: map<nat, Row>, id: string) {
    exists i :: i in rows && rows[i].id == id
  }

  predicate CallingAt(b: Books, id: string, least: nat) {
    id in b.phases && b.phases[id].Calling? && b.phases[id].made >= least
  }

  predicate Enabled(c: MetaCodec, b: Books, step: Step) {
    match step
    case Reserve(id) => id !in b.phases
    case Decide(o) => o.id in b.phases && b.phases[o.id] == Reserved
    case DirectPost(id) => CallingAt(b, id, 0) && b.phases[id].made < MAX_RETRIES && id in b.orders
    case DirectAccepted(id) => CallingAt(b, id, 1)
    case DirectFailed(id, _) => CallingAt(b, id, 1) && id in b.orders
    case ReplayStart(i) => b.replay.None? && i in b.rows && !Stale(b.rows[i])
    case ReplayPost =>
      b.replay.Some? && b.replay.value.0 in b.rows && b.replay.value.1 < MAX_RETRIES
      && FromRow(c, b.rows[b.replay.value.0]).Some?
    case ReplayAccepted(_) => b.replay.Some? && b.replay.value.0 in b.rows && b.replay.value.1 > 0
    case ReplayFailed(_) => b.replay.Some? && b.replay.value.0 in b.rows
    case Evict(i, _) => b.replay.None? && i in b.rows && Stale(b.rows[i])
  }

  function Next(c: MetaCodec, b: Books, step: Step): Books
    requires Enabled(c, b, step)
  {
    match step
    case Reserve(id) => b.(phases := b.phases[id := Reserved])
    case Decide(o) => b.(phases := b.phases[o.id := Calling(0)], orders := b.orders[o.id := o])
    case DirectPost(id) =>
      b.(phases := b.phases[id := Calling(b.phases[id].made + 1)], posts := b.posts + [b.orders[id]])
    case DirectAccepted(id) => b.(phases := b.phases[id := Confirmed])
    case DirectFailed(id, written) =>
      if !written then b.(phases := b.phases[id := GivenUp])
      else if HasRow(b.rows, id) then b.(phases := b.phases[id := Pending]) // INSERT OR IGNORE
      else b.(phases := b.phases[id := Pending],
              rows := b.rows[b.nextId := ToRow(c, b.orders[id])], nextId := b.nextId + 1)
    case ReplayStart(i) => b.(replay := Some((i, 0)))
    case ReplayPost =>
      var (i, n) := b.replay.value;
      b.(posts := b.posts + [FromRow(c, b.rows[i]).value], replay := Some((i, n + 1)))
    case ReplayAccepted(written) =>
      var i := b.replay.value.0;
      if !written then b.(replay := None, unrecorded := b.unrecorded + multiset{b.rows[i].id})
      else b.(replay := None, rows := b.rows - {i}, phases := b.phases[b.rows[i].id := Confirmed])
    case ReplayFailed(written) =>
      var i := b.replay.value.0;
      if !written then b.(replay := None, unrecorded := b.unrecorded + multiset{b.rows[i].id})
      else b.(replay := None, rows := b.rows[i := b.rows[i].(attempts := b.rows[i].attempts + 1)])
    case Evict(i, written) =>
      if !written then b
      else b.(rows := b.rows - {i}, phases := b.phases[b.rows[i].id := GivenUp])
  }

  ghost predicate IsRun(c: MetaCodec, states: seq<Books>, steps: seq<Step>) {
    && |states| == |steps| + 1
    && states[0] == NO_BOOKS
    && forall k :: 0 <= k < |steps| ==> Enabled(c, states[k], steps[k]) && states[k + 1] == Next(c, states[k], steps[k])
  }

  // ----- the invariant

  function CountPosts(posts: seq<Order>, id: string): nat {
    if posts == [] then 0
    else CountPosts(posts[..|posts| - 1], id) + if posts[|posts| - 1].id == id then 1 else 0
  }

  // o is the order of its reservation.
  predicate Ordered(b: Books, o: Order) {
    o.id in b.orders && b.orders[o.id] == o
  }

  ghost predicate PostsOk(b: Books) {
    forall k :: 0 <= k < |b.posts| ==> Ordered(b, b.posts[k])
  }

  // An order is there from the decision on.
  predicate OrderOk(b: Books, id: string) {
    && (id in b.orders ==> b.orders[id].id == id && id in b.phases && b.phases[id] != Reserved)
    && (id in b.phases && b.phases[id] != Reserved ==> id in b.orders)
  }

  ghost predicate OrdersOk(b: Books) {
    forall id :: OrderOk(b, id)
  }

  predicate RowOk(c: MetaCodec, b: Books, i: nat)
    requires i in b.rows
  {
    var id := b.rows[i].id;
    && i < b.nextId
    && id in b.phases && b.phases[id] == Pending
    && id in b.orders && FromRow(c, b.rows[i]) == Some(b.orders[id])
  }

  ghost predicate RowsOk(c: MetaCodec, b: Books) {
    && (forall i :: i in b.rows ==> RowOk(c, b, i))
    && (b.replay.Some? ==> b.replay.value.0 in b.rows)
  }

  ghost predicate RowsUnique(rows: map<nat, Row>) {
    forall i, j :: i in rows && j in rows && rows[i].id == rows[j].id ==> i == j
  }

  ghost predicate PendingHasRow(b: Books, id: string) {
    id in b.phases && b.phases[id] == Pending ==> HasRow(b.rows, id)
  }

  const MOST_POSTS: nat := MAX_RETRIES + MAX_RETRIES * MAX_SETTLEMENT_ATTEMPTS

  function ReplayedSoFar(b: Books, i: nat): nat {
    if b.replay.Some? && b.replay.value.0 == i then b.replay.value.1 else 0
  }

  // The replays of a row are counted in the row, or were not recorded.
  predicate RowCountOk(b: Books, i: nat, n: nat)
    requires i in b.rows
  {
    && b.rows[i].attempts <= MAX_SETTLEMENT_ATTEMPTS
    && n <= MAX_RETRIES + MAX_RETRIES * (b.rows[i].attempts + b.unrecorded[b.rows[i].id]) + ReplayedSoFar(b, i)
  }

  function MostPosts(b: Books, id: string): nat {
    MOST_POSTS + MAX_RETRIES * b.unrecorded[id]
  }

  // How many posts may have been made for a reservation.
  ghost predicate CountOk(b: Books, id: string)
    requires id in b.phases
  {
    var n := CountPosts(b.posts, id);
    match b.phases[id]
    case Reserved => n == 0
    case Calling(made) => n == made <= MAX_RETRIES
    case Pending => forall i :: i in b.rows && b.rows[i].id == id ==> RowCountOk(b, i, n)
    case _ => n <= MostPosts(b, id)
  }

  // The replay in progress has made at most MAX_RETRIES posts, and not for a stale row.
  ghost predicate ReplayOk(b: Books) {
    b.replay.Some? && b.replay.value.0 in b.rows ==> b.replay.value.1 <= MAX_RETRIES && !Stale(b.rows[b.replay.value.0])
  }

  ghost predicate CountsOk(b: Books) {
    && ReplayOk(b)
    && (forall id :: id in b.phases ==> CountOk(b, id))
    && (forall id :: id !in b.phases ==> CountPosts(b.posts, id) == 0)
    && (forall id :: id in b.phases && b.phases[id] == Reserved ==> CountPosts(b.posts, id) == 0)
  }

  ghost predicate Inv(c: MetaCodec, b: Books) {
    && PostsOk(b) && OrdersOk(b) && RowsOk(c, b) && RowsUnique(b.rows) && CountsOk(b)
    && (forall id :: PendingHasRow(b, id))
  }

  lemma CountAppend(posts: seq<Order>, o: Order, id: string)
    ensures CountPosts(posts + [o], id) == CountPosts(posts, id) + if o.id == id then 1 else 0
  {
    assert (posts + [o])[..|posts + [o]| - 1] == posts;
  }

  lemma KeepsOrders(c: MetaCodec, b: Books, step: Step)
    requires Inv(c, b) && Enabled(c, b, step)
    ensures OrdersOk(Next(c, b, step))
  {
    var b' := Next(c, b, step);
    forall id ensures OrderOk(b', id) {
      assert OrderOk(b, id);
      if step.ReplayAccepted? { assert RowOk(c, b, b.replay.value.0); }
      if step.Evict? { assert RowOk(c, b, step.row); }
    }
  }

  lemma KeepsPosts(c: MetaCodec, b: Books, step: Step)
    requires Inv(c, b) && Enabled(c, b, step)
    ensures PostsOk(Next(c, b, step))
  {
    var b' := Next(c, b, step);
    forall k | 0 <= k < |b'.posts| ensures Ordered(b', b'.posts[k]) {
      if k < |b.posts| {
        assert Ordered(b, b.posts[k]) && OrderOk(b, b.posts[k].id);
      } else if step.DirectPost? {
        assert OrderOk(b, step.id);
      } else {
        assert RowOk(c, b, b.replay.value.0) && OrderOk(b, b.rows[b.replay.value.0].id);
      }
    }
  }

  // When a direct call fails, no row has its id.
  lemma NoRowYet(c: MetaCodec, b: Books, id: string)
    requires Inv(c, b) && CallingAt(b, id, 0)
    ensures !HasRow(b.rows, id)
  {
    forall i | i in b.rows ensures b.rows[i].id != id {
      assert RowOk(c, b, i);
    }
  }

  lemma NewRow(c: MetaCodec, b: Books, id: string)
    requires Faithful(c) && Inv(c, b) && Enabled(c, b, DirectFailed(id, true))
    ensures var b' := Next(c, b, DirectFailed(id, true));
      b'.rows == b.rows[b.nextId := ToRow(c, b.orders[id])] && RowOk(c, b', b.nextId)
  {
    NoRowYet(c, b, id);
    assert OrderOk(b, id);
    RowRoundTrip(c, b.orders[id], 0);
  }

  lemma KeepsRow(c: MetaCodec, b: Books, step: Step, i: nat)
    requires Inv(c, b) && Enabled(c, b, step) && i in b.rows && i in Next(c, b, step).rows
    ensures RowOk(c, Next(c, b, step), i)
  {
    assert RowOk(c, b, i);
    match step {
      case ReplayAccepted(_) => assert b.rows[b.replay.value.0].id == b.rows[i].id ==> b.replay.value.0 == i;
      case Evict(j, _) => assert b.rows[j].id == b.rows[i].id ==> j == i;
      case _ =>
    }
  }

  lemma KeepsUnique(c: MetaCodec, b: Books, step: Step)
    requires Inv(c, b) && Enabled(c, b, step)
    ensures RowsUnique(Next(c, b, step).rows)
  {
    if step.DirectFailed? {
      NoRowYet(c, b, step.id);
      assert OrderOk(b, step.id);
    }
  }

  lemma KeepsPending(c: MetaCodec, b: Books, step: Step, id: string)
    requires Inv(c, b) && Enabled(c, b, step)
    ensures PendingHasRow(Next(c, b, step), id)
  {
    assert PendingHasRow(b, id);
    if step == DirectFailed(id, true) {
      NoRowYet(c, b, id);
      assert OrderOk(b, id);
      assert Next(c, b, step).rows[b.nextId].id == id;
    } else if HasRow(b.rows, id) {
      var i :| i in b.rows && b.rows[i].id == id;
      KeepsRowOfPending(c, b, step, i);
    }
  }

  lemma KeepsRowOfPending(c: MetaCodec, b: Books, step: Step, i: nat)
    requires Inv(c, b) && Enabled(c, b, step) && i in b.rows
    ensures var b', id := Next(c, b, step), b.rows[i].id;
      id in b'.phases && b'.phases[id] == Pending ==> i in b'.rows && b'.rows[i].id == id
  {
    assert RowOk(c, b, i);
  }

  lemma CountAfter(c: MetaCodec, b: Books, step: Step, id: string)
    requires Inv(c, b) && Enabled(c, b, step)
    ensures var b' := Next(c, b, step);
      CountPosts(b'.posts, id) == CountPosts(b.posts, id) +
        match step
        case DirectPost(d) => if id == d then 1 else 0
        case ReplayPost => if id == b.rows[b.replay.value.0].id then 1 else 0
        case _ => 0
  {
    if step.DirectPost? {
      assert OrderOk(b, step.id);
      CountAppend(b.posts, b.orders[step.id], id);
    } else if step.ReplayPost? {
      assert RowOk(c, b, b.replay.value.0) && OrderOk(b, b.rows[b.replay.value.0].id);
      CountAppend(b.posts, FromRow(c, b.rows[b.replay.value.0]).value, id);
    }
  }

  lemma KeepsRowCount(c: MetaCodec, b: Books, step: Step, i: nat, n: nat)
    requires Inv(c, b) && Enabled(c, b, step) && !step.DirectFailed?
    requires i in b.rows && RowCountOk(b, i, n) && i in Next(c, b, step).rows
    ensures RowCountOk(Next(c, b, step), i,
      n + if step.ReplayPost? && b.replay.value.0 == i then 1 else 0)
  {
  }

  // The row of a reservation that is pending before and after.
  lemma KeepsCountOfPending(c: MetaCodec, b: Books, step: Step, id: string, i: nat)
    requires Inv(c, b) && Enabled(c, b, step) && !step.DirectFailed?
    requires i in b.rows && b.rows[i].id == id && id in b.phases && b.phases[id] == Pending
    ensures CountOk(Next(c, b, step), id)
  {
    CountAfter(c, b, step, id);
    assert CountOk(b, id) && RowOk(c, b, i) && OrderOk(b, id) && RowCountOk(b, i, CountPosts(b.posts, id));
    if i in Next(c, b, step).rows {
      KeepsRowCount(c, b, step, i, CountPosts(b.posts, id));
    }
  }

  lemma InsertKeepsCounts(c: MetaCodec, b: Books, failed: string, written: bool, id: string)
    requires Inv(c, b) && Enabled(c, b, DirectFailed(failed, written)) && id in b.phases
    ensures CountOk(Next(c, b, DirectFailed(failed, written)), id)
  {
    NoRowYet(c, b, failed);
    assert OrderOk(b, failed) && CountOk(b, id) && CountOk(b, failed);
  }

  lemma KeepsCount(c: MetaCodec, b: Books, step: Step, id: string)
    requires Inv(c, b) && Enabled(c, b, step) && id in Next(c, b, step).phases
    ensures CountOk(Next(c, b, step), id)
  {
    CountAfter(c, b, step, id);
    if step.DirectFailed? {
      InsertKeepsCounts(c, b, step.id, step.written, id);
    } else if id in b.phases && b.phases[id] == Pending {
      assert PendingHasRow(b, id);
      var i :| i in b.rows && b.rows[i].id == id;
      KeepsCountOfPending(c, b, step, id, i);
    } else if id in b.phases {
      assert CountOk(b, id);
      if b.replay.Some? { assert RowOk(c, b, b.replay.value.0); }
      if step.Evict? { assert RowOk(c, b, step.row); }
    }
  }

  lemma KeepsReplay(c: MetaCodec, b: Books, step: Step)
    requires Inv(c, b) && Enabled(c, b, step)
    ensures ReplayOk(Next(c, b, step))
  {
    if b.replay.Some? { assert RowOk(c, b, b.replay.value.0); }
  }

  lemma KeepsZero(c: MetaCodec, b: Books, step: Step, id: string)
    requires Inv(c, b) && Enabled(c, b, step)
    requires var b' := Next(c, b, step); id !in b'.phases || b'.phases[id] == Reserved
    ensures CountPosts(Next(c, b, step).posts, id) == 0
  {
    CountAfter(c, b, step, id);
    if b.replay.Some? { assert RowOk(c, b, b.replay.value.0); }
  }

  lemma KeepsCounts(c: MetaCodec, b: Books, step: Step)
    requires Inv(c, b) && Enabled(c, b, step)
    ensures CountsOk(Next(c, b, step))
  {
    var b' := Next(c, b, step);
    KeepsReplay(c, b, step);
    forall id | id in b'.phases ensures CountOk(b', id) {
      KeepsCount(c, b, step, id);
    }
    forall id | id !in b'.phases || b'.phases[id] == Reserved ensures CountPosts(b'.posts, id) == 0 {
      KeepsZero(c, b, step, id);
    }
  }

  lemma StepKeepsInv(c: MetaCodec, b: Books, step: Step)
    requires Faithful(c) && Inv(c, b) && Enabled(c, b, step)
    ensures Inv(c, Next(c, b, step))
  {
    KeepsOrders(c, b, step);
    KeepsPosts(c, b, step);
    KeepsUnique(c, b, step);
    KeepsCounts(c, b, step);
    forall i | i in Next(c, b, step).rows ensures RowOk(c, Next(c, b, step), i) {
      if i in b.rows { KeepsRow(c, b, step, i); } else { NewRow(c, b, step.id); }
    }
    forall id ensures PendingHasRow(Next(c, b, step), id) {
      KeepsPending(c, b, step, id);
    }
  }

  lemma {:induction false} RunKeepsInv(c: MetaCodec, states: seq<Books>, steps: seq<Step>, k: nat)
    requires Faithful(c) && IsRun(c, states, steps) && k < |states|
    ensures Inv(c, states[k])
  {
    if k > 0 {
      RunKeepsInv(c, states, steps, k - 1);
      StepKeepsInv(c, states[k - 1], steps[k - 1]);
    }
  }

  // ----- the theorems

  /** One disposition: all posts ever made for a reservation, direct, retried or replayed, carry the same
      body, so no reservation is both settled and released and none is settled at two amounts. */
  lemma OneDisposition(c: MetaCodec, states: seq<Books>, steps: seq<Step>, k: nat, m: nat, n: nat)
    requires Faithful(c) && IsRun(c, states, steps) && k < |states|
    requires m < |states[k].posts| && n < |states[k].posts| && states[k].posts[m].id == states[k].posts[n].id
    ensures states[k].posts[m] == states[k].posts[n]
  {
    RunKeepsInv(c, states, steps, k);
    assert Ordered(states[k], states[k].posts[m]) && Ordered(states[k], states[k].posts[n]);
  }

  /** INSERT OR IGNORE never ignores: when the direct call of a reservation has failed, no row of the
      table has its id, and a written row stands for exactly the order that failed. */
  lemma NoRowIsIgnored(c: MetaCodec, states: seq<Books>, steps: seq<Step>, k: nat)
    requires Faithful(c) && IsRun(c, states, steps) && k < |steps| && steps[k].DirectFailed?
    ensures var b, b', id := states[k], states[k + 1], steps[k].id;
      && !HasRow(b.rows, id)
      && (steps[k].written ==>
           && b'.rows == b.rows[b.nextId := ToRow(c, b.orders[id])]
           && FromRow(c, b'.rows[b.nextId]) == Some(b.orders[id]))
  {
    RunKeepsInv(c, states, steps, k);
    NoRowYet(c, states[k], steps[k].id);
    RowRoundTrip(c, states[k].orders[steps[k].id], 0);
  }

  /** Nothing is forgotten or doubled in the table: at every moment the reservations that are pending
      and the rows correspond one to one. */
  lemma PendingMatchesRows(c: MetaCodec, states: seq<Books>, steps: seq<Step>, k: nat, id: string)
    requires Faithful(c) && IsRun(c, states, steps) && k < |states|
    ensures (id in states[k].phases && states[k].phases[id] == Pending) <==> HasRow(states[k].rows, id)
    ensures RowsUnique(states[k].rows)
  {
    RunKeepsInv(c, states, steps, k);
    var b := states[k];
    assert PendingHasRow(b, id);
    forall i | i in b.rows ensures b.rows[i].id in b.phases && b.phases[b.rows[i].id] == Pending {
      assert RowOk(c, b, i);
    }
  }

  /** A reservation costs at most 33 settle or release posts, and three more for every time that its row
      could not be deleted or its attempts not be counted after a replay. */
  lemma AtMostThirtyThreePosts(c: MetaCodec, states: seq<Books>, steps: seq<Step>, k: nat, id: string)
    requires Faithful(c) && IsRun(c, states, steps) && k < |states|
    ensures CountPosts(states[k].posts, id) <= 33 + 3 * states[k].unrecorded[id]
  {
    RunKeepsInv(c, states, steps, k);
    var b := states[k];
    if id in b.phases {
      assert CountOk(b, id);
      if b.phases[id] == Pending {
        assert PendingHasRow(b, id);
        var i :| i in b.rows && b.rows[i].id == id;
        assert b.replay.Some? && b.replay.value.0 == i ==> !Stale(b.rows[i]);
      }
    }
  }
}
