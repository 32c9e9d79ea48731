/** Settling and releasing reservations: src/proxy/vault.rs and the two fire-and-forget tasks of
    src/proxy/handlers.rs. The vault's replies and the success of each database operation are
    inputs of the model. */
module Vault {
  import opened Common

  const MAX_RETRIES: nat := 3
  const MAX_SETTLEMENT_ATTEMPTS: nat := 10

  datatype Metadata = Metadata(tokensIn: Option<u32>, tokensOut: Option<u32>, provider: string, latencyMs: i64)

  // The body of a settle or release call; every post carries one.
  datatype Order =
    | Settle(id: string, msats: u64, meta: Metadata)
    | Release(id: string, reason: string)

  datatype Body = NotJson | Json(isSettleResponse: bool)

  datatype Reply = Answer(status: nat, body: Body) | NoAnswer(connection: bool)

  datatype VaultError = Unavailable | Other

  // ----- one call with retries

  predicate Success(status: nat) {
    200 <= status < 300
  }

  predicate ServerError(status: nat) {
    500 <= status < 600
  }

  // The reply leads to another attempt, while there is one left.
  predicate Retried(r: Reply) {
    r.NoAnswer? || ServerError(r.status)
  }

  function Verdict(r: Reply): Result<Body, VaultError> {
    match r
    case Answer(status, body) =>
      if Success(status) then (if body.NotJson? then Err(Other) else Ok(body))
      else if ServerError(status) then Err(Unavailable)
      else Err(Other)
    case NoAnswer(connection) => Err(if connection then Unavailable else Other)
  }

  // A settle also has to find the fields of a settle response in the body.
  predicate Accepted(o: Order, r: Reply) {
    Verdict(r).Ok? && (o.Settle? ==> Verdict(r).value.isSettleResponse)
  }

  function Copies(o: Order, n: nat): seq<Order> {
    seq(n, k => o)
  }

  class VaultClient {
    const replies: nat -> Reply // the reply to the n-th post ever made
    const pendingThreshold: u32
    var posts: seq<Order>
    var backpressure: bool

    constructor (replies: nat -> Reply, pendingThreshold: u32)
      ensures this.replies == replies && this.pendingThreshold == pendingThreshold
      ensures posts == [] && !backpressure
    {
      this.replies, this.pendingThreshold, posts, backpressure := replies, pendingThreshold, [], false;
    }

    /** One to three identical posts: another one is made exactly when the reply was a server error
        or did not come, and the last reply decides. */
    method CallWithRetry(o: Order) returns (r: Result<Body, VaultError>)
      modifies this`posts
      ensures var n := |posts| - |old(posts)|;
        && 1 <= n <= MAX_RETRIES
        && posts == old(posts) + Copies(o, n)
        && (forall k :: |old(posts)| <= k < |posts| - 1 ==> Retried(replies(k)))
        && (n < MAX_RETRIES ==> !Retried(replies(|posts| - 1)))
        && r == Verdict(replies(|posts| - 1))
      ensures var n, last := |posts| - |old(posts)|, replies(|posts| - 1);
        && n <= 3
        && (forall k :: |old(posts)| <= k < |posts| - 1 ==> replies(k).NoAnswer? || 500 <= replies(k).status <= 599)
        && (n < 3 ==> last.Answer? && !(500 <= last.status <= 599))
        && (r.Ok? <==> last.Answer? && 200 <= last.status <= 299 && last.body.Json?)
        && (r.Ok? ==> r.value == last.body)
        && (r.Err? && r.error == Unavailable <==>
             if last.Answer? then 500 <= last.status <= 599 else last.connection)
    {
      var lastErr := Other;
      for attempt := 0 to MAX_RETRIES
        invariant posts == old(posts) + Copies(o, attempt)
        invariant forall k :: |old(posts)| <= k < |posts| ==> Retried(replies(k))
        invariant attempt > 0 ==> Err(lastErr) == Verdict(replies(|posts| - 1))
      {
        var reply := replies(|posts|);
        posts := posts + [o];
        assert Copies(o, attempt) + [o] == Copies(o, attempt + 1);
        match reply {
          case Answer(status, body) =>
            if Success(status) {
              return if body.NotJson? then Err(Other) else Ok(body);
            } else if ServerError(status) {
              lastErr := Unavailable;
            } else {
              return Err(Other);
            }
          case NoAnswer(connection) =>
            lastErr := if connection then Unavailable else Other;
        }
      }
      r := Err(lastErr);
    }

    /** `settle` and `release`: good if and only if the last reply is an answer with status 200 to 299 and a
        JSON body, with the fields of a settle response for a settle. */
    method Call(o: Order) returns (ok: bool)
      modifies this`posts
      ensures var n := |posts| - |old(posts)|;
        1 <= n <= MAX_RETRIES && posts == old(posts) + Copies(o, n) && ok == Accepted(o, replies(|posts| - 1))
      ensures var last := replies(|posts| - 1);
        ok <==> last.Answer? && 200 <= last.status <= 299 && last.body.Json?
                && (o.Settle? ==> last.body.isSettleResponse)
    {
      var r := CallWithRetry(o);
      ok := r.Ok? && (o.Settle? ==> r.value.isSettleResponse);
    }
  }

  // ----- rows of the pending table

  datatype Row = Row(kind: string, id: string, amount: Option<i64>, metadata: string, attempts: nat)

  // serde on the settle metadata.
  datatype MetaCodec = MetaCodec(encode: Metadata -> string, decode: string -> Option<Metadata>)

  predicate DecodesItsEncoding(c: MetaCodec, o: Order) {
    o.Settle? ==> c.decode(c.encode(o.meta)) == Some(o.meta)
  }

  // `v as i64` and `v as u64`

  function AsI64(v: u64): i64 {
    if v < TWO_TO_THE_63 then v else v - TWO_TO_THE_64
  }

  function AsU64(v: i64): u64 {
    if v >= 0 then v else v + TWO_TO_THE_64
  }

  function ToRow(c: MetaCodec, o: Order): Row {
    match o
    case Settle(id, msats, meta) => Row("settle", id, Some(AsI64(msats)), c.encode(meta), 0)
    case Release(id, reason) => Row("release", id, None, reason, 0)
  }

  // What replaying a row posts, if it can be posted at all.
  function FromRow(c: MetaCodec, row: Row): Option<Order> {
    if row.kind == "settle" then
      var meta := c.decode(row.metadata);
      if meta.None? then None
      else Some(Settle(row.id, if row.amount.Some? then AsU64(row.amount.value) else 0, meta.value))
    else if row.kind == "release" then Some(Release(row.id, row.metadata))
    else None
  }

  /** What was to be posted comes back from the table unchanged, amounts of 2^63 and above included. */
  lemma RowRoundTrip(c: MetaCodec, o: Order, attempts: nat)
    requires DecodesItsEncoding(c, o)
    ensures FromRow(c, ToRow(c, o).(attempts := attempts)) == Some(o)
  {
    if o.Settle? {
      assert AsU64(AsI64(o.msats)) == o.msats;
    }
  }

  class PendingTable {
    const broken: set<nat> // the numbers of the writes that fail
    var rows: map<nat, Row>
    var nextId: nat
    var writes: nat

    constructor (broken: set<nat>)
      ensures this.broken == broken && rows == map[] && Valid()
    {
      this.broken, rows, nextId, writes := broken, map[], 0, 0;
    }

    ghost predicate Valid()
      reads this
    {
      && (forall i :: i in rows ==> i < nextId)
      && (forall i, j :: i in rows && j in rows && rows[i].id == rows[j].id ==> i == j)
    }

    // INSERT OR IGNORE, with reservation_id UNIQUE.
    method Insert(row: Row) returns (ok: bool)
      requires Valid()
      modifies this
      ensures Valid()
      ensures ok == (old(writes) !in broken)
      ensures rows == if ok && (forall i :: i in old(rows) ==> old(rows)[i].id != row.id)
                      then old(rows)[old(nextId) := row] else old(rows)
      ensures nextId == if rows == old(rows) then old(nextId) else old(nextId) + 1
    {
      ok := writes !in broken;
      writes := writes + 1;
      if ok && forall i :: i in rows ==> rows[i].id != row.id {
        rows := rows[nextId := row];
        assert nextId in rows && nextId !in old(rows);
        nextId := nextId + 1;
      }
    }

    method Delete(i: nat) returns (ok: bool)
      requires Valid()
      modifies this`rows, this`writes
      ensures Valid() && writes == old(writes) + 1
      ensures ok == (old(writes) !in broken)
      ensures rows == if ok then old(rows) - {i} else old(rows)
    {
      ok := writes !in broken;
      writes := writes + 1;
      if ok {
        rows := rows - {i};
      }
    }

    method IncrementAttempts(i: nat) returns (ok: bool)
      requires Valid()
      modifies this`rows, this`writes
      ensures Valid() && writes == old(writes) + 1
      ensures ok == (old(writes) !in broken)
      ensures rows == if ok && i in old(rows) then old(rows)[i := old(rows)[i].(attempts := old(rows)[i].attempts + 1)]
                      else old(rows)
    {
      ok := writes !in broken;
      writes := writes + 1;
      if ok && i in rows {
        rows := rows[i := rows[i].(attempts := rows[i].attempts + 1)];
      }
    }

    // All rows, once each; equal creation times leave their order open.
    method Fetch() returns (pending: seq<nat>)
      ensures AllOnce(pending, rows)
    {
      pending := [];
      var left := rows.Keys;
      while left != {}
        invariant left <= rows.Keys
        invariant forall i :: i in pending <==> i in rows && i !in left
        invariant forall a, b :: 0 <= a < b < |pending| ==> pending[a] != pending[b]
        decreases |left|
      {
        var i :| i in left;
        pending := pending + [i];
        left := left - {i};
      }
    }
  }

  // The reply says that the order was carried out.
  predicate CarriedOut(o: Order, r: Reply) {
    r.Answer? && 200 <= r.status <= 299 && r.body.Json? && (o.Settle? ==> r.body.isSettleResponse)
  }

  // A row that stands for an order and has not been replayed.
  ghost predicate FreshRow(c: MetaCodec, o: Order, row: Row) {
    && row.id == o.id && row.attempts == 0 && row.kind == (if o.Settle? then "settle" else "release")
    && (o.Release? ==> row.amount.None? && row.metadata == o.reason)
    && (o.Settle? ==>
         row.amount.Some? && row.amount.value % TWO_TO_THE_64 == o.msats && row.metadata == c.encode(o.meta))
    && (DecodesItsEncoding(c, o) ==> FromRow(c, row) == Some(o))
  }

  /** The fire-and-forget task: post, and, unless the last reply says that the order was carried out, keep
      it for the reconciler. Then, if the write works and no row has its id, a fresh row stands for it. */
  method SpawnVaultCall(vault: VaultClient, o: Order, db: PendingTable?, c: MetaCodec) returns (ok: bool)
    requires db != null ==> db.Valid()
    modifies vault`posts, db
    ensures var n := |vault.posts| - |old(vault.posts)|;
      1 <= n <= MAX_RETRIES && vault.posts == old(vault.posts) + Copies(o, n)
    ensures ok == Accepted(o, vault.replies(|vault.posts| - 1)) == CarriedOut(o, vault.replies(|vault.posts| - 1))
    ensures db != null ==> db.Valid()
    ensures db != null && ok ==> db.rows == old(db.rows)
    ensures db != null && !ok ==>
      db.rows == if old(db.writes) !in db.broken && (forall i :: i in old(db.rows) ==> old(db.rows)[i].id != o.id)
                 then old(db.rows)[old(db.nextId) := ToRow(c, o)] else old(db.rows)
    ensures db != null && !ok && old(db.writes) !in db.broken
            && (forall i :: i in old(db.rows) ==> old(db.rows)[i].id != o.id) ==>
      old(db.nextId) in db.rows && FreshRow(c, o, db.rows[old(db.nextId)])
    ensures db != null ==> db.nextId == if db.rows == old(db.rows) then old(db.nextId) else old(db.nextId) + 1
  {
    ok := vault.Call(o);
    if !ok && db != null {
      StoredRowIsFresh(c, o);
      var stored := db.Insert(ToRow(c, o));
    }
  }

  lemma StoredRowIsFresh(c: MetaCodec, o: Order)
    ensures FreshRow(c, o, ToRow(c, o))
  {
    if DecodesItsEncoding(c, o) { RowRoundTrip(c, o, 0); }
  }

  // ----- one reconciliation pass

  // What a pass did with a row; the last three need a failed database write.
  datatype Fate = Replayed | Failed | Evicted | ReplayedButKept | FailedUncounted | EvictedButKept

  function RowAfter(row: Row, f: Fate): Option<Row> {
    match f
    case Replayed => None
    case Evicted => None
    case Failed => Some(row.(attempts := row.attempts + 1))
    case _ => Some(row)
  }

  predicate Stale(row: Row) {
    row.attempts >= MAX_SETTLEMENT_ATTEMPTS
  }

  predicate IsEviction(f: Fate) {
    f == Evicted || f == EvictedButKept
  }

  predicate WrittenBack(f: Fate) {
    f == Replayed || f == Failed || f == Evicted
  }

  // The fate f of a row follows from posts[a..b], the posts its replay made.
  ghost predicate ExplainedBy(c: MetaCodec, row: Row, f: Fate, posts: seq<Order>, replies: nat -> Reply, a: nat,
                              b: nat) {
    && a <= b <= |posts| && b - a <= MAX_RETRIES
    && (a < b <==> FromRow(c, row).Some?)
    && (forall k :: a <= k < b ==> FromRow(c, row) == Some(posts[k]))
    && (f.Replayed? || f.ReplayedButKept? <==> a < b && Accepted(posts[b - 1], replies(b - 1)))
  }

  ghost predicate Explained(c: MetaCodec, row: Row, f: Fate, from: nat, posts: seq<Order>, replies: nat -> Reply) {
    IsEviction(f) || exists a, b :: from <= a && ExplainedBy(c, row, f, posts, replies, a, b)
  }

  function TableAfter(rows: map<nat, Row>, fates: map<nat, Fate>): map<nat, Row> {
    map i | i in rows && (i in fates ==> RowAfter(rows[i], fates[i]).Some?) ::
      if i in fates then RowAfter(rows[i], fates[i]).value else rows[i]
  }

  function IdsWith(fates: map<nat, Fate>, f: Fate): set<nat> {
    set i | i in fates && fates[i] == f
  }

  // Stale rows are evicted and no others.
  ghost predicate FatesFit(rows: map<nat, Row>, fates: map<nat, Fate>) {
    forall i :: i in fates ==> i in rows && (IsEviction(fates[i]) <==> Stale(rows[i]))
  }

  // The order is the replay of a row that was not evicted.
  ghost predicate IsReplay(c: MetaCodec, rows: map<nat, Row>, fates: map<nat, Fate>, o: Order) {
    exists i :: i in fates && i in rows && !IsEviction(fates[i]) && FromRow(c, rows[i]) == Some(o)
  }

  // So is every post from number `from` on.
  ghost predicate PostsAreReplays(c: MetaCodec, rows: map<nat, Row>, fates: map<nat, Fate>, from: nat,
                                  posts: seq<Order>) {
    forall k :: from <= k < |posts| ==> IsReplay(c, rows, fates, posts[k])
  }

  // ----- a pass as a sequence of visits

  // One turn of the loop: the row, what became of it and how many posts were made for it.
  datatype Visit = Visit(row: nat, fate: Fate, posts: nat)

  function VisitPosts(c: MetaCodec, rows: map<nat, Row>, v: Visit): seq<Order> {
    if v.row in rows && FromRow(c, rows[v.row]).Some? then Copies(FromRow(c, rows[v.row]).value, v.posts) else []
  }

  function AfterVisit(rows: map<nat, Row>, v: Visit): map<nat, Row> {
    if v.row !in rows then rows
    else if RowAfter(rows[v.row], v.fate).None? then rows - {v.row}
    else rows[v.row := RowAfter(rows[v.row], v.fate).value]
  }

  predicate VisitOk(c: MetaCodec, rows: map<nat, Row>, v: Visit) {
    && v.row in rows && v.posts <= MAX_RETRIES
    && (IsEviction(v.fate) <==> Stale(rows[v.row]))
    && (v.posts > 0 <==> !IsEviction(v.fate) && FromRow(c, rows[v.row]).Some?)
    && (v.fate.Replayed? || v.fate.ReplayedButKept? ==> v.posts > 0)
  }

  function TableVisited(rows: map<nat, Row>, visits: seq<Visit>): map<nat, Row> {
    if visits == [] then rows else AfterVisit(TableVisited(rows, visits[..|visits| - 1]), visits[|visits| - 1])
  }

  function PostsVisited(c: MetaCodec, rows: map<nat, Row>, posts: seq<Order>, visits: seq<Visit>): seq<Order> {
    if visits == [] then posts
    else
      var front := visits[..|visits| - 1];
      PostsVisited(c, rows, posts, front) + VisitPosts(c, TableVisited(rows, front), visits[|visits| - 1])
  }

  predicate VisitsOk(c: MetaCodec, rows: map<nat, Row>, visits: seq<Visit>) {
    visits != [] ==>
      var front := visits[..|visits| - 1];
      VisitsOk(c, rows, front) && VisitOk(c, TableVisited(rows, front), visits[|visits| - 1])
  }

  // The visits lead from one table and history of posts to another.
  ghost predicate Visited(c: MetaCodec, rows: map<nat, Row>, posts: seq<Order>, visits: seq<Visit>,
                          rows': map<nat, Row>, posts': seq<Order>) {
    VisitsOk(c, rows, visits) && rows' == TableVisited(rows, visits) && posts' == PostsVisited(c, rows, posts, visits)
  }

  lemma OneMoreVisit(c: MetaCodec, rows: map<nat, Row>, posts: seq<Order>, visits: seq<Visit>,
                     rows': map<nat, Row>, posts': seq<Order>, v: Visit)
    requires Visited(c, rows, posts, visits, rows', posts') && VisitOk(c, rows', v)
    ensures Visited(c, rows, posts, visits + [v], AfterVisit(rows', v), posts' + VisitPosts(c, rows', v))
  {
    assert (visits + [v])[..|visits|] == visits;
  }

  method ReplayOne(vault: VaultClient, c: MetaCodec, row: Row) returns (ok: bool)
    modifies vault`posts
    ensures FromRow(c, row).None? ==> !ok && vault.posts == old(vault.posts)
    ensures FromRow(c, row).Some? ==>
      var n := |vault.posts| - |old(vault.posts)|;
      && 1 <= n <= MAX_RETRIES && vault.posts == old(vault.posts) + Copies(FromRow(c, row).value, n)
      && ok == Accepted(FromRow(c, row).value, vault.replies(|vault.posts| - 1))
           == CarriedOut(FromRow(c, row).value, vault.replies(|vault.posts| - 1))
  {
    var o := FromRow(c, row);
    if o.None? {
      return false;
    }
    ok := vault.Call(o.value);
  }

  lemma OneMoreFate(fates: map<nat, Fate>, i: nat, f: Fate, g: Fate)
    requires i !in fates
    ensures |IdsWith(fates[i := f], g)| == |IdsWith(fates, g)| + if g == f then 1 else 0
  {
    assert IdsWith(fates[i := f], g) == if g == f then IdsWith(fates, g) + {i} else IdsWith(fates, g);
  }

  lemma OneMoreRow(rows: map<nat, Row>, fates: map<nat, Fate>, i: nat, f: Fate)
    requires i in rows && i !in fates
    ensures var t, t' := TableAfter(rows, fates), TableAfter(rows, fates[i := f]);
      && i in t && t[i] == rows[i]
      && (RowAfter(rows[i], f).None? ==> t' == t - {i})
      && (RowAfter(rows[i], f).Some? ==> t' == t[i := RowAfter(rows[i], f).value])
  {
    var t, t' := TableAfter(rows, fates), TableAfter(rows, fates[i := f]);
    if RowAfter(rows[i], f).None? {
      assert forall j :: j in t' <==> j in t - {i};
      assert forall j :: j in t' ==> t'[j] == (t - {i})[j];
    } else {
      var e := t[i := RowAfter(rows[i], f).value];
      assert forall j :: j in t' <==> j in e;
      assert forall j :: j in t' ==> t'[j] == e[j];
    }
  }

  // A row that is not stale: replay it, then delete it or count the attempt.
  method ReplayRow(vault: VaultClient, db: PendingTable, c: MetaCodec, i: nat)
    returns (replayed: nat, failed: nat, ghost f: Fate)
    requires db.Valid() && i in db.rows
    modifies vault`posts, db`rows, db`writes
    ensures db.Valid() && !IsEviction(f) && (db.broken == {} ==> WrittenBack(f))
    ensures old(vault.posts) <= vault.posts && |vault.posts| <= |old(vault.posts)| + MAX_RETRIES
    ensures forall k :: |old(vault.posts)| <= k < |vault.posts| ==> FromRow(c, old(db.rows)[i]) == Some(vault.posts[k])
    ensures f.Replayed? ==> db.rows == old(db.rows) - {i}
    ensures f.Failed? ==> db.rows == old(db.rows)[i := old(db.rows)[i].(attempts := old(db.rows)[i].attempts + 1)]
    ensures !WrittenBack(f) ==> db.rows == old(db.rows)
    ensures ExplainedBy(c, old(db.rows)[i], f, vault.posts, vault.replies, |old(vault.posts)|, |vault.posts|)
    ensures replayed == if f.Replayed? then 1 else 0
    ensures failed == if f.Failed? || f.FailedUncounted? then 1 else 0
  {
    replayed, failed := 0, 0;
    var ok := ReplayOne(vault, c, db.rows[i]);
    if ok {
      var deleted := db.Delete(i);
      if deleted { replayed := 1; }
      f := if deleted then Replayed else ReplayedButKept;
    } else {
      var counted := db.IncrementAttempts(i);
      failed := 1;
      f := if counted then Failed else FailedUncounted;
    }
  }

  // What a pass does with one row; `rows` is the table it started from, `fates` what it did so far.
  method ReconcileRow(vault: VaultClient, db: PendingTable, c: MetaCodec, i: nat, ghost rows: map<nat, Row>,
                      ghost fates: map<nat, Fate>)
    returns (replayed: nat, failed: nat, evicted: nat, ghost f: Fate, ghost v: Visit)
    requires db.Valid() && i in rows && i !in fates && db.rows == TableAfter(rows, fates)
    modifies vault`posts, db`rows, db`writes
    ensures db.Valid() && db.rows == TableAfter(rows, fates[i := f])
    ensures IsEviction(f) <==> Stale(rows[i])
    ensures db.broken == {} ==> WrittenBack(f)
    ensures old(vault.posts) <= vault.posts && |vault.posts| <= |old(vault.posts)| + MAX_RETRIES
    ensures IsEviction(f) ==> vault.posts == old(vault.posts)
    ensures forall k :: |old(vault.posts)| <= k < |vault.posts| ==> FromRow(c, rows[i]) == Some(vault.posts[k])
    ensures Explained(c, rows[i], f, |old(vault.posts)|, vault.posts, vault.replies)
    ensures v.row == i && VisitOk(c, old(db.rows), v) && db.rows == AfterVisit(old(db.rows), v)
    ensures vault.posts == old(vault.posts) + VisitPosts(c, old(db.rows), v)
    ensures replayed == if f.Replayed? then 1 else 0
    ensures failed == if f.Failed? || f.FailedUncounted? then 1 else 0
    ensures evicted == if f.Evicted? then 1 else 0
  {
    replayed, failed, evicted := 0, 0, 0;
    OneMoreRow(rows, fates, i, EvictedButKept);
    if db.rows[i].attempts >= MAX_SETTLEMENT_ATTEMPTS {
      var deleted := db.Delete(i);
      if deleted { evicted := 1; }
      f := if deleted then Evicted else EvictedButKept;
    } else {
      replayed, failed, f := ReplayRow(vault, db, c, i);
    }
    OneMoreRow(rows, fates, i, f);
    assert RowAfter(rows[i], f) == Some(rows[i]) ==> db.rows == old(db.rows)[i := rows[i]];
    v := Visit(i, f, |vault.posts| - |old(vault.posts)|);
    PostsOfVisit(c, rows[i], old(vault.posts), vault.posts);
  }

  // All posts made for a row are the same.
  lemma PostsOfVisit(c: MetaCodec, row: Row, before: seq<Order>, after: seq<Order>)
    requires before <= after && forall k :: |before| <= k < |after| ==> FromRow(c, row) == Some(after[k])
    ensures FromRow(c, row).None? ==> after == before
    ensures FromRow(c, row).Some? ==> after == before + Copies(FromRow(c, row).value, |after| - |before|)
  {
    assert |after| > |before| ==> FromRow(c, row) == Some(after[|before|]);
  }

  // The counters are the numbers of fates they stand for.
  ghost predicate Counted(fates: map<nat, Fate>, replayed: nat, failed: nat, evicted: nat) {
    && replayed == |IdsWith(fates, Replayed)| && evicted == |IdsWith(fates, Evicted)|
    && failed == |IdsWith(fates, Failed)| + |IdsWith(fates, FailedUncounted)|
  }

  lemma CountOneMore(fates: map<nat, Fate>, i: nat, f: Fate, replayed: nat, failed: nat, evicted: nat)
    requires i !in fates && Counted(fates, replayed, failed, evicted)
    ensures Counted(fates[i := f],
      replayed + (if f.Replayed? then 1 else 0),
      failed + (if f.Failed? || f.FailedUncounted? then 1 else 0),
      evicted + (if f.Evicted? then 1 else 0))
  {
    OneMoreFate(fates, i, f, Replayed);
    OneMoreFate(fates, i, f, Failed);
    OneMoreFate(fates, i, f, Evicted);
    OneMoreFate(fates, i, f, FailedUncounted);
  }

  // A pass that has dealt with the rows `done`; its first post has number `from`.
  ghost predicate PassState(c: MetaCodec, rows: map<nat, Row>, done: seq<nat>, fates: map<nat, Fate>,
                            from: nat, posts: seq<Order>, replies: nat -> Reply, dbRows: map<nat, Row>, works: bool) {
    && (forall i :: i in fates && i in rows ==> Explained(c, rows[i], fates[i], from, posts, replies))
    && dbRows == TableAfter(rows, fates)
    && (forall i :: i in fates <==> i in done)
    && FatesFit(rows, fates)
    && (works ==> forall i :: i in fates ==> WrittenBack(fates[i]))
    && PostsAreReplays(c, rows, fates, from, posts)
    && from <= |posts| <= from + MAX_RETRIES * |done|
  }

  lemma StillExplained(c: MetaCodec, row: Row, f: Fate, from: nat, posts: seq<Order>, posts': seq<Order>,
                       replies: nat -> Reply, from': nat)
    requires posts <= posts' && from' <= from
    requires Explained(c, row, f, from, posts, replies) || Explained(c, row, f, from, posts', replies)
    ensures Explained(c, row, f, from', posts', replies)
  {
    if !IsEviction(f) {
      var all := if Explained(c, row, f, from, posts, replies) then posts else posts';
      var a, b :| from <= a && ExplainedBy(c, row, f, all, replies, a, b);
      assert ExplainedBy(c, row, f, posts', replies, a, b);
    }
  }

  lemma PassStep(c: MetaCodec, rows: map<nat, Row>, done: seq<nat>, fates: map<nat, Fate>, from: nat, posts: seq<Order>,
                 replies: nat -> Reply, dbRows: map<nat, Row>, works: bool, i: nat, f: Fate, posts': seq<Order>,
                 dbRows': map<nat, Row>)
    requires PassState(c, rows, done, fates, from, posts, replies, dbRows, works) && i in rows && i !in done
    requires (IsEviction(f) <==> Stale(rows[i])) && (works ==> WrittenBack(f))
    requires dbRows' == TableAfter(rows, fates[i := f])
    requires posts <= posts' && |posts'| <= |posts| + MAX_RETRIES
    requires IsEviction(f) ==> posts' == posts
    requires forall k :: |posts| <= k < |posts'| ==> FromRow(c, rows[i]) == Some(posts'[k])
    requires Explained(c, rows[i], f, |posts|, posts', replies)
    ensures PassState(c, rows, done + [i], fates[i := f], from, posts', replies, dbRows', works)
  {
    forall j | j in fates[i := f] && j in rows ensures Explained(c, rows[j], fates[i := f][j], from, posts', replies) {
      StillExplained(c, rows[j], fates[i := f][j], if j == i then |posts| else from, posts, posts', replies, from);
    }
    MorePosts(c, rows, fates, i, f, from, posts, posts');
  }

  /** One pass. Every row has exactly one fate, and it is the one the vault's replies to its posts call
      for; the counters count fates; the table afterwards is the table before with the fates applied;
      only rows that are not evicted are posted, each at most three times; and the backpressure flag
      says whether the table had reached the threshold. When the table cannot be counted, nothing changes;
      when its rows cannot be fetched, nothing but the flag. */
  method ReconcileOnce(vault: VaultClient, db: PendingTable, c: MetaCodec, countFails: bool, fetchFails: bool)
    returns (replayed: nat, failed: nat, evicted: nat, ghost fates: map<nat, Fate>, ghost visits: seq<Visit>)
    requires db.Valid()
    modifies vault, db`rows, db`writes
    ensures db.Valid()
    ensures vault.backpressure == if countFails then old(vault.backpressure)
      else |old(db.rows)| >= vault.pendingThreshold
    ensures fates.Keys == (if countFails || fetchFails then {} else old(db.rows).Keys) && FatesFit(old(db.rows), fates)
    ensures db.rows == TableAfter(old(db.rows), fates)
    ensures Counted(fates, replayed, failed, evicted)
    ensures db.broken == {} && !countFails && !fetchFails ==>
      IsPass(old(db.rows), fates, db.rows)
      && WorkingPass(c, Pass(old(db.rows), fates, db.rows, |old(vault.posts)|, vault.posts), vault.replies)
    ensures old(vault.posts) <= vault.posts
    ensures PostsAreReplays(c, old(db.rows), fates, |old(vault.posts)|, vault.posts)
    ensures forall i :: i in fates ==>
      Explained(c, old(db.rows)[i], fates[i], |old(vault.posts)|, vault.posts, vault.replies)
    ensures |vault.posts| - |old(vault.posts)| <= MAX_RETRIES * |fates|
    ensures Visited(c, old(db.rows), old(vault.posts), visits, db.rows, vault.posts)
  {
    ghost var rows := db.rows;
    replayed, failed, evicted, fates, visits := 0, 0, 0, map[], [];
    assert TableAfter(rows, map[]) == rows;
    if countFails { return; }
    var count := |db.rows|;
    vault.backpressure := count >= vault.pendingThreshold;
    if count == 0 {
      assert db.rows == map[];
      return;
    }
    if fetchFails { return; }
    var pending := db.Fetch();
    AsManyAsRows(pending, rows);
    replayed, failed, evicted, fates, visits := ReconcileRows(vault, db, c, pending);
    AllFates(rows, fates);
  }

  lemma AllFates(rows: map<nat, Row>, fates: map<nat, Fate>)
    requires forall i :: i in fates <==> i in rows
    ensures fates.Keys == rows.Keys && |fates| == |rows|
  {
    assert fates.Keys == rows.Keys;
    assert |fates| == |fates.Keys| && |rows| == |rows.Keys|;
  }

  // How a pass stands: what it has done, the visits it consists of so far and its counters.
  ghost predicate Under(c: MetaCodec, rows: map<nat, Row>, posts: seq<Order>, done: seq<nat>, fates: map<nat, Fate>,
                        visits: seq<Visit>, vault: VaultClient, db: PendingTable, replayed: nat, failed: nat,
                        evicted: nat)
    reads vault, db
  {
    && db.Valid() && posts <= vault.posts
    && PassState(c, rows, done, fates, |posts|, vault.posts, vault.replies, db.rows, db.broken == {})
    && Visited(c, rows, posts, visits, db.rows, vault.posts)
    && Counted(fates, replayed, failed, evicted)
  }

  // One turn of the loop over the fetched rows; `posts` are those made before the pass.
  method ReconcileNext(vault: VaultClient, db: PendingTable, c: MetaCodec, i: nat, ghost rows: map<nat, Row>,
                       ghost posts: seq<Order>, ghost done: seq<nat>, ghost fates: map<nat, Fate>,
                       ghost visits: seq<Visit>,
                       replayed: nat, failed: nat, evicted: nat)
    returns (replayed': nat, failed': nat, evicted': nat, ghost fates': map<nat, Fate>, ghost visits': seq<Visit>)
    requires i in rows && i !in done && Under(c, rows, posts, done, fates, visits, vault, db, replayed, failed, evicted)
    modifies vault`posts, db`rows, db`writes
    ensures Under(c, rows, posts, done + [i], fates', visits', vault, db, replayed', failed', evicted')
  {
    ghost var postsBefore, dbRows := vault.posts, db.rows;
    ghost var fate, v;
    replayed', failed', evicted', fate, v := ReconcileRow(vault, db, c, i, rows, fates);
    PassStep(c, rows, done, fates, |posts|, postsBefore, vault.replies, dbRows, db.broken == {}, i, fate,
             vault.posts, db.rows);
    OneMoreVisit(c, rows, posts, visits, dbRows, postsBefore, v);
    CountOneMore(fates, i, fate, replayed, failed, evicted);
    fates', visits' := fates[i := fate], visits + [v];
    replayed', failed', evicted' := replayed + replayed', failed + failed', evicted + evicted';
  }

  // Every row, once.
  ghost predicate AllOnce(pending: seq<nat>, rows: map<nat, Row>) {
    && (forall i :: i in pending <==> i in rows)
    && (forall a, b :: 0 <= a < b < |pending| ==> pending[a] != pending[b])
  }

  lemma NotYetDone(pending: seq<nat>, rows: map<nat, Row>, k: nat)
    requires AllOnce(pending, rows) && k < |pending|
    ensures pending[k] in rows && pending[k] !in pending[..k] && pending[..k] + [pending[k]] == pending[..k + 1]
  {
    assert pending[k] in pending;
  }

  lemma PassStart(c: MetaCodec, rows: map<nat, Row>, posts: seq<Order>, replies: nat -> Reply, works: bool)
    ensures PassState(c, rows, [], map[], |posts|, posts, replies, rows, works) && Counted(map[], 0, 0, 0)
  {
    assert TableAfter(rows, map[]) == rows;
  }

  method ReconcileRows(vault: VaultClient, db: PendingTable, c: MetaCodec, pending: seq<nat>)
    returns (replayed: nat, failed: nat, evicted: nat, ghost fates: map<nat, Fate>, ghost visits: seq<Visit>)
    requires db.Valid() && AllOnce(pending, db.rows)
    modifies vault`posts, db`rows, db`writes
    ensures db.Valid() && old(vault.posts) <= vault.posts
    ensures PassState(c, old(db.rows), pending, fates, |old(vault.posts)|, vault.posts, vault.replies, db.rows,
                      db.broken == {})
    ensures Counted(fates, replayed, failed, evicted)
    ensures Visited(c, old(db.rows), old(vault.posts), visits, db.rows, vault.posts)
  {
    ghost var rows, posts := db.rows, vault.posts;
    replayed, failed, evicted, fates, visits := 0, 0, 0, map[], [];
    PassStart(c, rows, posts, vault.replies, db.broken == {});
    for k := 0 to |pending|
      invariant Under(c, rows, posts, pending[..k], fates, visits, vault, db, replayed, failed, evicted)
    {
      NotYetDone(pending, rows, k);
      replayed, failed, evicted, fates, visits :=
        ReconcileNext(vault, db, c, pending[k], rows, posts, pending[..k], fates, visits, replayed, failed, evicted);
    }
    assert pending[..|pending|] == pending;
  }

  // The fetched ids are as many as the rows.
  lemma AsManyAsRows(pending: seq<nat>, rows: map<nat, Row>)
    requires AllOnce(pending, rows)
    ensures |pending| == |rows|
  {
    DistinctCount(pending);
    assert Members(pending) == rows.Keys;
  }

  function Members(s: seq<nat>): set<nat> {
    set i | i in s
  }

  lemma {:induction false} DistinctCount(s: seq<nat>)
    requires forall a, b :: 0 <= a < b < |s| ==> s[a] != s[b]
    ensures |Members(s)| == |s|
  {
    if s == [] {
      assert Members(s) == {};
    } else {
      DistinctCount(s[1..]);
      assert Members(s) == Members(s[1..]) + {s[0]};
    }
  }

  lemma MorePosts(c: MetaCodec, rows: map<nat, Row>, fates: map<nat, Fate>, i: nat, f: Fate, from: nat,
                  before: seq<Order>, after: seq<Order>)
    requires PostsAreReplays(c, rows, fates, from, before) && before <= after && i !in fates && i in rows
    requires IsEviction(f) ==> after == before
    requires forall k :: |before| <= k < |after| ==> FromRow(c, rows[i]) == Some(after[k])
    ensures PostsAreReplays(c, rows, fates[i := f], from, after)
  {
    var fates' := fates[i := f];
    forall k | from <= k < |after| ensures IsReplay(c, rows, fates', after[k]) {
      if k < |before| {
        assert before[k] == after[k] && IsReplay(c, rows, fates, before[k]);
        var j :| j in fates && j in rows && !IsEviction(fates[j]) && FromRow(c, rows[j]) == Some(before[k]);
        assert j in fates' && fates'[j] == fates[j];
      } else {
        assert i in fates' && fates'[i] == f;
      }
    }
  }

  // ----- passes with a working database

  // The rows after a pass are the failed ones, one attempt older.
  ghost predicate IsPass(rows: map<nat, Row>, fates: map<nat, Fate>, rows': map<nat, Row>) {
    && fates.Keys == rows.Keys && FatesFit(rows, fates) && rows' == TableAfter(rows, fates)
    && (forall i :: i in fates ==> WrittenBack(fates[i]))
  }

  /** Conservation: with a working database the counters add up to the rows there were, and the
      evicted rows are exactly the stale ones. */
  lemma PassConserves(rows: map<nat, Row>, fates: map<nat, Fate>)
    requires fates.Keys == rows.Keys && FatesFit(rows, fates) && forall i :: i in fates ==> WrittenBack(fates[i])
    ensures |IdsWith(fates, Replayed)| + |IdsWith(fates, Failed)| + |IdsWith(fates, Evicted)| == |rows|
    ensures IdsWith(fates, FailedUncounted) == {}
    ensures forall i :: i in rows ==> (i in IdsWith(fates, Evicted) <==> Stale(rows[i]))
  {
    var a, b, d := IdsWith(fates, Replayed), IdsWith(fates, Failed), IdsWith(fates, Evicted);
    assert a + b + d == rows.Keys;
    assert |a + b + d| == |a| + |b| + |d|;
    assert |rows.Keys| == |rows|;
  }

  // The rows with fewer than ten attempts whose last reply did not say that the order was carried out.
  function NotCarriedOut(rows: map<nat, Row>, fates: map<nat, Fate>): set<nat>
    requires fates.Keys == rows.Keys
  {
    set i | i in rows && rows[i].attempts < 10 && !fates[i].Replayed? && !fates[i].ReplayedButKept?
  }

  /** What is counted, working writes or not: as replayed the rows with fewer than ten attempts that are gone,
      as evicted the other rows that are gone, and as failed the rows with fewer than ten attempts whose
      order was not carried out. */
  lemma CountersMean(rows: map<nat, Row>, fates: map<nat, Fate>, replayed: nat, failed: nat, evicted: nat)
    requires fates.Keys == rows.Keys && FatesFit(rows, fates) && Counted(fates, replayed, failed, evicted)
    ensures replayed == |set i | i in rows && rows[i].attempts < 10 && i !in TableAfter(rows, fates)|
    ensures evicted == |set i | i in rows && rows[i].attempts >= 10 && i !in TableAfter(rows, fates)|
    ensures failed == |NotCarriedOut(rows, fates)|
  {
    forall i | i in rows ensures FateSays(rows, fates, TableAfter(rows, fates), i) {
      FateMeans(rows, fates, i);
    }
    CountsByFate(rows, fates, TableAfter(rows, fates));
    FailedByFate(rows, fates, TableAfter(rows, fates));
  }

  ghost predicate FateSays(rows: map<nat, Row>, fates: map<nat, Fate>, rows': map<nat, Row>, i: nat)
    requires i in rows && i in fates
  {
    && (fates[i].Replayed? <==> rows[i].attempts < 10 && i !in rows')
    && (fates[i].Evicted? <==> rows[i].attempts >= 10 && i !in rows')
    && (fates[i].Failed? || fates[i].FailedUncounted? <==>
         rows[i].attempts < 10 && !fates[i].Replayed? && !fates[i].ReplayedButKept?)
  }

  lemma CountsByFate(rows: map<nat, Row>, fates: map<nat, Fate>, rows': map<nat, Row>)
    requires fates.Keys == rows.Keys && forall i :: i in rows ==> FateSays(rows, fates, rows', i)
    ensures IdsWith(fates, Replayed) == set i | i in rows && rows[i].attempts < 10 && i !in rows'
    ensures IdsWith(fates, Evicted) == set i | i in rows && rows[i].attempts >= 10 && i !in rows'
  {
  }

  lemma FailedByFate(rows: map<nat, Row>, fates: map<nat, Fate>, rows': map<nat, Row>)
    requires fates.Keys == rows.Keys && forall i :: i in rows ==> FateSays(rows, fates, rows', i)
    ensures |IdsWith(fates, Failed)| + |IdsWith(fates, FailedUncounted)| ==
      |NotCarriedOut(rows, fates)|
  {
    forall i
      ensures i in IdsWith(fates, Failed) || i in IdsWith(fates, FailedUncounted) <==> i in NotCarriedOut(rows, fates)
    {
      assert i in rows ==> FateSays(rows, fates, rows', i);
    }
    CountUnion(IdsWith(fates, Failed), IdsWith(fates, FailedUncounted), NotCarriedOut(rows, fates));
  }

  lemma CountUnion(a: set<nat>, b: set<nat>, c: set<nat>)
    requires a !! b && forall i :: i in a || i in b <==> i in c
    ensures |a| + |b| == |c|
  {
    assert a + b == c;
  }

  lemma FateMeans(rows: map<nat, Row>, fates: map<nat, Fate>, i: nat)
    requires fates.Keys == rows.Keys && FatesFit(rows, fates) && i in rows
    ensures FateSays(rows, fates, TableAfter(rows, fates), i)
  {
    assert i in TableAfter(rows, fates) <==> RowAfter(rows[i], fates[i]).Some?;
  }

  /** The rows left are exactly the failed ones, with one more attempt. */
  lemma PassSurvivors(rows: map<nat, Row>, fates: map<nat, Fate>, rows': map<nat, Row>)
    requires IsPass(rows, fates, rows')
    ensures rows'.Keys == IdsWith(fates, Failed)
    ensures forall i :: i in rows' ==>
      i in rows && rows'[i] == rows[i].(attempts := rows[i].attempts + 1) && !Stale(rows[i])
  {
    forall i ensures i in rows' <==> i in IdsWith(fates, Failed) {
      assert i in rows ==> i in fates && WrittenBack(fates[i]);
    }
  }

  ghost predicate PassTo(rows: map<nat, Row>, rows': map<nat, Row>) {
    exists fates :: IsPass(rows, fates, rows')
  }

  ghost predicate ArePasses(tables: seq<map<nat, Row>>) {
    forall j, k :: 0 <= j && k == j + 1 && k < |tables| ==> PassTo(tables[j], tables[k])
  }

  lemma {:induction false} AttemptsGrow(tables: seq<map<nat, Row>>, k: nat, i: nat)
    requires ArePasses(tables) && k < |tables| && i in tables[k]
    ensures i in tables[0] && tables[k][i].attempts == tables[0][i].attempts + k
    ensures k > 0 ==> tables[k][i].attempts <= MAX_SETTLEMENT_ATTEMPTS
  {
    if k > 0 {
      assert PassTo(tables[k - 1], tables[k]);
      var fates :| IsPass(tables[k - 1], fates, tables[k]);
      PassSurvivors(tables[k - 1], fates, tables[k]);
      AttemptsGrow(tables, k - 1, i);
    }
  }

  /** Without new rows the table is empty after eleven passes, whatever the vault answers. */
  lemma ElevenPassesEmptyTheTable(tables: seq<map<nat, Row>>)
    requires ArePasses(tables) && |tables| == MAX_SETTLEMENT_ATTEMPTS + 2
    ensures tables[MAX_SETTLEMENT_ATTEMPTS + 1] == map[]
  {
    forall i | i in tables[11] ensures false {
      AttemptsGrow(tables, 11, i);
    }
    assert tables[11].Keys == {};
  }

  // A pass: the table before and after, and the posts there were and there are, the first `from` before it.
  datatype Pass = Pass(rows: map<nat, Row>, fates: map<nat, Fate>, rows': map<nat, Row>, from: nat, posts: seq<Order>)

  ghost predicate WorkingPass(c: MetaCodec, p: Pass, replies: nat -> Reply) {
    && IsPass(p.rows, p.fates, p.rows') && PostsAreReplays(c, p.rows, p.fates, p.from, p.posts)
    && (forall i :: i in p.rows ==> Explained(c, p.rows[i], p.fates[i], p.from, p.posts, replies))
    && (forall i, j :: i in p.rows && j in p.rows && p.rows[i].id == p.rows[j].id ==> i == j)
  }

  // What one pass left, the next one finds, and perhaps more.
  ghost predicate InSequence(passes: seq<Pass>) {
    forall k, i :: 0 < k < |passes| && i in passes[k - 1].rows' ==>
      i in passes[k].rows && passes[k].rows[i] == passes[k - 1].rows'[i]
  }

  // posts[a..b] are the one to three posts a pass made for the order.
  ghost predicate ReplayedAt(p: Pass, o: Order, a: nat, b: nat) {
    p.from <= a < b <= |p.posts| && b - a <= 3 && forall n :: a <= n < b ==> p.posts[n] == o
  }

  // The order was posted for, and its row deleted exactly if the last reply said that it was carried out.
  ghost predicate ReplayedAndJudged(p: Pass, o: Order, replies: nat -> Reply, i: nat, a: nat, b: nat) {
    ReplayedAt(p, o, a, b) && (i !in p.rows' <==> CarriedOut(o, replies(b - 1)))
  }

  ghost predicate NothingPosted(p: Pass, id: string) {
    forall k :: p.from <= k < |p.posts| ==> p.posts[k].id != id
  }

  // Entry i is the row of an order, replayed n times.
  ghost predicate RowFor(c: MetaCodec, o: Order, rows: map<nat, Row>, i: nat, n: nat) {
    i in rows && rows[i].attempts == n && FreshRow(c, o, rows[i].(attempts := 0))
  }

  lemma RowForMeans(c: MetaCodec, o: Order, rows: map<nat, Row>, i: nat, n: nat)
    requires RowFor(c, o, rows, i, n) && DecodesItsEncoding(c, o)
    ensures FromRow(c, rows[i]) == Some(o) && rows[i].id == o.id && (Stale(rows[i]) <==> n >= 10)
  {
    assert FromRow(c, rows[i]) == FromRow(c, rows[i].(attempts := 0));
  }

  /** What a pass does for an order whose row was replayed fewer than ten times: it posts for it, and deletes
      the row exactly if it was carried out; otherwise the row is one replay older. */
  lemma PassReplays(c: MetaCodec, o: Order, p: Pass, replies: nat -> Reply, i: nat, n: nat)
    requires WorkingPass(c, p, replies) && DecodesItsEncoding(c, o) && RowFor(c, o, p.rows, i, n) && n < 10
    ensures exists a, b :: ReplayedAndJudged(p, o, replies, i, a, b)
    ensures i in p.rows' ==> RowFor(c, o, p.rows', i, n + 1)
  {
    RowForMeans(c, o, p.rows, i, n);
    PassSurvivors(p.rows, p.fates, p.rows');
    assert Explained(c, p.rows[i], p.fates[i], p.from, p.posts, replies);
    var a, b :| p.from <= a && ExplainedBy(c, p.rows[i], p.fates[i], p.posts, replies, a, b);
    JudgedByTheLast(c, o, p, replies, i, a, b);
    assert i in p.rows' ==> p.rows'[i].(attempts := 0) == p.rows[i].(attempts := 0);
  }

  lemma JudgedByTheLast(c: MetaCodec, o: Order, p: Pass, replies: nat -> Reply, i: nat, a: nat, b: nat)
    requires i in p.rows && FromRow(c, p.rows[i]) == Some(o) && i in p.fates && p.from <= a
    requires ExplainedBy(c, p.rows[i], p.fates[i], p.posts, replies, a, b)
    requires WrittenBack(p.fates[i]) && !IsEviction(p.fates[i]) && (i in p.rows' <==> i in IdsWith(p.fates, Failed))
    ensures ReplayedAndJudged(p, o, replies, i, a, b)
  {
    assert p.posts[b - 1] == o;
    assert Accepted(o, replies(b - 1)) == CarriedOut(o, replies(b - 1));
  }

  /** After ten replays it deletes the row and posts nothing for it. */
  lemma PassEvicts(c: MetaCodec, o: Order, p: Pass, replies: nat -> Reply, i: nat, n: nat)
    requires WorkingPass(c, p, replies) && DecodesItsEncoding(c, o) && RowFor(c, o, p.rows, i, n) && n >= 10
    ensures i !in p.rows' && NothingPosted(p, o.id)
  {
    RowForMeans(c, o, p.rows, i, n);
    PassSurvivors(p.rows, p.fates, p.rows');
    NothingForEvicted(c, p, i);
  }

  lemma NothingForEvicted(c: MetaCodec, p: Pass, i: nat)
    requires PostsAreReplays(c, p.rows, p.fates, p.from, p.posts)
    requires i in p.rows && i in p.fates && IsEviction(p.fates[i])
    requires forall j :: j in p.rows && p.rows[j].id == p.rows[i].id ==> i == j
    ensures NothingPosted(p, p.rows[i].id)
  {
    forall k | p.from <= k < |p.posts| ensures p.posts[k].id != p.rows[i].id {
      assert IsReplay(c, p.rows, p.fates, p.posts[k]);
      var j :| j in p.fates && j in p.rows && !IsEviction(p.fates[j]) && FromRow(c, p.rows[j]) == Some(p.posts[k]);
      assert p.rows[j].id == p.posts[k].id && j != i;
    }
  }

  // No reply to a post for the order said that it was carried out.
  ghost predicate NeverCarriedOut(p: Pass, o: Order, replies: nat -> Reply) {
    forall n: nat :: p.from <= n < |p.posts| && p.posts[n] == o ==> !CarriedOut(o, replies(n))
  }

  ghost predicate AllInVain(c: MetaCodec, o: Order, passes: seq<Pass>, replies: nat -> Reply) {
    forall p :: p in passes ==> WorkingPass(c, p, replies) && NeverCarriedOut(p, o, replies)
  }

  lemma {:induction false} StoredOrderAt(c: MetaCodec, o: Order, passes: seq<Pass>, replies: nat -> Reply,
                                         i: nat, k: nat)
    requires DecodesItsEncoding(c, o) && k < |passes| && k <= 10 && InSequence(passes)
    requires AllInVain(c, o, passes, replies)
    requires RowFor(c, o, passes[0].rows, i, 0)
    ensures RowFor(c, o, passes[k].rows, i, k)
  {
    if k > 0 {
      StoredOrderAt(c, o, passes, replies, i, k - 1);
      assert passes[k - 1] in passes;
      StoredOrderStays(c, o, passes[k - 1], replies, i, k - 1);
      FoundAgain(c, o, passes, i, k);
    }
  }

  lemma FoundAgain(c: MetaCodec, o: Order, passes: seq<Pass>, i: nat, k: nat)
    requires 0 < k < |passes| && InSequence(passes) && RowFor(c, o, passes[k - 1].rows', i, k)
    ensures RowFor(c, o, passes[k].rows, i, k)
  {
  }

  /** An order as SpawnVaultCall stores it, with working writes and never carried out: each of the next ten
      passes posts for it and keeps its row; the eleventh, and none before, deletes the row, unposted. */
  lemma TenReplaysThenEvicted(c: MetaCodec, o: Order, passes: seq<Pass>, replies: nat -> Reply, i: nat, k: nat)
    requires DecodesItsEncoding(c, o) && k < |passes| && k <= 10 && InSequence(passes)
    requires AllInVain(c, o, passes, replies)
    requires i in passes[0].rows && FreshRow(c, o, passes[0].rows[i])
    ensures RowFor(c, o, passes[k].rows, i, k)
    ensures k < 10 ==> i in passes[k].rows' && exists a, b :: ReplayedAt(passes[k], o, a, b)
    ensures k == 10 ==> i !in passes[k].rows' && NothingPosted(passes[k], o.id)
  {
    assert passes[0].rows[i].(attempts := 0) == passes[0].rows[i];
    StoredOrderAt(c, o, passes, replies, i, k);
    assert passes[k] in passes;
    if k < 10 {
      StoredOrderStays(c, o, passes[k], replies, i, k);
    } else {
      PassEvicts(c, o, passes[k], replies, i, k);
    }
  }

  lemma StoredOrderStays(c: MetaCodec, o: Order, p: Pass, replies: nat -> Reply, i: nat, n: nat)
    requires WorkingPass(c, p, replies) && NeverCarriedOut(p, o, replies) && DecodesItsEncoding(c, o)
    requires RowFor(c, o, p.rows, i, n) && n < 10
    ensures RowFor(c, o, p.rows', i, n + 1) && exists a, b :: ReplayedAt(p, o, a, b)
  {
    PassReplays(c, o, p, replies, i, n);
    var a, b :| ReplayedAndJudged(p, o, replies, i, a, b);
    assert p.posts[b - 1] == o;
    assert ReplayedAt(p, o, a, b);
  }

  /** Eleven are needed: a row that always fails is still there after ten. */
  lemma TenPassesAreNotEnough(c: MetaCodec, o: Order)
    ensures exists tables: seq<map<nat, Row>> :: (
      && ArePasses(tables) && |tables| == MAX_SETTLEMENT_ATTEMPTS + 1
      && tables[0] == map[0 := ToRow(c, o)] && tables[MAX_SETTLEMENT_ATTEMPTS] != map[])
  {
    var row := ToRow(c, o);
    var tables: seq<map<nat, Row>> := seq(11, k => map[0 := row.(attempts := if k >= 0 then k else 0)]);
    forall j, k | 0 <= j && k == j + 1 && k < |tables| ensures PassTo(tables[j], tables[k]) {
      var fates: map<nat, Fate> := map[0 := Failed];
      assert TableAfter(tables[j], fates) == tables[k];
      assert IsPass(tables[j], fates, tables[k]);
    }
    assert 0 in tables[10];
    assert row.(attempts := 0) == row;
  }
}
