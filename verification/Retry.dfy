/** Retry on the primary provider and one fallback: src/proxy/retry.rs. The replies of the
    providers and the moment of cancellation are inputs. */
module Retry {
  import opened Common

  const MAX_RETRIES: nat := 2

  datatype AttemptRecord = AttemptRecord(provider: string, status: nat)

  datatype Reply = Good | Bad(status: nat)

  // One call of `send_request` that has come back.
  datatype Call = Call(provider: string, reply: Reply)

  // How the future ends: with the outcome of its last call, or dropped at an await.
  datatype Ending = Finished(last: Call) | Cancelled

  predicate IsRetryable(status: nat) {
    status in {500, 502, 503, 504}
  }

  predicate RetryableFailure(r: Reply) {
    r.Bad? && IsRetryable(r.status)
  }

  // The attempts vector, shared with the caller so that it survives cancellation.
  class AttemptLog {
    var records: seq<AttemptRecord>

    constructor ()
      ensures records == []
    {
      records := [];
    }
  }

  // ----- the full run

  // Attempts of the primary from number k on; `send(n)` is the reply to the n-th call.
  function PrimaryCalls(primary: string, send: nat -> Reply, k: nat): seq<Call>
    requires k <= MAX_RETRIES + 1
    decreases MAX_RETRIES + 1 - k
  {
    if k > MAX_RETRIES then []
    else [Call(primary, send(k))] + if RetryableFailure(send(k)) then PrimaryCalls(primary, send, k + 1) else []
  }

  predicate PrimaryExhausted(send: nat -> Reply) {
    forall k: nat :: k <= MAX_RETRIES ==> RetryableFailure(send(k))
  }

  function FullRun(candidates: seq<string>, send: nat -> Reply): seq<Call>
    requires candidates != []
  {
    PrimaryCalls(candidates[0], send, 0) +
    if PrimaryExhausted(send) && |candidates| > 1 then [Call(candidates[1], send(MAX_RETRIES + 1))] else []
  }

  // The failed calls, in order.
  function Failures(calls: seq<Call>): seq<AttemptRecord> {
    if calls == [] then []
    else
      var last := calls[|calls| - 1];
      Failures(calls[..|calls| - 1]) + if last.reply.Bad? then [AttemptRecord(last.provider, last.reply.status)] else []
  }

  lemma FailuresAppend(calls: seq<Call>, c: Call)
    ensures Failures(calls + [c]) ==
      Failures(calls) + (if c.reply.Bad? then [AttemptRecord(c.provider, c.reply.status)] else [])
  {
    assert (calls + [c])[..|calls|] == calls;
  }

  lemma {:induction false} PrimaryCallsAt(primary: string, send: nat -> Reply, k: nat)
    requires k <= MAX_RETRIES + 1
    ensures var s := PrimaryCalls(primary, send, k);
      && |s| <= MAX_RETRIES + 1 - k && (k <= MAX_RETRIES ==> s != [])
      && (forall j :: 0 <= j < |s| ==> s[j] == Call(primary, send(k + j)))
      && (forall j :: 0 <= j < |s| - 1 ==> RetryableFailure(s[j].reply))
      && (|s| < MAX_RETRIES + 1 - k ==> s != [] && !RetryableFailure(s[|s| - 1].reply))
    decreases MAX_RETRIES + 1 - k
  {
    if k <= MAX_RETRIES {
      PrimaryCallsAt(primary, send, k + 1);
      var tail := PrimaryCalls(primary, send, k + 1);
      var s := PrimaryCalls(primary, send, k);
      forall j | 0 <= j < |s| ensures s[j] == Call(primary, send(k + j)) {
        if j > 0 { assert s[j] == tail[j - 1]; }
      }
      forall j | 0 <= j < |s| - 1 ensures RetryableFailure(s[j].reply) {
        if j > 0 { assert s[j] == tail[j - 1]; }
      }
    }
  }

  lemma PrimaryShape(primary: string, send: nat -> Reply)
    ensures var s := PrimaryCalls(primary, send, 0);
      && 1 <= |s| <= MAX_RETRIES + 1
      && (forall j :: 0 <= j < |s| ==> s[j] == Call(primary, send(j)))
      && (forall j :: 0 <= j < |s| - 1 ==> RetryableFailure(s[j].reply))
      && (PrimaryExhausted(send) <==> |s| == MAX_RETRIES + 1 && RetryableFailure(s[MAX_RETRIES].reply))
      && (|s| <= MAX_RETRIES ==> !RetryableFailure(s[|s| - 1].reply))
  {
    PrimaryCallsAt(primary, send, 0);
    var s := PrimaryCalls(primary, send, 0);
    assert forall j :: 0 <= j < |s| ==> s[j] == Call(primary, send(0 + j));
    if |s| == MAX_RETRIES + 1 && RetryableFailure(s[MAX_RETRIES].reply) {
      forall k: nat | k <= MAX_RETRIES ensures RetryableFailure(send(k)) {
        assert s[k] == Call(primary, send(k));
      }
    }
  }

  /** The shape of every full run: the n-th call gets the n-th reply; one to three calls go to the
      primary, all but the last of them retryable failures; a fourth goes to the second candidate,
      exactly when there is one and all three were retryable failures; any call but the last failed. */
  lemma FullRunShape(candidates: seq<string>, send: nat -> Reply)
    requires candidates != []
    ensures var run := FullRun(candidates, send);
      && 1 <= |run| <= MAX_RETRIES + 2
      && (forall k :: 0 <= k < |run| ==> run[k].reply == send(k))
      && (forall k :: 0 <= k < |run| && k <= MAX_RETRIES ==> run[k].provider == candidates[0])
      && (forall k :: 0 <= k < |run| - 1 ==> RetryableFailure(run[k].reply))
      && (|run| == MAX_RETRIES + 2 <==> PrimaryExhausted(send) && |candidates| > 1)
      && (|run| == MAX_RETRIES + 2 ==> run[MAX_RETRIES + 1].provider == candidates[1])
      && (|run| <= MAX_RETRIES ==> !RetryableFailure(run[|run| - 1].reply))
    ensures var run := FullRun(candidates, send);
      && |run| <= 4
      && (forall k :: 0 <= k < |run| - 1 ==> run[k].reply.Bad? && run[k].reply.status in {500, 502, 503, 504})
      && (|run| < 3 ==> run[|run| - 1].reply.Bad? ==> run[|run| - 1].reply.status !in {500, 502, 503, 504})
      && (|run| == 4 <==>
           |candidates| > 1 && forall k: nat :: k < 3 ==> send(k).Bad? && send(k).status in {500, 502, 503, 504})
  {
    PrimaryShape(candidates[0], send);
    var s, run := PrimaryCalls(candidates[0], send, 0), FullRun(candidates, send);
    if PrimaryExhausted(send) && |candidates| > 1 {
      assert run == s + [Call(candidates[1], send(MAX_RETRIES + 1))];
    } else {
      assert run == s;
    }
    assert forall k: nat :: RetryableFailure(send(k)) <==> send(k).Bad? && send(k).status in {500, 502, 503, 504};
  }

  /** What is recorded: every call of the run except the last one if it succeeded. */
  lemma AttemptsAreCalls(candidates: seq<string>, send: nat -> Reply, k: nat)
    requires candidates != []
    ensures var run := FullRun(candidates, send);
      |Failures(run)| == |run| - if run[|run| - 1].reply.Good? then 1 else 0
    ensures var run := FullRun(candidates, send);
      k < |Failures(run)| ==>
        run[k].reply.Bad? && Failures(run)[k] == AttemptRecord(run[k].provider, run[k].reply.status)
  {
    FullRunShape(candidates, send);
    var run := FullRun(candidates, send);
    CountFailures(run);
    if k < |Failures(run)| { FailureAt(run, k); }
  }

  lemma {:induction false} CountFailures(calls: seq<Call>)
    requires forall k :: 0 <= k < |calls| - 1 ==> calls[k].reply.Bad?
    ensures calls != [] ==> |Failures(calls)| == |calls| - if calls[|calls| - 1].reply.Good? then 1 else 0
  {
    if calls != [] {
      CountFailures(calls[..|calls| - 1]);
    }
  }

  lemma {:induction false} FailureAt(calls: seq<Call>, k: nat)
    requires k < |calls| && forall j :: 0 <= j <= k ==> calls[j].reply.Bad?
    ensures k < |Failures(calls)| && Failures(calls)[k] == AttemptRecord(calls[k].provider, calls[k].reply.status)
    decreases |calls|
  {
    if k < |calls| - 1 {
      FailureAt(calls[..|calls| - 1], k);
    } else {
      CountFailures(calls[..k]);
      assert calls[..k + 1] == calls;
    }
  }

  /** Wherever a run is cut off, what was recorded is a prefix of what the full run records. */
  lemma {:induction false} FailuresOfPrefix(calls: seq<Call>, n: nat)
    requires n <= |calls|
    ensures Failures(calls[..n]) <= Failures(calls)
  {
    if n == |calls| {
      assert calls[..n] == calls;
    } else {
      FailuresOfPrefix(calls[..|calls| - 1], n);
      assert calls[..|calls| - 1][..n] == calls[..n];
    }
  }

  // The log after the first `made` calls of the run.
  ghost predicate Recorded(run: seq<Call>, made: nat, before: seq<AttemptRecord>, records: seq<AttemptRecord>) {
    made <= |run| && records == before + Failures(run[..made])
  }

  lemma RecordOne(run: seq<Call>, made: nat, before: seq<AttemptRecord>, records: seq<AttemptRecord>)
    requires Recorded(run, made, before, records) && made < |run|
    ensures run[made].reply.Good? ==> Recorded(run, made + 1, before, records)
    ensures run[made].reply.Bad? ==>
      Recorded(run, made + 1, before, records + [AttemptRecord(run[made].provider, run[made].reply.status)])
  {
    FailuresAppend(run[..made], run[made]);
    assert run[..made + 1] == run[..made] + [run[made]];
  }

  /** The future. `awaits` is the number of awaits, sends and sleeps, that complete before it is
      dropped. Finished, it has made the calls of the full run and answers the last reply; dropped, it
      has made a prefix of them. Either way the log holds exactly the failures of the calls that came
      back. */
  method RetryWithFallback(candidates: seq<string>, attempts: AttemptLog, send: nat -> Reply, awaits: nat)
    returns (r: Ending, ghost made: nat)
    requires candidates != []
    modifies attempts
    ensures Recorded(FullRun(candidates, send), made, old(attempts.records), attempts.records)
    ensures r.Finished? ==> made == |FullRun(candidates, send)| > 0 && r.last == FullRun(candidates, send)[made - 1]
    ensures r.Cancelled? ==> made < |FullRun(candidates, send)| && awaits < 2 * made + 2
    ensures awaits >= 2 * |FullRun(candidates, send)| ==> r.Finished?
  {
    ghost var run := FullRun(candidates, send);
    FullRunShape(candidates, send);
    var left := awaits;
    var primary := candidates[0];
    var lastError := Good;
    made := 0;
    for attempt := 0 to MAX_RETRIES + 1
      invariant made == attempt && Recorded(run, made, old(attempts.records), attempts.records)
      invariant forall k: nat :: k < attempt ==> RetryableFailure(send(k))
      invariant attempt > 0 ==> lastError == send(attempt - 1)
      invariant left == awaits - if attempt == 0 then 0 else 2 * attempt - 1
    {
      MoreCalls(candidates, send, attempt);
      if attempt > 0 {
        if left == 0 { return Cancelled, made; } // in the backoff
        left := left - 1;
      }
      if left == 0 { return Cancelled, made; }
      left := left - 1;
      var reply := send(attempt);
      RecordOne(run, made, old(attempts.records), attempts.records);
      made := made + 1;
      match reply {
        case Good =>
          EndsAt(candidates, send, attempt);
          return Finished(Call(primary, reply)), made;
        case Bad(status) =>
          attempts.records := attempts.records + [AttemptRecord(primary, status)];
          if !IsRetryable(status) {
            EndsAt(candidates, send, attempt);
            return Finished(Call(primary, reply)), made;
          }
          lastError := reply;
      }
    }
    assert PrimaryExhausted(send);
    if |candidates| > 1 {
      if left == 0 { return Cancelled, made; }
      left := left - 1;
      var reply := send(MAX_RETRIES + 1);
      RecordOne(run, made, old(attempts.records), attempts.records);
      made := made + 1;
      if reply.Bad? {
        attempts.records := attempts.records + [AttemptRecord(candidates[1], reply.status)];
      }
      return Finished(Call(candidates[1], reply)), made;
    }
    r := Finished(Call(primary, lastError));
  }

  // After k retryable failures the run has a call number k ...
  lemma MoreCalls(candidates: seq<string>, send: nat -> Reply, k: nat)
    requires candidates != [] && k <= MAX_RETRIES && forall j: nat :: j < k ==> RetryableFailure(send(j))
    ensures k < |FullRun(candidates, send)|
  {
    FullRunShape(candidates, send);
  }

  // ... and it is the last if that call does not fail retryably.
  lemma EndsAt(candidates: seq<string>, send: nat -> Reply, k: nat)
    requires candidates != [] && k <= MAX_RETRIES && !RetryableFailure(send(k))
    requires forall j: nat :: j < k ==> RetryableFailure(send(j))
    ensures |FullRun(candidates, send)| == k + 1
  {
    FullRunShape(candidates, send);
    MoreCalls(candidates, send, k);
  }

  // ----- the header

  function CountOf(attempts: seq<AttemptRecord>, name: string): nat {
    if attempts == [] then 0
    else CountOf(attempts[..|attempts| - 1], name) + if attempts[|attempts| - 1].provider == name then 1 else 0
  }

  function Total(counts: seq<(string, nat)>): nat {
    if counts == [] then 0 else Total(counts[..|counts| - 1]) + counts[|counts| - 1].1
  }

  // Where a name appears first.
  function FirstAt(attempts: seq<AttemptRecord>, name: string): nat {
    if attempts == [] || attempts[0].provider == name then 0 else 1 + FirstAt(attempts[1..], name)
  }

  predicate Counts(attempts: seq<AttemptRecord>, counts: seq<(string, nat)>) {
    forall k :: 0 <= k < |counts| ==> counts[k].1 == CountOf(attempts, counts[k].0) > 0
  }

  predicate Listed(counts: seq<(string, nat)>, name: string) {
    exists k :: 0 <= k < |counts| && counts[k].0 == name
  }

  predicate Covers(attempts: seq<AttemptRecord>, counts: seq<(string, nat)>) {
    forall a :: 0 <= a < |attempts| ==> Listed(counts, attempts[a].provider)
  }

  predicate InOrder(attempts: seq<AttemptRecord>, counts: seq<(string, nat)>) {
    forall j, k :: 0 <= j < k < |counts| ==> FirstAt(attempts, counts[j].0) < FirstAt(attempts, counts[k].0)
  }

  // Each provider once, with its number of failures, in order of first appearance.
  predicate Tallies(attempts: seq<AttemptRecord>, counts: seq<(string, nat)>) {
    Counts(attempts, counts) && Covers(attempts, counts) && InOrder(attempts, counts) && Total(counts) == |attempts|
  }

  lemma {:induction false} TotalUpdate(counts: seq<(string, nat)>, k: nat, n: nat)
    requires k < |counts| && n >= counts[k].1
    ensures Total(counts[k := (counts[k].0, n)]) == Total(counts) + (n - counts[k].1)
  {
    var c' := counts[k := (counts[k].0, n)];
    if k == |counts| - 1 {
      assert c'[..|c'| - 1] == counts[..|counts| - 1];
    } else {
      TotalUpdate(counts[..|counts| - 1], k, n);
      assert c'[..|c'| - 1] == counts[..|counts| - 1][k := (counts[k].0, n)];
    }
  }

  lemma {:induction false} FirstAtAppend(attempts: seq<AttemptRecord>, a: AttemptRecord, name: string)
    ensures FirstAt(attempts, name) <= |attempts|
    ensures CountOf(attempts, name) > 0 <==> FirstAt(attempts, name) < |attempts|
    ensures FirstAt(attempts, name) < |attempts| ==> FirstAt(attempts + [a], name) == FirstAt(attempts, name)
    ensures FirstAt(attempts, name) == |attempts| && a.provider == name ==> FirstAt(attempts + [a], name) == |attempts|
  {
    if attempts == [] {
    } else {
      assert (attempts + [a])[1..] == attempts[1..] + [a];
      FirstAtAppend(attempts[1..], a, name);
      CountFromFront(attempts, name);
    }
  }

  lemma {:induction false} CountFromFront(attempts: seq<AttemptRecord>, name: string)
    requires attempts != []
    ensures CountOf(attempts, name) == CountOf(attempts[1..], name) + if attempts[0].provider == name then 1 else 0
  {
    if |attempts| > 1 {
      CountFromFront(attempts[..|attempts| - 1], name);
      assert attempts[..|attempts| - 1][1..] == attempts[1..][..|attempts[1..]| - 1];
    }
  }

  lemma CountAppend(attempts: seq<AttemptRecord>, a: AttemptRecord, name: string)
    ensures CountOf(attempts + [a], name) == CountOf(attempts, name) + if a.provider == name then 1 else 0
  {
    assert (attempts + [a])[..|attempts|] == attempts;
  }

  lemma TallyAgain(attempts: seq<AttemptRecord>, counts: seq<(string, nat)>, a: AttemptRecord, k: nat)
    requires Tallies(attempts, counts) && k < |counts| && counts[k].0 == a.provider
    ensures Tallies(attempts + [a], counts[k := (counts[k].0, counts[k].1 + 1)])
  {
    var all, counts' := attempts + [a], counts[k := (counts[k].0, counts[k].1 + 1)];
    TotalUpdate(counts, k, counts[k].1 + 1);
    forall j | 0 <= j < |counts| ensures
      && counts'[j].0 == counts[j].0
      && FirstAt(all, counts[j].0) == FirstAt(attempts, counts[j].0)
      && counts'[j].1 == CountOf(all, counts[j].0) > 0
    {
      CountAppend(attempts, a, counts[j].0);
      FirstAtAppend(attempts, a, counts[j].0);
      assert j < k ==> FirstAt(attempts, counts[j].0) < FirstAt(attempts, counts[k].0);
      assert k < j ==> FirstAt(attempts, counts[k].0) < FirstAt(attempts, counts[j].0);
    }
    assert counts'[k].0 == a.provider;
    forall b | 0 <= b < |all| ensures Listed(counts', all[b].provider) {
      if b < |attempts| {
        assert Listed(counts, attempts[b].provider);
        var j :| 0 <= j < |counts| && counts[j].0 == attempts[b].provider;
        assert counts'[j].0 == counts[j].0;
      }
    }
  }

  lemma TallyNew(attempts: seq<AttemptRecord>, counts: seq<(string, nat)>, a: AttemptRecord)
    requires Tallies(attempts, counts) && !Listed(counts, a.provider)
    ensures Tallies(attempts + [a], counts + [(a.provider, 1)])
  {
    var all, counts' := attempts + [a], counts + [(a.provider, 1)];
    NotCounted(attempts, counts, a.provider);
    FirstAtAppend(attempts, a, a.provider);
    CountAppend(attempts, a, a.provider);
    assert counts'[..|counts|] == counts;
    forall j | 0 <= j < |counts| ensures
      && counts'[j] == counts[j]
      && FirstAt(all, counts[j].0) == FirstAt(attempts, counts[j].0) < |attempts|
      && counts[j].1 == CountOf(all, counts[j].0) > 0
    {
      assert counts[j].0 != a.provider;
      CountAppend(attempts, a, counts[j].0);
      FirstAtAppend(attempts, a, counts[j].0);
    }
    CoversNew(attempts, counts, a);
  }

  lemma CoversNew(attempts: seq<AttemptRecord>, counts: seq<(string, nat)>, a: AttemptRecord)
    requires Covers(attempts, counts)
    ensures Covers(attempts + [a], counts + [(a.provider, 1)])
  {
    var all, counts' := attempts + [a], counts + [(a.provider, 1)];
    assert counts'[|counts|].0 == a.provider;
    forall b | 0 <= b < |all| ensures Listed(counts', all[b].provider) {
      if b < |attempts| {
        assert Listed(counts, attempts[b].provider);
        var j :| 0 <= j < |counts| && counts[j].0 == attempts[b].provider;
        assert counts'[j].0 == counts[j].0;
      }
    }
  }

  // A name without a tally has no attempts.
  lemma NotCounted(attempts: seq<AttemptRecord>, counts: seq<(string, nat)>, name: string)
    requires Covers(attempts, counts) && !Listed(counts, name)
    ensures CountOf(attempts, name) == 0
  {
    forall b | 0 <= b < |attempts| ensures attempts[b].provider != name {
      assert Listed(counts, attempts[b].provider);
    }
    NoneCounted(attempts, name);
  }

  lemma {:induction false} NoneCounted(attempts: seq<AttemptRecord>, name: string)
    requires forall b :: 0 <= b < |attempts| ==> attempts[b].provider != name
    ensures CountOf(attempts, name) == 0
  {
    if attempts != [] {
      NoneCounted(attempts[..|attempts| - 1], name);
    }
  }

  /** The counts the header is printed from; none for no attempts. */
  method FormatRetriesHeader(attempts: seq<AttemptRecord>) returns (r: Option<seq<(string, nat)>>)
    ensures r.None? <==> attempts == []
    ensures r.Some? ==> Tallies(attempts, r.value)
  {
    if attempts == [] {
      return None;
    }
    var counts: seq<(string, nat)> := [];
    for i := 0 to |attempts|
      invariant Tallies(attempts[..i], counts)
    {
      var k := 0;
      while k < |counts| && counts[k].0 != attempts[i].provider
        invariant k <= |counts|
        invariant forall j :: 0 <= j < k ==> counts[j].0 != attempts[i].provider
      {
        k := k + 1;
      }
      assert attempts[..i + 1] == attempts[..i] + [attempts[i]];
      if k < |counts| {
        TallyAgain(attempts[..i], counts, attempts[i], k);
        counts := counts[k := (counts[k].0, counts[k].1 + 1)];
      } else {
        TallyNew(attempts[..i], counts, attempts[i]);
        counts := counts + [(attempts[i].provider, 1)];
      }
    }
    assert attempts[..|attempts|] == attempts;
    r := Some(counts);
  }
}
