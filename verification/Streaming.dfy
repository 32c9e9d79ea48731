/** The background task of a streaming request, `handle_streaming_response` in
    src/proxy/handlers.rs: it relays the stream past the observer, then decides what becomes of the
    reservation. */
module Streaming {
  import opened Common
  import opened SseObserver
  import opened Reserve
  import Vault

  datatype Item = Chunk(bytes: Bytes) | Broken

  // The request as the task knows it.
  datatype Job = Job(rates: Rates, provider: string, durationMs: i64, reservation: Option<string>)

  const INCOMPLETE: string := "stream_incomplete_no_usage"

  // Tokens, cost and completion, as they are logged and sent in the trailing event.
  datatype Summary = Summary(tokensIn: Option<u32>, tokensOut: Option<u32>, cost: Option<real>, success: bool)

  // The event sent after the last item.
  datatype Trailing = Trailing(cost: Option<real>, durationMs: i64)

  function ChunksOf(items: seq<Item>): seq<Bytes> {
    if items == [] then []
    else
      var last := items[|items| - 1];
      ChunksOf(items[..|items| - 1]) + if last.Chunk? then [last.bytes] else []
  }

  function Summarize(r: Option<StreamResult>, rates: Rates): Summary {
    var usage := if r.Some? then r.value.usage else None;
    var success := r.Some? && r.value.doneReceived;
    if usage.None? then Summary(None, None, None, success)
    else
      var u := usage.value;
      Summary(Some(u.promptTokens), Some(u.completionTokens),
              Some(ActualCostSats(u.promptTokens, u.completionTokens, rates)), success)
  }

  function OrderFor(job: Job, id: string, s: Summary): Vault.Order {
    if s.success || s.cost.Some? then
      Vault.Settle(id, if s.cost.Some? then ToMsats(s.cost.value) else 0,
                   Vault.Metadata(s.tokensIn, s.tokensOut, job.provider, job.durationMs))
    else
      Vault.Release(id, INCOMPLETE)
  }

  // The disposition when the task finds result r in the handle.
  function Disposition(job: Job, r: Option<StreamResult>): Option<Vault.Order> {
    if job.reservation.None? then None
    else Some(OrderFor(job, job.reservation.value, Summarize(r, job.rates)))
  }

  lemma {:induction false} FeedOneMore(c: Codec, buffer: Bytes, s: Seen, chunks: seq<Bytes>, chunk: Bytes)
    ensures var (b', s') := FeedAll(c, buffer, s, chunks);
      FeedAll(c, buffer, s, chunks + [chunk]) == Fed(c, b', s', chunk)
    decreases |chunks|
  {
    if chunks == [] {
      assert ([] + [chunk])[1..] == [];
    } else {
      var (b', s') := Fed(c, buffer, s, chunks[0]);
      FeedOneMore(c, b', s', chunks[1..], chunk);
      assert (chunks + [chunk])[1..] == chunks[1..] + [chunk];
    }
  }

  lemma FeedItem(c: Codec, items: seq<Item>, k: nat)
    requires k < |items|
    ensures var (b, s) := FeedAll(c, [], NOTHING, ChunksOf(items[..k]));
      FeedAll(c, [], NOTHING, ChunksOf(items[..k + 1])) == if items[k].Chunk? then Fed(c, b, s, items[k].bytes)
        else (b, s)
  {
    assert items[..k + 1][..k] == items[..k];
    var chunks := ChunksOf(items[..k]);
    if items[k].Chunk? {
      FeedOneMore(c, [], NOTHING, chunks, items[k].bytes);
    } else {
      assert chunks + [] == chunks;
    }
  }

  /** The task, with n-th send to the client accepted iff `accepts(n)`. The client receives every item
      up to the first send that fails, and is sent the trailing event only if none did; the observer is
      fed every chunk regardless. But the result handle is read while the observer is still alive, so the
      result is never there: every stream is summarized as incomplete without usage, and every
      reservation released. The result arrives when the observer is dropped, after the decision. */
  method ForwardStream(c: Codec, items: seq<Item>, job: Job, accepts: nat -> bool)
    returns (delivered: seq<Item>, connected: bool, trailing: Option<Trailing>, summary: Summary,
             order: Option<Vault.Order>,
             handle: ResultHandle)
    ensures delivered <= items
    ensures forall n: nat :: n < |delivered| ==> accepts(n)
    ensures if connected then delivered == items else |delivered| < |items| && !accepts(|delivered|)
    ensures trailing == if delivered == items then Some(Trailing(None, job.durationMs)) else None
    ensures handle.slot == Some(ResultOf(Observed(c, ChunksOf(items))))
    ensures summary == Summarize(None, job.rates) == Summary(None, None, None, false)
    ensures order == Disposition(job, None)
    ensures order == if job.reservation.None? then None
                     else Some(Vault.Release(job.reservation.value, "stream_incomplete_no_usage"))
  {
    handle := new ResultHandle();
    var observer := new Observer(c, handle);
    delivered, connected := [], true;
    for k := 0 to |items|
      invariant observer.resultHandle == handle && handle.slot == None && observer.codec == c
      invariant fresh(observer) && fresh(handle)
      invariant (observer.buffer, observer.View()) == FeedAll(c, [], NOTHING, ChunksOf(items[..k]))
      invariant |delivered| <= k && delivered == items[..|delivered|]
      invariant forall n: nat :: n < |delivered| ==> accepts(n)
      invariant if connected then |delivered| == k else |delivered| < k && !accepts(|delivered|)
    {
      FeedItem(c, items, k);
      if items[k].Chunk? {
        observer.ProcessChunk(items[k].bytes);
      }
      if connected {
        if accepts(|delivered|) {
          delivered := delivered + [items[k]];
        } else {
          connected := false;
        }
      }
    }
    assert items[..|items|] == items;
    var result := handle.slot;
    handle.slot := None;
    summary := Summarize(result, job.rates);
    trailing := if connected then Some(Trailing(summary.cost, job.durationMs)) else None;
    order := if job.reservation.Some? then Some(OrderFor(job, job.reservation.value, summary)) else None;
    observer.Drop();
  }

  // ----- what the decision would be, and when it is

  // Some line of what reached the observer says [DONE].
  predicate SaysDone(c: Codec, items: seq<Item>) {
    SomeLineDone(c, Lines(Surviving([], ChunksOf(items))))
  }

  // The usage reported last.
  function LastUsage(c: Codec, items: seq<Item>): Option<Usage> {
    LastIn(Lines(Surviving([], ChunksOf(items))), UsageIn(c))
  }

  // Its price in msats, as far as 64 bits go.
  function PriceOf(u: Option<Usage>, rates: Rates): nat {
    if u.None? then 0
    else
      var price := u.value.promptTokens * rates.input + u.value.completionTokens * rates.output + 1000 * rates.baseFee;
      if price < 0x1_0000_0000_0000_0000 then price else 0xFFFF_FFFF_FFFF_FFFF
  }

  /** Decided on the observer's result, a reservation is settled if and only if [DONE] was seen, at the
      price and with the tokens of the last usage reported: the second condition of the source, usage
      without [DONE], never adds a case, because the result withholds usage then. */
  lemma SettledIffDone(c: Codec, items: seq<Item>, job: Job)
    requires job.reservation.Some?
    ensures var o, u := Disposition(job, Some(ResultOf(Observed(c, ChunksOf(items))))), LastUsage(c, items);
      o == Some(
        if SaysDone(c, items) then
          Vault.Settle(job.reservation.value, PriceOf(u, job.rates), Vault.Metadata(
            if u.Some? then Some(u.value.promptTokens) else None,
            if u.Some? then Some(u.value.completionTokens) else None, job.provider, job.durationMs))
        else
          Vault.Release(job.reservation.value, "stream_incomplete_no_usage"))
  {
    ResultNeedsDone(c, ChunksOf(items));
    var u := LastUsage(c, items);
    if u.Some? {
      ActualCostIsPrice(u.value.promptTokens, u.value.completionTokens, job.rates);
    }
  }

  /** The decision the task makes is the one its result calls for exactly when the stream does not say
      [DONE] (or there is nothing reserved): every stream that completes is released instead of
      settled, and logged as incomplete, without tokens. */
  lemma DecisionIsRightIff(c: Codec, items: seq<Item>, job: Job)
    ensures var due := Some(ResultOf(Observed(c, ChunksOf(items))));
      && (Disposition(job, None) == Disposition(job, due) <==> job.reservation.None? || !SaysDone(c, items))
      && (Summarize(None, job.rates) == Summarize(due, job.rates) <==> !SaysDone(c, items))
  {
    ResultNeedsDone(c, ChunksOf(items));
    if job.reservation.Some? {
      SettledIffDone(c, items, job);
    }
  }

  /** The shortest stream that is decided wrongly. */
  lemma ReleasedThoughDone(c: Codec, id: string, rates: Rates, provider: string, ms: i64)
    requires c.validUtf8(DATA_SPACE + DONE) && c.trim(DONE) == DONE
    ensures var items, job := [Chunk(DATA_SPACE + DONE)], Job(rates, provider, ms, Some(id));
      && SaysDone(c, items)
      && Disposition(job, Some(ResultOf(Observed(c, ChunksOf(items))))).value.Settle?
      && Disposition(job, None) == Some(Vault.Release(id, INCOMPLETE))
  {
    var line: Bytes := DATA_SPACE + DONE;
    var items := [Chunk(line)];
    assert ChunksOf(items) == [line] by {
      assert items[..0] == [];
    }
    assert Surviving([], [line]) == line by {
      assert [] + line == line && [line][1..] == [];
      LinesOfOne(line);
      assert LastLine(line) == line && CompleteLines(line) == [];
    }
    LinesOfOne(line);
    assert IsDone(c, Lines(line)[0]) by {
      assert line[..5] == DATA && line[5] == 32 && line[6..] == DONE;
    }
    SettledIffDone(c, items, Job(rates, provider, ms, Some(id)));
  }
}
