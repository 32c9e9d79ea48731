/** The two request paths of src/proxy/handlers.rs from the moment the candidates are resolved and
    the reservation is made: what they tell the breakers, the guard and the vault. The providers'
    replies, the client's disconnection and the clock are inputs; `clock(n)` is the time at the n-th
    point where a call may be recorded. */
module Handlers {
  import opened Common
  import opened CircuitBreaker
  import opened Registry
  import opened Reserve
  import Retry
  import SseObserver
  import Streaming
  import Vault

  predicate IsCircuitFailure(status: nat) {
    500 <= status < 600
  }

  function Decimal(n: nat): string {
    if n < 10 then ['0' + n as char] else Decimal(n / 10) + ['0' + (n % 10) as char]
  }

  function HttpError(kind: string, status: nat): LastError {
    LastError(kind, "HTTP " + Decimal(status))
  }

  const NOT_REACHED: LastError := LastError("not_reached", "different provider succeeded")
  const ALL_FAILED: LastError := LastError("5xx", "all providers failed")
  const TIMED_OUT: LastError := LastError("timeout", "retry chain timed out")

  // ----- events of a guard

  function ProbeCalls(events: seq<Event>): seq<Event> {
    if events == [] then []
    else
      var last := events[|events| - 1];
      ProbeCalls(events[..|events| - 1]) + if IsProbeCall(last) then [last] else []
  }

  // With a guard there is exactly one probe call, for the guarded provider and successful as told; without
  // a guard there is none.
  ghost predicate GuardResolvedOnce(events: seq<Event>, probe: Option<string>, success: bool) {
    if probe.None? then ProbeCalls(events) == []
    else exists e ::
      ProbeCalls(events) == [e] && e.provider == probe.value && (e.call.call.ProbeSuccess? <==> success)
  }

  lemma {:induction false} ProbeCallsConcat(a: seq<Event>, b: seq<Event>)
    ensures ProbeCalls(a + b) == ProbeCalls(a) + ProbeCalls(b)
  {
    if b == [] {
      assert a + b == a;
    } else {
      ProbeCallsConcat(a, b[..|b| - 1]);
      assert (a + b)[..|a + b| - 1] == a + b[..|b| - 1];
    }
  }

  lemma ProbeCallsOne(e: Event)
    ensures ProbeCalls([e]) == if IsProbeCall(e) then [e] else []
  {
    assert [e][..0] == [];
  }

  // ----- the non-streaming path

  datatype PathEnd = Answered(last: Retry.Call) | TimedOut | Dropped

  // The record_failure calls for the attempts, in order.
  function FailureEvents(attempts: seq<Retry.AttemptRecord>, clock: nat -> Instant): seq<Event> {
    if attempts == [] then []
    else
      var n := |attempts| - 1;
      var a := attempts[n];
      FailureEvents(attempts[..n], clock) +
        if IsCircuitFailure(a.status)
        then [Event(a.provider, At(clock(n), Failure(HttpError("5xx", a.status))))]
        else []
  }

  predicate Succeeded(end: PathEnd) {
    end.Answered? && end.last.reply.Good?
  }

  // The probed provider itself answered.
  predicate ProbeAnswered(probe: Option<string>, end: PathEnd) {
    Succeeded(end) && Some(end.last.provider) == probe
  }

  function WhyProbeFailed(end: PathEnd): LastError {
    if end.Dropped? then DROPPED
    else if end.TimedOut? then TIMED_OUT
    else if end.last.reply.Good? then NOT_REACHED
    else ALL_FAILED
  }

  // What is recorded after the attempts, at the times t and t'.
  function ClosingEvents(probe: Option<string>, end: PathEnd, t: Instant, t': Instant): seq<Event> {
    (if Succeeded(end) && !ProbeAnswered(probe, end) then [Event(end.last.provider, At(t, Success))] else []) +
    (if probe.None? then []
     else if ProbeAnswered(probe, end) then [Event(probe.value, At(t', ProbeSuccess))]
     else [Event(probe.value, At(t', ProbeFailure(WhyProbeFailed(end))))])
  }

  // A dropped handler leaves only the guard's call.
  function PathEvents(attempts: seq<Retry.AttemptRecord>, probe: Option<string>, end: PathEnd,
                      clock: nat -> Instant): seq<Event> {
    (if end.Dropped? then [] else FailureEvents(attempts, clock)) +
      ClosingEvents(probe, end, clock(|attempts|), clock(|attempts| + 1))
  }

  // What the answer says it used.
  datatype Answer = Answer(usage: Option<(u32, u32)>, rates: Rates)

  // A request's reservation, and how long it has taken so far.
  datatype Billing = Billing(reservation: Option<string>, latencyMs: i64)

  function SettleOrder(id: string, provider: string, a: Answer, latencyMs: i64): Vault.Order {
    var cost := if a.usage.Some? then ToMsats(ActualCostSats(a.usage.value.0, a.usage.value.1, a.rates)) else 0;
    Vault.Settle(id, cost, Vault.Metadata(
      if a.usage.Some? then Some(a.usage.value.0) else None,
      if a.usage.Some? then Some(a.usage.value.1) else None, provider, latencyMs))
  }

  function PathOrder(b: Billing, end: PathEnd, answer: Answer): Option<Vault.Order> {
    if b.reservation.None? then None
    else
      var id := b.reservation.value;
      match end
      case Dropped => None
      case TimedOut => Some(Vault.Release(id, "timeout"))
      case Answered(Call(p, Good)) => Some(SettleOrder(id, p, answer, b.latencyMs))
      case Answered(Call(_, Bad(status))) => Some(Vault.Release(id, "provider_error_" + Decimal(status)))
  }

  // What is due for a reservation: nothing if the client left; a settlement, at the price of the usage the
  // provider that answered reported, or at 0 if it reported none; else a release that says why.
  ghost predicate IsOrderDue(id: string, latencyMs: i64, end: PathEnd, a: Answer, order: Option<Vault.Order>) {
    match end
    case Dropped => order.None?
    case TimedOut => order == Some(Vault.Release(id, "timeout"))
    case Answered(last) =>
      if last.reply.Bad? then order == Some(Vault.Release(id, "provider_error_" + Decimal(last.reply.status)))
      else
        && order.Some? && order.value.Settle? && order.value.id == id
        && order.value.meta.provider == last.provider && order.value.meta.latencyMs == latencyMs
        && match a.usage
           case None => order.value.msats == 0 && order.value.meta.tokensIn.None? && order.value.meta.tokensOut.None?
           case Some((input, output)) =>
             var price := input * a.rates.input + output * a.rates.output + 1000 * a.rates.baseFee;
             && order.value.msats == (if price < 0x1_0000_0000_0000_0000 then price else 0xFFFF_FFFF_FFFF_FFFF)
             && order.value.meta.tokensIn == Some(input) && order.value.meta.tokensOut == Some(output)
  }

  lemma OrderIsDue(b: Billing, end: PathEnd, a: Answer)
    requires b.reservation.Some?
    ensures IsOrderDue(b.reservation.value, b.latencyMs, end, a, PathOrder(b, end, a))
  {
    if a.usage.Some? { ActualCostIsPrice(a.usage.value.0, a.usage.value.1, a.rates); }
  }

  // How far the retry run had come when the path ended.
  ghost predicate IsTrace(names: seq<string>, send: nat -> Retry.Reply, end: PathEnd,
                          attempts: seq<Retry.AttemptRecord>, made: nat)
    requires names != []
  {
    var run := Retry.FullRun(names, send);
    && made <= |run| && attempts == Retry.Failures(run[..made])
    && (end.Answered? ==> made == |run| > 0 && end.last == run[made - 1])
    && (!end.Answered? ==> made < |run|)
  }

  /** The path. `awaits` is how many awaits of the retry future complete before it is dropped, by the
      deadline or, if `gone`, with the whole handler. */
  method HandleNonStreamingPath(
    reg: CircuitBreakerRegistry, names: seq<string>, probe: Option<string>, billing: Billing,
    send: nat -> Retry.Reply, answers: string -> Answer, awaits: nat, gone: bool, clock: nat -> Instant)
    returns (end: PathEnd, attempts: seq<Retry.AttemptRecord>, order: Option<Vault.Order>, ghost made: nat)
    requires reg.Valid() && names != []
    modifies reg`log, reg.Footprint()
    ensures reg.Valid() && IsTrace(names, send, end, attempts, made)
    ensures if gone then !end.TimedOut? else !end.Dropped?
    ensures reg.log == old(reg.log) + PathEvents(attempts, probe, end, clock)
    ensures order == PathOrder(billing, end, answers(if end.Answered? then end.last.provider else ""))
    ensures billing.reservation.Some? ==>
      var answer := answers(if end.Answered? then end.last.provider else "");
      IsOrderDue(billing.reservation.value, billing.latencyMs, end, answer, order)
  {
    var guard: ProbeGuard? := null;
    if probe.Some? {
      guard := new ProbeGuard(reg, probe.value);
    }
    end, attempts, made := CallProviders(names, send, awaits, gone);
    Report(reg, guard, probe, attempts, end, clock);
    order := GiveOrder(billing, end, answers(if end.Answered? then end.last.provider else ""));
    if billing.reservation.Some? {
      OrderIsDue(billing, end, answers(if end.Answered? then end.last.provider else ""));
    }
  }

  method CallProviders(names: seq<string>, send: nat -> Retry.Reply, awaits: nat, gone: bool)
    returns (end: PathEnd, attempts: seq<Retry.AttemptRecord>, ghost made: nat)
    requires names != []
    ensures IsTrace(names, send, end, attempts, made)
    ensures if gone then !end.TimedOut? else !end.Dropped?
  {
    var shared := new Retry.AttemptLog();
    var ending;
    ending, made := Retry.RetryWithFallback(names, shared, send, awaits);
    attempts := shared.records;
    assert [] + Retry.Failures(Retry.FullRun(names, send)[..made]) == attempts;
    end := if ending.Finished? then Answered(ending.last) else if gone then Dropped else TimedOut;
  }

  method GiveOrder(b: Billing, end: PathEnd, answer: Answer) returns (order: Option<Vault.Order>)
    ensures order == PathOrder(b, end, answer)
  {
    order := None;
    if b.reservation.Some? {
      var id := b.reservation.value;
      match end {
        case Dropped =>
        case TimedOut =>
          order := Some(Vault.Release(id, "timeout"));
        case Answered(Call(p, Good)) =>
          order := Some(SettleOrder(id, p, answer, b.latencyMs));
        case Answered(Call(_, Bad(status))) =>
          order := Some(Vault.Release(id, "provider_error_" + Decimal(status)));
      }
    }
  }

  method Report(reg: CircuitBreakerRegistry, guard: ProbeGuard?, probe: Option<string>,
                attempts: seq<Retry.AttemptRecord>, end: PathEnd, clock: nat -> Instant)
    requires reg.Valid() && Guards(guard, reg, probe)
    modifies guard, reg`log, reg.Footprint()
    ensures reg.Valid() && reg.log == old(reg.log) + PathEvents(attempts, probe, end, clock)
  {
    var t, t' := clock(|attempts|), clock(|attempts| + 1);
    if end.Dropped? {
      if guard != null {
        guard.Drop(t');
      }
      assert reg.log == old(reg.log) + ClosingEvents(probe, end, t, t');
      assert PathEvents(attempts, probe, end, clock) == ClosingEvents(probe, end, t, t');
    } else {
      RecordAttempts(reg, attempts, clock);
      Resolve(reg, guard, probe, end, t, t');
    }
  }

  // A guard exists exactly for a granted probe.
  ghost predicate Guards(guard: ProbeGuard?, reg: CircuitBreakerRegistry, probe: Option<string>)
    reads guard
  {
    if probe.None? then guard == null
    else guard != null && guard.registry == reg && guard.provider == probe.value && !guard.resolved
  }

  method RecordAttempts(reg: CircuitBreakerRegistry, attempts: seq<Retry.AttemptRecord>, clock: nat -> Instant)
    requires reg.Valid()
    modifies reg`log, reg.Footprint()
    ensures reg.Valid() && reg.log == old(reg.log) + FailureEvents(attempts, clock)
  {
    for k := 0 to |attempts|
      invariant reg.Valid() && reg.log == old(reg.log) + FailureEvents(attempts[..k], clock)
    {
      assert attempts[..k + 1][..k] == attempts[..k];
      if IsCircuitFailure(attempts[k].status) {
        reg.RecordFailure(attempts[k].provider, clock(k), HttpError("5xx", attempts[k].status));
      }
    }
    assert attempts[..|attempts|] == attempts;
  }

  method Resolve(reg: CircuitBreakerRegistry, guard: ProbeGuard?, probe: Option<string>, end: PathEnd, t: Instant,
                 t': Instant)
    requires reg.Valid() && !end.Dropped? && Guards(guard, reg, probe)
    modifies guard, reg`log, reg.Footprint()
    ensures reg.Valid() && reg.log == old(reg.log) + ClosingEvents(probe, end, t, t')
  {
    if guard != null {
      match end {
        case Answered(Call(p, Good)) =>
          if p == probe.value {
            guard.Success(t');
          } else {
            reg.RecordSuccess(p, t);
            guard.Fail(t', NOT_REACHED);
          }
        case Answered(Call(_, Bad(_))) =>
          guard.Fail(t', ALL_FAILED);
        case TimedOut =>
          guard.Fail(t', TIMED_OUT);
      }
    } else if end.Answered? && end.last.reply.Good? {
      reg.RecordSuccess(end.last.provider, t);
    }
  }

  // ----- the streaming path

  datatype StreamEnd = Opened | SendFailed(status: nat) | Disconnected

  // What is recorded of the provider that was called.
  function SendCall(name: string, end: StreamEnd, t: Instant): seq<Event> {
    match end
    case Opened => [Event(name, At(t, Success))]
    case SendFailed(status) =>
      if IsCircuitFailure(status) then [Event(name, At(t, Failure(HttpError("5xx", status))))] else []
    case Disconnected => []
  }

  function GuardCall(name: string, probed: string, end: StreamEnd): Call {
    match end
    case Opened => if name == probed then ProbeSuccess else ProbeFailure(NOT_REACHED)
    case SendFailed(status) => ProbeFailure(HttpError(if IsCircuitFailure(status) then "5xx" else "non_5xx", status))
    case Disconnected => ProbeFailure(DROPPED)
  }

  function StreamingEvents(name: string, probe: Option<string>, end: StreamEnd, t: Instant, t': Instant): seq<Event> {
    SendCall(name, end, t) +
    if probe.None? then [] else [Event(probe.value, At(t', GuardCall(name, probe.value, end)))]
  }

  // The stream of a request that was opened.
  datatype Upstream = Upstream(codec: SseObserver.Codec, items: seq<Streaming.Item>, accepts: nat -> bool,
                               job: Streaming.Job)

  // What is recorded of the provider that was called, and the one call of the guard.
  predicate IsStreamReport(events: seq<Event>, name: string, probe: Option<string>, end: StreamEnd, t: Instant,
                           t': Instant) {
    var failed := end.SendFailed? && 500 <= end.status <= 599;
    var n := if end.Opened? || failed then 1 else 0;
    && |events| == n + (if probe.Some? then 1 else 0)
    && (end.Opened? ==> events[0] == Event(name, At(t, Success)))
    && (failed ==> events[0] == Event(name, At(t, Failure(LastError("5xx", "HTTP " + Decimal(end.status))))))
    && (probe.Some? ==>
         var why := match end
           case Opened => LastError("not_reached", "different provider succeeded")
           case SendFailed(status) => LastError(if failed then "5xx" else "non_5xx", "HTTP " + Decimal(status))
           case Disconnected => LastError("dropped", "probe dropped without resolution");
         var resolution := if end.Opened? && name == probe.value then ProbeSuccess else ProbeFailure(why);
         events[n] == Event(probe.value, At(t', resolution)))
  }

  lemma StreamReportIs(name: string, probe: Option<string>, end: StreamEnd, t: Instant, t': Instant)
    ensures IsStreamReport(StreamingEvents(name, probe, end, t, t'), name, probe, end, t, t')
  {
  }

  /** The path, and the task it leaves behind. `direct` is the order the handler gives and `later` the
      one of the task. */
  method HandleStreamingPath(
    reg: CircuitBreakerRegistry, names: seq<string>, probe: Option<string>, end: StreamEnd, up: Upstream,
    t: Instant, t': Instant)
    returns (direct: Option<Vault.Order>, later: Option<Vault.Order>)
    requires reg.Valid() && names != []
    modifies reg`log, reg.Footprint()
    ensures reg.Valid() && reg.log == old(reg.log) + StreamingEvents(names[0], probe, end, t, t')
    ensures var id := up.job.reservation;
      && (direct.Some? <==> id.Some? && end.SendFailed?) && (later.Some? <==> id.Some? && end.Opened?)
      && (direct.Some? ==> direct.value == Vault.Release(id.value, "streaming_send_error_" + Decimal(end.status)))
      && (later.Some? ==> later.value == Vault.Release(id.value, "stream_incomplete_no_usage"))
    ensures IsStreamReport(reg.log[|old(reg.log)|..], names[0], probe, end, t, t')
  {
    direct, later := None, None;
    var guard: ProbeGuard? := null;
    if probe.Some? {
      guard := new ProbeGuard(reg, probe.value);
    }
    if end.Opened? {
      var delivered, connected, trailing, summary, order, handle :=
        Streaming.ForwardStream(up.codec, up.items, up.job, up.accepts);
      later := order;
    }
    ReportStreaming(reg, guard, names[0], probe, end, t, t');
    StreamReportIs(names[0], probe, end, t, t');
    assert reg.log[|old(reg.log)|..] == StreamingEvents(names[0], probe, end, t, t');
    if end.SendFailed? && up.job.reservation.Some? {
      direct := Some(Vault.Release(up.job.reservation.value, "streaming_send_error_" + Decimal(end.status)));
    }
  }

  method ReportStreaming(reg: CircuitBreakerRegistry, guard: ProbeGuard?, name: string, probe: Option<string>,
                         end: StreamEnd,
                         t: Instant, t': Instant)
    requires reg.Valid() && Guards(guard, reg, probe)
    modifies guard, reg`log, reg.Footprint()
    ensures reg.Valid() && reg.log == old(reg.log) + StreamingEvents(name, probe, end, t, t')
  {
    ghost var send := SendCall(name, end, t);
    ghost var last := if probe.None? then [] else [Event(probe.value, At(t', GuardCall(name, probe.value, end)))];
    assert (reg.log + send) + last == reg.log + (send + last) == reg.log + StreamingEvents(name, probe, end, t, t');
    assert send == [] ==> reg.log + send == reg.log;
    match end {
      case Opened =>
        reg.RecordSuccess(name, t);
        if guard != null {
          if name == probe.value {
            guard.Success(t');
          } else {
            guard.Fail(t', NOT_REACHED);
          }
        }
      case SendFailed(status) =>
        if IsCircuitFailure(status) {
          reg.RecordFailure(name, t, HttpError("5xx", status));
        }
        if guard != null {
          guard.Fail(t', HttpError(if IsCircuitFailure(status) then "5xx" else "non_5xx", status));
        }
      case Disconnected =>
        if guard != null {
          guard.Drop(t');
        }
    }
  }

  // ----- what is recorded, event by event

  function Digits(s: string): nat {
    if s == [] then 0 else 10 * Digits(s[..|s| - 1]) + if '0' <= s[|s| - 1] <= '9' then (s[|s| - 1] - '0') as nat else 0
  }

  // The decimal digits of a status can be read back, and do not start with a zero.
  lemma {:induction false} DecimalReads(n: nat)
    ensures Digits(Decimal(n)) == n && Decimal(n) != "" && (n > 0 ==> Decimal(n)[0] != '0')
    ensures forall k :: 0 <= k < |Decimal(n)| ==> '0' <= Decimal(n)[k] <= '9'
  {
    if n >= 10 {
      DecimalReads(n / 10);
      assert Decimal(n)[..|Decimal(n)| - 1] == Decimal(n / 10);
    }
  }

  function ServerErrors(attempts: seq<Retry.AttemptRecord>): nat {
    if attempts == [] then 0
    else ServerErrors(attempts[..|attempts| - 1]) + if 500 <= attempts[|attempts| - 1].status <= 599 then 1 else 0
  }

  /** A failure is recorded for every attempt that met a server error, at its time and with its status, in
      the order of the attempts, and nothing else is. */
  lemma {:induction false} EveryServerErrorIsRecorded(attempts: seq<Retry.AttemptRecord>, clock: nat -> Instant, k: nat)
    ensures |FailureEvents(attempts, clock)| == ServerErrors(attempts)
    ensures k < |attempts| && 500 <= attempts[k].status <= 599 ==>
      && ServerErrors(attempts[..k]) < ServerErrors(attempts)
      && FailureEvents(attempts, clock)[ServerErrors(attempts[..k])] == Event(attempts[k].provider,
           At(clock(k), Failure(LastError("5xx", "HTTP " + Decimal(attempts[k].status)))))
    decreases |attempts|
  {
    if attempts != [] {
      var n := |attempts| - 1;
      EveryServerErrorIsRecorded(attempts[..n], clock, k);
      if k < n { assert attempts[..n][..k] == attempts[..k]; }
    }
  }

  // What is recorded of the provider that answered, and the one call of the guard.
  predicate IsClosing(events: seq<Event>, probe: Option<string>, end: PathEnd, t: Instant, t': Instant) {
    if Succeeded(end) then
      var answered := end.last.provider;
      if probe.None? then events == [Event(answered, At(t, Success))]
      else if probe.value == answered then events == [Event(answered, At(t', ProbeSuccess))]
      else
        var why := LastError("not_reached", "different provider succeeded");
        events == [Event(answered, At(t, Success)), Event(probe.value, At(t', ProbeFailure(why)))]
    else if probe.None? then events == []
    else
      var why := match end
        case Answered(_) => LastError("5xx", "all providers failed")
        case TimedOut => LastError("timeout", "retry chain timed out")
        case Dropped => LastError("dropped", "probe dropped without resolution");
      events == [Event(probe.value, At(t', ProbeFailure(why)))]
  }

  /** After the failures come the success of the provider that answered, unless it is the probed one, and the
      one call of the guard. A request that was dropped records the call of the guard alone. */
  lemma ThenTheGuard(attempts: seq<Retry.AttemptRecord>, probe: Option<string>, end: PathEnd, clock: nat -> Instant)
    ensures var events := PathEvents(attempts, probe, end, clock);
      var n := if end.Dropped? then 0 else ServerErrors(attempts);
      && n <= |events| && (!end.Dropped? ==> events[..n] == FailureEvents(attempts, clock))
      && IsClosing(events[n..], probe, end, clock(|attempts|), clock(|attempts| + 1))
  {
    var closing := ClosingEvents(probe, end, clock(|attempts|), clock(|attempts| + 1));
    EveryServerErrorIsRecorded(attempts, clock, 0);
    var failures := if end.Dropped? then [] else FailureEvents(attempts, clock);
    assert PathEvents(attempts, probe, end, clock) == failures + closing;
    ClosingIs(probe, end, clock(|attempts|), clock(|attempts| + 1));
  }

  lemma ClosingIs(probe: Option<string>, end: PathEnd, t: Instant, t': Instant)
    ensures IsClosing(ClosingEvents(probe, end, t, t'), probe, end, t, t')
  {
  }

  // ----- what the guard makes of it

  lemma {:induction false} NoProbeInFailures(attempts: seq<Retry.AttemptRecord>, clock: nat -> Instant)
    ensures ProbeCalls(FailureEvents(attempts, clock)) == []
  {
    if attempts != [] {
      var n := |attempts| - 1;
      var a := attempts[n];
      NoProbeInFailures(attempts[..n], clock);
      var e := Event(a.provider, At(clock(n), Failure(HttpError("5xx", a.status))));
      ProbeCallsOne(e);
      ProbeCallsConcat(FailureEvents(attempts[..n], clock), [e]);
      assert FailureEvents(attempts[..n], clock) + [] == FailureEvents(attempts[..n], clock);
    }
  }

  lemma ProbeCallsOfClosing(probe: Option<string>, end: PathEnd, t: Instant, t': Instant)
    ensures GuardResolvedOnce(ClosingEvents(probe, end, t, t'), probe, ProbeAnswered(probe, end))
    ensures probe.Some? ==> ClosingEvents(probe, end, t, t') != []
  {
    var events := ClosingEvents(probe, end, t, t');
    var first := if Succeeded(end) && !ProbeAnswered(probe, end) then [Event(end.last.provider, At(t, Success))]
      else [];
    if first != [] { ProbeCallsOne(first[0]); }
    if probe.Some? {
      var e := events[|events| - 1];
      ProbeCallsOne(e);
      assert events == first + [e];
      ProbeCallsConcat(first, [e]);
      assert ProbeCalls(events) == [e];
    } else {
      assert events == first;
    }
  }

  /** On every path through the non-streaming handler, timed out and cancelled ones included, the
      guard makes exactly one call, and a successful one exactly when the probed provider answered. */
  lemma NonStreamingGuard(attempts: seq<Retry.AttemptRecord>, probe: Option<string>, end: PathEnd,
                          clock: nat -> Instant)
    ensures GuardResolvedOnce(PathEvents(attempts, probe, end, clock), probe, ProbeAnswered(probe, end))
  {
    var failures := if end.Dropped? then [] else FailureEvents(attempts, clock);
    var closing := ClosingEvents(probe, end, clock(|attempts|), clock(|attempts| + 1));
    NoProbeInFailures(attempts, clock);
    ProbeCallsOfClosing(probe, end, clock(|attempts|), clock(|attempts| + 1));
    ProbeCallsConcat(failures, closing);
    assert ProbeCalls(PathEvents(attempts, probe, end, clock)) == ProbeCalls(closing);
  }

  lemma KindsDiffer(kind: string, status: nat)
    requires kind == "5xx" || kind == "non_5xx"
    ensures HttpError(kind, status) != NOT_REACHED && DROPPED != NOT_REACHED
  {
    assert |NOT_REACHED.errorType| == 11 && |DROPPED.errorType| == 7;
  }

  /** The provider called in the streaming handler is the one being probed, so "a different provider
      succeeded" is never recorded. */
  lemma NeverNotReached(name: string, probe: Option<string>, end: StreamEnd, t: Instant, t': Instant, k: nat)
    requires probe.Some? ==> probe.value == name
    requires k < |StreamingEvents(name, probe, end, t, t')|
    ensures StreamingEvents(name, probe, end, t, t')[k].provider == name
    ensures StreamingEvents(name, probe, end, t, t')[k].call.call != ProbeFailure(NOT_REACHED)
  {
    KindsDiffer("5xx", if end.SendFailed? then end.status else 0);
    KindsDiffer("non_5xx", if end.SendFailed? then end.status else 0);
  }

  lemma NoProbeInSend(name: string, end: StreamEnd, t: Instant)
    ensures ProbeCalls(SendCall(name, end, t)) == []
  {
    var events := SendCall(name, end, t);
    if events != [] {
      assert events == [events[0]];
      ProbeCallsOne(events[0]);
    }
  }

  /** And its guard, too, makes exactly one call on every path, successful exactly when the stream was opened. */
  lemma StreamingGuard(name: string, probe: Option<string>, end: StreamEnd, t: Instant, t': Instant)
    requires probe.Some? ==> probe.value == name
    ensures GuardResolvedOnce(StreamingEvents(name, probe, end, t, t'), probe, end.Opened?)
  {
    var first := SendCall(name, end, t);
    NoProbeInSend(name, end, t);
    if probe.Some? {
      var e := Event(name, At(t', GuardCall(name, name, end)));
      assert StreamingEvents(name, probe, end, t, t') == first + [e];
      ProbeCallsOne(e);
      ProbeCallsConcat(first, [e]);
    } else {
      assert StreamingEvents(name, probe, end, t, t') == first;
    }
  }

  // ----- the report of a handler

  function Always(now: Instant): nat -> Instant {
    (n: nat) => now
  }

  // What a handler with these candidates and this guard can report, all of it at one time: there is no
  // await between the end of its provider calls and the last of these calls.
  ghost predicate IsReport(names: seq<string>, probe: Option<string>, now: Instant, log: seq<Event>)
    requires names != []
  {
    || (exists end: StreamEnd :: log == StreamingEvents(names[0], probe, end, now, now))
    || (exists send, end: PathEnd, attempts, made ::
         IsTrace(names, send, end, attempts, made) && log == PathEvents(attempts, probe, end, Always(now)))
  }

  ghost predicate RecordsAt(log: seq<Event>, now: Instant) {
    forall k :: 0 <= k < |log| ==> log[k].call.time == now && IsRecord(log[k].call.call)
  }

  lemma {:induction false} FailureEventsShape(attempts: seq<Retry.AttemptRecord>, clock: nat -> Instant, now: Instant)
    requires forall n :: clock(n) == now
    ensures RecordsAt(FailureEvents(attempts, clock), now)
  {
    if attempts != [] {
      FailureEventsShape(attempts[..|attempts| - 1], clock, now);
      assert clock(|attempts| - 1) == now;
    }
  }

  lemma ReportHasShape(names: seq<string>, probe: Option<string>, now: Instant, log: seq<Event>)
    requires names != [] && IsReport(names, probe, now, log)
    ensures ReportShape(log, probe, now)
  {
    if exists end: StreamEnd :: log == StreamingEvents(names[0], probe, end, now, now) {
      var end: StreamEnd :| log == StreamingEvents(names[0], probe, end, now, now);
      StreamingShape(names[0], probe, end, now);
    } else {
      var send, end: PathEnd, attempts, made :|
        IsTrace(names, send, end, attempts, made) && log == PathEvents(attempts, probe, end, Always(now));
      PathShape(attempts, probe, end, Always(now), now);
    }
  }

  lemma StreamingShape(name: string, probe: Option<string>, end: StreamEnd, now: Instant)
    ensures ReportShape(StreamingEvents(name, probe, end, now, now), probe, now)
  {
  }

  lemma PathShape(attempts: seq<Retry.AttemptRecord>, probe: Option<string>, end: PathEnd, clock: nat -> Instant,
                  now: Instant)
    requires forall n :: clock(n) == now
    ensures ReportShape(PathEvents(attempts, probe, end, clock), probe, now)
  {
    FailureEventsShape(attempts, clock, now);
    assert clock(|attempts|) == now && clock(|attempts| + 1) == now;
  }
}
