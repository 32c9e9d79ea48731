/** The breaker of one provider: `CircuitBreakerInner` in src/proxy/circuit_breaker.rs.
    The transition functions say what each call does to the fields; the class carries
    them out in place; the lemmas are about every sequence of calls, in or out of the
    state a call is documented for. */
module CircuitBreaker {
  import opened Common

  type Instant = nat // nanoseconds of a monotone clock

  const FAILURE_THRESHOLD: nat := 3
  const OPEN_DURATION: nat := 30_000_000_000

  datatype CircuitState = Closed | Open | HalfOpen

  datatype CheckResult = Allowed | ProbePermit | WaitForProbe | Rejected

  datatype LastError = LastError(errorType: string, message: string)

  datatype Breaker = Breaker(
    state: CircuitState,
    failureCount: u32,
    openedAt: Option<Instant>,
    lastFailureTime: Option<Instant>,
    lastSuccessTime: Option<Instant>,
    lastError: Option<LastError>,
    tripCount: u32,
    probeInFlight: bool)

  const NEW_BREAKER: Breaker := Breaker(Closed, 0, None, None, None, None, 0, false)

  // `Instant::duration_since` saturates at zero.
  function Elapsed(since: Instant, now: Instant): nat {
    if now >= since then now - since else 0
  }

  function TryAcquire(b: Breaker): (Breaker, CheckResult) {
    if !b.probeInFlight then (b.(probeInFlight := true), ProbePermit) else (b, WaitForProbe)
  }

  function Checked(b: Breaker, now: Instant): (Breaker, CheckResult) {
    match b.state
    case Closed => (b, Allowed)
    case Open =>
      if b.openedAt.Some? && Elapsed(b.openedAt.value, now) >= OPEN_DURATION then
        TryAcquire(b.(state := HalfOpen, probeInFlight := false))
      else
        (b, Rejected)
    case HalfOpen => TryAcquire(b)
  }

  function AfterFailure(b: Breaker, now: Instant, e: LastError): Breaker {
    var counted := b.(failureCount := Add32(b.failureCount, 1), lastFailureTime := Some(now), lastError := Some(e));
    if counted.failureCount >= FAILURE_THRESHOLD then
      counted.(state := Open, openedAt := Some(now), tripCount := Add32(b.tripCount, 1))
    else
      counted
  }

  function AfterSuccess(b: Breaker, now: Instant): Breaker {
    b.(failureCount := 0, lastSuccessTime := Some(now))
  }

  function AfterProbeSuccess(b: Breaker, now: Instant): Breaker {
    b.(state := Closed, failureCount := 0, probeInFlight := false, lastSuccessTime := Some(now))
  }

  function AfterProbeFailure(b: Breaker, now: Instant, e: LastError): Breaker {
    b.(state := Open, openedAt := Some(now), probeInFlight := false, lastError := Some(e))
  }

  class CircuitBreakerInner {
    var state: CircuitState
    var failureCount: u32
    var openedAt: Option<Instant>
    var lastFailureTime: Option<Instant>
    var lastSuccessTime: Option<Instant>
    var lastError: Option<LastError>
    var tripCount: u32
    var probeInFlight: bool

    ghost function View(): Breaker
      reads this
    {
      Breaker(state, failureCount, openedAt, lastFailureTime, lastSuccessTime, lastError, tripCount, probeInFlight)
    }

    constructor ()
      ensures View() == NEW_BREAKER
    {
      state := Closed;
      failureCount, tripCount := 0, 0;
      openedAt, lastFailureTime, lastSuccessTime, lastError := None, None, None, None;
      probeInFlight := false;
    }

    method CheckState(now: Instant) returns (r: CheckResult)
      modifies this
      ensures (View(), r) == Checked(old(View()), now)
    {
      match state {
        case Closed =>
          r := Allowed;
        case Open =>
          if openedAt.Some? && Elapsed(openedAt.value, now) >= OPEN_DURATION {
            state := HalfOpen;
            probeInFlight := false;
            r := TryAcquireProbe();
          } else {
            r := Rejected;
          }
        case HalfOpen =>
          r := TryAcquireProbe();
      }
    }

    method TryAcquireProbe() returns (r: CheckResult)
      modifies this
      ensures (View(), r) == TryAcquire(old(View()))
    {
      if !probeInFlight {
        probeInFlight := true;
        r := ProbePermit;
      } else {
        r := WaitForProbe;
      }
    }

    method RecordFailure(now: Instant, e: LastError)
      modifies this
      ensures View() == AfterFailure(old(View()), now, e)
    {
      failureCount := Add32(failureCount, 1);
      lastFailureTime := Some(now);
      lastError := Some(e);
      if failureCount >= FAILURE_THRESHOLD {
        state := Open;
        openedAt := Some(now);
        tripCount := Add32(tripCount, 1);
      }
    }

    method RecordSuccess(now: Instant)
      modifies this
      ensures View() == AfterSuccess(old(View()), now)
    {
      failureCount := 0;
      lastSuccessTime := Some(now);
    }

    method RecordProbeSuccess(now: Instant)
      modifies this
      ensures View() == AfterProbeSuccess(old(View()), now)
    {
      state := Closed;
      failureCount := 0;
      probeInFlight := false;
      lastSuccessTime := Some(now);
    }

    method RecordProbeFailure(now: Instant, e: LastError)
      modifies this
      ensures View() == AfterProbeFailure(old(View()), now, e)
    {
      state := Open;
      openedAt := Some(now);
      probeInFlight := false;
      lastError := Some(e);
    }
  }

  // ----- arbitrary histories of one breaker

  datatype Call =
    | Check
    | Failure(error: LastError)
    | Success
    | ProbeSuccess
    | ProbeFailure(error: LastError)

  datatype TimedCall = At(time: Instant, call: Call)

  function Apply(b: Breaker, c: TimedCall): Breaker {
    match c.call
    case Check => Checked(b, c.time).0
    case Failure(e) => AfterFailure(b, c.time, e)
    case Success => AfterSuccess(b, c.time)
    case ProbeSuccess => AfterProbeSuccess(b, c.time)
    case ProbeFailure(e) => AfterProbeFailure(b, c.time, e)
  }

  function Run(calls: seq<TimedCall>): Breaker {
    if calls == [] then NEW_BREAKER
    else Apply(Run(calls[..|calls| - 1]), calls[|calls| - 1])
  }

  ghost predicate MonotoneClock(calls: seq<TimedCall>) {
    forall i, j :: 0 <= i <= j < |calls| ==> calls[i].time <= calls[j].time
  }

  // Call i is a check that was answered with a probe permit.
  predicate Grants(calls: seq<TimedCall>, i: nat)
    requires i < |calls|
  {
    calls[i].call.Check? && Checked(Run(calls[..i]), calls[i].time).1 == ProbePermit
  }

  predicate Sound(b: Breaker) {
    && (b.state.Closed? ==> b.failureCount < FAILURE_THRESHOLD && !b.probeInFlight)
    && (b.state.HalfOpen? ==> b.probeInFlight)
    && (b.state.Open? ==> b.openedAt.Some?)
    && (b.failureCount > 0 ==> b.lastError.Some?)
  }

  lemma ApplyKeepsSound(b: Breaker, c: TimedCall)
    requires Sound(b)
    ensures Sound(Apply(b, c))
  {
  }

  /** The breaker invariant holds after any calls whatsoever, at any times. */
  lemma {:induction false} AlwaysSound(calls: seq<TimedCall>)
    ensures Sound(Run(calls))
  {
    if calls != [] {
      AlwaysSound(calls[..|calls| - 1]);
      ApplyKeepsSound(Run(calls[..|calls| - 1]), calls[|calls| - 1]);
    }
  }

  /** In every reachable state the answer of a check is decided by the state and the timer alone. */
  lemma CheckAnswers(calls: seq<TimedCall>, now: Instant)
    ensures var b, r := Run(calls), Checked(Run(calls), now).1;
      && (r == Allowed <==> b.state == Closed)
      && (r == WaitForProbe <==> b.state == HalfOpen)
      && (r == ProbePermit <==> b.state == Open && b.openedAt.Some? && now >= b.openedAt.value + OPEN_DURATION)
      && (r == Rejected <==> b.state == Open && b.openedAt.Some? && now < b.openedAt.value + OPEN_DURATION)
  {
    AlwaysSound(calls);
  }

  // ----- the failure counter

  predicate IsReset(c: Call) {
    c.Success? || c.ProbeSuccess?
  }

  function CountFailures(calls: seq<TimedCall>): nat {
    if calls == [] then 0
    else CountFailures(calls[..|calls| - 1]) + if calls[|calls| - 1].call.Failure? then 1 else 0
  }

  // calls[k..] is what happened since the last success, probe success or creation.
  ghost predicate SinceReset(calls: seq<TimedCall>, k: nat) {
    && k <= |calls|
    && (k == 0 || IsReset(calls[k - 1].call))
    && (forall i :: k <= i < |calls| ==> !IsReset(calls[i].call))
  }

  /** The counter is the number of failures since the last reset, modulo its width. */
  lemma {:induction false} FailureCountIsConsecutive(calls: seq<TimedCall>, k: nat)
    requires SinceReset(calls, k)
    ensures Run(calls).failureCount == CountFailures(calls[k..]) % TWO_TO_THE_32
  {
    if k == |calls| {
      assert calls[k..] == [];
    } else {
      var front, last := calls[..|calls| - 1], calls[|calls| - 1];
      FailureCountIsConsecutive(front, k);
      assert calls[k..][..|calls[k..]| - 1] == front[k..] && calls[k..][|calls[k..]| - 1] == last;
      CountOneCall(Run(front), last, CountFailures(front[k..]));
    }
  }

  lemma CountOneCall(b: Breaker, c: TimedCall, n: nat)
    requires !IsReset(c.call) && b.failureCount == n % TWO_TO_THE_32
    ensures Apply(b, c).failureCount == (n + if c.call.Failure? then 1 else 0) % TWO_TO_THE_32
  {
  }

  /** A closed breaker opens on a failure exactly when it is the third since the last reset. */
  lemma OpensOnTheThirdFailure(calls: seq<TimedCall>, k: nat, now: Instant, e: LastError)
    requires SinceReset(calls, k) && Run(calls).state == Closed
    ensures AfterFailure(Run(calls), now, e).state == Open <==> CountFailures(calls[k..]) == FAILURE_THRESHOLD - 1
    ensures CountFailures(calls[k..]) < FAILURE_THRESHOLD
  {
    AlwaysSound(calls);
    FailureCountIsConsecutive(calls, k);
    ClosedFewFailures(calls, k);
  }

  lemma {:induction false} ClosedFewFailures(calls: seq<TimedCall>, k: nat)
    requires SinceReset(calls, k) && Run(calls).state == Closed
    ensures CountFailures(calls[k..]) < FAILURE_THRESHOLD
  {
    if k == |calls| {
      assert calls[k..] == [];
    } else {
      var front := calls[..|calls| - 1];
      assert calls[k..][..|calls[k..]| - 1] == front[k..];
      FailureCountIsConsecutive(front, k);
      ClosedFewFailures(front, k);
    }
  }

  // ----- what every failure does

  lemma CountOfFront(calls: seq<TimedCall>, k: nat)
    requires k < |calls|
    ensures CountFailures(calls[k..]) ==
      CountFailures(calls[..|calls| - 1][k..]) + if calls[|calls| - 1].call.Failure? then 1 else 0
  {
    assert calls[k..][..|calls[k..]| - 1] == calls[..|calls| - 1][k..];
  }

  /** A failure that is at least the third since the last reset opens the breaker from that moment on, even
      if it was open before: its timer starts again. Any other failure leaves state and timer alone. */
  lemma EveryFailureFromTheThird(calls: seq<TimedCall>, i: nat, k: nat)
    requires k <= i < |calls| && calls[i].call.Failure? && SinceReset(calls[..i + 1], k)
    ensures var before, after := Run(calls[..i]), Run(calls[..i + 1]);
      var n := CountFailures(calls[..i + 1][k..]) % 0x1_0000_0000; // the width of the counter
      && (n >= 3 ==> after.state == Open && after.openedAt == Some(calls[i].time))
      && (n < 3 ==> after.state == before.state && after.openedAt == before.openedAt)
  {
    var front := calls[..i];
    assert calls[..i + 1][..i] == front && calls[..i + 1][i] == calls[i];
    FrontSinceReset(calls, i, k);
    FailureCountIsConsecutive(front, k);
    CountOfFront(calls[..i + 1], k);
    OneFailure(Run(front), calls[i], CountFailures(front[k..]));
  }

  lemma FrontSinceReset(calls: seq<TimedCall>, i: nat, k: nat)
    requires k <= i < |calls| && SinceReset(calls[..i + 1], k)
    ensures SinceReset(calls[..i], k)
  {
    forall j | k <= j < i ensures !IsReset(calls[..i][j].call) {
      assert calls[..i + 1][j] == calls[..i][j];
    }
    assert k > 0 ==> calls[..i + 1][k - 1] == calls[..i][k - 1];
  }

  lemma OneFailure(b: Breaker, c: TimedCall, n: nat)
    requires c.call.Failure? && b.failureCount == n % TWO_TO_THE_32
    ensures var after := Apply(b, c);
      && ((n + 1) % TWO_TO_THE_32 >= 3 ==> after.state == Open && after.openedAt == Some(c.time))
      && ((n + 1) % TWO_TO_THE_32 < 3 ==> after.state == b.state && after.openedAt == b.openedAt)
  {
  }

  // If the breaker is open, it was not opened before g.
  predicate OpenedNotBefore(b: Breaker, g: Instant) {
    b.state.Open? ==> b.openedAt.Some? && b.openedAt.value >= g
  }

  lemma {:induction false} StaysOpenedAfter(calls: seq<TimedCall>, i: nat, j: nat, t: Instant)
    requires MonotoneClock(calls) && i < j <= |calls| && t <= calls[i].time
    requires OpenedNotBefore(Run(calls[..i + 1]), t)
    ensures OpenedNotBefore(Run(calls[..j]), t)
    decreases j
  {
    if j > i + 1 {
      assert calls[..j][..j - 1] == calls[..j - 1];
      StaysOpenedAfter(calls, i, j - 1, t);
    }
  }

  /** So no probe is granted for 30 seconds after such a failure, whatever else is called. */
  lemma QuietAfterFailure(calls: seq<TimedCall>, i: nat, k: nat, j: nat)
    requires MonotoneClock(calls) && k <= i < j < |calls| && calls[i].call.Failure? && SinceReset(calls[..i + 1], k)
    requires CountFailures(calls[..i + 1][k..]) % 0x1_0000_0000 >= 3 && Grants(calls, j)
    ensures calls[j].time >= calls[i].time + 30_000_000_000
  {
    EveryFailureFromTheThird(calls, i, k);
    StaysOpenedAfter(calls, i, j, calls[i].time);
    CheckAnswers(calls[..j], calls[j].time);
  }

  // ----- what is kept of a history

  // The failures since the last reset.
  function InARow(calls: seq<TimedCall>): nat {
    if calls == [] then 0
    else
      var front, last := calls[..|calls| - 1], calls[|calls| - 1].call;
      if last.Success? || last.ProbeSuccess? then 0 else InARow(front) + if last.Failure? then 1 else 0
  }

  // The last call is a failure that opens the breaker.
  predicate Trips(calls: seq<TimedCall>) {
    calls != [] && calls[|calls| - 1].call.Failure? && InARow(calls) % 0x1_0000_0000 >= 3
  }

  function TripsOf(calls: seq<TimedCall>): nat {
    if calls == [] then 0 else TripsOf(calls[..|calls| - 1]) + if Trips(calls) then 1 else 0
  }

  // The last moment at which what had happened until then was such.
  function LastTime(calls: seq<TimedCall>, such: seq<TimedCall> -> bool): Option<Instant> {
    if calls == [] then None
    else if such(calls) then Some(calls[|calls| - 1].time)
    else LastTime(calls[..|calls| - 1], such)
  }

  predicate Opens(calls: seq<TimedCall>) {
    Trips(calls) || (calls != [] && calls[|calls| - 1].call.ProbeFailure?)
  }

  predicate Fails(calls: seq<TimedCall>) {
    calls != [] && calls[|calls| - 1].call.Failure?
  }

  predicate Succeeds(calls: seq<TimedCall>) {
    calls != [] && (calls[|calls| - 1].call.Success? || calls[|calls| - 1].call.ProbeSuccess?)
  }

  function LatestError(calls: seq<TimedCall>): Option<LastError> {
    if calls == [] then None
    else
      var last := calls[|calls| - 1].call;
      if last.Failure? || last.ProbeFailure? then Some(last.error) else LatestError(calls[..|calls| - 1])
  }

  ghost predicate IsHistoryOf(calls: seq<TimedCall>, b: Breaker) {
    && b.failureCount == InARow(calls) % 0x1_0000_0000
    && b.openedAt == LastTime(calls, Opens)
    && b.tripCount == TripsOf(calls) % 0x1_0000_0000
    && b.lastFailureTime == LastTime(calls, Fails)
    && b.lastSuccessTime == LastTime(calls, Succeeds)
    && b.lastError == LatestError(calls)
  }

  /** Every other field is what its name says of the history: the timer runs from the last opening, by a
      third or later failure or by a failed probe; trips are counted, failed probes not among them; and
      the last failure, success and error are the latest. */
  lemma {:induction false} FieldsOfHistory(calls: seq<TimedCall>)
    ensures IsHistoryOf(calls, Run(calls))
  {
    if calls != [] {
      FieldsOfHistory(calls[..|calls| - 1]);
      CallEffect(Run(calls[..|calls| - 1]), calls[|calls| - 1], InARow(calls[..|calls| - 1]));
    }
  }

  // What one call does to the fields of a breaker that has counted n failures.
  lemma CallEffect(b: Breaker, c: TimedCall, n: nat)
    requires b.failureCount == n % TWO_TO_THE_32
    ensures var b' := Apply(b, c);
      var n' := if c.call.Success? || c.call.ProbeSuccess? then 0 else n + if c.call.Failure? then 1 else 0;
      && b'.failureCount == n' % TWO_TO_THE_32
      && b'.openedAt == (if (c.call.Failure? && b'.failureCount >= 3) || c.call.ProbeFailure?
                         then Some(c.time) else b.openedAt)
      && b'.tripCount == (if c.call.Failure? && b'.failureCount >= 3 then Add32(b.tripCount, 1) else b.tripCount)
      && b'.lastFailureTime == (if c.call.Failure? then Some(c.time) else b.lastFailureTime)
      && b'.lastSuccessTime == (if c.call.Success? || c.call.ProbeSuccess? then Some(c.time) else b.lastSuccessTime)
      && b'.lastError == (if c.call.Failure? || c.call.ProbeFailure? then Some(c.call.error) else b.lastError)
  {
  }

  // ----- spacing of probes

  lemma OpenedAfterGrant(calls: seq<TimedCall>, i: nat, j: nat)
    requires MonotoneClock(calls) && i < j <= |calls| && Grants(calls, i)
    ensures OpenedNotBefore(Run(calls[..j]), calls[i].time)
  {
    assert calls[..i + 1][..i] == calls[..i];
    StaysOpenedAfter(calls, i, j, calls[i].time);
  }

  /** Two permits of one breaker are at least OPEN_DURATION apart, for any calls in between. */
  lemma ProbeSpacing(calls: seq<TimedCall>, i: nat, j: nat)
    requires MonotoneClock(calls) && i < j < |calls| && Grants(calls, i) && Grants(calls, j)
    ensures calls[j].time >= calls[i].time + OPEN_DURATION
  {
    OpenedAfterGrant(calls, i, j);
    CheckAnswers(calls[..j], calls[j].time);
  }

  lemma GrantAfter(calls: seq<TimedCall>, h: seq<TimedCall>, t: Instant)
    requires h + [At(t, Check)] <= calls && Checked(Run(h), t).1 == ProbePermit
    ensures |h| < |calls| && Grants(calls, |h|) && calls[|h|].time == t
  {
    assert calls[..|h|] == h;
  }

  // The same, for two points of one history.
  lemma SpacedGrants(calls: seq<TimedCall>, h: seq<TimedCall>, t: Instant, h': seq<TimedCall>, t': Instant)
    requires MonotoneClock(calls) && h + [At(t, Check)] <= h' && h' + [At(t', Check)] <= calls
    requires Checked(Run(h), t).1 == ProbePermit && Checked(Run(h'), t').1 == ProbePermit
    ensures t' >= t + OPEN_DURATION
  {
    GrantAfter(calls, h, t);
    GrantAfter(calls, h', t');
    ProbeSpacing(calls, |h|, |h'|);
  }

  /** The bound is met with equality: a failed probe may be retried after exactly OPEN_DURATION. */
  lemma ProbeSpacingIsTight(t: Instant, e: LastError)
    ensures exists calls: seq<TimedCall>, i: nat, j: nat ::
      && i < j < |calls| && MonotoneClock(calls) && Grants(calls, i) && Grants(calls, j)
      && calls[i].time == t + OPEN_DURATION && calls[j].time == calls[i].time + OPEN_DURATION
  {
    var g := t + OPEN_DURATION;
    var calls := [At(t, ProbeFailure(e)), At(g, Check), At(g, ProbeFailure(e)), At(g + OPEN_DURATION, Check)];
    assert calls[..3][..2] == calls[..2] && calls[..2][..1] == calls[..1] && calls[..1][..0] == [];
    assert Grants(calls, 1) && Grants(calls, 3);
  }
}
