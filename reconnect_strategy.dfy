/**
 * Reconnection policy of the chat client: exponential back-off with an
 * optional random jitter and a cap, the rules that stop reconnecting, the
 * duplicate-login heuristic, and the manager that schedules the reconnect
 * timer in the timer registry.
 *
 * JavaScript numbers are modelled as exact reals where the delay is
 * computed; `rand` stands for the value Math.random() returns.
 */
module ReconnectStrategy {
  import opened Common
  import opened TimerRegistry

  /** Constructor options; an absent option is None, and 0 is falsy like an absent one. */
  datatype StrategyOptions = StrategyOptions(
    maxAttempts: Option<int>,
    baseDelay: Option<int>,
    maxDelay: Option<int>,
    backoffFactor: Option<int>,
    jitter: Option<bool>)

  datatype Strategy = Strategy(maxAttempts: int, baseDelay: int, maxDelay: int, backoffFactor: int, jitter: bool)

  /** JavaScript's `value || fallback` for a number. */
  function OrDefault(o: Option<int>, fallback: int): int
  {
    if o.Some? && o.value != 0 then o.value else fallback
  }

  /** new ReconnectStrategy(options). */
  function NewStrategy(opts: StrategyOptions): (s: Strategy)
    ensures s.backoffFactor != 0 && s.maxAttempts != 0 && s.baseDelay != 0 && s.maxDelay != 0
    ensures s.jitter <==> opts.jitter != Some(false)
  {
    Strategy(
      OrDefault(opts.maxAttempts, 10),
      OrDefault(opts.baseDelay, 1000),
      OrDefault(opts.maxDelay, 60000),
      OrDefault(opts.backoffFactor, 2),
      opts.jitter != Some(false))
  }

  const NoOptions: StrategyOptions := StrategyOptions(None, None, None, None, None)

  lemma DefaultStrategy()
    ensures NewStrategy(NoOptions) == Strategy(10, 1000, 60000, 2, true)
    ensures NewStrategy(StrategyOptions(Some(0), Some(0), Some(0), Some(0), None)) == NewStrategy(NoOptions)
  {
  }

  function PowNat(f: real, e: nat): (r: real)
    ensures f != 0.0 ==> r != 0.0
    ensures f >= 0.0 ==> r >= 0.0
  {
    if e == 0 then 1.0 else f * PowNat(f, e - 1)
  }

  /** Math.pow on an integer base and exponent; a zero base only with a non-negative exponent. */
  function Pow(f: int, e: int): real
    requires f != 0 || e >= 0
  {
    if e >= 0 then PowNat(f as real, e) else 1.0 / PowNat(f as real, -e)
  }

  /** Math.round: the nearest integer, halves rounded up. */
  function Round(x: real): int
  {
    (x + 0.5).Floor
  }

  function RMin(a: real, b: real): real
  {
    if a <= b then a else b
  }

  /** A connection that lasted more than 0 and less than 5000 ms. */
  predicate ShortConnection(duration: int)
  {
    0 < duration < 5000
  }

  /** The delay before jitter and cap: back-off from the base delay, doubled after a short connection. */
  function RawDelay(s: Strategy, attempt: int, duration: int): real
    requires s.backoffFactor != 0
  {
    var d := s.baseDelay as real * Pow(s.backoffFactor, attempt - 1);
    if ShortConnection(duration) then d * 2.0 else d
  }

  /** getDelay(attemptCount, connectionDuration). */
  function GetDelay(s: Strategy, attempt: int, duration: int, rand: real): (r: int)
    requires s.backoffFactor != 0
    requires 0.0 <= rand < 1.0
    ensures r <= s.maxDelay
  {
    var raw := RawDelay(s, attempt, duration);
    var amount := raw * 0.3;
    var jittered := if s.jitter then raw + rand * amount - amount / 2.0 else raw;
    Round(RMin(jittered, s.maxDelay as real))
  }

  function IntPow(f: int, e: nat): int
  {
    if e == 0 then 1 else f * IntPow(f, e - 1)
  }

  lemma {:induction false} PowNatOfInt(f: int, e: nat)
    ensures PowNat(f as real, e) == IntPow(f, e) as real
  {
    if e > 0 {
      PowNatOfInt(f, e - 1);
    }
  }

  lemma RoundOfInt(n: int)
    ensures Round(n as real) == n
  {
  }

  /** Without jitter the delay is the whole-number back-off, doubled after a short connection, capped at maxDelay. */
  lemma GetDelayWithoutJitter(s: Strategy, attempt: int, duration: int, rand: real)
    requires s.backoffFactor != 0 && !s.jitter && attempt >= 1 && 0.0 <= rand < 1.0
    ensures GetDelay(s, attempt, duration, rand) ==
      Min(s.baseDelay * IntPow(s.backoffFactor, attempt - 1) * (if ShortConnection(duration) then 2 else 1), s.maxDelay)
  {
    PowNatOfInt(s.backoffFactor, attempt - 1);
    var whole := s.baseDelay * IntPow(s.backoffFactor, attempt - 1) * (if ShortConnection(duration) then 2 else 1);
    assert RawDelay(s, attempt, duration) == whole as real;
    RoundOfInt(Min(whole, s.maxDelay));
  }

  lemma RoundMonotone(x: real, y: real)
    requires x <= y
    ensures Round(x) <= Round(y)
  {
  }

  /** With jitter the delay stays within 15% either side of the un-jittered delay, before the cap. */
  lemma GetDelayJitterBand(s: Strategy, attempt: int, duration: int, rand: real)
    requires s.backoffFactor != 0 && s.jitter && 0.0 <= rand < 1.0
    requires RawDelay(s, attempt, duration) >= 0.0
    ensures Round(RMin(0.85 * RawDelay(s, attempt, duration), s.maxDelay as real)) <= GetDelay(s, attempt, duration, rand)
    ensures GetDelay(s, attempt, duration, rand) <= Round(RMin(1.15 * RawDelay(s, attempt, duration), s.maxDelay as real))
  {
    var raw := RawDelay(s, attempt, duration);
    var amount := raw * 0.3;
    var jittered := raw + rand * amount - amount / 2.0;
    assert GetDelay(s, attempt, duration, rand) == Round(RMin(jittered, s.maxDelay as real));
    var part := rand * amount;
    MulNonNegative(rand, amount);
    MulNonNegative(1.0 - rand, amount);
    assert (1.0 - rand) * amount == amount - part;
    assert 0.0 <= part <= amount;
    assert jittered == raw + part - amount / 2.0;
    assert 0.85 * raw <= jittered <= 1.15 * raw;
    RoundMonotone(RMin(0.85 * raw, s.maxDelay as real), RMin(jittered, s.maxDelay as real));
    RoundMonotone(RMin(jittered, s.maxDelay as real), RMin(1.15 * raw, s.maxDelay as real));
  }

  lemma MulNonNegative(x: real, y: real)
    requires x >= 0.0 && y >= 0.0
    ensures x * y >= 0.0
  {
  }

  lemma {:induction false} PowNatMonotone(f: real, a: nat, b: nat)
    requires f >= 1.0 && a <= b
    ensures PowNat(f, a) <= PowNat(f, b)
    decreases b
  {
    if a < b {
      PowNatMonotone(f, a, b - 1);
      assert PowNat(f, b) == f * PowNat(f, b - 1);
      assert PowNat(f, b - 1) >= 0.0;
      MulNonNegative(f - 1.0, PowNat(f, b - 1));
    }
  }

  /** Without jitter, a later attempt never waits less. */
  lemma BackoffNeverShrinks(s: Strategy, a: int, b: int, duration: int, rand: real)
    requires s.backoffFactor >= 1 && s.baseDelay >= 0 && !s.jitter && 1 <= a <= b && 0.0 <= rand < 1.0
    ensures GetDelay(s, a, duration, rand) <= GetDelay(s, b, duration, rand)
  {
    PowNatMonotone(s.backoffFactor as real, a - 1, b - 1);
    var pa, pb := PowNat(s.backoffFactor as real, a - 1), PowNat(s.backoffFactor as real, b - 1);
    assert Pow(s.backoffFactor, a - 1) == pa && Pow(s.backoffFactor, b - 1) == pb;
    MulNonNegative(s.baseDelay as real, pb - pa);
    assert s.baseDelay as real * pa <= s.baseDelay as real * pb;
    assert RawDelay(s, a, duration) <= RawDelay(s, b, duration);
    RoundMonotone(RMin(RawDelay(s, a, duration), s.maxDelay as real), RMin(RawDelay(s, b, duration), s.maxDelay as real));
  }

  /** With default options and jitter off: 1 s, then doubling, until the 60 s cap from the seventh attempt. */
  lemma DefaultDelays()
    ensures GetDelay(NewStrategy(NoOptions).(jitter := false), 1, 0, 0.0) == 1000
    ensures GetDelay(NewStrategy(NoOptions).(jitter := false), 6, 0, 0.0) == 32000
    ensures GetDelay(NewStrategy(NoOptions).(jitter := false), 7, 0, 0.0) == 60000
    ensures GetDelay(NewStrategy(NoOptions).(jitter := false), 1, 1000, 0.0) == 2000
  {
    var s := NewStrategy(NoOptions).(jitter := false);
    GetDelayWithoutJitter(s, 1, 0, 0.0);
    GetDelayWithoutJitter(s, 6, 0, 0.0);
    GetDelayWithoutJitter(s, 7, 0, 0.0);
    GetDelayWithoutJitter(s, 1, 1000, 0.0);
    assert IntPow(2, 5) == 32;
    assert IntPow(2, 6) == 64;
  }

  /** What the caller knows about the closed connection; each flag is the truthiness of the context field. */
  datatype Context = Context(
    isKicked: bool,
    isPageHidden: bool,
    isOffline: bool,
    closeCode: Option<int>,
    connectionDuration: Option<int>,
    hasOnKicked: bool)

  /** shouldReconnect: the checks run in order and the first that applies refuses. */
  function ShouldReconnect(s: Strategy, attempt: int, ctx: Context): bool
  {
    if attempt >= s.maxAttempts then false
    else if ctx.isKicked then false
    else if ctx.isPageHidden then false
    else if ctx.isOffline then false
    else if ctx.closeCode == Some(1000) then false
    else true
  }

  /** Reconnecting is allowed exactly when no stop condition holds. */
  lemma ShouldReconnectIff(s: Strategy, attempt: int, ctx: Context)
    ensures ShouldReconnect(s, attempt, ctx) <==>
      attempt < s.maxAttempts && !ctx.isKicked && !ctx.isPageHidden && !ctx.isOffline && ctx.closeCode != Some(1000)
  {
  }

  /** detectDuplicateConnection: a short connection after five or more attempts looks like a second login. */
  predicate DetectDuplicateConnection(attempt: int, duration: int)
  {
    duration < 3000 && attempt >= 5
  }

  /** `context.connectionDuration || 0`. */
  function DurationOrZero(ctx: Context): int
  {
    if ctx.connectionDuration.Some? then ctx.connectionDuration.value else 0
  }

  class ReconnectManager {
    var strategy: Strategy
    var timerManager: TimerManager?
    var onReconnectCallback: Option<nat>

    constructor (strategy: Option<Strategy>, timerManager: TimerManager?)
      ensures this.strategy == if strategy.Some? then strategy.value else NewStrategy(NoOptions)
      ensures this.timerManager == timerManager && onReconnectCallback == None
    {
      this.strategy := if strategy.Some? then strategy.value else NewStrategy(NoOptions);
      this.timerManager := timerManager;
      onReconnectCallback := None;
    }

    method OnReconnect(callback: nat)
      modifies this
      ensures onReconnectCallback == Some(callback)
      ensures strategy == old(strategy) && timerManager == old(timerManager)
    {
      onReconnectCallback := Some(callback);
    }

    /**
     * scheduleReconnect: refuses when reconnecting is not allowed, refuses and
     * calls onKicked when the context looks like a second login, and otherwise
     * sets the "reconnect" timer (or an untracked browser timer without a
     * registry) to run the reconnect callback with `attempt` after the delay.
     */
    method ScheduleReconnect(attempt: int, ctx: Context, rand: real, now: int)
      returns (scheduled: bool, kickedCalled: bool, delay: int)
      requires strategy.backoffFactor != 0 && 0.0 <= rand < 1.0
      requires timerManager != null ==> timerManager.Valid()
      modifies timerManager
      ensures scheduled <==> ShouldReconnect(strategy, attempt, ctx) && !DetectDuplicateConnection(attempt, DurationOrZero(ctx))
      ensures kickedCalled <==> ShouldReconnect(strategy, attempt, ctx) && DetectDuplicateConnection(attempt, DurationOrZero(ctx)) && ctx.hasOnKicked
      ensures scheduled ==> delay == GetDelay(strategy, attempt, DurationOrZero(ctx), rand) && delay <= strategy.maxDelay
      ensures timerManager != null ==> timerManager.Valid()
      ensures timerManager != null && scheduled ==>
        timerManager.timers == old(timerManager.timers)[RECONNECT := Timer(old(timerManager.nextNativeId), false, Task(RECONNECT, attempt), delay, now)]
      ensures timerManager != null && scheduled ==>
        && timerManager.order == Without(old(timerManager.order), RECONNECT) + [RECONNECT]
        && timerManager.pending == (old(timerManager.pending) - OwnedId(old(timerManager.timers), RECONNECT)) + {old(timerManager.nextNativeId)}
        && timerManager.nextNativeId == old(timerManager.nextNativeId) + 1
      ensures timerManager != null && !scheduled ==>
        && timerManager.timers == old(timerManager.timers) && timerManager.order == old(timerManager.order)
        && timerManager.pending == old(timerManager.pending) && timerManager.nextNativeId == old(timerManager.nextNativeId)
    {
      scheduled, kickedCalled, delay := false, false, 0;
      if !ShouldReconnect(strategy, attempt, ctx) {
        return;
      }
      if DetectDuplicateConnection(attempt, DurationOrZero(ctx)) {
        kickedCalled := ctx.hasOnKicked;
        return;
      }
      delay := GetDelay(strategy, attempt, DurationOrZero(ctx), rand);
      if timerManager != null {
        var _ := timerManager.SetTimeout(RECONNECT, Task(RECONNECT, attempt), delay, now);
      }
      scheduled := true;
    }

    /** cancel: clears the "reconnect" timer when there is a registry. */
    method Cancel()
      requires timerManager != null ==> timerManager.Valid()
      modifies timerManager
      ensures timerManager != null ==> timerManager.Valid() && timerManager.timers == old(timerManager.timers) - {RECONNECT}
      ensures timerManager != null ==> timerManager.pending == old(timerManager.pending) - OwnedId(old(timerManager.timers), RECONNECT)
    {
      if timerManager != null {
        var _ := timerManager.Clear(RECONNECT);
      }
    }
  }
}
