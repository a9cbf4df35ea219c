/**
 * The empty-poll backoff (applyWait) and the Java `int` counter that feeds it.
 * The scheduler effects (Thread.yield, LockSupport.parkNanos) are represented
 * by the decision they carry out.
 */
module Backoff {
  import opened JavaMath

  /** Java's 32-bit `int`. */
  newtype int32 = x: int | -0x8000_0000 <= x < 0x8000_0000

  const IntMax: int32 := 0x7fff_ffff
  const IntMin: int32 := -0x8000_0000

  /** maxEmptyTimes: the ceiling of the park, in milliseconds. */
  const MaxEmptyTimes: int32 := 10

  /** The last counter value that still yields instead of parking. */
  const YieldLimit: int32 := 3

  /** Yield the processor, or park for `millis` milliseconds (parkNanos of millis * 1,000,000). */
  datatype WaitDecision = Yield | Park(millis: nat)

  /**
   * `x + 1` on a Java `int`: the result is the one `int` that agrees with the
   * mathematical sum in its low-order 32 bits, so Integer.MAX_VALUE + 1 wraps
   * to Integer.MIN_VALUE.
   */
  function Inc(x: int32): (r: int32)
    ensures (r as int - x as int - 1) % 0x1_0000_0000 == 0
  {
    if x == IntMax then IntMin else x + 1
  }

  /** applyWait: the decision for a given count of consecutive empty polls. */
  function ApplyWait(emptyTimes: int32): (d: WaitDecision)
    ensures d.Yield? <==> emptyTimes <= YieldLimit
    ensures d.Park? ==> YieldLimit as int < d.millis <= MaxEmptyTimes as int
  {
    var newEmptyTimes := Min(emptyTimes as int, MaxEmptyTimes as int);
    if emptyTimes <= YieldLimit then Yield else Park(newEmptyTimes)
  }

  /** How long a decision keeps the thread away, in milliseconds (a yield is 0). */
  function WaitMillis(d: WaitDecision): nat
  {
    match d
    case Yield => 0
    case Park(ms) => ms
  }

  /** The backoff never waits longer than the ceiling. */
  lemma WaitBounded(emptyTimes: int32)
    ensures WaitMillis(ApplyWait(emptyTimes)) <= MaxEmptyTimes as int
  {
  }

  /** A longer streak of empty polls never waits less. */
  lemma WaitMonotone(e1: int32, e2: int32)
    requires e1 <= e2
    ensures WaitMillis(ApplyWait(e1)) <= WaitMillis(ApplyWait(e2))
  {
  }

  /**
   * The counter handed to applyWait on the (n+1)-th consecutive empty poll:
   * `emptyTimes++` starting from 0.
   */
  function Counter(n: nat): int32
  {
    if n == 0 then 0 else Inc(Counter(n - 1))
  }

  /** Before it overflows, the counter passed is 0, 1, 2, ... for consecutive empty polls. */
  lemma {:induction false} CounterCounts(n: nat)
    requires n <= IntMax as int
    ensures Counter(n) as int == n
  {
    if n > 0 {
      CounterCounts(n - 1);
    }
  }

  /**
   * The schedule of a streak of empty polls: the first four yield, the
   * following ones park for 4, 5, ... up to 10 milliseconds and then stay at 10.
   */
  lemma StreakSchedule(n: nat)
    requires n <= IntMax as int
    ensures ApplyWait(Counter(n)) == if n <= 3 then Yield else Park(if n < 10 then n else 10)
  {
    CounterCounts(n);
  }

  /**
   * After 2^31 consecutive empty polls the Java `int` counter wraps to
   * Integer.MIN_VALUE, and the backoff goes back to yielding without a park.
   */
  lemma CounterWraps()
    ensures Counter(IntMax as int + 1) == IntMin
    ensures ApplyWait(Counter(IntMax as int + 1)) == Yield
  {
    CounterCounts(IntMax as int);
  }
}
