/**
 * The loop's attempt counter as the source declares it: a 32-bit `int`, compared with
 * `retryCount` and then post-incremented, in C#'s default unchecked context where the
 * largest value wraps to the smallest. The rest of the model counts with unbounded
 * integers; this module shows where the two differ.
 */
module AttemptCounter {
  import opened Wrappers
  import ConcurrencyService

  const MinInt32: int := -0x8000_0000
  const MaxInt32: int := 0x7fff_ffff

  newtype Int32 = x: int | -0x8000_0000 <= x < 0x8000_0000

  /** `attemptCount++` on a 32-bit integer. */
  function Increment(c: Int32): (r: Int32)
    ensures c as int < MaxInt32 ==> r as int == c as int + 1
    ensures c as int == MaxInt32 ==> r as int == MinInt32
  {
    if c == 0x7fff_ffff then -0x8000_0000 else c + 1
  }

  /**
   * How many more times the loop body runs, against a callback that always conflicts
   * under an approach that resolves, when the body is about to run with the counter at
   * `counter`: `Some(n)` if the guard `counter++ <= retryCount` stops the loop within
   * `fuel` runs of the body, `None` if the loop is still going after `fuel` runs.
   */
  function ConflictRunsAsWritten(counter: Int32, retryCount: Int32, fuel: nat): (r: Option<nat>)
    ensures r.Some? ==> 1 <= r.value <= fuel
    decreases fuel
  {
    if fuel == 0 then None
    else if counter <= retryCount then
      match ConflictRunsAsWritten(Increment(counter), retryCount, fuel - 1)
      case None => None
      case Some(n) => Some(n + 1)
    else Some(1)
  }

  /**
   * With `retryCount` at the largest 32-bit value the guard holds for every counter
   * value, and the counter wraps instead of passing it: the loop never stops, however
   * many runs of the body are allowed.
   */
  lemma {:induction false} NeverExitsAtMaximum(counter: Int32, fuel: nat)
    ensures ConflictRunsAsWritten(counter, 0x7fff_ffff, fuel) == None
    decreases fuel
  {
    if fuel > 0 {
      NeverExitsAtMaximum(Increment(counter), fuel - 1);
    }
  }

  /**
   * Below the largest value the 32-bit counter never wraps, and the loop stops after
   * `max(1, retryCount + 2 - counter)` runs, which is what the unbounded model counts.
   */
  lemma {:induction false} ExitsBelowMaximum(counter: Int32, retryCount: Int32, fuel: nat)
    requires retryCount as int < MaxInt32
    requires fuel >= ConcurrencyService.Max(1, retryCount as int + 2 - counter as int)
    ensures ConflictRunsAsWritten(counter, retryCount, fuel) == Some(ConcurrencyService.Max(1, retryCount as int + 2 - counter as int))
    decreases fuel
  {
    if counter <= retryCount {
      ExitsBelowMaximum(Increment(counter), retryCount, fuel - 1);
    }
  }
}
