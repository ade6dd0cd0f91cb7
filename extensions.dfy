/**
 * The public entry points on a saveable set of entities
 * (`SaveableEntitiesExtensions.SaveChangesWithConflictResolutionAsync`): the two
 * defaulting overloads and the full one, whose retry loop is the same loop as
 * `ConcurrencyService.SaveChanges`.
 */
module SaveableEntitiesExtensions {
  import opened ConflictApproach
  import opened ChangeTracking
  import opened ConcurrencyService

  /**
   * A saveable set of entities: the entries its change tracker holds, in tracking
   * order, and its own `SaveChangesAsync`, which only ever reports tracked entries.
   */
  class SaveableEntities<V(!new)> {
    const tracked: seq<Entry<V>>
    const save: Callback<V>

    /** Each entry is tracked once, and the save reports tracked entries only. */
    ghost predicate Valid()
    {
      Distinct(tracked) && ReportsWithin(save, |tracked|)
    }

    constructor (tracked: seq<Entry<V>>, save: Callback<V>)
      requires Distinct(tracked) && ReportsWithin(save, |tracked|)
      ensures this.tracked == tracked && this.save == save && Valid()
    {
      this.tracked := tracked;
      this.save := save;
    }

    /**
     * The overload with no approach: `Default` with no retries, so any conflict propagates
     * and the loop fixes no entry.
     */
    method SaveChangesWithConflictResolution() returns (result: Outcome<V>, calls: nat)
      requires Valid()
      modifies tracked
      ensures result == save(0, old(View(tracked))) && calls == 1
      ensures View(tracked) == old(View(tracked))
    {
      DefaultEndsAfterFirstAttempt(View(tracked), save, 0);
      result, calls := SaveChangesWithRetries(Default, 0);
    }

    /** The overload with an approach only: that approach with a retry count of 0. */
    method SaveChangesWithApproach(approach: Approach) returns (result: Outcome<V>, calls: nat)
      requires Valid()
      modifies tracked
      ensures var run := Run(old(View(tracked)), save, approach, 0);
              result == run.result && View(tracked) == run.tracker && calls == |run.trace|
    {
      result, calls := SaveChangesWithRetries(approach, 0);
    }

    /** The full overload: the retry loop run over this object's own save. */
    method SaveChangesWithRetries(approach: Approach, retryCount: int) returns (result: Outcome<V>, calls: nat)
      requires Valid()
      modifies tracked
      ensures var run := Run(old(View(tracked)), save, approach, retryCount);
              result == run.result && View(tracked) == run.tracker && calls == |run.trace|
    {
      result, calls := SaveChanges(tracked, save, approach, retryCount);
    }
  }
}
