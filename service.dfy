/**
 * The optimistic-concurrency retry loop (`ConcurrencyService.SaveChangesAsync`): call the
 * save callback; on a concurrency conflict either rethrow (`Default`) or fix every
 * reported entry and try again, bounded by the post-incremented attempt counter.
 */
module ConcurrencyService {
  import opened ConflictApproach
  import opened ChangeTracking

  /** A failure of the save other than a concurrency conflict. */
  datatype StorageError = UpdateFailed(message: string) | Canceled

  /**
   * One entry named by a concurrency exception, by its position among the tracked
   * entries, with what `GetDatabaseValues()` answers for it.
   */
  datatype Report<V> = Report(index: nat, database: DatabaseValues<V>)

  /**
   * What a save produces: a row count, a concurrency exception carrying its entries, or
   * any other exception. Both the callback and the loop itself produce one.
   */
  datatype Outcome<V> =
    | Saved(count: int)
    | Conflict(reports: seq<Report<V>>)
    | Failed(error: StorageError)

  /** The entries a conflict reports (none for any other outcome). */
  function ReportsOf<V>(o: Outcome<V>): seq<Report<V>>
  {
    if o.Conflict? then o.reports else []
  }

  /** Every entry the outcome reports is one of the `n` tracked entries. */
  predicate ReportsTracked<V>(o: Outcome<V>, n: nat)
  {
    forall i :: 0 <= i < |ReportsOf(o)| ==> ReportsOf(o)[i].index < n
  }

  /** The state of every tracked entry, in tracking order. */
  type Tracker<V> = seq<EntryValue<V>>

  /**
   * The save callback: what its k-th invocation (from 0) does when the tracked entries
   * are in the given state. It stands for the storage engine.
   */
  type Callback<!V> = (nat, Tracker<V>) -> Outcome<V>

  /** Whatever state it is shown, the callback only reports entries among the `n` tracked ones. */
  ghost predicate ReportsWithin<V(!new)>(callback: Callback<V>, n: nat)
  {
    forall k: nat, v: Tracker<V> :: ReportsTracked(callback(k, v), n)
  }

  /** The change tracker holds each entry once. */
  ghost predicate Distinct<V>(tracked: seq<Entry<V>>)
  {
    forall i, j :: 0 <= i < j < |tracked| ==> tracked[i] != tracked[j]
  }

  /** The values of the tracked entries, in tracking order. */
  function View<V>(tracked: seq<Entry<V>>): (v: Tracker<V>)
    reads tracked
    ensures |v| == |tracked|
    ensures forall i :: 0 <= i < |tracked| ==> v[i] == tracked[i].Value()
  {
    seq(|tracked|, i requires 0 <= i < |tracked| reads tracked => tracked[i].Value())
  }

  /** The tracker after fixing one reported entry. */
  function FixReport<V>(v: Tracker<V>, r: Report<V>, approach: Approach): Tracker<V>
  {
    if r.index < |v| then v[r.index := Resolve(v[r.index], r.database, approach)] else v
  }

  /** The tracker after fixing the reported entries in order. */
  function FixReports<V>(v: Tracker<V>, reports: seq<Report<V>>, approach: Approach): (w: Tracker<V>)
    ensures |w| == |v|
    decreases |reports|
  {
    if reports == [] then v
    else FixReport(FixReports(v, reports[..|reports| - 1], approach), reports[|reports| - 1], approach)
  }

  /** An entry no report names is left as it was. */
  lemma {:induction false} FixReportsFrame<V>(v: Tracker<V>, reports: seq<Report<V>>, approach: Approach, j: nat)
    requires j < |v|
    requires forall i :: 0 <= i < |reports| ==> reports[i].index != j
    ensures FixReports(v, reports, approach)[j] == v[j]
    decreases |reports|
  {
    if reports != [] {
      FixReportsFrame(v, reports[..|reports| - 1], approach, j);
    }
  }

  /**
   * A reported entry ends up fixed exactly once against its database values, however
   * many times it is reported, as long as every report of it carries the same values.
   */
  lemma {:induction false} FixReportsResolves<V>(v: Tracker<V>, reports: seq<Report<V>>, approach: Approach,
                                                 j: nat, database: DatabaseValues<V>)
    requires j < |v|
    requires exists i :: 0 <= i < |reports| && reports[i].index == j
    requires forall i :: 0 <= i < |reports| && reports[i].index == j ==> reports[i].database == database
    ensures FixReports(v, reports, approach)[j] == Resolve(v[j], database, approach)
    decreases |reports|
  {
    var n := |reports| - 1;
    var prefix := reports[..n];
    if reports[n].index == j {
      if exists i :: 0 <= i < n && prefix[i].index == j {
        FixReportsResolves(v, prefix, approach, j, database);
        ResolveIdempotent(v[j], database, approach);
      } else {
        FixReportsFrame(v, prefix, approach, j);
      }
    } else {
      var i :| 0 <= i < |reports| && reports[i].index == j;
      assert prefix[i].index == j;
      FixReportsResolves(v, prefix, approach, j, database);
    }
  }

  /**
   * One run of the loop: what it returns or throws, the state of the tracked entries
   * afterwards, and the outcome of every invocation of the callback, in order.
   */
  datatype Execution<V> = Execution(result: Outcome<V>, tracker: Tracker<V>, trace: seq<Outcome<V>>)

  /** The larger of two integers. */
  function Max(a: int, b: int): int
  {
    if a < b then b else a
  }

  /**
   * The loop from the body execution at which the attempt counter is `attemptCount`
   * (which equals the number of invocations so far). After a conflict the guard
   * `attemptCount++ <= retryCount` decides whether the body runs again.
   */
  function Attempts<V>(v: Tracker<V>, callback: Callback<V>, approach: Approach, retryCount: int, attemptCount: nat): (r: Execution<V>)
    ensures 1 <= |r.trace| <= Max(1, retryCount + 2 - attemptCount)
    ensures r.trace[0] == callback(attemptCount, v)
    ensures forall i :: 0 <= i < |r.trace| - 1 ==> r.trace[i].Conflict?
    ensures approach == Default ==> |r.trace| == 1
    ensures r.trace[|r.trace| - 1].Saved? || r.trace[|r.trace| - 1].Failed? || approach == Default ==>
              r.result == r.trace[|r.trace| - 1]
    ensures r.trace[|r.trace| - 1].Conflict? && approach != Default ==>
              r.result == Saved(0) && |r.trace| == Max(1, retryCount + 2 - attemptCount)
    ensures |r.tracker| == |v|
    ensures !r.trace[0].Conflict? || approach == Default ==> r.tracker == v
    decreases if attemptCount <= retryCount + 1 then retryCount + 1 - attemptCount else 0
  {
    var outcome := callback(attemptCount, v);
    match outcome
    case Saved(_) => Execution(outcome, v, [outcome])
    case Failed(_) => Execution(outcome, v, [outcome])
    case Conflict(reports) =>
      if approach == Default then Execution(outcome, v, [outcome])
      else
        var fixed := FixReports(v, reports, approach);
        if attemptCount <= retryCount then
          var rest := Attempts(fixed, callback, approach, retryCount, attemptCount + 1);
          Execution(rest.result, rest.tracker, [outcome] + rest.trace)
        else
          Execution(Saved(0), fixed, [outcome])
  }

  /** The whole loop, from a fresh attempt counter. */
  function Run<V>(v: Tracker<V>, callback: Callback<V>, approach: Approach, retryCount: int): (r: Execution<V>)
    ensures 1 <= |r.trace| <= Max(1, retryCount + 2)
    ensures r.trace[0] == callback(0, v)
  {
    Attempts(v, callback, approach, retryCount, 0)
  }

  /** A first save that succeeds is returned as is, after one invocation, with no entry fixed. */
  lemma FirstAttemptSucceeds<V>(v: Tracker<V>, callback: Callback<V>, approach: Approach, retryCount: int)
    requires callback(0, v).Saved?
    ensures Run(v, callback, approach, retryCount) == Execution(callback(0, v), v, [callback(0, v)])
  {
  }

  /**
   * Under `Default` the first outcome is final whatever the retry count: a conflict is
   * rethrown unchanged, no entry is fixed, and the callback runs once.
   */
  lemma DefaultEndsAfterFirstAttempt<V>(v: Tracker<V>, callback: Callback<V>, retryCount: int)
    ensures Run(v, callback, Default, retryCount) == Execution(callback(0, v), v, [callback(0, v)])
  {
  }

  /** Any error other than a conflict ends the loop on the attempt where it occurs. */
  lemma FailureIsNotRetried<V>(v: Tracker<V>, callback: Callback<V>, approach: Approach, retryCount: int, k: nat)
    requires k < |Run(v, callback, approach, retryCount).trace|
    requires Run(v, callback, approach, retryCount).trace[k].Failed?
    ensures k == |Run(v, callback, approach, retryCount).trace| - 1
    ensures Run(v, callback, approach, retryCount).result == Run(v, callback, approach, retryCount).trace[k]
  {
  }

  /**
   * A callback that always conflicts, under an approach that resolves, is invoked
   * `max(1, retryCount + 2)` times, after which the loop returns 0.
   */
  lemma {:induction false} AlwaysConflictingAttempts<V>(v: Tracker<V>, callback: Callback<V>, approach: Approach,
                                                        retryCount: int, attemptCount: nat)
    requires approach != Default
    requires forall k: nat, w: Tracker<V> :: callback(k, w).Conflict?
    ensures Attempts(v, callback, approach, retryCount, attemptCount).result == Saved(0)
    ensures |Attempts(v, callback, approach, retryCount, attemptCount).trace| == Max(1, retryCount + 2 - attemptCount)
    decreases if attemptCount <= retryCount + 1 then retryCount + 1 - attemptCount else 0
  {
    var outcome := callback(attemptCount, v);
    if attemptCount <= retryCount {
      AlwaysConflictingAttempts(FixReports(v, outcome.reports, approach), callback, approach, retryCount, attemptCount + 1);
    }
  }

  /** The whole-loop form of `AlwaysConflictingAttempts`. */
  lemma AlwaysConflicting<V>(v: Tracker<V>, callback: Callback<V>, approach: Approach, retryCount: int)
    requires approach != Default
    requires forall k: nat, w: Tracker<V> :: callback(k, w).Conflict?
    ensures Run(v, callback, approach, retryCount).result == Saved(0)
    ensures |Run(v, callback, approach, retryCount).trace| == Max(1, retryCount + 2)
  {
    AlwaysConflictingAttempts(v, callback, approach, retryCount, 0);
  }

  /**
   * Even with a retry count of 0, a conflict resolved by a non-`Default` approach is
   * followed by a second attempt, whose success is returned.
   */
  lemma ConflictThenSuccess<V>(v: Tracker<V>, callback: Callback<V>, approach: Approach)
    requires approach != Default
    requires callback(0, v).Conflict?
    requires callback(1, FixReports(v, callback(0, v).reports, approach)).Saved?
    ensures Run(v, callback, approach, 0)
         == Execution(callback(1, FixReports(v, callback(0, v).reports, approach)),
                      FixReports(v, callback(0, v).reports, approach),
                      [callback(0, v), callback(1, FixReports(v, callback(0, v).reports, approach))])
  {
  }

  /** Fixes one reported entry; the other tracked entries keep their state. */
  method FixReportedEntry<V>(tracked: seq<Entry<V>>, report: Report<V>, approach: Approach)
    requires Distinct(tracked)
    requires report.index < |tracked|
    modifies tracked[report.index]
    ensures View(tracked) == FixReport(old(View(tracked)), report, approach)
  {
    tracked[report.index].FixConflictedEntry(report.database, approach);
  }

  /** Fixes every reported entry in turn (the `foreach` over the exception's entries). */
  method FixReportedEntries<V>(tracked: seq<Entry<V>>, reports: seq<Report<V>>, approach: Approach)
    requires Distinct(tracked)
    requires forall i :: 0 <= i < |reports| ==> reports[i].index < |tracked|
    modifies tracked
    ensures View(tracked) == FixReports(old(View(tracked)), reports, approach)
  {
    for i := 0 to |reports|
      invariant View(tracked) == FixReports(old(View(tracked)), reports[..i], approach)
    {
      FixReportedEntry(tracked, reports[i], approach);
      assert reports[..i + 1][..i] == reports[..i];
    }
    assert reports[..|reports|] == reports;
  }

  /**
   * One execution of the loop body up to the guard: call the callback on the current
   * state of the tracked entries and, on a conflict under an approach that resolves,
   * fix every reported entry. `stop` says the loop ends with `outcome`.
   */
  method RunBody<V(!new)>(tracked: seq<Entry<V>>, callback: Callback<V>, approach: Approach, attemptCount: nat)
    returns (outcome: Outcome<V>, stop: bool)
    requires Distinct(tracked)
    requires ReportsWithin(callback, |tracked|)
    modifies tracked
    ensures outcome == callback(attemptCount, old(View(tracked)))
    ensures stop <==> !outcome.Conflict? || approach == Default
    ensures stop ==> View(tracked) == old(View(tracked))
    ensures !stop ==> View(tracked) == FixReports(old(View(tracked)), outcome.reports, approach)
  {
    var before := View(tracked);
    outcome := callback(attemptCount, before);
    stop := !outcome.Conflict? || approach == Default;
    if !stop {
      assert ReportsTracked(outcome, |tracked|) && ReportsOf(outcome) == outcome.reports;
      FixReportedEntries(tracked, outcome.reports, approach);
    }
  }

  /** A body execution that ends the loop: a success, another error, or any outcome under `Default`. */
  lemma AttemptsStop<V>(v: Tracker<V>, callback: Callback<V>, approach: Approach, retryCount: int, attemptCount: nat)
    requires !callback(attemptCount, v).Conflict? || approach == Default
    ensures Attempts(v, callback, approach, retryCount, attemptCount)
         == Execution(callback(attemptCount, v), v, [callback(attemptCount, v)])
  {
  }

  /** A resolved conflict followed by a guard that holds: the loop goes on from the fixed entries. */
  lemma AttemptsRetry<V>(v: Tracker<V>, callback: Callback<V>, approach: Approach, retryCount: int, attemptCount: nat)
    requires callback(attemptCount, v).Conflict? && approach != Default && attemptCount <= retryCount
    ensures var next := Attempts(FixReports(v, callback(attemptCount, v).reports, approach), callback, approach, retryCount, attemptCount + 1);
            Attempts(v, callback, approach, retryCount, attemptCount) == Execution(next.result, next.tracker, [callback(attemptCount, v)] + next.trace)
  {
  }

  /** A resolved conflict followed by a guard that fails: the loop returns 0. */
  lemma AttemptsExhausted<V>(v: Tracker<V>, callback: Callback<V>, approach: Approach, retryCount: int, attemptCount: nat)
    requires callback(attemptCount, v).Conflict? && approach != Default && attemptCount > retryCount
    ensures Attempts(v, callback, approach, retryCount, attemptCount)
         == Execution(Saved(0), FixReports(v, callback(attemptCount, v).reports, approach), [callback(attemptCount, v)])
  {
  }

  /**
   * The retry loop. Returns what `Run` says the loop returns or throws, leaves the
   * tracked entries as `Run` says, and reports how many times it called the callback.
   */
  method SaveChanges<V(!new)>(tracked: seq<Entry<V>>, callback: Callback<V>, approach: Approach, retryCount: int)
    returns (result: Outcome<V>, calls: nat)
    requires Distinct(tracked)
    requires ReportsWithin(callback, |tracked|)
    modifies tracked
    ensures var run := Run(old(View(tracked)), callback, approach, retryCount);
            result == run.result && View(tracked) == run.tracker && calls == |run.trace|
  {
    ghost var total := Run(View(tracked), callback, approach, retryCount);
    var attemptCount: nat := 0;
    calls := 0;
    while true
      invariant calls == attemptCount
      invariant var rest := Attempts(View(tracked), callback, approach, retryCount, attemptCount);
                rest.result == total.result && rest.tracker == total.tracker && calls + |rest.trace| == |total.trace|
      decreases if attemptCount <= retryCount + 1 then retryCount + 1 - attemptCount else 0
    {
      ghost var before := View(tracked);
      var outcome, stop := RunBody(tracked, callback, approach, attemptCount);
      calls := calls + 1;
      if stop {
        AttemptsStop(before, callback, approach, retryCount, attemptCount);
        result := outcome;
        return;
      }
      var again := attemptCount <= retryCount;
      if again {
        AttemptsRetry(before, callback, approach, retryCount, attemptCount);
      } else {
        AttemptsExhausted(before, callback, approach, retryCount, attemptCount);
      }
      attemptCount := attemptCount + 1;
      if !again {
        break;
      }
    }
    result := Saved(0);
  }
}
