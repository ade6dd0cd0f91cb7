# Optimistic-concurrency conflict resolution, modelled in Dafny

EntityFrameworkCore.Concurrency wraps Entity Framework Core's `SaveChangesAsync` in a
retry loop. A save can fail with a `DbUpdateConcurrencyException` because another writer
changed or deleted a row since it was read: its version column no longer matches. There
are three `ConcurrencyConflictApproach` values. Under `Default` the exception is
rethrown. Under the other two, every entry the exception reports goes through a fixer,
and the save is tried again:

- `ForceUpdate` keeps the writer's proposed values. If the row is gone, the entry becomes
  `Added`, so the retry re-inserts it.
- `SkipConflicts` takes the database's values. If the row is gone, the entry becomes
  `Unchanged`, so the retry writes nothing.

When the row still exists, either approach refreshes the entry's original values from the
database, so the retry passes the version check.

The model has these files:

- `approach.dfy` (module `ConflictApproach`): the enum, its underlying values, and the
  per-property choice between the proposed and the stored value.
- `tracking.dfy` (module `ChangeTracking`): a change-tracker entry as a class `Entry` with
  current values, original values and state. `Entry.FixConflictedEntry` updates it in place
  with a loop over its properties. It is proved against the pure specification `Resolve`.
- `service.dfy` (module `ConcurrencyService`): the retry loop as the method `SaveChanges`.
  It is proved against the pure specification `Attempts`/`Run`, which the lemmas are about.
- `extensions.dfy` (module `SaveableEntitiesExtensions`): the three public overloads on a
  saveable set of entities.
- `counter.dfy` (module `AttemptCounter`): the attempt counter as the source's 32-bit
  `int` (see Findings).
- `scenarios.dfy` (module `Scenarios`): a one-row store with a `Version` column. It
  replays the four SQLite scenarios of `tests/EntityFrameworkCore.Concurrency.Tests/SaveableEntitiesTests.cs`.

How the storage engine is modelled:

- The save callback is a function of the attempt index and of the state of the tracked
  entries. It yields `Saved(n)`, `Conflict(reports)` or `Failed(error)`.
- The tracked entries are a sequence of `Entry` objects, each held once. Each report
  names a tracked entry by its position in that sequence and carries what `GetDatabaseValues()` answers for it:
  either a lookup from property name to stored value, or `None` when the row is gone.
- The loop's own result uses the same type. `Saved(n)` is a returned row count. The other
  two are exceptions propagated unchanged.

The same retry loop and fixer appear twice in the source: in `ConcurrencyService.cs` and in
`SaveableEntitiesExtensions.cs`. The two copies are identical except for the save they call: `method.Invoke()`
(`ConcurrencyService.cs:28`) against `entities.SaveChangesAsync(cancellationToken)`
(`SaveableEntitiesExtensions.cs:58`). One model
serves both: `SaveableEntities.SaveChangesWithRetries` runs `ConcurrencyService.SaveChanges`
over the object's own save.

Where the code and its documentation or tests disagree, the model follows the code:

- **Attempt count.** The guard `attemptCount++ <= retryCount` compares first and
  increments after. A callback that always conflicts is therefore invoked
  `max(1, retryCount + 2)` times, and the loop then returns 0. The doc comment of
  `retryCount` ("the amount of times to retry", `ConcurrencyService.cs:16`) suggests
  `retryCount + 1` invocations: one save and `retryCount` retries.
  The test at `SaveableEntitiesTests.cs:87-89` relies on this: with a retry count of 0, a
  conflict followed by a success returns the success's count.
- **`Default` with retries.** The test at `SaveableEntitiesTests.cs:43-58` expects a
  `Default` save with retries to succeed after two conflicts. The code rethrows the first
  conflict under `Default` whatever `retryCount` is. `DefaultEndsAfterFirstAttempt` states
  the code's behaviour.

## Model

| member | source | states |
|---|---|---|
| `ConflictApproach.Ordinal` | src/EntityFrameworkCore.Concurrency/ConcurrencyConflictApproach.cs:6-22 | each approach has an underlying value in 0..2, and `Default`, the first member, is the only one with value 0 |
| `ConflictApproach.FromOrdinal` | src/EntityFrameworkCore.Concurrency/ConcurrencyConflictApproach.cs:6-22 | exactly the values 0, 1 and 2 name a member, and the member named is the one with that value: there are exactly three approaches |
| `ConflictApproach.OrdinalRoundTrip` | src/EntityFrameworkCore.Concurrency/ConcurrencyConflictApproach.cs:6-22 | every approach is recovered from its underlying value |
| `ConflictApproach.Choose` | src/EntityFrameworkCore.Concurrency/ConcurrencyConflictApproach.cs:13-21 | `ForceUpdate` keeps the proposed value; every other approach, `SkipConflicts` in particular, keeps the database's value |
| `ChangeTracking.Resolve` | src/EntityFrameworkCore.Concurrency/ConcurrencyService.cs:54-75 | row deleted: current and original values are untouched, and the state becomes `Added` iff the approach is `ForceUpdate`, otherwise `Unchanged`. Row present: the state is not changed and the property sets are kept. `ForceUpdate` leaves every current value as proposed, any other approach sets each one to the database value, and every original value becomes the database value |
| `ChangeTracking.ResolveIdempotent` | src/EntityFrameworkCore.Concurrency/ConcurrencyService.cs:54-75 | fixing an entry twice with the same approach and the same database values gives the same entry as fixing it once |
| `ChangeTracking.Entry.FixConflictedEntry` | src/EntityFrameworkCore.Concurrency/SaveableEntitiesExtensions.cs:84-105 | the in-place fixer (and its identical copy at ConcurrencyService.cs:54-75): after the state assignment, or the loop over the properties plus the refresh of the original values, the entry equals `Resolve` of its old value |
| `ConcurrencyService.FixReports` | src/EntityFrameworkCore.Concurrency/ConcurrencyService.cs:37-40 | fixing the reported entries keeps the number of tracked entries |
| `ConcurrencyService.FixReportsFrame` | src/EntityFrameworkCore.Concurrency/ConcurrencyService.cs:37-40 | an entry that no report names is unchanged by the `foreach` over the exception's entries |
| `ConcurrencyService.FixReportsResolves` | src/EntityFrameworkCore.Concurrency/ConcurrencyService.cs:37-40 | every reported entry ends up fixed against its database values, once, even if it is reported more than once with the same values |
| `ConcurrencyService.FixReportedEntry` | src/EntityFrameworkCore.Concurrency/ConcurrencyService.cs:39 | fixing one reported entry in place changes the tracker state exactly as `FixReport` says: that entry is resolved and every other tracked entry keeps its value |
| `ConcurrencyService.FixReportedEntries` | src/EntityFrameworkCore.Concurrency/ConcurrencyService.cs:37-40 | the loop over the reports mutates the tracked entries exactly as `FixReports` says |
| `ConcurrencyService.Attempts` | src/EntityFrameworkCore.Concurrency/ConcurrencyService.cs:23-45 | the callback is invoked between 1 and `max(1, retryCount + 2 - attemptCount)` times. Every invocation but the last was a conflict. Under `Default` there is one invocation. A final success or non-conflict error is the result, unchanged, and so is a final conflict under `Default`. A final conflict under another approach happens only when the attempts are used up, and the result is then 0. There are as many tracked entries as before, and the loop fixes none of them unless the first attempt conflicted under a resolving approach |
| `ConcurrencyService.Run` | src/EntityFrameworkCore.Concurrency/ConcurrencyService.cs:21-46 | the loop from a fresh counter (`Attempts` with `attemptCount` 0): the first invocation is shown the entries as they were, and there are between 1 and `max(1, retryCount + 2)` invocations |
| `ConcurrencyService.FirstAttemptSucceeds` | src/EntityFrameworkCore.Concurrency/ConcurrencyService.cs:26-28 | a first save that succeeds returns its count after one invocation, and the loop fixes no entry |
| `ConcurrencyService.DefaultEndsAfterFirstAttempt` | src/EntityFrameworkCore.Concurrency/ConcurrencyService.cs:30-35 | under `Default`, whatever the retry count, the first outcome (a conflict in particular) is the result, unchanged, after one invocation, and no entry is fixed |
| `ConcurrencyService.FailureIsNotRetried` | src/EntityFrameworkCore.Concurrency/ConcurrencyService.cs:30 | a non-conflict error ends the loop on the attempt where it occurs and is the result |
| `ConcurrencyService.AlwaysConflictingAttempts` | src/EntityFrameworkCore.Concurrency/ConcurrencyService.cs:23-45 | with a callback that always conflicts under a resolving approach, the loop from counter `c` makes exactly `max(1, retryCount + 2 - c)` invocations and returns 0 |
| `ConcurrencyService.AlwaysConflicting` | src/EntityFrameworkCore.Concurrency/ConcurrencyService.cs:43-45 | with a callback that always conflicts under a resolving approach, it is invoked exactly `max(1, retryCount + 2)` times and the result is 0 |
| `ConcurrencyService.ConflictThenSuccess` | src/EntityFrameworkCore.Concurrency/SaveableEntitiesExtensions.cs:73 | with retry count 0 and a resolving approach, a conflict followed by a success returns the success's count after fixing the reported entries, in two invocations |
| `ConcurrencyService.RunBody` | src/EntityFrameworkCore.Concurrency/ConcurrencyService.cs:26-41 | one body execution: the outcome is the callback's answer for the current entries; the loop stops exactly on a success, a non-conflict error or any outcome under `Default`, and then it fixes no entry; otherwise the reported entries are fixed as `FixReports` says |
| `ConcurrencyService.AttemptsStop` | src/EntityFrameworkCore.Concurrency/ConcurrencyService.cs:28-34 | a success, a non-conflict error or a conflict under `Default` is the loop's result after that one invocation, and the loop fixes no entry |
| `ConcurrencyService.AttemptsRetry` | src/EntityFrameworkCore.Concurrency/ConcurrencyService.cs:37-43 | a resolved conflict whose guard holds continues the loop from the fixed entries with the counter one higher |
| `ConcurrencyService.AttemptsExhausted` | src/EntityFrameworkCore.Concurrency/ConcurrencyService.cs:37-45 | a resolved conflict whose guard fails leaves the fixed entries and returns 0 |
| `ConcurrencyService.SaveChanges` | src/EntityFrameworkCore.Concurrency/ConcurrencyService.cs:21-46 | the do/while loop returns or throws what `Run` says, leaves the tracked entries as `Run` says, and reports the number of invocations `Run` counts |
| `SaveableEntitiesExtensions.SaveableEntities.SaveChangesWithConflictResolution` | src/EntityFrameworkCore.Concurrency/SaveableEntitiesExtensions.cs:20-23 | the overload with no approach is `Default` with no retries: the first outcome, a conflict in particular, is the result, after one invocation, and the loop fixes no entry |
| `SaveableEntitiesExtensions.SaveableEntities.SaveChangesWithApproach` | src/EntityFrameworkCore.Concurrency/SaveableEntitiesExtensions.cs:35-38 | the approach-only overload behaves exactly as that approach with retry count 0 |
| `SaveableEntitiesExtensions.SaveableEntities.SaveChangesWithRetries` | src/EntityFrameworkCore.Concurrency/SaveableEntitiesExtensions.cs:51-76 | the duplicated loop has the observable behaviour of `ConcurrencyService.SaveChanges`: same result, same final entries, same number of invocations |
| `AttemptCounter.Increment` | src/EntityFrameworkCore.Concurrency/ConcurrencyService.cs:43 | the post-increment of the 32-bit counter adds one below the largest value and wraps the largest value to the smallest |
| `AttemptCounter.ConflictRunsAsWritten` | src/EntityFrameworkCore.Concurrency/ConcurrencyService.cs:23-45 | a count of body runs, when the as-written loop stops within the fuel, lies between 1 and the fuel |
| `AttemptCounter.NeverExitsAtMaximum` | src/EntityFrameworkCore.Concurrency/ConcurrencyService.cs:43 | with `retryCount` at the largest 32-bit value and a callback that always conflicts, the as-written loop never stops |
| `AttemptCounter.ExitsBelowMaximum` | src/EntityFrameworkCore.Concurrency/ConcurrencyService.cs:43 | below the largest value the 32-bit loop stops after exactly the `max(1, retryCount + 2 - counter)` runs that the unbounded model counts |
| `Scenarios.SaveOne` | src/EntityFrameworkCore.Concurrency/ISaveableEntities.cs:38 | the store's save writes at most one row, and a failed version check reports the one entry with the stored values |
| `Scenarios.SaverReportsTracked` | src/EntityFrameworkCore.Concurrency/ISaveableEntities.cs:38 | the one-row store reports only the entry it tracks, so it meets the requirement of `SaveableEntities` |
| `Scenarios.ResolveAgainstRow` | src/EntityFrameworkCore.Concurrency/SaveableEntitiesExtensions.cs:95-104 | against a stored row with the entry's properties: the original values become that row; under `SkipConflicts` the current values become it too; under `ForceUpdate` they stay as proposed |
| `Scenarios.FixSingleReport` | src/EntityFrameworkCore.Concurrency/SaveableEntitiesExtensions.cs:67-70 | a conflict reporting one entry fixes that entry and nothing else |
| `Scenarios.ModifiedElsewhereForceUpdate` | src/EntityFrameworkCore.Concurrency/SaveableEntitiesExtensions.cs:100-104 | row modified elsewhere and `ForceUpdate`: the save returns 1 after two invocations. The proposed "value1" is kept, the original values are the stored row, and the row ends up holding "value1" with the writer's version |
| `Scenarios.ModifiedElsewhereSkipConflicts` | src/EntityFrameworkCore.Concurrency/SaveableEntitiesExtensions.cs:100 | row modified elsewhere and `SkipConflicts`: the save returns 1 after two invocations, the entry's current values are the other writer's "value2", and the stored row is left as that writer left it |
| `Scenarios.DeletedElsewhereForceUpdate` | src/EntityFrameworkCore.Concurrency/SaveableEntitiesExtensions.cs:89-92 | row deleted elsewhere and `ForceUpdate`: the entry becomes `Added` and the record is re-inserted with "value1"; the count is 1 |
| `Scenarios.DeletedElsewhereSkipConflicts` | src/EntityFrameworkCore.Concurrency/SaveableEntitiesExtensions.cs:89-92 | row deleted elsewhere and `SkipConflicts`: the entry becomes `Unchanged`, the retry writes nothing, the result is 0 and the row stays absent |

## Left out

- async, `Task` and `CancellationToken`: the loop is modelled synchronously. The token is
  only forwarded to the save and never checked by the loop. A cancellation is one more
  non-conflict error of the callback (`Canceled`).
- EF Core's change tracker, `EntityEntry`, `PropertyValues` and the exception's `Entries`
  become a sequence of `Entry` objects, maps of property values, and reports that name an
  entry by its position among the tracked entries rather than by reference.
  `GetDatabaseValues()` queries the database; its answer is supplied with each conflict
  report.
- `FixReports`, `RunBody`, `SaveChanges`: a failing `GetDatabaseValues()` is not modelled.
  In the source that query runs inside the `catch` block (`ConcurrencyService.cs:57`,
  `SaveableEntitiesExtensions.cs:87`). If it throws, its exception leaves the loop from
  the middle of the `foreach` at `ConcurrencyService.cs:37-40`. The entries before it are
  fixed, the rest are not, and the exception is not an outcome of the save callback. In
  the model the answer always arrives, so every result is a callback outcome or 0.
- The real storage engine is a callback of the attempt index and the entries' state. Only
  the toy one-row store in `Scenarios` stands for an actual table.
- `src/EntityFrameworkCore.Concurrency/Context/DbContextExtensions.cs` is not part of this
  model. It only delegates to `ConcurrencyService.SaveChangesAsync` with the retry count
  defaulted to 0.
- Integer width: the loop model counts with unbounded integers. Where the 32-bit counter
  differs (only at `retryCount == int.MaxValue`), `AttemptCounter` shows it (see Findings).
- Enum values outside the three declared members (C# allows a cast such as
  `(ConcurrencyConflictApproach)5`) are not modelled. The source would treat them like
  `SkipConflicts`.
- `SaveChanges`, `RunBody`, `FixReportedEntries`, the overloads: the callback must report
  only tracked entries, and each entry is tracked once. EF Core's change tracker
  guarantees both.
- `SaveChanges`, the overloads: property values must be plain data (`V(!new)`).
- `SaveChanges`, the overloads: the callback's own effect on the entries is not modelled.
  EF Core's `SaveChangesAsync` accepts the changes on success (`Added` and `Modified`
  become `Unchanged`, `Deleted` becomes `Detached`, original values are refreshed), and
  the `Func<Task<int>>` given to `ConcurrencyService` may do anything. The final tracker
  state in the model is what the loop's own fixing leaves: "unchanged" means the loop
  fixed no entry, not that the call left the entries as they were.
- Order of properties: the fixer visits the properties in an unspecified order. The result
  does not depend on it.

## Findings

| source | as written | input that shows it | evidently intended | confidence | as-written member | corrected member |
|---|---|---|---|---|---|---|
| src/EntityFrameworkCore.Concurrency/ConcurrencyService.cs:43 (same at SaveableEntitiesExtensions.cs:73) | `attemptCount++ <= retryCount` on a 32-bit `int`, in C#'s default unchecked context | `retryCount == int.MaxValue` and a save that always conflicts under `ForceUpdate` or `SkipConflicts`: the guard holds at `int.MaxValue`, the counter wraps to `int.MinValue`, and the loop never ends | a finite bound of `retryCount + 2` attempts, as for every smaller retry count | medium, not executed (a checked build would throw `OverflowException` instead) | `AttemptCounter.NeverExitsAtMaximum` | `ConcurrencyService.AlwaysConflicting` |
