/**
 * A one-table store with a `Version` concurrency column, standing in for the storage
 * engine, and the four conflict scenarios the repository's SQLite tests exercise: a row
 * modified or deleted by a second writer, then saved by the first writer under
 * `ForceUpdate` or `SkipConflicts` with no retries.
 */
module Scenarios {
  import opened Wrappers
  import opened ConflictApproach
  import opened ChangeTracking
  import opened ConcurrencyService

  /** The values the test entity's properties hold. */
  datatype Field = Text(text: string) | Guid(id: nat)

  const StringProperty: string := "TestModelString"
  const VersionProperty: string := "Version"

  type Row = map<string, Field>

  /** The table, holding at most the one row the scenarios use. */
  datatype Store = Store(row: Option<Row>)

  function Lookup(m: Row, p: string): Option<Field>
  {
    if p in m then Some(m[p]) else None
  }

  /** What `GetDatabaseValues()` answers for the entry against this store. */
  function DatabaseValuesOf(store: Store): DatabaseValues<Field>
  {
    match store.row
    case None => None
    case Some(row) => Some(p => if p in row then row[p] else Text(""))
  }

  /** The version check: the row still holds the version the writer read. */
  predicate VersionMatches(store: Store, x: EntryValue<Field>)
  {
    store.row.Some? && Lookup(store.row.value, VersionProperty) == Lookup(x.original, VersionProperty)
  }

  /**
   * `SaveChangesAsync` of a context that tracks one entry: an update or delete whose
   * version check fails writes nothing and reports that entry with the stored values.
   */
  function SaveOne(store: Store, v: Tracker<Field>): (o: Outcome<Field>)
    ensures o.Conflict? ==> |v| == 1 && o.reports == [Report(0, DatabaseValuesOf(store))]
    ensures o.Saved? ==> 0 <= o.count <= 1
  {
    if |v| != 1 then Saved(0)
    else
      match v[0].state
      case Detached => Saved(0)
      case Unchanged => Saved(0)
      case Added => if store.row.None? then Saved(1) else Failed(UpdateFailed("duplicate key"))
      case Modified => if VersionMatches(store, v[0]) then Saved(1) else Conflict([Report(0, DatabaseValuesOf(store))])
      case Deleted => if VersionMatches(store, v[0]) then Saved(1) else Conflict([Report(0, DatabaseValuesOf(store))])
  }

  /** The store after a successful save of the entry. */
  function Commit(store: Store, x: EntryValue<Field>): Store
  {
    match x.state
    case Added => Store(Some(x.current))
    case Modified => Store(Some(x.current))
    case Deleted => Store(None)
    case _ => store
  }

  function Saver(store: Store): Callback<Field>
  {
    (k: nat, w: Tracker<Field>) => SaveOne(store, w)
  }

  /** The store only ever reports the one entry it is shown, so it can back a saveable set of entities. */
  lemma SaverReportsTracked(store: Store)
    ensures ReportsWithin(Saver(store), 1)
  {
  }

  function Written(text: string, version: nat): Row
  {
    map[StringProperty := Text(text), VersionProperty := Guid(version)]
  }

  /**
   * The first writer's entry: the row was inserted empty with version `g0`, then given
   * "value1" and the new version `g1` in memory.
   */
  function Loaded(g0: nat, g1: nat): EntryValue<Field>
  {
    EntryValue(Written("value1", g1), Written("", g0), Modified)
  }

  /**
   * Against a stored row with the entry's own properties, the fixer refreshes the
   * original values to that row, and under `SkipConflicts` the current values too.
   */
  lemma ResolveAgainstRow(x: EntryValue<Field>, row: Row, approach: Approach)
    requires x.current.Keys == row.Keys && x.original.Keys == row.Keys
    ensures Resolve(x, DatabaseValuesOf(Store(Some(row))), approach).original == row
    ensures approach == SkipConflicts ==> Resolve(x, DatabaseValuesOf(Store(Some(row))), approach).current == row
    ensures approach == ForceUpdate ==> Resolve(x, DatabaseValuesOf(Store(Some(row))), approach).current == x.current
  {
  }

  /** Fixing the one reported entry of a single report. */
  lemma FixSingleReport(v: Tracker<Field>, database: DatabaseValues<Field>, approach: Approach)
    requires |v| == 1
    ensures FixReports(v, [Report(0, database)], approach) == [Resolve(v[0], database, approach)]
  {
  }

  /** The row moved on (a second writer stored "value2" at version `g2`); `ForceUpdate` wins with "value1". */
  lemma ModifiedElsewhereForceUpdate(g0: nat, g1: nat, g2: nat)
    requires g0 != g2
    ensures var store := Store(Some(Written("value2", g2)));
            var run := Run([Loaded(g0, g1)], Saver(store), ForceUpdate, 0);
            && run.result == Saved(1) && |run.trace| == 2
            && |run.tracker| == 1 && run.tracker[0].current == Written("value1", g1)
            && run.tracker[0].original == Written("value2", g2)
            && Commit(store, run.tracker[0]).row == Some(Written("value1", g1))
  {
    var store := Store(Some(Written("value2", g2)));
    var v := [Loaded(g0, g1)];
    var x := Resolve(Loaded(g0, g1), DatabaseValuesOf(store), ForceUpdate);
    FixSingleReport(v, DatabaseValuesOf(store), ForceUpdate);
    ResolveAgainstRow(Loaded(g0, g1), Written("value2", g2), ForceUpdate);
    var fixed := [x];
    assert Lookup(x.original, VersionProperty) == Some(Guid(g2));
    assert Saver(store)(0, v) == Conflict([Report(0, DatabaseValuesOf(store))]);
    assert Saver(store)(1, fixed) == Saved(1);
  }

  /** The row moved on; `SkipConflicts` keeps the stored "value2" and still writes the row. */
  lemma ModifiedElsewhereSkipConflicts(g0: nat, g1: nat, g2: nat)
    requires g0 != g2
    ensures var store := Store(Some(Written("value2", g2)));
            var run := Run([Loaded(g0, g1)], Saver(store), SkipConflicts, 0);
            && run.result == Saved(1) && |run.trace| == 2
            && |run.tracker| == 1 && run.tracker[0].current == Written("value2", g2)
            && Commit(store, run.tracker[0]) == store
  {
    var store := Store(Some(Written("value2", g2)));
    var v := [Loaded(g0, g1)];
    var x := Resolve(Loaded(g0, g1), DatabaseValuesOf(store), SkipConflicts);
    FixSingleReport(v, DatabaseValuesOf(store), SkipConflicts);
    ResolveAgainstRow(Loaded(g0, g1), Written("value2", g2), SkipConflicts);
    var fixed := [x];
    assert Lookup(x.original, VersionProperty) == Some(Guid(g2));
    assert Saver(store)(0, v) == Conflict([Report(0, DatabaseValuesOf(store))]);
    assert Saver(store)(1, fixed) == Saved(1);
  }

  /** The row was deleted by a second writer; `ForceUpdate` re-inserts it with "value1". */
  lemma DeletedElsewhereForceUpdate(g0: nat, g1: nat)
    ensures var store := Store(None);
            var run := Run([Loaded(g0, g1)], Saver(store), ForceUpdate, 0);
            && run.result == Saved(1) && |run.trace| == 2
            && |run.tracker| == 1 && run.tracker[0].state == Added
            && Commit(store, run.tracker[0]).row == Some(Written("value1", g1))
  {
    var store := Store(None);
    var v := [Loaded(g0, g1)];
    FixSingleReport(v, DatabaseValuesOf(store), ForceUpdate);
    var fixed := [Resolve(Loaded(g0, g1), None, ForceUpdate)];
    assert Saver(store)(0, v) == Conflict([Report(0, None)]);
    assert Saver(store)(1, fixed) == Saved(1);
  }

  /** The row was deleted by a second writer; `SkipConflicts` accepts the deletion and writes nothing. */
  lemma DeletedElsewhereSkipConflicts(g0: nat, g1: nat)
    ensures var store := Store(None);
            var run := Run([Loaded(g0, g1)], Saver(store), SkipConflicts, 0);
            && run.result == Saved(0) && |run.trace| == 2
            && |run.tracker| == 1 && run.tracker[0].state == Unchanged
            && Commit(store, run.tracker[0]).row == None
  {
  }
}
