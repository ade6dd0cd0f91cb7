/**
 * A change-tracker entry and the per-entry conflict fixer (`FixConflictedEntry`).
 */
module ChangeTracking {
  import opened Wrappers
  import opened ConflictApproach

  /** The lifecycle states a tracked entity can be in. */
  datatype EntityState = Detached | Unchanged | Deleted | Modified | Added

  /** Property name to value, as in an entry's current or original values. */
  type PropertyValues<V> = map<string, V>

  /**
   * What `GetDatabaseValues()` answers for an entry: the stored value of each of the
   * entity's properties, or `None` when the row no longer exists.
   */
  type DatabaseValues<V> = Option<string -> V>

  /** The observable state of one entry. */
  datatype EntryValue<V> = EntryValue(current: PropertyValues<V>, original: PropertyValues<V>, state: EntityState)

  /**
   * The entry the fixer leaves behind. A deleted row only moves the state (to `Added`
   * under `ForceUpdate`, so the retry re-inserts, else to `Unchanged`, so the retry
   * writes nothing). An existing row keeps the state, resolves every current value by
   * the approach, and refreshes every original value from the database so that the
   * next version check passes.
   */
  function Resolve<V>(e: EntryValue<V>, database: DatabaseValues<V>, approach: Approach): (r: EntryValue<V>)
    ensures database.None? ==> r.current == e.current && r.original == e.original
    ensures database.None? ==> (r.state == Added <==> approach == ForceUpdate)
    ensures database.None? ==> (r.state == Unchanged <==> approach != ForceUpdate)
    ensures database.Some? ==> r.state == e.state
    ensures database.Some? ==> r.current.Keys == e.current.Keys && r.original.Keys == e.original.Keys
    ensures database.Some? && approach == ForceUpdate ==> r.current == e.current
    ensures database.Some? && approach != ForceUpdate ==>
              forall p :: p in r.current ==> r.current[p] == database.value(p)
    ensures database.Some? ==> forall p :: p in r.original ==> r.original[p] == database.value(p)
  {
    match database
    case None => e.(state := if approach == ForceUpdate then Added else Unchanged)
    case Some(stored) =>
      EntryValue(map p | p in e.current :: Choose(approach, e.current[p], stored(p)),
                 map p | p in e.original :: stored(p),
                 e.state)
  }

  /** Fixing an entry a second time against the same database values changes nothing. */
  lemma ResolveIdempotent<V>(e: EntryValue<V>, database: DatabaseValues<V>, approach: Approach)
    ensures Resolve(Resolve(e, database, approach), database, approach) == Resolve(e, database, approach)
  {
  }

  /** A change-tracker entry, updated in place by the fixer. */
  class Entry<V> {
    var current: PropertyValues<V>
    var original: PropertyValues<V>
    var state: EntityState

    constructor (current: PropertyValues<V>, original: PropertyValues<V>, state: EntityState)
      ensures Value() == EntryValue(current, original, state)
    {
      this.current := current;
      this.original := original;
      this.state := state;
    }

    function Value(): EntryValue<V>
      reads this
    {
      EntryValue(current, original, state)
    }

    /**
     * Resolves this entry against the database values reported for it: one pass over
     * the entry's properties, then a refresh of the original values.
     */
    method FixConflictedEntry(database: DatabaseValues<V>, approach: Approach)
      modifies this
      ensures Value() == Resolve(old(Value()), database, approach)
    {
      if database.None? {
        state := if approach == ForceUpdate then Added else Unchanged;
        return;
      }
      var stored := database.value;
      ghost var proposed := current;
      var properties := current.Keys;
      while properties != {}
        invariant properties <= proposed.Keys == current.Keys
        invariant forall p :: p in current ==>
                    current[p] == if p in properties then proposed[p] else Choose(approach, proposed[p], stored(p))
        invariant original == old(original) && state == old(state)
        decreases properties
      {
        var property :| property in properties;
        var proposedValue := current[property];
        var databaseValue := stored(property);
        current := current[property := if approach == ForceUpdate then proposedValue else databaseValue];
        properties := properties - {property};
      }
      original := map p | p in original :: stored(p);
    }
  }
}
