/**
 * The policy that decides what happens when a save hits an optimistic-concurrency
 * conflict (`ConcurrencyConflictApproach`).
 */
module ConflictApproach {
  import opened Wrappers

  /** The three members, in declaration order. */
  datatype Approach =
    | Default        // the concurrency exception is thrown, nothing is resolved
    | ForceUpdate    // the proposed value overwrites whatever the database holds
    | SkipConflicts  // the value currently in the database is kept

  /** The underlying value of each member: C# numbers enum members from zero in declaration order. */
  function Ordinal(a: Approach): (n: int)
    ensures 0 <= n < 3
    ensures n == 0 <==> a == Default
  {
    match a
    case Default => 0
    case ForceUpdate => 1
    case SkipConflicts => 2
  }

  /** The member with a given underlying value, if there is one. */
  function FromOrdinal(n: int): (r: Option<Approach>)
    ensures r.Some? <==> 0 <= n < 3
    ensures r.Some? ==> Ordinal(r.value) == n
  {
    if n == 0 then Some(Default)
    else if n == 1 then Some(ForceUpdate)
    else if n == 2 then Some(SkipConflicts)
    else None
  }

  /** Each member is named by exactly one underlying value. */
  lemma OrdinalRoundTrip(a: Approach)
    ensures FromOrdinal(Ordinal(a)) == Some(a)
  {
  }

  /**
   * The value a resolved property keeps: the writer's proposed value under
   * `ForceUpdate`, the database's value under any other approach.
   */
  function Choose<V>(approach: Approach, proposed: V, stored: V): (v: V)
    ensures approach == ForceUpdate ==> v == proposed
    ensures approach != ForceUpdate ==> v == stored
  {
    if approach == ForceUpdate then proposed else stored
  }
}
