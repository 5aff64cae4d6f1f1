/**
  The order-by pruning that `setBreakoutClause` performs: which order-by
  entries it selects against the new breakout ids, and how it removes them
  one index at a time, using indices taken from the order-by list as it was
  before the first removal.
 */
module Pruning {
  import opened Wrappers
  import opened Helpers

  /** `breakouts.filter(id => id != null)`: the non-null breakout entries, in order. */
  function NonNull(breakouts: seq<Breakout>): (ids: seq<Field>)
    ensures |ids| <= |breakouts|
    ensures forall id :: id in ids <==> Some(id) in breakouts
  {
    if breakouts == [] then []
    else
      var rest := NonNull(breakouts[1..]);
      assert forall b :: b in breakouts <==> b == breakouts[0] || b in breakouts[1..];
      match breakouts[0]
      case None => rest
      case Some(id) => [id] + rest
  }

  /** The removal condition: a non-null target id that is not among the breakout ids. */
  predicate IsStale(sortId: Option<Field>, breakoutIds: seq<Field>) {
    sortId.Some? && sortId.value !in breakoutIds
  }

  /**
    The positions among the first `n` order-by entries that the loop passes
    to `removeOrderBy`, in the order it visits them.
   */
  function StaleIndices(sorts: seq<OrderBy>, breakoutIds: seq<Field>,
                        getFieldTargetId: Field -> Option<Field>, n: nat): (r: seq<nat>)
    requires n <= |sorts|
    ensures forall k :: 0 <= k < |r| ==> r[k] < n
    ensures forall j, k :: 0 <= j < k < |r| ==> r[j] < r[k]
    ensures forall i :: 0 <= i < n ==>
              (i in r <==> IsStale(getFieldTargetId(sorts[i].field), breakoutIds))
  {
    if n == 0 then []
    else
      var earlier := StaleIndices(sorts, breakoutIds, getFieldTargetId, n - 1);
      if IsStale(getFieldTargetId(sorts[n - 1].field), breakoutIds) then earlier + [n - 1]
      else earlier
  }

  /** Applies `remove` once per index, in the order the indices are given. */
  function Prune<C>(remove: (C, int) -> C, clause: C, indices: seq<nat>): C
    decreases |indices|
  {
    if indices == [] then clause
    else remove(Prune(remove, clause, indices[..|indices| - 1]), indices[|indices| - 1])
  }

  /** An entry is never selected when its target id is null. */
  lemma NullTargetNeverSelected(sorts: seq<OrderBy>, breakoutIds: seq<Field>,
                                getFieldTargetId: Field -> Option<Field>, i: nat)
    requires i < |sorts|
    requires getFieldTargetId(sorts[i].field).None?
    ensures i !in StaleIndices(sorts, breakoutIds, getFieldTargetId, |sorts|)
  {
  }

  /** When none of the first `n` entries is stale the loop removes nothing. */
  lemma {:induction false} NoStaleNoIndices(sorts: seq<OrderBy>, breakoutIds: seq<Field>,
                                            getFieldTargetId: Field -> Option<Field>, n: nat)
    requires n <= |sorts|
    requires forall i :: 0 <= i < n ==> !IsStale(getFieldTargetId(sorts[i].field), breakoutIds)
    ensures StaleIndices(sorts, breakoutIds, getFieldTargetId, n) == []
  {
    if n > 0 {
      NoStaleNoIndices(sorts, breakoutIds, getFieldTargetId, n - 1);
    }
  }
}
