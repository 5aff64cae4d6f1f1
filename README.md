# Query clause coordinator (Metabase `lib/query/query.js`)

This project models the clause coordinator of Metabase's structured query
editor. A structured query is an object with five optional clause keys:
`aggregation`, `breakout`, `filter`, `order_by` and `limit`. Every exported
edit (add, update, remove, clear) asks a per-clause helper for the new clause.
It then writes that clause back onto the same query object through one write
primitive, `setClause`, and returns that object. Aggregation and breakout edits
first apply cross-clause rules:

- switching the aggregation to or from "bare rows" clears the sorting;
- switching to bare rows clears the breakouts;
- a breakout edit removes each order-by entry whose non-null target field id
  is not among the new breakout ids. The loop removes by index. The indices
  come from the order-by list as it was before the first removal.

Structure:

- `wrappers.dfy` has `Option`. `None` stands for an absent key, `null` or
  `undefined`.
- `helpers.dfy` (module `Helpers`) holds the collaborators. These are the
  helper modules `./aggregation`, `./breakout`, `./filter`, `./order_by`,
  `./limit` and `getFieldTargetId`. They form a record of function-typed
  fields named as the source imports them (`h.A.isBareRows`,
  `h.O.removeOrderBy`, ...). Every operation that calls a helper takes this
  record as its first argument. The write-only operations (`SetFilterClause`,
  `SetOrderByClause`, `SetLimitClause`, `SetClause` and their `ClauseMap`
  counterparts) call none and do not take it. Beyond being pure, total
  functions (see "## Left out"), nothing is assumed about what the helpers
  return. Clause items and the limit are abstract types. An order-by entry is
  the pair `OrderBy(field, direction)`. A breakout entry is an optional `Field`.
- `pruning.dfy` (module `Pruning`) covers the order-by pruning rule: which
  entries are selected, at which indices, and how the removals are applied.
- `clauses.dfy` (module `Clauses`) describes the query as a value
  (`ClauseMap`). It gives each operation's meaning as a function from the
  clauses before the call to the clauses after it. It also holds the
  accessors and predicates, and the lemmas about all of these.
- `query.dfy` (module `Query`) is the coordinator itself. The class
  `StructuredQuery` has the five keys as mutable fields. The source's
  functions become methods with `modifies query` that return the same object.
  Each method's `ensures` ties the new `State()` to the matching `ClauseMap`
  function of the old one. `SetBreakoutClause` keeps the source's `for` loop
  over the order-by list read before the loop, and its invariant records
  which removals have been applied.

The accessors and predicates (`getAggregations`, `isBareRows`,
`hasEmptyAggregation`, `hasValidAggregation`, `getBreakouts`, `getFilters`,
`canAddFilter`, `getOrderBys`; query.js:23, 29-31, 35, 43, 49, 53) are the
functions `Clauses.GetAggregations` ... `Clauses.GetOrderBys`. A function
cannot change the query. What each reads after each kind of edit is stated by
the `...ReadBack` lemmas below.

The code and an informal reading of it disagree on the breakout rule. One
might expect this: with breakouts `[A, B]` and order-by `[[A, asc], [C, desc]]`,
dropping `B` leaves the order-by alone. The code instead removes `[C, desc]`,
because `C` is a non-null target id outside the new breakouts
(`Clauses.SortOutsideNewBreakoutIsRemoved`). The removal indices are taken
before the first removal, and this has two effects with a helper that removes
by position:

- A stale entry can survive. With two stale entries `[a, b]`, only `a` is
  removed, because index 1 no longer exists after the first removal
  (`Clauses.StaleIndexSkipsNextEntry`).
- An entry the rule keeps can be deleted. With `[a, b, n]`, where `a` and `b`
  are stale and `n` has a null target id or one the new breakout keeps, the
  result is `[b]`. The second removal, at index 1, hits `n`
  (`Clauses.StaleIndexRemovesKeptEntry`).

So "entries with null target ids are never removed" holds for the entries
selected (`Pruning.NullTargetNeverSelected`), not for the entries actually
removed. Likewise, "every order-by entry refers to a breakout field" does not
always hold after a breakout edit. The model follows the code.

## Model

| member | source | states |
|---|---|---|
| `Pruning.NonNull` | frontend/src/metabase/lib/query/query.js:80 | the breakout ids are exactly the values of the non-null breakout entries (both directions), and there are no more of them than entries |
| `Pruning.StaleIndices` | frontend/src/metabase/lib/query/query.js:81-85 | the indices passed to removeOrderBy are positions in the order-by list read before the loop, strictly increasing, and a position is among them iff that entry's target id is non-null and not a breakout id |
| `Pruning.NullTargetNeverSelected` | frontend/src/metabase/lib/query/query.js:82-83 | an order-by entry whose target id is null is never selected for removal |
| `Pruning.NoStaleNoIndices` | frontend/src/metabase/lib/query/query.js:81-85 | if no entry among those visited is stale, no removal index is produced |
| `Clauses.ClauseMap.Get` | frontend/src/metabase/lib/query/query.js:100-105 | reading `query[name]`: a present result is a clause of the kind stored under that key |
| `Clauses.ClauseMap.Set` | frontend/src/metabase/lib/query/query.js:101-108 | after setClause the named key reads back exactly the clause, or is absent when the clause is null; each of the other four keys reads as before |
| `Clauses.ClauseMap.WithAggregation` | frontend/src/metabase/lib/query/query.js:66-78 | aggregation ends up exactly the new clause; filter and limit are unchanged. If the bare-rows status flips to aggregated, the order-by is cleared and the breakout kept. If the new clause is bare rows, the breakout is cleared and the order-by (cleared first when the status flipped) is pruned against the cleared breakout. If the status stays not bare rows, only the aggregation changes |
| `Clauses.ClauseMap.WithBreakout` | frontend/src/metabase/lib/query/query.js:79-88 | breakout ends up exactly the new clause; the order-by is the pruned one; aggregation, filter and limit are unchanged |
| `Clauses.ClauseMap.WithFilter` | frontend/src/metabase/lib/query/query.js:89-91 | a filter write changes the filter key only |
| `Clauses.ClauseMap.WithOrderBy` | frontend/src/metabase/lib/query/query.js:92-94 | an order-by write changes the order-by key only |
| `Clauses.ClauseMap.WithLimit` | frontend/src/metabase/lib/query/query.js:95-97 | a limit write changes the limit key only |
| `Clauses.AggregationReadBack` | frontend/src/metabase/lib/query/query.js:23-31 | after an aggregation edit getAggregations, isBareRows, hasEmptyAggregation and hasValidAggregation read the new clause; the filter readers read what they read before |
| `Clauses.BreakoutReadBack` | frontend/src/metabase/lib/query/query.js:35-39 | after a breakout edit getBreakouts reads the new clause and getOrderBys the pruned order-by; aggregation and filter readers are unaffected |
| `Clauses.FilterReadBack` | frontend/src/metabase/lib/query/query.js:43-49 | after a filter edit getFilters and canAddFilter read the new clause; every other reader is unaffected |
| `Clauses.OrderByReadBack` | frontend/src/metabase/lib/query/query.js:53-57 | after an order-by edit getOrderBys reads the new clause; every other reader is unaffected |
| `Clauses.PruneKeepsOrderByWhenNothingStale` | frontend/src/metabase/lib/query/query.js:80-86 | when every order-by target id is null or kept by the new breakout, the order-by clause is left exactly as it was |
| `Clauses.SortOutsideNewBreakoutIsRemoved` | frontend/src/metabase/lib/query/query.js:80-86 | with new breakout ids [A] and order-by entries on A and C (A differs from C), exactly one removal happens, at index 1 |
| `Clauses.StaleIndexSkipsNextEntry` | frontend/src/metabase/lib/query/query.js:81-85 | for a helper that removes by position, two stale entries [a, b] leave [b]: the second index is stale after the first removal |
| `Clauses.StaleIndexRemovesKeptEntry` | frontend/src/metabase/lib/query/query.js:81-85 | for a helper that removes by position, [a, b, n] with a and b stale and n kept (null target id or a kept breakout id) leaves [b]: the stale second index deletes n |
| `Clauses.PrunedOrderBy` | frontend/src/metabase/lib/query/query.js:80-86 | no contract; defined as Prune of removeOrderBy over StaleIndices of the order-by list read before the loop, against the non-null ids of the new breakout clause; its properties are the pruning lemmas |
| `Pruning.Prune` | frontend/src/metabase/lib/query/query.js:84 | no contract; defined as one removeOrderBy call per index, in the given order, each on the result of the previous one |
| `Pruning.IsStale` | frontend/src/metabase/lib/query/query.js:83 | no contract; defined as `sortId != null && !_.contains(breakoutIds, sortId)` |
| `Clauses.GetAggregations` | frontend/src/metabase/lib/query/query.js:23 | no contract; defined as the aggregation helper's getAggregations of the aggregation key; read back by `Clauses.AggregationReadBack` |
| `Clauses.IsBareRows` | frontend/src/metabase/lib/query/query.js:29 | no contract; defined as the aggregation helper's isBareRows of the aggregation key |
| `Clauses.HasEmptyAggregation` | frontend/src/metabase/lib/query/query.js:30 | no contract; defined as the aggregation helper's hasEmptyAggregation of the aggregation key |
| `Clauses.HasValidAggregation` | frontend/src/metabase/lib/query/query.js:31 | no contract; defined as the aggregation helper's hasValidAggregation of the aggregation key |
| `Clauses.GetBreakouts` | frontend/src/metabase/lib/query/query.js:35 | no contract; defined as the breakout helper's getBreakouts of the breakout key; read back by `Clauses.BreakoutReadBack` |
| `Clauses.GetFilters` | frontend/src/metabase/lib/query/query.js:43 | no contract; defined as the filter helper's getFilters of the filter key; read back by `Clauses.FilterReadBack` |
| `Clauses.CanAddFilter` | frontend/src/metabase/lib/query/query.js:49 | no contract; defined as the filter helper's canAddFilter of the filter key |
| `Clauses.GetOrderBys` | frontend/src/metabase/lib/query/query.js:53 | no contract; defined as the order-by helper's getOrderBys of the order-by key; read back by `Clauses.OrderByReadBack` |
| `Query.AddAggregation` | frontend/src/metabase/lib/query/query.js:24 | the new state is the aggregation rule applied to the helper's added clause; same object returned |
| `Query.UpdateAggregation` | frontend/src/metabase/lib/query/query.js:25 | likewise with the helper's updated clause |
| `Query.RemoveAggregation` | frontend/src/metabase/lib/query/query.js:26 | likewise with the helper's clause after removal |
| `Query.ClearAggregations` | frontend/src/metabase/lib/query/query.js:27 | likewise with the helper's cleared clause |
| `Query.AddBreakout` | frontend/src/metabase/lib/query/query.js:36 | the new state is the breakout rule applied to the helper's added clause; same object returned |
| `Query.UpdateBreakout` | frontend/src/metabase/lib/query/query.js:37 | likewise with the helper's updated clause |
| `Query.RemoveBreakout` | frontend/src/metabase/lib/query/query.js:38 | likewise with the helper's clause after removal |
| `Query.ClearBreakouts` | frontend/src/metabase/lib/query/query.js:39 | likewise with the helper's cleared clause |
| `Query.AddFilter` | frontend/src/metabase/lib/query/query.js:44 | only the filter key changes, to the helper's added clause; same object returned |
| `Query.UpdateFilter` | frontend/src/metabase/lib/query/query.js:45 | likewise with the helper's updated clause |
| `Query.RemoveFilter` | frontend/src/metabase/lib/query/query.js:46 | likewise with the helper's clause after removal |
| `Query.ClearFilters` | frontend/src/metabase/lib/query/query.js:47 | likewise with the helper's cleared clause |
| `Query.AddOrderBy` | frontend/src/metabase/lib/query/query.js:54 | only the order-by key changes, to the helper's added clause; same object returned |
| `Query.UpdateOrderBy` | frontend/src/metabase/lib/query/query.js:55 | likewise with the helper's updated clause |
| `Query.RemoveOrderBy` | frontend/src/metabase/lib/query/query.js:56 | likewise with the helper's clause after removal |
| `Query.ClearOrderBy` | frontend/src/metabase/lib/query/query.js:57 | likewise with the helper's cleared clause |
| `Query.UpdateLimit` | frontend/src/metabase/lib/query/query.js:61 | only the limit key changes, to the helper's updated limit; same object returned |
| `Query.ClearLimit` | frontend/src/metabase/lib/query/query.js:62 | likewise with the helper's cleared limit |
| `Query.SetAggregationClause` | frontend/src/metabase/lib/query/query.js:66-78 | clears the order-by when the bare-rows status changes, then clears the breakouts (pruning the order-by again) when the new clause is bare rows, then writes the aggregation; the new state is `WithAggregation` of the old |
| `Query.SetBreakoutClause` | frontend/src/metabase/lib/query/query.js:79-88 | the loop calls removeOrderBy once per stale entry, at its index in the order-by list read before the loop, in increasing order, and then writes the breakout; the new state is `WithBreakout` of the old |
| `Query.SetFilterClause` | frontend/src/metabase/lib/query/query.js:89-91 | writes only the filter key |
| `Query.SetOrderByClause` | frontend/src/metabase/lib/query/query.js:92-94 | writes only the order-by key |
| `Query.SetLimitClause` | frontend/src/metabase/lib/query/query.js:95-97 | writes only the limit key |
| `Query.SetClause` | frontend/src/metabase/lib/query/query.js:101-108 | deletes the key for a null clause, assigns it otherwise, changes no other key, and returns the same object |

## Left out

- The helper modules `./aggregation`, `./breakout`, `./filter`, `./limit`, `./order_by` and `getFieldTargetId` of `metabase/lib/query` are not part of this model. They are not visible, so they are parameters that may behave arbitrarily. No property relies on their shapes or validity rules, for example whether `remove` returns null for an emptied list. `Helpers.RemovesAtIndex` only appears as a lemma hypothesis.
- Out-of-range indices for update and remove are handled by the helpers, so they are not modelled here. The coordinator passes the index through unchanged.
- `canAddFilter`, `hasEmptyAggregation` and `hasValidAggregation` are modelled only as delegations that read the query. Their meaning lives in the helpers.
- The Flow type imports (query.js:3-10) are not modelled. Underscore's `_.contains` is sequence membership, and `!= null` is `Some?`.
- A key that is absent, holds `null` or holds `undefined` is the same `None`. The code treats all three alike through its `== null` comparison.
- Query.SetClause: requires the clause's kind to match the key. The source's parameter is untyped (`?any`), but all five callers in the file pass a clause of the matching kind.
- The accessors carry no contract of their own: as functions they cannot modify the query, and their results are stated by the read-back lemmas.
- The rule that order-by entries refer only to breakout fields is not stated as a preserved invariant. The code does not establish it in general: see `Clauses.StaleIndexSkipsNextEntry`, and the model keeps the stale-index behaviour as written.
- "Entries with a null target id, or one the new breakout keeps, are never removed" is proved only of the entries selected for removal (`Pruning.StaleIndices`, `Pruning.NullTargetNeverSelected`). It is not proved of the entries actually removed, because it does not hold: `Clauses.StaleIndexRemovesKeptEntry` shows such an entry deleted by a stale index.
- The helpers are modelled as pure, total functions: they do not throw and do not change the values they are given. Three things rest on this:
  - the order-by list read at query.js:81 stays as it was during the loop even though `Array.prototype.entries()` iterates the live array, which holds only if `removeOrderBy` does not splice the array `getOrderBys` returned;
  - `wasBareRows` at query.js:67 sees the aggregation as it was before the helper call at query.js:24-27;
  - no helper throws partway through the loop, which would leave the order-by partly pruned and the breakout unwritten.
