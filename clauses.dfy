/**
  The value of a structured query: five optional clause keys. This module
  gives the meaning of every coordinator operation as a function from the
  query's clauses before the call to its clauses after it, and proves what
  the coordinator promises about each.
 */
module Clauses {
  import opened Wrappers
  import opened Helpers
  import opened Pruning

  /** The keys `setClause` may write. */
  datatype ClauseName = AggregationKey | BreakoutKey | FilterKey | OrderByKey | LimitKey

  /** A clause of some kind, as `setClause` receives it. */
  datatype Clause =
    | AggregationClause(aggregations: seq<Aggregation>)
    | BreakoutClause(breakouts: seq<Breakout>)
    | FilterClause(filters: seq<Filter>)
    | OrderByClause(orderBys: seq<OrderBy>)
    | LimitClause(limit: Limit)
  {
    /** The key a clause of this kind is stored under. */
    function Name(): ClauseName {
      match this
      case AggregationClause(_) => AggregationKey
      case BreakoutClause(_) => BreakoutKey
      case FilterClause(_) => FilterKey
      case OrderByClause(_) => OrderByKey
      case LimitClause(_) => LimitKey
    }
  }

  /** The five optional keys of a structured query; `None` is an absent key. */
  datatype ClauseMap = ClauseMap(
    aggregation: Option<seq<Aggregation>>,
    breakout: Option<seq<Breakout>>,
    filter: Option<seq<Filter>>,
    orderBy: Option<seq<OrderBy>>,
    limit: Option<Limit>)
  {
    /** `query[name]`: the clause held under a key, `None` when it is absent. */
    function Get(name: ClauseName): (c: Option<Clause>)
      ensures c.Some? ==> c.value.Name() == name
    {
      match name
      case AggregationKey => if aggregation.None? then None else Some(AggregationClause(aggregation.value))
      case BreakoutKey => if breakout.None? then None else Some(BreakoutClause(breakout.value))
      case FilterKey => if filter.None? then None else Some(FilterClause(filter.value))
      case OrderByKey => if orderBy.None? then None else Some(OrderByClause(orderBy.value))
      case LimitKey => if limit.None? then None else Some(LimitClause(limit.value))
    }

    /**
      The write primitive `setClause`: a null clause deletes the key, any
      other clause is stored under it. No other key changes.
     */
    function Set(name: ClauseName, clause: Option<Clause>): (r: ClauseMap)
      requires clause.Some? ==> clause.value.Name() == name
      ensures r.Get(name) == clause
      ensures forall other :: other != name ==> r.Get(other) == Get(other)
    {
      match clause
      case None =>
        (match name
         case AggregationKey => this.(aggregation := None)
         case BreakoutKey => this.(breakout := None)
         case FilterKey => this.(filter := None)
         case OrderByKey => this.(orderBy := None)
         case LimitKey => this.(limit := None))
      case Some(c) =>
        (match c
         case AggregationClause(a) => this.(aggregation := Some(a))
         case BreakoutClause(b) => this.(breakout := Some(b))
         case FilterClause(f) => this.(filter := Some(f))
         case OrderByClause(o) => this.(orderBy := Some(o))
         case LimitClause(l) => this.(limit := Some(l)))
    }

    /** `setAggregationClause`: the sorting and dimension rules, then the write. */
    function WithAggregation(h: Helpers, clause: Option<seq<Aggregation>>): (r: ClauseMap)
      ensures r.aggregation == clause
      ensures r.filter == filter && r.limit == limit
      ensures h.A.isBareRows(clause) != h.A.isBareRows(aggregation) && !h.A.isBareRows(clause) ==>
                r.orderBy == h.O.clearOrderBy(orderBy) && r.breakout == breakout
      ensures h.A.isBareRows(clause) ==>
                var sorts := if h.A.isBareRows(aggregation) then orderBy else h.O.clearOrderBy(orderBy);
                r.breakout == h.B.clearBreakouts(breakout) &&
                r.orderBy == PrunedOrderBy(h, sorts, h.B.clearBreakouts(breakout))
      ensures h.A.isBareRows(clause) == h.A.isBareRows(aggregation) && !h.A.isBareRows(clause) ==>
                r == this.(aggregation := clause)
    {
      var wasBareRows := h.A.isBareRows(aggregation);
      var isBareRows := h.A.isBareRows(clause);
      var sorted := if isBareRows != wasBareRows then WithOrderBy(h.O.clearOrderBy(orderBy)) else this;
      var grouped := if isBareRows then sorted.WithBreakout(h, h.B.clearBreakouts(sorted.breakout)) else sorted;
      grouped.Set(AggregationKey, if clause.None? then None else Some(AggregationClause(clause.value)))
    }

    /** `setBreakoutClause`: prune the order-by entries, then write the breakout. */
    function WithBreakout(h: Helpers, clause: Option<seq<Breakout>>): (r: ClauseMap)
      ensures r.breakout == clause
      ensures r.orderBy == PrunedOrderBy(h, orderBy, clause)
      ensures r.aggregation == aggregation && r.filter == filter && r.limit == limit
    {
      this.(orderBy := PrunedOrderBy(h, orderBy, clause))
        .Set(BreakoutKey, if clause.None? then None else Some(BreakoutClause(clause.value)))
    }

    /** `setFilterClause`: writes the filter key and nothing else. */
    function WithFilter(clause: Option<seq<Filter>>): (r: ClauseMap)
      ensures r == this.(filter := clause)
    {
      Set(FilterKey, if clause.None? then None else Some(FilterClause(clause.value)))
    }

    /** `setOrderByClause`: writes the order-by key and nothing else. */
    function WithOrderBy(clause: Option<seq<OrderBy>>): (r: ClauseMap)
      ensures r == this.(orderBy := clause)
    {
      Set(OrderByKey, if clause.None? then None else Some(OrderByClause(clause.value)))
    }

    /** `setLimitClause`: writes the limit key and nothing else. */
    function WithLimit(clause: Option<Limit>): (r: ClauseMap)
      ensures r == this.(limit := clause)
    {
      Set(LimitKey, if clause.None? then None else Some(LimitClause(clause.value)))
    }
  }

  /**
    The order-by clause left by the loop of `setBreakoutClause`: one
    `removeOrderBy` per stale entry, at that entry's position in the
    order-by list as it was before the loop.
   */
  function PrunedOrderBy(h: Helpers, orderBy: Option<seq<OrderBy>>,
                         breakoutClause: Option<seq<Breakout>>): Option<seq<OrderBy>>
  {
    var sorts := h.O.getOrderBys(orderBy);
    var breakoutIds := NonNull(h.B.getBreakouts(breakoutClause));
    Prune(h.O.removeOrderBy, orderBy, StaleIndices(sorts, breakoutIds, h.getFieldTargetId, |sorts|))
  }

  // The accessors and predicates: each reads one key through its helper.

  function GetAggregations(h: Helpers, query: ClauseMap): seq<Aggregation> {
    h.A.getAggregations(query.aggregation)
  }

  predicate IsBareRows(h: Helpers, query: ClauseMap) {
    h.A.isBareRows(query.aggregation)
  }

  predicate HasEmptyAggregation(h: Helpers, query: ClauseMap) {
    h.A.hasEmptyAggregation(query.aggregation)
  }

  predicate HasValidAggregation(h: Helpers, query: ClauseMap) {
    h.A.hasValidAggregation(query.aggregation)
  }

  function GetBreakouts(h: Helpers, query: ClauseMap): seq<Breakout> {
    h.B.getBreakouts(query.breakout)
  }

  function GetFilters(h: Helpers, query: ClauseMap): seq<Filter> {
    h.F.getFilters(query.filter)
  }

  predicate CanAddFilter(h: Helpers, query: ClauseMap) {
    h.F.canAddFilter(query.filter)
  }

  function GetOrderBys(h: Helpers, query: ClauseMap): seq<OrderBy> {
    h.O.getOrderBys(query.orderBy)
  }

  // What each edit does to what the accessors read back.

  /** After an aggregation edit the aggregation readers see the new clause; the filter readers see the old one. */
  lemma AggregationReadBack(h: Helpers, query: ClauseMap, clause: Option<seq<Aggregation>>)
    ensures var r := query.WithAggregation(h, clause);
      && GetAggregations(h, r) == h.A.getAggregations(clause)
      && IsBareRows(h, r) == h.A.isBareRows(clause)
      && HasEmptyAggregation(h, r) == h.A.hasEmptyAggregation(clause)
      && HasValidAggregation(h, r) == h.A.hasValidAggregation(clause)
      && GetFilters(h, r) == GetFilters(h, query)
      && CanAddFilter(h, r) == CanAddFilter(h, query)
  {
  }

  /** After a breakout edit the breakout reader sees the new clause; the aggregation and filter readers are unaffected. */
  lemma BreakoutReadBack(h: Helpers, query: ClauseMap, clause: Option<seq<Breakout>>)
    ensures var r := query.WithBreakout(h, clause);
      && GetBreakouts(h, r) == h.B.getBreakouts(clause)
      && GetOrderBys(h, r) == h.O.getOrderBys(PrunedOrderBy(h, query.orderBy, clause))
      && GetAggregations(h, r) == GetAggregations(h, query)
      && IsBareRows(h, r) == IsBareRows(h, query)
      && HasEmptyAggregation(h, r) == HasEmptyAggregation(h, query)
      && HasValidAggregation(h, r) == HasValidAggregation(h, query)
      && GetFilters(h, r) == GetFilters(h, query)
      && CanAddFilter(h, r) == CanAddFilter(h, query)
  {
  }

  /** A filter edit is seen by the filter readers and by no other reader. */
  lemma FilterReadBack(h: Helpers, query: ClauseMap, clause: Option<seq<Filter>>)
    ensures var r := query.WithFilter(clause);
      && GetFilters(h, r) == h.F.getFilters(clause)
      && CanAddFilter(h, r) == h.F.canAddFilter(clause)
      && GetAggregations(h, r) == GetAggregations(h, query)
      && IsBareRows(h, r) == IsBareRows(h, query)
      && HasEmptyAggregation(h, r) == HasEmptyAggregation(h, query)
      && HasValidAggregation(h, r) == HasValidAggregation(h, query)
      && GetBreakouts(h, r) == GetBreakouts(h, query)
      && GetOrderBys(h, r) == GetOrderBys(h, query)
  {
  }

  /** An order-by edit is seen by the order-by reader and by no other reader. */
  lemma OrderByReadBack(h: Helpers, query: ClauseMap, clause: Option<seq<OrderBy>>)
    ensures var r := query.WithOrderBy(clause);
      && GetOrderBys(h, r) == h.O.getOrderBys(clause)
      && GetAggregations(h, r) == GetAggregations(h, query)
      && IsBareRows(h, r) == IsBareRows(h, query)
      && HasEmptyAggregation(h, r) == HasEmptyAggregation(h, query)
      && HasValidAggregation(h, r) == HasValidAggregation(h, query)
      && GetBreakouts(h, r) == GetBreakouts(h, query)
      && GetFilters(h, r) == GetFilters(h, query)
      && CanAddFilter(h, r) == CanAddFilter(h, query)
  {
  }

  // The order-by pruning of setBreakoutClause.

  /** When every order-by entry has a null target id or one the new breakout keeps, the order-by clause is untouched. */
  lemma PruneKeepsOrderByWhenNothingStale(h: Helpers, orderBy: Option<seq<OrderBy>>,
                                          breakoutClause: Option<seq<Breakout>>)
    requires var sorts := h.O.getOrderBys(orderBy);
      forall i :: 0 <= i < |sorts| ==>
        var sortId := h.getFieldTargetId(sorts[i].field);
        sortId.None? || Some(sortId.value) in h.B.getBreakouts(breakoutClause)
    ensures PrunedOrderBy(h, orderBy, breakoutClause) == orderBy
  {
    var sorts := h.O.getOrderBys(orderBy);
    NoStaleNoIndices(sorts, NonNull(h.B.getBreakouts(breakoutClause)), h.getFieldTargetId, |sorts|);
  }

  /**
    Breakout [A, B] becomes [A] while the order-by list is [[A, _], [C, _]]:
    the entry on C is stale (its target is not a breakout id), so the loop
    removes index 1 even though C had nothing to do with the dropped B.
   */
  lemma SortOutsideNewBreakoutIsRemoved(
    h: Helpers, orderBy: Option<seq<OrderBy>>, breakoutClause: Option<seq<Breakout>>,
    sortA: OrderBy, sortC: OrderBy, fieldA: Field, fieldC: Field)
    requires fieldA != fieldC
    requires h.O.getOrderBys(orderBy) == [sortA, sortC]
    requires h.getFieldTargetId(sortA.field) == Some(fieldA)
    requires h.getFieldTargetId(sortC.field) == Some(fieldC)
    requires h.B.getBreakouts(breakoutClause) == [Some(fieldA)]
    ensures PrunedOrderBy(h, orderBy, breakoutClause) == h.O.removeOrderBy(orderBy, 1)
  {
    var sorts := h.O.getOrderBys(orderBy);
    var ids := NonNull(h.B.getBreakouts(breakoutClause));
    assert fieldA in ids && fieldC !in ids;
    assert !IsStale(h.getFieldTargetId(sorts[0].field), ids);
    assert IsStale(h.getFieldTargetId(sorts[1].field), ids);
    assert StaleIndices(sorts, ids, h.getFieldTargetId, 1) == [];
    assert StaleIndices(sorts, ids, h.getFieldTargetId, 2) == [1];
    assert [1][..0] == [];
  }

  /**
    The stale-index edge case: with a helper that removes by position, two
    adjacent stale entries [a, b] lose only a. Removing index 0 shifts b to
    index 0, and the second removal, at the snapshot's index 1, is then out of
    range.
   */
  lemma StaleIndexSkipsNextEntry(h: Helpers, orderBy: Option<seq<OrderBy>>,
                                 breakoutClause: Option<seq<Breakout>>, a: OrderBy, b: OrderBy)
    requires RemovesAtIndex(h.O)
    requires h.O.getOrderBys(orderBy) == [a, b]
    requires IsStale(h.getFieldTargetId(a.field), NonNull(h.B.getBreakouts(breakoutClause)))
    requires IsStale(h.getFieldTargetId(b.field), NonNull(h.B.getBreakouts(breakoutClause)))
    ensures h.O.getOrderBys(PrunedOrderBy(h, orderBy, breakoutClause)) == [b]
  {
    var sorts := h.O.getOrderBys(orderBy);
    var ids := NonNull(h.B.getBreakouts(breakoutClause));
    assert StaleIndices(sorts, ids, h.getFieldTargetId, 1) == [0];
    assert StaleIndices(sorts, ids, h.getFieldTargetId, 2) == [0, 1];
    assert [0, 1][..1] == [0] && [0][..0] == [];
    var once := h.O.removeOrderBy(orderBy, 0);
    assert h.O.getOrderBys(once) == [b];
    assert h.O.getOrderBys(h.O.removeOrderBy(once, 1)) == [b];
    assert Prune(h.O.removeOrderBy, orderBy, [0, 1]) == h.O.removeOrderBy(once, 1);
  }

  /** One removal of a helper that removes by position. */
  lemma RemoveAtIndexStep(O: OrderByHelper, clause: Option<seq<OrderBy>>, i: int)
    requires RemovesAtIndex(O)
    ensures var sorts := O.getOrderBys(clause);
      O.getOrderBys(O.removeOrderBy(clause, i)) ==
        if 0 <= i < |sorts| then sorts[..i] + sorts[i + 1..] else sorts
  {
  }

  /** The removal indices for three entries of which the first two are stale. */
  lemma TwoStaleThenKeptIndices(sorts: seq<OrderBy>, breakoutIds: seq<Field>,
                                getFieldTargetId: Field -> Option<Field>)
    requires |sorts| == 3
    requires IsStale(getFieldTargetId(sorts[0].field), breakoutIds)
    requires IsStale(getFieldTargetId(sorts[1].field), breakoutIds)
    requires !IsStale(getFieldTargetId(sorts[2].field), breakoutIds)
    ensures StaleIndices(sorts, breakoutIds, getFieldTargetId, 3) == [0, 1]
  {
    assert StaleIndices(sorts, breakoutIds, getFieldTargetId, 0) == [];
    assert StaleIndices(sorts, breakoutIds, getFieldTargetId, 1) == [0];
    assert StaleIndices(sorts, breakoutIds, getFieldTargetId, 2) == [0, 1];
  }

  /**
    The other face of the stale-index edge case: with a helper that removes
    by position, order-by [a, b, n] with a and b stale and n kept (its target
    id is null or a breakout id) ends as [b]. Removing index 0 shifts n to
    index 1, and the second removal, at the snapshot's index 1, deletes n.
   */
  lemma StaleIndexRemovesKeptEntry(h: Helpers, orderBy: Option<seq<OrderBy>>,
                                   breakoutClause: Option<seq<Breakout>>, a: OrderBy, b: OrderBy, n: OrderBy)
    requires RemovesAtIndex(h.O)
    requires h.O.getOrderBys(orderBy) == [a, b, n]
    requires IsStale(h.getFieldTargetId(a.field), NonNull(h.B.getBreakouts(breakoutClause)))
    requires IsStale(h.getFieldTargetId(b.field), NonNull(h.B.getBreakouts(breakoutClause)))
    requires !IsStale(h.getFieldTargetId(n.field), NonNull(h.B.getBreakouts(breakoutClause)))
    ensures h.O.getOrderBys(PrunedOrderBy(h, orderBy, breakoutClause)) == [b]
  {
    var sorts := h.O.getOrderBys(orderBy);
    var ids := NonNull(h.B.getBreakouts(breakoutClause));
    TwoStaleThenKeptIndices(sorts, ids, h.getFieldTargetId);
    var once := h.O.removeOrderBy(orderBy, 0);
    RemoveAtIndexStep(h.O, orderBy, 0);
    assert h.O.getOrderBys(once) == [b, n];
    RemoveAtIndexStep(h.O, once, 1);
    assert h.O.getOrderBys(h.O.removeOrderBy(once, 1)) == [b];
    assert [0, 1][..1] == [0] && [0][..0] == [];
    assert Prune(h.O.removeOrderBy, orderBy, [0, 1]) == h.O.removeOrderBy(once, 1);
  }
}
