/**
  The query clause coordinator. A structured query is an object with five
  optional clause keys; every exported edit computes a new clause through a
  helper and writes it back onto the same object, applying the cross-clause
  rules for aggregation and breakout edits. `h` stands for the imported
  helper modules.
 */
module Query {
  import opened Wrappers
  import opened Helpers
  import opened Pruning
  import opened Clauses

  /** The query object; an absent key is `None`. */
  class StructuredQuery {
    var aggregation: Option<seq<Aggregation>>
    var breakout: Option<seq<Breakout>>
    var filter: Option<seq<Filter>>
    var orderBy: Option<seq<OrderBy>>
    var limit: Option<Limit>

    constructor (clauses: ClauseMap)
      ensures State() == clauses
    {
      aggregation := clauses.aggregation;
      breakout := clauses.breakout;
      filter := clauses.filter;
      orderBy := clauses.orderBy;
      limit := clauses.limit;
    }

    /** The clauses the object currently holds. */
    function State(): ClauseMap
      reads this
    {
      ClauseMap(aggregation, breakout, filter, orderBy, limit)
    }
  }

  // AGGREGATION

  method AddAggregation(h: Helpers, query: StructuredQuery, aggregation: Aggregation) returns (r: StructuredQuery)
    modifies query
    ensures r == query
    ensures query.State() == old(query.State()).WithAggregation(h, h.A.addAggregation(old(query.aggregation), aggregation))
  {
    r := SetAggregationClause(h, query, h.A.addAggregation(query.aggregation, aggregation));
  }

  method UpdateAggregation(h: Helpers, query: StructuredQuery, index: int, aggregation: Aggregation) returns (r: StructuredQuery)
    modifies query
    ensures r == query
    ensures query.State() == old(query.State()).WithAggregation(h, h.A.updateAggregation(old(query.aggregation), index, aggregation))
  {
    r := SetAggregationClause(h, query, h.A.updateAggregation(query.aggregation, index, aggregation));
  }

  method RemoveAggregation(h: Helpers, query: StructuredQuery, index: int) returns (r: StructuredQuery)
    modifies query
    ensures r == query
    ensures query.State() == old(query.State()).WithAggregation(h, h.A.removeAggregation(old(query.aggregation), index))
  {
    r := SetAggregationClause(h, query, h.A.removeAggregation(query.aggregation, index));
  }

  method ClearAggregations(h: Helpers, query: StructuredQuery) returns (r: StructuredQuery)
    modifies query
    ensures r == query
    ensures query.State() == old(query.State()).WithAggregation(h, h.A.clearAggregations(old(query.aggregation)))
  {
    r := SetAggregationClause(h, query, h.A.clearAggregations(query.aggregation));
  }

  // BREAKOUT

  method AddBreakout(h: Helpers, query: StructuredQuery, breakout: Breakout) returns (r: StructuredQuery)
    modifies query
    ensures r == query
    ensures query.State() == old(query.State()).WithBreakout(h, h.B.addBreakout(old(query.breakout), breakout))
  {
    r := SetBreakoutClause(h, query, h.B.addBreakout(query.breakout, breakout));
  }

  method UpdateBreakout(h: Helpers, query: StructuredQuery, index: int, breakout: Breakout) returns (r: StructuredQuery)
    modifies query
    ensures r == query
    ensures query.State() == old(query.State()).WithBreakout(h, h.B.updateBreakout(old(query.breakout), index, breakout))
  {
    r := SetBreakoutClause(h, query, h.B.updateBreakout(query.breakout, index, breakout));
  }

  method RemoveBreakout(h: Helpers, query: StructuredQuery, index: int) returns (r: StructuredQuery)
    modifies query
    ensures r == query
    ensures query.State() == old(query.State()).WithBreakout(h, h.B.removeBreakout(old(query.breakout), index))
  {
    r := SetBreakoutClause(h, query, h.B.removeBreakout(query.breakout, index));
  }

  method ClearBreakouts(h: Helpers, query: StructuredQuery) returns (r: StructuredQuery)
    modifies query
    ensures r == query
    ensures query.State() == old(query.State()).WithBreakout(h, h.B.clearBreakouts(old(query.breakout)))
  {
    r := SetBreakoutClause(h, query, h.B.clearBreakouts(query.breakout));
  }

  // FILTER

  method AddFilter(h: Helpers, query: StructuredQuery, filter: Filter) returns (r: StructuredQuery)
    modifies query
    ensures r == query
    ensures query.State() == old(query.State()).WithFilter(h.F.addFilter(old(query.filter), filter))
  {
    r := SetFilterClause(query, h.F.addFilter(query.filter, filter));
  }

  method UpdateFilter(h: Helpers, query: StructuredQuery, index: int, filter: Filter) returns (r: StructuredQuery)
    modifies query
    ensures r == query
    ensures query.State() == old(query.State()).WithFilter(h.F.updateFilter(old(query.filter), index, filter))
  {
    r := SetFilterClause(query, h.F.updateFilter(query.filter, index, filter));
  }

  method RemoveFilter(h: Helpers, query: StructuredQuery, index: int) returns (r: StructuredQuery)
    modifies query
    ensures r == query
    ensures query.State() == old(query.State()).WithFilter(h.F.removeFilter(old(query.filter), index))
  {
    r := SetFilterClause(query, h.F.removeFilter(query.filter, index));
  }

  method ClearFilters(h: Helpers, query: StructuredQuery) returns (r: StructuredQuery)
    modifies query
    ensures r == query
    ensures query.State() == old(query.State()).WithFilter(h.F.clearFilters(old(query.filter)))
  {
    r := SetFilterClause(query, h.F.clearFilters(query.filter));
  }

  // ORDER_BY

  method AddOrderBy(h: Helpers, query: StructuredQuery, orderBy: OrderBy) returns (r: StructuredQuery)
    modifies query
    ensures r == query
    ensures query.State() == old(query.State()).WithOrderBy(h.O.addOrderBy(old(query.orderBy), orderBy))
  {
    r := SetOrderByClause(query, h.O.addOrderBy(query.orderBy, orderBy));
  }

  method UpdateOrderBy(h: Helpers, query: StructuredQuery, index: int, orderBy: OrderBy) returns (r: StructuredQuery)
    modifies query
    ensures r == query
    ensures query.State() == old(query.State()).WithOrderBy(h.O.updateOrderBy(old(query.orderBy), index, orderBy))
  {
    r := SetOrderByClause(query, h.O.updateOrderBy(query.orderBy, index, orderBy));
  }

  method RemoveOrderBy(h: Helpers, query: StructuredQuery, index: int) returns (r: StructuredQuery)
    modifies query
    ensures r == query
    ensures query.State() == old(query.State()).WithOrderBy(h.O.removeOrderBy(old(query.orderBy), index))
  {
    r := SetOrderByClause(query, h.O.removeOrderBy(query.orderBy, index));
  }

  method ClearOrderBy(h: Helpers, query: StructuredQuery) returns (r: StructuredQuery)
    modifies query
    ensures r == query
    ensures query.State() == old(query.State()).WithOrderBy(h.O.clearOrderBy(old(query.orderBy)))
  {
    r := SetOrderByClause(query, h.O.clearOrderBy(query.orderBy));
  }

  // LIMIT

  method UpdateLimit(h: Helpers, query: StructuredQuery, limit: Limit) returns (r: StructuredQuery)
    modifies query
    ensures r == query
    ensures query.State() == old(query.State()).WithLimit(h.L.updateLimit(old(query.limit), limit))
  {
    r := SetLimitClause(query, h.L.updateLimit(query.limit, limit));
  }

  method ClearLimit(h: Helpers, query: StructuredQuery) returns (r: StructuredQuery)
    modifies query
    ensures r == query
    ensures query.State() == old(query.State()).WithLimit(h.L.clearLimit(old(query.limit)))
  {
    r := SetLimitClause(query, h.L.clearLimit(query.limit));
  }

  // The cross-clause rules and the writes.

  /**
    Switching to or from bare rows clears the sorting; switching to bare rows
    also clears the breakouts (through `ClearBreakouts`, so the order-by
    pruning runs again). The aggregation is written last.
   */
  method SetAggregationClause(h: Helpers, query: StructuredQuery, aggregationClause: Option<seq<Aggregation>>)
    returns (r: StructuredQuery)
    modifies query
    ensures r == query
    ensures query.State() == old(query.State()).WithAggregation(h, aggregationClause)
  {
    var wasBareRows := h.A.isBareRows(query.aggregation);
    var isBareRows := h.A.isBareRows(aggregationClause);
    if isBareRows != wasBareRows {
      var _ := ClearOrderBy(h, query);
    }
    if isBareRows {
      var _ := ClearBreakouts(h, query);
    }
    r := SetClause(AggregationKey, query,
                   if aggregationClause.None? then None else Some(AggregationClause(aggregationClause.value)));
  }

  /**
    Removes every order-by entry whose non-null target id is not a non-null
    id of the new breakout clause, then writes the breakout. The indices come
    from the order-by list read once before the loop and are not adjusted
    after a removal.
   */
  method SetBreakoutClause(h: Helpers, query: StructuredQuery, breakoutClause: Option<seq<Breakout>>)
    returns (r: StructuredQuery)
    modifies query
    ensures r == query
    ensures query.State() == old(query.State()).WithBreakout(h, breakoutClause)
  {
    var breakoutIds := NonNull(h.B.getBreakouts(breakoutClause));
    var sorts := GetOrderBys(h, query.State());
    var q := query;
    for index := 0 to |sorts|
      invariant q == query
      invariant query.State() == old(query.State()).(orderBy :=
        Prune(h.O.removeOrderBy, old(query.orderBy), StaleIndices(sorts, breakoutIds, h.getFieldTargetId, index)))
    {
      var sort := sorts[index];
      var sortId := h.getFieldTargetId(sort.field);
      ghost var removed := StaleIndices(sorts, breakoutIds, h.getFieldTargetId, index);
      if sortId.Some? && sortId.value !in breakoutIds {
        q := RemoveOrderBy(h, q, index);
        assert (removed + [index])[..|removed|] == removed;
      }
    }
    r := SetClause(BreakoutKey, q, if breakoutClause.None? then None else Some(BreakoutClause(breakoutClause.value)));
  }

  method SetFilterClause(query: StructuredQuery, filterClause: Option<seq<Filter>>) returns (r: StructuredQuery)
    modifies query
    ensures r == query
    ensures query.State() == old(query.State()).WithFilter(filterClause)
  {
    r := SetClause(FilterKey, query, if filterClause.None? then None else Some(FilterClause(filterClause.value)));
  }

  method SetOrderByClause(query: StructuredQuery, orderByClause: Option<seq<OrderBy>>) returns (r: StructuredQuery)
    modifies query
    ensures r == query
    ensures query.State() == old(query.State()).WithOrderBy(orderByClause)
  {
    r := SetClause(OrderByKey, query, if orderByClause.None? then None else Some(OrderByClause(orderByClause.value)));
  }

  method SetLimitClause(query: StructuredQuery, limitClause: Option<Limit>) returns (r: StructuredQuery)
    modifies query
    ensures r == query
    ensures query.State() == old(query.State()).WithLimit(limitClause)
  {
    r := SetClause(LimitKey, query, if limitClause.None? then None else Some(LimitClause(limitClause.value)));
  }

  /**
    The single point where the query object changes: a null clause deletes
    the key, any other clause is assigned to it; the same object is returned.
   */
  method SetClause(clauseName: ClauseName, query: StructuredQuery, clause: Option<Clause>) returns (r: StructuredQuery)
    requires clause.Some? ==> clause.value.Name() == clauseName
    modifies query
    ensures r == query
    ensures query.State() == old(query.State()).Set(clauseName, clause)
  {
    if clause.None? {
      match clauseName
      case AggregationKey => query.aggregation := None;
      case BreakoutKey => query.breakout := None;
      case FilterKey => query.filter := None;
      case OrderByKey => query.orderBy := None;
      case LimitKey => query.limit := None;
    } else {
      match clause.value
      case AggregationClause(a) => query.aggregation := Some(a);
      case BreakoutClause(b) => query.breakout := Some(b);
      case FilterClause(f) => query.filter := Some(f);
      case OrderByClause(o) => query.orderBy := Some(o);
      case LimitClause(l) => query.limit := Some(l);
    }
    r := query;
  }
}
