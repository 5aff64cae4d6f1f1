/**
  The collaborators of the query clause coordinator: the per-clause helper
  modules `./aggregation`, `./breakout`, `./filter`, `./order_by`, `./limit`
  and `getFieldTargetId` of `metabase/lib/query`. Their bodies are not part of
  this model: each helper is a field of function type, so every property
  proved about the coordinator holds for any helper that is a pure, total
  function (one that neither throws nor changes the values it is given).

  A clause is `Option<seq<Item>>`: `None` when the key is absent from the
  query object (or holds null/undefined), otherwise the sequence it holds.
 */
module Helpers {
  import opened Wrappers

  /** An aggregation entry; its shape belongs to the aggregation helper. */
  type Aggregation(!new)
  /** A filter expression; its shape belongs to the filter helper. */
  type Filter(!new)
  /**
    A field reference or a field id. The coordinator compares the target id
    of an order-by entry with breakout entries by strict equality, so both
    are values of this one type.
   */
  type Field(==, !new)
  /** The direction half of an order-by pair. */
  type Direction(!new)

  /** An order-by pair `[field, direction]`; `field` is `sort[0]`. */
  datatype OrderBy = OrderBy(field: Field, direction: Direction)

  /** A breakout entry; the coordinator drops null entries before comparing. */
  type Breakout = Option<Field>

  datatype AggregationHelper = AggregationHelper(
    getAggregations: Option<seq<Aggregation>> -> seq<Aggregation>,
    addAggregation: (Option<seq<Aggregation>>, Aggregation) -> Option<seq<Aggregation>>,
    updateAggregation: (Option<seq<Aggregation>>, int, Aggregation) -> Option<seq<Aggregation>>,
    removeAggregation: (Option<seq<Aggregation>>, int) -> Option<seq<Aggregation>>,
    clearAggregations: Option<seq<Aggregation>> -> Option<seq<Aggregation>>,
    isBareRows: Option<seq<Aggregation>> -> bool,
    hasEmptyAggregation: Option<seq<Aggregation>> -> bool,
    hasValidAggregation: Option<seq<Aggregation>> -> bool)

  datatype BreakoutHelper = BreakoutHelper(
    getBreakouts: Option<seq<Breakout>> -> seq<Breakout>,
    addBreakout: (Option<seq<Breakout>>, Breakout) -> Option<seq<Breakout>>,
    updateBreakout: (Option<seq<Breakout>>, int, Breakout) -> Option<seq<Breakout>>,
    removeBreakout: (Option<seq<Breakout>>, int) -> Option<seq<Breakout>>,
    clearBreakouts: Option<seq<Breakout>> -> Option<seq<Breakout>>)

  datatype FilterHelper = FilterHelper(
    getFilters: Option<seq<Filter>> -> seq<Filter>,
    addFilter: (Option<seq<Filter>>, Filter) -> Option<seq<Filter>>,
    updateFilter: (Option<seq<Filter>>, int, Filter) -> Option<seq<Filter>>,
    removeFilter: (Option<seq<Filter>>, int) -> Option<seq<Filter>>,
    clearFilters: Option<seq<Filter>> -> Option<seq<Filter>>,
    canAddFilter: Option<seq<Filter>> -> bool)

  datatype OrderByHelper = OrderByHelper(
    getOrderBys: Option<seq<OrderBy>> -> seq<OrderBy>,
    addOrderBy: (Option<seq<OrderBy>>, OrderBy) -> Option<seq<OrderBy>>,
    updateOrderBy: (Option<seq<OrderBy>>, int, OrderBy) -> Option<seq<OrderBy>>,
    removeOrderBy: (Option<seq<OrderBy>>, int) -> Option<seq<OrderBy>>,
    clearOrderBy: Option<seq<OrderBy>> -> Option<seq<OrderBy>>)

  /** The limit clause: a single number, not a list, which the coordinator never inspects. */
  type Limit(!new)

  datatype LimitHelper = LimitHelper(
    updateLimit: (Option<Limit>, Limit) -> Option<Limit>,
    clearLimit: Option<Limit> -> Option<Limit>)

  /** Everything the coordinator imports, under the names it imports them by. */
  datatype Helpers = Helpers(
    A: AggregationHelper,
    B: BreakoutHelper,
    F: FilterHelper,
    L: LimitHelper,
    O: OrderByHelper,
    getFieldTargetId: Field -> Option<Field>)

  /**
    An order-by helper whose `removeOrderBy` drops the entry at an in-range
    position and leaves the list alone otherwise. Nothing in the model
    assumes this; the lemmas that take it as a hypothesis say what the
    stale-index loop does with such a helper.
   */
  ghost predicate RemovesAtIndex(O: OrderByHelper) {
    forall clause, i ::
      O.getOrderBys(O.removeOrderBy(clause, i)) ==
        (var sorts := O.getOrderBys(clause);
         if 0 <= i < |sorts| then sorts[..i] + sorts[i + 1..] else sorts)
  }
}
