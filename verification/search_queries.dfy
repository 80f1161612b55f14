/**
 * The generic search description: a builder that accumulates target fields,
 * a free-text term, a filter tree and pagination, and the immutable query it
 * builds. Also the directional range filters the article builder uses.
 */
module SearchQueries {
  import opened Wrappers
  import opened Filters

  /** The argument type of the pagination setters (Java `int`). */
  newtype int32 = x: int | -0x8000_0000 <= x < 0x8000_0000

  const MaxInt32: nat := 0x7FFF_FFFF

  const DefaultFrom: nat := 0
  const DefaultLimit: nat := 10

  /** The builder's state; `from` and `limit` are never negative. */
  datatype SearchQueryBuilder = SearchQueryBuilder(
    fields: Option<seq<string>>,
    searchQuery: Option<string>,
    filters: Option<Filter>,
    from: nat,
    limit: nat
  )

  /** A built query: a snapshot of the builder's five components. */
  datatype SearchQuery = SearchQuery(
    fields: Option<seq<string>>,
    searchQuery: Option<string>,
    filters: Option<Filter>,
    from: nat,
    limit: nat
  )

  /** A builder with no fields, term or filters, starting at offset 0 with page size 10. */
  function NewBuilder(): (b: SearchQueryBuilder)
    ensures b.fields.None? && b.searchQuery.None? && b.filters.None?
    ensures b.from == 0 && b.limit == 10
  {
    SearchQueryBuilder(None, None, None, DefaultFrom, DefaultLimit)
  }

  /** The clamp both pagination setters apply. */
  function Clamp(n: int32): nat
  {
    if n < 0 then 0 else n as int
  }

  /** Replaces the target fields and nothing else. */
  function SetFields(b: SearchQueryBuilder, fields: Option<seq<string>>): (r: SearchQueryBuilder)
    ensures r.fields == fields
    ensures r.(fields := b.fields) == b
  {
    b.(fields := fields)
  }

  /** Replaces the free-text term and nothing else. */
  function SetSearchQuery(b: SearchQueryBuilder, term: Option<string>): (r: SearchQueryBuilder)
    ensures r.searchQuery == term
    ensures r.(searchQuery := b.searchQuery) == b
  {
    b.(searchQuery := term)
  }

  /** Sets the offset: a negative argument becomes 0, any other is kept as given. */
  function SetFrom(b: SearchQueryBuilder, n: int32): (r: SearchQueryBuilder)
    ensures n < 0 ==> r.from == 0
    ensures n >= 0 ==> r.from == n as int
    ensures r.(from := b.from) == b
  {
    b.(from := Clamp(n))
  }

  /** Sets the page size: a negative argument becomes 0, any other is kept as given. */
  function SetLimit(b: SearchQueryBuilder, n: int32): (r: SearchQueryBuilder)
    ensures n < 0 ==> r.limit == 0
    ensures n >= 0 ==> r.limit == n as int
    ensures r.(limit := b.limit) == b
  {
    b.(limit := Clamp(n))
  }

  /** Replaces the filter tree wholesale and nothing else. */
  function SetFilters(b: SearchQueryBuilder, filters: Option<Filter>): (r: SearchQueryBuilder)
    ensures r.filters == filters
    ensures r.(filters := b.filters) == b
  {
    b.(filters := filters)
  }

  /** Snapshots the builder; no validation happens here. */
  function Build(b: SearchQueryBuilder): (q: SearchQuery)
    ensures q.fields == b.fields && q.searchQuery == b.searchQuery && q.filters == b.filters
    ensures q.from == b.from && q.limit == b.limit
  {
    SearchQuery(b.fields, b.searchQuery, b.filters, b.from, b.limit)
  }

  /** One setter call on a builder. */
  datatype BuilderStep =
    | FieldsStep(fields: Option<seq<string>>)
    | SearchQueryStep(term: Option<string>)
    | FromStep(n: int32)
    | LimitStep(n: int32)
    | FiltersStep(filters: Option<Filter>)

  function Apply(b: SearchQueryBuilder, step: BuilderStep): SearchQueryBuilder
  {
    match step
    case FieldsStep(fs) => SetFields(b, fs)
    case SearchQueryStep(t) => SetSearchQuery(b, t)
    case FromStep(n) => SetFrom(b, n)
    case LimitStep(n) => SetLimit(b, n)
    case FiltersStep(f) => SetFilters(b, f)
  }

  /** The builder after the given setter calls, in order. */
  function Run(b: SearchQueryBuilder, steps: seq<BuilderStep>): SearchQueryBuilder
    decreases |steps|
  {
    if steps == [] then b else Run(Apply(b, steps[0]), steps[1..])
  }

  /** The offset the last `FromStep` of `steps` asks for (clamped), or `d` when there is none. */
  function LastFrom(steps: seq<BuilderStep>, d: nat): nat
    decreases |steps|
  {
    if steps == [] then d
    else match steps[|steps| - 1]
      case FromStep(n) => Clamp(n)
      case _ => LastFrom(steps[..|steps| - 1], d)
  }

  /** The page size the last `LimitStep` of `steps` asks for (clamped), or `d` when there is none. */
  function LastLimit(steps: seq<BuilderStep>, d: nat): nat
    decreases |steps|
  {
    if steps == [] then d
    else match steps[|steps| - 1]
      case LimitStep(n) => Clamp(n)
      case _ => LastLimit(steps[..|steps| - 1], d)
  }

  lemma {:induction false} RunSnoc(b: SearchQueryBuilder, steps: seq<BuilderStep>, step: BuilderStep)
    ensures Run(b, steps + [step]) == Apply(Run(b, steps), step)
    decreases |steps|
  {
    if steps == [] {
      assert [step][1..] == [];
    } else {
      assert (steps + [step])[1..] == steps[1..] + [step];
      RunSnoc(Apply(b, steps[0]), steps[1..], step);
    }
  }

  /**
   * Last write wins for pagination: after any setter calls the offset and
   * page size are those of the last `setFrom`/`setLimit` call (clamped), or
   * the starting values when there was none.
   */
  lemma {:induction false} RunLastWriteWins(b: SearchQueryBuilder, steps: seq<BuilderStep>)
    ensures Run(b, steps).from == LastFrom(steps, b.from)
    ensures Run(b, steps).limit == LastLimit(steps, b.limit)
    decreases |steps|
  {
    if steps != [] {
      var init := steps[..|steps| - 1];
      var last := steps[|steps| - 1];
      assert steps == init + [last];
      RunSnoc(b, init, last);
      RunLastWriteWins(b, init);
    }
  }

  /** Every query built after any setter calls on a fresh builder has an offset and page size in 0..2^31-1. */
  lemma {:induction false} BuiltQueryPaginationInRange(steps: seq<BuilderStep>)
    ensures 0 <= Build(Run(NewBuilder(), steps)).from <= MaxInt32
    ensures 0 <= Build(Run(NewBuilder(), steps)).limit <= MaxInt32
  {
    RunLastWriteWins(NewBuilder(), steps);
    LastBounded(steps);
  }

  lemma {:induction false} LastBounded(steps: seq<BuilderStep>)
    ensures LastFrom(steps, DefaultFrom) <= MaxInt32
    ensures LastLimit(steps, DefaultLimit) <= MaxInt32
    decreases |steps|
  {
    if steps != [] {
      LastBounded(steps[..|steps| - 1]);
    }
  }

  /** The direction of a one-sided range bound. */
  datatype RangeDirection = GreaterThan | GreaterThanOrEqual | LessThan | LessThanOrEqual

  /**
   * A range on `field` bounded on one side by `value`: the two "greater"
   * directions give a lower bound, the two "less" directions an upper bound,
   * inclusive exactly for the "or equal" directions. The match is exhaustive,
   * so no direction falls through without a bound.
   */
  function DirectionalRange(field: string, value: string, direction: RangeDirection): (r: Filter)
    ensures r.Range? && r.field == field
    ensures direction == GreaterThan ==> r.lo == Some(Bound(value, false)) && r.hi.None?
    ensures direction == GreaterThanOrEqual ==> r.lo == Some(Bound(value, true)) && r.hi.None?
    ensures direction == LessThan ==> r.hi == Some(Bound(value, false)) && r.lo.None?
    ensures direction == LessThanOrEqual ==> r.hi == Some(Bound(value, true)) && r.lo.None?
  {
    match direction
    case GreaterThan => Range(field, Some(Bound(value, false)), None)
    case GreaterThanOrEqual => Range(field, Some(Bound(value, true)), None)
    case LessThan => Range(field, None, Some(Bound(value, false)))
    case LessThanOrEqual => Range(field, None, Some(Bound(value, true)))
  }

  /** Reads a one-sided range back as its field, bound value and direction; two-sided and non-range filters give `None`. */
  function AsDirectional(f: Filter): Option<(string, string, RangeDirection)>
  {
    match f
    case Range(field, Some(lo), None) =>
      Some((field, lo.value, if lo.inclusive then GreaterThanOrEqual else GreaterThan))
    case Range(field, None, Some(hi)) =>
      Some((field, hi.value, if hi.inclusive then LessThanOrEqual else LessThan))
    case _ => None
  }

  /**
   * Directional ranges are exactly the one-sided ranges: reading one back
   * gives its field, value and direction, and every filter that reads back
   * as a direction is the range that direction builds.
   */
  lemma DirectionalRangeRoundTrip(field: string, value: string, direction: RangeDirection, f: Filter)
    ensures AsDirectional(DirectionalRange(field, value, direction)) == Some((field, value, direction))
    ensures AsDirectional(f) == Some((field, value, direction)) ==> f == DirectionalRange(field, value, direction)
  {
  }

  /** A directional range never carries two bounds and never carries none. */
  lemma DirectionalRangeOneSided(field: string, value: string, direction: RangeDirection)
    ensures DirectionalRange(field, value, direction).lo.Some? != DirectionalRange(field, value, direction).hi.Some?
  {
  }
}
