/** The engine's query-builder nodes that this system composes into non-scoring filters. */
module Filters {
  import opened Wrappers

  /** One end of a range: the bound's value and whether the value itself is included. */
  datatype Bound = Bound(value: string, inclusive: bool)

  /**
   * A filter node: a term query, a range query with optional lower and upper
   * bounds, or a bool query holding `must` clauses (all required) and
   * `should` clauses (alternatives).
   */
  datatype Filter =
    | Term(field: string, value: string)
    | Range(field: string, lo: Option<Bound>, hi: Option<Bound>)
    | Bool(must: seq<Filter>, should: seq<Filter>)

  /** The filters an article query builder accumulates are always bool queries. */
  type BoolFilter = f: Filter | f.Bool? witness Bool([], [])
}
