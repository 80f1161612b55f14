/**
 * The article query builder: domain setters that compile content type,
 * author, title, date ranges and tags into one top-level bool filter. Term
 * and range clauses are conjoined as `must` clauses; each tag becomes a
 * `should` clause.
 */
module ArticleQueries {
  import opened Wrappers
  import opened Filters
  import opened Models
  import opened SearchQueries

  const ContentTypeField := "contentType"
  const AuthorField := "author.raw"
  const TitleField := "title.raw"
  const CreatedField := "created"
  const PublishedField := "published"
  const TagField := "tags.tag"
  const TagTypeField := "tags.tagType"

  /**
   * The article builder: the generic builder it extends, plus its own bool
   * filter, which shadows the generic builder's filter slot.
   */
  datatype ArticleSearchQueryBuilder = ArticleSearchQueryBuilder(base: SearchQueryBuilder, filters: Option<BoolFilter>)

  function NewArticleBuilder(): (ab: ArticleSearchQueryBuilder)
    ensures ab.filters.None?
    ensures ab.base == NewBuilder()
  {
    ArticleSearchQueryBuilder(NewBuilder(), None)
  }

  /** The `must` clauses of possibly absent filters (none when absent). */
  function MustOf(f: Option<BoolFilter>): seq<Filter>
  {
    if f.None? then [] else f.value.must
  }

  /** The `should` clauses of possibly absent filters (none when absent). */
  function ShouldOf(f: Option<BoolFilter>): seq<Filter>
  {
    if f.None? then [] else f.value.should
  }

  /** `after` is `before` with `q` appended to its `must` clauses and its `should` clauses untouched. */
  predicate AppendsMust(before: Option<BoolFilter>, after: Option<BoolFilter>, q: Filter)
  {
    && after.Some?
    && MustOf(after) == MustOf(before) + [q]
    && ShouldOf(after) == ShouldOf(before)
  }

  /** Conjoins `q` onto the filters, creating the bool query when there is none yet. */
  function AddMustQueryToFilters(f: Option<BoolFilter>, q: Filter): (r: BoolFilter)
    ensures f.None? ==> r == Bool([q], [])
    ensures f.Some? ==> r == Bool(f.value.must + [q], f.value.should)
    ensures AppendsMust(f, Some(r), q)
  {
    match f
    case None => Bool([q], [])
    case Some(b) => Bool(b.must + [q], b.should)
  }

  /** Appends a `must` clause to the builder's filters, leaving the generic part alone. */
  function AddMust(ab: ArticleSearchQueryBuilder, q: Filter): ArticleSearchQueryBuilder
  {
    ab.(filters := Some(AddMustQueryToFilters(ab.filters, q)))
  }

  function SetContentType(ab: ArticleSearchQueryBuilder, contentType: string): (r: ArticleSearchQueryBuilder)
    ensures AppendsMust(ab.filters, r.filters, Term(ContentTypeField, contentType))
    ensures r.base == ab.base
  {
    AddMust(ab, Term(ContentTypeField, contentType))
  }

  function SetAuthor(ab: ArticleSearchQueryBuilder, author: string): (r: ArticleSearchQueryBuilder)
    ensures AppendsMust(ab.filters, r.filters, Term(AuthorField, author))
    ensures r.base == ab.base
  {
    AddMust(ab, Term(AuthorField, author))
  }

  function SetTitle(ab: ArticleSearchQueryBuilder, title: string): (r: ArticleSearchQueryBuilder)
    ensures AppendsMust(ab.filters, r.filters, Term(TitleField, title))
    ensures r.base == ab.base
  {
    AddMust(ab, Term(TitleField, title))
  }

  /** An inclusive bound at `v`, or no bound at all when `v` is absent (the engine reads a null bound as open). */
  function InclusiveBound(v: Option<string>): Option<Bound>
  {
    if v.None? then None else Some(Bound(v.value, true))
  }

  /**
   * A range as the engine's `from(..).to(..)` builds it: both bounds
   * inclusive, and a null end left open.
   */
  function BetweenRange(field: string, from: Option<string>, to: Option<string>): (r: Filter)
    ensures r.Range? && r.field == field
    ensures r.lo.Some? <==> from.Some?
    ensures r.hi.Some? <==> to.Some?
    ensures from.Some? ==> r.lo.value == Bound(from.value, true)
    ensures to.Some? ==> r.hi.value == Bound(to.value, true)
  {
    Range(field, InclusiveBound(from), InclusiveBound(to))
  }

  function SetCreatedRelative(ab: ArticleSearchQueryBuilder, date: string, direction: RangeDirection): (r: ArticleSearchQueryBuilder)
    ensures AppendsMust(ab.filters, r.filters, DirectionalRange(CreatedField, date, direction))
    ensures r.base == ab.base
  {
    AddMust(ab, DirectionalRange(CreatedField, date, direction))
  }

  function SetCreatedBetween(ab: ArticleSearchQueryBuilder, from: Option<string>, to: Option<string>): (r: ArticleSearchQueryBuilder)
    ensures AppendsMust(ab.filters, r.filters, BetweenRange(CreatedField, from, to))
    ensures r.base == ab.base
  {
    AddMust(ab, BetweenRange(CreatedField, from, to))
  }

  function SetPublishedRelative(ab: ArticleSearchQueryBuilder, date: string, direction: RangeDirection): (r: ArticleSearchQueryBuilder)
    ensures AppendsMust(ab.filters, r.filters, DirectionalRange(PublishedField, date, direction))
    ensures r.base == ab.base
  {
    AddMust(ab, DirectionalRange(PublishedField, date, direction))
  }

  function SetPublishedBetween(ab: ArticleSearchQueryBuilder, from: Option<string>, to: Option<string>): (r: ArticleSearchQueryBuilder)
    ensures AppendsMust(ab.filters, r.filters, BetweenRange(PublishedField, from, to))
    ensures r.base == ab.base
  {
    AddMust(ab, BetweenRange(PublishedField, from, to))
  }

  /** The bool query that requires both the tag and its type; it reads back as `t`. */
  function BuildTagQuery(t: Tag): (r: BoolFilter)
    ensures AsTag(r) == Some(t)
  {
    Bool([Term(TagField, t.tag), Term(TagTypeField, t.tagType)], [])
  }

  /** Reads a tag query back as the tag it matches; any other filter gives `None`. */
  function AsTag(f: Filter): Option<Tag>
  {
    if && f.Bool? && |f.must| == 2 && f.should == []
       && f.must[0].Term? && f.must[0].field == TagField
       && f.must[1].Term? && f.must[1].field == TagTypeField
    then Some(Tag(f.must[0].value, f.must[1].value))
    else None
  }

  /** Tag queries are exactly the filters that read back as a tag, and they read back as the tag they were built from. */
  lemma TagQueryRoundTrip(t: Tag, f: Filter)
    ensures AsTag(BuildTagQuery(t)) == Some(t)
    ensures AsTag(f) == Some(t) ==> f == BuildTagQuery(t)
  {
  }

  /** One `should` clause per tag, in list order. */
  function TagClauses(tags: seq<Tag>): seq<Filter>
  {
    seq(|tags|, i requires 0 <= i < |tags| => BuildTagQuery(tags[i]))
  }

  /** Appends the tag clauses of `tags`, one at a time, to the `should` clauses of `f`. */
  function AddTagClauses(f: BoolFilter, tags: seq<Tag>): (r: BoolFilter)
    ensures r.must == f.must
    ensures r.should == f.should + TagClauses(tags)
    decreases |tags|
  {
    if tags == [] then f
    else
      var r := AddTagClauses(Bool(f.must, f.should + [BuildTagQuery(tags[0])]), tags[1..]);
      assert TagClauses(tags) == [BuildTagQuery(tags[0])] + TagClauses(tags[1..]);
      r
  }

  /**
   * Adds one `should` clause per tag, in list order, creating an empty bool
   * query first when there are no filters yet, so the filters are present
   * afterwards even for an empty list.
   */
  function SetTags(ab: ArticleSearchQueryBuilder, tags: seq<Tag>): (r: ArticleSearchQueryBuilder)
    ensures r.filters.Some?
    ensures MustOf(r.filters) == MustOf(ab.filters)
    ensures |ShouldOf(r.filters)| == |ShouldOf(ab.filters)| + |tags|
    ensures ShouldOf(r.filters)[..|ShouldOf(ab.filters)|] == ShouldOf(ab.filters)
    ensures forall i :: 0 <= i < |tags| ==> AsTag(ShouldOf(r.filters)[|ShouldOf(ab.filters)| + i]) == Some(tags[i])
    ensures r.base == ab.base
  {
    var start: BoolFilter := if ab.filters.None? then Bool([], []) else ab.filters.value;
    ab.(filters := Some(AddTagClauses(start, tags)))
  }

  /** The single-tag overload wraps its tag in a one-element list. */
  function SetTag(ab: ArticleSearchQueryBuilder, t: Tag): (r: ArticleSearchQueryBuilder)
    ensures r == SetTags(ab, [t])
    ensures ShouldOf(r.filters) == ShouldOf(ab.filters) + [BuildTagQuery(t)]
  {
    SetTags(ab, [t])
  }

  /** On a fresh builder an empty tag list leaves an empty bool query, not absent filters. */
  lemma EmptyTagsOnFreshBuilder()
    ensures SetTags(NewArticleBuilder(), []).filters == Some(Bool([], []))
  {
  }

  /**
   * Builds the query: the generic builder's fields, term and pagination, and
   * the article builder's own filters.
   */
  function BuildArticleQuery(ab: ArticleSearchQueryBuilder): (q: SearchQuery)
    ensures q.filters.None? <==> ab.filters.None?
    ensures ab.filters.Some? ==> q.filters.value == ab.filters.value
    ensures q.fields == ab.base.fields && q.searchQuery == ab.base.searchQuery
    ensures q.from == ab.base.from && q.limit == ab.base.limit
  {
    var q := Build(ab.base);
    q.(filters := ab.filters)
  }

  /**
   * The generic `setFilters` writes the shadowed filter slot, which the built
   * article query never reads.
   */
  lemma SetFiltersIsShadowed(ab: ArticleSearchQueryBuilder, f: Option<Filter>)
    ensures BuildArticleQuery(ab.(base := SetFilters(ab.base, f))) == BuildArticleQuery(ab)
  {
  }

  /** One domain setter call. */
  datatype FilterCall =
    | ContentTypeCall(contentType: string)
    | AuthorCall(author: string)
    | TitleCall(title: string)
    | CreatedRelativeCall(date: string, direction: RangeDirection)
    | CreatedBetweenCall(from: Option<string>, to: Option<string>)
    | PublishedRelativeCall(date: string, direction: RangeDirection)
    | PublishedBetweenCall(from: Option<string>, to: Option<string>)
    | TagsCall(tags: seq<Tag>)

  function ApplyCall(ab: ArticleSearchQueryBuilder, c: FilterCall): ArticleSearchQueryBuilder
  {
    match c
    case ContentTypeCall(v) => SetContentType(ab, v)
    case AuthorCall(v) => SetAuthor(ab, v)
    case TitleCall(v) => SetTitle(ab, v)
    case CreatedRelativeCall(d, dir) => SetCreatedRelative(ab, d, dir)
    case CreatedBetweenCall(f, t) => SetCreatedBetween(ab, f, t)
    case PublishedRelativeCall(d, dir) => SetPublishedRelative(ab, d, dir)
    case PublishedBetweenCall(f, t) => SetPublishedBetween(ab, f, t)
    case TagsCall(ts) => SetTags(ab, ts)
  }

  /** The builder after the given setter calls, in order. */
  function Replay(ab: ArticleSearchQueryBuilder, calls: seq<FilterCall>): ArticleSearchQueryBuilder
    decreases |calls|
  {
    if calls == [] then ab else Replay(ApplyCall(ab, calls[0]), calls[1..])
  }

  /** The term or range clause a call contributes to `must`: none for a tag call. */
  function LeafOf(c: FilterCall): seq<Filter>
  {
    match c
    case ContentTypeCall(v) => [Term(ContentTypeField, v)]
    case AuthorCall(v) => [Term(AuthorField, v)]
    case TitleCall(v) => [Term(TitleField, v)]
    case CreatedRelativeCall(d, dir) => [DirectionalRange(CreatedField, d, dir)]
    case CreatedBetweenCall(f, t) => [BetweenRange(CreatedField, f, t)]
    case PublishedRelativeCall(d, dir) => [DirectionalRange(PublishedField, d, dir)]
    case PublishedBetweenCall(f, t) => [BetweenRange(PublishedField, f, t)]
    case TagsCall(_) => []
  }

  /** The tag clauses a call contributes to `should`: none for a term or range call. */
  function TagLeavesOf(c: FilterCall): seq<Filter>
  {
    if c.TagsCall? then TagClauses(c.tags) else []
  }

  lemma ApplyCallAppends(ab: ArticleSearchQueryBuilder, c: FilterCall)
    ensures ApplyCall(ab, c).filters.Some?
    ensures MustOf(ApplyCall(ab, c).filters) == MustOf(ab.filters) + LeafOf(c)
    ensures ShouldOf(ApplyCall(ab, c).filters) == ShouldOf(ab.filters) + TagLeavesOf(c)
    ensures ApplyCall(ab, c).base == ab.base
  {
    match c
    case TagsCall(ts) =>
      var r := SetTags(ab, ts);
      assert ShouldOf(r.filters) == ShouldOf(ab.filters) + TagClauses(ts);
    case _ =>
  }

  /** The term and range clauses of the calls, in call order. */
  function MustLeaves(calls: seq<FilterCall>): seq<Filter>
    decreases |calls|
  {
    if calls == [] then [] else LeafOf(calls[0]) + MustLeaves(calls[1..])
  }

  /** The tag clauses of the calls, in call order. */
  function ShouldLeaves(calls: seq<FilterCall>): seq<Filter>
    decreases |calls|
  {
    if calls == [] then [] else TagLeavesOf(calls[0]) + ShouldLeaves(calls[1..])
  }

  /** How many calls were term or range setters. */
  function LeafCallCount(calls: seq<FilterCall>): nat
    decreases |calls|
  {
    if calls == [] then 0 else (if calls[0].TagsCall? then 0 else 1) + LeafCallCount(calls[1..])
  }

  /** How many tags the calls passed in all. */
  function TagCount(calls: seq<FilterCall>): nat
    decreases |calls|
  {
    if calls == [] then 0 else (if calls[0].TagsCall? then |calls[0].tags| else 0) + TagCount(calls[1..])
  }

  lemma {:induction false} ReplayMust(ab: ArticleSearchQueryBuilder, calls: seq<FilterCall>)
    ensures MustOf(Replay(ab, calls).filters) == MustOf(ab.filters) + MustLeaves(calls)
    decreases |calls|
  {
    if calls != [] {
      var next := ApplyCall(ab, calls[0]);
      assert Replay(ab, calls) == Replay(next, calls[1..]);
      ApplyCallAppends(ab, calls[0]);
      ReplayMust(next, calls[1..]);
      assert MustLeaves(calls) == LeafOf(calls[0]) + MustLeaves(calls[1..]);
    } else {
      assert Replay(ab, calls) == ab;
    }
  }

  lemma {:induction false} ReplayShould(ab: ArticleSearchQueryBuilder, calls: seq<FilterCall>)
    ensures ShouldOf(Replay(ab, calls).filters) == ShouldOf(ab.filters) + ShouldLeaves(calls)
    decreases |calls|
  {
    if calls != [] {
      var next := ApplyCall(ab, calls[0]);
      assert Replay(ab, calls) == Replay(next, calls[1..]);
      ApplyCallAppends(ab, calls[0]);
      ReplayShould(next, calls[1..]);
      assert ShouldLeaves(calls) == TagLeavesOf(calls[0]) + ShouldLeaves(calls[1..]);
    } else {
      assert Replay(ab, calls) == ab;
    }
  }

  lemma {:induction false} ReplayPresence(ab: ArticleSearchQueryBuilder, calls: seq<FilterCall>)
    ensures calls == [] ==> Replay(ab, calls) == ab
    ensures calls != [] ==> Replay(ab, calls).filters.Some?
    ensures Replay(ab, calls).base == ab.base
    decreases |calls|
  {
    if calls != [] {
      var next := ApplyCall(ab, calls[0]);
      assert Replay(ab, calls) == Replay(next, calls[1..]);
      ApplyCallAppends(ab, calls[0]);
      ReplayPresence(next, calls[1..]);
    }
  }

  lemma {:induction false} LeafCounts(calls: seq<FilterCall>)
    ensures |MustLeaves(calls)| == LeafCallCount(calls)
    ensures |ShouldLeaves(calls)| == TagCount(calls)
    decreases |calls|
  {
    if calls != [] {
      LeafCounts(calls[1..]);
    }
  }

  /**
   * The shape invariant: after any setter calls on a fresh builder the
   * filters are absent exactly when there were no calls, and otherwise one
   * bool query whose `must` holds the term and range clauses in call order
   * (one per such call) and whose `should` holds one tag clause per tag
   * passed, in call order.
   */
  lemma ReplayShape(calls: seq<FilterCall>)
    ensures Replay(NewArticleBuilder(), calls).filters.None? <==> calls == []
    ensures MustOf(Replay(NewArticleBuilder(), calls).filters) == MustLeaves(calls)
    ensures ShouldOf(Replay(NewArticleBuilder(), calls).filters) == ShouldLeaves(calls)
    ensures |MustOf(Replay(NewArticleBuilder(), calls).filters)| == LeafCallCount(calls)
    ensures |ShouldOf(Replay(NewArticleBuilder(), calls).filters)| == TagCount(calls)
  {
    ReplayMust(NewArticleBuilder(), calls);
    ReplayShould(NewArticleBuilder(), calls);
    ReplayPresence(NewArticleBuilder(), calls);
    LeafCounts(calls);
  }

  lemma {:induction false} LeavesAppend(a: seq<FilterCall>, b: seq<FilterCall>)
    ensures MustLeaves(a + b) == MustLeaves(a) + MustLeaves(b)
    ensures ShouldLeaves(a + b) == ShouldLeaves(a) + ShouldLeaves(b)
    decreases |a|
  {
    if a != [] {
      assert (a + b)[1..] == a[1..] + b;
      LeavesAppend(a[1..], b);
    } else {
      assert a + b == b;
    }
  }

  lemma PairLeaves(c1: FilterCall, c2: FilterCall)
    ensures MustLeaves([c1, c2]) == LeafOf(c1) + LeafOf(c2)
    ensures ShouldLeaves([c1, c2]) == TagLeavesOf(c1) + TagLeavesOf(c2)
  {
    assert [c1, c2][1..] == [c2];
    assert [c2][1..] == [];
    assert MustLeaves([c2]) == LeafOf(c2) + [];
    assert ShouldLeaves([c2]) == TagLeavesOf(c2) + [];
  }

  lemma SwapMustLeaves(pre: seq<FilterCall>, c1: FilterCall, c2: FilterCall, post: seq<FilterCall>)
    ensures multiset(MustLeaves(pre + [c1, c2] + post)) == multiset(MustLeaves(pre + [c2, c1] + post))
  {
    var a, b, c, d := MustLeaves(pre), LeafOf(c1), LeafOf(c2), MustLeaves(post);
    assert MustLeaves(pre + [c1, c2] + post) == a + (b + c) + d by {
      LeavesAppend(pre + [c1, c2], post);
      LeavesAppend(pre, [c1, c2]);
      PairLeaves(c1, c2);
    }
    assert MustLeaves(pre + [c2, c1] + post) == a + (c + b) + d by {
      LeavesAppend(pre + [c2, c1], post);
      LeavesAppend(pre, [c2, c1]);
      PairLeaves(c2, c1);
    }
    assert multiset(a + (b + c) + d) == multiset(a) + multiset(b) + multiset(c) + multiset(d);
    assert multiset(a + (c + b) + d) == multiset(a) + multiset(c) + multiset(b) + multiset(d);
  }

  lemma SwapShouldLeaves(pre: seq<FilterCall>, c1: FilterCall, c2: FilterCall, post: seq<FilterCall>)
    ensures multiset(ShouldLeaves(pre + [c1, c2] + post)) == multiset(ShouldLeaves(pre + [c2, c1] + post))
  {
    var a, b, c, d := ShouldLeaves(pre), TagLeavesOf(c1), TagLeavesOf(c2), ShouldLeaves(post);
    assert ShouldLeaves(pre + [c1, c2] + post) == a + (b + c) + d by {
      LeavesAppend(pre + [c1, c2], post);
      LeavesAppend(pre, [c1, c2]);
      PairLeaves(c1, c2);
    }
    assert ShouldLeaves(pre + [c2, c1] + post) == a + (c + b) + d by {
      LeavesAppend(pre + [c2, c1], post);
      LeavesAppend(pre, [c2, c1]);
      PairLeaves(c2, c1);
    }
    assert multiset(a + (b + c) + d) == multiset(a) + multiset(b) + multiset(c) + multiset(d);
    assert multiset(a + (c + b) + d) == multiset(a) + multiset(c) + multiset(b) + multiset(d);
  }

  /**
   * Call order changes only the filter tree's shape: swapping two adjacent
   * setter calls leaves the same clauses, as multisets, in `must` and in
   * `should`.
   */
  lemma SwapKeepsClauses(pre: seq<FilterCall>, c1: FilterCall, c2: FilterCall, post: seq<FilterCall>)
    ensures multiset(MustOf(Replay(NewArticleBuilder(), pre + [c1, c2] + post).filters))
         == multiset(MustOf(Replay(NewArticleBuilder(), pre + [c2, c1] + post).filters))
    ensures multiset(ShouldOf(Replay(NewArticleBuilder(), pre + [c1, c2] + post).filters))
         == multiset(ShouldOf(Replay(NewArticleBuilder(), pre + [c2, c1] + post).filters))
  {
    ReplayShape(pre + [c1, c2] + post);
    ReplayShape(pre + [c2, c1] + post);
    SwapMustLeaves(pre, c1, c2, post);
    SwapShouldLeaves(pre, c1, c2, post);
  }
}
