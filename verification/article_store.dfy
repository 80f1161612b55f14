/**
 * The article store backed by the search engine: configuration guards,
 * translation of a search query into the engine's search request, single
 * and bulk writes, deletes, and conversion of raw hits into article hits.
 *
 * The engine is an oracle: every operation that talks to it takes the
 * engine's response as a parameter, and the store's document map records
 * what the engine reported writing.
 */
module ArticleStore {
  import opened Wrappers
  import opened Filters
  import opened Models
  import opened SearchQueries
  import ArticleBuilders

  /** The mapping type every request names. */
  const ArticleType := "article"

  const WriteIndexUnsetForIndex := "writeIndex must be set before indexing."
  const WriteIndexUnsetForIndexAll := "writeIndex must be set before indexing all."
  const WriteIndexUnsetForDelete := "writeIndex must be set before deleting."
  const SearchIndicesUnset := "searchIndicies must be set before searching."
  const FieldsUnset := "SearchQuery fields must be set to perform search term query."

  /** The engine client's message when a multi-match query names an empty field; it is raised before anything is sent. */
  const EmptyFieldName := "supplied field is null or empty."

  /** The engine client's validation message for a bulk request with no items; it is raised before anything is sent. */
  const NoRequestsAdded := "no requests added"

  /**
   * Why an operation failed: a required index is not configured, a search
   * term came without fields, or the engine itself reported a failure.
   */
  datatype StoreError =
    | ConfigurationError(message: string)
    | ValidationError(message: string)
    | EngineError(reason: string)

  /** The write target, the search targets, and the documents known to be in the write target. */
  datatype Store = Store(writeIndex: Option<string>, searchIndices: Option<seq<string>>, docs: map<string, Article>)

  datatype IndexRequest = IndexRequest(index: string, docType: string, id: Option<string>, source: Article)

  datatype DeleteRequest = DeleteRequest(index: string, docType: string, id: string)

  datatype SearchType = DfsQueryThenFetch

  /** The scoring part of a search: everything, a multi-field text match, or a simple query string. */
  datatype MainQuery = MatchAll | MultiMatch(text: string, fields: seq<string>) | SimpleQueryString(text: string)

  datatype SearchRequest = SearchRequest(
    indices: seq<string>,
    docType: string,
    searchType: SearchType,
    query: MainQuery,
    postFilter: Option<Filter>,
    from: Option<nat>,
    size: Option<nat>
  )

  /** The engine's answer to one write: the id it wrote under, or why it refused. */
  datatype WriteResponse = Indexed(id: string) | WriteFailed(reason: string)

  /** The engine's answer to a delete; a missing document is not a failure. */
  datatype DeleteResponse = Deleted | NotFound | DeleteFailed(reason: string)

  /** A raw search hit: the document body as parsed (`None` when the parse gave nothing), its score and its id. */
  datatype RawHit = RawHit(parsed: Option<Article>, score: Score, id: string)

  /** The engine's answer to a bulk write: one answer per item, or a failure of the whole round trip. */
  datatype BulkResponse = Items(items: seq<WriteResponse>) | BulkFailed(reason: string)

  datatype SearchResponse = Hits(hits: seq<RawHit>) | SearchFailed(reason: string)

  datatype Written = Written(store: Store, request: IndexRequest)

  /** One refused item of a bulk write: its position in the batch, its id and the engine's reason. */
  datatype BulkFailure = BulkFailure(position: nat, id: Option<string>, reason: string)

  /**
   * A completed bulk write: the requests sent, in batch order, and the
   * refused items. `failures` stands for the failure message the store
   * logs; the operation itself returns nothing to its caller.
   */
  datatype BulkWritten = BulkWritten(store: Store, requests: seq<IndexRequest>, failures: seq<BulkFailure>)

  datatype Removed = Removed(store: Store, request: DeleteRequest)

  datatype Searched = Searched(request: SearchRequest, hits: seq<ArticleHit>)

  /** Replaces the write target and nothing else. */
  function SetWriteIndex(s: Store, w: Option<string>): (r: Store)
    ensures r.writeIndex == w && r.(writeIndex := s.writeIndex) == s
  {
    s.(writeIndex := w)
  }

  /** Replaces the search targets and nothing else. */
  function SetSearchIndices(s: Store, indices: Option<seq<string>>): (r: Store)
    ensures r.searchIndices == indices && r.(searchIndices := s.searchIndices) == s
  {
    s.(searchIndices := indices)
  }

  /** The upsert of `a` into `index`, keyed by the article's URL. */
  function IndexRequestFor(a: Article, index: string): (r: IndexRequest)
    ensures r.index == index && r.docType == ArticleType
    ensures r.id == a.URL && r.source == a
  {
    IndexRequest(index, ArticleType, a.URL, a)
  }

  /** The engine wrote the request under its id (or under an id of its choosing when the request has none). */
  predicate Acknowledges(req: IndexRequest, resp: WriteResponse)
  {
    resp.Indexed? && (req.id.Some? ==> resp.id == req.id.value)
  }

  /**
   * Writes one article. Without a write target it fails with a
   * configuration error whatever the engine would answer; otherwise it sends
   * one upsert keyed by the URL, and an engine refusal propagates.
   */
  function Index(s: Store, a: Article, resp: WriteResponse): (r: Result<Written, StoreError>)
    ensures s.writeIndex.None? ==> r == Failure(ConfigurationError(WriteIndexUnsetForIndex))
    ensures s.writeIndex.Some? && resp.WriteFailed? ==> r == Failure(EngineError(resp.reason))
    ensures s.writeIndex.Some? && resp.Indexed? ==>
      && r.Success?
      && r.value.request == IndexRequestFor(a, s.writeIndex.value)
      && r.value.store == s.(docs := s.docs[resp.id := a])
  {
    match s.writeIndex
    case None => Failure(ConfigurationError(WriteIndexUnsetForIndex))
    case Some(w) =>
      match resp
      case WriteFailed(e) => Failure(EngineError(e))
      case Indexed(id) => Success(Written(s.(docs := s.docs[id := a]), IndexRequestFor(a, w)))
  }

  /**
   * An acknowledged write of an article with a URL leaves that article under
   * its URL and every other document as it was.
   */
  lemma IndexStoresUnderUrl(s: Store, a: Article, resp: WriteResponse, k: string)
    requires s.writeIndex.Some? && a.URL.Some?
    requires Acknowledges(IndexRequestFor(a, s.writeIndex.value), resp)
    ensures Index(s, a, resp).Success?
    ensures Index(s, a, resp).value.store.docs[a.URL.value] == a
    ensures k != a.URL.value ==> (k in Index(s, a, resp).value.store.docs <==> k in s.docs)
    ensures k != a.URL.value && k in s.docs ==> Index(s, a, resp).value.store.docs[k] == s.docs[k]
  {
  }

  /** One upsert per article, in batch order, all into `w`. */
  function BulkRequests(w: string, articles: seq<Article>): (rs: seq<IndexRequest>)
    ensures |rs| == |articles|
    ensures forall i :: 0 <= i < |articles| ==> rs[i] == IndexRequestFor(articles[i], w)
  {
    seq(|articles|, i requires 0 <= i < |articles| => IndexRequestFor(articles[i], w))
  }

  /** The documents after the engine's per-item answers are applied in batch order. */
  function ApplyBulk(docs: map<string, Article>, articles: seq<Article>, resps: seq<WriteResponse>): map<string, Article>
    requires |resps| == |articles|
    decreases |articles|
  {
    if articles == [] then docs
    else ApplyBulk(if resps[0].Indexed? then docs[resps[0].id := articles[0]] else docs, articles[1..], resps[1..])
  }

  /** The ids the engine reports writing. */
  function WrittenIds(resps: seq<WriteResponse>): set<string>
  {
    set i | 0 <= i < |resps| && resps[i].Indexed? :: resps[i].id
  }

  /** How many items from position `from` on the engine refused. */
  function RefusedCount(resps: seq<WriteResponse>, from: nat): nat
    requires from <= |resps|
    decreases |resps| - from
  {
    if from == |resps| then 0 else (if resps[from].WriteFailed? then 1 else 0) + RefusedCount(resps, from + 1)
  }

  /**
   * The report of refused items from position `from` on: one entry per
   * refused item, in batch order, with its id and the engine's reason.
   */
  function FailuresFrom(articles: seq<Article>, resps: seq<WriteResponse>, from: nat): (r: seq<BulkFailure>)
    requires |resps| == |articles| && from <= |resps|
    ensures forall k :: 0 <= k < |r| ==>
      && from <= r[k].position < |resps|
      && resps[r[k].position] == WriteFailed(r[k].reason)
      && r[k].id == articles[r[k].position].URL
    ensures forall k, l :: 0 <= k < l < |r| ==> r[k].position < r[l].position
    ensures forall p :: from <= p < |resps| && resps[p].WriteFailed? ==> p in Positions(r)
    ensures |r| == RefusedCount(resps, from)
    decreases |resps| - from
  {
    if from == |resps| then []
    else
      var rest := FailuresFrom(articles, resps, from + 1);
      var here := if resps[from].WriteFailed? then [BulkFailure(from, articles[from].URL, resps[from].reason)] else [];
      PositionsOfConcat(here, rest);
      assert here != [] ==> here[0].position == from;
      here + rest
  }

  /** The positions in the report of refused items. */
  function Positions(fs: seq<BulkFailure>): set<nat>
  {
    set k | 0 <= k < |fs| :: fs[k].position
  }

  lemma PositionsOfConcat(a: seq<BulkFailure>, b: seq<BulkFailure>)
    ensures Positions(a + b) == Positions(a) + Positions(b)
  {
    forall p | p in Positions(a + b)
      ensures p in Positions(a) + Positions(b)
    {
      var k :| 0 <= k < |a + b| && (a + b)[k].position == p;
      if k >= |a| {
        assert b[k - |a|].position == p;
      }
    }
    forall p | p in Positions(b)
      ensures p in Positions(a + b)
    {
      var k :| 0 <= k < |b| && b[k].position == p;
      assert (a + b)[|a| + k].position == p;
    }
    forall p | p in Positions(a)
      ensures p in Positions(a + b)
    {
      var k :| 0 <= k < |a| && a[k].position == p;
      assert (a + b)[k].position == p;
    }
  }

  /**
   * Writes a batch in one round trip. Without a write target it fails with a
   * configuration error; an empty batch is rejected by the engine client
   * before anything is sent; a failure of the whole round trip propagates.
   * Otherwise it completes whatever the engine answers per item: one upsert
   * per article in batch order, the documents updated by the written items,
   * and the refused items reported.
   */
  function IndexAll(s: Store, articles: seq<Article>, resp: BulkResponse): (r: Result<BulkWritten, StoreError>)
    requires resp.Items? ==> |resp.items| == |articles|
    ensures r.Success? <==> s.writeIndex.Some? && articles != [] && resp.Items?
    ensures s.writeIndex.None? ==> r == Failure(ConfigurationError(WriteIndexUnsetForIndexAll))
    ensures s.writeIndex.Some? && articles == [] ==> r == Failure(EngineError(NoRequestsAdded))
    ensures s.writeIndex.Some? && articles != [] && resp.BulkFailed? ==> r == Failure(EngineError(resp.reason))
    ensures r.Success? ==>
      && r.value.requests == BulkRequests(s.writeIndex.value, articles)
      && r.value.store == s.(docs := ApplyBulk(s.docs, articles, resp.items))
      && r.value.failures == FailuresFrom(articles, resp.items, 0)
  {
    match s.writeIndex
    case None => Failure(ConfigurationError(WriteIndexUnsetForIndexAll))
    case Some(w) =>
      if articles == [] then Failure(EngineError(NoRequestsAdded))
      else
        match resp
        case BulkFailed(e) => Failure(EngineError(e))
        case Items(resps) =>
          Success(BulkWritten(
            s.(docs := ApplyBulk(s.docs, articles, resps)),
            BulkRequests(w, articles),
            FailuresFrom(articles, resps, 0)))
  }

  /**
   * The effect of a bulk write on the documents: the ids present afterwards
   * are those present before plus those written, and a document no item was
   * written under keeps its value.
   */
  lemma {:induction false} ApplyBulkKeys(docs: map<string, Article>, articles: seq<Article>, resps: seq<WriteResponse>)
    requires |resps| == |articles|
    ensures ApplyBulk(docs, articles, resps).Keys == docs.Keys + WrittenIds(resps)
    ensures forall k :: k in docs && k !in WrittenIds(resps) ==> ApplyBulk(docs, articles, resps)[k] == docs[k]
    decreases |articles|
  {
    if articles != [] {
      var docs' := if resps[0].Indexed? then docs[resps[0].id := articles[0]] else docs;
      ApplyBulkKeys(docs', articles[1..], resps[1..]);
      assert WrittenIds(resps) == (if resps[0].Indexed? then {resps[0].id} else {}) + WrittenIds(resps[1..]) by {
        forall id | id in WrittenIds(resps)
          ensures id in (if resps[0].Indexed? then {resps[0].id} else {}) + WrittenIds(resps[1..])
        {
          var i :| 0 <= i < |resps| && resps[i].Indexed? && resps[i].id == id;
          if i > 0 {
            assert resps[1..][i - 1] == resps[i];
          }
        }
        forall id | id in WrittenIds(resps[1..])
          ensures id in WrittenIds(resps)
        {
          var i :| 0 <= i < |resps[1..]| && resps[1..][i].Indexed? && resps[1..][i].id == id;
          assert resps[i + 1] == resps[1..][i];
        }
      }
    } else {
      assert WrittenIds(resps) == {};
    }
  }

  /**
   * Last write wins within a batch: when item `i` was written under `u` and
   * no later item was, the document under `u` afterwards is article `i`.
   */
  lemma {:induction false} ApplyBulkLastWriteWins(docs: map<string, Article>, articles: seq<Article>, resps: seq<WriteResponse>, i: nat, u: string)
    requires |resps| == |articles| && i < |resps|
    requires resps[i] == Indexed(u)
    requires forall j :: i < j < |resps| ==> resps[j] != Indexed(u)
    ensures u in ApplyBulk(docs, articles, resps)
    ensures ApplyBulk(docs, articles, resps)[u] == articles[i]
    decreases |articles|
  {
    var docs' := if resps[0].Indexed? then docs[resps[0].id := articles[0]] else docs;
    if i == 0 {
      ApplyBulkKeys(docs', articles[1..], resps[1..]);
      forall j | 0 <= j < |resps[1..]| && resps[1..][j].Indexed?
        ensures resps[1..][j].id != u
      {
        assert resps[1..][j] == resps[j + 1];
      }
      assert u !in WrittenIds(resps[1..]);
    } else {
      forall j | i - 1 < j < |resps[1..]|
        ensures resps[1..][j] != Indexed(u)
      {
        assert resps[1..][j] == resps[j + 1];
      }
      ApplyBulkLastWriteWins(docs', articles[1..], resps[1..], i - 1, u);
    }
  }

  /** A non-empty batch whose every item was refused still completes, leaves the documents as they were, and reports every item. */
  lemma AllRefusedChangesNothing(s: Store, articles: seq<Article>, resps: seq<WriteResponse>)
    requires |resps| == |articles| && s.writeIndex.Some? && articles != []
    requires forall i :: 0 <= i < |resps| ==> resps[i].WriteFailed?
    ensures IndexAll(s, articles, Items(resps)).Success?
    ensures IndexAll(s, articles, Items(resps)).value.store == s
    ensures |IndexAll(s, articles, Items(resps)).value.failures| == |articles|
  {
    ApplyBulkKeys(s.docs, articles, resps);
    assert WrittenIds(resps) == {};
    AllRefusedCount(resps, 0);
  }

  /**
   * A batch the engine acknowledges item by item leaves each written article
   * under its URL, unless a later item of the batch is written under the
   * same id: a later item with the same URL, or a later item without a URL
   * to which the engine gave that id.
   */
  lemma IndexAllStoresUnderUrl(s: Store, articles: seq<Article>, resps: seq<WriteResponse>, i: nat)
    requires s.writeIndex.Some? && |resps| == |articles|
    requires forall j :: 0 <= j < |articles| ==>
      resps[j].WriteFailed? || Acknowledges(BulkRequests(s.writeIndex.value, articles)[j], resps[j])
    requires i < |articles| && resps[i].Indexed? && articles[i].URL.Some?
    requires forall j :: i < j < |articles| ==> articles[j].URL != articles[i].URL
    requires forall j :: i < j < |articles| && articles[j].URL.None? ==> resps[j] != Indexed(articles[i].URL.value)
    ensures IndexAll(s, articles, Items(resps)).Success?
    ensures articles[i].URL.value in IndexAll(s, articles, Items(resps)).value.store.docs
    ensures IndexAll(s, articles, Items(resps)).value.store.docs[articles[i].URL.value] == articles[i]
  {
    var w, u := s.writeIndex.value, articles[i].URL.value;
    var reqs := BulkRequests(w, articles);
    assert resps[i] == Indexed(u) by {
      assert reqs[i].id == Some(u);
    }
    forall j | i < j < |resps|
      ensures resps[j] != Indexed(u)
    {
      if resps[j].Indexed? && articles[j].URL.Some? {
        assert reqs[j].id == articles[j].URL;
      }
    }
    ApplyBulkLastWriteWins(s.docs, articles, resps, i, u);
  }

  lemma {:induction false} AllRefusedCount(resps: seq<WriteResponse>, from: nat)
    requires from <= |resps|
    requires forall i :: from <= i < |resps| ==> resps[i].WriteFailed?
    ensures RefusedCount(resps, from) == |resps| - from
    decreases |resps| - from
  {
    if from < |resps| {
      AllRefusedCount(resps, from + 1);
    }
  }

  /**
   * Every write fails with a configuration error when no write target is
   * set, and the outcome is the same whatever the engine would have answered.
   */
  lemma WritesFailFastWithoutWriteIndex(
    s: Store, a: Article, articles: seq<Article>, resp: BulkResponse, id: string,
    w1: WriteResponse, w2: WriteResponse, d1: DeleteResponse, d2: DeleteResponse)
    requires s.writeIndex.None? && (resp.Items? ==> |resp.items| == |articles|)
    ensures Index(s, a, w1) == Index(s, a, w2) && Index(s, a, w1).Failure?
    ensures Index(s, a, w1).error.ConfigurationError?
    ensures IndexAll(s, articles, resp).Failure? && IndexAll(s, articles, resp).error.ConfigurationError?
    ensures Delete(s, id, d1) == Delete(s, id, d2) && Delete(s, id, d1).Failure?
    ensures Delete(s, id, d1).error.ConfigurationError?
  {
  }

  /**
   * Removes a document. Without a write target it fails with a configuration
   * error; a missing document is not an error; an engine refusal propagates.
   */
  function Delete(s: Store, id: string, resp: DeleteResponse): (r: Result<Removed, StoreError>)
    ensures s.writeIndex.None? ==> r == Failure(ConfigurationError(WriteIndexUnsetForDelete))
    ensures s.writeIndex.Some? && resp.DeleteFailed? ==> r == Failure(EngineError(resp.reason))
    ensures s.writeIndex.Some? && !resp.DeleteFailed? ==>
      && r.Success?
      && r.value.request == DeleteRequest(s.writeIndex.value, ArticleType, id)
      && id !in r.value.store.docs
      && r.value.store.docs == s.docs - {id}
      && r.value.store.(docs := s.docs) == s
  {
    match s.writeIndex
    case None => Failure(ConfigurationError(WriteIndexUnsetForDelete))
    case Some(w) =>
      match resp
      case DeleteFailed(e) => Failure(EngineError(e))
      case _ => Success(Removed(s.(docs := s.docs - {id}), DeleteRequest(w, ArticleType, id)))
  }

  /** Deleting twice, the second time finding nothing, leaves the same store as deleting once. */
  lemma DeleteIdempotent(s: Store, id: string, resp: DeleteResponse)
    requires s.writeIndex.Some? && !resp.DeleteFailed?
    ensures Delete(Delete(s, id, resp).value.store, id, NotFound).value.store == Delete(s, id, resp).value.store
  {
  }

  /**
   * Translates a query into a search request. Without a term the request
   * matches everything, whatever the fields. With a term it needs the fields
   * to be present (an empty list is accepted) and the engine client refuses
   * an empty field name; otherwise it matches the term across exactly those
   * fields. The filters become the post filter, and the
   * offset and page size are always passed on.
   */
  function Translate(indices: seq<string>, q: SearchQuery): (r: Result<SearchRequest, StoreError>)
    ensures r.Success? <==> q.searchQuery.None? || (q.fields.Some? && "" !in q.fields.value)
    ensures q.searchQuery.Some? && q.fields.None? ==> r == Failure(ValidationError(FieldsUnset))
    ensures q.searchQuery.Some? && q.fields.Some? && "" in q.fields.value ==> r == Failure(ValidationError(EmptyFieldName))
    ensures r.Success? ==>
      && r.value.indices == indices
      && r.value.docType == ArticleType
      && r.value.searchType == DfsQueryThenFetch
      && (q.searchQuery.None? ==> r.value.query == MatchAll)
      && (q.searchQuery.Some? ==> r.value.query == MultiMatch(q.searchQuery.value, q.fields.value))
      && r.value.postFilter == q.filters
      && r.value.from == Some(q.from)
      && r.value.size == Some(q.limit)
  {
    var query :-
      if q.searchQuery.None? then Success(MatchAll)
      else if q.fields.None? then Failure(ValidationError(FieldsUnset))
      else if "" in q.fields.value then Failure(ValidationError(EmptyFieldName))
      else Success(MultiMatch(q.searchQuery.value, q.fields.value));
    Success(SearchRequest(indices, ArticleType, DfsQueryThenFetch, query, q.filters, Some(q.from), Some(q.limit)))
  }

  /** Without a term the fields play no part in the translation. */
  lemma MatchAllIgnoresFields(indices: seq<string>, q: SearchQuery, fields: Option<seq<string>>)
    requires q.searchQuery.None?
    ensures Translate(indices, q.(fields := fields)) == Translate(indices, q)
    ensures Translate(indices, q).Success? && Translate(indices, q).value.query == MatchAll
  {
  }

  /**
   * The search-term path rejects absent fields but not an empty field list:
   * a term with no fields is translated into a multi-match over no fields.
   */
  lemma EmptyFieldsAccepted(indices: seq<string>, q: SearchQuery)
    requires q.searchQuery.Some? && q.fields == Some([])
    ensures Translate(indices, q).Success?
    ensures Translate(indices, q).value.query == MultiMatch(q.searchQuery.value, [])
  {
  }

  /** The article from a raw hit, with the hit's id as its document id and the hit's score attached. */
  function ToHit(h: RawHit): (r: ArticleHit)
    requires h.parsed.Some?
    ensures r.article.id == Some(h.id) && r.searchScore == h.score
    ensures r.article.(id := h.parsed.value.id) == h.parsed.value
  {
    ArticleHit(h.parsed.value.(id := Some(h.id)), h.score)
  }

  /** The article hits of `hits[from..]`, skipping the hits whose parse gave nothing. */
  function ConvertFrom(hits: seq<RawHit>, from: nat): (r: seq<ArticleHit>)
    requires from <= |hits|
    ensures |r| <= |hits| - from
    decreases |hits| - from
  {
    if from == |hits| then []
    else (if hits[from].parsed.Some? then [ToHit(hits[from])] else []) + ConvertFrom(hits, from + 1)
  }

  /** The positions `p >= from` of the hits whose parse gave an article, in increasing order. */
  function ParsedFrom(hits: seq<RawHit>, from: nat): (ps: seq<nat>)
    requires from <= |hits|
    ensures forall k :: 0 <= k < |ps| ==> from <= ps[k] < |hits| && hits[ps[k]].parsed.Some?
    ensures forall k, l :: 0 <= k < l < |ps| ==> ps[k] < ps[l]
    ensures forall p :: from <= p < |hits| && hits[p].parsed.Some? ==> p in ps
    decreases |hits| - from
  {
    if from == |hits| then []
    else
      var rest := ParsedFrom(hits, from + 1);
      (if hits[from].parsed.Some? then [from] else []) + rest
  }

  /** The article hits of a page of raw hits. */
  function ConvertHits(hits: seq<RawHit>): seq<ArticleHit>
  {
    ConvertFrom(hits, 0)
  }

  /**
   * Hit conversion is an order-preserving filter-map: the k-th article hit
   * is the k-th raw hit that parsed, in the engine's order, carrying that
   * hit's score and id; every hit that parsed is kept and only those that
   * did not are dropped.
   */
  lemma {:induction false} ConvertKeepsParsedInOrder(hits: seq<RawHit>, from: nat)
    requires from <= |hits|
    ensures |ConvertFrom(hits, from)| == |ParsedFrom(hits, from)|
    ensures forall k :: 0 <= k < |ConvertFrom(hits, from)| ==>
      ConvertFrom(hits, from)[k] == ToHit(hits[ParsedFrom(hits, from)[k]])
    decreases |hits| - from
  {
    if from < |hits| {
      ConvertKeepsParsedInOrder(hits, from + 1);
      var rest, ps := ConvertFrom(hits, from + 1), ParsedFrom(hits, from + 1);
      if hits[from].parsed.Some? {
        ParsedHead(hits, from, from + 1);
      } else {
        assert ConvertFrom(hits, from) == rest;
        assert ParsedFrom(hits, from) == ps;
      }
    }
  }

  /**
   * When the hit at `from` parsed, both sequences gain it at their head.
   * `next` names `from + 1` so the quantifiers over the tail have a trigger
   * free of arithmetic.
   */
  lemma ParsedHead(hits: seq<RawHit>, from: nat, next: nat)
    requires next == from + 1 && from < |hits| && hits[from].parsed.Some?
    requires |ConvertFrom(hits, next)| == |ParsedFrom(hits, next)|
    requires forall k :: 0 <= k < |ConvertFrom(hits, next)| ==>
      ConvertFrom(hits, next)[k] == ToHit(hits[ParsedFrom(hits, next)[k]])
    ensures |ConvertFrom(hits, from)| == |ParsedFrom(hits, from)|
    ensures forall k :: 0 <= k < |ConvertFrom(hits, from)| ==>
      ConvertFrom(hits, from)[k] == ToHit(hits[ParsedFrom(hits, from)[k]])
  {
    var rest, ps := ConvertFrom(hits, from + 1), ParsedFrom(hits, from + 1);
    var out, pos := ConvertFrom(hits, from), ParsedFrom(hits, from);
    assert out == [ToHit(hits[from])] + rest;
    assert pos == [from] + ps;
    forall k | 0 <= k < |out|
      ensures out[k] == ToHit(hits[pos[k]])
    {
      if k > 0 {
        assert out[k] == rest[k - 1] && pos[k] == ps[k - 1];
      }
    }
  }

  /**
   * The loop over the engine's hits: parse each, and when the parse gave an
   * article attach the hit's score and id and keep it.
   */
  method HitsToArticleHits(hits: seq<RawHit>) returns (r: seq<ArticleHit>)
    ensures r == ConvertHits(hits)
  {
    r := [];
    var i := 0;
    while i < |hits|
      invariant 0 <= i <= |hits|
      invariant r + ConvertFrom(hits, i) == ConvertFrom(hits, 0)
    {
      if hits[i].parsed.Some? {
        r := r + [ToHit(hits[i])];
      }
      i := i + 1;
    }
  }

  /**
   * Searches with a query. Without search targets it fails with a
   * configuration error before the query is examined; a term without fields
   * is a validation error; otherwise the translated request is sent and the
   * engine's hits are converted in order.
   */
  function Search(s: Store, q: SearchQuery, resp: SearchResponse): (r: Result<Searched, StoreError>)
    ensures s.searchIndices.None? ==> r == Failure(ConfigurationError(SearchIndicesUnset))
    ensures s.searchIndices.Some? && q.searchQuery.Some? && q.fields.None? ==> r == Failure(ValidationError(FieldsUnset))
    ensures s.searchIndices.Some? && Translate(s.searchIndices.value, q).Failure? ==>
      r == Failure(Translate(s.searchIndices.value, q).error)
    ensures r.Success? ==>
      && s.searchIndices.Some?
      && Success(r.value.request) == Translate(s.searchIndices.value, q)
      && resp.Hits?
      && r.value.hits == ConvertHits(resp.hits)
    ensures s.searchIndices.Some? && Translate(s.searchIndices.value, q).Success? && resp.SearchFailed? ==>
      r == Failure(EngineError(resp.reason))
    ensures s.searchIndices.Some? && Translate(s.searchIndices.value, q).Success? && resp.Hits? ==> r.Success?
  {
    match s.searchIndices
    case None => Failure(ConfigurationError(SearchIndicesUnset))
    case Some(indices) =>
      var request :- Translate(indices, q);
      match resp
      case SearchFailed(e) => Failure(EngineError(e))
      case Hits(hs) => Success(Searched(request, ConvertHits(hs)))
  }

  /** The search-targets check comes first: with neither targets nor fields the error is the configuration one. */
  lemma SearchChecksTargetsFirst(s: Store, q: SearchQuery, resp: SearchResponse)
    requires s.searchIndices.None? && q.searchQuery.Some? && q.fields.None?
    ensures Search(s, q, resp).Failure? && Search(s, q, resp).error.ConfigurationError?
  {
  }

  /**
   * Searches with a raw simple query string, bypassing translation: no post
   * filter, offset or page size; it still needs search targets.
   */
  function SearchString(s: Store, text: string, resp: SearchResponse): (r: Result<Searched, StoreError>)
    ensures s.searchIndices.None? ==> r == Failure(ConfigurationError(SearchIndicesUnset))
    ensures s.searchIndices.Some? && resp.SearchFailed? ==> r == Failure(EngineError(resp.reason))
    ensures s.searchIndices.Some? && resp.Hits? ==>
      && r.Success?
      && r.value.request == SearchRequest(s.searchIndices.value, ArticleType, DfsQueryThenFetch, SimpleQueryString(text), None, None, None)
      && r.value.hits == ConvertHits(resp.hits)
  {
    match s.searchIndices
    case None => Failure(ConfigurationError(SearchIndicesUnset))
    case Some(indices) =>
      match resp
      case SearchFailed(e) => Failure(EngineError(e))
      case Hits(hs) =>
        Success(Searched(SearchRequest(indices, ArticleType, DfsQueryThenFetch, SimpleQueryString(text), None, None, None), ConvertHits(hs)))
  }

  /**
   * An article built with a URL and returned by the engine under that URL
   * comes back as a hit equal to the built article, with the engine's score.
   */
  lemma BuiltArticleComesBackAsHit(b: ArticleBuilders.ArticleBuilder, score: Score)
    requires b.URL.Some?
    ensures ConvertHits([RawHit(Some(ArticleBuilders.Build(b)), score, b.URL.value)])
         == [ArticleHit(ArticleBuilders.Build(b), score)]
  {
    var h := RawHit(Some(ArticleBuilders.Build(b)), score, b.URL.value);
    assert ConvertFrom([h], 1) == [];
  }
}
