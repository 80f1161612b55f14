# Article search store: a Dafny model

This project models the Elasticsearch glue of the RSS article service in
Dafny. It has three parts:

- **Search queries.** There is a generic search-query builder: target fields, a
  free-text term, a filter tree, and `from`/`limit` pagination. It builds an
  immutable search query. There are also directional range filters.
- **Article queries.** The article query builder turns content type, author,
  title, created/published date ranges and tags into one top-level bool
  filter. Term and range clauses go into `must`; each tag becomes a `should`
  clause.
- **Articles and the store.**
  - The article record builder.
  - The article datastore:
    - configuration guards (write index, search indices);
    - single and bulk upserts keyed by the article URL;
    - deletes;
    - translation of a search query into the engine's search request
      (match-all or multi-match, post filter, from, size);
    - the simple-query-string search;
    - conversion of raw engine hits into scored article hits.

The search engine is an oracle. Every operation that talks to it takes the
engine's answer as a parameter:

- `WriteResponse` for one write;
- `BulkResponse` for a bulk write: one `WriteResponse` per item, or a failure of the whole round trip;
- `DeleteResponse` for a delete;
- `SearchResponse` for a search.

The store's `docs` map records what the engine reported writing. Java's
`NullPointerException` guards become `Failure` values:

- a missing write or search target gives a `ConfigurationError` carrying the
  source's message text;
- a search term without fields gives a `ValidationError`.

Engine refusals become `EngineError`.

Modules follow the program's structure:

- `Wrappers`: `Option`, `Result`.
- `Filters`: the engine's term, range and bool query nodes.
- `Models`: `Article`, `Link`, `Tag`, `ArticleHit`.
- `SearchQueries`: the generic builder and query.
- `ArticleQueries`: the article query builder.
- `ArticleBuilders`: the article record builder.
- `ArticleStore`: the datastore.

The datastore exists in two packages. The `org` copy names the writes
`save`/`saveAll`; the `com` copy names them `index`/`indexAll`. The two copies
have the same guards, messages and request shapes, so one model covers both.
The operations carry the `com` names, and the lemmas cite the `org` copy
where it states the same behaviour.

## Model

| member | source | states |
|---|---|---|
| `SearchQueries.NewBuilder` | src/main/java/org/russpollock/rss/repository/queries/SearchQueryBuilder.java:6-12 | a new builder has no fields, term or filters, offset 0 and page size 10 |
| `SearchQueries.SetFields` | src/main/java/org/russpollock/rss/repository/queries/SearchQueryBuilder.java:14-17 | the target fields become the argument and no other component changes |
| `SearchQueries.SetSearchQuery` | src/main/java/org/russpollock/rss/repository/queries/SearchQueryBuilder.java:19-22 | the term becomes the argument and no other component changes |
| `SearchQueries.SetFrom` | src/main/java/org/russpollock/rss/repository/queries/SearchQueryBuilder.java:24-27 | a negative offset is clamped to 0, a non-negative one is kept exactly, nothing else changes |
| `SearchQueries.SetLimit` | src/main/java/org/russpollock/rss/repository/queries/SearchQueryBuilder.java:29-32 | a negative page size is clamped to 0, a non-negative one is kept exactly, nothing else changes |
| `SearchQueries.SetFilters` | src/main/java/org/russpollock/rss/repository/queries/SearchQueryBuilder.java:34-37 | the filter tree is replaced wholesale and nothing else changes |
| `SearchQueries.Build` | src/main/java/org/russpollock/rss/repository/queries/SearchQuery.java:23-29 | the built query carries exactly the builder's five components, unvalidated |
| `SearchQueries.RunLastWriteWins` | src/main/java/org/russpollock/rss/repository/queries/SearchQueryBuilder.java:24-32 | after any sequence of setter calls, offset and page size are those of the last `setFrom`/`setLimit` call (clamped), or the starting values if none |
| `SearchQueries.BuiltQueryPaginationInRange` | src/main/java/org/russpollock/rss/repository/queries/SearchQueryBuilder.java:9-10 | every query built from a fresh builder after any setter calls has offset and page size in 0..2^31-1 |
| `SearchQueries.DirectionalRange` | src/main/java/org/russpollock/rss/repository/queries/SearchQuery.java:51-73 | each of the four directions gives a range on the field with exactly one bound: lower for the "greater" directions, upper for the "less" ones, inclusive exactly for "or equal" |
| `SearchQueries.DirectionalRangeRoundTrip` | src/main/java/org/russpollock/rss/repository/queries/SearchQuery.java:16-21 | a directional range reads back as its field, value and direction, and every one-sided range is the directional range of what it reads back as |
| `SearchQueries.DirectionalRangeOneSided` | src/main/java/org/russpollock/rss/repository/queries/SearchQuery.java:56-71 | no direction falls through without a bound, and none sets two bounds |
| `ArticleQueries.NewArticleBuilder` | src/com/russpollock/rss/repository/queries/ArticleSearchQueryBuilder.java:13-15 | a new article builder has no filters of its own and a fresh generic builder |
| `ArticleQueries.AddMustQueryToFilters` | src/com/russpollock/rss/repository/queries/ArticleSearchQueryBuilder.java:197-203 | with no filters yet it creates a bool query holding only the clause; otherwise it appends the clause to `must` and keeps `should` |
| `ArticleQueries.SetContentType` | src/com/russpollock/rss/repository/queries/ArticleSearchQueryBuilder.java:29-33 | appends a term clause on `contentType` to `must`; `should` and the generic builder are unchanged |
| `ArticleQueries.SetAuthor` | src/com/russpollock/rss/repository/queries/ArticleSearchQueryBuilder.java:43-47 | appends a term clause on `author.raw` to `must`; `should` and the generic builder are unchanged |
| `ArticleQueries.SetTitle` | src/com/russpollock/rss/repository/queries/ArticleSearchQueryBuilder.java:57-61 | appends a term clause on `title.raw` to `must`; `should` and the generic builder are unchanged |
| `ArticleQueries.SetCreatedRelative` | src/com/russpollock/rss/repository/queries/ArticleSearchQueryBuilder.java:72-75 | appends the directional range on `created` to `must` |
| `ArticleQueries.BetweenRange` | src/com/russpollock/rss/repository/queries/ArticleSearchQueryBuilder.java:86-88 | the from/to range has both bounds inclusive, and a null end gives no bound on that side |
| `ArticleQueries.SetCreatedBetween` | src/com/russpollock/rss/repository/queries/ArticleSearchQueryBuilder.java:86-94 | appends the from/to range on `created` (inclusive, a null end left open) to `must` |
| `ArticleQueries.SetPublishedRelative` | src/com/russpollock/rss/repository/queries/ArticleSearchQueryBuilder.java:105-108 | appends the directional range on `published` to `must` |
| `ArticleQueries.SetPublishedBetween` | src/com/russpollock/rss/repository/queries/ArticleSearchQueryBuilder.java:119-127 | appends the from/to range on `published` (inclusive, a null end left open) to `must` |
| `ArticleQueries.BuildTagQuery` | src/com/russpollock/rss/repository/queries/ArticleSearchQueryBuilder.java:182-186 | the tag query reads back as exactly the tag it was built from |
| `ArticleQueries.TagQueryRoundTrip` | src/com/russpollock/rss/repository/queries/ArticleSearchQueryBuilder.java:182-186 | a tag query reads back as the tag it was built from, and every filter that reads back as a tag is that tag's query |
| `ArticleQueries.AddTagClauses` | src/com/russpollock/rss/repository/queries/ArticleSearchQueryBuilder.java:142-144 | the loop adds one tag clause per tag to `should`, in list order, after the existing ones; `must` is untouched |
| `ArticleQueries.SetTags` | src/com/russpollock/rss/repository/queries/ArticleSearchQueryBuilder.java:137-146 | filters are present afterwards; `must` is kept; `should` keeps its prefix and grows by one clause per tag, the i-th new clause reading back as the i-th tag |
| `ArticleQueries.SetTag` | src/com/russpollock/rss/repository/queries/ArticleSearchQueryBuilder.java:156-160 | the single-tag form is the list form on a one-element list and appends exactly that tag's clause |
| `ArticleQueries.EmptyTagsOnFreshBuilder` | src/com/russpollock/rss/repository/queries/ArticleSearchQueryBuilder.java:137-140 | an empty tag list on a fresh builder leaves an empty bool query, not absent filters |
| `ArticleQueries.BuildArticleQuery` | src/com/russpollock/rss/repository/queries/ArticleSearchQueryBuilder.java:169-171 | the built query has the builder's own filters (absent exactly when they are absent) and the generic builder's fields, term and pagination |
| `ArticleQueries.SetFiltersIsShadowed` | src/com/russpollock/rss/repository/queries/ArticleSearchQueryBuilder.java:13-19 | the generic `setFilters` on an article builder has no effect on the built query, because the override of `getFilters` reads the article builder's own field |
| `ArticleQueries.ReplayShape` | src/com/russpollock/rss/repository/queries/ArticleSearchQueryBuilder.java:29-146 | after any setter calls on a fresh builder, filters are absent iff there were no calls; `must` holds the term/range clauses in call order, one per such call; `should` holds one tag clause per tag passed, in call order |
| `ArticleQueries.SwapKeepsClauses` | src/com/russpollock/rss/repository/queries/ArticleSearchQueryBuilder.java:197-203 | swapping two adjacent setter calls leaves the same multiset of clauses in `must` and in `should` |
| `ArticleBuilders.NewArticleBuilder` | src/main/java/org/russpollock/rss/models/builders/ArticleBuilder.java:11-24 | a new builder has every field absent, both lists included |
| `ArticleBuilders.SetURL` | src/main/java/org/russpollock/rss/models/builders/ArticleBuilder.java:26-29 | sets the URL and leaves every other field unchanged |
| `ArticleBuilders.SetAuthor` | src/main/java/org/russpollock/rss/models/builders/ArticleBuilder.java:31-34 | sets the author and leaves every other field unchanged |
| `ArticleBuilders.SetContentType` | src/main/java/org/russpollock/rss/models/builders/ArticleBuilder.java:36-39 | sets the content type and leaves every other field unchanged |
| `ArticleBuilders.SetPublished` | src/main/java/org/russpollock/rss/models/builders/ArticleBuilder.java:41-44 | sets the published date and leaves every other field unchanged |
| `ArticleBuilders.SetUpdated` | src/main/java/org/russpollock/rss/models/builders/ArticleBuilder.java:46-49 | sets the updated date and leaves every other field unchanged |
| `ArticleBuilders.SetCreated` | src/main/java/org/russpollock/rss/models/builders/ArticleBuilder.java:51-54 | sets the created date and leaves every other field unchanged |
| `ArticleBuilders.SetContent` | src/main/java/org/russpollock/rss/models/builders/ArticleBuilder.java:56-59 | sets the content and leaves every other field unchanged |
| `ArticleBuilders.SetTile` | src/main/java/org/russpollock/rss/models/builders/ArticleBuilder.java:61-64 | sets the title (the source spells this setter `setTile`) and leaves every other field unchanged |
| `ArticleBuilders.SetDescription` | src/main/java/org/russpollock/rss/models/builders/ArticleBuilder.java:66-69 | sets the description and leaves every other field unchanged |
| `ArticleBuilders.SetSource` | src/main/java/org/russpollock/rss/models/builders/ArticleBuilder.java:71-74 | sets the source and leaves every other field unchanged |
| `ArticleBuilders.AddTag` | src/main/java/org/russpollock/rss/models/builders/ArticleBuilder.java:76-82 | creates the tag list on first use and appends the tag after the earlier ones; nothing else changes |
| `ArticleBuilders.AddTagPair` | src/main/java/org/russpollock/rss/models/builders/ArticleBuilder.java:84-90 | the label/type form is the same as adding the tag made of the pair |
| `ArticleBuilders.AddLink` | src/main/java/org/russpollock/rss/models/builders/ArticleBuilder.java:92-98 | creates the link list on first use and appends the link after the earlier ones; nothing else changes |
| `ArticleBuilders.AddLinkHref` | src/main/java/org/russpollock/rss/models/builders/ArticleBuilder.java:100-108 | the href form is the same as adding a link with only `href` set |
| `ArticleBuilders.Build` | src/main/java/org/russpollock/rss/models/builders/ArticleBuilder.java:110-125 | both the document id and the URL come from the builder's URL, and every other field is carried over as set |
| `ArticleBuilders.AddTagsAppends` | src/main/java/org/russpollock/rss/models/builders/ArticleBuilder.java:76-90 | adding tags in turn appends them in order; the list stays absent only if it was absent and nothing was added |
| `ArticleBuilders.AddLinksAppends` | src/main/java/org/russpollock/rss/models/builders/ArticleBuilder.java:92-108 | adding links in turn appends them in order; the list stays absent only if it was absent and nothing was added |
| `ArticleBuilders.BuildRoundTrip` | src/main/java/org/russpollock/rss/models/builders/ArticleBuilder.java:26-125 | replaying an article's fields through the setters and adds rebuilds it whenever its id equals its URL and neither list is present-but-empty; a rebuilt article never has a present-but-empty list |
| `ArticleStore.SetWriteIndex` | src/com/russpollock/rss/repository/ESArticleDatastore.java:60-62 | replaces the write target and nothing else |
| `ArticleStore.SetSearchIndices` | src/main/java/org/russpollock/rss/repository/ESArticleDatastore.java:63-65 | replaces the search targets and nothing else |
| `ArticleStore.IndexRequestFor` | src/com/russpollock/rss/repository/ESArticleDatastore.java:72-75 | the upsert goes to the given index under type `article`, keyed by the article's URL, with the article as its source |
| `ArticleStore.Index` | src/com/russpollock/rss/repository/ESArticleDatastore.java:77-83 | without a write index it fails with the "before indexing" configuration error whatever the engine would answer; otherwise it sends the URL-keyed upsert, records the document under the id the engine wrote, and propagates a refusal |
| `ArticleStore.IndexStoresUnderUrl` | src/main/java/org/russpollock/rss/repository/ESArticleDatastore.java:114-120 | an acknowledged save of an article with a URL leaves it under its URL and every other document unchanged |
| `ArticleStore.BulkRequests` | src/com/russpollock/rss/repository/ESArticleDatastore.java:90-94 | one upsert per article, in batch order, each the single-write request into the write index |
| `ArticleStore.FailuresFrom` | src/com/russpollock/rss/repository/ESArticleDatastore.java:96-100 | the logged failure message lists exactly the refused items, in increasing position order, each with its URL and the engine's reason; it stands for what is logged, not for a value returned to the caller |
| `ArticleStore.IndexAll` | src/com/russpollock/rss/repository/ESArticleDatastore.java:85-101 | succeeds iff a write index is set, the batch is non-empty and the round trip itself did not fail, whatever the engine answers per item; no write index gives the "before indexing all" configuration error, an empty batch the client's "no requests added" error, a failed round trip an engine error; on success the requests, resulting documents and logged failures are exactly those of the batch |
| `ArticleStore.IndexAllStoresUnderUrl` | src/com/russpollock/rss/repository/ESArticleDatastore.java:90-96 | in a batch the engine acknowledges item by item, each written article with a URL is afterwards stored under that URL unless a later item is written under the same id |
| `ArticleStore.ApplyBulkKeys` | src/main/java/org/russpollock/rss/repository/ESArticleDatastore.java:131-147 | after a bulk write the ids present are those before plus those written, and an id nobody wrote keeps its document |
| `ArticleStore.ApplyBulkLastWriteWins` | src/main/java/org/russpollock/rss/repository/ESArticleDatastore.java:136-142 | within a batch, the document under an id is the last article written under that id |
| `ArticleStore.AllRefusedChangesNothing` | src/main/java/org/russpollock/rss/repository/ESArticleDatastore.java:142-146 | a non-empty batch whose every item is refused still completes, leaves the store unchanged and logs every item as failed |
| `ArticleStore.WritesFailFastWithoutWriteIndex` | src/main/java/org/russpollock/rss/repository/ESArticleDatastore.java:116-162 | without a write index, save, saveAll and delete all fail with a configuration error, and the outcome does not depend on the engine's answer |
| `ArticleStore.Delete` | src/com/russpollock/rss/repository/ESArticleDatastore.java:103-109 | without a write index it fails with the "before deleting" configuration error; a missing document is not an error; afterwards the id is absent and everything else is unchanged; an engine refusal propagates |
| `ArticleStore.DeleteIdempotent` | src/main/java/org/russpollock/rss/repository/ESArticleDatastore.java:158-164 | deleting a second time finds nothing and leaves the same store as deleting once |
| `ArticleStore.Translate` | src/com/russpollock/rss/repository/ESArticleDatastore.java:117-141 | succeeds iff there is no term, or the fields are present and none is the empty name; absent fields give the source's "fields must be set" error and an empty field name the engine client's "supplied field is null or empty." error; without a term it matches all, with one it multi-matches the term across exactly the fields; filters become the post filter; from and size are always passed on |
| `ArticleStore.MatchAllIgnoresFields` | src/main/java/org/russpollock/rss/repository/ESArticleDatastore.java:194-196 | without a term the request is match-all and the fields play no part in it |
| `ArticleStore.EmptyFieldsAccepted` | src/main/java/org/russpollock/rss/repository/ESArticleDatastore.java:198-201 | an empty field list is not rejected, since the code checks only for null: a term with no fields gives a multi-match over no fields |
| `ArticleStore.ToHit` | src/com/russpollock/rss/repository/ESArticleDatastore.java:170-174 | a parsed hit becomes the parsed article with the hit's id as document id and the hit's score attached, all else unchanged |
| `ArticleStore.ConvertKeepsParsedInOrder` | src/main/java/org/russpollock/rss/repository/ESArticleDatastore.java:250-262 | hit conversion is an order-preserving filter-map: the k-th article hit comes from the k-th hit that parsed, and every hit that parsed is kept |
| `ArticleStore.HitsToArticleHits` | src/com/russpollock/rss/repository/ESArticleDatastore.java:166-178 | the loop over the hits returns exactly the conversion of the whole page |
| `ArticleStore.Search` | src/com/russpollock/rss/repository/ESArticleDatastore.java:111-147 | without search indices it fails with a configuration error; a term without fields, or with an empty field name, is a validation error, exactly as the translation reports it; on success the request is the translation and the hits are the converted engine hits; an engine failure propagates; with search indices, a translatable query and a hits answer it succeeds |
| `ArticleStore.SearchChecksTargetsFirst` | src/main/java/org/russpollock/rss/repository/ESArticleDatastore.java:184-201 | the search-indices guard comes before the fields check: with neither, the error is the configuration one |
| `ArticleStore.SearchString` | src/com/russpollock/rss/repository/ESArticleDatastore.java:149-164 | needs search indices; sends a simple-query-string request with no post filter, offset or page size; converts the hits |
| `ArticleStore.BuiltArticleComesBackAsHit` | src/main/java/org/russpollock/rss/repository/ESArticleDatastore.java:254-258 | an article built with a URL and returned by the engine under that URL comes back as a hit equal to the built article, with the engine's score |

## Left out

- Engine I/O is not modelled. The client, the network and the `.get()`/`execute().actionGet()` round trips are replaced by response parameters. A round trip that fails, for one write, a bulk write, a delete or a search, becomes an `EngineError`.
- Client bootstrap, index provisioning, the environment reader, the file utility and the datastore factory are not part of this model.
- JSON (Gson) serialization and parsing. A raw hit carries its parse result as an `Option<Article>`, so a parse that gives `null` is `None`. Exceptions that Gson throws on malformed JSON are not modelled.
- The score is a Java `float`. It is carried as a `real` and never computed on.
- Logging is not modelled, with one exception. The bulk failure message that `indexAll` logs is modelled as `BulkWritten.failures`, although the Java method returns nothing to its caller.
- Concurrency is not modelled. The `toString` methods are not modelled either.
- Elasticsearch's matching semantics for bool `must`/`should` and for multi-match are not modelled. The model states the shape of the query sent, not which documents it matches.
- Null arguments are modelled as `None` for `setFields`, `setSearchQuery`, the article record setters, and the `from`/`to` ends of the between-range setters. The engine reads a null range end as an open bound.
- Null term values, and null tag fields passed to the query builder's `setTags`, are not modelled, because the engine's term query rejects them.
- Null tag fields in the record builder are not modelled. `addTag(String, String)` builds such a tag without any query, and `build` carries it into the article. `Tag` has plain string fields and cannot express this.
- A null element in the record builder's lists is not modelled. `addTag((Tag) null)` and `addLink((Link) null)` add one, and a `seq<Tag>` or `seq<Link>` cannot hold it.
- A null direction in `setCreated` or `setPublished` with a date is not modelled. It throws a `NullPointerException` at the `switch` in `buildDirectionalRangeQuery`, and `RangeDirection` has no null value.
- A null date in the directional range setters is not modelled. The engine reads it as an open bound, so the range has no bound at all; `SearchQueries.DirectionalRange` always sets one bound.
- Three null arguments to the store end in a bare `NullPointerException` before any guard, and none is modelled:
  - `index(null)` throws while logging the article URL (`com` line 78).
  - `indexAll(null)` throws while logging the list size (line 86).
  - `search((SearchQuery) null)` throws at `query.toString()` (line 112), before the search-indices guard.
- `delete(null)` is not modelled. It passes the write-index guard (line 105), and then the client's request validation refuses the missing id at `.get()` (line 108). `ArticleStore.Delete` takes a plain string id.
- `search((String) null)` is not modelled. It passes the search-indices guard (line 151), and then the simple-query-string builder refuses the missing text (line 158).
- A null element in the list given to `indexAll` is not modelled. It passes the write-index guard and throws at `article.URL` while building the bulk (line 92). `ArticleStore.IndexAll` takes a sequence of articles.
- `setTags(null)` is not modelled. It first creates an empty bool filter (`ArticleSearchQueryBuilder.java` lines 138-140) and then throws when it iterates the list (line 142).
- `setTags` with a null `Tag` is not modelled, alone or as a list element. It first creates the empty bool filter, and then throws at `tag.tag` in `buildTagQuery` (line 184).
- A null element passed to `setFields(String...)` is not modelled. The multi-match builder refuses it with the same "supplied field is null or empty." error as an empty name, but `seq<string>` cannot hold a null.
- ArticleStore.Translate: the multi-match fields are a sequence in the model, stated exactly as given. The engine client keeps them in a sorted map, so their order and repeats make no difference to the request it sends. The model makes no claim that reordered lists are equivalent.
- `setSearchQuery` takes any `Object`. Only string terms are modelled.
- `ArticleStore.IndexAll` requires one engine answer per item when the round trip succeeds. The engine promises this for a bulk response, and it is not checked at run time.
- The engine client rejects an empty bulk request before sending it, with the message "no requests added". The model takes this from the client library, not from the repository's code.
- The `docs` map of a store records only what the engine reported writing or deleting. Pre-existing index contents and refresh timing are not modelled.
- The `ArticleSearchQuery` class and the `com` generic builder/query classes are not part of this model. The `com` article builder is assumed to extend a generic builder that behaves like the `org` one.
- The Java `BoolQueryBuilder` is mutated in place, so a query built earlier shares its filter object with the builder and sees later setter calls. The model gives `BuildArticleQuery` snapshot semantics and makes no claim about that aliasing.
- ArticleBuilders.Build: the Java article shares the builder's `tags` and `links` list objects. A later `addTag` or `addLink` on the same builder therefore also changes an article already built. The model copies the lists at build time and makes no claim about that sharing.
- The `Document` base class is not part of this model beyond the article's `id` field.
- Hit conversion calls `setID`, which is assumed to overwrite the document id.
- `Article.DEFAULT_SEARCH_FIELDS` is a constant that no core operation reads, so it is not modelled.
- An empty field list is accepted on the search-term path, because the code rejects only a missing (`null`) list. An empty field name is refused by the engine client's multi-match builder before anything is sent, and the model takes that check from the client library. See `ArticleStore.EmptyFieldsAccepted` and `ArticleStore.Translate`.
- The builder never yields a null offset or page size, so the "when present" guards on `from`/`size` always pass. `ArticleStore.Translate` states that both are always set.
