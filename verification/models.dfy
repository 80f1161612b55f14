/** The article records the store reads and writes. */
module Models {
  import opened Wrappers

  /** A categorised label attached to an article. */
  datatype Tag = Tag(tag: string, tagType: string)

  /** An outbound reference of an article; every part may be absent. */
  datatype Link = Link(href: Option<string>, rel: Option<string>, linkType: Option<string>)

  /**
   * An article. `id` is the document id inherited from the document base
   * class; `URL` is the article's identity and the id it is written under.
   * Every field may be absent, and the two lists may be absent rather than empty.
   */
  datatype Article = Article(
    id: Option<string>,
    URL: Option<string>,
    published: Option<string>,
    updated: Option<string>,
    contentType: Option<string>,
    content: Option<string>,
    author: Option<string>,
    title: Option<string>,
    description: Option<string>,
    links: Option<seq<Link>>,
    tags: Option<seq<Tag>>,
    source: Option<string>,
    created: Option<string>
  )

  /** A relevance score as the engine reports it; it is copied, never computed on. */
  type Score = real

  /** An article returned by a search, with the engine's score; the engine's document id is `article.id`. */
  datatype ArticleHit = ArticleHit(article: Article, searchScore: Score)
}
