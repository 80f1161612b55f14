/**
 * The article record builder: one setter per field, list fields that are
 * created on the first add, and a build step that also uses the URL as the
 * document id.
 */
module ArticleBuilders {
  import opened Wrappers
  import opened Models

  datatype ArticleBuilder = ArticleBuilder(
    URL: Option<string>,
    author: Option<string>,
    contentType: Option<string>,
    published: Option<string>,
    updated: Option<string>,
    content: Option<string>,
    title: Option<string>,
    description: Option<string>,
    source: Option<string>,
    created: Option<string>,
    tags: Option<seq<Tag>>,
    links: Option<seq<Link>>
  )

  /** A builder with every field absent, the two lists included. */
  function NewArticleBuilder(): (b: ArticleBuilder)
    ensures b.URL.None? && b.author.None? && b.contentType.None? && b.published.None?
    ensures b.updated.None? && b.content.None? && b.title.None? && b.description.None?
    ensures b.source.None? && b.created.None? && b.tags.None? && b.links.None?
  {
    ArticleBuilder(None, None, None, None, None, None, None, None, None, None, None, None)
  }

  function SetURL(b: ArticleBuilder, v: Option<string>): (r: ArticleBuilder)
    ensures r.URL == v && r.(URL := b.URL) == b
  {
    b.(URL := v)
  }

  function SetAuthor(b: ArticleBuilder, v: Option<string>): (r: ArticleBuilder)
    ensures r.author == v && r.(author := b.author) == b
  {
    b.(author := v)
  }

  function SetContentType(b: ArticleBuilder, v: Option<string>): (r: ArticleBuilder)
    ensures r.contentType == v && r.(contentType := b.contentType) == b
  {
    b.(contentType := v)
  }

  function SetPublished(b: ArticleBuilder, v: Option<string>): (r: ArticleBuilder)
    ensures r.published == v && r.(published := b.published) == b
  {
    b.(published := v)
  }

  function SetUpdated(b: ArticleBuilder, v: Option<string>): (r: ArticleBuilder)
    ensures r.updated == v && r.(updated := b.updated) == b
  {
    b.(updated := v)
  }

  function SetCreated(b: ArticleBuilder, v: Option<string>): (r: ArticleBuilder)
    ensures r.created == v && r.(created := b.created) == b
  {
    b.(created := v)
  }

  function SetContent(b: ArticleBuilder, v: Option<string>): (r: ArticleBuilder)
    ensures r.content == v && r.(content := b.content) == b
  {
    b.(content := v)
  }

  /** The title setter (spelled `setTile` in the source). */
  function SetTile(b: ArticleBuilder, v: Option<string>): (r: ArticleBuilder)
    ensures r.title == v && r.(title := b.title) == b
  {
    b.(title := v)
  }

  function SetDescription(b: ArticleBuilder, v: Option<string>): (r: ArticleBuilder)
    ensures r.description == v && r.(description := b.description) == b
  {
    b.(description := v)
  }

  function SetSource(b: ArticleBuilder, v: Option<string>): (r: ArticleBuilder)
    ensures r.source == v && r.(source := b.source) == b
  {
    b.(source := v)
  }

  /** The elements of a possibly absent list (none when absent). */
  function Elements<T>(xs: Option<seq<T>>): seq<T>
  {
    if xs.None? then [] else xs.value
  }

  /** Appends a tag, creating the list on first use; earlier tags are kept in place. */
  function AddTag(b: ArticleBuilder, t: Tag): (r: ArticleBuilder)
    ensures r.tags == Some(Elements(b.tags) + [t])
    ensures r.(tags := b.tags) == b
  {
    b.(tags := Some(Elements(b.tags) + [t]))
  }

  /** Appends the tag made of a label and its type. */
  function AddTagPair(b: ArticleBuilder, tag: string, tagType: string): (r: ArticleBuilder)
    ensures r == AddTag(b, Tag(tag, tagType))
  {
    b.(tags := Some(Elements(b.tags) + [Tag(tag, tagType)]))
  }

  /** Appends a link, creating the list on first use; earlier links are kept in place. */
  function AddLink(b: ArticleBuilder, l: Link): (r: ArticleBuilder)
    ensures r.links == Some(Elements(b.links) + [l])
    ensures r.(links := b.links) == b
  {
    b.(links := Some(Elements(b.links) + [l]))
  }

  /** Appends a link with only its `href` set. */
  function AddLinkHref(b: ArticleBuilder, href: Option<string>): (r: ArticleBuilder)
    ensures r == AddLink(b, Link(href, None, None))
  {
    b.(links := Some(Elements(b.links) + [Link(href, None, None)]))
  }

  /** The article: document id and URL both from the builder's URL, every other field as set. */
  function Build(b: ArticleBuilder): (a: Article)
    ensures a.id == b.URL && a.URL == b.URL
    ensures a.description == b.description && a.title == b.title && a.author == b.author
    ensures a.source == b.source && a.content == b.content && a.contentType == b.contentType
    ensures a.created == b.created && a.published == b.published && a.updated == b.updated
    ensures a.links == b.links && a.tags == b.tags
  {
    Article(
      id := b.URL,
      URL := b.URL,
      published := b.published,
      updated := b.updated,
      contentType := b.contentType,
      content := b.content,
      author := b.author,
      title := b.title,
      description := b.description,
      links := b.links,
      tags := b.tags,
      source := b.source,
      created := b.created
    )
  }

  /** Adds the tags one by one, in order. */
  function AddTags(b: ArticleBuilder, ts: seq<Tag>): ArticleBuilder
    decreases |ts|
  {
    if ts == [] then b else AddTags(AddTag(b, ts[0]), ts[1..])
  }

  /** Adds the links one by one, in order. */
  function AddLinks(b: ArticleBuilder, ls: seq<Link>): ArticleBuilder
    decreases |ls|
  {
    if ls == [] then b else AddLinks(AddLink(b, ls[0]), ls[1..])
  }

  /**
   * Adding tags appends them after the earlier ones; the list stays absent
   * only when it was absent and nothing was added.
   */
  lemma {:induction false} AddTagsAppends(b: ArticleBuilder, ts: seq<Tag>)
    ensures ts == [] ==> AddTags(b, ts) == b
    ensures ts != [] ==> AddTags(b, ts).tags == Some(Elements(b.tags) + ts)
    ensures AddTags(b, ts).(tags := b.tags) == b
    decreases |ts|
  {
    if ts != [] {
      var next := AddTag(b, ts[0]);
      AddTagsAppends(next, ts[1..]);
      if ts[1..] == [] {
        assert ts == [ts[0]];
      } else {
        assert Elements(next.tags) + ts[1..] == Elements(b.tags) + ts;
      }
    }
  }

  /**
   * Adding links appends them after the earlier ones; the list stays absent
   * only when it was absent and nothing was added.
   */
  lemma {:induction false} AddLinksAppends(b: ArticleBuilder, ls: seq<Link>)
    ensures ls == [] ==> AddLinks(b, ls) == b
    ensures ls != [] ==> AddLinks(b, ls).links == Some(Elements(b.links) + ls)
    ensures AddLinks(b, ls).(links := b.links) == b
    decreases |ls|
  {
    if ls != [] {
      var next := AddLink(b, ls[0]);
      AddLinksAppends(next, ls[1..]);
      if ls[1..] == [] {
        assert ls == [ls[0]];
      } else {
        assert Elements(next.links) + ls[1..] == Elements(b.links) + ls;
      }
    }
  }

  /** The ten setter calls that copy `a`'s scalar fields into a fresh builder. */
  function ScalarsFor(a: Article): ArticleBuilder
  {
    SetSource(SetDescription(SetTile(SetContent(SetCreated(SetUpdated(SetPublished(
      SetContentType(SetAuthor(SetURL(NewArticleBuilder(), a.URL), a.author), a.contentType),
      a.published), a.updated), a.created), a.content), a.title), a.description), a.source)
  }

  /** The setter and add calls that rebuild `a` from a fresh builder. */
  function BuilderFor(a: Article): ArticleBuilder
  {
    AddLinks(AddTags(ScalarsFor(a), Elements(a.tags)), Elements(a.links))
  }

  /**
   * Replaying an article's fields through the setters and adds builds it
   * back whenever its document id equals its URL and its lists are absent or
   * non-empty; the rebuilt article never has a present-but-empty list, since
   * a list is created only by adding to it.
   */
  lemma BuildRoundTrip(a: Article)
    ensures a.id == a.URL && a.tags != Some([]) && a.links != Some([]) ==> Build(BuilderFor(a)) == a
    ensures Build(BuilderFor(a)).tags != Some([]) && Build(BuilderFor(a)).links != Some([])
  {
    var b := ScalarsFor(a);
    assert b.tags.None? && b.links.None?;
    AddTagsAppends(b, Elements(a.tags));
    var b' := AddTags(b, Elements(a.tags));
    AddLinksAppends(b', Elements(a.links));
    var b'' := AddLinks(b', Elements(a.links));
    assert b''.(tags := None, links := None) == b;
    if a.id == a.URL && a.tags != Some([]) && a.links != Some([]) {
      assert b''.tags == b'.tags;
      if a.tags.Some? {
        assert Elements(b.tags) + a.tags.value == a.tags.value;
      }
      if a.links.Some? {
        assert Elements(b'.links) + a.links.value == a.links.value;
      }
    }
  }
}
