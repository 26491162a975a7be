/**
 * Choice of the summarisation input from the extracted article and the
 * page's own metadata (src/content-script/PageSummary.tsx:60-67 and the
 * identical src/content-script/WebSummary.tsx:54-61).
 *
 * JavaScript's `||` and `?:` treat "" as absent, so every field below is a
 * plain string in which "" stands for a missing value.
 */
module Resolution {
  import opened Wrappers
  import opened Text
  import opened Markup

  /** What the article extractor returns: title, description and content, "" when missing. */
  datatype Article = Article(title: string, description: string, content: string)

  /** The outcome of resolution: the chosen title and description, the source text and the verdict. */
  datatype Resolved = Resolved(title: string, description: string, source: string, supported: bool)

  /** `article?.title`: "" when the extractor returned nothing. */
  function ArticleTitle(article: Option<Article>): string
  {
    if article.Some? then article.value.title else ""
  }

  /** `article?.description`. */
  function ArticleDescription(article: Option<Article>): string
  {
    if article.Some? then article.value.description else ""
  }

  /** `article?.content`. */
  function ArticleContent(article: Option<Article>): string
  {
    if article.Some? then article.value.content else ""
  }

  /**
   * Title, description, source text and verdict for one summarisation
   * attempt, given the extractor's result, `document.title` and the content
   * of the `meta[name="description"]` tag ("" when the tag is missing).
   */
  function Resolve(article: Option<Article>, documentTitle: string, metaDescription: string): (r: Resolved)
    ensures r.title == FirstNonEmpty([ArticleTitle(article), documentTitle, ""])
    ensures r.description == FirstNonEmpty([ArticleDescription(article), metaDescription, ""])
    ensures r.supported <==> ArticleContent(article) != "" || r.description != ""
    ensures r.supported ==> r.source != ""
  {
    var title := Or(Or(ArticleTitle(article), documentTitle), "");
    var description := Or(Or(ArticleDescription(article), metaDescription), "");
    var source := if ArticleContent(article) != "" then description + ArticleContent(article) else title + description;
    FirstNonEmptyOfTwo(ArticleTitle(article), documentTitle);
    FirstNonEmptyOfTwo(ArticleDescription(article), metaDescription);
    Resolved(title, description, source, ArticleContent(article) != "" || description != "")
  }

  /** A chain `a || b || ''` is the first non-empty of the three. */
  lemma FirstNonEmptyOfTwo(a: string, b: string)
    ensures Or(Or(a, b), "") == FirstNonEmpty([a, b, ""])
  {
  }

  /**
   * When the article has content, the source is the description followed by
   * the content, and the title plays no part in it.
   */
  lemma ContentTakesPriority(article: Option<Article>, title1: string, title2: string, metaDescription: string)
    requires ArticleContent(article) != ""
    ensures Resolve(article, title1, metaDescription).source == Resolve(article, title2, metaDescription).source
    ensures var r := Resolve(article, title1, metaDescription);
      r.supported && r.source == r.description + ArticleContent(article)
  {
  }

  /** Without content, a description alone makes the page supported and the source is title then description. */
  lemma DescriptionOnly(article: Option<Article>, documentTitle: string, metaDescription: string)
    requires ArticleContent(article) == ""
    ensures var r := Resolve(article, documentTitle, metaDescription);
      r.supported <==> r.description != ""
    ensures var r := Resolve(article, documentTitle, metaDescription);
      r.source == r.title + r.description
  {
  }

  /**
   * The verdict never depends on the title: with neither content nor any
   * description the page is unsupported whatever the article or document title.
   */
  lemma VerdictIgnoresTitle(article: Option<Article>, title1: string, title2: string, metaDescription: string)
    ensures Resolve(article, title1, metaDescription).supported == Resolve(article, title2, metaDescription).supported
    ensures ArticleContent(article) == "" && ArticleDescription(article) == "" && metaDescription == ""
      ==> !Resolve(article, title1, metaDescription).supported
  {
  }

  /** Nothing extracted: the page metadata alone decides. */
  lemma NothingExtracted(documentTitle: string, metaDescription: string)
    ensures Resolve(None, documentTitle, metaDescription)
      == Resolved(documentTitle, metaDescription, documentTitle + metaDescription, metaDescription != "")
  {
  }

  /**
   * End to end: content "<p>Hello <b>world</b></p>" with no description is
   * supported whatever the title, and its stripped source text is the words alone.
   */
  lemma MarkedUpContentResolves(articleTitle: string, documentTitle: string, hello: string, world: string)
    requires '<' !in hello && '<' !in world
    ensures var r := Resolve(Some(Article(articleTitle, "", "<p>" + hello + "<b>" + world + "</b></p>")), documentTitle, "");
      r.supported && StripTags(r.source) == hello + world
  {
    var content := "<p>" + hello + "<b>" + world + "</b></p>";
    assert "" + content == content;
    StripTagsNested(hello, world);
  }
}
