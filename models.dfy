/**
 * The crawler's records (src/core/models.py). SearchResult and Article are
 * values; CrawlResult is a class because the crawl loop appends to its
 * `articles` and `errors` lists in place.
 */
module Models {
  import opened Wrappers

  /** A point in time (`datetime`); parsing and the wall clock are not modelled. */
  datatype DateTime = DateTime(year: int, month: int, day: int, hour: int, minute: int, second: int)

  /** One entry of a search-result page; `snippet` defaults to "". */
  datatype SearchResult = SearchResult(title: string, url: string, snippet: string := "")

  /** One parsed article; `published_at` defaults to None and `metadata` to an empty dict. */
  datatype Article = Article(
    title: string,
    url: string,
    content: string,
    channel: string,
    keyword: string,
    publishedAt: Option<DateTime> := None,
    metadata: map<string, string> := map[])

  /** The serialised form of a CrawlResult (`model_dump`). */
  datatype CrawlReport = CrawlReport(channel: string, keyword: string, articles: seq<Article>, errors: seq<string>)

  /** Defaults of the two value records, and fields given at construction read back unchanged. */
  lemma RecordDefaults(title: string, url: string, content: string, channel: string, keyword: string)
    ensures SearchResult(title, url).snippet == ""
    ensures SearchResult(title, url).title == title && SearchResult(title, url).url == url
    ensures Article(title, url, content, channel, keyword).publishedAt == None
    ensures Article(title, url, content, channel, keyword).metadata == map[]
    ensures var a := Article(title, url, content, channel, keyword);
            a.title == title && a.url == url && a.content == content && a.channel == channel && a.keyword == keyword
  {
  }

  /** The outcome of one (channel, keyword) crawl; articles and errors are append-only. */
  class CrawlResult {
    var channel: string
    var keyword: string
    var articles: seq<Article>
    var errors: seq<string>

    /** `CrawlResult(channel=..., keyword=..., [articles=...], [errors=...])`; both lists default to empty. */
    constructor (channel: string, keyword: string, articles: seq<Article> := [], errors: seq<string> := [])
      ensures this.channel == channel && this.keyword == keyword
      ensures this.articles == articles && this.errors == errors
    {
      this.channel := channel;
      this.keyword := keyword;
      this.articles := articles;
      this.errors := errors;
    }

    /** `result.articles.append(article)` */
    method AppendArticle(article: Article)
      modifies this
      ensures articles == old(articles) + [article]
      ensures errors == old(errors) && channel == old(channel) && keyword == old(keyword)
    {
      articles := articles + [article];
    }

    /** `result.errors.append(message)` */
    method AppendError(message: string)
      modifies this
      ensures errors == old(errors) + [message]
      ensures articles == old(articles) && channel == old(channel) && keyword == old(keyword)
    {
      errors := errors + [message];
    }

    function Report(): CrawlReport
      reads this
    {
      CrawlReport(channel, keyword, articles, errors)
    }
  }

  /** A new CrawlResult starts with no articles and no errors; appending adds one element at the end. */
  method NewResultThenAppend(channel: string, keyword: string, article: Article, message: string)
    returns (result: CrawlResult)
    ensures result.channel == channel && result.keyword == keyword
    ensures result.articles == [article] && result.errors == [message]
  {
    result := new CrawlResult(channel, keyword);
    assert result.articles == [] && result.errors == [];
    result.AppendArticle(article);
    result.AppendError(message);
  }
}
