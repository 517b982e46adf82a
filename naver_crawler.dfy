/**
 * NaverNewsCrawler (src/channels/naver_news/crawler.py): the inherited crawl
 * loop, a search URL whose `start` parameter counts results ten per page,
 * and `_current_keyword` recorded before the loop so the article parser
 * stamps it. The article parser it delegates to
 * (src/channels/naver_news/parser.py) is modelled over the text of the
 * article element; percent-encoding is a parameter.
 */
module NaverNewsCrawler {
  import opened Wrappers
  import opened Exceptions
  import opened Strings
  import opened Models
  import opened FetchStrategy
  import opened BaseCrawler
  import opened TextCleaner

  const ChannelName: string := "naver_news"
  const SearchUrlPrefix: string := "https://search.naver.com/search.naver?where=news&query="

  /** The `start` parameter for a page: 1, 11, 21, ... */
  function Start(page: int): int {
    (page - 1) * 10 + 1
  }

  /** `SEARCH_URL_TEMPLATE.format(keyword=quote(keyword), start=start)` */
  function BuildSearchUrl(quote: string -> string, keyword: string, page: int): string {
    SearchUrlPrefix + quote(keyword) + "&start=" + IntToString(Start(page)) + "&sort=1"
  }

  /**
   * What the Naver parser needs from BeautifulSoup and `_parse_date`:
   *   searchResults  `parse_search_results(html)`
   *   articleText    `get_text(separator="\n")` of `article#dic_area`, if present
   *   parseDate      `_parse_date(soup)`
   */
  datatype NaverSoup = NaverSoup(
    searchResults: string -> seq<SearchResult>,
    articleText: string -> Option<string>,
    parseDate: string -> Option<DateTime>)

  /** `parse_article(html, search_result, keyword)`: ParseError when the body is missing or cleans to nothing. */
  function ParseArticle(soup: NaverSoup, html: string, sr: SearchResult, keyword: string): Result<Article> {
    var text := soup.articleText(html);
    if text.None? then Err(Exc(ParseErrorClass, "본문을 찾을 수 없습니다: " + sr.url, None))
    else if CleanText(text.value) == "" then Err(Exc(ParseErrorClass, "본문이 비어있습니다: " + sr.url, None))
    else Ok(Article(sr.title, sr.url, CleanText(text.value), ChannelName, keyword, soup.parseDate(html)))
  }

  /** The hooks of NaverNewsCrawler; the inherited loop passes no wait selector. */
  function NaverAdapter(quote: string -> string, soup: NaverSoup): Adapter {
    Adapter(
      ChannelName,
      (keyword, page) => BuildSearchUrl(quote, keyword, page),
      html => Ok(soup.searchResults(html)),
      (html, sr, keyword) => ParseArticle(soup, html, sr, keyword),
      None,
      None)
  }

  /**
   * Page 1 starts at result 1 and page 2 at result 11; `start` grows by ten
   * results per page, so the page can be read back from it and a later page
   * never asks for an earlier offset.
   */
  lemma StartArithmetic(page: int, later: int)
    ensures Start(1) == 1 && Start(2) == 11
    ensures Start(page) % 10 == 1
    ensures (Start(page) - 1) / 10 + 1 == page
    ensures Start(later) - Start(page) == 10 * (later - page)
    ensures page < later ==> Start(page) < Start(later)
  {
    assert Start(page) - 1 == (page - 1) * 10;
  }

  /** The search URL holds the encoded keyword right after the template's prefix. */
  lemma SearchUrlHoldsEncodedKeyword(quote: string -> string, keyword: string, page: int)
    ensures var url := BuildSearchUrl(quote, keyword, page);
      && StartsWith(url, SearchUrlPrefix)
      && url[|SearchUrlPrefix|..|SearchUrlPrefix| + |quote(keyword)|] == quote(keyword)
  {
    var url := BuildSearchUrl(quote, keyword, page);
    assert url == SearchUrlPrefix + quote(keyword) + ("&start=" + IntToString(Start(page)) + "&sort=1");
  }

  /** A missing or blank article body is a ParseError (so a CrawlerError) whose message ends with the url. */
  lemma ParseArticleFailsIffNoBody(soup: NaverSoup, html: string, sr: SearchResult, keyword: string)
    ensures var r := ParseArticle(soup, html, sr, keyword);
      && (r.Err? <==> soup.articleText(html).None? || AllSpace(soup.articleText(html).value))
      && (r.Err? ==> r.error.cls == ParseErrorClass && IsCrawlerError(r.error) && r.error.message[|r.error.message| - |sr.url|..] == sr.url)
  {
    var text := soup.articleText(html);
    if text.Some? {
      CleanTextEmptyIffBlank(text.value);
    }
    var r := ParseArticle(soup, html, sr, keyword);
    if r.Err? {
      var prefix := if text.None? then "본문을 찾을 수 없습니다: " else "본문이 비어있습니다: ";
      assert r.error.message == prefix + sr.url;
    }
  }

  /** A parsed Naver article copies title and url, carries "naver_news" and the keyword handed in, and has non-empty clean content. */
  lemma ParseArticleFields(soup: NaverSoup, html: string, sr: SearchResult, keyword: string)
    requires ParseArticle(soup, html, sr, keyword).Ok?
    ensures var a := ParseArticle(soup, html, sr, keyword).value;
      && a.title == sr.title && a.url == sr.url
      && a.channel == "naver_news" && a.keyword == keyword
      && a.content != "" && CleanText(a.content) == a.content
  {
    CleanTextIdempotent(soup.articleText(html).value);
  }

  lemma NaverStampsArticles(c: CrawlContext, quote: string -> string, soup: NaverSoup)
    requires c.adapter == NaverAdapter(quote, soup)
    ensures StampsArticles(c)
  {
  }

  /** Every article a Naver crawl for `keyword` collects carries channel "naver_news" and that keyword. */
  lemma NaverArticlesStamped(quote: string -> string, soup: NaverSoup, strategy: FetchStrategy, keyword: string, delay: real, pages: int)
    ensures var c := CrawlContext(NaverAdapter(quote, soup), strategy, keyword, keyword, delay);
      forall a :: a in CrawlPages(c, pages).articles ==> a.channel == "naver_news" && a.keyword == keyword
  {
    var c := CrawlContext(NaverAdapter(quote, soup), strategy, keyword, keyword, delay);
    NaverStampsArticles(c, quote, soup);
    ArticlesStamped(c, pages);
  }

  /**
   * `NaverNewsCrawler.crawl(keyword, max_pages)`: `_current_keyword` is set,
   * then the inherited loop runs; the result is for channel "naver_news"
   * and `keyword`, and each of its articles carries both.
   */
  method CrawlNaver(crawler: Crawler, quote: string -> string, soup: NaverSoup, keyword: string, maxPages: Option<int> := None)
    returns (outcome: Result<CrawlResult>, trace: seq<CrawlEvent>)
    requires crawler.adapter == NaverAdapter(quote, soup)
    modifies crawler
    ensures crawler.currentKeyword == keyword
    ensures var spec := CrawlPages(crawler.Context(keyword), PageCount(maxPages, crawler.settings));
      && trace == spec.trace
      && (outcome.Ok? <==> spec.raised.None?)
      && (outcome.Err? ==> outcome.error == spec.raised.value)
    ensures outcome.Ok? ==>
      && fresh(outcome.value)
      && outcome.value.channel == "naver_news" && outcome.value.keyword == keyword
      && forall a :: a in outcome.value.articles ==> a.channel == "naver_news" && a.keyword == keyword
  {
    outcome, trace := crawler.Crawl(keyword, maxPages);
    NaverArticlesStamped(quote, soup, crawler.strategy, keyword, crawler.settings.requestDelay, PageCount(maxPages, crawler.settings));
  }
}
