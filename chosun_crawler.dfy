/**
 * ChosunCrawler (src/channels/chosun/crawler.py): the crawl loop with the
 * channel's wait selectors, the search URL built from the raw keyword, and
 * `_current_keyword` recorded before any fetch so the parser stamps it.
 */
module ChosunCrawler {
  import opened Wrappers
  import opened Exceptions
  import opened Strings
  import opened Models
  import opened FetchStrategy
  import opened BaseCrawler
  import opened ChosunParser

  const SearchUrlPrefix: string := "https://www.chosun.com/nsearch/?query="
  const SearchWaitSelector: string := "div.search-feed div.story-card"
  const DetailWaitSelector: string := "section.article-body"

  /** `SEARCH_URL_TEMPLATE.format(keyword=keyword, page=page)`: the keyword is not encoded. */
  function BuildSearchUrl(keyword: string, page: int): string {
    SearchUrlPrefix + keyword + "&page=" + IntToString(page) + "&siteid=www&sort=1"
  }

  /** The hooks of ChosunCrawler over a given page parser. */
  function ChosunAdapter(soup: Soup): Adapter {
    Adapter(
      ChannelName,
      BuildSearchUrl,
      html => Ok(ParseSearchResults(soup, html)),
      (html, sr, keyword) => ParseArticle(soup, html, sr, keyword),
      Some(SearchWaitSelector),
      Some(DetailWaitSelector))
  }

  /** The search URL starts with the template's prefix followed by the keyword exactly as given. */
  lemma SearchUrlHoldsRawKeyword(keyword: string, page: int)
    ensures var url := BuildSearchUrl(keyword, page);
      && StartsWith(url, SearchUrlPrefix)
      && url[|SearchUrlPrefix|..|SearchUrlPrefix| + |keyword|] == keyword
  {
    var url := BuildSearchUrl(keyword, page);
    assert url == SearchUrlPrefix + keyword + ("&page=" + IntToString(page) + "&siteid=www&sort=1");
  }

  /** For one keyword, different pages give different search URLs. */
  lemma DistinctPagesDistinctUrls(keyword: string, p1: nat, p2: nat)
    requires p1 != p2
    ensures BuildSearchUrl(keyword, p1) != BuildSearchUrl(keyword, p2)
  {
    var head := SearchUrlPrefix + keyword + "&page=";
    var tail := "&siteid=www&sort=1";
    var u1 := BuildSearchUrl(keyword, p1);
    var u2 := BuildSearchUrl(keyword, p2);
    assert u1 == head + NatToString(p1) + tail;
    assert u2 == head + NatToString(p2) + tail;
    if u1 == u2 {
      assert |NatToString(p1)| == |NatToString(p2)|;
      assert NatToString(p1) == u1[|head|..|u1| - |tail|];
      assert NatToString(p2) == u2[|head|..|u2| - |tail|];
      NatToStringRoundTrip(p1);
      NatToStringRoundTrip(p2);
      assert false;
    }
  }

  /**
   * Through a dynamic strategy, every search fetch waits for the story cards
   * and every article fetch for the article body.
   */
  lemma ChosunWaitSelectors(c: CrawlContext, soup: Soup, page: int, sr: SearchResult)
    requires c.adapter == ChosunAdapter(soup) && c.strategy.DynamicFetchStrategy?
    ensures SearchFetched(c, page).call == BrowserGet(BuildSearchUrl(c.keyword, page), Some(SearchWaitSelector))
    ensures DetailFetched(c, sr).call == BrowserGet(sr.url, Some(DetailWaitSelector))
  {
  }

  /** The Chosun parser stamps "chosun" and the keyword it is handed on every article. */
  lemma ChosunStampsArticles(c: CrawlContext, soup: Soup)
    requires c.adapter == ChosunAdapter(soup)
    ensures StampsArticles(c)
  {
    forall html, sr | c.adapter.parseArticleDetail(html, sr, c.currentKeyword).Ok?
      ensures c.adapter.parseArticleDetail(html, sr, c.currentKeyword).value.channel == c.adapter.channelName
      ensures c.adapter.parseArticleDetail(html, sr, c.currentKeyword).value.keyword == c.currentKeyword
    {
      ParseArticleFields(soup, html, sr, c.currentKeyword);
    }
  }

  /** Every article a Chosun crawl for `keyword` collects carries channel "chosun" and that keyword. */
  lemma ChosunArticlesStamped(soup: Soup, strategy: FetchStrategy, keyword: string, delay: real, pages: int)
    ensures var c := CrawlContext(ChosunAdapter(soup), strategy, keyword, keyword, delay);
      forall a :: a in CrawlPages(c, pages).articles ==> a.channel == "chosun" && a.keyword == keyword
  {
    var c := CrawlContext(ChosunAdapter(soup), strategy, keyword, keyword, delay);
    ChosunStampsArticles(c, soup);
    ArticlesStamped(c, pages);
  }

  /**
   * `ChosunCrawler.crawl(keyword, max_pages)`: `_current_keyword` is set
   * first; the result is for channel "chosun" and `keyword`, and each of
   * its articles carries both.
   */
  method CrawlChosun(crawler: Crawler, soup: Soup, keyword: string, maxPages: Option<int> := None)
    returns (outcome: Result<CrawlResult>, trace: seq<CrawlEvent>)
    requires crawler.adapter == ChosunAdapter(soup)
    modifies crawler
    ensures crawler.currentKeyword == keyword
    ensures var spec := CrawlPages(crawler.Context(keyword), PageCount(maxPages, crawler.settings));
      && trace == spec.trace
      && (outcome.Ok? <==> spec.raised.None?)
      && (outcome.Err? ==> outcome.error == spec.raised.value)
    ensures outcome.Ok? ==>
      && fresh(outcome.value)
      && outcome.value.channel == "chosun" && outcome.value.keyword == keyword
      && forall a :: a in outcome.value.articles ==> a.channel == "chosun" && a.keyword == keyword
  {
    outcome, trace := crawler.Crawl(keyword, maxPages);
    ChosunArticlesStamped(soup, crawler.strategy, keyword, crawler.settings.requestDelay, PageCount(maxPages, crawler.settings));
  }
}
