/**
 * The two-phase crawl loop of BaseCrawler (src/core/base_crawler.py) and of
 * its copy in ChosunCrawler (src/channels/chosun/crawler.py): walk search
 * pages 1..pages; fetch and parse each page into search results; then sleep,
 * fetch and parse each result's article in order. Every CrawlerError becomes
 * one error string and the loop moves on; any other exception ends the crawl.
 *
 * `CrawlPages` states the whole run as a function of the page count; the
 * class `Crawler` runs the loop and is proved to agree with it; the lemmas
 * state what the run promises.
 */
module BaseCrawler {
  import opened Wrappers
  import opened Exceptions
  import opened Strings
  import opened Models
  import opened FetchStrategy

  const DefaultUserAgent: string :=
    "Mozilla/5.0 (Macintosh; Intel Mac OS X 10_15_7) AppleWebKit/537.36 (KHTML, like Gecko) Chrome/120.0.0.0 Safari/537.36"

  /** CrawlerSettings with its defaults (environment loading is not modelled). */
  datatype Settings = Settings(
    maxPages: int := 3,
    requestDelay: real := 1.0,
    requestTimeout: int := 30,
    userAgent: string := DefaultUserAgent,
    outputDir: string := "./output",
    headless: bool := true)

  /**
   * The hooks a concrete crawler supplies. `parseArticleDetail` receives the
   * crawler's `_current_keyword` as its third argument. The wait selectors
   * are what the loop passes to `fetch`: None in BaseCrawler.crawl, the
   * channel's selectors in ChosunCrawler.crawl.
   */
  datatype Adapter = Adapter(
    channelName: string,
    buildSearchUrl: (string, int) -> string,
    parseArticleList: string -> Result<seq<SearchResult>>,
    parseArticleDetail: (string, SearchResult, string) -> Result<Article>,
    searchWaitSelector: Option<string> := None,
    detailWaitSelector: Option<string> := None)

  /** An observable step of a crawl: a client call for a search page or an article, or an `asyncio.sleep`. */
  datatype CrawlEvent =
    | SearchFetch(page: int, call: ClientCall)
    | DetailFetch(call: ClientCall)
    | Sleep(seconds: real)

  /** Everything one crawl has produced so far; `raised` is an exception that escaped the loop. */
  datatype CrawlState = CrawlState(articles: seq<Article>, errors: seq<string>, trace: seq<CrawlEvent>, raised: Option<Exc>)

  /** What one crawl call works with: the crawler's parts, the search keyword and `_current_keyword`. */
  datatype CrawlContext = CrawlContext(adapter: Adapter, strategy: FetchStrategy, keyword: string, currentKeyword: string, delay: real)

  const Start: CrawlState := CrawlState([], [], [], None)

  function PageErrorMessage(page: int, e: Exc): string {
    "페이지 " + IntToString(page) + " 검색 실패: " + Str(e)
  }

  function ArticleErrorMessage(url: string, e: Exc): string {
    "기사 수집 실패 (" + url + "): " + Str(e)
  }

  /** `pages = max_pages or settings.max_pages` */
  function PageCount(maxPages: Option<int>, settings: Settings): int {
    if maxPages.None? || maxPages.value == 0 then settings.maxPages else maxPages.value
  }

  /** The search-page fetch for `page`. */
  function SearchFetched(c: CrawlContext, page: int): Fetched {
    Fetch(c.strategy, c.adapter.buildSearchUrl(c.keyword, page), c.adapter.searchWaitSelector)
  }

  /** The `try` block of the page phase: fetch, then parse the list. */
  function Listing(c: CrawlContext, page: int): Result<seq<SearchResult>> {
    var f := SearchFetched(c, page);
    if f.result.Err? then Err(f.result.error) else c.adapter.parseArticleList(f.result.value)
  }

  /** The article fetch for one search result. */
  function DetailFetched(c: CrawlContext, sr: SearchResult): Fetched {
    Fetch(c.strategy, sr.url, c.adapter.detailWaitSelector)
  }

  /** The `try` block of the article phase: fetch, then parse the article. */
  function Detail(c: CrawlContext, sr: SearchResult): Result<Article> {
    var f := DetailFetched(c, sr);
    if f.result.Err? then Err(f.result.error) else c.adapter.parseArticleDetail(f.result.value, sr, c.currentKeyword)
  }

  /** The events one search result adds: the delay, then the article fetch. */
  function DetailEvents(c: CrawlContext, sr: SearchResult): seq<CrawlEvent> {
    [Sleep(c.delay), DetailFetch(DetailFetched(c, sr).call)]
  }

  /** One iteration of `for sr in search_results`. */
  function ArticleStep(c: CrawlContext, st: CrawlState, sr: SearchResult): CrawlState {
    var st1 := st.(trace := st.trace + DetailEvents(c, sr));
    match Detail(c, sr)
    case Ok(a) => st1.(articles := st1.articles + [a])
    case Err(e) =>
      if IsCrawlerError(e) then st1.(errors := st1.errors + [ArticleErrorMessage(sr.url, e)])
      else st1.(raised := Some(e))
  }

  /** The article phase over `rs`, stopping at an escaping exception. */
  function ArticleSteps(c: CrawlContext, st: CrawlState, rs: seq<SearchResult>): CrawlState
    decreases |rs|
  {
    if rs == [] then st
    else
      var before := ArticleSteps(c, st, rs[..|rs| - 1]);
      if before.raised.Some? then before else ArticleStep(c, before, rs[|rs| - 1])
  }

  /** One iteration of `for page in range(1, pages + 1)`. */
  function PageStep(c: CrawlContext, st: CrawlState, page: int): CrawlState {
    var st1 := st.(trace := st.trace + [SearchFetch(page, SearchFetched(c, page).call)]);
    match Listing(c, page)
    case Err(e) =>
      if IsCrawlerError(e) then st1.(errors := st1.errors + [PageErrorMessage(page, e)])
      else st1.(raised := Some(e))
    case Ok(rs) =>
      var st2 := ArticleSteps(c, st1, rs);
      if st2.raised.Some? then st2 else st2.(trace := st2.trace + [Sleep(c.delay)])
  }

  /** The crawl over pages 1..pages, stopping at an escaping exception. */
  function CrawlPages(c: CrawlContext, pages: int): CrawlState
    decreases pages
  {
    if pages <= 0 then Start
    else
      var before := CrawlPages(c, pages - 1);
      if before.raised.Some? then before else PageStep(c, before, pages)
  }

  /** The pages of the search fetches in a trace, in order. */
  function SearchPages(trace: seq<CrawlEvent>): seq<int> {
    if trace == [] then []
    else (if trace[0].SearchFetch? then [trace[0].page] else []) + SearchPages(trace[1..])
  }

  function CountSleeps(trace: seq<CrawlEvent>): nat {
    if trace == [] then 0 else (if trace[0].Sleep? then 1 else 0) + CountSleeps(trace[1..])
  }

  function CountDetailFetches(trace: seq<CrawlEvent>): nat {
    if trace == [] then 0 else (if trace[0].DetailFetch? then 1 else 0) + CountDetailFetches(trace[1..])
  }

  /** 1, 2, ..., n */
  function Range(n: nat): (r: seq<int>)
    ensures |r| == n && forall i :: 0 <= i < n ==> r[i] == i + 1
  {
    seq(n, i requires 0 <= i => i + 1)
  }

  class Crawler {
    const adapter: Adapter
    const strategy: FetchStrategy
    const settings: Settings
    /** `_current_keyword`, "" until the first crawl. */
    var currentKeyword: string

    constructor (adapter: Adapter, strategy: FetchStrategy, settings: Settings)
      ensures this.adapter == adapter && this.strategy == strategy && this.settings == settings
      ensures currentKeyword == ""
    {
      this.adapter := adapter;
      this.strategy := strategy;
      this.settings := settings;
      currentKeyword := "";
    }

    function Context(keyword: string): CrawlContext
      reads this
    {
      CrawlContext(adapter, strategy, keyword, currentKeyword, settings.requestDelay)
    }

    /** `BaseCrawler.crawl(keyword, max_pages)`: the loop, with the wait selectors of the adapter. */
    method RunPages(keyword: string, maxPages: Option<int> := None) returns (outcome: Result<CrawlResult>, trace: seq<CrawlEvent>)
      ensures var spec := CrawlPages(Context(keyword), PageCount(maxPages, settings));
        && trace == spec.trace
        && (outcome.Ok? <==> spec.raised.None?)
        && (outcome.Err? ==> outcome.error == spec.raised.value)
        && (outcome.Ok? ==>
              && fresh(outcome.value)
              && outcome.value.channel == adapter.channelName
              && outcome.value.keyword == keyword
              && outcome.value.articles == spec.articles
              && outcome.value.errors == spec.errors)
    {
      var c := Context(keyword);
      var pages := PageCount(maxPages, settings);
      var result := new CrawlResult(adapter.channelName, keyword);
      trace := [];
      var page := 1;
      while page <= pages
        invariant 1 <= page && (page <= pages + 1 || page == 1)
        invariant result.channel == adapter.channelName && result.keyword == keyword
        invariant CrawlPages(c, page - 1) == CrawlState(result.articles, result.errors, trace, None)
        decreases pages - page
      {
        var raised;
        trace, raised := RunPage(c, result, page, trace);
        if raised.Some? {
          RaisedIsFinal(c, page, pages);
          return Err(raised.value), trace;
        }
        page := page + 1;
      }
      outcome := Ok(result);
    }

    /**
     * `crawl` of a channel that records the keyword first (ChosunCrawler,
     * NaverNewsCrawler): `_current_keyword` is set before any fetch, then
     * the loop runs.
     */
    method Crawl(keyword: string, maxPages: Option<int> := None) returns (outcome: Result<CrawlResult>, trace: seq<CrawlEvent>)
      modifies this
      ensures currentKeyword == keyword
      ensures Context(keyword) == CrawlContext(adapter, strategy, keyword, keyword, settings.requestDelay)
      ensures var spec := CrawlPages(Context(keyword), PageCount(maxPages, settings));
        && trace == spec.trace
        && (outcome.Ok? <==> spec.raised.None?)
        && (outcome.Err? ==> outcome.error == spec.raised.value)
        && (outcome.Ok? ==>
              && fresh(outcome.value)
              && outcome.value.channel == adapter.channelName
              && outcome.value.keyword == keyword
              && outcome.value.articles == spec.articles
              && outcome.value.errors == spec.errors)
    {
      currentKeyword := keyword;
      outcome, trace := RunPages(keyword, maxPages);
    }
  }

  /**
   * One iteration of `for page in range(1, pages + 1)` on `result`: the
   * search fetch and list parse, then the article loop and the trailing
   * delay; `raised` is an exception that escapes `crawl`.
   */
  method RunPage(c: CrawlContext, result: CrawlResult, page: int, trace0: seq<CrawlEvent>)
    returns (trace: seq<CrawlEvent>, raised: Option<Exc>)
    modifies result
    ensures result.channel == old(result.channel) && result.keyword == old(result.keyword)
    ensures CrawlState(result.articles, result.errors, trace, raised)
         == PageStep(c, CrawlState(old(result.articles), old(result.errors), trace0, None), page)
  {
    var url := c.adapter.buildSearchUrl(c.keyword, page);
    var fetched := Fetch(c.strategy, url, c.adapter.searchWaitSelector);
    trace := trace0 + [SearchFetch(page, fetched.call)];
    var listing := if fetched.result.Err? then Err(fetched.result.error) else c.adapter.parseArticleList(fetched.result.value);
    assert listing == Listing(c, page);
    if listing.Err? {
      if IsCrawlerError(listing.error) {
        result.AppendError(PageErrorMessage(page, listing.error));
        return trace, None;
      }
      return trace, Some(listing.error);
    }
    trace, raised := RunArticles(c, result, listing.value, trace);
    if raised.None? {
      trace := trace + [Sleep(c.delay)];
    }
  }

  /** `for sr in search_results` on `result`, stopping at an exception that escapes `crawl`. */
  method RunArticles(c: CrawlContext, result: CrawlResult, searchResults: seq<SearchResult>, trace0: seq<CrawlEvent>)
    returns (trace: seq<CrawlEvent>, raised: Option<Exc>)
    modifies result
    ensures result.channel == old(result.channel) && result.keyword == old(result.keyword)
    ensures CrawlState(result.articles, result.errors, trace, raised)
         == ArticleSteps(c, CrawlState(old(result.articles), old(result.errors), trace0, None), searchResults)
  {
    ghost var st0 := CrawlState(result.articles, result.errors, trace0, None);
    trace := trace0;
    var i := 0;
    while i < |searchResults|
      invariant 0 <= i <= |searchResults|
      invariant result.channel == old(result.channel) && result.keyword == old(result.keyword)
      invariant ArticleSteps(c, st0, searchResults[..i]) == CrawlState(result.articles, result.errors, trace, None)
    {
      var sr := searchResults[i];
      assert searchResults[..i + 1][..i] == searchResults[..i];
      trace := trace + [Sleep(c.delay)];
      var detailFetched := Fetch(c.strategy, sr.url, c.adapter.detailWaitSelector);
      trace := trace + [DetailFetch(detailFetched.call)];
      var article := if detailFetched.result.Err? then Err(detailFetched.result.error)
                     else c.adapter.parseArticleDetail(detailFetched.result.value, sr, c.currentKeyword);
      assert article == Detail(c, sr);
      if article.Ok? {
        result.AppendArticle(article.value);
      } else if IsCrawlerError(article.error) {
        result.AppendError(ArticleErrorMessage(sr.url, article.error));
      } else {
        ArticleRaisedIsFinal(c, st0, searchResults, i + 1);
        assert searchResults[..|searchResults|] == searchResults;
        return trace, Some(article.error);
      }
      i := i + 1;
    }
    assert searchResults[..|searchResults|] == searchResults;
    raised := None;
  }

  // ---- the loop's proof obligations ----

  lemma {:induction false} ArticleRaisedIsFinal(c: CrawlContext, st: CrawlState, rs: seq<SearchResult>, n: nat)
    requires n <= |rs|
    requires ArticleSteps(c, st, rs[..n]).raised.Some?
    ensures ArticleSteps(c, st, rs) == ArticleSteps(c, st, rs[..n])
    decreases |rs|
  {
    if n < |rs| {
      assert rs[..|rs| - 1][..n] == rs[..n];
      ArticleRaisedIsFinal(c, st, rs[..|rs| - 1], n);
    } else {
      assert rs[..n] == rs;
    }
  }

  lemma {:induction false} RaisedIsFinal(c: CrawlContext, p: int, n: int)
    requires p <= n
    requires CrawlPages(c, p).raised.Some?
    ensures CrawlPages(c, n) == CrawlPages(c, p)
    decreases n - p
  {
    if p < n {
      RaisedIsFinal(c, p, n - 1);
    }
  }

  // ---- what a crawl promises ----

  /** `max_pages or settings.max_pages`: None and 0 fall back to the setting; any other value is used as given. */
  lemma PageCountFallback(settings: Settings, n: int)
    ensures PageCount(None, settings) == settings.maxPages
    ensures PageCount(Some(0), settings) == settings.maxPages
    ensures n != 0 ==> PageCount(Some(n), settings) == n
    ensures PageCount(None, Settings()) == 3
  {
  }

  lemma {:induction false} SearchPagesConcat(a: seq<CrawlEvent>, b: seq<CrawlEvent>)
    ensures SearchPages(a + b) == SearchPages(a) + SearchPages(b)
    ensures CountSleeps(a + b) == CountSleeps(a) + CountSleeps(b)
    ensures CountDetailFetches(a + b) == CountDetailFetches(a) + CountDetailFetches(b)
    decreases |a|
  {
    if a == [] {
      assert a + b == b;
    } else {
      assert (a + b)[1..] == a[1..] + b;
      SearchPagesConcat(a[1..], b);
    }
  }

  /** The two events of one search result: one delay, one article fetch, no search fetch. */
  lemma DetailEventsCounts(c: CrawlContext, sr: SearchResult)
    ensures SearchPages(DetailEvents(c, sr)) == []
    ensures CountSleeps(DetailEvents(c, sr)) == 1
    ensures CountDetailFetches(DetailEvents(c, sr)) == 1
  {
    var t := DetailEvents(c, sr);
    var rest := t[1..];
    assert rest == [DetailFetch(DetailFetched(c, sr).call)];
    assert rest[1..] == [];
    assert SearchPages(rest) == [] && CountSleeps(rest) == 0 && CountDetailFetches(rest) == 1;
  }

  /** Concatenation of the per-result event pairs. */
  function AllDetailEvents(c: CrawlContext, rs: seq<SearchResult>): seq<CrawlEvent>
    decreases |rs|
  {
    if rs == [] then [] else AllDetailEvents(c, rs[..|rs| - 1]) + DetailEvents(c, rs[|rs| - 1])
  }

  /**
   * The article phase over `rs` that raises nothing: the trace grows by a
   * delay and an article fetch per result and by no search fetch; articles
   * and errors only grow, by one entry in total per result.
   */
  lemma {:induction false} ArticleStepsAccounting(c: CrawlContext, st: CrawlState, rs: seq<SearchResult>)
    requires st.raised.None?
    requires ArticleSteps(c, st, rs).raised.None?
    ensures var after := ArticleSteps(c, st, rs);
      && after.trace == st.trace + AllDetailEvents(c, rs)
      && SearchPages(AllDetailEvents(c, rs)) == []
      && CountSleeps(AllDetailEvents(c, rs)) == |rs|
      && CountDetailFetches(AllDetailEvents(c, rs)) == |rs|
      && st.articles <= after.articles
      && st.errors <= after.errors
      && (|after.articles| - |st.articles|) + (|after.errors| - |st.errors|) == |rs|
    decreases |rs|
  {
    if rs != [] {
      var init := rs[..|rs| - 1];
      ArticleStepsAccounting(c, st, init);
      SearchPagesConcat(AllDetailEvents(c, init), DetailEvents(c, rs[|rs| - 1]));
      DetailEventsCounts(c, rs[|rs| - 1]);
    }
  }

  /** The article phase only appends: whatever it produces extends its starting state, raised or not. */
  lemma {:induction false} ArticleStepsExtend(c: CrawlContext, st: CrawlState, rs: seq<SearchResult>)
    requires st.raised.None?
    ensures var after := ArticleSteps(c, st, rs);
      && st.articles <= after.articles && st.errors <= after.errors && st.trace <= after.trace
      && SearchPages(after.trace) == SearchPages(st.trace)
    decreases |rs|
  {
    if rs != [] {
      var init := rs[..|rs| - 1];
      ArticleStepsExtend(c, st, init);
      var before := ArticleSteps(c, st, init);
      if before.raised.None? {
        SearchPagesConcat(before.trace, DetailEvents(c, rs[|rs| - 1]));
        DetailEventsCounts(c, rs[|rs| - 1]);
      }
    }
  }

  /** One page step only appends, and adds exactly one search fetch, for that page. */
  lemma PageStepExtends(c: CrawlContext, st: CrawlState, page: int)
    requires st.raised.None?
    ensures var after := PageStep(c, st, page);
      && st.articles <= after.articles && st.errors <= after.errors && st.trace <= after.trace
      && SearchPages(after.trace) == SearchPages(st.trace) + [page]
  {
    var st1 := st.(trace := st.trace + [SearchFetch(page, SearchFetched(c, page).call)]);
    SearchPagesConcat(st.trace, [SearchFetch(page, SearchFetched(c, page).call)]);
    if Listing(c, page).Ok? {
      var rs := Listing(c, page).value;
      ArticleStepsExtend(c, st1, rs);
      var st2 := ArticleSteps(c, st1, rs);
      if st2.raised.None? {
        SearchPagesConcat(st2.trace, [Sleep(c.delay)]);
      }
    }
  }

  /**
   * Pages are visited in increasing order from 1: the search fetches of a
   * crawl are for pages 1, 2, ..., k with k <= pages, and for every page
   * when no exception escaped.
   */
  lemma {:induction false} PagesVisitedInOrder(c: CrawlContext, pages: int)
    ensures var st := CrawlPages(c, pages);
      && SearchPages(st.trace) == Range(|SearchPages(st.trace)|)
      && |SearchPages(st.trace)| <= (if pages < 0 then 0 else pages)
      && (st.raised.None? && pages >= 0 ==> |SearchPages(st.trace)| == pages)
    decreases if pages < 0 then 0 else pages
  {
    if pages > 0 {
      PagesVisitedInOrder(c, pages - 1);
      var before := CrawlPages(c, pages - 1);
      if before.raised.None? {
        PageStepExtends(c, before, pages);
        RangeSnoc(pages - 1);
      }
    }
  }

  lemma RangeSnoc(n: nat)
    ensures Range(n + 1) == Range(n) + [n + 1]
  {
    var a, b := Range(n + 1), Range(n) + [n + 1];
    forall i | 0 <= i < |a|
      ensures a[i] == b[i]
    {
      if i < n {
        assert b[i] == Range(n)[i];
      }
    }
  }

  /** Earlier output is never rewritten: a shorter crawl's articles, errors and trace are prefixes of a longer one's. */
  lemma {:induction false} AppendOnly(c: CrawlContext, m: int, n: int)
    requires m <= n
    ensures CrawlPages(c, m).articles <= CrawlPages(c, n).articles
    ensures CrawlPages(c, m).errors <= CrawlPages(c, n).errors
    ensures CrawlPages(c, m).trace <= CrawlPages(c, n).trace
    decreases n - m
  {
    if m < n {
      AppendOnly(c, m, n - 1);
      if n > 0 && CrawlPages(c, n - 1).raised.None? {
        PageStepExtends(c, CrawlPages(c, n - 1), n);
      }
    }
  }

  /**
   * A page whose fetch or list parse raises a CrawlerError adds exactly one
   * error, "페이지 {p} 검색 실패: {e}", no article and no delay; nothing
   * escapes, so page p + 1 is still tried.
   */
  lemma SearchPageFailure(c: CrawlContext, p: int)
    requires p >= 1
    requires CrawlPages(c, p - 1).raised.None?
    requires Listing(c, p).Err? && IsCrawlerError(Listing(c, p).error)
    ensures var before := CrawlPages(c, p - 1);
      CrawlPages(c, p) == CrawlState(
        before.articles,
        before.errors + [PageErrorMessage(p, Listing(c, p).error)],
        before.trace + [SearchFetch(p, SearchFetched(c, p).call)],
        None)
    ensures PageStep(c, CrawlPages(c, p), p + 1) == CrawlPages(c, p + 1)
  {
  }

  /**
   * A result whose article fetch or parse raises a CrawlerError adds exactly
   * one error, naming its URL, and no article; nothing escapes, so the next
   * result is still processed.
   */
  lemma ArticleFailure(c: CrawlContext, st: CrawlState, sr: SearchResult)
    requires Detail(c, sr).Err? && IsCrawlerError(Detail(c, sr).error)
    ensures var e := Detail(c, sr).error;
      && ArticleStep(c, st, sr) == st.(errors := st.errors + [ArticleErrorMessage(sr.url, e)], trace := st.trace + DetailEvents(c, sr))
      && ArticleErrorMessage(sr.url, e)[|"기사 수집 실패 ("|..|"기사 수집 실패 ("| + |sr.url|] == sr.url
  {
  }

  /**
   * A page whose list parse succeeds with `rs` and raises nothing later:
   * (articles added) + (errors added) == |rs|; the trace grows by its search
   * fetch, one delay before each of |rs| article fetches, and one trailing delay.
   */
  lemma PageAccounting(c: CrawlContext, p: int)
    requires p >= 1
    requires CrawlPages(c, p - 1).raised.None? && CrawlPages(c, p).raised.None?
    requires Listing(c, p).Ok?
    ensures var before := CrawlPages(c, p - 1);
      var after := CrawlPages(c, p);
      var rs := Listing(c, p).value;
      && before.articles <= after.articles && before.errors <= after.errors
      && (|after.articles| - |before.articles|) + (|after.errors| - |before.errors|) == |rs|
      && after.trace == before.trace + [SearchFetch(p, SearchFetched(c, p).call)] + AllDetailEvents(c, rs) + [Sleep(c.delay)]
      && CountSleeps(AllDetailEvents(c, rs) + [Sleep(c.delay)]) == |rs| + 1
      && CountDetailFetches(AllDetailEvents(c, rs)) == |rs|
  {
    var before := CrawlPages(c, p - 1);
    var rs := Listing(c, p).value;
    var st1 := before.(trace := before.trace + [SearchFetch(p, SearchFetched(c, p).call)]);
    ArticleStepsAccounting(c, st1, rs);
    SearchPagesConcat(AllDetailEvents(c, rs), [Sleep(c.delay)]);
  }

  /** Only a non-CrawlerError escapes a crawl, and once one has, nothing more happens. */
  lemma {:induction false} OnlyNonCrawlerErrorsEscape(c: CrawlContext, pages: int)
    ensures CrawlPages(c, pages).raised.Some? ==> !IsCrawlerError(CrawlPages(c, pages).raised.value)
    decreases if pages < 0 then 0 else pages
  {
    if pages > 0 {
      OnlyNonCrawlerErrorsEscape(c, pages - 1);
      var before := CrawlPages(c, pages - 1);
      if before.raised.None? && Listing(c, pages).Ok? {
        var st1 := before.(trace := before.trace + [SearchFetch(pages, SearchFetched(c, pages).call)]);
        ArticleStepsEscape(c, st1, Listing(c, pages).value);
      }
    }
  }

  lemma {:induction false} ArticleStepsEscape(c: CrawlContext, st: CrawlState, rs: seq<SearchResult>)
    requires st.raised.None?
    ensures ArticleSteps(c, st, rs).raised.Some? ==> !IsCrawlerError(ArticleSteps(c, st, rs).raised.value)
    decreases |rs|
  {
    if rs != [] {
      ArticleStepsEscape(c, st, rs[..|rs| - 1]);
    }
  }

  /** The parser hook stamps the channel name and the keyword it is handed onto every article it returns. */
  ghost predicate StampsArticles(c: CrawlContext) {
    forall html, sr :: c.adapter.parseArticleDetail(html, sr, c.currentKeyword).Ok? ==>
      && c.adapter.parseArticleDetail(html, sr, c.currentKeyword).value.channel == c.adapter.channelName
      && c.adapter.parseArticleDetail(html, sr, c.currentKeyword).value.keyword == c.currentKeyword
  }

  lemma {:induction false} ArticleStepsStamped(c: CrawlContext, st: CrawlState, rs: seq<SearchResult>)
    requires StampsArticles(c)
    requires forall a :: a in st.articles ==> a.channel == c.adapter.channelName && a.keyword == c.currentKeyword
    ensures forall a :: a in ArticleSteps(c, st, rs).articles ==> a.channel == c.adapter.channelName && a.keyword == c.currentKeyword
    decreases |rs|
  {
    if rs != [] {
      ArticleStepsStamped(c, st, rs[..|rs| - 1]);
    }
  }

  /** With a hook that stamps what it is handed, every collected article carries the channel and `_current_keyword`. */
  lemma {:induction false} ArticlesStamped(c: CrawlContext, pages: int)
    requires StampsArticles(c)
    ensures forall a :: a in CrawlPages(c, pages).articles ==> a.channel == c.adapter.channelName && a.keyword == c.currentKeyword
    decreases if pages < 0 then 0 else pages
  {
    if pages > 0 {
      ArticlesStamped(c, pages - 1);
      var before := CrawlPages(c, pages - 1);
      if before.raised.None? && Listing(c, pages).Ok? {
        var st1 := before.(trace := before.trace + [SearchFetch(pages, SearchFetched(c, pages).call)]);
        ArticleStepsStamped(c, st1, Listing(c, pages).value);
      }
    }
  }
}
