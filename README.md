# trend-korea-crawling: the crawl-control core in Dafny

This project models the part of the news crawler that decides what is
fetched, in what order, and what happens when something fails. It covers:

- the two-phase crawl loop of `BaseCrawler.crawl`: search pages `1..pages`, then each
  listed article. It appears here as a `Crawler` class whose `Crawl` method runs the loop
  against a `CrawlResult` object it appends to, and it is proved equal to a functional
  specification (`CrawlPages`) that records every fetch and delay in a trace;
- the exception hierarchy (`CrawlerError`, `FetchError`, `ParseError`) and the records
  `Article`, `SearchResult` and `CrawlResult`, with their defaults;
- the two fetch strategies, which forward to a client and wrap any failure in a `FetchError`;
- the `retry` decorator's attempt loop and exponential back-off schedule;
- the channel registry: the channel table, the dynamic-channel test and `create_crawler`'s
  two `ValueError`s;
- `CrawlOrchestrator.run`: target channels, task creation in channel-major order, the
  gather, the reassembly by `task_index`, and the HTTP client and browser lifecycle;
- the Chosun crawler, with its wait selectors and keyword stamping, and its `__NEXT_DATA__`
  JSON walk for search results and article bodies;
- the Naver crawler's `start` arithmetic and keyword stamping;
- `clean_text`;
- the summary counts of `ResultWriter.write`.

The network, the browser and HTML parsing are oracles: function-valued fields or
parameters (`HttpClient.get`, `BrowserClient.get`, the `Soup`/`NaverSoup` queries).
`asyncio.sleep` is a `Sleep(seconds)` event in a trace. `gather` runs the tasks one after
another. Python exceptions are values `Exc(cls, message, cause)`, and an operation that can
raise returns `Result<T>` (`Ok` or `Err`).

Two behaviours of the code worth noting:

- A `ValueError` from `create_crawler` inside `run` is not turned into an error result. It
  escapes `run` after the `finally` block closes the browser (`Run`, `CreateErrorEscapes`).
- The browser is closed whenever it was constructed. That includes the case where its
  launch (`__aenter__`) itself failed (`Run`, `BrowserLifecycle`).

## Model

| member | source | states |
|---|---|---|
| Exceptions.CrawlerErrorSubclasses | src/core/exceptions.py:1-10 | FetchError and ParseError are CrawlerErrors, and every class in the taxonomy is an Exception |
| Exceptions.FetchAndParseUnrelated | src/core/exceptions.py:5-10 | FetchError and ParseError are distinct and neither is a subclass of the other |
| Exceptions.CrawlerErrorIsRoot | src/core/exceptions.py:1-10 | the classes below CrawlerError are exactly CrawlerError, FetchError and ParseError; ValueError and TypeError are not among them |
| Exceptions.SubclassTransitive | src/core/exceptions.py:1-10 | issubclass over the declared hierarchy is transitive |
| Exceptions.SubclassAntisymmetric | src/core/exceptions.py:1-10 | two classes that are subclasses of each other are the same class |
| Models.RecordDefaults | src/core/models.py:6-24 | snippet defaults to "", published_at to None and metadata to an empty dict; the given fields read back unchanged |
| Models.CrawlResult.constructor | src/core/models.py:27-33 | a new result holds the given channel and keyword, and the lists default to empty |
| Models.CrawlResult.AppendArticle | src/core/models.py:32 | appending adds the article at the end and changes nothing else |
| Models.CrawlResult.AppendError | src/core/models.py:33 | appending adds the message at the end and changes nothing else |
| Models.NewResultThenAppend | src/core/models.py:27-33 | a fresh result with one article and one error appended holds exactly those |
| Strings.NatToString | src/core/base_crawler.py:50 | the decimal rendering of the page number in an f-string is non-empty, all digits, with no leading zero |
| Strings.NatToStringRoundTrip | src/core/base_crawler.py:50 | reading the rendered digits back gives the number |
| FetchStrategy.Fetch | src/core/fetch_strategy.py:25-42 | static fetch calls `get(url)` once, without the wait selector; dynamic fetch calls `get(url, wait_selector)` once; the fetch fails exactly when that call fails, and on success its text is returned unchanged |
| FetchStrategy.FetchFailuresAreFetchErrors | src/core/fetch_strategy.py:28-29 | every fetch failure is a FetchError, hence a CrawlerError; its message is the strategy's prefix followed by the url, and the client's exception is its cause |
| FetchStrategy.WaitSelectorForwarding | src/core/fetch_strategy.py:27 | static fetch ignores the wait selector; dynamic fetch forwards it as given |
| Retry.Retry | src/core/retry.py:22-41 | the attempt loop returns exactly what the loop-free specification `RetrySpec` gives: the result, the number of calls and the sleep sequence |
| Retry.CallBound | src/core/retry.py:25 | the function is called at most max_retries + 1 times, and at least once when that is positive |
| Retry.FirstCallSucceeds | src/core/retry.py:27 | a first call that returns gives one call, its value and no sleep |
| Retry.SuccessAfterFailures | src/core/retry.py:25-39 | k ≤ max_retries retryable failures and then a success give k + 1 calls, the success value and k sleeps |
| Retry.AllAttemptsFail | src/core/retry.py:25-41 | when every attempt fails retryably there are max_retries + 1 calls, the last exception is re-raised, and there are max_retries sleeps (none after the last attempt) |
| Retry.NonRetryablePropagates | src/core/retry.py:28 | an exception outside retry_on propagates from the first call, with no sleep |
| Retry.SleepSchedule | src/core/retry.py:30-39 | there is one sleep fewer than calls; sleep i is base_delay · backoff_factor^i; every call before the last failed retryably; a raised error is the last call's exception |
| Retry.NegativeMaxRetries | src/core/retry.py:25-41 | a negative max_retries makes no call and ends in `raise None`, a TypeError |
| Retry.DefaultRetriesFetchErrorsOnly | src/core/retry.py:13-16 | the default policy retries exactly FetchError |
| BaseCrawler.Crawler.Crawl | src/core/base_crawler.py:37-76 | the crawl loop produces the trace, articles and errors of `CrawlPages` over `max_pages or settings.max_pages` pages, or raises what it raises; the result carries channel_name and the keyword |
| BaseCrawler.Crawler.RunPages | src/core/base_crawler.py:39-76 | the page loop on a fresh result matches `CrawlPages` |
| BaseCrawler.RunPage | src/core/base_crawler.py:43-68 | one page: search fetch and list parse, the article loop and the trailing delay, or one error and `continue`; the state matches `PageStep` |
| BaseCrawler.RunArticles | src/core/base_crawler.py:55-66 | the article loop appends to the result as `ArticleSteps` says |
| BaseCrawler.PageCountFallback | src/core/base_crawler.py:39 | None and 0 fall back to settings.max_pages (3 by default); any other value is used as given |
| BaseCrawler.PagesVisitedInOrder | src/core/base_crawler.py:42 | the search fetches are for pages 1, 2, … in order, at most `pages` of them, and exactly `pages` when nothing escapes |
| BaseCrawler.AppendOnly | src/core/base_crawler.py:52-66 | later pages only extend the articles, the errors and the trace |
| BaseCrawler.SearchPageFailure | src/core/base_crawler.py:46-53 | a CrawlerError in page p's fetch or parse appends exactly one error "페이지 p 검색 실패: …", adds no article and no delay, and page p + 1 is still tried |
| BaseCrawler.ArticleFailure | src/core/base_crawler.py:58-66 | a CrawlerError for an article appends exactly one error naming its url and no article, after that result's delay and fetch |
| BaseCrawler.PageAccounting | src/core/base_crawler.py:55-68 | on a successful page, articles added + errors added = number of search results; each gets one delay and one fetch, plus one trailing delay |
| BaseCrawler.ArticleStepsAccounting | src/core/base_crawler.py:55-66 | the article loop adds one delay and one detail fetch per search result and one article or one error each |
| BaseCrawler.OnlyNonCrawlerErrorsEscape | src/core/base_crawler.py:49-63 | only CrawlerError is caught: an exception that ends the crawl is never a CrawlerError |
| BaseCrawler.RaisedIsFinal | src/core/base_crawler.py:42-68 | once an exception escapes, later pages change nothing |
| BaseCrawler.ArticlesStamped | src/core/base_crawler.py:60 | when the adapter stamps its channel and the current keyword on parsed articles, every collected article carries them |
| ChosunCrawler.SearchUrlHoldsRawKeyword | src/channels/chosun/crawler.py:35-36 | the search url is the template's prefix followed by the raw, unencoded keyword |
| ChosunCrawler.DistinctPagesDistinctUrls | src/channels/chosun/crawler.py:35-36 | different pages give different search urls |
| ChosunCrawler.ChosunWaitSelectors | src/channels/chosun/crawler.py:55-71 | the search fetch waits for "div.search-feed div.story-card" and the detail fetch for "section.article-body" |
| ChosunCrawler.ChosunStampsArticles | src/channels/chosun/crawler.py:41-42 | parse_article_detail stamps channel "chosun" and the current keyword |
| ChosunCrawler.ChosunArticlesStamped | src/channels/chosun/crawler.py:44-88 | every article of a Chosun crawl has channel "chosun" and the crawl's keyword |
| ChosunCrawler.CrawlChosun | src/channels/chosun/crawler.py:44-88 | the keyword is stored first; the crawl then matches `CrawlPages`, and the result and its articles carry "chosun" and the keyword |
| ChosunParser.ParseSearchResultsFromNextData | src/channels/chosun/parser.py:38-73 | returns exactly `NextDataResults`: nothing when the items cannot be found or iterated, else the kept items up to the first that raises |
| ChosunParser.KeepUntilError | src/channels/chosun/parser.py:51-71 | the item loop appends, in order, every kept item before the first item that raises, and stops there |
| ChosunParser.ItemsPrecedence | src/channels/chosun/parser.py:45-49 | items are the first truthy of searchResult.items, data.items and articles: a falsy value (missing, null, "", 0, [] or {}) falls through to the next, and an exception raised while evaluating one is raised |
| ChosunParser.ItemsPrecedenceOnPage | src/channels/chosun/parser.py:45-49 | on a concrete page: a non-empty searchResult.items wins; an absent searchResult, or one with absent or empty items, gives data.items; empty or absent both give articles |
| ChosunParser.ItemSkipRule | src/channels/chosun/parser.py:52-57 | an item is skipped iff its stripped title is empty or its url (falling back to link) is empty |
| ChosunParser.KeptItemFields | src/channels/chosun/parser.py:52-69 | a kept item has the cleaned stripped title, the url made absolute (link as fallback) and the cleaned description or snippet |
| ChosunParser.NextDataResultsWellFormed | src/channels/chosun/parser.py:51-69 | every result has a non-empty clean title, a non-empty url not starting with "/", and a clean snippet |
| ChosunParser.KeptUntilErrorConcat | src/channels/chosun/parser.py:51-69 | items are kept in input order |
| ChosunParser.KeptUntilErrorStops | src/channels/chosun/parser.py:70-71 | an item that raises ends the walk, and the results gathered so far are returned |
| ChosunParser.ParseSearchResultsSelection | src/channels/chosun/parser.py:116-127 | the `__NEXT_DATA__` results are used when present and non-empty; otherwise the CSS fallback is used |
| ChosunParser.NextDataContentIsClean | src/channels/chosun/parser.py:171-191 | the body taken from `__NEXT_DATA__` is already clean |
| ChosunParser.ParseArticleFailsIffNoContent | src/channels/chosun/parser.py:200-229 | parse_article raises iff neither source yields a body; the error is a ParseError naming the url |
| ChosunParser.ParseArticleFields | src/channels/chosun/parser.py:231-238 | the article copies title and url, has channel "chosun", the given keyword and a non-empty clean body, and prefers the `__NEXT_DATA__` body |
| NaverNewsCrawler.StartArithmetic | src/channels/naver_news/crawler.py:25 | start is 1 for page 1 and 11 for page 2, ≡ 1 mod 10, grows by 10 per page (so strictly increasing), and the page can be read back from it |
| NaverNewsCrawler.SearchUrlHoldsEncodedKeyword | src/channels/naver_news/crawler.py:22-26 | the search url is the template's prefix followed by the quoted keyword |
| NaverNewsCrawler.ParseArticleFailsIffNoBody | src/channels/naver_news/parser.py:91-101 | parse_article raises iff the body element is missing or its cleaned text is empty; the error is a ParseError ending in the url |
| NaverNewsCrawler.ParseArticleFields | src/channels/naver_news/parser.py:105-112 | the article copies title and url and has channel "naver_news", the given keyword and a non-empty clean body |
| NaverNewsCrawler.NaverStampsArticles | src/channels/naver_news/crawler.py:31-32 | parse_article_detail stamps channel "naver_news" and the current keyword |
| NaverNewsCrawler.NaverArticlesStamped | src/channels/naver_news/crawler.py:34-37 | every article of a Naver crawl has channel "naver_news" and the crawl's keyword |
| NaverNewsCrawler.CrawlNaver | src/channels/naver_news/crawler.py:34-37 | the keyword is stored before delegating; the result and its articles carry "naver_news" and the keyword |
| TextCleaner.StripShape | src/shared/text_cleaner.py:9-11 | strip leaves no surrounding whitespace, keeps the absence of tabs, double spaces and line breaks, and gives "" iff the input is all whitespace |
| TextCleaner.CleanTextShape | src/shared/text_cleaner.py:8-11 | the output has no tab, no double space and no surrounding whitespace; its lines are the non-empty stripped lines of the input, in order, each clean |
| TextCleaner.CleanTextEmptyIffBlank | src/shared/text_cleaner.py:6-11 | the output is "" iff the input is empty or all whitespace |
| TextCleaner.CleanTextIdempotent | src/shared/text_cleaner.py:6-11 | clean_text(clean_text(s)) = clean_text(s) |
| ChannelRegistry.AvailableChannels | src/pipeline/channel_registry.py:11-22 | the channels are exactly mk, maeililbo, chosun, hani, naver_news, in that order |
| ChannelRegistry.StrategyTypes | src/pipeline/channel_registry.py:12-16 | mk, chosun and hani are dynamic; maeililbo and naver_news are static; nothing else is registered |
| ChannelRegistry.LookupMatchesTable | src/pipeline/channel_registry.py:11-17 | the name dispatch agrees with a lookup in the table |
| ChannelRegistry.HasDynamicChannel | src/pipeline/channel_registry.py:25-27 | true iff some listed, registered channel is dynamic |
| ChannelRegistry.HasDynamicChannelFacts | src/pipeline/channel_registry.py:25-27 | the empty list gives false, unknown names are ignored, and the full list needs a browser |
| ChannelRegistry.SelectStrategyContract | src/pipeline/channel_registry.py:40-52 | an unregistered name is a ValueError; a static channel always gets the HTTP strategy; a dynamic one gets the browser strategy, or a ValueError without a browser; neither error is a CrawlerError |
| ChannelRegistry.CreateCrawler | src/pipeline/channel_registry.py:30-54 | a new crawler with the table's crawler class, the selected strategy and the settings, or the ValueError |
| ChannelRegistry.BrowserErrorUnreachable | src/pipeline/channel_registry.py:49-51 | when a browser is supplied whenever a dynamic channel is listed, only unregistered names fail |
| Orchestrator.Run | src/pipeline/orchestrator.py:23-87 | the launch failure or the first creation ValueError escapes; otherwise one result per (channel, keyword) in channel-major order: the crawl's own result, or one error naming the exception. The event sequence opens and closes the clients in order |
| Orchestrator.TargetChannelsFallback | src/pipeline/orchestrator.py:29 | None and [] mean every registered channel |
| Orchestrator.CreateTasks | src/pipeline/orchestrator.py:46-52 | one task per (channel, keyword), channel-major, each with a new crawler configured by the registry, or the first ValueError |
| Orchestrator.CreateRow | src/pipeline/orchestrator.py:48-52 | one task per keyword for one channel, or the first ValueError |
| Orchestrator.Gather | src/pipeline/orchestrator.py:54 | each task's outcome is its crawl's specified outcome, in task order |
| Orchestrator.Reassemble | src/pipeline/orchestrator.py:57-78 | by task_index, a successful result is passed through as the same object; an exception becomes a new result for that (channel, keyword) with no article and errors = [str(exc)] |
| Orchestrator.RunTasks | src/pipeline/orchestrator.py:46-78 | creation, gather and reassembly together yield the expected report at every index, or the creation error with no task run |
| Orchestrator.PairsIndex | src/pipeline/orchestrator.py:57-78 | there are len(channels) · len(keywords) entries, and entry i · len(keywords) + j belongs to (channels[i], keywords[j]) |
| Orchestrator.ExpectedReportBelongs | src/pipeline/orchestrator.py:62-77 | each reported result has its task's keyword, and its channel when the crawler names itself after the registry key; a failed task reports no article and exactly str(exc) |
| Orchestrator.BrowserLifecycle | src/pipeline/orchestrator.py:38-87 | the HTTP client is opened first and closed last; the browser is opened iff a dynamic channel is targeted, and then closed after every task |
| Orchestrator.CreateErrorEscapes | src/pipeline/orchestrator.py:47-87 | with no keywords nothing fails; an unregistered channel with keywords makes run raise its ValueError; with the browser supplied, only unregistered channels fail |
| ResultWriter.BuildSummary | src/pipeline/result_writer.py:20-26 | the results are kept in order; total_articles is the sum of the article counts and total_channels the number of distinct channel names (≤ len(results)); empty input gives zeros; each result's articles are counted in the total |
| ResultWriter.Reports | src/pipeline/result_writer.py:26 | one dumped entry per result, in order, with its fields |
| ResultWriter.TotalArticlesConcat | src/pipeline/result_writer.py:20 | the article total is additive over concatenation |
| ResultWriter.TotalArticlesSplit | src/pipeline/result_writer.py:20 | result k's articles are counted once, between those before and after it |
| ResultWriter.ChannelsMembership | src/pipeline/result_writer.py:24 | a channel is counted iff some result belongs to it |
| ResultWriter.ChannelsBound | src/pipeline/result_writer.py:24 | there are never more distinct channels than results |
| ResultWriter.OneChannel | src/pipeline/result_writer.py:24 | results all from one channel count as one channel |

## Left out

- HTTP and browser I/O are oracles: a client's `get` is a function of its arguments, so a fetch always gives the same answer for the same url and wait selector. Timeouts, the user agent and headless mode are not modelled.
- Concurrency: `gather` runs the tasks one after another. Interleaving, cancellation and the tasks orphaned when task creation fails midway are not modelled.
- `asyncio.sleep` is recorded as a `Sleep` event. Delays, retry factors and dates are `real`s rather than floats.
- `crawled_at`, the output file name and `datetime.now()` are not modelled. Date parsing (`_parse_date`) is an oracle.
- BeautifulSoup parsing is an oracle. That covers `_extract_next_data`, the CSS search-result fallback with its `seen_urls` de-duplication, `extract_text_from_html` and the Naver list parser.
- `urljoin(BASE_URL, url)` is applied, as in the code, only to a url starting with "/". A "//host/…" url gets "https:" in front, and any other gets the base in front. urljoin's normalisation of "." and ".." segments is not modelled.
- `ChosunParser.Absolute`: urljoin raises ValueError ("Invalid IPv6 URL") on a url whose host has an unmatched bracket, such as "//[abc/x". That error is not in the loop's `except` list, so in the code it escapes the parser and then the crawl. The model does not capture this: it prefixes such a url like any other and keeps the item.
- `urllib.parse.quote` is a parameter of the Naver url builder.
- The dynamic import in `create_crawler` is a lookup: `crawlerClass(name)` gives the crawler hooks of the registered class.
- JSON numbers are integers. A duplicate object key resolves to its last occurrence.
- ChosunParser.ExtractContentFromNextData: a list or dict body, which would make `"<" in content` check membership rather than substrings, is treated as no body.
- The mk, hani and maeililbo crawlers are not part of this model. They are reachable only through the registry's table.
- Logging, `json.dumps` and writing the file in `ResultWriter.write` are not modelled. The `BaseException` subclasses outside `Exception` are not modelled either.
- A failure of `__aexit__` (closing a client) is not modelled.
