/**
 * Fetch strategies (src/core/fetch_strategy.py): two stateless adapters that
 * forward one request to a shared client and turn whatever the client raises
 * into a FetchError. The clients themselves (httpx, playwright) are the
 * network: each is modelled by what its `get` answers.
 */
module FetchStrategy {
  import opened Wrappers
  import opened Exceptions

  /** The shared HTTP client; `get(url)` answers the page text or raises. */
  datatype HttpClient = HttpClient(get: string -> Result<string>)

  /** The shared browser session; `get(url, wait_selector)` answers the rendered page or raises. */
  datatype BrowserClient = BrowserClient(get: (string, Option<string>) -> Result<string>)

  datatype FetchStrategy =
    | StaticFetchStrategy(http: HttpClient)
    | DynamicFetchStrategy(browser: BrowserClient)

  /** The one client call a fetch makes, with the arguments it passes. */
  datatype ClientCall =
    | HttpGet(url: string)
    | BrowserGet(url: string, waitSelector: Option<string>)

  /** A fetch: the client call it made and what it returned or raised. */
  datatype Fetched = Fetched(call: ClientCall, result: Result<string>)

  const StaticFailurePrefix: string := "정적 페이지 가져오기 실패: "
  const DynamicFailurePrefix: string := "동적 페이지 가져오기 실패: "

  /** `raise FetchError(message) from cause` */
  function WrapFetchError(message: string, cause: Exc): Exc {
    Exc(FetchErrorClass, message, Some(cause))
  }

  /** What the strategy's client returns or raises for the url. */
  function ClientAnswer(strategy: FetchStrategy, url: string, waitSelector: Option<string>): Result<string> {
    match strategy
    case StaticFetchStrategy(client) => client.get(url)
    case DynamicFetchStrategy(client) => client.get(url, waitSelector)
  }

  /**
   * `await strategy.fetch(url, wait_selector)`: one client call, whose text
   * is returned unchanged; it fails exactly when the client call fails.
   */
  function Fetch(strategy: FetchStrategy, url: string, waitSelector: Option<string> := None): (f: Fetched)
    ensures strategy.StaticFetchStrategy? ==> f.call == HttpGet(url)
    ensures strategy.DynamicFetchStrategy? ==> f.call == BrowserGet(url, waitSelector)
    ensures f.result.Ok? <==> ClientAnswer(strategy, url, waitSelector).Ok?
    ensures f.result.Ok? ==> f.result == ClientAnswer(strategy, url, waitSelector)
  {
    match strategy
    case StaticFetchStrategy(client) =>
      var answer := client.get(url);
      Fetched(HttpGet(url), if answer.Ok? then answer else Err(WrapFetchError(StaticFailurePrefix + url, answer.error)))
    case DynamicFetchStrategy(client) =>
      var answer := client.get(url, waitSelector);
      Fetched(BrowserGet(url, waitSelector), if answer.Ok? then answer else Err(WrapFetchError(DynamicFailurePrefix + url, answer.error)))
  }

  /**
   * Every fetch failure is a FetchError, hence a CrawlerError: the crawl loop
   * catches all of them and the default retry policy retries all of them.
   * The message starts with the strategy's prefix and ends with the URL.
   */
  lemma FetchFailuresAreFetchErrors(strategy: FetchStrategy, url: string, waitSelector: Option<string>)
    ensures var f := Fetch(strategy, url, waitSelector);
      f.result.Err? ==>
        && IsInstance(f.result.error, FetchErrorClass)
        && IsCrawlerError(f.result.error)
        && f.result.error.cause == Some(ClientAnswer(strategy, url, waitSelector).error)
        && var prefix := if strategy.StaticFetchStrategy? then StaticFailurePrefix else DynamicFailurePrefix;
           f.result.error.message[..|prefix|] == prefix && f.result.error.message[|prefix|..] == url
  {
  }

  /** The static strategy ignores the wait selector; the dynamic one forwards it. */
  lemma WaitSelectorForwarding(strategy: FetchStrategy, url: string, w1: Option<string>, w2: Option<string>)
    ensures strategy.StaticFetchStrategy? ==> Fetch(strategy, url, w1) == Fetch(strategy, url, w2)
    ensures strategy.DynamicFetchStrategy? ==> Fetch(strategy, url, w1).call.waitSelector == w1
  {
  }
}
