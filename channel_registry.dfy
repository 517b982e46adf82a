/**
 * The channel registry (src/pipeline/channel_registry.py): a fixed table from
 * channel name to crawler class and fetch-strategy type, the dynamic-channel
 * test, and crawler construction with its two ValueError failures. The
 * dynamic import of the crawler class is a lookup: `crawlerClass(name)` is
 * the hooks of the class the table names.
 */
module ChannelRegistry {
  import opened Wrappers
  import opened Exceptions
  import opened FetchStrategy
  import opened BaseCrawler

  datatype StrategyType = Static | Dynamic

  datatype ChannelEntry = ChannelEntry(name: string, modulePath: string, className: string, strategyType: StrategyType)

  /** CHANNEL_MAP, in insertion order. */
  const ChannelMap: seq<ChannelEntry> := [
    ChannelEntry("mk", "src.channels.mk.crawler", "MkCrawler", Dynamic),
    ChannelEntry("maeililbo", "src.channels.maeililbo.crawler", "MaeililboCrawler", Static),
    ChannelEntry("chosun", "src.channels.chosun.crawler", "ChosunCrawler", Dynamic),
    ChannelEntry("hani", "src.channels.hani.crawler", "HaniCrawler", Dynamic),
    ChannelEntry("naver_news", "src.channels.naver_news.crawler", "NaverNewsCrawler", Static)
  ]

  /** `CHANNEL_MAP.get(name)` over a table of entries. */
  function LookupIn(table: seq<ChannelEntry>, name: string): (r: Option<ChannelEntry>)
    ensures r.Some? ==> r.value in table && r.value.name == name
    ensures r.None? <==> forall k :: 0 <= k < |table| ==> table[k].name != name
  {
    if table == [] then None
    else if table[0].name == name then Some(table[0])
    else LookupIn(table[1..], name)
  }

  /** The table lookup, dispatched on the five registered names. */
  function Lookup(name: string): Option<ChannelEntry> {
    if name == "mk" then Some(ChannelMap[0])
    else if name == "maeililbo" then Some(ChannelMap[1])
    else if name == "chosun" then Some(ChannelMap[2])
    else if name == "hani" then Some(ChannelMap[3])
    else if name == "naver_news" then Some(ChannelMap[4])
    else None
  }

  /** `get_available_channels()`: the table's keys, in order. */
  function GetAvailableChannels(): (names: seq<string>)
    ensures |names| == |ChannelMap| && forall k :: 0 <= k < |names| ==> names[k] == ChannelMap[k].name
  {
    seq(|ChannelMap|, k requires 0 <= k < |ChannelMap| => ChannelMap[k].name)
  }

  predicate IsDynamic(name: string) {
    Lookup(name).Some? && Lookup(name).value.strategyType == Dynamic
  }

  /** `has_dynamic_channel(channels)`: some listed, registered channel is dynamic. */
  function HasDynamicChannel(channels: seq<string>): (b: bool)
    ensures b <==> exists k :: 0 <= k < |channels| && IsDynamic(channels[k])
  {
    if channels == [] then false
    else IsDynamic(channels[0]) || HasDynamicChannel(channels[1..])
  }

  function UnknownChannelError(name: string): Exc {
    Exc(ValueErrorClass, "알 수 없는 채널: '" + name + "'", None)
  }

  function BrowserRequiredError(name: string): Exc {
    Exc(ValueErrorClass, "'" + name + "' 채널은 브라우저 클라이언트가 필요합니다", None)
  }

  /** The strategy `create_crawler` builds for a channel, or the ValueError it raises. */
  function SelectStrategy(name: string, http: HttpClient, browser: Option<BrowserClient>): Result<FetchStrategy> {
    var entry := Lookup(name);
    if entry.None? then Err(UnknownChannelError(name))
    else if entry.value.strategyType == Static then Ok(StaticFetchStrategy(http))
    else if browser.None? then Err(BrowserRequiredError(name))
    else Ok(DynamicFetchStrategy(browser.value))
  }

  /** `await create_crawler(name, settings, http_client, browser_client)` */
  method CreateCrawler(name: string, settings: Settings, http: HttpClient, browser: Option<BrowserClient>, crawlerClass: string -> Adapter)
    returns (r: Result<Crawler>)
    ensures r.Ok? <==> SelectStrategy(name, http, browser).Ok?
    ensures r.Err? ==> r.error == SelectStrategy(name, http, browser).error
    ensures r.Ok? ==>
      && fresh(r.value)
      && r.value.adapter == crawlerClass(name)
      && r.value.strategy == SelectStrategy(name, http, browser).value
      && r.value.settings == settings
      && r.value.currentKeyword == ""
  {
    var strategy := SelectStrategy(name, http, browser);
    if strategy.Err? {
      return Err(strategy.error);
    }
    var crawler := new Crawler(crawlerClass(name), strategy.value, settings);
    r := Ok(crawler);
  }

  // ---- properties ----

  /** The dispatch agrees with looking the name up in the table: `CHANNEL_MAP.get(name)`. */
  lemma LookupMatchesTable(name: string)
    ensures Lookup(name) == LookupIn(ChannelMap, name)
  {
  }

  /** The registered channels are exactly mk, maeililbo, chosun, hani, naver_news, in that order, each once. */
  lemma AvailableChannels()
    ensures GetAvailableChannels() == ["mk", "maeililbo", "chosun", "hani", "naver_news"]
    ensures forall k :: 0 <= k < |GetAvailableChannels()| ==> Lookup(GetAvailableChannels()[k]) == Some(ChannelMap[k])
  {
    assert GetAvailableChannels() == ["mk", "maeililbo", "chosun", "hani", "naver_news"];
  }

  /** mk, chosun and hani need the browser; maeililbo and naver_news do not; nothing else is registered. */
  lemma StrategyTypes(name: string)
    ensures IsDynamic(name) <==> name in {"mk", "chosun", "hani"}
    ensures Lookup(name).Some? && !IsDynamic(name) <==> name in {"maeililbo", "naver_news"}
  {
  }

  /** The empty list needs no browser, unregistered names are ignored, and listing all channels needs one. */
  lemma HasDynamicChannelFacts(channels: seq<string>, unknown: string)
    requires Lookup(unknown).None?
    ensures !HasDynamicChannel([])
    ensures HasDynamicChannel(channels + [unknown]) == HasDynamicChannel(channels)
    ensures HasDynamicChannel([unknown] + channels) == HasDynamicChannel(channels)
    ensures HasDynamicChannel(GetAvailableChannels())
  {
    var withLast := channels + [unknown];
    if HasDynamicChannel(withLast) {
      var k :| 0 <= k < |withLast| && IsDynamic(withLast[k]);
      assert k < |channels| && withLast[k] == channels[k];
    }
    if HasDynamicChannel(channels) {
      var k :| 0 <= k < |channels| && IsDynamic(channels[k]);
      assert withLast[k] == channels[k];
    }
    assert ([unknown] + channels)[1..] == channels;
    assert IsDynamic(GetAvailableChannels()[0]);
  }

  /**
   * `create_crawler`: an unregistered name is a ValueError before anything is
   * built; a static channel always gets the HTTP client, even when a browser
   * is supplied; a dynamic channel gets the browser, or a ValueError without one.
   * Neither ValueError is a CrawlerError.
   */
  lemma SelectStrategyContract(name: string, http: HttpClient, browser: Option<BrowserClient>)
    ensures Lookup(name).None? ==> SelectStrategy(name, http, browser) == Err(UnknownChannelError(name))
    ensures Lookup(name).Some? && !IsDynamic(name) ==> SelectStrategy(name, http, browser) == Ok(StaticFetchStrategy(http))
    ensures IsDynamic(name) && browser.None? ==> SelectStrategy(name, http, browser) == Err(BrowserRequiredError(name))
    ensures IsDynamic(name) && browser.Some? ==> SelectStrategy(name, http, browser) == Ok(DynamicFetchStrategy(browser.value))
    ensures SelectStrategy(name, http, browser).Err? ==>
      && SelectStrategy(name, http, browser).error.cls == ValueErrorClass
      && !IsCrawlerError(SelectStrategy(name, http, browser).error)
  {
  }

  /**
   * When a browser is supplied whenever the channel list has a dynamic
   * channel, as the orchestrator does, the only failure left for a listed
   * channel is being unregistered.
   */
  lemma BrowserErrorUnreachable(channels: seq<string>, http: HttpClient, browser: Option<BrowserClient>, k: nat)
    requires HasDynamicChannel(channels) ==> browser.Some?
    requires k < |channels|
    ensures SelectStrategy(channels[k], http, browser).Err? <==> Lookup(channels[k]).None?
  {
  }
}
