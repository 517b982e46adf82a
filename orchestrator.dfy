/**
 * CrawlOrchestrator.run (src/pipeline/orchestrator.py): resolve the target
 * channels, open the HTTP client and, when a dynamic channel is targeted, the
 * browser; create one crawl task per (channel, keyword), channel-major; run
 * them (`gather` with `return_exceptions=True`, modelled as running them one
 * after another); turn each task's exception into a degraded result, matched
 * back by a running `task_index`; close the browser in `finally` on every
 * path. Launching the browser is a parameter: `launch` is what
 * `browser_client.__aenter__()` does.
 */
module Orchestrator {
  import opened Wrappers
  import opened Exceptions
  import opened Models
  import opened FetchStrategy
  import opened BaseCrawler
  import opened ChannelRegistry

  /** The resource and task events of one `run`, in order. */
  datatype RunEvent =
    | HttpOpen
    | BrowserOpen
    | TaskRun(channel: string, keyword: string)
    | BrowserClose
    | HttpClose

  /** A created crawl task: `crawler.crawl(keyword)` for one channel. */
  datatype Task = Task(channel: string, keyword: string, crawler: Crawler)

  /** `channels or get_available_channels()` */
  function TargetChannels(channels: Option<seq<string>>): seq<string> {
    if channels.None? || channels.value == [] then GetAvailableChannels() else channels.value
  }

  /** The pairs of one channel with every keyword. */
  function Row(channel: string, keywords: seq<string>): (r: seq<(string, string)>)
    ensures |r| == |keywords| && forall j :: 0 <= j < |keywords| ==> r[j] == (channel, keywords[j])
  {
    seq(|keywords|, j requires 0 <= j < |keywords| => (channel, keywords[j]))
  }

  /** The (channel, keyword) pairs in task order: channel-major. */
  function Pairs(channels: seq<string>, keywords: seq<string>): seq<(string, string)>
    decreases |channels|
  {
    if channels == [] then []
    else Pairs(channels[..|channels| - 1], keywords) + Row(channels[|channels| - 1], keywords)
  }

  function TaskPairs(tasks: seq<Task>): (ps: seq<(string, string)>)
    ensures |ps| == |tasks| && forall n :: 0 <= n < |tasks| ==> ps[n] == (tasks[n].channel, tasks[n].keyword)
  {
    seq(|tasks|, n requires 0 <= n < |tasks| => (tasks[n].channel, tasks[n].keyword))
  }

  function TaskRuns(pairs: seq<(string, string)>): (events: seq<RunEvent>)
    ensures |events| == |pairs| && forall n :: 0 <= n < |pairs| ==> events[n] == TaskRun(pairs[n].0, pairs[n].1)
  {
    seq(|pairs|, n requires 0 <= n < |pairs| => TaskRun(pairs[n].0, pairs[n].1))
  }

  /** The ValueError the task-creation loop stops at, if any: the first pair whose crawler cannot be created. */
  function FirstCreateError(pairs: seq<(string, string)>, http: HttpClient, browser: Option<BrowserClient>): (r: Option<Exc>)
    ensures r.None? <==> forall k :: 0 <= k < |pairs| ==> SelectStrategy(pairs[k].0, http, browser).Ok?
    ensures r.Some? ==> exists k :: 0 <= k < |pairs| && SelectStrategy(pairs[k].0, http, browser) == Err(r.value)
  {
    if pairs == [] then None
    else if SelectStrategy(pairs[0].0, http, browser).Err? then Some(SelectStrategy(pairs[0].0, http, browser).error)
    else
      var rest := FirstCreateError(pairs[1..], http, browser);
      assert forall k :: 1 <= k < |pairs| ==> pairs[k] == pairs[1..][k - 1];
      rest
  }

  /** The browser handed to `create_crawler`: the launched one, when one was needed. */
  function OpenedBrowser(needsBrowser: bool, launch: Result<BrowserClient>): Option<BrowserClient> {
    if needsBrowser && launch.Ok? then Some(launch.value) else None
  }

  /** What the crawl of one (channel, keyword) task produces, by the crawl loop's specification. */
  function TaskState(settings: Settings, http: HttpClient, browser: Option<BrowserClient>, crawlerClass: string -> Adapter, pair: (string, string)): CrawlState
    requires SelectStrategy(pair.0, http, browser).Ok?
  {
    var c := CrawlContext(crawlerClass(pair.0), SelectStrategy(pair.0, http, browser).value, pair.1, pair.1, settings.requestDelay);
    CrawlPages(c, PageCount(None, settings))
  }

  /** What the crawl task of a pair returns or raises, its result seen as a value. */
  function ExpectedOutcome(settings: Settings, http: HttpClient, browser: Option<BrowserClient>, crawlerClass: string -> Adapter, pair: (string, string)): Result<CrawlReport>
    requires SelectStrategy(pair.0, http, browser).Ok?
  {
    var st := TaskState(settings, http, browser, crawlerClass, pair);
    if st.raised.None? then Ok(CrawlReport(crawlerClass(pair.0).channelName, pair.1, st.articles, st.errors))
    else Err(st.raised.value)
  }

  /** The result `run` reports for a pair: the crawl's own result, or one error naming the exception. */
  function ExpectedReport(settings: Settings, http: HttpClient, browser: Option<BrowserClient>, crawlerClass: string -> Adapter, pair: (string, string)): CrawlReport
    requires SelectStrategy(pair.0, http, browser).Ok?
  {
    match ExpectedOutcome(settings, http, browser, crawlerClass, pair)
    case Ok(report) => report
    case Err(e) => CrawlReport(pair.0, pair.1, [], [Str(e)])
  }

  /** A task's returned result or raised exception, as a value. */
  function Outcome(r: Result<CrawlResult>): Result<CrawlReport>
    reads if r.Ok? then {r.value} else {}
  {
    if r.Ok? then Ok(r.value.Report()) else Err(r.error)
  }

  /** The events of a run: clients opened, tasks run when every crawler was created, browser closed iff it was opened. */
  function RunEvents(needsBrowser: bool, launchFailed: bool, created: bool, pairs: seq<(string, string)>): seq<RunEvent> {
    [HttpOpen]
    + (if needsBrowser then [BrowserOpen] else [])
    + (if !launchFailed && created then TaskRuns(pairs) else [])
    + (if needsBrowser then [BrowserClose] else [])
    + [HttpClose]
  }

  /** The task was created for its channel, with the strategy the registry selects. */
  ghost predicate Configured(t: Task, settings: Settings, http: HttpClient, browser: Option<BrowserClient>, crawlerClass: string -> Adapter) {
    && SelectStrategy(t.channel, http, browser).Ok?
    && t.crawler.adapter == crawlerClass(t.channel)
    && t.crawler.strategy == SelectStrategy(t.channel, http, browser).value
    && t.crawler.settings == settings
  }

  /** The inner `for keyword in keywords` loop: `create_crawler(channel, ...)` once per keyword. */
  method CreateRow(channel: string, keywords: seq<string>, settings: Settings, http: HttpClient, browser: Option<BrowserClient>, crawlerClass: string -> Adapter)
    returns (outcome: Result<seq<Task>>)
    ensures outcome.Err? <==> FirstCreateError(Row(channel, keywords), http, browser).Some?
    ensures outcome.Err? ==> outcome.error == FirstCreateError(Row(channel, keywords), http, browser).value
    ensures outcome.Ok? ==>
      && TaskPairs(outcome.value) == Row(channel, keywords)
      && forall n :: 0 <= n < |outcome.value| ==>
           fresh(outcome.value[n].crawler) && Configured(outcome.value[n], settings, http, browser, crawlerClass)
  {
    var tasks: seq<Task> := [];
    var j := 0;
    while j < |keywords|
      invariant 0 <= j <= |keywords|
      invariant TaskPairs(tasks) == Row(channel, keywords)[..j]
      invariant FirstCreateError(Row(channel, keywords)[..j], http, browser).None?
      invariant forall n :: 0 <= n < |tasks| ==> fresh(tasks[n].crawler) && Configured(tasks[n], settings, http, browser, crawlerClass)
    {
      var created := CreateCrawler(channel, settings, http, browser, crawlerClass);
      if created.Err? {
        FirstCreateErrorAt(Row(channel, keywords), j, http, browser);
        return Err(created.error);
      }
      tasks := tasks + [Task(channel, keywords[j], created.value)];
      assert TaskPairs(tasks) == Row(channel, keywords)[..j + 1];
      FirstCreateErrorAt(Row(channel, keywords)[..j + 1], j, http, browser);
      assert Row(channel, keywords)[..j + 1][..j] == Row(channel, keywords)[..j];
      j := j + 1;
    }
    FirstCreateErrorAt(Row(channel, keywords), j, http, browser);
    assert Row(channel, keywords)[..j] == Row(channel, keywords);
    outcome := Ok(tasks);
  }

  /** The nested `for channel` / `for keyword` loop creating the tasks; a ValueError stops it. */
  method CreateTasks(targets: seq<string>, keywords: seq<string>, settings: Settings, http: HttpClient, browser: Option<BrowserClient>, crawlerClass: string -> Adapter)
    returns (outcome: Result<seq<Task>>)
    ensures outcome.Err? <==> FirstCreateError(Pairs(targets, keywords), http, browser).Some?
    ensures outcome.Err? ==> outcome.error == FirstCreateError(Pairs(targets, keywords), http, browser).value
    ensures outcome.Ok? ==>
      && TaskPairs(outcome.value) == Pairs(targets, keywords)
      && forall n :: 0 <= n < |outcome.value| ==>
           fresh(outcome.value[n].crawler) && Configured(outcome.value[n], settings, http, browser, crawlerClass)
  {
    var tasks: seq<Task> := [];
    var i := 0;
    while i < |targets|
      invariant 0 <= i <= |targets|
      invariant TaskPairs(tasks) == Pairs(targets[..i], keywords)
      invariant FirstCreateError(Pairs(targets[..i], keywords), http, browser).None?
      invariant forall n :: 0 <= n < |tasks| ==> fresh(tasks[n].crawler) && Configured(tasks[n], settings, http, browser, crawlerClass)
    {
      var row := CreateRow(targets[i], keywords, settings, http, browser, crawlerClass);
      CreateErrorStep(targets, keywords, i, http, browser);
      PairsStep(targets, keywords, i);
      if row.Err? {
        return Err(row.error);
      }
      TaskPairsConcat(tasks, row.value);
      tasks := tasks + row.value;
      i := i + 1;
    }
    assert targets[..i] == targets;
    outcome := Ok(tasks);
  }

  /** One task: `crawler.crawl(keyword)`. */
  method RunTask(t: Task, ghost settings: Settings, ghost http: HttpClient, ghost browser: Option<BrowserClient>, ghost crawlerClass: string -> Adapter)
    returns (r: Result<CrawlResult>)
    requires Configured(t, settings, http, browser, crawlerClass)
    modifies t.crawler
    ensures Outcome(r) == ExpectedOutcome(settings, http, browser, crawlerClass, (t.channel, t.keyword))
  {
    var trace;
    r, trace := t.crawler.Crawl(t.keyword);
  }

  /** `await asyncio.gather(*tasks, return_exceptions=True)`, one task after another. */
  method Gather(tasks: seq<Task>, ghost settings: Settings, ghost http: HttpClient, ghost browser: Option<BrowserClient>, ghost crawlerClass: string -> Adapter)
    returns (raw: seq<Result<CrawlResult>>, events: seq<RunEvent>)
    requires forall n :: 0 <= n < |tasks| ==> Configured(tasks[n], settings, http, browser, crawlerClass)
    modifies set n | 0 <= n < |tasks| :: tasks[n].crawler
    ensures |raw| == |tasks|
    ensures events == TaskRuns(TaskPairs(tasks))
    ensures forall n :: 0 <= n < |tasks| ==> Configured(tasks[n], settings, http, browser, crawlerClass) ==>
      Outcome(raw[n]) == ExpectedOutcome(settings, http, browser, crawlerClass, (tasks[n].channel, tasks[n].keyword))
  {
    raw := [];
    events := [];
    var n := 0;
    while n < |tasks|
      invariant 0 <= n <= |tasks| && |raw| == n
      invariant events == TaskRuns(TaskPairs(tasks[..n]))
      invariant forall m :: 0 <= m < n ==> Configured(tasks[m], settings, http, browser, crawlerClass) ==>
        Outcome(raw[m]) == ExpectedOutcome(settings, http, browser, crawlerClass, (tasks[m].channel, tasks[m].keyword))
    {
      var r := RunTask(tasks[n], settings, http, browser, crawlerClass);
      raw := raw + [r];
      assert TaskPairs(tasks[..n + 1]) == TaskPairs(tasks[..n]) + [(tasks[n].channel, tasks[n].keyword)];
      events := events + [TaskRun(tasks[n].channel, tasks[n].keyword)];
      n := n + 1;
    }
    assert tasks[..n] == tasks;
  }

  /** The nested loop matching each raw result back to its (channel, keyword) by `task_index`. */
  method Reassemble(targets: seq<string>, keywords: seq<string>, raw: seq<Result<CrawlResult>>)
    returns (results: seq<CrawlResult>)
    requires |raw| == |Pairs(targets, keywords)|
    ensures |results| == |raw|
    ensures forall n :: 0 <= n < |raw| ==>
      && (raw[n].Ok? ==> results[n] == raw[n].value)
      && (raw[n].Err? ==>
            && fresh(results[n])
            && results[n].Report() == CrawlReport(Pairs(targets, keywords)[n].0, Pairs(targets, keywords)[n].1, [], [Str(raw[n].error)]))
  {
    results := [];
    var taskIndex := 0;
    var i := 0;
    while i < |targets|
      invariant 0 <= i <= |targets|
      invariant taskIndex == |results| == |Pairs(targets[..i], keywords)| <= |raw|
      invariant forall n :: 0 <= n < taskIndex ==>
        && (raw[n].Ok? ==> results[n] == raw[n].value)
        && (raw[n].Err? ==>
              && fresh(results[n])
              && results[n].Report() == CrawlReport(Pairs(targets, keywords)[n].0, Pairs(targets, keywords)[n].1, [], [Str(raw[n].error)]))
    {
      var channel := targets[i];
      var j := 0;
      while j < |keywords|
        invariant 0 <= j <= |keywords|
        invariant taskIndex == |results| == |Pairs(targets[..i], keywords)| + j <= |raw|
        invariant forall n :: 0 <= n < taskIndex ==>
          && (raw[n].Ok? ==> results[n] == raw[n].value)
          && (raw[n].Err? ==>
                && fresh(results[n])
                && results[n].Report() == CrawlReport(Pairs(targets, keywords)[n].0, Pairs(targets, keywords)[n].1, [], [Str(raw[n].error)]))
      {
        var keyword := keywords[j];
        PairsPrefix(targets, keywords, i, j);
        var result := raw[taskIndex];
        if result.Err? {
          var degraded := new CrawlResult(channel, keyword, [], [Str(result.error)]);
          results := results + [degraded];
        } else {
          results := results + [result.value];
        }
        taskIndex := taskIndex + 1;
        j := j + 1;
      }
      PairsStep(targets, keywords, i);
      PairsGrow(targets, keywords, i + 1);
      i := i + 1;
    }
    assert targets[..i] == targets;
  }

  /** Task creation, the gather and the reassembly, with the clients already open. */
  method RunTasks(targets: seq<string>, keywords: seq<string>, settings: Settings, http: HttpClient, browser: Option<BrowserClient>, crawlerClass: string -> Adapter)
    returns (outcome: Result<seq<CrawlResult>>, events: seq<RunEvent>)
    ensures var ps := Pairs(targets, keywords);
      && (outcome.Err? <==> FirstCreateError(ps, http, browser).Some?)
      && (outcome.Err? ==> outcome.error == FirstCreateError(ps, http, browser).value && events == [])
      && (outcome.Ok? ==>
            && events == TaskRuns(ps)
            && |outcome.value| == |ps|
            && forall n :: 0 <= n < |ps| ==>
                 outcome.value[n].Report() == ExpectedReport(settings, http, browser, crawlerClass, ps[n]))
  {
    var created := CreateTasks(targets, keywords, settings, http, browser, crawlerClass);
    if created.Err? {
      return Err(created.error), [];
    }
    var tasks := created.value;
    ghost var ps := Pairs(targets, keywords);
    var raw;
    raw, events := Gather(tasks, settings, http, browser, crawlerClass);
    var results := Reassemble(targets, keywords, raw);
    forall n | 0 <= n < |ps|
      ensures results[n].Report() == ExpectedReport(settings, http, browser, crawlerClass, ps[n])
    {
      assert ps[n] == (tasks[n].channel, tasks[n].keyword);
      assert Configured(tasks[n], settings, http, browser, crawlerClass);
    }
    outcome := Ok(results);
  }

  /** `await CrawlOrchestrator(settings).run(keywords, channels)` */
  method Run(settings: Settings, keywords: seq<string>, channels: Option<seq<string>>, http: HttpClient, launch: Result<BrowserClient>, crawlerClass: string -> Adapter)
    returns (outcome: Result<seq<CrawlResult>>, events: seq<RunEvent>)
    ensures var targets := TargetChannels(channels);
      var needsBrowser := HasDynamicChannel(targets);
      var launchFailed := needsBrowser && launch.Err?;
      var browser := OpenedBrowser(needsBrowser, launch);
      var createError := FirstCreateError(Pairs(targets, keywords), http, browser);
      && events == RunEvents(needsBrowser, launchFailed, createError.None?, Pairs(targets, keywords))
      && (outcome.Err? <==> launchFailed || createError.Some?)
      && (outcome.Err? ==> outcome.error == if launchFailed then launch.error else createError.value)
      && (outcome.Ok? ==>
            && |outcome.value| == |Pairs(targets, keywords)|
            && forall n :: 0 <= n < |outcome.value| ==>
                 outcome.value[n].Report() == ExpectedReport(settings, http, browser, crawlerClass, Pairs(targets, keywords)[n]))
  {
    var targets := TargetChannels(channels);
    var needsBrowser := HasDynamicChannel(targets);
    var browser: Option<BrowserClient> := None;
    var startEvents: seq<RunEvent> := [HttpOpen];
    if needsBrowser {
      startEvents := startEvents + [BrowserOpen];
      if launch.Err? {
        return Err(launch.error), startEvents + [BrowserClose, HttpClose];
      }
      browser := Some(launch.value);
    }
    var taskEvents;
    outcome, taskEvents := RunTasks(targets, keywords, settings, http, browser, crawlerClass);
    events := startEvents + taskEvents + (if needsBrowser then [BrowserClose] else []) + [HttpClose];
  }

  // ---- the loops' proof obligations ----

  lemma {:induction false} PairsLength(channels: seq<string>, keywords: seq<string>)
    ensures |Pairs(channels, keywords)| == |channels| * |keywords|
    decreases |channels|
  {
    if channels != [] {
      PairsLength(channels[..|channels| - 1], keywords);
      assert |channels| * |keywords| == (|channels| - 1) * |keywords| + |keywords|;
    }
  }

  /** Pairs of a longer channel list extend those of a prefix of it. */
  lemma {:induction false} PairsGrow(channels: seq<string>, keywords: seq<string>, i: nat)
    requires i <= |channels|
    ensures Pairs(channels[..i], keywords) <= Pairs(channels, keywords)
    decreases |channels|
  {
    if i < |channels| {
      var init := channels[..|channels| - 1];
      assert init[..i] == channels[..i];
      PairsGrow(init, keywords, i);
    } else {
      assert channels[..i] == channels;
    }
  }

  /** The pairs of one more channel. */
  lemma PairsStep(channels: seq<string>, keywords: seq<string>, i: nat)
    requires i < |channels|
    ensures Pairs(channels[..i + 1], keywords) == Pairs(channels[..i], keywords) + Row(channels[i], keywords)
  {
    assert channels[..i + 1][..i] == channels[..i];
  }

  /**
   * Before the pair (channels[i], keywords[j]) come all pairs of the earlier
   * channels and the first j of channels[i]; that pair is next.
   */
  lemma PairsPrefix(channels: seq<string>, keywords: seq<string>, i: nat, j: nat)
    requires i < |channels| && j < |keywords|
    ensures |Pairs(channels[..i], keywords)| + |keywords| <= |Pairs(channels, keywords)|
    ensures Pairs(channels, keywords)[|Pairs(channels[..i], keywords)| + j] == (channels[i], keywords[j])
  {
    PairsGrow(channels, keywords, i + 1);
    PairsStep(channels, keywords, i);
  }

  lemma FirstCreateErrorAt(pairs: seq<(string, string)>, m: nat, http: HttpClient, browser: Option<BrowserClient>)
    requires m <= |pairs|
    requires FirstCreateError(pairs[..m], http, browser).None?
    ensures m < |pairs| && SelectStrategy(pairs[m].0, http, browser).Err? ==>
      FirstCreateError(pairs, http, browser) == Some(SelectStrategy(pairs[m].0, http, browser).error)
    ensures m == |pairs| ==> FirstCreateError(pairs, http, browser).None?
  {
    if m < |pairs| && SelectStrategy(pairs[m].0, http, browser).Err? {
      FirstCreateErrorSplit(pairs, m, http, browser);
    } else if m == |pairs| {
      assert pairs[..m] == pairs;
    }
  }

  lemma {:induction false} FirstCreateErrorSplit(pairs: seq<(string, string)>, m: nat, http: HttpClient, browser: Option<BrowserClient>)
    requires m < |pairs|
    requires FirstCreateError(pairs[..m], http, browser).None?
    requires SelectStrategy(pairs[m].0, http, browser).Err?
    ensures FirstCreateError(pairs, http, browser) == Some(SelectStrategy(pairs[m].0, http, browser).error)
    decreases m
  {
    if m > 0 {
      assert pairs[..m][0] == pairs[0];
      assert pairs[..m][1..] == pairs[1..][..m - 1];
      FirstCreateErrorSplit(pairs[1..], m - 1, http, browser);
    }
  }

  lemma {:induction false} FirstCreateErrorConcat(a: seq<(string, string)>, b: seq<(string, string)>, http: HttpClient, browser: Option<BrowserClient>)
    ensures FirstCreateError(a + b, http, browser)
      == if FirstCreateError(a, http, browser).Some? then FirstCreateError(a, http, browser) else FirstCreateError(b, http, browser)
    decreases |a|
  {
    if a == [] {
      assert a + b == b;
    } else {
      assert (a + b)[0] == a[0];
      assert (a + b)[1..] == a[1..] + b;
      FirstCreateErrorConcat(a[1..], b, http, browser);
    }
  }

  /** Creating one more channel's row: its error, if any, is the run's first. */
  lemma CreateErrorStep(targets: seq<string>, keywords: seq<string>, i: nat, http: HttpClient, browser: Option<BrowserClient>)
    requires i < |targets|
    requires FirstCreateError(Pairs(targets[..i], keywords), http, browser).None?
    ensures FirstCreateError(Row(targets[i], keywords), http, browser).None? ==>
      FirstCreateError(Pairs(targets[..i + 1], keywords), http, browser).None?
    ensures FirstCreateError(Row(targets[i], keywords), http, browser).Some? ==>
      FirstCreateError(Pairs(targets, keywords), http, browser) == FirstCreateError(Row(targets[i], keywords), http, browser)
  {
    PairsStep(targets, keywords, i);
    FirstCreateErrorConcat(Pairs(targets[..i], keywords), Row(targets[i], keywords), http, browser);
    PairsGrow(targets, keywords, i + 1);
    FirstCreateErrorPrefix(Pairs(targets[..i + 1], keywords), Pairs(targets, keywords), http, browser);
  }

  /** An error found in a prefix of the pairs is the first error of the whole. */
  lemma FirstCreateErrorPrefix(p: seq<(string, string)>, q: seq<(string, string)>, http: HttpClient, browser: Option<BrowserClient>)
    requires p <= q
    ensures FirstCreateError(p, http, browser).Some? ==> FirstCreateError(q, http, browser) == FirstCreateError(p, http, browser)
  {
    assert q == p + q[|p|..];
    FirstCreateErrorConcat(p, q[|p|..], http, browser);
  }

  lemma TaskPairsConcat(a: seq<Task>, b: seq<Task>)
    ensures TaskPairs(a + b) == TaskPairs(a) + TaskPairs(b)
  {
  }

  // ---- what `run` promises ----

  /** Entry i * |keywords| + j of the output belongs to (channels[i], keywords[j]). */
  lemma {:induction false} PairsIndex(channels: seq<string>, keywords: seq<string>, i: nat, j: nat)
    requires i < |channels| && j < |keywords|
    ensures |Pairs(channels, keywords)| == |channels| * |keywords|
    ensures i * |keywords| + j < |Pairs(channels, keywords)|
    ensures Pairs(channels, keywords)[i * |keywords| + j] == (channels[i], keywords[j])
  {
    PairsLength(channels, keywords);
    PairsLength(channels[..i], keywords);
    assert |Pairs(channels[..i], keywords)| == i * |keywords|;
    PairsPrefix(channels, keywords, i, j);
  }

  /** None and the empty list both mean every registered channel; any other list is used as given. */
  lemma TargetChannelsFallback(channels: seq<string>)
    ensures TargetChannels(None) == GetAvailableChannels()
    ensures TargetChannels(Some([])) == GetAvailableChannels()
    ensures channels != [] ==> TargetChannels(Some(channels)) == channels
  {
  }

  /**
   * Each reported result belongs to its task's keyword, and to its channel
   * when the crawler class names itself after its registry key; a task
   * whose crawl raised reports no article and exactly one error, the
   * exception's text.
   */
  lemma ExpectedReportBelongs(settings: Settings, http: HttpClient, browser: Option<BrowserClient>, crawlerClass: string -> Adapter, pair: (string, string))
    requires SelectStrategy(pair.0, http, browser).Ok?
    ensures var r := ExpectedReport(settings, http, browser, crawlerClass, pair);
      && r.keyword == pair.1
      && (crawlerClass(pair.0).channelName == pair.0 ==> r.channel == pair.0)
      && (TaskState(settings, http, browser, crawlerClass, pair).raised.Some? ==>
            r.articles == [] && r.errors == [Str(TaskState(settings, http, browser, crawlerClass, pair).raised.value)])
      && (TaskState(settings, http, browser, crawlerClass, pair).raised.None? ==>
            r.articles == TaskState(settings, http, browser, crawlerClass, pair).articles)
  {
  }

  /**
   * The browser is opened exactly when a dynamic channel is targeted and,
   * then, closed on every path after every task ran; the HTTP client is
   * opened first and closed last.
   */
  lemma BrowserLifecycle(needsBrowser: bool, launchFailed: bool, created: bool, pairs: seq<(string, string)>)
    ensures var events := RunEvents(needsBrowser, launchFailed, created, pairs);
      && events[0] == HttpOpen && events[|events| - 1] == HttpClose
      && (BrowserOpen in events <==> needsBrowser)
      && (BrowserClose in events <==> needsBrowser)
      && (needsBrowser ==> events[1] == BrowserOpen && events[|events| - 2] == BrowserClose)
      && (forall k :: 0 <= k < |events| && events[k].TaskRun? ==>
            (needsBrowser ==> 1 < k < |events| - 2) && 0 < k < |events| - 1)
  {
    var events := RunEvents(needsBrowser, launchFailed, created, pairs);
    var runs := if !launchFailed && created then TaskRuns(pairs) else [];
    assert BrowserOpen !in runs && BrowserClose !in runs;
  }

  /**
   * A channel that cannot be created makes `run` fail with that ValueError
   * (it is not turned into a result); with no keywords no crawler is created,
   * so nothing fails. With the browser supplied whenever a dynamic channel is
   * targeted, the failure is always an unregistered channel.
   */
  lemma CreateErrorEscapes(targets: seq<string>, keywords: seq<string>, http: HttpClient, browser: Option<BrowserClient>)
    requires HasDynamicChannel(targets) ==> browser.Some?
    ensures keywords == [] ==> FirstCreateError(Pairs(targets, keywords), http, browser).None?
    ensures FirstCreateError(Pairs(targets, keywords), http, browser).Some? ==>
      && FirstCreateError(Pairs(targets, keywords), http, browser).value.cls == ValueErrorClass
      && exists k :: 0 <= k < |targets| && FirstCreateError(Pairs(targets, keywords), http, browser).value == UnknownChannelError(targets[k])
    ensures keywords != [] && (exists k :: 0 <= k < |targets| && Lookup(targets[k]).None?) ==>
      FirstCreateError(Pairs(targets, keywords), http, browser).Some?
  {
    PairsLength(targets, keywords);
    var ps := Pairs(targets, keywords);
    if keywords == [] {
      assert |ps| == 0;
    }
    var e := FirstCreateError(ps, http, browser);
    if e.Some? {
      var m :| 0 <= m < |ps| && SelectStrategy(ps[m].0, http, browser) == Err(e.value);
      var i, j := PairOf(targets, keywords, m);
      BrowserErrorUnreachable(targets, http, browser, i);
    }
    if keywords != [] && (exists k :: 0 <= k < |targets| && Lookup(targets[k]).None?) {
      var k :| 0 <= k < |targets| && Lookup(targets[k]).None?;
      PairsIndex(targets, keywords, k, 0);
    }
  }

  /** Every pair position comes from some channel and keyword. */
  lemma PairOf(channels: seq<string>, keywords: seq<string>, m: nat) returns (i: nat, j: nat)
    requires m < |Pairs(channels, keywords)|
    ensures i < |channels| && j < |keywords| && Pairs(channels, keywords)[m] == (channels[i], keywords[j])
  {
    i := PairOfRec(channels, keywords, m);
    j := m - |Pairs(channels[..i], keywords)|;
    PairsStep(channels, keywords, i);
    PairsGrow(channels, keywords, i + 1);
  }

  lemma {:induction false} PairOfRec(channels: seq<string>, keywords: seq<string>, m: nat) returns (i: nat)
    requires m < |Pairs(channels, keywords)|
    ensures i < |channels|
    ensures |Pairs(channels[..i], keywords)| <= m < |Pairs(channels[..i], keywords)| + |keywords|
    decreases |channels|
  {
    var init := channels[..|channels| - 1];
    if m < |Pairs(init, keywords)| {
      i := PairOfRec(init, keywords, m);
      assert init[..i] == channels[..i];
    } else {
      i := |channels| - 1;
      assert channels[..i] == init;
    }
  }
}
