/**
 * The summary `ResultWriter.write` (src/pipeline/result_writer.py) builds
 * before serialising it: the crawl time, the number of distinct channels,
 * the article total and every result in order. The clock is a parameter;
 * creating the directory and writing the file are not modelled.
 */
module ResultWriter {
  import opened Models

  datatype Summary = Summary(crawledAt: string, totalChannels: nat, totalArticles: nat, results: seq<CrawlReport>)

  /** `sum(len(r.articles) for r in results)`, added left to right. */
  function TotalArticles(results: seq<CrawlReport>): nat
    decreases |results|
  {
    if results == [] then 0
    else TotalArticles(results[..|results| - 1]) + |results[|results| - 1].articles|
  }

  /** `{r.channel for r in results}` */
  function Channels(results: seq<CrawlReport>): set<string> {
    set k | 0 <= k < |results| :: results[k].channel
  }

  /** `[r.model_dump() for r in results]`: each result's current field values, in order. */
  function Reports(results: seq<CrawlResult>): (reports: seq<CrawlReport>)
    reads set k | 0 <= k < |results| :: results[k]
    ensures |reports| == |results|
    ensures forall k :: 0 <= k < |results| ==> reports[k] == CrawlReport(results[k].channel, results[k].keyword, results[k].articles, results[k].errors)
  {
    seq(|results|, k reads set k | 0 <= k < |results| :: results[k] requires 0 <= k < |results| => results[k].Report())
  }

  /** The `output` dict of `write`. */
  function BuildSummary(crawledAt: string, results: seq<CrawlReport>): (s: Summary)
    ensures s.crawledAt == crawledAt && s.results == results
    ensures s.totalArticles == TotalArticles(results) && s.totalChannels == |Channels(results)|
    ensures s.totalChannels <= |results|
    ensures results == [] ==> s.totalChannels == 0 && s.totalArticles == 0
    ensures forall k :: 0 <= k < |results| ==> |results[k].articles| <= s.totalArticles
  {
    ChannelsBound(results);
    forall k | 0 <= k < |results|
      ensures |results[k].articles| <= TotalArticles(results)
    {
      TotalArticlesSplit(results, k);
    }
    Summary(crawledAt, |Channels(results)|, TotalArticles(results), results)
  }

  // ---- properties ----

  /** The article total of a concatenation is the sum of the totals. */
  lemma {:induction false} TotalArticlesConcat(a: seq<CrawlReport>, b: seq<CrawlReport>)
    ensures TotalArticles(a + b) == TotalArticles(a) + TotalArticles(b)
    decreases |b|
  {
    if b == [] {
      assert a + b == a;
    } else {
      var init := b[..|b| - 1];
      assert (a + b)[..|a + b| - 1] == a + init;
      TotalArticlesConcat(a, init);
    }
  }

  /** Result k's articles are counted in the total, around those before and after it. */
  lemma TotalArticlesSplit(results: seq<CrawlReport>, k: nat)
    requires k < |results|
    ensures TotalArticles(results) == TotalArticles(results[..k]) + |results[k].articles| + TotalArticles(results[k + 1..])
  {
    assert results == results[..k] + [results[k]] + results[k + 1..];
    TotalArticlesConcat(results[..k] + [results[k]], results[k + 1..]);
    TotalArticlesConcat(results[..k], [results[k]]);
    assert TotalArticles([results[k]]) == |results[k].articles| by {
      assert [results[k]][..0] == [];
    }
  }

  /** A channel is counted iff some result belongs to it. */
  lemma ChannelsMembership(results: seq<CrawlReport>, channel: string)
    ensures channel in Channels(results) <==> exists k :: 0 <= k < |results| && results[k].channel == channel
  {
  }

  /** One more result adds its channel, and nothing else. */
  lemma ChannelsSnoc(results: seq<CrawlReport>, r: CrawlReport)
    ensures Channels(results + [r]) == Channels(results) + {r.channel}
  {
    var both := results + [r];
    forall c | c in Channels(both)
      ensures c in Channels(results) + {r.channel}
    {
      var k :| 0 <= k < |both| && both[k].channel == c;
      if k < |results| {
        assert results[k] == both[k];
      }
    }
    forall c | c in Channels(results) + {r.channel}
      ensures c in Channels(both)
    {
      if c in Channels(results) {
        var k :| 0 <= k < |results| && results[k].channel == c;
        assert both[k] == results[k];
      } else {
        assert both[|results|].channel == c;
      }
    }
  }

  /** There are never more distinct channels than results. */
  lemma {:induction false} ChannelsBound(results: seq<CrawlReport>)
    ensures |Channels(results)| <= |results|
    decreases |results|
  {
    if results == [] {
      assert Channels(results) == {};
    } else {
      var init := results[..|results| - 1];
      assert init + [results[|results| - 1]] == results;
      ChannelsSnoc(init, results[|results| - 1]);
      ChannelsBound(init);
    }
  }

  /** Results all from one channel count as one channel. */
  lemma {:induction false} OneChannel(results: seq<CrawlReport>, channel: string)
    requires results != []
    requires forall k :: 0 <= k < |results| ==> results[k].channel == channel
    ensures BuildSummary("", results).totalChannels == 1
  {
    assert results[0].channel == channel;
    assert Channels(results) == {channel};
  }
}
