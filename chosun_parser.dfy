/**
 * The selection logic of the Chosun Ilbo parser (src/channels/chosun/parser.py)
 * over parsed `__NEXT_DATA__` JSON. Python's dynamic behaviour on that JSON is
 * written out: `.get` on a non-dict raises AttributeError, `x or y` picks by
 * truthiness, iterating a number raises TypeError. What BeautifulSoup and the
 * date parser compute is supplied by a `Soup` of uninterpreted functions.
 */
module ChosunParser {
  import opened Wrappers
  import opened Exceptions
  import opened Strings
  import opened Models
  import opened TextCleaner

  const ChannelName: string := "chosun"
  const BaseUrl: string := "https://www.chosun.com"

  /** A value produced by `json.loads`; an object keeps its members in document order (floats are not modelled). */
  datatype Json =
    | JNull
    | JBool(b: bool)
    | JNum(n: int)
    | JStr(s: string)
    | JList(elems: seq<Json>)
    | JObject(members: seq<(string, Json)>)

  const EmptyObject: Json := JObject([])
  const EmptyList: Json := JList([])
  const EmptyString: Json := JStr("")

  /** Python truthiness of a JSON value. */
  predicate Truthy(j: Json) {
    match j
    case JNull => false
    case JBool(b) => b
    case JNum(n) => n != 0
    case JStr(s) => s != []
    case JList(xs) => xs != []
    case JObject(ms) => ms != []
  }

  /** The value of `key` in an object's members; the last occurrence wins, as in `json.loads`. */
  function Lookup(members: seq<(string, Json)>, key: string): Option<Json> {
    if members == [] then None
    else if members[|members| - 1].0 == key then Some(members[|members| - 1].1)
    else Lookup(members[..|members| - 1], key)
  }

  function NoAttribute(name: string): Exc {
    Exc(AttributeErrorClass, "object has no attribute '" + name + "'", None)
  }

  /** `obj.get(key, default)` */
  function PyGet(obj: Json, key: string, default: Json): Result<Json> {
    match obj
    case JObject(ms) => Ok(if Lookup(ms, key).Some? then Lookup(ms, key).value else default)
    case _ => Err(NoAttribute("get"))
  }

  /** `<r>.get(key, default)`, where evaluating `<r>` may already have raised. */
  function Get(r: Result<Json>, key: string, default: Json): Result<Json> {
    if r.Err? then r else PyGet(r.value, key, default)
  }

  /** `a or b`: `b` is evaluated only when `a` returned a falsy value. */
  function Or(a: Result<Json>, b: Result<Json>): Result<Json> {
    if a.Err? || Truthy(a.value) then a else b
  }

  /** `for x in j`: the elements of a list, the keys of a dict, the characters of a string. */
  function Iterate(j: Json): Result<seq<Json>> {
    match j
    case JList(xs) => Ok(xs)
    case JObject(ms) => Ok(seq(|ms|, i requires 0 <= i < |ms| => JStr(ms[i].0)))
    case JStr(s) => Ok(seq(|s|, i requires 0 <= i < |s| => JStr([s[i]])))
    case _ => Err(Exc(TypeErrorClass, "object is not iterable", None))
  }

  /** `data.get("props", {}).get("pageProps", {})` */
  function PageProps(data: Json): Result<Json> {
    Get(Get(Ok(data), "props", EmptyObject), "pageProps", EmptyObject)
  }

  /** The `items` expression: `searchResult.items or data.items or articles`. */
  function Items(data: Json): Result<Json> {
    var pp := PageProps(data);
    Or(Or(Get(Get(pp, "searchResult", EmptyObject), "items", EmptyList),
          Get(Get(pp, "data", EmptyObject), "items", EmptyList)),
       Get(pp, "articles", EmptyList))
  }

  /** `urljoin(BASE_URL, url)` for a url starting with "/": scheme-relative "//host/..." keeps only the scheme. */
  function JoinBase(url: string): string {
    if StartsWith(url, "//") then "https:" + url else BaseUrl + url
  }

  /** `urljoin(BASE_URL, url) if url.startswith("/") else url` */
  function Absolute(url: string): string {
    if StartsWith(url, "/") then JoinBase(url) else url
  }

  /**
   * One iteration of the `for item in items` loop: Ok(None) is `continue`,
   * Ok(Some(r)) appends `r`, Err leaves the loop through the `except`.
   */
  function ItemOutcome(item: Json): Result<Option<SearchResult>> {
    var t := PyGet(item, "title", EmptyString);
    if t.Err? then Err(t.error)
    else if !t.value.JStr? then Err(NoAttribute("strip"))
    else
      var title := Strip(t.value.s);
      var u := Or(PyGet(item, "url", EmptyString), PyGet(item, "link", EmptyString));
      if u.Err? then Err(u.error)
      else
        var sn := Or(PyGet(item, "description", EmptyString), PyGet(item, "snippet", EmptyString));
        if sn.Err? then Err(sn.error)
        else if title == [] || !Truthy(u.value) then Ok(None)
        else if !u.value.JStr? then Err(NoAttribute("startswith"))
        else
          if !sn.value.JStr? then Err(Exc(TypeErrorClass, "expected string or bytes-like object", None))
          else Ok(Some(SearchResult(CleanText(title), Absolute(u.value.s), CleanText(sn.value.s))))
  }

  /** The results the loop appends before its first exception. */
  function KeptUntilError(items: seq<Json>): seq<SearchResult> {
    if items == [] then []
    else match ItemOutcome(items[0])
      case Err(_) => []
      case Ok(None) => KeptUntilError(items[1..])
      case Ok(Some(r)) => [r] + KeptUntilError(items[1..])
  }

  /** What `_parse_search_results_from_next_data(data)` returns. */
  function NextDataResults(data: Json): seq<SearchResult> {
    var items := Items(data);
    if items.Err? then []
    else
      var elems := Iterate(items.value);
      if elems.Err? then [] else KeptUntilError(elems.value)
  }

  /** `_parse_search_results_from_next_data(data)`: the loop appending to `results`. */
  method ParseSearchResultsFromNextData(data: Json) returns (results: seq<SearchResult>)
    ensures results == NextDataResults(data)
  {
    results := [];
    var items := Items(data);
    if items.Err? {
      return;
    }
    var elems := Iterate(items.value);
    if elems.Err? {
      return;
    }
    results := KeepUntilError(elems.value);
  }

  /** The `for item in items` loop of the parser, up to its first exception. */
  method KeepUntilError(xs: seq<Json>) returns (results: seq<SearchResult>)
    ensures results == KeptUntilError(xs)
  {
    results := [];
    var i := 0;
    while i < |xs|
      invariant 0 <= i <= |xs|
      invariant results + KeptUntilError(xs[i..]) == KeptUntilError(xs)
    {
      var outcome := ItemOutcome(xs[i]);
      KeptUntilErrorUnfold(xs, i);
      if outcome.Err? {
        assert results + [] == results;
        return;
      }
      if outcome.value.Some? {
        assert results + ([outcome.value.value] + KeptUntilError(xs[i + 1..]))
            == (results + [outcome.value.value]) + KeptUntilError(xs[i + 1..]);
        results := results + [outcome.value.value];
      }
      i := i + 1;
    }
    assert KeptUntilError(xs[i..]) == [];
    assert results + [] == results;
  }

  /** One step of the item walk from position i. */
  lemma KeptUntilErrorUnfold(xs: seq<Json>, i: nat)
    requires i < |xs|
    ensures KeptUntilError(xs[i..]) ==
      match ItemOutcome(xs[i])
      case Err(_) => []
      case Ok(None) => KeptUntilError(xs[i + 1..])
      case Ok(Some(r)) => [r] + KeptUntilError(xs[i + 1..])
  {
    assert xs[i..][0] == xs[i];
    assert xs[i..][1..] == xs[i + 1..];
  }

  /**
   * What the parser needs from BeautifulSoup and `_parse_date`, as functions
   * of the page text:
   *   nextData          `_extract_next_data(html)`: the parsed `__NEXT_DATA__` script, if any
   *   cssSearchResults  `_parse_search_results_from_html(BeautifulSoup(html))`
   *   articleBodyText   `get_text(separator="\n")` of `section.article-body`, if present
   *   dateElementText   the date element's `content`, `datetime` or text, if present
   *   htmlText          `BeautifulSoup(s).get_text(separator="\n")` of an HTML fragment
   *   parseDate         `_parse_date(s)`
   */
  datatype Soup = Soup(
    nextData: string -> Option<Json>,
    cssSearchResults: string -> seq<SearchResult>,
    articleBodyText: string -> Option<string>,
    dateElementText: string -> Option<string>,
    htmlText: string -> string,
    parseDate: string -> Option<DateTime>)

  /** `parse_search_results(html)`: the `__NEXT_DATA__` results if there are any, else the CSS fallback. */
  function ParseSearchResults(soup: Soup, html: string): seq<SearchResult> {
    var next := soup.nextData(html);
    if next.Some? && Truthy(next.value) && NextDataResults(next.value) != [] then NextDataResults(next.value)
    else soup.cssSearchResults(html)
  }

  /** `page_props.get("article", {}) or page_props.get("data", {})` */
  function ArticleData(data: Json): Result<Json> {
    var pp := PageProps(data);
    Or(Get(pp, "article", EmptyObject), Get(pp, "data", EmptyObject))
  }

  /** "<" in content and ">" in content */
  predicate LooksLikeHtml(s: string) {
    '<' in s && '>' in s
  }

  /** `_extract_content_from_next_data(data)`: "" on any exception and for content that is not a string. */
  function ExtractContentFromNextData(soup: Soup, data: Json): string {
    var ad := ArticleData(data);
    var content := Or(Or(Get(ad, "content", EmptyString), Get(ad, "body", EmptyString)), Get(ad, "text", EmptyString));
    if content.Err? || !Truthy(content.value) || !content.value.JStr? then ""
    else if LooksLikeHtml(content.value.s) then CleanText(soup.htmlText(content.value.s))
    else CleanText(content.value.s)
  }

  /** `_extract_date_from_next_data(data)` */
  function ExtractDateFromNextData(soup: Soup, data: Json): Option<DateTime> {
    var ad := ArticleData(data);
    var dateStr := Or(Or(Or(Get(ad, "publishedAt", EmptyString), Get(ad, "published_at", EmptyString)),
                         Get(ad, "datePublished", EmptyString)),
                      Get(ad, "inputDate", EmptyString));
    if dateStr.Err? || !Truthy(dateStr.value) || !dateStr.value.JStr? then None
    else soup.parseDate(dateStr.value.s)
  }

  /** The content and date found in `__NEXT_DATA__`, when the script parsed to a truthy value. */
  function NextDataContent(soup: Soup, html: string): string {
    var next := soup.nextData(html);
    if next.Some? && Truthy(next.value) then ExtractContentFromNextData(soup, next.value) else ""
  }

  function NextDataDate(soup: Soup, html: string): Option<DateTime> {
    var next := soup.nextData(html);
    if next.Some? && Truthy(next.value) then ExtractDateFromNextData(soup, next.value) else None
  }

  /** `extract_text_from_html(body_el)` when the body element exists, else "". */
  function CssContent(soup: Soup, html: string): string {
    var body := soup.articleBodyText(html);
    if body.Some? then CleanText(body.value) else ""
  }

  function ParseErrorMessage(url: string): string {
    "기사 본문을 추출할 수 없습니다: " + url
  }

  /** `parse_article(html, search_result, keyword)` */
  function ParseArticle(soup: Soup, html: string, sr: SearchResult, keyword: string): Result<Article> {
    var content := NextDataContent(soup, html);
    var publishedAt := NextDataDate(soup, html);
    var content' := if content == "" then CssContent(soup, html) else content;
    var publishedAt' :=
      if content == "" && publishedAt.None? && soup.dateElementText(html).Some?
      then soup.parseDate(soup.dateElementText(html).value)
      else publishedAt;
    if content' == "" then Err(Exc(ParseErrorClass, ParseErrorMessage(sr.url), None))
    else Ok(Article(sr.title, sr.url, content', ChannelName, keyword, publishedAt'))
  }

  // ---- properties ----

  /**
   * Items come from the first truthy of `searchResult.items`, `data.items`
   * and `articles`: a falsy value (missing, null, "", 0, [] or {}) falls
   * through to the next, and an exception while evaluating one is raised.
   */
  lemma ItemsPrecedence(data: Json)
    ensures var pp := PageProps(data);
      var a := Get(Get(pp, "searchResult", EmptyObject), "items", EmptyList);
      var b := Get(Get(pp, "data", EmptyObject), "items", EmptyList);
      var c := Get(pp, "articles", EmptyList);
      && (a.Err? ==> Items(data) == a)
      && (a.Ok? && Truthy(a.value) ==> Items(data) == a)
      && (a.Ok? && !Truthy(a.value) && b.Err? ==> Items(data) == b)
      && (a.Ok? && !Truthy(a.value) && b.Ok? && Truthy(b.value) ==> Items(data) == b)
      && (a.Ok? && !Truthy(a.value) && b.Ok? && !Truthy(b.value) ==> Items(data) == c)
  {
  }

  /**
   * The same order on a concrete page: a non-empty `searchResult.items` wins;
   * an absent `searchResult`, or one whose `items` is absent or empty, falls
   * through to `data.items`; and then to `articles`.
   */
  lemma ItemsPrecedenceOnPage(pageProps: seq<(string, Json)>, xs: seq<Json>)
    requires xs != []
    ensures var data := JObject([("props", JObject([("pageProps", JObject(pageProps))]))]);
      && (Lookup(pageProps, "searchResult") == Some(JObject([("items", JList(xs))])) ==>
            Items(data) == Ok(JList(xs)))
      && (Lookup(pageProps, "searchResult") == None && Lookup(pageProps, "data") == Some(JObject([("items", JList(xs))])) ==>
            Items(data) == Ok(JList(xs)))
      && (Lookup(pageProps, "searchResult") == None && Lookup(pageProps, "data") == None &&
          Lookup(pageProps, "articles") == Some(JList(xs)) ==>
            Items(data) == Ok(JList(xs)))
      && (Lookup(pageProps, "searchResult") == Some(JObject([("items", JList([]))])) &&
          Lookup(pageProps, "data") == Some(JObject([("items", JList(xs))])) ==>
            Items(data) == Ok(JList(xs)))
      && (Lookup(pageProps, "searchResult") == Some(EmptyObject) &&
          Lookup(pageProps, "data") == Some(JObject([("items", JList(xs))])) ==>
            Items(data) == Ok(JList(xs)))
      && (Lookup(pageProps, "searchResult") == Some(JObject([("items", JList([]))])) &&
          Lookup(pageProps, "data") == Some(JObject([("items", JList([]))])) &&
          Lookup(pageProps, "articles") == Some(JList(xs)) ==>
            Items(data) == Ok(JList(xs)))
  {
  }

  /**
   * A dict item with a string title is skipped exactly when its stripped
   * title is empty or its `url or link` is falsy.
   */
  lemma ItemSkipRule(item: Json)
    requires item.JObject?
    requires PyGet(item, "title", EmptyString).value.JStr?
    ensures var title := Strip(PyGet(item, "title", EmptyString).value.s);
      var u := Or(PyGet(item, "url", EmptyString), PyGet(item, "link", EmptyString));
      ItemOutcome(item) == Ok(None) <==> (title == [] || !Truthy(u.value))
  {
    var u := Or(PyGet(item, "url", EmptyString), PyGet(item, "link", EmptyString));
    var sn := Or(PyGet(item, "description", EmptyString), PyGet(item, "snippet", EmptyString));
    assert u.Ok? && sn.Ok?;
  }

  /**
   * A kept item: its title is the cleaned, stripped `title`, which is not
   * empty; its url is `url`, else `link`, a non-empty string made absolute
   * when it starts with "/"; its snippet is the cleaned `description`, else
   * `snippet`.
   */
  lemma KeptItemFields(item: Json)
    requires ItemOutcome(item).Ok? && ItemOutcome(item).value.Some?
    ensures var r := ItemOutcome(item).value.value;
      var u := Or(PyGet(item, "url", EmptyString), PyGet(item, "link", EmptyString)).value;
      var sn := Or(PyGet(item, "description", EmptyString), PyGet(item, "snippet", EmptyString)).value;
      && item.JObject? && PyGet(item, "title", EmptyString).value.JStr? && u.JStr? && sn.JStr?
      && Strip(PyGet(item, "title", EmptyString).value.s) != []
      && r.title == CleanText(Strip(PyGet(item, "title", EmptyString).value.s))
      && u.s != [] && r.url == Absolute(u.s)
      && r.snippet == CleanText(sn.s)
  {
  }

  /** Every result has a non-empty, already clean title, a non-empty url that is not relative, and a clean snippet. */
  predicate WellFormedResult(r: SearchResult) {
    && r.title != [] && CleanText(r.title) == r.title
    && r.url != [] && r.url[0] != '/'
    && CleanText(r.snippet) == r.snippet
  }

  /** A non-empty url stays non-empty and does not start with "/" once made absolute. */
  lemma AbsoluteShape(url: string)
    requires url != []
    ensures Absolute(url) != [] && Absolute(url)[0] != '/'
  {
    if StartsWith(url, "/") {
      if StartsWith(url, "//") {
        assert Absolute(url)[0] == "https:"[0];
      } else {
        assert Absolute(url)[0] == BaseUrl[0];
      }
    } else {
      assert url[..1] != "/";
      assert url[0] != '/';
    }
  }

  /** Cleaning a stripped, non-empty title gives non-empty clean text. */
  lemma CleanTitle(rawTitle: string)
    requires Strip(rawTitle) != []
    ensures CleanText(Strip(rawTitle)) != [] && CleanText(CleanText(Strip(rawTitle))) == CleanText(Strip(rawTitle))
  {
    var title := Strip(rawTitle);
    StripShape(rawTitle);
    assert !AllSpace(title) by {
      assert !IsSpace(title[0]);
    }
    CleanTextEmptyIffBlank(title);
    CleanTextIdempotent(title);
  }

  lemma MadeResultWellFormed(rawTitle: string, url: string, snippet: string)
    requires Strip(rawTitle) != [] && url != []
    ensures WellFormedResult(SearchResult(CleanText(Strip(rawTitle)), Absolute(url), CleanText(snippet)))
  {
    CleanTitle(rawTitle);
    AbsoluteShape(url);
    CleanTextIdempotent(snippet);
  }

  lemma KeptItemWellFormed(item: Json)
    requires ItemOutcome(item).Ok? && ItemOutcome(item).value.Some?
    ensures WellFormedResult(ItemOutcome(item).value.value)
  {
    KeptItemFields(item);
    var u := Or(PyGet(item, "url", EmptyString), PyGet(item, "link", EmptyString)).value;
    var sn := Or(PyGet(item, "description", EmptyString), PyGet(item, "snippet", EmptyString)).value;
    MadeResultWellFormed(PyGet(item, "title", EmptyString).value.s, u.s, sn.s);
  }

  predicate AllWellFormed(rs: seq<SearchResult>) {
    rs == [] || (WellFormedResult(rs[0]) && AllWellFormed(rs[1..]))
  }

  lemma {:induction false} KeptUntilErrorWellFormed(items: seq<Json>)
    ensures AllWellFormed(KeptUntilError(items))
  {
    if items != [] {
      KeptUntilErrorWellFormed(items[1..]);
      var outcome := ItemOutcome(items[0]);
      if outcome.Ok? && outcome.value.Some? {
        KeptItemWellFormed(items[0]);
        assert KeptUntilError(items) == [outcome.value.value] + KeptUntilError(items[1..]);
        assert ([outcome.value.value] + KeptUntilError(items[1..]))[1..] == KeptUntilError(items[1..]);
      }
    }
  }

  /** What `_parse_search_results_from_next_data` returns is well formed, and at most one result per item. */
  lemma NextDataResultsWellFormed(data: Json)
    ensures AllWellFormed(NextDataResults(data))
  {
    var items := Items(data);
    if items.Ok? && Iterate(items.value).Ok? {
      KeptUntilErrorWellFormed(Iterate(items.value).value);
    }
  }

  /**
   * Order is kept: the results for `a + b`, when no item of `a` raises, are
   * those of `a` followed by those of `b`; an item that raises ends the list.
   */
  lemma {:induction false} KeptUntilErrorConcat(a: seq<Json>, b: seq<Json>)
    requires forall k :: 0 <= k < |a| ==> ItemOutcome(a[k]).Ok?
    ensures KeptUntilError(a + b) == KeptUntilError(a) + KeptUntilError(b)
    ensures |KeptUntilError(a)| <= |a|
  {
    if a == [] {
      assert a + b == b;
    } else {
      assert (a + b)[1..] == a[1..] + b;
      KeptUntilErrorConcat(a[1..], b);
    }
  }

  lemma KeptUntilErrorStops(a: seq<Json>, x: Json, b: seq<Json>)
    requires ItemOutcome(x).Err?
    requires forall k :: 0 <= k < |a| ==> ItemOutcome(a[k]).Ok?
    ensures KeptUntilError(a + [x] + b) == KeptUntilError(a)
  {
    KeptUntilErrorConcat(a, [x] + b);
    assert a + [x] + b == a + ([x] + b);
  }

  /** `parse_search_results` prefers non-empty `__NEXT_DATA__` results and otherwise returns the CSS fallback unchanged. */
  lemma ParseSearchResultsSelection(soup: Soup, html: string)
    ensures var next := soup.nextData(html);
      if next.Some? && Truthy(next.value) && NextDataResults(next.value) != []
      then ParseSearchResults(soup, html) == NextDataResults(next.value) && ParseSearchResults(soup, html) != []
      else ParseSearchResults(soup, html) == soup.cssSearchResults(html)
  {
  }

  /** The content `_extract_content_from_next_data` returns is already clean text. */
  lemma NextDataContentIsClean(soup: Soup, data: Json)
    ensures CleanText(ExtractContentFromNextData(soup, data)) == ExtractContentFromNextData(soup, data)
  {
    var ad := ArticleData(data);
    var content := Or(Or(Get(ad, "content", EmptyString), Get(ad, "body", EmptyString)), Get(ad, "text", EmptyString));
    if content.Ok? && Truthy(content.value) && content.value.JStr? {
      CleanTextIdempotent(soup.htmlText(content.value.s));
      CleanTextIdempotent(content.value.s);
    } else {
      CleanTextEmptyIffBlank("");
    }
  }

  /**
   * `parse_article` raises ParseError (a CrawlerError, so the crawl loop
   * records it) exactly when neither `__NEXT_DATA__` nor the article body
   * gives non-empty content; the message names the article's url.
   */
  lemma ParseArticleFailsIffNoContent(soup: Soup, html: string, sr: SearchResult, keyword: string)
    ensures ParseArticle(soup, html, sr, keyword).Err? <==>
      (NextDataContent(soup, html) == "" && CssContent(soup, html) == "")
    ensures ParseArticle(soup, html, sr, keyword).Err? ==>
      && ParseArticle(soup, html, sr, keyword).error.cls == ParseErrorClass
      && IsCrawlerError(ParseArticle(soup, html, sr, keyword).error)
      && ParseArticle(soup, html, sr, keyword).error.message == ParseErrorMessage(sr.url)
  {
  }

  /**
   * A parsed article copies title and url from the search result, carries
   * channel "chosun" and the keyword passed in, and its content is
   * non-empty clean text, from `__NEXT_DATA__` when that gave any.
   */
  lemma ParseArticleFields(soup: Soup, html: string, sr: SearchResult, keyword: string)
    requires ParseArticle(soup, html, sr, keyword).Ok?
    ensures var a := ParseArticle(soup, html, sr, keyword).value;
      && a.title == sr.title && a.url == sr.url
      && a.channel == "chosun" && a.keyword == keyword
      && a.content != "" && CleanText(a.content) == a.content
      && (NextDataContent(soup, html) != "" ==> a.content == NextDataContent(soup, html))
      && a.metadata == map[]
  {
    var next := soup.nextData(html);
    if next.Some? && Truthy(next.value) {
      NextDataContentIsClean(soup, next.value);
    }
    var body := soup.articleBodyText(html);
    if body.Some? {
      CleanTextIdempotent(body.value);
    }
  }
}
