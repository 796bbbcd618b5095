/** The services client (services/news_fetcher.py): the retry loops, the
    per-ticker feed URL, and `get_ticker_news`, which reads the ticker's feed
    and, on request, fetches every article page and extracts its content. */
module NewsFetcher {
  import opened Common
  import opened Backoff
  import opened Schemas

  const DefaultCount: int := 10
  const DefaultMaxArticles: int := 5

  const TickerUrlHead: string := "https://feeds.finance.yahoo.com/rss/2.0/headline?s="
  const TickerUrlTail: string := "&region=US&lang=en-US"

  /** A format string as `str.format` reads it: literal text and named
      replacement fields. */
  datatype FormatPiece = Literal(text: string) | Field(name: string)

  /** The ticker-news entry of RSS_URLS, "...?s={ticker}&region=US&lang=en-US". */
  const TickerNewsTemplate: seq<FormatPiece> := [Literal(TickerUrlHead), Field("ticker"), Literal(TickerUrlTail)]

  /** `template.format(**args)`: every field replaced by its argument;
      nothing (a KeyError) when some field has no argument. */
  function Format(template: seq<FormatPiece>, args: map<string, string>): (r: Option<string>)
    ensures r.Some? <==> forall i :: 0 <= i < |template| && template[i].Field? ==> template[i].name in args
  {
    if template == [] then Some("")
    else
      var rest := Format(template[1..], args);
      match template[0]
      case Literal(text) => if rest.Some? then Some(text + rest.value) else None
      case Field(name) => if name in args && rest.Some? then Some(args[name] + rest.value) else None
  }

  /** The feed URL of a ticker: the template with `{ticker}` substituted. */
  function TickerFeedUrl(ticker: string): (url: string)
    ensures url == TickerUrlHead + ticker + TickerUrlTail
  {
    var args := map["ticker" := ticker];
    var t := TickerNewsTemplate;
    assert t[1..][1..][1..] == [];
    assert Format(t[1..][1..], args) == Some(TickerUrlTail + "");
    assert Format(t[1..], args) == Some(ticker + (TickerUrlTail + ""));
    assert TickerUrlTail + "" == TickerUrlTail;
    Format(t, args).value
  }

  /** Different tickers are fetched from different URLs. */
  lemma TickerFeedUrlInjective(a: string, b: string)
    requires TickerFeedUrl(a) == TickerFeedUrl(b)
    ensures a == b
  {
    var u := TickerFeedUrl(a);
    assert |a| == |b|;
    assert a == u[|TickerUrlHead|..|TickerUrlHead| + |a|];
    assert b == u[|TickerUrlHead|..|TickerUrlHead| + |b|];
  }

  /** `fetch_rss`: the retry loop backing off on 429 only; the body of a
      successful response is the parsed feed. */
  method FetchRss(network: nat -> Attempt<Feed>) returns (feed: Option<Feed>, requests: nat, waits: seq<real>)
    ensures Trace(feed, requests, waits) == Fetch(FeedRetryStatuses, network)
  {
    feed, requests, waits := FetchWithRetry(FeedRetryStatuses, network);
  }

  /** `fetch_page`: the retry loop backing off on 429 and 503; the body of a
      successful response is the page text. */
  method FetchPage(network: nat -> Attempt<string>) returns (page: Option<string>, requests: nat, waits: seq<real>)
    ensures Trace(page, requests, waits) == Fetch(PageRetryStatuses, network)
  {
    page, requests, waits := FetchWithRetry(PageRetryStatuses, network);
  }

  /** What `get_content_from_html` makes of a page: the stripped text of the
      first block of the content class, no such block, or an exception. */
  datatype Extraction = Block(text: string) | NoBlock | ParserFailure

  /** The collaborators of `get_ticker_news`: the feed parser reading a URL
      (`None` when it raises), the network seen by the page fetch of the
      i-th article, and the HTML content extractor. */
  datatype Web = Web(
    feeds: string -> Option<Feed>,
    pages: nat -> nat -> Attempt<string>,
    extract: string -> Extraction)

  /** What the loop body makes of the i-th entry: its article, or nothing
      when the article is skipped. */
  function ProcessEntry(e: FeedEntry, i: nat, withContent: bool, web: Web): (r: Option<Article>)
    ensures !withContent ==> r == Some(Headline(e))
    ensures withContent ==>
      var page := Fetch(PageRetryStatuses, web.pages(i)).result;
      (r.Some? <==> Truthy(page) && !web.extract(page.value).ParserFailure?)
    ensures withContent && r.Some? ==>
      var page := Fetch(PageRetryStatuses, web.pages(i)).result;
      var x := web.extract(page.value);
      r.value == Headline(e).(content := Extracted(if x.Block? then Some(x.text) else None))
  {
    if !withContent then Some(Headline(e))
    else
      var page := Fetch(PageRetryStatuses, web.pages(i)).result;
      if !Truthy(page) then None
      else match web.extract(page.value)
        case ParserFailure => None
        case NoBlock => Some(Headline(e).(content := Extracted(None)))
        case Block(text) => Some(Headline(e).(content := Extracted(Some(text))))
  }

  function Processed(items: Feed, withContent: bool, web: Web): (ps: seq<Option<Article>>)
    ensures |ps| == |items|
  {
    seq(|items|, i requires 0 <= i < |items| => ProcessEntry(items[i], i, withContent, web))
  }

  /** The reference result of `get_ticker_news`: the kept articles of the
      first `count` entries of the ticker's feed, in feed order. */
  function TickerNews(ticker: string, count: int, withContent: bool, web: Web): seq<Article> {
    match web.feeds(TickerFeedUrl(ticker))
    case None => []
    case Some(entries) => Somes(Processed(SliceTo(entries, count), withContent, web))
  }

  /** `get_ticker_news`: read the feed (once, no retry), truncate it to
      `count` entries, and build one article per entry; with content, an
      entry whose page cannot be fetched, or whose extraction raises, is
      skipped. */
  method GetTickerNews(ticker: string, count: int, withContent: bool, web: Web) returns (result: seq<Article>)
    ensures result == TickerNews(ticker, count, withContent, web)
  {
    var url := TickerFeedUrl(ticker);
    var feed := web.feeds(url);
    if feed.None? {
      return [];
    }
    var items := SliceTo(feed.value, count);
    ghost var processed := Processed(items, withContent, web);
    result := [];
    for i := 0 to |items|
      invariant result == Somes(processed[..i])
    {
      assert processed[..i + 1][..i] == processed[..i];
      var article := Headline(items[i]);
      if withContent {
        var page, requests, waits := FetchPage(web.pages(i));
        if page.None? || page.value == "" {
          continue;
        }
        var extraction := web.extract(page.value);
        if extraction.ParserFailure? {
          continue;
        }
        article := article.(content := Extracted(if extraction.Block? then Some(extraction.text) else None));
      }
      result := result + [article];
    }
    assert processed[..|items|] == processed;
  }

  /** `fetch_news`: the ticker's articles without content. */
  method FetchNews(ticker: string, maxArticles: int, web: Web) returns (result: seq<Article>)
    ensures result == TickerNews(ticker, maxArticles, false, web)
  {
    result := GetTickerNews(ticker, maxArticles, false, web);
  }

  /** At most `count` articles, never more than the feed has entries, and
      none when the feed cannot be read. */
  lemma TickerNewsBounded(ticker: string, count: int, withContent: bool, web: Web)
    ensures var r := TickerNews(ticker, count, withContent, web);
      && (0 <= count ==> |r| <= count)
      && (count == 0 ==> r == [])
      && (web.feeds(TickerFeedUrl(ticker)).None? ==> r == [])
      && (web.feeds(TickerFeedUrl(ticker)).Some? ==> |r| <= |web.feeds(TickerFeedUrl(ticker)).value|)
  {
  }

  /** Without content, every one of the first `count` entries gives one
      article, in feed order, with its title, link and summary copied. */
  lemma HeadlinesWithoutContent(ticker: string, count: int, web: Web, entries: Feed)
    requires web.feeds(TickerFeedUrl(ticker)) == Some(entries)
    ensures var r := TickerNews(ticker, count, false, web);
      && |r| == |SliceTo(entries, count)|
      && forall i :: 0 <= i < |r| ==> r[i] == Headline(entries[i])
  {
    SomesAllPresent(Processed(SliceTo(entries, count), false, web));
  }

  /** With content, an article that is skipped costs only itself: the
      articles before it and after it are exactly those of their own entries. */
  lemma SkippedArticleIsolated(ticker: string, count: int, web: Web, entries: Feed, k: nat)
    requires web.feeds(TickerFeedUrl(ticker)) == Some(entries)
    requires k < |SliceTo(entries, count)|
    requires ProcessEntry(SliceTo(entries, count)[k], k, true, web).None?
    ensures var ps := Processed(SliceTo(entries, count), true, web);
      TickerNews(ticker, count, true, web) == Somes(ps[..k]) + Somes(ps[k + 1..])
  {
    SomesSkip(Processed(SliceTo(entries, count), true, web), k);
  }

  /** With content, if exactly one of the first `count` articles fails its
      page fetch and every other page is fetched and parsed, one article
      fewer than the truncated feed comes back. */
  lemma OneFailedPage(ticker: string, count: int, web: Web, entries: Feed, k: nat)
    requires web.feeds(TickerFeedUrl(ticker)) == Some(entries)
    requires k < |SliceTo(entries, count)|
    requires !Truthy(Fetch(PageRetryStatuses, web.pages(k)).result)
    requires forall i :: 0 <= i < |SliceTo(entries, count)| && i != k ==>
      var page := Fetch(PageRetryStatuses, web.pages(i)).result;
      Truthy(page) && !web.extract(page.value).ParserFailure?
    ensures |TickerNews(ticker, count, true, web)| == |SliceTo(entries, count)| - 1
  {
    SomesOneAbsent(Processed(SliceTo(entries, count), true, web), k);
  }

  /** A fetched page without a content block keeps its article, whose
      content is then `None`. */
  lemma MissingBlockKeepsArticle(e: FeedEntry, i: nat, web: Web)
    requires Truthy(Fetch(PageRetryStatuses, web.pages(i)).result)
    requires web.extract(Fetch(PageRetryStatuses, web.pages(i)).result.value) == NoBlock
    ensures ProcessEntry(e, i, true, web) == Some(Article(e.title, e.link, e.summary, Extracted(None)))
  {
  }

  /** The default calls: `get_ticker_news(ticker)` returns at most
      `DefaultCount` articles, and `fetch_news(ticker)` (the default
      `max_articles`) at most `DefaultMaxArticles` headlines, one per entry
      of the feed's first five. */
  lemma DefaultCallsBounded(ticker: string, withContent: bool, web: Web)
    ensures |TickerNews(ticker, DefaultCount, withContent, web)| <= DefaultCount
    ensures |TickerNews(ticker, DefaultMaxArticles, false, web)| <= DefaultMaxArticles
    ensures web.feeds(TickerFeedUrl(ticker)).Some? ==>
      |TickerNews(ticker, DefaultMaxArticles, false, web)| == |SliceTo(web.feeds(TickerFeedUrl(ticker)).value, DefaultMaxArticles)|
  {
    TickerNewsBounded(ticker, DefaultCount, withContent, web);
    TickerNewsBounded(ticker, DefaultMaxArticles, false, web);
    if web.feeds(TickerFeedUrl(ticker)).Some? {
      HeadlinesWithoutContent(ticker, DefaultMaxArticles, web, web.feeds(TickerFeedUrl(ticker)).value);
    }
  }
}
