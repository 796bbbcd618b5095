/** The web API (api/main.py): `/summarize-news`, which fetches a ticker's
    articles and summarises each one that has text, and `/news`, which
    returns the articles as they are.

    The fetcher call `news_fetcher.get_ticker_news(ticker, count=...)` is a
    parameter returning either the articles or the text of the exception it
    raised; the summariser model is the function `summarize`. */
module Api {
  import opened Common
  import opened Schemas
  import NewsFetcher

  /** A handler's outcome: the response body, or an `HTTPException`. */
  datatype HttpResult<T> = Ok(body: T) | HttpError(status: int, detail: string)

  const InternalServerError: int := 500
  const NotFound: int := 404
  const FetchFailedPrefix: string := "Failed to fetch news: "
  const NoNewsDetail: string := "No news found for ticker."

  /** The text an article is summarised from: its summary when truthy,
      otherwise its title when truthy, otherwise empty. */
  function BestText(a: Article): (text: string)
    ensures Truthy(a.summary) ==> text == a.summary.value
    ensures !Truthy(a.summary) && Truthy(a.title) ==> text == a.title.value
    ensures text == "" <==> !Truthy(a.summary) && !Truthy(a.title)
  {
    OrElse(Or(a.summary, a.title), "")
  }

  /** The summary item of an article: its title and link, an empty string
      standing for a missing one, and the summary text. */
  function SummaryItem(a: Article, summary: string): (item: SummarizedNewsItem)
    ensures a.title.Some? ==> item.title == a.title.value
    ensures a.title.None? ==> item.title == ""
    ensures a.link.Some? ==> item.url == a.link.value
    ensures a.link.None? ==> item.url == ""
    ensures item.summary == summary
  {
    SummarizedNewsItem(
      if a.title.Some? then a.title.value else "",
      summary,
      if a.link.Some? then a.link.value else "")
  }

  /** The summary item as api/main.py builds it: `item.get('title', '')`
      yields `None` for an article whose title key holds `None`, and the
      response model, which requires a string, then rejects the item;
      likewise for the link. `None` here is that rejection. */
  function SummaryItemAsWritten(a: Article, summary: string): (item: Option<SummarizedNewsItem>)
    ensures item.Some? <==> a.title.Some? && a.link.Some?
    ensures item.Some? ==> item.value == SummaryItem(a, summary)
  {
    if a.title.Some? && a.link.Some? then Some(SummarizedNewsItem(a.title.value, summary, a.link.value)) else None
  }

  /** An article from a feed entry without a title still has a summary to
      work from, so it is summarised; as written its item is then rejected,
      while the corrected item carries an empty title. */
  lemma UntitledArticleRejected(summarize: string -> string)
    ensures var a := Article(None, Some("https://finance.yahoo.com/news/x"), Some("Shares rose."), NotRequested);
      && BestText(a) == "Shares rose."
      && SummaryItemAsWritten(a, summarize(BestText(a))).None?
      && SummaryItem(a, summarize(BestText(a))).title == ""
  {
  }

  /** What one article contributes: nothing when it has no text, otherwise
      its summary item. */
  function SummaryOf(a: Article, summarize: string -> string): Option<SummarizedNewsItem> {
    if BestText(a) == "" then None else Some(SummaryItem(a, summarize(BestText(a))))
  }

  /** The text one article hands to the summariser, if any. */
  function InputOf(a: Article): Option<string> {
    if BestText(a) == "" then None else Some(BestText(a))
  }

  function SummaryOfEach(news: seq<Article>, summarize: string -> string): (r: seq<Option<SummarizedNewsItem>>)
    ensures |r| == |news|
  {
    seq(|news|, i requires 0 <= i < |news| => SummaryOf(news[i], summarize))
  }

  function InputOfEach(news: seq<Article>): (r: seq<Option<string>>)
    ensures |r| == |news|
  {
    seq(|news|, i requires 0 <= i < |news| => InputOf(news[i]))
  }

  /** The summaries of the articles, in order, one per article with text. */
  function Summaries(news: seq<Article>, summarize: string -> string): seq<SummarizedNewsItem> {
    Somes(SummaryOfEach(news, summarize))
  }

  /** The texts handed to the summariser, in call order. */
  function SummarizerInputs(news: seq<Article>): seq<string> {
    Somes(InputOfEach(news))
  }

  /** The reference result of `summarize_news` for what the fetcher gave. */
  function SummarizeResult(ticker: string, fetched: Result<seq<Article>, string>, summarize: string -> string)
    : HttpResult<SummarizedNewsResponse>
  {
    match fetched
    case Failure(e) => HttpError(InternalServerError, FetchFailedPrefix + e)
    case Success(news) =>
      if news == [] then HttpError(NotFound, NoNewsDetail)
      else Ok(SummarizedNewsResponse(ticker, Summaries(news, summarize)))
  }

  /** The body of the 500 response for an exception the handler does not
      catch. */
  const UnhandledDetail: string := "Internal Server Error"

  /** An article that is summarised but whose item, as written, the response
      model rejects. */
  predicate RejectedAsWritten(a: Article, summarize: string -> string) {
    BestText(a) != "" && SummaryItemAsWritten(a, summarize(BestText(a))).None?
  }

  /** The outcome of `summarize_news` as written: like the corrected
      `SummarizeResult`, except that an article with text but without a title
      or link makes building its item raise a validation error, which escapes
      the handler as a 500. */
  function SummarizeResultAsWritten(ticker: string, fetched: Result<seq<Article>, string>, summarize: string -> string)
    : HttpResult<SummarizedNewsResponse>
  {
    match fetched
    case Failure(e) => HttpError(InternalServerError, FetchFailedPrefix + e)
    case Success(news) =>
      if news == [] then HttpError(NotFound, NoNewsDetail)
      else if exists i :: 0 <= i < |news| && RejectedAsWritten(news[i], summarize) then
        HttpError(InternalServerError, UnhandledDetail)
      else Ok(SummarizedNewsResponse(ticker, Summaries(news, summarize)))
  }

  /** Some article has text to summarise but lacks a title or a link. */
  predicate HasUnlabelledText(news: seq<Article>) {
    exists i :: 0 <= i < |news| && BestText(news[i]) != "" && (news[i].title.None? || news[i].link.None?)
  }

  /** The handler as written agrees with the corrected one except when some
      article has text but lacks a title or a link; then it answers 500 where
      the corrected one answers with the summaries. So as written a 500 comes
      exactly from a raising fetcher or such an article. */
  lemma AsWrittenDiffersOnUntitled(ticker: string, fetched: Result<seq<Article>, string>, summarize: string -> string)
    ensures var bad := fetched.Success? && HasUnlabelledText(fetched.value);
      && (SummarizeResultAsWritten(ticker, fetched, summarize) != SummarizeResult(ticker, fetched, summarize) <==> bad)
      && (bad ==> SummarizeResult(ticker, fetched, summarize).Ok?)
      && (var r := SummarizeResultAsWritten(ticker, fetched, summarize);
          r.HttpError? && r.status == InternalServerError <==> fetched.Failure? || bad)
  {
    if fetched.Success? {
      var news := fetched.value;
      forall i | 0 <= i < |news|
        ensures RejectedAsWritten(news[i], summarize) <==>
          BestText(news[i]) != "" && (news[i].title.None? || news[i].link.None?)
      {
      }
    }
  }

  /** `summarize_news`: fetch, map a failure to 500 and an empty list to
      404, then summarise every article with text, skipping the others.
      `requested` is the sequence of texts the summariser was called on. */
  method SummarizeNews(ticker: string, maxArticles: int,
                       fetchNews: (string, int) -> Result<seq<Article>, string>,
                       summarize: string -> string)
    returns (response: HttpResult<SummarizedNewsResponse>, requested: seq<string>)
    ensures response == SummarizeResult(ticker, fetchNews(ticker, maxArticles), summarize)
    ensures requested == if fetchNews(ticker, maxArticles).Success? then SummarizerInputs(fetchNews(ticker, maxArticles).value) else []
  {
    requested := [];
    var fetched := fetchNews(ticker, maxArticles);
    if fetched.Failure? {
      return HttpError(InternalServerError, FetchFailedPrefix + fetched.error), requested;
    }
    var newsItems := fetched.value;
    if newsItems == [] {
      return HttpError(NotFound, NoNewsDetail), requested;
    }
    ghost var outs, ins := SummaryOfEach(newsItems, summarize), InputOfEach(newsItems);
    var summaries := [];
    for i := 0 to |newsItems|
      invariant summaries == Somes(outs[..i])
      invariant requested == Somes(ins[..i])
    {
      assert outs[..i + 1][..i] == outs[..i];
      assert ins[..i + 1][..i] == ins[..i];
      var item := newsItems[i];
      var text := OrElse(Or(item.summary, item.title), "");
      if text == "" {
        continue;
      }
      var summary := summarize(text);
      requested := requested + [text];
      summaries := summaries + [SummaryItem(item, summary)];
    }
    assert outs[..|newsItems|] == outs && ins[..|newsItems|] == ins;
    response := Ok(SummarizedNewsResponse(ticker, summaries));
  }

  /** `get_news`: the fetched articles under the requested ticker, or 500
      when the fetcher raises. */
  function GetNews(ticker: string, fetched: Result<seq<Article>, string>): (r: HttpResult<NewsResponse>)
    ensures r.HttpError? <==> fetched.Failure?
    ensures fetched.Failure? ==> r.status == InternalServerError && r.detail == FetchFailedPrefix + fetched.error
    ensures r.Ok? ==> r.body.ticker == ticker && r.body.news == fetched.value
  {
    match fetched
    case Failure(e) => HttpError(InternalServerError, FetchFailedPrefix + e)
    case Success(news) => Ok(NewsResponse(ticker, news))
  }

  /** 404 exactly when the fetcher returns no articles, 500 exactly when it
      raises (with its message after the prefix), and otherwise a response
      for the requested ticker. */
  lemma StatusMapping(ticker: string, fetched: Result<seq<Article>, string>, summarize: string -> string)
    ensures var r := SummarizeResult(ticker, fetched, summarize);
      && (r.HttpError? && r.status == NotFound <==> fetched == Success([]))
      && (r.HttpError? && r.status == InternalServerError <==> fetched.Failure?)
      && (fetched.Failure? ==> r.detail == FetchFailedPrefix + fetched.error)
      && (r.Ok? ==> r.body.ticker == ticker)
  {
  }

  /** Summarising two runs of articles gives the summaries of the first run
      followed by those of the second, and the summariser sees the texts of
      the first run before those of the second: output order is input order. */
  lemma SummariesAppend(a: seq<Article>, b: seq<Article>, summarize: string -> string)
    ensures Summaries(a + b, summarize) == Summaries(a, summarize) + Summaries(b, summarize)
    ensures SummarizerInputs(a + b) == SummarizerInputs(a) + SummarizerInputs(b)
  {
    assert SummaryOfEach(a + b, summarize) == SummaryOfEach(a, summarize) + SummaryOfEach(b, summarize);
    assert InputOfEach(a + b) == InputOfEach(a) + InputOfEach(b);
    SomesAppend(SummaryOfEach(a, summarize), SummaryOfEach(b, summarize));
    SomesAppend(InputOfEach(a), InputOfEach(b));
  }

  /** One article: skipped, and never summarised, exactly when it has
      neither summary nor title; otherwise summarised from its best text. */
  lemma SummaryOfOne(a: Article, summarize: string -> string)
    ensures !Truthy(a.summary) && !Truthy(a.title) ==> Summaries([a], summarize) == [] && SummarizerInputs([a]) == []
    ensures Truthy(a.summary) || Truthy(a.title) ==>
      && SummarizerInputs([a]) == [BestText(a)]
      && Summaries([a], summarize) == [SummaryItem(a, summarize(BestText(a)))]
  {
    assert SummaryOfEach([a], summarize)[..0] == [];
    assert InputOfEach([a])[..0] == [];
  }

  /** The i-th summary is the summariser's answer to the i-th text it was
      given, and every text it was given is non-empty. */
  lemma {:induction false} SummariesFollowInputs(news: seq<Article>, summarize: string -> string)
    ensures |Summaries(news, summarize)| == |SummarizerInputs(news)|
    ensures forall i :: 0 <= i < |SummarizerInputs(news)| ==>
      SummarizerInputs(news)[i] != "" && Summaries(news, summarize)[i].summary == summarize(SummarizerInputs(news)[i])
  {
    if news != [] {
      var init := news[..|news| - 1];
      SummariesFollowInputs(init, summarize);
      assert SummaryOfEach(news, summarize)[..|news| - 1] == SummaryOfEach(init, summarize);
      assert InputOfEach(news)[..|news| - 1] == InputOfEach(init);
    }
  }

  /** When every article has a summary or a title, there is one summary per
      article, each carrying that article's title and link. */
  lemma AllArticlesSummarized(news: seq<Article>, summarize: string -> string)
    requires forall a :: a in news ==> BestText(a) != ""
    ensures |Summaries(news, summarize)| == |news|
    ensures forall i :: 0 <= i < |news| ==> Summaries(news, summarize)[i] == SummaryItem(news[i], summarize(BestText(news[i])))
  {
    var outs := SummaryOfEach(news, summarize);
    assert forall i :: 0 <= i < |news| ==> outs[i] == Some(SummaryItem(news[i], summarize(BestText(news[i]))));
    SomesAllPresent(outs);
  }

  /** Behind the services fetcher, which never raises, `/summarize-news`
      never answers 500, and answers 404 exactly when the ticker's feed
      cannot be read or has no entries within `maxArticles`. */
  lemma ServicesFetcherStatuses(ticker: string, maxArticles: int, web: NewsFetcher.Web, summarize: string -> string)
    ensures var feed := web.feeds(NewsFetcher.TickerFeedUrl(ticker));
      var r := SummarizeResult(ticker, Success(NewsFetcher.TickerNews(ticker, maxArticles, false, web)), summarize);
      && !(r.HttpError? && r.status == InternalServerError)
      && (r.HttpError? <==> feed.None? || SliceTo(feed.value, maxArticles) == [])
  {
    var feed := web.feeds(NewsFetcher.TickerFeedUrl(ticker));
    if feed.Some? {
      NewsFetcher.HeadlinesWithoutContent(ticker, maxArticles, web, feed.value);
    }
  }
}
