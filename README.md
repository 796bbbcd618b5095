# Portfolio news monitoring agent — a Dafny model of its news core

This project models the news-gathering core of the portfolio news monitoring
agent:

- **the two Yahoo Finance clients.** The first is the one in
  `services/news_fetcher.py`, used by the web API. The second is the data-layer
  client in `data/yahoo_finance.py`. Both have retry loops with exponential
  back-off on HTTP 429 (and on 503 for pages). Both read RSS feeds into article
  records. The data-layer client also normalises feed entries and digs the news
  stream out of the JSON state embedded in a quote page.
- **the chat client's ticker picker.** In `services/chat.py`, it lists a
  ticker catalog in a system prompt, assembles the chat request, and reads the
  model's comma-separated reply back into catalog symbols.
- **the web API handlers.** These are `/summarize-news` and `/news` in
  `api/main.py`. The first maps fetcher failures to 500 and an empty result to
  404, then summarises every article that has text.

Everything outside the process is a parameter. These are the HTTP replies per
attempt, the jitter draws, the feed parser, the HTML content extractor, the
JSON extractor, the timestamp formatter, the chat-completion endpoint and the
summariser model.

Each loop of the source is a method. Each method is proved against a
loop-free reference function:

- `Backoff.FetchWithRetry` against `Backoff.Fetch`.
- `NewsFetcher.GetTickerNews` against `NewsFetcher.TickerNews`.
- `YahooFinance.ParseTickerJson` against `YahooFinance.TickerJson`.
- `Api.SummarizeNews` against `Api.SummarizeResult`.

The properties the code promises are lemmas about those reference functions.

Modules, one per file:

| file | module | models |
|---|---|---|
| common.dfy | `Common` | Python semantics the core relies on: `Option`/`Result`, truthiness and `or`, `str.strip`, `str.upper`, `str.split`/`join` on one character, slicing with negative bounds, decimal `str(n)` |
| backoff.dfy | `Backoff` | the retry loop shared by every `fetch_rss`/`fetch_page` |
| schemas.dfy | `Schemas` | feed entries, article records, API response records (`models/schemas.py`) |
| news_fetcher.dfy | `NewsFetcher` | `services/news_fetcher.py` |
| yahoo_finance.dfy | `YahooFinance` | `data/yahoo_finance.py` |
| chat.dfy | `Chat` | `services/chat.py` |
| api.dfy | `Api` | `api/main.py` |

Facts about the code that the model keeps:

- Articles carry no "partial" flag.
- There is no aggregation orchestrator, no deadline and no concurrency. Every
  loop is sequential.
- The services client reads the ticker feed with one un-retried parser call.
  It does not go through the retry loop.
- A fetched page without a content block keeps its article, with content
  `None`. It is not dropped.
- `/summarize-news` summarises from summary-else-title. It does not use the
  article content.

## Model

| member | source | states |
|---|---|---|
| Backoff.FirstStop | services/news_fetcher.py:33-40 | the attempt the loop stops at: every earlier reply was retried, and this one is not, unless all MAX_RETRIES were |
| Backoff.FetchWithRetry | services/news_fetcher.py:31-72 | the attempt loop returns the result, issues the requests and sleeps the waits of the loop-free reference `Fetch` |
| Backoff.RecoversAfterRetries | services/news_fetcher.py:33-42 | k < 5 retried replies followed by a success return that body after exactly k waits and k + 1 requests |
| Backoff.GivesUpAfterMaxRetries | services/news_fetcher.py:33-49 | five retried replies in a row give nothing, after exactly 5 requests and 5 waits |
| Backoff.StopsAtTerminalError | services/news_fetcher.py:41-47 | a non-retried error status or a network exception ends the call with nothing; no request follows it |
| Backoff.RequestsBounded | services/news_fetcher.py:20-49 | every call issues between 1 and MAX_RETRIES requests and waits once per retried reply |
| Backoff.ResultComesFromSuccess | services/news_fetcher.py:35-42 | a returned body is that of the last reply, whose status is neither retried nor an error, and every earlier reply was retried |
| Backoff.WaitBounds | services/news_fetcher.py:37 | with jitter in [0, 1), wait k lies in [2^(k-1), 2^(k-1) + 1) seconds |
| Backoff.PagePathRetriesUnavailable | services/news_fetcher.py:56 | on a first 503 the feed path stops after one request and the page path backs off and retries |
| NewsFetcher.Format | services/news_fetcher.py:80 | formatting succeeds exactly when every replacement field has an argument |
| NewsFetcher.TickerFeedUrl | services/news_fetcher.py:18 | the feed URL is the template with `{ticker}` replaced by the ticker |
| NewsFetcher.TickerFeedUrlInjective | services/news_fetcher.py:80 | different tickers are fetched from different URLs |
| NewsFetcher.FetchRss | services/news_fetcher.py:31-49 | the retry loop with only 429 retried |
| NewsFetcher.FetchPage | services/news_fetcher.py:51-72 | the retry loop with 429 and 503 retried |
| NewsFetcher.ProcessEntry | services/news_fetcher.py:86-100 | without content an entry always yields its headline; with content it yields one exactly when the page is fetched non-empty and extraction does not raise, with content set to the extracted text or `None` |
| NewsFetcher.GetTickerNews | services/news_fetcher.py:74-107 | the article loop returns the kept articles of the first `count` entries in feed order, as the reference `TickerNews` |
| NewsFetcher.FetchNews | services/news_fetcher.py:131-132 | `fetch_news` is `get_ticker_news` with `count = max_articles` and no content |
| NewsFetcher.TickerNewsBounded | services/news_fetcher.py:82-107 | at most `count` articles and never more than the feed has entries; none when `count` is 0 or the feed cannot be read |
| NewsFetcher.HeadlinesWithoutContent | services/news_fetcher.py:85-91 | without content, one article per sliced entry, in order, with title, link and summary copied |
| NewsFetcher.SkippedArticleIsolated | services/news_fetcher.py:92-103 | a skipped article costs only itself: the result is the articles before it followed by those after it |
| NewsFetcher.OneFailedPage | services/news_fetcher.py:93-99 | exactly one failed page fetch among N otherwise good articles gives N - 1 articles |
| NewsFetcher.MissingBlockKeepsArticle | services/news_fetcher.py:94-96 | a fetched page without a content block keeps its article with content `None` |
| NewsFetcher.DefaultCallsBounded | services/news_fetcher.py:74-132 | the default `count=10` gives at most 10 articles; `fetch_news` with its default `max_articles=5` gives one headline per entry of the feed's first five |
| YahooFinance.FetchRss | data/yahoo_finance.py:30-48 | the same retry loop with only 429 retried |
| YahooFinance.FetchPage | data/yahoo_finance.py:50-69 | the same retry loop with 429 and 503 retried |
| YahooFinance.NormalizeEntry | data/yahoo_finance.py:142-148 | summary = strip(first truthy of summary, description, ''); published = published if truthy else updated; title and link copied |
| YahooFinance.ParseFeed | data/yahoo_finance.py:138-149 | exactly one item per entry, in entry order, each the normalised entry |
| YahooFinance.GetTopStories | data/yahoo_finance.py:71-74 | [] when the fetch gives up, otherwise the parsed top-stories feed |
| YahooFinance.GetMarketNews | data/yahoo_finance.py:76-79 | [] when the fetch gives up, otherwise the parsed market-news feed |
| YahooFinance.GetTickerNews | data/yahoo_finance.py:81-98 | [] when the feed reader raises; otherwise the first `count` entries in order, fields copied |
| YahooFinance.LookupFirst | data/yahoo_finance.py:170 | a key lookup fails exactly when the key is missing and otherwise gives the value of the key's first field |
| YahooFinance.FirstNewsKey | data/yahoo_finance.py:171 | the first stream key ending in `_news`; nothing when there is none or a non-string key precedes it |
| YahooFinance.ItemSummary | data/yahoo_finance.py:179 | summary = strip(first truthy of summary, content[0].content, ''); an exception when a step does not apply |
| YahooFinance.ConvertItem | data/yahoo_finance.py:178-186 | an item converts exactly when it is an object, its summary chain yields a string, its `publisher` (default `{}`) is an object, and a truthy `providerPublishTime` formats; the dictionary then holds the item's title, link, publisher name, formatted time (`None` for a falsy time) and stripped summary |
| YahooFinance.ConvertItems | data/yahoo_finance.py:177-187 | the item loop gives one dictionary per item in order, or an exception when some item cannot be converted |
| YahooFinance.ParseTickerJson | data/yahoo_finance.py:165-187 | `_parse_ticker_json` computes the reference `TickerJson` |
| YahooFinance.GetNewsFromHtml | data/yahoo_finance.py:101-107 | extraction followed by `_parse_ticker_json` |
| YahooFinance.NoStreamGivesNothing | data/yahoo_finance.py:167-175 | [] for falsy data, a missing store path, a non-object store, a `streams` value that cannot be iterated, or one that iterates only strings without the `_news` suffix |
| YahooFinance.MissingStreamsGivesNothing | data/yahoo_finance.py:171-175 | a store without `streams` iterates the default `{}`, finds no key and gives [] |
| YahooFinance.FirstNewsStreamUsed | data/yahoo_finance.py:170-172 | the items come from the first stream whose key ends in `_news` |
| YahooFinance.ItemsMatchSlice | data/yahoo_finance.py:177-187 | at most `count` items; the result raises exactly when some sliced item cannot be converted, and is otherwise one converted item per sliced item, in order |
| YahooFinance.AtMostCount | data/yahoo_finance.py:178 | with non-negative `count`, never more than `count` items |
| YahooFinance.DefaultCountBounded | data/yahoo_finance.py:101-107 | `get_news_from_html` with its default `count=10` returns at most 10 items |
| Chat.Request | services/chat.py:47-58 | the user message is last; a system message comes first exactly when the system prompt is truthy; sampling parameters passed through |
| Chat.Generate | services/chat.py:32-62 | `generate` sends the request `Request` describes and returns the completions |
| Chat.CatalogListing | services/chat.py:86-88 | the listing splits back into one line per ticker, "i. SYMBOL: description", with the 1-based number reading back as i + 1 |
| Chat.PieceSymbol | services/chat.py:107 | a piece yields at most one symbol, which is non-empty and upper-case |
| Chat.SymbolsWellFormed | services/chat.py:107 | every parsed symbol is non-empty and upper-case |
| Chat.SymbolOfPiece | services/chat.py:107 | a white-space-only piece is dropped; any other piece yields its stripped, upper-cased text |
| Chat.SymbolStripped | services/chat.py:107 | a parsed symbol has no white space at either end |
| Chat.SymbolsAppend | services/chat.py:107 | symbols come out in the order of the reply's pieces |
| Chat.ValidSymbols | services/chat.py:109 | the valid set holds exactly the upper-cased catalog symbols |
| Chat.KeepListed | services/chat.py:110 | kept symbols are valid and come from the reply |
| Chat.KeepListedAppend | services/chat.py:110 | filtering keeps the reply's order |
| Chat.KeepListedCount | services/chat.py:110 | duplicates are kept: a valid symbol occurs as often as in the reply, an invalid one never |
| Chat.PickRelevantTickers | services/chat.py:65-111 | the picker asks with the chosen model, the catalog prompt, 32 tokens and temperature 0.2, and parses the answer with `SelectSymbols` |
| Chat.SelectionListedAndBounded | services/chat.py:106-111 | every returned symbol is an upper-cased catalog symbol taken from the first completion; at most `top_k`; no completions give [] |
| Api.BestText | api/main.py:19 | the summary when truthy, else the title when truthy, else ''; empty exactly when both are falsy |
| Api.SummaryItem | api/main.py:23-27 | the corrected item: title and url are the article's when present and '' when missing |
| Api.SummaryItemAsWritten | api/main.py:24-26 | as written, the item is rejected exactly when the title or the link is missing |
| Api.UntitledArticleRejected | api/main.py:19-27 | an untitled article with a summary is summarised, then rejected as written; the corrected item has title '' |
| Api.AsWrittenDiffersOnUntitled | api/main.py:11-28 | the handler as written differs from the corrected one exactly when some article has text but no title or link, where the corrected one answers with summaries; as written a 500 comes exactly from a raising fetcher or such an article |
| Api.SummarizeNews | api/main.py:9-28 | the corrected handler returns the reference `SummarizeResult` and calls the summariser on exactly the texts `SummarizerInputs` lists |
| Api.GetNews | api/main.py:31-36 | 500 with the fetcher's message exactly when it raises; otherwise the articles under the requested ticker |
| Api.StatusMapping | api/main.py:11-28 | for the corrected handler, 404 exactly when no articles come back; 500 exactly when the fetcher raises; the response echoes the ticker |
| Api.SummariesAppend | api/main.py:18-27 | output order follows input order, and so does the order of summariser calls |
| Api.SummaryOfOne | api/main.py:19-22 | an article without summary and title is skipped and never summarised; otherwise it is summarised from its best text |
| Api.SummariesFollowInputs | api/main.py:19-27 | the i-th summary is the summariser's answer to the i-th text it was given, and no text given is empty |
| Api.AllArticlesSummarized | api/main.py:18-27 | when every article has text, one summary per article, carrying that article's title and link |
| Api.ServicesFetcherStatuses | api/main.py:11-16 | for the corrected handler behind the services fetcher there is never a 500, and 404 exactly when the feed is unreadable or has no entries within `max_articles` |
| Common.Strip | data/yahoo_finance.py:147 | `str.strip()` leaves no white space at either end and never lengthens |
| Common.StripInfix | data/yahoo_finance.py:147 | the strip is the middle of the string between a white-space prefix and a white-space suffix |
| Common.StripEmpty | services/chat.py:107 | stripping gives '' exactly when the string is all white space |
| Common.Upper | services/chat.py:107 | `str.upper()` keeps the length and upper-cases each character |
| Common.Split | services/chat.py:107 | `str.split(sep)` gives at least one piece, none containing the separator |
| Common.JoinSplit | services/chat.py:107 | joining the pieces of a split gives back the string |
| Common.SplitJoin | services/chat.py:86-88 | splitting the join of separator-free pieces gives back the pieces |
| Common.SliceTo | services/news_fetcher.py:85 | `s[:n]` is a prefix of `s`, of length min(n, len) for n >= 0 and len + n (at least 0) for n < 0 |
| Common.NatToStringRoundTrip | services/chat.py:87 | the decimal text of n reads back as n |
| Common.IntToString | services/chat.py:93 | `str(i)` starts with '-' exactly for negative i, and the rest is decimal digits, without leading zeros, reading back as the magnitude of i |

## Left out

- Logging with `print`, `time.sleep`, HTTP sessions and headers are not modelled. The waits a call would sleep are returned as values. The reply to each attempt and its `random.random()` draw are the parameter `network`.
- Wait times are exact reals. Float rounding is not modelled.
- Nothing in these files parses feeds. `feedparser.parse` is an oracle: a fetched body is already the parsed feed. In the services client the ticker feed is read by a parser oracle keyed by URL, which gives `None` when it raises.
- Each article's page fetch sees the replies of the parameter `pages(i)`, indexed by the article's position and not tied to its link. Two articles that share a link may therefore see different replies. An entry whose link is `None`, which in the code always fails to fetch (the request raises, so the article is skipped), may succeed in the model.
- `get_content_from_html` (BeautifulSoup) is an oracle. It returns a block's text, no block, or a failure that stands for an exception inside the article `try`.
- `get_html_from_url`, `get_rss_from_html` and the `get_atoms_wrapper_text_*` helpers are not part of this model. No modelled operation calls them.
- `_extract_json` (a regular expression and `json.loads`) is an oracle returning JSON, with `Null` where the source returns `None`. `datetime.fromtimestamp(...).isoformat()` is an oracle that may fail.
- JSON objects are taken to have distinct keys, as `json.loads` builds them. Lookups take the first field with the key.
- `yahoo_fin`'s `get_yf_rss` is an oracle giving the feed or `None` when it raises.
- Common.Upper: only the ASCII letters are upper-cased. Python's full Unicode case mapping is not modelled.
- Chat.Generate: extra keyword arguments (`**kwargs`) are not modelled. `pick_relevant_tickers` never passes any.
- The Mistral client is out of scope: its construction, the API-key check and the completion call. The call is the oracle `complete`, whose message contents are taken to be strings.
- The summariser model is the oracle `summarize`. Constructing `Summarizer()` inside the handler, and its own fallback, are not modelled.
- Api.SummarizeNews: models the corrected handler, in which a missing title or link becomes ''. As written, an article with text but without a title or link makes the handler fail with a 500; `SummarizeResultAsWritten` gives that outcome and `AsWrittenDiffersOnUntitled` states exactly where the two differ.
- Api.GetNews: FastAPI's validation of the `/news` response model is not modelled. `NewsItem` requires string title, link and summary, and the model returns the articles as they are.
- FastAPI routing, uvicorn, `api/config.py` and the module-level singleton clients are left out.
- The argparse command-line `main` of `data/yahoo_finance.py` is left out.

## Findings

| source | as written | input that shows it | evidently intended | confidence | as-written member | corrected member |
|---|---|---|---|---|---|---|
| api/main.py:24-26 | `item.get('title', '')` and `item.get('link', '')` return `None`, because the fetcher always sets the `title` and `link` keys, possibly to `None`. The `str`-typed response item then rejects the value and the request fails. | an article with title `None`, link "https://finance.yahoo.com/news/x" and summary "Shares rose." | a missing title or link becomes '' | medium (not executed) | Api.SummaryItemAsWritten, Api.SummarizeResultAsWritten, Api.UntitledArticleRejected, Api.AsWrittenDiffersOnUntitled | Api.SummaryItem |
