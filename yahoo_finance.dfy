/** The data-layer client (data/yahoo_finance.py): the same retry loops, the
    feed normaliser `_parse_feed`, the RSS endpoints, `get_ticker_news` over
    the yahoo_fin feed reader, and `_parse_ticker_json`, which digs the news
    stream out of the JSON a quote page embeds. */
module YahooFinance {
  import opened Common
  import opened Backoff
  import opened Schemas

  const TopStoriesUrl: string := "https://finance.yahoo.com/rss/topstories"
  const MarketNewsUrl: string := "https://finance.yahoo.com/rss/rssmarketnews"
  const DefaultCount: int := 10

  /** `fetch_rss`: the retry loop backing off on 429 only. */
  method FetchRss(network: nat -> Attempt<Feed>) returns (feed: Option<Feed>, requests: nat, waits: seq<real>)
    ensures Trace(feed, requests, waits) == Fetch(FeedRetryStatuses, network)
  {
    feed, requests, waits := FetchWithRetry(FeedRetryStatuses, network);
  }

  /** `fetch_page`: the retry loop backing off on 429 and 503. */
  method FetchPage(network: nat -> Attempt<string>) returns (page: Option<string>, requests: nat, waits: seq<real>)
    ensures Trace(page, requests, waits) == Fetch(PageRetryStatuses, network)
  {
    page, requests, waits := FetchWithRetry(PageRetryStatuses, network);
  }

  // ---------------------------------------------------------------------
  // Feed normalisation

  /** One dictionary built by `_parse_feed`. */
  datatype FeedItem = FeedItem(title: Option<string>, link: Option<string>, published: Option<string>, summary: string)

  /** The item for one entry: title and link copied; the summary is the
      first truthy of summary and description, else empty, then stripped;
      the publication time falls back from published to updated. */
  function NormalizeEntry(e: FeedEntry): (item: FeedItem)
    ensures item.title == e.title && item.link == e.link
    ensures Truthy(e.summary) ==> item.summary == Strip(e.summary.value)
    ensures !Truthy(e.summary) && Truthy(e.description) ==> item.summary == Strip(e.description.value)
    ensures !Truthy(e.summary) && !Truthy(e.description) ==> item.summary == ""
    ensures Truthy(e.published) ==> item.published == e.published
    ensures !Truthy(e.published) ==> item.published == e.updated
  {
    FeedItem(e.title, e.link, Or(e.published, e.updated), Strip(OrElse(Or(e.summary, e.description), "")))
  }

  /** `_parse_feed`: one item per entry, in entry order. */
  method ParseFeed(feed: Feed) returns (items: seq<FeedItem>)
    ensures |items| == |feed|
    ensures forall i :: 0 <= i < |feed| ==> items[i] == NormalizeEntry(feed[i])
  {
    items := [];
    for i := 0 to |feed|
      invariant |items| == i
      invariant forall j :: 0 <= j < i ==> items[j] == NormalizeEntry(feed[j])
    {
      var entry := feed[i];
      var summary := OrElse(Or(entry.summary, entry.description), "");
      items := items + [FeedItem(entry.title, entry.link, Or(entry.published, entry.updated), Strip(summary))];
    }
  }

  /** `get_top_stories`: the normalised top-stories feed, or nothing when
      the fetch gives up. `web(url)` is the network seen by a fetch of `url`. */
  method GetTopStories(web: string -> nat -> Attempt<Feed>) returns (items: seq<FeedItem>)
    ensures var feed := Fetch(FeedRetryStatuses, web(TopStoriesUrl)).result;
      && (feed.None? ==> items == [])
      && (feed.Some? ==> |items| == |feed.value| && forall i :: 0 <= i < |items| ==> items[i] == NormalizeEntry(feed.value[i]))
  {
    var feed, requests, waits := FetchRss(web(TopStoriesUrl));
    if feed.Some? {
      items := ParseFeed(feed.value);
    } else {
      items := [];
    }
  }

  /** `get_market_news`: as `get_top_stories`, for the market-news feed. */
  method GetMarketNews(web: string -> nat -> Attempt<Feed>) returns (items: seq<FeedItem>)
    ensures var feed := Fetch(FeedRetryStatuses, web(MarketNewsUrl)).result;
      && (feed.None? ==> items == [])
      && (feed.Some? ==> |items| == |feed.value| && forall i :: 0 <= i < |items| ==> items[i] == NormalizeEntry(feed.value[i]))
  {
    var feed, requests, waits := FetchRss(web(MarketNewsUrl));
    if feed.Some? {
      items := ParseFeed(feed.value);
    } else {
      items := [];
    }
  }

  /** `get_ticker_news`: the first `count` entries of the ticker's feed as
      read by the yahoo_fin reader (`None` when it raises), each as an
      article with title, link and summary copied; nothing on an exception. */
  method GetTickerNews(ticker: string, count: int, readFeed: string -> Option<Feed>) returns (result: seq<Article>)
    ensures readFeed(ticker).None? ==> result == []
    ensures readFeed(ticker).Some? ==>
      var items := SliceTo(readFeed(ticker).value, count);
      && |result| == |items|
      && forall i :: 0 <= i < |items| ==> result[i] == Headline(items[i])
  {
    var newsItems := readFeed(ticker);
    if newsItems.None? {
      return [];
    }
    var items := SliceTo(newsItems.value, count);
    result := [];
    for i := 0 to |items|
      invariant |result| == i
      invariant forall j :: 0 <= j < i ==> result[j] == Headline(items[j])
    {
      var item := items[i];
      result := result + [Article(item.title, item.link, item.summary, NotRequested)];
    }
  }

  // ---------------------------------------------------------------------
  // The JSON embedded in a quote page

  /** A value as `json.loads` returns it; objects keep their keys in
      document order. */
  datatype Json = Null | Bool(b: bool) | Number(x: real) | Str(s: string) | Arr(elems: seq<Json>) | Obj(fields: seq<(string, Json)>)

  /** Python truthiness of a JSON value. */
  predicate JTruthy(j: Json) {
    match j
    case Null => false
    case Bool(b) => b
    case Number(x) => x != 0.0
    case Str(s) => s != ""
    case Arr(elems) => elems != []
    case Obj(fields) => fields != []
  }

  /** The value stored under `key`, if the object has that key. */
  function Lookup(fields: seq<(string, Json)>, key: string): Option<Json> {
    if fields == [] then None
    else if fields[0].0 == key then Some(fields[0].1)
    else Lookup(fields[1..], key)
  }

  /** `j[key]` finds the value of the first field named `key`, and only a
      missing key makes it fail. */
  lemma {:induction false} LookupFirst(fields: seq<(string, Json)>, key: string)
    ensures Lookup(fields, key).None? <==> forall i :: 0 <= i < |fields| ==> fields[i].0 != key
    ensures forall i :: 0 <= i < |fields| && fields[i].0 == key && (forall j :: 0 <= j < i ==> fields[j].0 != key) ==>
      Lookup(fields, key) == Some(fields[i].1)
  {
    if fields != [] && fields[0].0 != key {
      LookupFirst(fields[1..], key);
      assert forall i :: 1 <= i < |fields| ==> fields[i] == fields[1..][i - 1];
    }
  }

  /** `j[key]`: nothing (a KeyError or TypeError) unless `j` is an object with that key. */
  function Index(j: Json, key: string): Option<Json> {
    if j.Obj? then Lookup(j.fields, key) else None
  }

  /** `j.get(key, default)`: nothing (an AttributeError) unless `j` is an object. */
  function GetOr(j: Json, key: string, default: Json): Option<Json> {
    if j.Obj? then Some(match Lookup(j.fields, key) case Some(v) => v case None => default) else None
  }

  /** `j[k0][k1]...`: nothing as soon as one step fails. */
  function Path(j: Json, keys: seq<string>): Option<Json>
    decreases |keys|
  {
    if keys == [] then Some(j)
    else match Index(j, keys[0])
      case None => None
      case Some(v) => Path(v, keys[1..])
  }

  const StorePath: seq<string> := ["context", "dispatcher", "stores", "StreamStore"]
  const NewsSuffix: string := "_news"

  predicate EndsWith(s: string, suffix: string) {
    |suffix| <= |s| && s[|s| - |suffix|..] == suffix
  }

  /** The one-character strings a string iterates over. */
  function Chars(s: string): (cs: seq<Json>)
    ensures |cs| == |s|
  {
    seq(|s|, i requires 0 <= i < |s| => Str([s[i]]))
  }

  /** What `for k in j` visits: an object's keys, a list's elements, a
      string's characters; nothing (a TypeError) for the other values. */
  function Iterate(j: Json): Option<seq<Json>> {
    match j
    case Obj(fields) => Some(seq(|fields|, i requires 0 <= i < |fields| => Str(fields[i].0)))
    case Arr(elems) => Some(elems)
    case Str(s) => Some(Chars(s))
    case _ => None
  }

  /** `next(k for k in ks if k.endswith('_news'))`: the first candidate
      that ends with the suffix; nothing when there is none (StopIteration)
      or when a candidate before it is not a string (AttributeError). */
  function FirstNewsKey(ks: seq<Json>): (r: Option<string>)
    ensures r.Some? ==> EndsWith(r.value, NewsSuffix)
    ensures forall k :: 0 <= k < |ks| && NoNewsKeyBefore(ks, k) && ks[k].Str? && EndsWith(ks[k].s, NewsSuffix) ==>
      r == Some(ks[k].s)
    ensures forall k :: 0 <= k < |ks| && NoNewsKeyBefore(ks, k) && !ks[k].Str? ==> r.None?
    ensures NoNewsKeyBefore(ks, |ks|) ==> r.None?
  {
    if ks == [] then None
    else if !ks[0].Str? then None
    else if EndsWith(ks[0].s, NewsSuffix) then Some(ks[0].s)
    else
      var r := FirstNewsKey(ks[1..]);
      assert forall k :: 1 <= k <= |ks| && NoNewsKeyBefore(ks, k) ==> NoNewsKeyBefore(ks[1..], k - 1);
      r
  }

  /** The candidates before position `k` are strings without the suffix. */
  predicate NoNewsKeyBefore(ks: seq<Json>, k: nat)
    requires k <= |ks|
  {
    forall j :: 0 <= j < k ==> ks[j].Str? && !EndsWith(ks[j].s, NewsSuffix)
  }

  /** The `try` block of `_parse_ticker_json`: the `data` list of the first
      news stream of the stream store; nothing when any step raises. */
  function StreamItems(data: Json): Option<Json> {
    match Path(data, StorePath)
    case None => None
    case Some(store) =>
      match GetOr(store, "streams", Obj([]))
      case None => None
      case Some(streams) =>
        match Iterate(streams)
        case None => None
        case Some(ks) =>
          match FirstNewsKey(ks)
          case None => None
          case Some(key) => Path(store, ["streams", key, "data"])
  }

  /** `items[:count]`: nothing (a TypeError) unless `items` is a list or a string. */
  function SliceJson(items: Json, count: int): Option<seq<Json>> {
    match items
    case Arr(elems) => Some(SliceTo(elems, count))
    case Str(s) => Some(SliceTo(Chars(s), count))
    case _ => None
  }

  /** `it.get(key)`, for an object `it`: `None` (Null) when the key is missing. */
  function Field(it: Json, key: string): Json
    requires it.Obj?
  {
    match Lookup(it.fields, key) case Some(v) => v case None => Null
  }

  /** `it['content'][0].get('content')` for a truthy `content`: defined only
      when it is a list whose first element is an object. */
  function FirstContent(content: Json): Option<Json> {
    if content.Arr? && content.elems != [] && content.elems[0].Obj? then Some(Field(content.elems[0], "content"))
    else None
  }

  /** The summary of one stream item: the first truthy of its summary and
      its first content block's text, else empty, then stripped; nothing
      when a step raises (a content that is not a list of objects, or a
      chosen value that is not a string). */
  function ItemSummary(it: Json): (r: Option<string>)
    requires it.Obj?
    ensures var s := Field(it, "summary");
      JTruthy(s) ==> r == (if s.Str? then Some(Strip(s.s)) else None)
    ensures var s, c := Field(it, "summary"), Field(it, "content");
      !JTruthy(s) && !JTruthy(c) ==> r == Some("")
    ensures var s, c := Field(it, "summary"), Field(it, "content");
      !JTruthy(s) && JTruthy(c) && FirstContent(c).Some? ==>
        var t := FirstContent(c).value;
        r == (if !JTruthy(t) then Some("") else if t.Str? then Some(Strip(t.s)) else None)
    ensures var s, c := Field(it, "summary"), Field(it, "content");
      !JTruthy(s) && JTruthy(c) && FirstContent(c).None? ==> r.None?
  {
    var summary := Field(it, "summary");
    var chosen: Option<Json> :=
      if JTruthy(summary) then Some(summary)
      else
        var content := Field(it, "content");
        if !JTruthy(content) then Some(Str(""))
        else match FirstContent(content)
          case None => None
          case Some(text) => Some(if JTruthy(text) then text else Str(""));
    match chosen
    case None => None
    case Some(v) => if v.Str? then Some(Strip(v.s)) else None
  }

  /** `it.get('publisher', {})` for an object `it`. */
  function PublisherOf(it: Json): Json
    requires it.Obj?
  {
    match Lookup(it.fields, "publisher") case Some(v) => v case None => Obj([])
  }

  /** One dictionary built by `_parse_ticker_json`. */
  datatype StreamItem = StreamItem(title: Json, link: Json, publisher: Json, publishTime: Option<string>, summary: string)

  /** The dictionary for one stream item, or nothing when building it raises.
      `isoTime` stands for `datetime.fromtimestamp(t).isoformat()` (nothing
      when that raises). */
  function ConvertItem(it: Json, isoTime: Json -> Option<string>): (r: Option<StreamItem>)
    ensures r.Some? <==>
      && it.Obj?
      && ItemSummary(it).Some?
      && PublisherOf(it).Obj?
      && (JTruthy(Field(it, "providerPublishTime")) ==> isoTime(Field(it, "providerPublishTime")).Some?)
    ensures r.Some? ==> r.value.title == Field(it, "title") && r.value.link == Field(it, "link")
    ensures r.Some? ==> Some(r.value.summary) == ItemSummary(it)
    ensures r.Some? ==> r.value.publisher == Field(PublisherOf(it), "name")
    ensures r.Some? ==> (var t := Field(it, "providerPublishTime");
      r.value.publishTime == if JTruthy(t) then isoTime(t) else None)
  {
    if !it.Obj? then None
    else
      var summary := ItemSummary(it);
      var name := GetOr(PublisherOf(it), "name", Null);
      var time := Field(it, "providerPublishTime");
      var iso := if JTruthy(time) then (match isoTime(time) case Some(t) => Some(Some(t)) case None => None) else Some(None);
      if summary.None? || name.None? || iso.None? then None
      else Some(StreamItem(Field(it, "title"), Field(it, "link"), name.value, iso.value, summary.value))
  }

  /** The outcome of `_parse_ticker_json`: the list it returns, or an
      exception escaping it (the item loop runs outside the `try`). */
  datatype Parsed = Items(items: seq<StreamItem>) | Raised

  /** The conversion of every item, in order. */
  function Converted(its: seq<Json>, isoTime: Json -> Option<string>): (cs: seq<Option<StreamItem>>)
    ensures |cs| == |its|
  {
    seq(|its|, i requires 0 <= i < |its| => ConvertItem(its[i], isoTime))
  }

  /** The item loop's outcome: one dictionary per item, in order, or an
      exception when some item cannot be converted. */
  function ConvertAll(its: seq<Json>, isoTime: Json -> Option<string>): Parsed {
    var cs := Converted(its, isoTime);
    if forall i :: 0 <= i < |cs| ==> cs[i].Some? then Items(seq(|cs|, i requires 0 <= i < |cs| => cs[i].value))
    else Raised
  }

  /** The reference result of `_parse_ticker_json`: the empty list when the
      data is falsy or the `try` block fails; an exception when the chosen
      items cannot be sliced; otherwise the item loop over the slice. */
  function TickerJson(data: Json, count: int, isoTime: Json -> Option<string>): Parsed {
    if !JTruthy(data) then Items([])
    else match StreamItems(data)
      case None => Items([])
      case Some(items) =>
        match SliceJson(items, count)
        case None => Raised
        case Some(its) => ConvertAll(its, isoTime)
  }

  /** The item loop of `_parse_ticker_json`, which runs outside its `try`. */
  method ConvertItems(its: seq<Json>, isoTime: Json -> Option<string>) returns (outcome: Parsed)
    ensures outcome == ConvertAll(its, isoTime)
  {
    ghost var cs := Converted(its, isoTime);
    var parsed := [];
    for i := 0 to |its|
      invariant |parsed| == i
      invariant forall j :: 0 <= j < i ==> cs[j] == Some(parsed[j])
    {
      var item := ConvertItem(its[i], isoTime);
      if item.None? {
        assert cs[i].None?;
        return Raised;
      }
      parsed := parsed + [item.value];
    }
    outcome := Items(parsed);
  }

  /** `_parse_ticker_json`. */
  method ParseTickerJson(data: Json, count: int, isoTime: Json -> Option<string>) returns (outcome: Parsed)
    ensures outcome == TickerJson(data, count, isoTime)
  {
    if !JTruthy(data) {
      return Items([]);
    }
    var items := StreamItems(data);
    if items.None? {
      // "Unexpected JSON structure"
      return Items([]);
    }
    var its := SliceJson(items.value, count);
    if its.None? {
      return Raised;
    }
    outcome := ConvertItems(its.value, isoTime);
  }

  /** `get_news_from_html`: the JSON extractor (`Null` when the page holds no
      parsable state) followed by `_parse_ticker_json`. */
  method GetNewsFromHtml(html: string, count: int, extractJson: string -> Json, isoTime: Json -> Option<string>)
    returns (outcome: Parsed)
    ensures outcome == TickerJson(extractJson(html), count, isoTime)
  {
    var data := extractJson(html);
    outcome := ParseTickerJson(data, count, isoTime);
  }

  /** Falsy data, a missing stream store, a store that is not an object, a
      `streams` value that cannot be iterated, or one whose keys (or
      elements) are strings none of which ends in "_news" all give the
      empty list. A missing `streams` iterates as an empty object. */
  lemma NoStreamGivesNothing(data: Json, count: int, isoTime: Json -> Option<string>)
    requires || !JTruthy(data)
             || Path(data, StorePath).None?
             || (&& Path(data, StorePath).Some?
                 && var streams := GetOr(Path(data, StorePath).value, "streams", Obj([]));
                    || streams.None?
                    || Iterate(streams.value).None?
                    || (&& Iterate(streams.value).Some?
                        && forall i :: 0 <= i < |Iterate(streams.value).value| ==>
                             Iterate(streams.value).value[i].Str? && !EndsWith(Iterate(streams.value).value[i].s, NewsSuffix)))
    ensures TickerJson(data, count, isoTime) == Items([])
  {
    if JTruthy(data) && Path(data, StorePath).Some? {
      var streams := GetOr(Path(data, StorePath).value, "streams", Obj([]));
      if streams.Some? && Iterate(streams.value).Some? {
        assert NoNewsKeyBefore(Iterate(streams.value).value, |Iterate(streams.value).value|);
      }
    }
  }

  /** A store without `streams` gives the empty list: iterating the default
      `{}` finds no news key. */
  lemma MissingStreamsGivesNothing(data: Json, count: int, isoTime: Json -> Option<string>)
    requires JTruthy(data) && Path(data, StorePath).Some?
    requires var store := Path(data, StorePath).value; store.Obj? && Lookup(store.fields, "streams").None?
    ensures TickerJson(data, count, isoTime) == Items([])
  {
    NoStreamGivesNothing(data, count, isoTime);
  }

  /** The items come from the first stream whose key ends in "_news", in
      the order the streams object lists its keys: its `data` entry, or
      nothing (an empty result) when it has none. */
  lemma FirstNewsStreamUsed(data: Json, store: Json, fs: seq<(string, Json)>, k: nat)
    requires Path(data, StorePath) == Some(store)
    requires store.Obj? && Lookup(store.fields, "streams") == Some(Obj(fs))
    requires k < |fs| && EndsWith(fs[k].0, NewsSuffix)
    requires forall j :: 0 <= j < k ==> !EndsWith(fs[j].0, NewsSuffix)
    ensures StreamItems(data) == Path(Obj(fs), [fs[k].0, "data"])
  {
    var ks := Iterate(Obj(fs)).value;
    assert forall i :: 0 <= i < |ks| ==> ks[i] == Str(fs[i].0);
    assert NoNewsKeyBefore(ks, k);
    assert FirstNewsKey(ks) == Some(fs[k].0);
  }

  /** Once the items are chosen and sliced, the result is either an
      exception, exactly when some sliced item cannot be converted, or one
      dictionary per sliced item, in order; with a non-negative `count` the
      slice has at most `count` items. */
  lemma ItemsMatchSlice(data: Json, count: int, isoTime: Json -> Option<string>, items: Json, its: seq<Json>)
    requires JTruthy(data) && StreamItems(data) == Some(items) && SliceJson(items, count) == Some(its)
    ensures 0 <= count ==> |its| <= count
    ensures var r := TickerJson(data, count, isoTime);
      && (r.Items? <==> forall i :: 0 <= i < |its| ==> ConvertItem(its[i], isoTime).Some?)
      && (r.Items? ==> |r.items| == |its| && forall i :: 0 <= i < |its| ==> r.items[i] == ConvertItem(its[i], isoTime).value)
  {
    var cs := Converted(its, isoTime);
    assert forall i :: 0 <= i < |its| ==> cs[i] == ConvertItem(its[i], isoTime);
  }

  /** With a non-negative `count`, never more than `count` items. */
  lemma AtMostCount(data: Json, count: int, isoTime: Json -> Option<string>)
    requires 0 <= count
    ensures TickerJson(data, count, isoTime).Items? ==> |TickerJson(data, count, isoTime).items| <= count
  {
  }

  /** `get_news_from_html(html)` with its default `count` returns at most
      `DefaultCount` items. */
  lemma DefaultCountBounded(data: Json, isoTime: Json -> Option<string>)
    ensures TickerJson(data, DefaultCount, isoTime).Items? ==> |TickerJson(data, DefaultCount, isoTime).items| <= DefaultCount
  {
    AtMostCount(data, DefaultCount, isoTime);
  }
}
