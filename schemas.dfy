/** The records that flow through the news pipeline: feed entries as the feed
    parser yields them, the article dictionaries the clients build, and the
    response shapes of the web API (models/schemas.py). */
module Schemas {
  import opened Common

  /** One feed entry; `entry.get(key)` is the corresponding field, `None`
      when the entry has no such key. */
  datatype FeedEntry = FeedEntry(
    title: Option<string>,
    link: Option<string>,
    summary: Option<string>,
    description: Option<string>,
    published: Option<string>,
    updated: Option<string>)

  /** The entries of a parsed feed, in document order. */
  type Feed = seq<FeedEntry>

  /** The `content` key of an article: absent when content was not asked
      for, otherwise what the extractor found (`None` when no block). */
  datatype Content = NotRequested | Extracted(text: Option<string>)

  /** The article dictionary `{title, link, summary[, content]}`. */
  datatype Article = Article(title: Option<string>, link: Option<string>, summary: Option<string>, content: Content)

  /** The article for an entry, with its fields copied as they are. */
  function Headline(e: FeedEntry): Article {
    Article(e.title, e.link, e.summary, NotRequested)
  }

  datatype SummarizedNewsItem = SummarizedNewsItem(title: string, summary: string, url: string)

  datatype SummarizedNewsResponse = SummarizedNewsResponse(ticker: string, summaries: seq<SummarizedNewsItem>)

  datatype NewsResponse = NewsResponse(ticker: string, news: seq<Article>)
}
