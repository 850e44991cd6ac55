/** The records that flow through the pipelines: the display-ready item, the raw
    item that may carry its original text for simplification, and the values the
    shared cache holds. */
module NewsTypes {
  import opened Wrappers

  /** The three item kinds, "welt", "lokal" and "wetter". */
  datatype NewsKind = Welt | Lokal | Wetter

  /** A display-ready item, consumed by the client and by speech synthesis. */
  datatype NewsItem = NewsItem(headline: string, summary: string, kind: NewsKind)

  /** An item as a fetcher produces it; `originalTitle`/`originalSummary` are present
      only on items meant for simplification. */
  datatype RawNewsItem = RawNewsItem(
    headline: string,
    summary: string,
    kind: NewsKind,
    originalTitle: Option<string>,
    originalSummary: Option<string>)

  /** The `{headline, summary, type}` projection of a raw item. */
  function Project(item: RawNewsItem): (r: NewsItem)
    ensures r.headline == item.headline && r.summary == item.summary && r.kind == item.kind
  {
    NewsItem(item.headline, item.summary, item.kind)
  }

  function ProjectAll(items: seq<RawNewsItem>): (r: seq<NewsItem>)
    ensures |r| == |items|
    ensures forall i :: 0 <= i < |items| ==> r[i] == Project(items[i])
  {
    seq(|items|, i requires 0 <= i < |items| => Project(items[i]))
  }

  lemma ProjectAllAppend(a: seq<RawNewsItem>, b: seq<RawNewsItem>)
    ensures ProjectAll(a + b) == ProjectAll(a) + ProjectAll(b)
  {
  }

  /** What the shared cache holds, one variant per key namespace: the world-news list
      under "world_news", a regional item under "regional_news_<id>", a weather item
      under "weather_<lat>_<lon>", a simplified item under "simplified_<hash>". */
  datatype CachedValue =
    | WorldNews(items: seq<RawNewsItem>)
    | RegionalNews(item: RawNewsItem)
    | WeatherReport(item: RawNewsItem)
    | SimplifiedItem(news: NewsItem)

  /** The outcome of one HTTP request: a transport failure, or a response with its
      `ok` flag, status code and body (`None` when the body is not valid JSON). */
  datatype HttpOutcome<T> = TransportFailure | Response(ok: bool, status: int, body: Option<T>)

  /** Why a fetcher raised an error. */
  datatype FetchError = Transport | BadStatus(status: int) | BadBody
}
