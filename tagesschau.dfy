/** The Tagesschau fetchers: the homepage yields up to three world stories, the
    regional feed its first usable story. The HTTP exchange is an input; the cache
    read before it and the write after it are modelled on the shared cache. */
module Tagesschau {
  import opened Wrappers
  import opened Text
  import opened NewsTypes
  import opened Constants
  import opened Cache

  /** The fields of a Tagesschau story that the fetchers read. */
  datatype Story = Story(storyType: string, title: string, topline: Option<string>, firstSentence: Option<string>)

  /** A decoded response body; `news` is `None` when the field is absent. */
  datatype FeedBody = FeedBody(news: Option<seq<Story>>)

  const WORLD_KEY: string := "world_news"

  function RegionalKey(regionId: int): string {
    "regional_news_" + IntToRadix(regionId, 10)
  }

  /** A genuine article with a title and a usable summary. */
  predicate Qualifies(s: Story) {
    s.storyType == "story" && s.title != "" && (Truthy(s.firstSentence) || Truthy(s.topline))
  }

  /** `firstSentence || topline || ""`. */
  function StorySummary(s: Story): string {
    OrElse(s.firstSentence, OrElse(s.topline, ""))
  }

  /** The raw item made from a story: its own text is also kept as the original
      text, which marks it for simplification. */
  function ToItem(s: Story, kind: NewsKind): RawNewsItem {
    RawNewsItem(s.title, StorySummary(s), kind, Some(s.title), Some(StorySummary(s)))
  }

  /** `stories.filter(qualifies)`. */
  function Qualifying(stories: seq<Story>): (r: seq<Story>)
    ensures |r| <= |stories|
    decreases |stories|
  {
    if stories == [] then []
    else (if Qualifies(stories[0]) then [stories[0]] else []) + Qualifying(stories[1..])
  }

  /** `stories.find(qualifies)`. */
  function FirstQualifying(stories: seq<Story>): Option<Story>
    decreases |stories|
  {
    if stories == [] then None
    else if Qualifies(stories[0]) then Some(stories[0])
    else FirstQualifying(stories[1..])
  }

  /** The filter keeps exactly the qualifying stories of the feed. */
  lemma {:induction false} QualifyingMembers(stories: seq<Story>)
    ensures forall s :: s in Qualifying(stories) <==> s in stories && Qualifies(s)
    decreases |stories|
  {
    if stories != [] {
      QualifyingMembers(stories[1..]);
      assert forall s :: s in stories <==> s == stories[0] || s in stories[1..];
    }
  }

  /** The filter keeps feed order: filtering a concatenation filters each part. */
  lemma {:induction false} QualifyingAppend(a: seq<Story>, b: seq<Story>)
    ensures Qualifying(a + b) == Qualifying(a) + Qualifying(b)
    decreases |a|
  {
    if a == [] {
      assert a + b == b;
    } else {
      QualifyingAppend(a[1..], b);
      assert (a + b)[0] == a[0] && (a + b)[1..] == a[1..] + b;
      var head := if Qualifies(a[0]) then [a[0]] else [];
      assert Qualifying(a + b) == head + (Qualifying(a[1..]) + Qualifying(b));
    }
  }

  /** `find` returns the first story that `filter` would keep. */
  lemma {:induction false} FindIsFirstOfFilter(stories: seq<Story>)
    ensures FirstQualifying(stories) == if Qualifying(stories) == [] then None else Some(Qualifying(stories)[0])
    decreases |stories|
  {
    if stories != [] {
      FindIsFirstOfFilter(stories[1..]);
    }
  }

  /** `find` returns a qualifying story preceded only by stories that do not
      qualify, and finds nothing only when no story qualifies. */
  lemma {:induction false} FindFirst(stories: seq<Story>)
    ensures FirstQualifying(stories).None? <==> forall i :: 0 <= i < |stories| ==> !Qualifies(stories[i])
    ensures FirstQualifying(stories).Some? ==>
      exists i :: 0 <= i < |stories| && stories[i] == FirstQualifying(stories).value && Qualifies(stories[i]) &&
        forall j :: 0 <= j < i ==> !Qualifies(stories[j])
    decreases |stories|
  {
    if stories != [] && !Qualifies(stories[0]) {
      FindFirst(stories[1..]);
      assert forall i :: 1 <= i < |stories| ==> stories[i] == stories[1..][i - 1];
      if FirstQualifying(stories).Some? {
        var i :| 0 <= i < |stories[1..]| && stories[1..][i] == FirstQualifying(stories).value &&
          Qualifies(stories[1..][i]) && forall j :: 0 <= j < i ==> !Qualifies(stories[1..][j]);
        assert stories[i + 1] == FirstQualifying(stories).value;
      }
    } else if stories != [] {
      assert stories[0] == FirstQualifying(stories).value;
    }
  }

  /** The homepage's world items: the first three qualifying stories in feed order. */
  function WorldItems(stories: seq<Story>): (r: seq<RawNewsItem>)
    ensures |r| == Min(WORLD_NEWS_COUNT, |Qualifying(stories)|)
  {
    var picked := Take(Qualifying(stories), WORLD_NEWS_COUNT);
    seq(|picked|, i requires 0 <= i < |picked| => ToItem(picked[i], Welt))
  }

  /** Every world item is the k-th qualifying story: headline and original title are
      its title, summary and original summary are `firstSentence || topline || ""`,
      and its kind is "welt". */
  lemma WorldItemsShape(stories: seq<Story>)
    ensures |WorldItems(stories)| <= 3
    ensures forall k :: 0 <= k < |WorldItems(stories)| ==>
      var s := Qualifying(stories)[k];
      Qualifies(s) && s in stories &&
      WorldItems(stories)[k] == RawNewsItem(s.title, StorySummary(s), Welt, Some(s.title), Some(StorySummary(s)))
  {
    QualifyingMembers(stories);
  }

  /** A qualifying story's item carries a non-empty original title and summary, so
      the simplifier takes it as a candidate. */
  lemma QualifyingItemHasOriginals(s: Story, kind: NewsKind)
    requires Qualifies(s)
    ensures Truthy(ToItem(s, kind).originalTitle) && Truthy(ToItem(s, kind).originalSummary)
    ensures ToItem(s, kind).headline == ToItem(s, kind).originalTitle.value
    ensures ToItem(s, kind).summary == ToItem(s, kind).originalSummary.value
  {
  }

  /** What the homepage request yields when the cache misses. */
  function WorldFromResponse(response: HttpOutcome<FeedBody>): Result<seq<RawNewsItem>, FetchError> {
    match response
    case TransportFailure => Failure(Transport)
    case Response(ok, status, body) =>
      if !ok then Failure(BadStatus(status))
      else if body.None? || body.value.news.None? then Failure(BadBody)
      else Success(WorldItems(body.value.news.value))
  }

  /** What the regional request yields when the cache misses: `None` when no story
      qualifies or the body has no `news` field. */
  function RegionalFromResponse(response: HttpOutcome<FeedBody>): Result<Option<RawNewsItem>, FetchError> {
    match response
    case TransportFailure => Failure(Transport)
    case Response(ok, status, body) =>
      if !ok then Failure(BadStatus(status))
      else if body.None? then Failure(BadBody)
      else if body.value.news.None? then Success(None)
      else
        match FirstQualifying(body.value.news.value)
        case None => Success(None)
        case Some(s) => Success(Some(ToItem(s, Lokal)))
  }

  /** On a successful regional response the item is made from the first story the
      world filter would also keep, with kind "lokal". */
  lemma RegionalIsFirstQualifying(status: int, stories: seq<Story>)
    ensures RegionalFromResponse(Response(true, status, Some(FeedBody(Some(stories))))) ==
      Success(if Qualifying(stories) == [] then None else Some(ToItem(Qualifying(stories)[0], Lokal)))
  {
    FindIsFirstOfFilter(stories);
  }

  function AsWorld(v: Option<CachedValue>): Option<seq<RawNewsItem>> {
    if v.Some? && v.value.WorldNews? then Some(v.value.items) else None
  }

  function AsRegional(v: Option<CachedValue>): Option<RawNewsItem> {
    if v.Some? && v.value.RegionalNews? then Some(v.value.item) else None
  }

  /** `fetchWorldNews`: a fresh cached list is returned without a request; otherwise the
      response decides, and only a successful result is written back. `requested`
      records whether the HTTP request was issued. */
  method FetchWorldNews(cache: SimpleCache<CachedValue>, now: int, response: HttpOutcome<FeedBody>)
    returns (r: Result<seq<RawNewsItem>, FetchError>, ghost requested: bool)
    modifies cache
    ensures var hit := AsWorld(Lookup(old(cache.entries), WORLD_KEY, CACHE_TTL_MS, now));
            var afterRead := AfterLookup(old(cache.entries), WORLD_KEY, CACHE_TTL_MS, now);
            if hit.Some? then
              r == Success(hit.value) && !requested && cache.entries == afterRead
            else
              requested && r == WorldFromResponse(response) &&
              cache.entries == if r.Success? then Stored(afterRead, WORLD_KEY, WorldNews(r.value), now) else afterRead
  {
    var cached := cache.Get(WORLD_KEY, CACHE_TTL_MS, now);
    if cached.Some? && cached.value.WorldNews? {
      return Success(cached.value.items), false;
    }
    requested := true;
    r := WorldFromResponse(response);
    if r.Success? {
      cache.Set(WORLD_KEY, WorldNews(r.value), now);
    }
  }

  /** `fetchRegionalNews`: like the world fetcher, except that "no usable story" is a
      `None` result and is not written to the cache. */
  method FetchRegionalNews(cache: SimpleCache<CachedValue>, regionId: int, now: int, response: HttpOutcome<FeedBody>)
    returns (r: Result<Option<RawNewsItem>, FetchError>, ghost requested: bool)
    modifies cache
    ensures var key := RegionalKey(regionId);
            var hit := AsRegional(Lookup(old(cache.entries), key, CACHE_TTL_MS, now));
            var afterRead := AfterLookup(old(cache.entries), key, CACHE_TTL_MS, now);
            if hit.Some? then
              r == Success(Some(hit.value)) && !requested && cache.entries == afterRead
            else
              requested && r == RegionalFromResponse(response) &&
              cache.entries == if r.Success? && r.value.Some? then Stored(afterRead, key, RegionalNews(r.value.value), now) else afterRead
  {
    var key := RegionalKey(regionId);
    var cached := cache.Get(key, CACHE_TTL_MS, now);
    if cached.Some? && cached.value.RegionalNews? {
      return Success(Some(cached.value.item)), false;
    }
    requested := true;
    r := RegionalFromResponse(response);
    if r.Success? && r.value.Some? {
      cache.Set(key, RegionalNews(r.value.value), now);
    }
  }
}
