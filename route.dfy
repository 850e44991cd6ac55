/** The older `/api/news` route: RSS feeds (at most three items each, five in all),
    one batched model rewrite with a truncating fallback, a local story and a
    weather item from fixed tables, assembled in editorial order. Feed results and
    the model's reply are inputs. */
module NewsRoute {
  import opened Wrappers
  import opened Text
  import opened NewsTypes
  import opened Tables

  // ---------------------------------------------------------------- fetchRSSNews

  /** One item as the RSS parser delivers it; every field may be absent. */
  datatype FeedItem = FeedItem(title: Option<string>, contentSnippet: Option<string>,
                               content: Option<string>, description: Option<string>)

  /** `{ title, content }` as `fetchRSSNews` returns it. */
  datatype RssItem = RssItem(title: string, content: string)

  const UNTITLED := "Ohne Titel"
  const ITEMS_PER_FEED: nat := 3
  const MAX_RSS_ITEMS: nat := 5

  /** A feed item's title and content: a falsy title becomes "Ohne Titel", the
      content is the first truthy of snippet, content and description, else "". */
  function ToRssItem(item: FeedItem): (r: RssItem)
    ensures r.title != ""
    ensures Truthy(item.title) ==> r.title == item.title.value
    ensures r.content == "" <==> !Truthy(item.contentSnippet) && !Truthy(item.content) && !Truthy(item.description)
    ensures Truthy(item.contentSnippet) ==> r.content == item.contentSnippet.value
    ensures !Truthy(item.contentSnippet) && Truthy(item.content) ==> r.content == item.content.value
  {
    RssItem(OrElse(item.title, UNTITLED),
            OrElse(item.contentSnippet, OrElse(item.content, OrElse(item.description, ""))))
  }

  /** The first three items of one feed, mapped. */
  function FeedItems(feed: seq<FeedItem>): (r: seq<RssItem>)
    ensures |r| == Min(ITEMS_PER_FEED, |feed|)
    ensures forall i :: 0 <= i < |r| ==> r[i] == ToRssItem(feed[i])
  {
    var kept := Take(feed, ITEMS_PER_FEED);
    seq(|kept|, i requires 0 <= i < |kept| => ToRssItem(kept[i]))
  }

  /** Everything the loop pushes, feed after feed; a feed that failed (`None`)
      adds nothing. */
  function Gathered(results: seq<Option<seq<FeedItem>>>): (r: seq<RssItem>)
    decreases |results|
  {
    if results == [] then []
    else
      var n := |results| - 1;
      Gathered(results[..n]) + (if results[n].Some? then FeedItems(results[n].value) else [])
  }

  /** `fetchRSSNews`, given what each feed yielded in turn. */
  method FetchRssNews(results: seq<Option<seq<FeedItem>>>) returns (items: seq<RssItem>)
    ensures items == Take(Gathered(results), MAX_RSS_ITEMS)
    ensures |items| <= MAX_RSS_ITEMS
  {
    var allItems: seq<RssItem> := [];
    var k := 0;
    while k < |results|
      invariant 0 <= k <= |results|
      invariant allItems == Gathered(results[..k])
    {
      assert results[..k + 1][..k] == results[..k];
      if results[k].Some? {
        allItems := allItems + FeedItems(results[k].value);
      }
      k := k + 1;
    }
    assert results[..k] == results;
    items := Take(allItems, MAX_RSS_ITEMS);
  }

  /** No feed contributes more than three items. */
  lemma {:induction false} GatheredBound(results: seq<Option<seq<FeedItem>>>)
    ensures |Gathered(results)| <= ITEMS_PER_FEED * |results|
    decreases |results|
  {
    if results != [] {
      GatheredBound(results[..|results| - 1]);
    }
  }

  /** Feed order is kept: the items of a feed that succeeded sit together, right
      after those of the feeds before it. */
  lemma {:induction false} GatheredInFeedOrder(results: seq<Option<seq<FeedItem>>>, k: nat)
    requires k < |results| && results[k].Some?
    ensures var before := |Gathered(results[..k])|;
      before + |FeedItems(results[k].value)| <= |Gathered(results)| &&
      Gathered(results)[before..before + |FeedItems(results[k].value)|] == FeedItems(results[k].value)
    decreases |results|
  {
    var n := |results| - 1;
    if k == n {
      assert results[..k] == results[..n];
    } else {
      assert results[..n][..k] == results[..k];
      GatheredInFeedOrder(results[..n], k);
    }
  }

  // ---------------------------------------------------------------- simplifyNewsWithClaude

  const TRUNCATE_AT: nat := 200
  const ELLIPSIS := "..."

  /** `content.slice(0, 200) + (content.length > 200 ? "..." : "")`. */
  function Truncate(content: string): (r: string)
    ensures |r| <= TRUNCATE_AT + |ELLIPSIS|
    ensures |content| <= TRUNCATE_AT ==> r == content
    ensures |content| > TRUNCATE_AT ==>
              |r| == TRUNCATE_AT + |ELLIPSIS| && r[..TRUNCATE_AT] == content[..TRUNCATE_AT] && r[TRUNCATE_AT..] == ELLIPSIS
  {
    Take(content, TRUNCATE_AT) + (if |content| > TRUNCATE_AT then ELLIPSIS else "")
  }

  /** The untouched fallback: one "welt" item per input, headline the title,
      summary the truncated content. */
  function FallbackItems(items: seq<RssItem>): (r: seq<NewsItem>)
    ensures |r| == |items|
    ensures forall i :: 0 <= i < |r| ==> r[i] == NewsItem(items[i].title, Truncate(items[i].content), Welt)
  {
    seq(|items|, i requires 0 <= i < |items| => NewsItem(items[i].title, Truncate(items[i].content), Welt))
  }

  /** What the model call produced: it threw (also when the bracketed text was not
      valid JSON), the text held no bracketed array, or the array decoded to these
      headline/summary pairs. */
  datatype ModelResult = CallFailed | NoArray | Decoded(entries: seq<(string, string)>)

  /** `simplifyNewsWithClaude`: without an API key, or when the call gives no usable
      array, the fallback; otherwise every decoded pair as a "welt" item, however
      many there are. */
  function SimplifyWithClaude(items: seq<RssItem>, hasApiKey: bool, result: ModelResult): (r: seq<NewsItem>)
    ensures forall i :: 0 <= i < |r| ==> r[i].kind == Welt
    ensures hasApiKey && result.Decoded? ==>
              |r| == |result.entries| &&
              forall i :: 0 <= i < |r| ==> r[i].headline == result.entries[i].0 && r[i].summary == result.entries[i].1
  {
    if hasApiKey && result.Decoded? then
      var e := result.entries;
      seq(|e|, i requires 0 <= i < |e| => NewsItem(e[i].0, e[i].1, Welt))
    else FallbackItems(items)
  }

  /** Every path that does not decode an array yields one "welt" item per input, in
      order, with each summary at most 203 characters. */
  lemma FallbackOnePerInput(items: seq<RssItem>, hasApiKey: bool, result: ModelResult)
    requires !hasApiKey || !result.Decoded?
    ensures var r := SimplifyWithClaude(items, hasApiKey, result);
      |r| == |items| &&
      forall i :: 0 <= i < |r| ==>
        r[i].headline == items[i].title && r[i].kind == Welt &&
        |r[i].summary| <= TRUNCATE_AT + |ELLIPSIS| && (|items[i].content| <= TRUNCATE_AT ==> r[i].summary == items[i].content)
  {
  }

  // ---------------------------------------------------------------- tables of GET

  datatype WeatherData = WeatherData(temp: string, description: string)
  datatype LocalNews = LocalNews(headline: string, summary: string)

  const ROUTE_CITIES: seq<string> :=
    ["berlin", "hamburg", "muenchen", "koeln", "frankfurt", "stuttgart", "duesseldorf", "leipzig", "dortmund", "dresden"]

  const WETTER_DATEN: seq<(string, WeatherData)> := [
    ("berlin", WeatherData("7", "bewölkt mit gelegentlichen Aufhellungen")),
    ("hamburg", WeatherData("9", "leichter Regen")),
    ("muenchen", WeatherData("4", "sonnig aber kühl")),
    ("koeln", WeatherData("10", "bedeckt")),
    ("frankfurt", WeatherData("8", "neblig am Morgen, später freundlich")),
    ("stuttgart", WeatherData("6", "wechselhaft")),
    ("duesseldorf", WeatherData("9", "leicht bewölkt")),
    ("leipzig", WeatherData("5", "trocken und kühl")),
    ("dortmund", WeatherData("8", "bedeckt")),
    ("dresden", WeatherData("4", "sonnig"))
  ]

  const LOKALE_NACHRICHTEN: seq<(string, LocalNews)> := [
    ("berlin", LocalNews("Neuer Spielplatz im Volkspark eröffnet",
      "Die Stadt hat einen barrierefreien Spielplatz eingeweiht, der Kindern und Großeltern gemeinsames Spielen ermöglicht.")),
    ("hamburg", LocalNews("Ehrenamtliche Helfer räumen Elbstrand auf",
      "Über zweihundert Freiwillige haben am Wochenende den Strand gereinigt. Die Aktion wird von vielen Bürgern gelobt.")),
    ("muenchen", LocalNews("Münchner Bäckerei verschenkt Brot an Bedürftige",
      "Eine traditionelle Bäckerei in Schwabing gibt täglich Brot an Menschen weiter, die wenig Geld haben.")),
    ("koeln", LocalNews("Kölner Dom erhält neue Glocken",
      "Nach aufwendiger Restaurierung läuten die historischen Glocken wieder in voller Pracht.")),
    ("frankfurt", LocalNews("Stadtbibliothek startet Vorlesestunden für Senioren",
      "Jeden Donnerstag lesen junge Freiwillige älteren Menschen aus Büchern vor. Das Angebot ist kostenlos.")),
    ("stuttgart", LocalNews("Neuer Seniorentreff im Stadtteil eröffnet",
      "Der gemütliche Treffpunkt bietet Kaffee, Kuchen und Gesellschaft für alle, die Gesellschaft suchen.")),
    ("duesseldorf", LocalNews("Nachbarschaftshilfe verbindet Jung und Alt",
      "Ein neues Projekt bringt Schüler und Senioren zusammen. Sie helfen sich gegenseitig im Alltag.")),
    ("leipzig", LocalNews("Historischer Marktplatz erstrahlt in neuem Glanz",
      "Nach der Renovierung lädt der Platz wieder zum Verweilen ein. Neue Bänke wurden aufgestellt.")),
    ("dortmund", LocalNews("Tierpark freut sich über Nachwuchs",
      "Im städtischen Zoo sind zwei Rehkitze geboren worden. Besucher können sie ab nächster Woche sehen.")),
    ("dresden", LocalNews("Elbe-Radweg wird ausgebaut",
      "Der beliebte Radweg bekommt neue Rastplätze mit Bänken und Trinkwasserbrunnen."))
  ]

  const CITY_NAMES: seq<(string, string)> := [
    ("berlin", "Berlin"), ("hamburg", "Hamburg"), ("muenchen", "München"), ("koeln", "Köln"),
    ("frankfurt", "Frankfurt"), ("stuttgart", "Stuttgart"), ("duesseldorf", "Düsseldorf"),
    ("leipzig", "Leipzig"), ("dortmund", "Dortmund"), ("dresden", "Dresden")
  ]

  /** The three tables list the same ten cities, in the same order. */
  lemma RouteTablesAgree()
    ensures TableKeys(WETTER_DATEN) == ROUTE_CITIES
    ensures TableKeys(LOKALE_NACHRICHTEN) == ROUTE_CITIES
    ensures TableKeys(CITY_NAMES) == ROUTE_CITIES
  {
  }

  // ---------------------------------------------------------------- GET

  const DEFAULT_CITY := "berlin"

  /** `searchParams.get("city") || "berlin"`: an absent or empty parameter. */
  function CityParam(param: Option<string>): (r: string)
    ensures r != ""
    ensures Truthy(param) ==> r == param.value
  {
    OrElse(param, DEFAULT_CITY)
  }

  /** The local story: the city's entry, else berlin's. */
  function LocalItem(city: string): (r: NewsItem)
    ensures r.kind == Lokal
    ensures Find(LOKALE_NACHRICHTEN, city).Some? ==>
              r == NewsItem(Find(LOKALE_NACHRICHTEN, city).value.headline, Find(LOKALE_NACHRICHTEN, city).value.summary, Lokal)
  {
    var entry := Find(LOKALE_NACHRICHTEN, city).GetOr(LOKALE_NACHRICHTEN[0].1);
    NewsItem(entry.headline, entry.summary, Lokal)
  }

  const WARM_CLOTHES := "Denken Sie an warme Kleidung, wenn Sie das Haus verlassen."

  function WeatherSentence(data: WeatherData): string {
    "Heute erwarten wir " + data.description + ". Die Temperaturen liegen bei " + data.temp + " Grad. " + WARM_CLOTHES
  }

  /** The weather item: berlin's data for a city not in the table, and the city's
      display name in the headline, or the raw id when it has none. */
  function WeatherItem(city: string): (r: NewsItem)
    ensures r.kind == Wetter
    ensures Find(CITY_NAMES, city).None? ==> r.headline == "Das Wetter in " + city
  {
    var data := Find(WETTER_DATEN, city).GetOr(WETTER_DATEN[0].1);
    var name := Find(CITY_NAMES, city).GetOr(city);
    NewsItem("Das Wetter in " + name, WeatherSentence(data), Wetter)
  }

  /** A city the tables do not know gets berlin's local story and berlin's weather
      text, under its own id. */
  lemma UnknownCityUsesBerlin(city: string)
    requires city !in ROUTE_CITIES
    ensures LocalItem(city) == LocalItem(DEFAULT_CITY)
    ensures WeatherItem(city).summary == WeatherItem(DEFAULT_CITY).summary
    ensures WeatherItem(city).headline == "Das Wetter in " + city
  {
    RouteTablesAgree();
    FindAbsent(LOKALE_NACHRICHTEN, city);
    FindAbsent(WETTER_DATEN, city);
    FindAbsent(CITY_NAMES, city);
  }

  // ---------------------------------------------------------------- GET as written

  /** An item as the route builds it before serialising; a field the spread did not
      supply is absent, and `NextResponse.json` leaves it out. */
  datatype BuiltItem = BuiltItem(headline: Option<string>, summary: Option<string>, kind: NewsKind)

  function Built(item: NewsItem): BuiltItem {
    BuiltItem(Some(item.headline), Some(item.summary), item.kind)
  }

  const UNDEFINED_TEXT := "undefined"

  /** `String(v)` of a member of `Object.prototype`, in V8's form: `__proto__` is the
      prototype object itself, `constructor` is the `Object` function, and the others
      are built-in functions under their own names. */
  function InheritedText(name: string): string {
    if name == "__proto__" then "[object Object]"
    else if name == "constructor" then "function Object() { [native code] }"
    else "function " + name + "() { [native code] }"
  }

  /** The local story as written: an inherited member is truthy, so the berlin
      fallback is skipped and the member is spread; it has no own enumerable
      properties, so only `type` is set. */
  function LocalItemAsWritten(city: string): BuiltItem {
    match PropertyOf(LOKALE_NACHRICHTEN, city)
    case Own(n) => BuiltItem(Some(n.headline), Some(n.summary), Lokal)
    case Inherited(_) => BuiltItem(None, None, Lokal)
    case Undefined =>
      var n := LOKALE_NACHRICHTEN[0].1;
      BuiltItem(Some(n.headline), Some(n.summary), Lokal)
  }

  /** The weather item as written: an inherited member has no `beschreibung` and no
      `temp`, which the template prints as "undefined", and an inherited display name
      is printed as its `String` form. */
  function WeatherItemAsWritten(city: string): NewsItem {
    var data := match PropertyOf(WETTER_DATEN, city)
      case Own(d) => d
      case Inherited(_) => WeatherData(UNDEFINED_TEXT, UNDEFINED_TEXT)
      case Undefined => WETTER_DATEN[0].1;
    var name := match PropertyOf(CITY_NAMES, city)
      case Own(n) => n
      case Inherited(k) => InheritedText(k)
      case Undefined => city;
    NewsItem("Das Wetter in " + name, WeatherSentence(data), Wetter)
  }

  /** No city of the tables is named after a member of `Object.prototype`, so all
      three lookups of such a name reach the prototype. */
  lemma InheritedLookups(city: string)
    requires city in INHERITED_NAMES
    ensures PropertyOf(LOKALE_NACHRICHTEN, city) == Inherited(city)
    ensures PropertyOf(WETTER_DATEN, city) == Inherited(city)
    ensures PropertyOf(CITY_NAMES, city) == Inherited(city)
    ensures city !in ROUTE_CITIES
  {
    assert city !in ROUTE_CITIES;
    RouteTablesAgree();
    FindAbsent(LOKALE_NACHRICHTEN, city);
    FindAbsent(WETTER_DATEN, city);
    FindAbsent(CITY_NAMES, city);
  }

  /** For every id that is not an inherited name, the route as written builds exactly
      the items of the own-key lookup `LocalItem` and `WeatherItem`. */
  lemma AsWrittenAgreesOffPrototype(city: string)
    requires city !in INHERITED_NAMES
    ensures LocalItemAsWritten(city) == Built(LocalItem(city))
    ensures WeatherItemAsWritten(city) == WeatherItem(city)
  {
  }

  /** For an inherited name (`?city=toString`, say), the route as written builds a
      local item with neither headline nor summary, and a weather item that reads
      "undefined" where berlin's forecast belongs and, where the city belongs, the
      member's `String` form (`function <name>() { [native code] }`, or
      `[object Object]` for `__proto__`), unlike `UnknownCityUsesBerlin`. */
  lemma InheritedNameBreaksItems(city: string)
    requires city in INHERITED_NAMES
    ensures LocalItemAsWritten(city) == BuiltItem(None, None, Lokal)
    ensures LocalItemAsWritten(city) != Built(LocalItem(city))
    ensures WeatherItemAsWritten(city).summary == WeatherSentence(WeatherData(UNDEFINED_TEXT, UNDEFINED_TEXT))
    ensures WeatherItemAsWritten(city).headline == "Das Wetter in " + InheritedText(city)
    ensures WeatherItemAsWritten(city).summary != WeatherItem(city).summary
  {
    InheritedLookups(city);
    UndefinedForecastDiffers();
  }

  /** The forecast with both fields undefined is not berlin's forecast. */
  lemma UndefinedForecastDiffers()
    ensures WeatherSentence(WeatherData(UNDEFINED_TEXT, UNDEFINED_TEXT)) != WeatherSentence(WETTER_DATEN[0].1)
  {
    assert |WeatherSentence(WeatherData(UNDEFINED_TEXT, UNDEFINED_TEXT))| != |WeatherSentence(WETTER_DATEN[0].1)|;
  }

  /** The editorial order: up to three world items, the local story, the rest,
      then the weather. */
  function Assemble(simplified: seq<NewsItem>, local: NewsItem, weather: NewsItem): seq<NewsItem> {
    Take(simplified, 3) + [local] + Drop(simplified, 3) + [weather]
  }

  /** The assembled list has two more items than the simplified one; the weather is
      last, the local story sits at `min(3, n)` (first when there are no world items),
      and taking those two out gives back the simplified list. */
  lemma AssembleShape(simplified: seq<NewsItem>, local: NewsItem, weather: NewsItem)
    ensures var r := Assemble(simplified, local, weather);
      var at := Min(3, |simplified|);
      |r| == |simplified| + 2 &&
      r[|r| - 1] == weather &&
      r[at] == local &&
      r[..at] + r[at + 1..|r| - 1] == simplified
  {
    var r := Assemble(simplified, local, weather);
    var at := Min(3, |simplified|);
    var front := Take(simplified, 3);
    var back := Drop(simplified, 3);
    assert r == front + [local] + back + [weather];
    assert r[..at] == front;
    assert r[at + 1..|r| - 1] == back;
  }

  /** The route's JSON body, without the timestamp. */
  datatype RouteResponse = RouteResponse(news: seq<NewsItem>, city: string)

  /** `GET /api/news?city=…`, given each feed's result, whether an API key is set,
      and what the model call produced. */
  method Get(cityParam: Option<string>, feeds: seq<Option<seq<FeedItem>>>, hasApiKey: bool, result: ModelResult)
    returns (response: RouteResponse)
    ensures var city := CityParam(cityParam);
      var simplified := SimplifyWithClaude(Take(Gathered(feeds), MAX_RSS_ITEMS), hasApiKey, result);
      response == RouteResponse(Assemble(simplified, LocalItem(city), WeatherItem(city)), city)
  {
    var city := CityParam(cityParam);
    var rssNews := FetchRssNews(feeds);
    var simplifiedNews := SimplifyWithClaude(rssNews, hasApiKey, result);
    var lokalItem := LocalItem(city);
    var wetterItem := WeatherItem(city);
    response := RouteResponse(Assemble(simplifiedNews, lokalItem, wetterItem), city);
  }

  /** Without a usable model array, the route returns at most five world items with
      the local story at `min(3, n)` and the weather last: between two and seven
      items. */
  lemma GetWithoutModel(cityParam: Option<string>, feeds: seq<Option<seq<FeedItem>>>, hasApiKey: bool, result: ModelResult)
    requires !hasApiKey || !result.Decoded?
    ensures var city := CityParam(cityParam);
      var rss := Take(Gathered(feeds), MAX_RSS_ITEMS);
      var news := Assemble(SimplifyWithClaude(rss, hasApiKey, result), LocalItem(city), WeatherItem(city));
      2 <= |news| <= MAX_RSS_ITEMS + 2 && |news| == |rss| + 2 &&
      news[|news| - 1].kind == Wetter && news[Min(3, |rss|)].kind == Lokal &&
      forall i :: 0 <= i < |news| - 1 && i != Min(3, |rss|) ==> news[i].kind == Welt
  {
    var city := CityParam(cityParam);
    var rss := Take(Gathered(feeds), MAX_RSS_ITEMS);
    var simplified := SimplifyWithClaude(rss, hasApiKey, result);
    FallbackOnePerInput(rss, hasApiKey, result);
    AssembleShape(simplified, LocalItem(city), WeatherItem(city));
    var news := Assemble(simplified, LocalItem(city), WeatherItem(city));
    var at := Min(3, |rss|);
    forall i | 0 <= i < |news| - 1 && i != at
      ensures news[i].kind == Welt
    {
      if i < at {
        assert news[i] == news[..at][i];
      } else {
        assert news[i] == news[at + 1..|news| - 1][i - at - 1];
      }
    }
  }

  const PREPARING_ITEM :=
    NewsItem("Nachrichten werden vorbereitet",
             "Wir bereiten gerade die aktuellen Nachrichten für Sie vor. Bitte versuchen Sie es in wenigen Augenblicken erneut.",
             Welt)
  const AUTUMN_WEATHER_ITEM :=
    NewsItem("Das Wetter in Ihrer Stadt",
             "Heute wird es herbstlich mit Temperaturen um die acht Grad. Ziehen Sie sich warm an.",
             Wetter)

  /** The list the outer `catch` returns: one world item, then one weather item. */
  function FallbackNews(): (r: seq<NewsItem>)
    ensures |r| == 2 && r[0].kind == Welt && r[1].kind == Wetter
  {
    [PREPARING_ITEM, AUTUMN_WEATHER_ITEM]
  }
}
