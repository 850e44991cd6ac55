/** The pure parts of the client page: the demo list used when the route cannot be
    reached, the phrase that introduces each spoken item, and the choice of a German
    voice. */
module Page {
  import opened Wrappers
  import opened Text
  import opened NewsTypes
  import opened Tables

  // ---------------------------------------------------------------- getDemoNews

  datatype DemoWeather = DemoWeather(temp: string, description: string)
  datatype DemoLocal = DemoLocal(headline: string, summary: string)

  const DEMO_NACHRICHTEN: seq<NewsItem> := [
    NewsItem("Bundesregierung beschließt neue Maßnahmen",
      "Die Bundesregierung hat heute in Berlin wichtige Beschlüsse gefasst. Die neuen Regelungen sollen das Leben der Bürgerinnen und Bürger verbessern und treten zum Jahreswechsel in Kraft.",
      Welt),
    NewsItem("Wirtschaft zeigt sich zuversichtlich",
      "Deutsche Unternehmen blicken optimistisch in die Zukunft. Besonders der Mittelstand rechnet mit guten Geschäften im kommenden Jahr.",
      Welt),
    NewsItem("Kulturveranstaltungen ziehen Besucher an",
      "Museen und Theater melden steigende Besucherzahlen. Die Menschen genießen wieder das gemeinsame Erleben von Kunst und Kultur.",
      Welt)
  ]

  const PAGE_CITIES: seq<string> := [
    "stuttgart", "muenchen", "berlin", "potsdam", "bremen", "hamburg", "wiesbaden", "schwerin",
    "hannover", "duesseldorf", "mainz", "saarbruecken", "dresden", "magdeburg", "kiel", "erfurt"
  ]

  const LOKALE_NACHRICHTEN: seq<(string, DemoLocal)> := [
    ("stuttgart", DemoLocal("Neuer Seniorentreff im Stadtteil eröffnet",
      "Der gemütliche Treffpunkt bietet Kaffee, Kuchen und Gesellschaft für alle, die Gesellschaft suchen.")),
    ("muenchen", DemoLocal("Münchner Bäckerei verschenkt Brot an Bedürftige",
      "Eine traditionelle Bäckerei in Schwabing gibt täglich Brot an Menschen weiter, die wenig Geld haben.")),
    ("berlin", DemoLocal("Neuer Spielplatz im Volkspark eröffnet",
      "Die Stadt hat einen barrierefreien Spielplatz eingeweiht, der Kindern und Großeltern gemeinsames Spielen ermöglicht.")),
    ("potsdam", DemoLocal("Schloss Sanssouci begeistert Besucher",
      "Das historische Schloss zieht wieder viele Gäste an. Die Parkanlage lädt zu gemütlichen Spaziergängen ein.")),
    ("bremen", DemoLocal("Bremer Stadtmusikanten bekommen neuen Anstrich",
      "Die berühmte Bronzestatue wurde gereinigt und erstrahlt in neuem Glanz. Ein beliebtes Fotomotiv für Touristen.")),
    ("hamburg", DemoLocal("Ehrenamtliche Helfer räumen Elbstrand auf",
      "Über zweihundert Freiwillige haben am Wochenende den Strand gereinigt. Die Aktion wird von vielen Bürgern gelobt.")),
    ("wiesbaden", DemoLocal("Kurpark lädt zu Frühlingskonzerten ein",
      "Im historischen Kurpark finden wieder kostenlose Konzerte statt. Die Veranstaltungen sind für alle Altersgruppen geeignet.")),
    ("schwerin", DemoLocal("Schweriner Schloss öffnet neue Ausstellung",
      "Das Märchenschloss zeigt historische Gemälde aus drei Jahrhunderten. Der Eintritt ist für Senioren ermäßigt.")),
    ("hannover", DemoLocal("Herrenhäuser Gärten laden zum Verweilen ein",
      "Die barocken Gärten bieten Ruhe und Erholung. Neue Sitzbänke wurden im Schatten aufgestellt.")),
    ("duesseldorf", DemoLocal("Nachbarschaftshilfe verbindet Jung und Alt",
      "Ein neues Projekt bringt Schüler und Senioren zusammen. Sie helfen sich gegenseitig im Alltag.")),
    ("mainz", DemoLocal("Gutenberg-Museum zeigt seltene Drucke",
      "Das Museum präsentiert wertvolle historische Bücher. Führungen werden auch in einfacher Sprache angeboten.")),
    ("saarbruecken", DemoLocal("Deutsch-Französischer Garten blüht auf",
      "Der grenzüberschreitende Park zeigt sich in voller Blütenpracht. Ein Ort der Begegnung für Jung und Alt.")),
    ("dresden", DemoLocal("Elbe-Radweg wird ausgebaut",
      "Der beliebte Radweg bekommt neue Rastplätze mit Bänken und Trinkwasserbrunnen.")),
    ("magdeburg", DemoLocal("Elbauenpark startet Seniorenprogramm",
      "Der Park bietet neue Bewegungskurse für ältere Menschen an. Die Teilnahme ist kostenlos.")),
    ("kiel", DemoLocal("Kieler Förde lädt zum Flanieren ein",
      "Die neue Uferpromenade bietet einen schönen Blick auf die Schiffe. Viele Bänke laden zum Ausruhen ein.")),
    ("erfurt", DemoLocal("Krämerbrücke feiert Jubiläum",
      "Die älteste bebaute Brücke Deutschlands begeht ihr Stadtfest. Handwerker zeigen traditionelles Kunsthandwerk."))
  ]

  const WETTER_DATEN: seq<(string, DemoWeather)> := [
    ("stuttgart", DemoWeather("6", "wechselhaft")),
    ("muenchen", DemoWeather("4", "sonnig aber kühl")),
    ("berlin", DemoWeather("7", "bewölkt mit gelegentlichen Aufhellungen")),
    ("potsdam", DemoWeather("7", "leicht bewölkt")),
    ("bremen", DemoWeather("8", "windig mit Schauern")),
    ("hamburg", DemoWeather("9", "leichter Regen")),
    ("wiesbaden", DemoWeather("9", "mild und freundlich")),
    ("schwerin", DemoWeather("6", "wechselhaft")),
    ("hannover", DemoWeather("7", "bedeckt")),
    ("duesseldorf", DemoWeather("9", "leicht bewölkt")),
    ("mainz", DemoWeather("10", "sonnig")),
    ("saarbruecken", DemoWeather("8", "teilweise bewölkt")),
    ("dresden", DemoWeather("4", "sonnig")),
    ("magdeburg", DemoWeather("5", "trocken und kühl")),
    ("kiel", DemoWeather("7", "frisch mit Böen")),
    ("erfurt", DemoWeather("5", "neblig am Morgen"))
  ]

  const CITY_NAMES: seq<(string, string)> := [
    ("stuttgart", "Stuttgart"), ("muenchen", "München"), ("berlin", "Berlin"), ("potsdam", "Potsdam"),
    ("bremen", "Bremen"), ("hamburg", "Hamburg"), ("wiesbaden", "Wiesbaden"), ("schwerin", "Schwerin"),
    ("hannover", "Hannover"), ("duesseldorf", "Düsseldorf"), ("mainz", "Mainz"), ("saarbruecken", "Saarbrücken"),
    ("dresden", "Dresden"), ("magdeburg", "Magdeburg"), ("kiel", "Kiel"), ("erfurt", "Erfurt")
  ]

  /** The three demo tables list the same sixteen state capitals, in the same order. */
  lemma DemoTablesAgree()
    ensures |PAGE_CITIES| == 16
    ensures TableKeys(LOKALE_NACHRICHTEN) == PAGE_CITIES
    ensures TableKeys(WETTER_DATEN) == PAGE_CITIES
    ensures TableKeys(CITY_NAMES) == PAGE_CITIES
  {
  }

  const BERLIN := "berlin"
  const DEMO_BERLIN_LOCAL := LOKALE_NACHRICHTEN[2].1
  const DEMO_BERLIN_WEATHER := WETTER_DATEN[2].1

  /** The fallback entries are berlin's. */
  lemma BerlinIsTheFallback()
    ensures LOKALE_NACHRICHTEN[2] == (BERLIN, DEMO_BERLIN_LOCAL)
    ensures WETTER_DATEN[2] == (BERLIN, DEMO_BERLIN_WEATHER)
  {
  }

  function DemoWeatherSentence(w: DemoWeather): string {
    "Heute erwarten wir " + w.description + ". Die Temperaturen liegen bei " + w.temp
      + " Grad. Denken Sie an warme Kleidung, wenn Sie das Haus verlassen."
  }

  /** The five demo items for one local story, one weather entry and a city name. */
  function DemoList(lokal: DemoLocal, wetter: DemoWeather, cityName: string): (r: seq<NewsItem>)
    ensures |r| == 5
    ensures r[..3] == DEMO_NACHRICHTEN
    ensures forall i :: 0 <= i < 3 ==> r[i].kind == Welt
    ensures r[3] == NewsItem(lokal.headline, lokal.summary, Lokal)
    ensures r[4] == NewsItem("Das Wetter in " + cityName, DemoWeatherSentence(wetter), Wetter)
  {
    DEMO_NACHRICHTEN + [NewsItem(lokal.headline, lokal.summary, Lokal),
                        NewsItem("Das Wetter in " + cityName, DemoWeatherSentence(wetter), Wetter)]
  }

  /** `getDemoNews`: the three demo world items, the city's local story and its
      weather, berlin's for a city not in the tables, with the raw id as the name of
      a city that has none. */
  function GetDemoNews(city: string): (r: seq<NewsItem>)
    ensures |r| == 5 && r[..3] == DEMO_NACHRICHTEN
    ensures r[3].kind == Lokal && r[4].kind == Wetter
  {
    var lokal := Find(LOKALE_NACHRICHTEN, city).GetOr(DEMO_BERLIN_LOCAL);
    var wetter := Find(WETTER_DATEN, city).GetOr(DEMO_BERLIN_WEATHER);
    var cityName := Find(CITY_NAMES, city).GetOr(city);
    DemoList(lokal, wetter, cityName)
  }

  /** A city the tables do not know plays berlin's local story and berlin's weather
      under its own id. */
  lemma DemoNewsFallback(city: string)
    requires city !in PAGE_CITIES
    ensures GetDemoNews(city) == DemoList(DEMO_BERLIN_LOCAL, DEMO_BERLIN_WEATHER, city)
  {
    DemoTablesAgree();
    FindAbsent(LOKALE_NACHRICHTEN, city);
    FindAbsent(WETTER_DATEN, city);
    FindAbsent(CITY_NAMES, city);
  }

  // ---------------------------------------------------------------- speakNews text

  const WEATHER_INTRO := "Und nun zum Wetter: "
  const REGION_INTRO := "Aus Ihrer Region: "
  const GREETING := "Guten Tag. Hier sind die Nachrichten. "
  const OUTRO := "Das waren die Nachrichten. Vielen Dank fürs Zuhören."

  /** The phrase spoken before an item: weather first, then local, then the greeting
      for the first position, otherwise nothing. */
  function Intro(item: NewsItem, index: int): (r: string)
    ensures r == WEATHER_INTRO <==> item.kind.Wetter?
    ensures r == REGION_INTRO <==> item.kind.Lokal?
    ensures r == GREETING <==> item.kind.Welt? && index == 0
    ensures r == "" <==> item.kind.Welt? && index != 0
  {
    if item.kind.Wetter? then WEATHER_INTRO
    else if item.kind.Lokal? then REGION_INTRO
    else if index == 0 then GREETING
    else ""
  }

  /** What is spoken for one item. */
  function SpokenText(item: NewsItem, index: int): string {
    Intro(item, index) + item.headline + ". " + item.summary
  }

  /** The spoken text opens with the intro, ends with the summary, and has the
      headline and ". " in between. */
  lemma SpokenTextShape(item: NewsItem, index: int)
    ensures var r := SpokenText(item, index);
      |r| == |Intro(item, index)| + |item.headline| + 2 + |item.summary| &&
      r[..|Intro(item, index)|] == Intro(item, index) &&
      r[|r| - |item.summary|..] == item.summary
  {
    var r := SpokenText(item, index);
    assert r == (Intro(item, index) + item.headline + ". ") + item.summary;
  }

  /** A local or weather item is introduced by its kind even in first position; only
      a world item in first position gets the greeting. */
  lemma KindBeatsPosition(item: NewsItem)
    requires item.kind != Welt
    ensures Intro(item, 0) == Intro(item, 1) != GREETING
  {
  }

  // ---------------------------------------------------------------- getGermanVoice

  datatype Voice = Voice(name: string, lang: string)

  predicate IsGerman(v: Voice) {
    StartsWith(v.lang, "de")
  }

  predicate NamedGerman(v: Voice, word: string) {
    IsGerman(v) && Contains(ToLower(v.name), word)
  }

  /** `voices.find(p)`: the first voice satisfying `p`. */
  function FindVoice(voices: seq<Voice>, p: Voice -> bool): (r: Option<Voice>)
    ensures r.Some? ==> p(r.value) && exists i :: (0 <= i < |voices| && voices[i] == r.value &&
                                                   forall j :: 0 <= j < i ==> !p(voices[j]))
    ensures r.None? ==> forall i :: 0 <= i < |voices| ==> !p(voices[i])
    decreases |voices|
  {
    if voices == [] then None
    else if p(voices[0]) then Some(voices[0])
    else
      var r := FindVoice(voices[1..], p);
      if r.Some? then
        var i :| 0 <= i < |voices[1..]| && voices[1..][i] == r.value && forall j :: 0 <= j < i ==> !p(voices[1..][j]);
        assert voices[i + 1] == r.value && forall j :: 0 <= j < i + 1 ==> !p(voices[j]);
        r
      else r
  }

  /** `getGermanVoice`: a German voice whose name mentions "female", else one
      mentioning "male", else any German voice, else the first voice (none when the
      list is empty). */
  function GetGermanVoice(voices: seq<Voice>): Option<Voice> {
    var female := FindVoice(voices, v => NamedGerman(v, "female"));
    var male := FindVoice(voices, v => NamedGerman(v, "male"));
    var german := FindVoice(voices, IsGerman);
    if female.Some? then female
    else if male.Some? then male
    else if german.Some? then german
    else if voices != [] then Some(voices[0])
    else None
  }

  /** The precedence of `getGermanVoice`: a chosen voice is German whenever any is;
      the first German voice whose name mentions "female" wins; failing that, the
      first mentioning "male"; failing both, the first German voice; a non-German
      voice is chosen only when there is no German voice, and then it is the first. */
  lemma VoicePrecedence(voices: seq<Voice>)
    ensures GetGermanVoice(voices).None? <==> voices == []
    ensures (exists i :: 0 <= i < |voices| && IsGerman(voices[i])) ==>
              GetGermanVoice(voices).Some? && IsGerman(GetGermanVoice(voices).value)
    ensures (exists i :: 0 <= i < |voices| && NamedGerman(voices[i], "female")) ==>
              GetGermanVoice(voices) == FindVoice(voices, v => NamedGerman(v, "female"))
    ensures (forall i :: 0 <= i < |voices| ==> !NamedGerman(voices[i], "female")) &&
            (exists i :: 0 <= i < |voices| && NamedGerman(voices[i], "male")) ==>
              GetGermanVoice(voices) == FindVoice(voices, v => NamedGerman(v, "male"))
    ensures (forall i :: 0 <= i < |voices| ==> !NamedGerman(voices[i], "female")) &&
            (forall i :: 0 <= i < |voices| ==> !NamedGerman(voices[i], "male")) &&
            (exists i :: 0 <= i < |voices| && IsGerman(voices[i])) ==>
              GetGermanVoice(voices) == FindVoice(voices, IsGerman)
    ensures (forall i :: 0 <= i < |voices| ==> !IsGerman(voices[i])) && voices != [] ==>
              GetGermanVoice(voices) == Some(voices[0])
  {
    var female := FindVoice(voices, v => NamedGerman(v, "female"));
    var male := FindVoice(voices, v => NamedGerman(v, "male"));
    var german := FindVoice(voices, IsGerman);
    if exists i :: 0 <= i < |voices| && IsGerman(voices[i]) {
      var i :| 0 <= i < |voices| && IsGerman(voices[i]);
      assert german.Some?;
    }
  }

  /** Every name mentioning "female" also mentions "male", so the second rule would
      pick such a voice too; the first rule is what makes it the preferred one. */
  lemma FemaleIsAlsoMale(name: string)
    ensures Contains(name, "female") ==> Contains(name, "male")
  {
    ContainsAt(name, "female");
    ContainsAt(name, "male");
    if Contains(name, "female") {
      var i :| OccursAt(name, "female", i);
      assert name[i + 2..i + 6] == "male";
      assert OccursAt(name, "male", i + 2);
    }
  }
}
