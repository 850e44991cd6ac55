/** The Open-Meteo fetcher: turns the current temperature and weather code into a
    spoken weather item. The temperature arrives already rounded to whole degrees. */
module Weather {
  import opened Wrappers
  import opened Text
  import opened NewsTypes
  import opened Constants
  import opened Cache

  /** The fields of the current-conditions response that the fetcher reads. */
  datatype Current = Current(roundedTemperature: int, weatherCode: int)

  const ADVICE_COLD: string := "Ziehen Sie sich warm an, wenn Sie das Haus verlassen."
  const ADVICE_MILD: string := "Denken Sie an eine Jacke, wenn Sie nach draußen gehen."
  const ADVICE_WARM: string := "Ein schöner Tag, um nach draußen zu gehen."
  const UNKNOWN_WEATHER: string := "wechselhaft"

  function WeatherKey(latitude: string, longitude: string): string {
    "weather_" + latitude + "_" + longitude
  }

  /** `WEATHER_CODES[code] || "wechselhaft"`. */
  function Description(code: int): string {
    if code in WEATHER_CODES && WEATHER_CODES[code] != "" then WEATHER_CODES[code] else UNKNOWN_WEATHER
  }

  /** Every table entry is non-empty, so the description is the table's text for a
      listed code and "wechselhaft" for any other. */
  lemma DescriptionLookup(code: int)
    ensures code in WEATHER_CODES ==> Description(code) == WEATHER_CODES[code]
    ensures code !in WEATHER_CODES ==> Description(code) == "wechselhaft"
  {
  }

  function ClothingAdvice(temp: int): string {
    if temp < 5 then ADVICE_COLD else if temp < 15 then ADVICE_MILD else ADVICE_WARM
  }

  /** The three temperature bands: below 5, 5 to 14, 15 and above. */
  lemma AdviceBands(temp: int)
    ensures ClothingAdvice(temp) == ADVICE_COLD <==> temp < 5
    ensures ClothingAdvice(temp) == ADVICE_MILD <==> 5 <= temp < 15
    ensures ClothingAdvice(temp) == ADVICE_WARM <==> 15 <= temp
  {
  }

  /** The advice only ever gets milder as the temperature rises. */
  lemma AdviceMonotone(t1: int, t2: int)
    requires t1 <= t2
    ensures ClothingAdvice(t1) == ADVICE_WARM ==> ClothingAdvice(t2) == ADVICE_WARM
    ensures ClothingAdvice(t2) == ADVICE_COLD ==> ClothingAdvice(t1) == ADVICE_COLD
  {
  }

  function WeatherSummary(current: Current): string {
    SummaryText(Description(current.weatherCode), IntToRadix(current.roundedTemperature, 10),
      ClothingAdvice(current.roundedTemperature))
  }

  function SummaryText(description: string, degrees: string, advice: string): string {
    "Heute erwarten wir " + description + ". Die Temperaturen liegen bei " + degrees + " Grad. " + advice
  }

  lemma SummaryTextShape(description: string, degrees: string, advice: string)
    ensures StartsWith(SummaryText(description, degrees, advice), "Heute erwarten wir " + description + ". ")
    ensures EndsWith(SummaryText(description, degrees, advice), advice)
  {
    var head := "Heute erwarten wir " + description + ". ";
    var s := SummaryText(description, degrees, advice);
    assert s == head + ("Die Temperaturen liegen bei " + degrees + " Grad. ") + advice;
    assert s[..|head|] == head;
  }

  /** The weather item: headline and summary for the city, kind "wetter" and no
      original text, so it is never sent for simplification. */
  function WeatherItem(cityName: string, current: Current): RawNewsItem {
    RawNewsItem("Das Wetter in " + cityName, WeatherSummary(current), Wetter, None, None)
  }

  /** The headline is "Das Wetter in " followed by the city name; the summary starts
      with the description and ends with the advice; the item has no original text. */
  lemma WeatherItemShape(cityName: string, current: Current)
    ensures var item := WeatherItem(cityName, current);
      && item.kind == Wetter
      && item.originalTitle.None? && item.originalSummary.None?
      && StartsWith(item.headline, "Das Wetter in ")
      && item.headline[|"Das Wetter in "|..] == cityName
      && StartsWith(item.summary, "Heute erwarten wir " + Description(current.weatherCode) + ". ")
      && EndsWith(item.summary, ClothingAdvice(current.roundedTemperature))
  {
    SummaryTextShape(Description(current.weatherCode), IntToRadix(current.roundedTemperature, 10),
      ClothingAdvice(current.roundedTemperature));
  }

  predicate EndsWith(s: string, suffix: string) {
    |suffix| <= |s| && s[|s| - |suffix|..] == suffix
  }

  /** What the weather request yields when the cache misses. */
  function WeatherFromResponse(cityName: string, response: HttpOutcome<Current>): Result<RawNewsItem, FetchError> {
    match response
    case TransportFailure => Failure(Transport)
    case Response(ok, status, body) =>
      if !ok then Failure(BadStatus(status))
      else if body.None? then Failure(BadBody)
      else Success(WeatherItem(cityName, body.value))
  }

  function AsWeather(v: Option<CachedValue>): Option<RawNewsItem> {
    if v.Some? && v.value.WeatherReport? then Some(v.value.item) else None
  }

  /** `fetchWeather`: a fresh cached item under "weather_<lat>_<lon>" is returned without
      a request; otherwise the response decides, and a built item is cached before it
      is returned. */
  method FetchWeather(cache: SimpleCache<CachedValue>, cityName: string, latitude: string, longitude: string,
                      now: int, response: HttpOutcome<Current>)
    returns (r: Result<RawNewsItem, FetchError>, ghost requested: bool)
    modifies cache
    ensures var key := WeatherKey(latitude, longitude);
            var hit := AsWeather(Lookup(old(cache.entries), key, CACHE_TTL_MS, now));
            var afterRead := AfterLookup(old(cache.entries), key, CACHE_TTL_MS, now);
            if hit.Some? then
              r == Success(hit.value) && !requested && cache.entries == afterRead
            else
              requested && r == WeatherFromResponse(cityName, response) &&
              cache.entries == if r.Success? then Stored(afterRead, key, WeatherReport(r.value), now) else afterRead
  {
    var key := WeatherKey(latitude, longitude);
    var cached := cache.Get(key, CACHE_TTL_MS, now);
    if cached.Some? && cached.value.WeatherReport? {
      return Success(cached.value.item), false;
    }
    requested := true;
    r := WeatherFromResponse(cityName, response);
    if r.Success? {
      cache.Set(key, WeatherReport(r.value), now);
    }
  }
}
