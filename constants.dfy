/** Static reference data: the sixteen state capitals with their Tagesschau region
    ids and coordinates, the German descriptions of the WMO weather codes served by
    Open-Meteo, and the cache and selection constants. */
module Constants {
  import opened Wrappers
  import Tables

  /** Coordinates are kept as the decimal text they print as, since they are only
      ever interpolated into cache keys and request URLs. */
  datatype CityConfig = CityConfig(
    name: string,
    stateName: string,
    regionId: int,
    latitude: string,
    longitude: string)

  /** `CITY_CONFIG`, in declaration order. */
  const CITIES: seq<(string, CityConfig)> := [
    ("stuttgart", CityConfig("Stuttgart", "Baden-Württemberg", 1, "48.7758", "9.1829")),
    ("muenchen", CityConfig("München", "Bayern", 2, "48.1351", "11.582")),
    ("berlin", CityConfig("Berlin", "Berlin", 3, "52.52", "13.405")),
    ("potsdam", CityConfig("Potsdam", "Brandenburg", 4, "52.3906", "13.0645")),
    ("bremen", CityConfig("Bremen", "Bremen", 5, "53.0793", "8.8017")),
    ("hamburg", CityConfig("Hamburg", "Hamburg", 6, "53.5511", "9.9937")),
    ("wiesbaden", CityConfig("Wiesbaden", "Hessen", 7, "50.0782", "8.2398")),
    ("schwerin", CityConfig("Schwerin", "Mecklenburg-Vorpommern", 8, "53.6355", "11.4012")),
    ("hannover", CityConfig("Hannover", "Niedersachsen", 9, "52.3759", "9.732")),
    ("duesseldorf", CityConfig("Düsseldorf", "Nordrhein-Westfalen", 10, "51.2277", "6.7735")),
    ("mainz", CityConfig("Mainz", "Rheinland-Pfalz", 11, "49.9929", "8.2473")),
    ("saarbruecken", CityConfig("Saarbrücken", "Saarland", 12, "49.2354", "6.9965")),
    ("dresden", CityConfig("Dresden", "Sachsen", 13, "51.0504", "13.7373")),
    ("magdeburg", CityConfig("Magdeburg", "Sachsen-Anhalt", 14, "52.1205", "11.6276")),
    ("kiel", CityConfig("Kiel", "Schleswig-Holstein", 15, "54.3233", "10.1228")),
    ("erfurt", CityConfig("Erfurt", "Thüringen", 16, "50.9848", "11.0299"))
  ]

  /** `CITY_CONFIG[id]`. */
  function FindCity(id: string): Option<CityConfig> {
    Tables.Find(CITIES, id)
  }

  /** `WEATHER_CODES`: a subset of WMO code table 4677. */
  const WEATHER_CODES: map<int, string> := map[
    0 := "klarer Himmel",
    1 := "überwiegend klar",
    2 := "teilweise bewölkt",
    3 := "bedeckt",
    45 := "Nebel",
    48 := "gefrierender Nebel",
    51 := "leichter Nieselregen",
    53 := "mäßiger Nieselregen",
    55 := "starker Nieselregen",
    56 := "gefrierender Nieselregen",
    57 := "starker gefrierender Nieselregen",
    61 := "leichter Regen",
    63 := "mäßiger Regen",
    65 := "starker Regen",
    66 := "gefrierender Regen",
    67 := "starker gefrierender Regen",
    71 := "leichter Schneefall",
    73 := "mäßiger Schneefall",
    75 := "starker Schneefall",
    77 := "Schneegriesel",
    80 := "leichte Regenschauer",
    81 := "mäßige Regenschauer",
    82 := "starke Regenschauer",
    85 := "leichte Schneeschauer",
    86 := "starke Schneeschauer",
    95 := "Gewitter",
    96 := "Gewitter mit leichtem Hagel",
    99 := "Gewitter mit starkem Hagel"
  ]

  /** Freshness window of fetched news and weather: 5 minutes. */
  const CACHE_TTL_MS: int := 5 * 60 * 1000
  /** Freshness window of simplified text: 60 minutes. */
  const SIMPLIFIED_CACHE_TTL_MS: int := 60 * 60 * 1000
  /** How many world stories the homepage fetcher keeps. */
  const WORLD_NEWS_COUNT: nat := 3

  /** There are sixteen cities, each listed once, and their region ids are exactly
      1..16 in declaration order, so every id in 1..16 belongs to exactly one city. */
  lemma CityRegionIds()
    ensures |CITIES| == 16
    ensures forall i :: 0 <= i < |CITIES| ==> CITIES[i].1.regionId == i + 1
    ensures forall i, j :: 0 <= i < j < |CITIES| ==> CITIES[i].0 != CITIES[j].0
  {
  }

  /** Examples of the documented region mapping. */
  lemma DocumentedRegions()
    ensures FindCity("stuttgart").Some? && FindCity("stuttgart").value.regionId == 1
    ensures FindCity("berlin").Some? && FindCity("berlin").value.regionId == 3
    ensures FindCity("erfurt").Some? && FindCity("erfurt").value.regionId == 16
  {
    CityRegionIds();
    Tables.FindAt(CITIES, "stuttgart", 0);
    Tables.FindAt(CITIES, "berlin", 2);
    Tables.FindAt(CITIES, "erfurt", 15);
  }

  /** The codes of the weather table in increasing order. */
  const WEATHER_CODE_LIST: seq<int> :=
    [0, 1, 2, 3, 45, 48, 51, 53, 55, 56, 57, 61, 63, 65, 66, 67,
     71, 73, 75, 77, 80, 81, 82, 85, 86, 95, 96, 99]

  predicate StrictlyIncreasing(s: seq<int>) {
    forall i, j :: 0 <= i < j < |s| ==> s[i] < s[j]
  }

  function Elements(s: seq<int>): set<int> {
    set x | x in s
  }

  lemma {:induction false} IncreasingSetSize(s: seq<int>)
    requires StrictlyIncreasing(s)
    ensures |Elements(s)| == |s|
  {
    if s != [] {
      IncreasingSetSize(s[1..]);
      assert Elements(s) == {s[0]} + Elements(s[1..]);
      assert s[0] !in Elements(s[1..]);
    }
  }

  lemma WeatherCodeKeys()
    ensures WEATHER_CODES.Keys == Elements(WEATHER_CODE_LIST)
    ensures 4 !in WEATHER_CODES && 10 !in WEATHER_CODES
  {
  }

  lemma WeatherCodeListSize()
    ensures |Elements(WEATHER_CODE_LIST)| == 28
  {
    assert StrictlyIncreasing(WEATHER_CODE_LIST);
    IncreasingSetSize(WEATHER_CODE_LIST);
  }

  /** The weather table has 28 codes, exactly those of WEATHER_CODE_LIST; codes such
      as 4 and 10 are absent. */
  lemma WeatherCodeSet()
    ensures WEATHER_CODES.Keys == Elements(WEATHER_CODE_LIST)
    ensures |WEATHER_CODES.Keys| == 28
    ensures 4 !in WEATHER_CODES && 10 !in WEATHER_CODES
  {
    WeatherCodeKeys();
    WeatherCodeListSize();
  }

  lemma TtlValues()
    ensures CACHE_TTL_MS == 300000 && SIMPLIFIED_CACHE_TTL_MS == 3600000
    ensures CACHE_TTL_MS < SIMPLIFIED_CACHE_TTL_MS
    ensures WORLD_NEWS_COUNT == 3
  {
  }
}
