/** The fixed table from WMO weather-interpretation codes (as the forecast
    service reports them in `current.weather_code`) to a German description
    and an icon, and its lookup with the "unknown" fallback. */
module WeatherCodes {

  /** What the widget shows for one weather code. */
  datatype WeatherInfo = WeatherInfo(description: string, icon: string)

  /** The fallback for every code the table does not list. */
  const Unknown: WeatherInfo := WeatherInfo("Unbekannt", "\U{2753}")

  const Sun: string := "\U{2600}\U{FE0F}"
  const SunBehindSmallCloud: string := "\U{1F324}\U{FE0F}"
  const SunBehindCloud: string := "\U{26C5}"
  const Cloud: string := "\U{2601}\U{FE0F}"
  const Fog: string := "\U{1F32B}\U{FE0F}"
  const SunBehindRainCloud: string := "\U{1F326}\U{FE0F}"
  const RainCloud: string := "\U{1F327}\U{FE0F}"
  const SnowCloud: string := "\U{1F328}\U{FE0F}"
  const Snowflake: string := "\U{2744}\U{FE0F}"
  const ThunderCloud: string := "\U{26C8}\U{FE0F}"

  /** The codes the table lists, in ascending order. */
  const ListedCodes: seq<int> :=
    [0, 1, 2, 3, 45, 48, 51, 53, 55, 56, 57, 61, 63, 65, 66, 67,
     71, 73, 75, 77, 80, 81, 82, 85, 86, 95, 96, 99]

  /** The sparse code table. */
  const Table: map<int, WeatherInfo> := map[
    0 := WeatherInfo("Klar", Sun),
    1 := WeatherInfo("Überwiegend klar", SunBehindSmallCloud),
    2 := WeatherInfo("Teilweise bewölkt", SunBehindCloud),
    3 := WeatherInfo("Bewölkt", Cloud),
    45 := WeatherInfo("Nebel", Fog),
    48 := WeatherInfo("Reifnebel", Fog),
    51 := WeatherInfo("Leichter Nieselregen", SunBehindRainCloud),
    53 := WeatherInfo("Nieselregen", SunBehindRainCloud),
    55 := WeatherInfo("Starker Nieselregen", RainCloud),
    56 := WeatherInfo("Gefrierender Nieselregen", RainCloud),
    57 := WeatherInfo("Starker gefrierender Nieselregen", RainCloud),
    61 := WeatherInfo("Leichter Regen", RainCloud),
    63 := WeatherInfo("Regen", RainCloud),
    65 := WeatherInfo("Starker Regen", RainCloud),
    66 := WeatherInfo("Gefrierender Regen", RainCloud),
    67 := WeatherInfo("Starker gefrierender Regen", RainCloud),
    71 := WeatherInfo("Leichter Schneefall", SnowCloud),
    73 := WeatherInfo("Schneefall", SnowCloud),
    75 := WeatherInfo("Starker Schneefall", Snowflake),
    77 := WeatherInfo("Schneekörner", SnowCloud),
    80 := WeatherInfo("Leichte Regenschauer", SunBehindRainCloud),
    81 := WeatherInfo("Regenschauer", RainCloud),
    82 := WeatherInfo("Starke Regenschauer", ThunderCloud),
    85 := WeatherInfo("Leichte Schneeschauer", SnowCloud),
    86 := WeatherInfo("Starke Schneeschauer", Snowflake),
    95 := WeatherInfo("Gewitter", ThunderCloud),
    96 := WeatherInfo("Gewitter mit leichtem Hagel", ThunderCloud),
    99 := WeatherInfo("Gewitter mit Hagel", ThunderCloud)
  ]

  /** `weatherCodes[code] || fallback`: total, the listed pair for a listed
      code and the fallback for any other integer. */
  function Lookup(code: int): (w: WeatherInfo)
    ensures code in Table ==> w == Table[code]
    ensures code !in Table ==> w == Unknown
  {
    if code in Table then Table[code] else Unknown
  }

  /** The table lists exactly the codes of `ListedCodes`, all of them WMO
      codes between 0 and 99. */
  lemma TableDomain(code: int)
    ensures code in Table <==> code in ListedCodes
    ensures code in Table ==> 0 <= code <= 99
  {
  }

  /** No listed entry coincides with the fallback, so the caller can tell a
      listed code from an unlisted one by the result alone. */
  lemma FallbackOnlyForUnlistedCodes(code: int)
    ensures Lookup(code) == Unknown <==> code !in Table
    ensures Lookup(code).description == "Unbekannt" <==> code !in Table
  {
  }

  /** Codes inside the table's range that the table does not list (for
      instance 4, 50 or 98) still resolve, to the fallback. */
  lemma GapsResolveToFallback()
    ensures Lookup(4) == Unknown && Lookup(50) == Unknown && Lookup(98) == Unknown
    ensures Lookup(-1) == Unknown && Lookup(100) == Unknown
  {
  }
}
