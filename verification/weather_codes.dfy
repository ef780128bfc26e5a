/**
 The three fixed tables keyed by an Open-Meteo weather code: the Indonesian
 description (`mapWeatherCode`), the OpenWeatherMap day-icon id
 (`mapWeatherCodeToIcon`, duplicated as `mapIcon` in the card builder) and the
 CSS colour band of a forecast box (`weatherColor`). A code the upstream data
 does not carry (`undefined`, `null`) is `None`.
 */
module WeatherCodes {
  import opened Wrappers

  const Unknown := "Tidak diketahui"

  /** The 25 codes the description table lists */
  const LabelledCodes: set<int> :=
    {0, 1, 2, 3, 45, 48, 51, 53, 55, 56, 57, 61, 63, 65, 66, 67, 71, 73, 75, 80, 81, 82, 95, 96, 99}

  /** The description table itself */
  function Label(code: int): Option<string> {
    match code
    case 0 => Some("Cerah")
    case 1 => Some("Cerah Berawan")
    case 2 => Some("Berawan")
    case 3 => Some("Teredu/berawan tebal")
    case 45 => Some("Kabut")
    case 48 => Some("Kabut berdebu")
    case 51 => Some("Gerimis ringan")
    case 53 => Some("Gerimis sedang")
    case 55 => Some("Gerimis lebat")
    case 56 => Some("Hujan beku ringan")
    case 57 => Some("Hujan beku lebat")
    case 61 => Some("Hujan ringan")
    case 63 => Some("Hujan sedang")
    case 65 => Some("Hujan lebat")
    case 66 => Some("Hujan es ringan")
    case 67 => Some("Hujan es lebat")
    case 71 => Some("Salju ringan")
    case 73 => Some("Salju sedang")
    case 75 => Some("Salju lebat")
    case 80 => Some("Hujan lokal ringan")
    case 81 => Some("Hujan lokal sedang")
    case 82 => Some("Hujan lokal lebat")
    case 95 => Some("Badai Petir")
    case 96 => Some("Badai Petir dengan hujan ringan")
    case 99 => Some("Badai Petir dengan hujan lebat")
    case _ => None
  }

  /** `map[code] || 'Tidak diketahui'` */
  function Describe(code: Option<int>): (r: string)
    ensures r != ""
    ensures r == Unknown <==> code.None? || code.value !in LabelledCodes
    ensures code.Some? && code.value in LabelledCodes ==> Label(code.value) == Some(r)
  {
    if code.Some? && Label(code.value).Some? then Label(code.value).value else Unknown
  }

  const IconIds: set<string> := {"01d", "02d", "03d", "04d", "09d", "10d", "11d", "13d", "50d"}

  /** `mapWeatherCodeToIcon` for a numeric code */
  function Icon(code: int): (r: string)
    ensures r in IconIds
  {
    if code == 0 then "01d"
    else if code == 1 then "02d"
    else if code == 2 then "03d"
    else if code == 3 then "04d"
    else if code == 45 || code == 48 then "50d"
    else if 51 <= code <= 57 then "09d"
    else if 61 <= code <= 67 then "10d"
    else if 71 <= code <= 75 then "13d"
    else if 80 <= code <= 82 then "09d"
    else if 95 <= code <= 99 then "11d"
    else "01d"
  }

  /** `mapWeatherCodeToIcon(undefined)`: every comparison is false, so the fallback */
  function IconOf(code: Option<int>): (r: string)
    ensures r in IconIds
    ensures code.None? ==> r == Icon(0)
  {
    match code
    case None => "01d"
    case Some(c) => Icon(c)
  }

  /** Drizzle and rain showers share one icon, and nothing else gets it. */
  lemma DrizzleAndShowersShareIcon(code: int)
    ensures Icon(code) == "09d" <==> 51 <= code <= 57 || 80 <= code <= 82
  {
  }

  /** Codes between the table's bands fall back to the clear-sky icon. */
  lemma UncoveredCodesFallBack(code: int)
    requires 58 <= code <= 60 || 68 <= code <= 70 || 76 <= code <= 79 || 83 <= code <= 94
          || code < 0 || code > 99
    ensures Icon(code) == "01d"
  {
  }

  /** Every described code other than clear sky has an icon other than the fallback "01d". */
  lemma DescribedCodesHaveIcons(code: int)
    ensures Icon(code) != "01d" <== code in LabelledCodes && code != 0
  {
  }

  const DefaultColor := "#0f172a"
  const RainColor := "#0ea5e9"
  const ClearColor := "#fb923c"
  const CloudColor := "#94a3b8"
  const ThunderColor := "#7c3aed"
  const FogColor := "#64748b"

  /** `weatherColor`; the check `code === 61 || 63 || 65` after the rain band is kept as written. */
  function WeatherColor(code: Option<int>): (r: string)
    ensures r in {DefaultColor, RainColor, ClearColor, CloudColor, ThunderColor, FogColor}
    ensures code.None? ==> r == DefaultColor
  {
    if code.None? then DefaultColor
    else
      var c := code.value;
      if (51 <= c <= 67) || (80 <= c <= 82) then RainColor
      else if c == 61 || c == 63 || c == 65 then RainColor
      else if c == 0 || c == 1 then ClearColor
      else if c == 2 || c == 3 then CloudColor
      else if 95 <= c <= 99 then ThunderColor
      else if c == 45 || c == 48 then FogColor
      else DefaultColor
  }

  /** An absent code and code 0 differ: `!code` alone would have confused them. */
  lemma ZeroIsNotAbsent()
    ensures WeatherColor(Some(0)) == ClearColor
    ensures WeatherColor(None) == DefaultColor
  {
  }

  /** The rain colour is exactly the drizzle/rain band and the showers band; the later
      single-code rain test can never change the result. */
  lemma RainColorBand(code: int)
    ensures WeatherColor(Some(code)) == RainColor <==> 51 <= code <= 67 || 80 <= code <= 82
  {
  }

  /** Snow has no colour band of its own and falls to the default. */
  lemma SnowHasDefaultColor(code: int)
    requires 71 <= code <= 75
    ensures WeatherColor(Some(code)) == DefaultColor
  {
  }
}
