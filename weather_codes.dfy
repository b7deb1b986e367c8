/** The weatherCodeDescriptions table (worker.js:7-36) and the lookup with
    its fallback pair (worker.js:86). The table is a read-only constant. */
module WeatherCodes {
  import opened Wrappers

  /** A description in English and Romanian. */
  datatype Desc = Desc(en: string, ro: string)

  /** The 28 WMO weather codes the page knows about. */
  const Descriptions: map<int, Desc> := map[
    0 := Desc("Clear sky", "Cer senin"),
    1 := Desc("Mainly clear", "Preponderent senin"),
    2 := Desc("Partly cloudy", "Parțial noros"),
    3 := Desc("Overcast", "Înnorat"),
    45 := Desc("Fog", "Ceață"),
    48 := Desc("Depositing rime fog", "Ceață cu depunere de brumă"),
    51 := Desc("Light drizzle", "Averse ușoare"),
    53 := Desc("Moderate drizzle", "Averse moderate"),
    55 := Desc("Dense drizzle", "Averse abundente"),
    56 := Desc("Light freezing drizzle", "Averse ușoare de ploaie înghețată"),
    57 := Desc("Dense freezing drizzle", "Averse abundente de ploaie înghețată"),
    61 := Desc("Slight rain", "Plouă ușor"),
    63 := Desc("Moderate rain", "Plouă moderat"),
    65 := Desc("Heavy rain", "Plouă abundent"),
    66 := Desc("Light freezing rain", "Plouă înghețată ușor"),
    67 := Desc("Heavy freezing rain", "Plouă înghețată abundent"),
    71 := Desc("Slight snowfall", "Ninsori ușoare"),
    73 := Desc("Moderate snowfall", "Ninsori moderate"),
    75 := Desc("Heavy snowfall", "Ninsori abundente"),
    77 := Desc("Snow grains", "Grăunțe de zăpadă"),
    80 := Desc("Slight rain showers", "Averse ușoare de ploaie"),
    81 := Desc("Moderate rain showers", "Averse moderate de ploaie"),
    82 := Desc("Violent rain showers", "Averse violente de ploaie"),
    85 := Desc("Slight snow showers", "Ninsori ușoare"),
    86 := Desc("Heavy snow showers", "Ninsori abundente"),
    95 := Desc("Slight thunderstorm", "Furtună ușoară"),
    96 := Desc("Thunderstorm with slight hail", "Furtună cu grindină ușoară"),
    99 := Desc("Thunderstorm with heavy hail", "Furtună cu grindină abundentă")
  ]

  /** The pair used for any code not in the table. */
  const Unknown := Desc("Unknown weather condition", "Condiție meteorologică necunoscută")

  /** The 28 codes of the table, written out. */
  const Codes: set<int> := {0, 1, 2, 3, 45, 48, 51, 53, 55, 56, 57, 61, 63, 65, 66, 67,
                            71, 73, 75, 77, 80, 81, 82, 85, 86, 95, 96, 99}

  /** `weatherCodeDescriptions[weatherCode] || fallback`. A missing
      weathercode (None) names no entry of the table; only integer codes
      are modelled. */
  function Describe(code: Option<int>): (d: Desc)
    ensures code.Some? && code.value in Descriptions ==> d == Descriptions[code.value]
    ensures code.None? || code.value !in Descriptions ==> d == Unknown
  {
    match code
    case Some(c) => if c in Descriptions then Descriptions[c] else Unknown
    case None => Unknown
  }

  /** The table holds exactly the listed codes. */
  lemma TableCodes()
    ensures Descriptions.Keys == Codes
  {
  }

  /** No entry of the table is the fallback pair, so the fallback is seen
      exactly for the codes the table lacks. */
  lemma UnknownIffNotInTable(code: Option<int>)
    ensures Describe(code) == Unknown <==> code.None? || code.value !in Descriptions
  {
  }

  /** The Romanian text, the only one the page shows, does not tell slight
      snowfall (71) from slight snow showers (85), nor heavy snowfall (75)
      from heavy snow showers (86); the English text does. */
  lemma RomanianSharedBetweenSnowCodes()
    ensures Describe(Some(71)).ro == Describe(Some(85)).ro
    ensures Describe(Some(75)).ro == Describe(Some(86)).ro
    ensures Describe(Some(71)).en != Describe(Some(85)).en
    ensures Describe(Some(75)).en != Describe(Some(86)).en
  {
  }

  /** Code 0 is a clear sky, "Cer senin" in Romanian. */
  lemma ClearSky()
    ensures Describe(Some(0)) == Desc("Clear sky", "Cer senin")
  {
  }
}
