/** The simulated USD to INR rate table of `get_ibr_rate` (app.py:21-29). */
module Rates {
  import opened Calendar

  const IbrTable: map<int, real> := map[2021 := 74.1, 2022 := 78.6, 2023 := 82.5, 2024 := 83.4, 2025 := 84.5]

  /** The rate for a year the table does not list. */
  const FallbackRate: real := 83.0

  /** The rate for a year: the listed rate for 2021 to 2025, the fallback for every other year.
      The lookup is total and every rate is positive. */
  function RateForYear(year: int): (r: real)
    ensures year == 2021 ==> r == 74.1
    ensures year == 2022 ==> r == 78.6
    ensures year == 2023 ==> r == 82.5
    ensures year == 2024 ==> r == 83.4
    ensures year == 2025 ==> r == 84.5
    ensures (year < 2021 || 2025 < year) ==> r == 83.0
    ensures r > 0.0
  {
    if year in IbrTable then IbrTable[year] else FallbackRate
  }

  /** `get_ibr_rate(date)`: the rate of the date's year. */
  function IbrRate(d: Date): real {
    RateForYear(d.year)
  }

  /** The rate of a date depends on its year alone. */
  lemma IbrRateByYear(d: Date, e: Date)
    requires d.year == e.year
    ensures IbrRate(d) == IbrRate(e)
  {
  }
}
