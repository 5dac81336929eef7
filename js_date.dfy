/** `new Date(year, month)` as the chart pipeline uses it: a local date at
    the start of a month, counted here in months since month 0 of year 0. */
module JsDate {
  import opened Wrappers
  import opened JsNumber

  /** A month-start Date as its month index `year * 12 + month`; `None` is an
      Invalid Date (the text `'Invalid Date'`). */
  type Date = Option<int>

  /** The Date constructor reads a two-digit year 0..99 as 1900..1999. */
  function FullYear(year: int): int {
    if 0 <= year <= 99 then 1900 + year else year
  }

  /** `new Date(year, month)`: NaN in either argument gives an Invalid Date;
      a month outside 0..11 carries into the year. */
  function NewDate(year: Num, month: Num): (d: Date)
    ensures d.None? <==> year.None? || month.None?
  {
    if year.None? || month.None? then None
    else Some(FullYear(year.value) * 12 + month.value)
  }

  /** The calendar year and zero-based month of a month index. */
  function YearOf(d: int): int { d / 12 }
  function MonthOf(d: int): (m: int) ensures 0 <= m < 12 { d % 12 }

  /** The constructed date lies in year `FullYear(year) + month / 12` (floor
      division), in month `month mod 12`: month overflow normalises into the
      year, and a month 0..11 is kept as given. */
  lemma NewDateFields(year: int, month: int)
    ensures NewDate(Some(year), Some(month)).Some?
    ensures YearOf(NewDate(Some(year), Some(month)).value) == FullYear(year) + month / 12
    ensures MonthOf(NewDate(Some(year), Some(month)).value) == month % 12
  {
    var y, q, r := FullYear(year), month / 12, month % 12;
    var d := y * 12 + month;
    assert month == q * 12 + r;
    assert d == (y + q) * 12 + r;
    DivModUnique(d, y + q, r);
  }

  lemma DivModUnique(d: int, q: int, r: int)
    requires 0 <= r < 12 && d == q * 12 + r
    ensures d / 12 == q && d % 12 == r
  {
  }

  /** For months 0..11, month indices order dates as the calendar does:
      first by full year, then by month. This is the order `getTime()` gives. */
  lemma NewDateOrder(y1: int, m1: int, y2: int, m2: int)
    requires 0 <= m1 < 12 && 0 <= m2 < 12
    ensures NewDate(Some(y1), Some(m1)).value < NewDate(Some(y2), Some(m2)).value
        <==> FullYear(y1) < FullYear(y2) || (FullYear(y1) == FullYear(y2) && m1 < m2)
  {
    var f1, f2 := FullYear(y1), FullYear(y2);
    if f1 < f2 {
      assert (f2 - f1) * 12 >= 12;
    } else if f1 > f2 {
      assert (f1 - f2) * 12 >= 12;
    }
  }
}
