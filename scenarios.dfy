/** A worked example: two electricity records for January and February 2023. */
module Scenarios {
  import opened Wrappers
  import opened JsNumber
  import opened JsDate
  import opened BillRecords
  import opened Points
  import opened Extrema
  import opened Domain

  /** An electricity record that carries only the fields the chart reads,
      each written as the decimal text of its number. */
  function Reading(month: int, year: int, kwh: int): ElectricityBillData {
    ElectricityBillData("", "", "", "", "", Decimal(month), Decimal(year), "", Decimal(kwh),
                        "", "", "", "", "", "", "", "", "")
  }

  lemma ReadingPoint(month: int, year: int, kwh: int)
    requires year >= 100
    ensures ElectricityPoint(Reading(month, year, kwh)) == Point(Some(kwh), Some(year * 12 + month))
  {
    LaterYearDate(year, month);
    NumberRoundTrip(month);
    NumberRoundTrip(year);
    NumberRoundTrip(kwh);
  }

  lemma LaterYearDate(year: int, month: int)
    requires year >= 100
    ensures NewDate(Some(year), Some(month)) == Some(year * 12 + month)
  {
  }

  /** The records for months 0 and 1 of 2023 ("0", "1", "2023") with 100 and
      150 kWh give the points (January 2023, 100) and (February 2023, 150);
      the unfiltered domain runs from January to February 2023 and the
      maximum consumption is 150. */
  lemma TwoMonthsOfElectricity()
    ensures var ps := ElectricityPoints([Reading(0, 2023, 100), Reading(1, 2023, 150)]);
      && ps == [Point(Some(100), Some(2023 * 12 + 0)), Point(Some(150), Some(2023 * 12 + 1))]
      && ResolveDomain(ps, Absent, Absent) == Domain(Some(2023 * 12), Some(2023 * 12 + 1))
      && MaxOf(Values(ps)) == Some(150)
  {
    var r0, r1 := Reading(0, 2023, 100), Reading(1, 2023, 150);
    ReadingPoint(0, 2023, 100);
    ReadingPoint(1, 2023, 150);
    TwoRecords(r0, r1);
    DomainAndMaximum(ElectricityPoints([r0, r1]));
  }

  lemma TwoRecords(r0: ElectricityBillData, r1: ElectricityBillData)
    ensures ElectricityPoints([r0, r1]) == [ElectricityPoint(r0), ElectricityPoint(r1)]
  {
  }

  lemma DomainAndMaximum(ps: seq<Point>)
    requires ps == [Point(Some(100), Some(2023 * 12 + 0)), Point(Some(150), Some(2023 * 12 + 1))]
    ensures ResolveDomain(ps, Absent, Absent) == Domain(Some(2023 * 12), Some(2023 * 12 + 1))
    ensures MaxOf(Values(ps)) == Some(150)
  {
    var ds, vs := Dates(ps), Values(ps);
    assert ds == [Some(2023 * 12), Some(2023 * 12 + 1)];
    assert vs == [Some(100), Some(150)];
    assert ds[..1] == [Some(2023 * 12)] && ds[..1][..0] == [];
    assert vs[..1] == [Some(100)] && vs[..1][..0] == [];
    assert MinOf(ds[..1]) == Some(2023 * 12);
    assert MaxOf(ds[..1]) == Some(2023 * 12);
    assert MaxOf(vs[..1]) == Some(100);
  }
}
