/** Record normalisation: each commodity's records become chart points
    `{value, date}`, one per record and in input order. */
module Points {
  import opened Wrappers
  import opened JsNumber
  import opened JsDate
  import opened BillRecords

  /** One chart point. The source gives the value field a commodity-specific
      name (`kwh`, `m3`, `gj`); the chart reads it through its `yValue`
      accessor, so the model keeps a single `value` field. */
  datatype Point = Point(value: Num, date: Date)

  /** `Array.prototype.map` of a record-to-point conversion. */
  function Normalise<R>(records: seq<R>, toPoint: R -> Point): (ps: seq<Point>)
    ensures |ps| == |records|
    ensures forall i :: 0 <= i < |records| ==> ps[i] == toPoint(records[i])
  {
    if records == [] then []
    else [toPoint(records[0])] + Normalise(records[1..], toPoint)
  }

  function ElectricityPoint(r: ElectricityBillData): Point {
    Point(ToNumber(r.k_wh_consumption), NewDate(ToNumber(r.year), ToNumber(r.month)))
  }

  function WaterPoint(r: WaterBillData): Point {
    Point(ToNumber(r.m_3_consumption), NewDate(ToNumber(r.year), ToNumber(r.month)))
  }

  function GasPoint(r: GasBillData): Point {
    Point(ToNumber(r.g_j_consumption), NewDate(ToNumber(r.year), ToNumber(r.month)))
  }

  function ElectricityPoints(records: seq<ElectricityBillData>): (ps: seq<Point>)
    ensures |ps| == |records|
    ensures forall i :: 0 <= i < |records| ==>
      && ps[i].value == ToNumber(records[i].k_wh_consumption)
      && ps[i].date == NewDate(ToNumber(records[i].year), ToNumber(records[i].month))
  {
    Normalise(records, ElectricityPoint)
  }

  function WaterPoints(records: seq<WaterBillData>): (ps: seq<Point>)
    ensures |ps| == |records|
    ensures forall i :: 0 <= i < |records| ==>
      && ps[i].value == ToNumber(records[i].m_3_consumption)
      && ps[i].date == NewDate(ToNumber(records[i].year), ToNumber(records[i].month))
  {
    Normalise(records, WaterPoint)
  }

  function GasPoints(records: seq<GasBillData>): (ps: seq<Point>)
    ensures |ps| == |records|
    ensures forall i :: 0 <= i < |records| ==>
      && ps[i].value == ToNumber(records[i].g_j_consumption)
      && ps[i].date == NewDate(ToNumber(records[i].year), ToNumber(records[i].month))
  {
    Normalise(records, GasPoint)
  }

  /** The values and the dates of a series, in series order. */
  function Values(ps: seq<Point>): (vs: seq<Num>)
    ensures |vs| == |ps| && forall i :: 0 <= i < |ps| ==> vs[i] == ps[i].value
  {
    seq(|ps|, i requires 0 <= i < |ps| => ps[i].value)
  }

  function Dates(ps: seq<Point>): (ds: seq<Date>)
    ensures |ds| == |ps| && forall i :: 0 <= i < |ps| ==> ds[i] == ps[i].date
  {
    seq(|ps|, i requires 0 <= i < |ps| => ps[i].date)
  }

  /** The order the chart's sort establishes: `compareTime(p, q) <= 0` for
      two valid dates. `compareTime` is NaN when either date is invalid; the
      comparator is then inconsistent and JavaScript leaves the order of the
      whole array to the engine. The model takes the legal order that puts
      invalid dates first and valid dates ascending. */
  predicate DateLe(p: Point, q: Point) {
    p.date.None? || (q.date.Some? && p.date.value <= q.date.value)
  }

  predicate SortedByDate(ps: seq<Point>) {
    forall k, l :: 0 <= k < l < |ps| ==> DateLe(ps[k], ps[l])
  }

  predicate AllDated(ps: seq<Point>) {
    forall k :: 0 <= k < |ps| ==> ps[k].date.Some?
  }

  /** Neither point sorts before the other. */
  predicate SameDate(p: Point, q: Point) {
    DateLe(p, q) && DateLe(q, p)
  }

  /** `s` is `t` sorted by date, stably: `origin[k]` is the position in `t`
      of the point at position `k` in `s`, each position of `t` is used once,
      and points with the same date keep their relative order. */
  ghost predicate IsStableSortOf(s: seq<Point>, t: seq<Point>, origin: seq<int>) {
    && |s| == |t| == |origin|
    && (forall k :: 0 <= k < |s| ==> 0 <= origin[k] < |t| && s[k] == t[origin[k]])
    && (forall k, l :: 0 <= k < l < |s| ==> origin[k] != origin[l])
    && SortedByDate(s)
    && (forall k, l :: 0 <= k < l < |s| && SameDate(s[k], s[l]) ==> origin[k] < origin[l])
  }
}
