/** The chart pipeline in front of the drawing library: `buildLineChart`
    (override clean-up, domain, in-place sort, canvas sizes), the three
    per-commodity generators and the commodity dispatch. */
module LineChart {
  import opened Wrappers
  import opened JsNumber
  import opened BillRecords
  import opened Points
  import opened Extrema
  import opened Domain

  /** The chart's fixed margins. */
  const MarginTop := 30
  const MarginRight := 85
  const MarginBottom := 50
  const MarginLeft := 85

  /** The canvas (`width`, `height`) and the plotting area inside the margins. */
  datatype Size = Size(width: int, height: int, innerWidth: int, innerHeight: int)

  /** What one call draws, short of pixel geometry: the points in drawing
      order, the x domain, the top of the y domain, the sizes, the title and
      the text of the y-axis label. */
  datatype Chart = Chart(
    series: seq<Point>,
    domain: Domain,
    maxConsumption: Num,
    size: Size,
    title: string,
    yAxisText: string)

  /** Every point of `a` is the point of `was` at position `origin[k]`, and
      no position of `was` is used twice. */
  ghost predicate Tracks(a: seq<Point>, was: seq<Point>, origin: seq<int>) {
    && |a| == |was| == |origin|
    && (forall k :: 0 <= k < |a| ==> 0 <= origin[k] < |was| && a[k] == was[origin[k]])
    && (forall k, l :: 0 <= k < l < |a| ==> origin[k] != origin[l])
  }

  /** The first `i` points are the first `i` original ones, stably sorted;
      the rest are still in their original places. */
  ghost predicate SortedUpTo(a: seq<Point>, origin: seq<int>, i: int)
    requires 0 <= i <= |a| == |origin|
  {
    && (forall k :: 0 <= k < i ==> origin[k] < i)
    && (forall k :: i <= k < |a| ==> origin[k] == k)
    && (forall k, l :: 0 <= k < l < i ==> DateLe(a[k], a[l]))
    && (forall k, l :: 0 <= k < l < i && SameDate(a[k], a[l]) ==> origin[k] < origin[l])
  }

  /** `consumptionData.sort(compareTime)`, in place and stable (as
      `Array.prototype.sort` is for a consistent comparator): an insertion
      sort. The ghost `origin` records where each point came from. With an
      Invalid Date present the comparator is inconsistent; the result is then
      the legal order of `DateLe`. */
  method SortByDate(a: array<Point>) returns (ghost origin: seq<int>)
    modifies a
    ensures IsStableSortOf(a[..], old(a[..]), origin)
    ensures multiset(a[..]) == multiset(old(a[..]))
  {
    origin := seq(a.Length, k => k);
    StartSorting(a[..], origin);
    var i := 0;
    while i < a.Length
      invariant 0 <= i <= a.Length
      invariant Tracks(a[..], old(a[..]), origin) && SortedUpTo(a[..], origin, i)
      invariant multiset(a[..]) == multiset(old(a[..]))
    {
      origin := InsertNext(a, i, old(a[..]), origin);
      i := i + 1;
    }
    SortedAll(a[..], old(a[..]), origin);
  }

  lemma StartSorting(s: seq<Point>, origin: seq<int>)
    requires origin == seq(|s|, k => k)
    ensures Tracks(s, s, origin) && SortedUpTo(s, origin, 0)
  {
  }

  lemma SortedAll(s: seq<Point>, was: seq<Point>, origin: seq<int>)
    requires Tracks(s, was, origin) && SortedUpTo(s, origin, |s|)
    ensures IsStableSortOf(s, was, origin)
  {
  }

  /** One step of the insertion sort: moves `a[i]` left past the points
      dated strictly after it. */
  method InsertNext(a: array<Point>, i: int, ghost was: seq<Point>, ghost origin0: seq<int>)
    returns (ghost origin: seq<int>)
    requires 0 <= i < a.Length
    requires Tracks(a[..], was, origin0) && SortedUpTo(a[..], origin0, i)
    modifies a
    ensures Tracks(a[..], was, origin) && SortedUpTo(a[..], origin, i + 1)
    ensures multiset(a[..]) == multiset(old(a[..]))
  {
    origin := origin0;
    var j := i;
    ghost var s := a[..];
    StartInserting(s, origin, i);
    while j > 0 && !DateLe(a[j - 1], a[j])
      invariant 0 <= j <= i
      invariant a[..] == s
      invariant Tracks(s, was, origin) && InsertingAt(s, origin, i, j)
      invariant multiset(s) == multiset(old(a[..]))
    {
      SwapKeepsInserting(s, was, origin, i, j);
      SwapKeepsMultiset(s, j);
      a[j - 1], a[j] := a[j], a[j - 1];
      s, origin := Swap(s, j), Swap(origin, j);
      j := j - 1;
    }
    InsertedAt(s, origin, i, j);
  }

  /** `s` with the entries at `j - 1` and `j` exchanged. */
  function Swap<T>(s: seq<T>, j: int): (r: seq<T>)
    requires 0 < j < |s|
    ensures |r| == |s| && r[j - 1] == s[j] && r[j] == s[j - 1]
    ensures forall k :: 0 <= k < |s| && k != j - 1 && k != j ==> r[k] == s[k]
  {
    s[j - 1 := s[j]][j := s[j - 1]]
  }

  /** The state of `InsertNext` while the point that started at `i` stands
      at `j`: everything else in `s[..i + 1]` is sorted and stable, and that
      point is strictly earlier than every point it has passed. */
  ghost predicate InsertingAt(s: seq<Point>, origin: seq<int>, i: int, j: int) {
    && 0 <= j <= i < |s| == |origin|
    && origin[j] == i
    && (forall k :: 0 <= k <= i && k != j ==> origin[k] < i)
    && (forall k :: i < k < |s| ==> origin[k] == k)
    && (forall k, l :: 0 <= k < l <= i && k != j && l != j ==> DateLe(s[k], s[l]))
    && (forall k, l :: 0 <= k < j < l <= i ==> DateLe(s[k], s[l]))
    && (forall l :: j < l <= i ==> DateLe(s[j], s[l]) && !DateLe(s[l], s[j]))
    && (forall k, l :: 0 <= k < l <= i && k != j && l != j && SameDate(s[k], s[l]) ==> origin[k] < origin[l])
  }

  lemma StartInserting(s: seq<Point>, origin: seq<int>, i: int)
    requires 0 <= i < |s| == |origin| && SortedUpTo(s, origin, i)
    ensures InsertingAt(s, origin, i, i)
  {
  }

  lemma SwapKeepsInserting(s: seq<Point>, was: seq<Point>, origin: seq<int>, i: int, j: int)
    requires Tracks(s, was, origin) && InsertingAt(s, origin, i, j)
    requires 0 < j && !DateLe(s[j - 1], s[j])
    ensures Tracks(Swap(s, j), was, Swap(origin, j))
    ensures InsertingAt(Swap(s, j), Swap(origin, j), i, j - 1)
  {
  }

  lemma SwapKeepsMultiset(s: seq<Point>, j: int)
    requires 0 < j < |s|
    ensures multiset(Swap(s, j)) == multiset(s)
  {
  }

  lemma InsertedAt(s: seq<Point>, origin: seq<int>, i: int, j: int)
    requires InsertingAt(s, origin, i, j)
    requires j == 0 || DateLe(s[j - 1], s[j])
    ensures SortedUpTo(s, origin, i + 1)
  {
  }

  /** `buildLineChart` up to the drawing calls. An Invalid Date override is
      reset to null; each remaining override wins over the series' extreme;
      the series is then sorted in place and the canvas is as tall as the
      series is long. */
  method BuildLineChart(
    fromDate: Override, toDate: Override, clientWidth: int,
    consumptionData: array<Point>, maxConsumption: Num,
    titleLabel: string, yAxisLabel: string)
    returns (chart: Chart, ghost origin: seq<int>)
    modifies consumptionData
    ensures multiset(consumptionData[..]) == multiset(old(consumptionData[..]))
    ensures IsStableSortOf(consumptionData[..], old(consumptionData[..]), origin)
    ensures chart.series == consumptionData[..]
    ensures chart.domain == ResolveDomain(old(consumptionData[..]), fromDate, toDate)
    ensures chart.size == Size(clientWidth, consumptionData.Length,
                               clientWidth - MarginLeft - MarginRight,
                               consumptionData.Length - MarginTop - MarginBottom)
    ensures chart.size.innerHeight < 0 <==> consumptionData.Length < 80
    ensures chart.maxConsumption == maxConsumption
    ensures chart.title == titleLabel && chart.yAxisText == "Consumption " + yAxisLabel
  {
    var from, to := fromDate, toDate;
    if from.Given? && from.date.None? { from := Absent; }
    if to.Given? && to.date.None? { to := Absent; }

    var minDate := if from.Given? then from.date else MinOf(Dates(consumptionData[..]));
    var maxDate := if to.Given? then to.date else MaxOf(Dates(consumptionData[..]));

    origin := SortByDate(consumptionData);

    var width := clientWidth;
    var height := consumptionData.Length;
    var innerWidth := width - MarginLeft - MarginRight;
    var innerHeight := height - MarginTop - MarginBottom;

    chart := Chart(consumptionData[..], Domain(minDate, maxDate), maxConsumption,
                   Size(width, height, innerWidth, innerHeight),
                   titleLabel, "Consumption " + yAxisLabel);
  }

  /** `chart` is what `buildLineChart` draws for the normalised series
      `points`: the same points stably sorted by date, the domain resolved from the
      points and the overrides, the maximum consumption of the points, and
      the sizes for `|points|` points on a `clientWidth`-wide container. */
  ghost predicate Draws(chart: Chart, points: seq<Point>, fromDate: Override, toDate: Override, clientWidth: int) {
    && multiset(chart.series) == multiset(points)
    && (exists origin :: IsStableSortOf(chart.series, points, origin))
    && chart.domain == ResolveDomain(points, fromDate, toDate)
    && chart.maxConsumption == MaxOf(Values(points))
    && chart.size == Size(clientWidth, |points|, clientWidth - 170, |points| - 80)
  }

  /** Takes the maximum of already-normalised points and builds the chart
      on a fresh array holding them. */
  method Generate(points: seq<Point>, fromDate: Override, toDate: Override, clientWidth: int,
                  titleLabel: string, yAxisLabel: string)
    returns (chart: Chart)
    ensures Draws(chart, points, fromDate, toDate, clientWidth)
    ensures chart.title == titleLabel && chart.yAxisText == "Consumption " + yAxisLabel
  {
    var maxConsumption := MaxOf(Values(points));
    var data := new Point[|points|](i requires 0 <= i < |points| => points[i]);
    assert data[..] == points;
    ghost var origin;
    chart, origin := BuildLineChart(fromDate, toDate, clientWidth, data, maxConsumption, titleLabel, yAxisLabel);
  }

  /** The y-axis texts of the three charts. */
  lemma AxisTexts()
    ensures "Consumption " + "(kwh)" == "Consumption (kwh)"
    ensures "Consumption " + "(meters cubed)" == "Consumption (meters cubed)"
    ensures "Consumption " + "(GJ)" == "Consumption (GJ)"
  {
  }

  method GenerateElectricityLineChart(billData: BillData, fromDate: Override, toDate: Override, clientWidth: int)
    returns (chart: Chart)
    ensures Draws(chart, ElectricityPoints(billData.electricityBillData), fromDate, toDate, clientWidth)
    ensures chart.title == "Electricity Bill Data" && chart.yAxisText == "Consumption (kwh)"
  {
    AxisTexts();
    var electricityKwhData := ElectricityPoints(billData.electricityBillData);
    chart := Generate(electricityKwhData, fromDate, toDate, clientWidth, "Electricity Bill Data", "(kwh)");
  }

  method GenerateWaterLineChart(billData: BillData, fromDate: Override, toDate: Override, clientWidth: int)
    returns (chart: Chart)
    ensures Draws(chart, WaterPoints(billData.waterBillData), fromDate, toDate, clientWidth)
    ensures chart.title == "Water Bill Data" && chart.yAxisText == "Consumption (meters cubed)"
  {
    AxisTexts();
    var waterM3Data := WaterPoints(billData.waterBillData);
    chart := Generate(waterM3Data, fromDate, toDate, clientWidth, "Water Bill Data", "(meters cubed)");
  }

  method GenerateGasLineChart(billData: BillData, fromDate: Override, toDate: Override, clientWidth: int)
    returns (chart: Chart)
    ensures Draws(chart, GasPoints(billData.gasBillData), fromDate, toDate, clientWidth)
    ensures chart.title == "Gas Bill Data" && chart.yAxisText == "Consumption (GJ)"
  {
    AxisTexts();
    var gasGjData := GasPoints(billData.gasBillData);
    chart := Generate(gasGjData, fromDate, toDate, clientWidth, "Gas Bill Data", "(GJ)");
  }

  /** The `UtilityType` switch value; `Unrecognised` is any value that matches
      none of the three cases. */
  datatype UtilityType = Electricity | Water | Gas | Unrecognised(tag: string)

  /** `generateLineChart`: one chart for each of the three commodities, and
      nothing at all (`None`) for any other value. */
  method GenerateLineChart(billData: BillData, utilityType: UtilityType,
                           fromDate: Override, toDate: Override, clientWidth: int)
    returns (chart: Option<Chart>)
    ensures chart.None? <==> utilityType.Unrecognised?
    ensures utilityType == Electricity ==>
      && Draws(chart.value, ElectricityPoints(billData.electricityBillData), fromDate, toDate, clientWidth)
      && chart.value.title == "Electricity Bill Data" && chart.value.yAxisText == "Consumption (kwh)"
    ensures utilityType == Water ==>
      && Draws(chart.value, WaterPoints(billData.waterBillData), fromDate, toDate, clientWidth)
      && chart.value.title == "Water Bill Data" && chart.value.yAxisText == "Consumption (meters cubed)"
    ensures utilityType == Gas ==>
      && Draws(chart.value, GasPoints(billData.gasBillData), fromDate, toDate, clientWidth)
      && chart.value.title == "Gas Bill Data" && chart.value.yAxisText == "Consumption (GJ)"
  {
    match utilityType
    case Electricity =>
      var c := GenerateElectricityLineChart(billData, fromDate, toDate, clientWidth);
      chart := Some(c);
    case Water =>
      var c := GenerateWaterLineChart(billData, fromDate, toDate, clientWidth);
      chart := Some(c);
    case Gas =>
      var c := GenerateGasLineChart(billData, fromDate, toDate, clientWidth);
      chart := Some(c);
    case Unrecognised(_) =>
      chart := None;
  }
}
