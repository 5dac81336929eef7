/** The x-axis domain of the line chart: the caller's optional date filters,
    falling back to the series' own earliest and latest dates. */
module Domain {
  import opened Wrappers
  import opened JsDate
  import opened Points
  import opened Extrema

  /** A `fromDate`/`toDate` argument: `null` (Absent), or a Date object, which
      may be an Invalid Date. */
  datatype Override = Absent | Given(date: Date)

  /** The bounds handed to the time scale; `None` is `undefined`. */
  datatype Domain = Domain(minDate: Date, maxDate: Date)

  predicate IsValidOverride(o: Override) {
    o.Given? && o.date.Some?
  }

  /** The effective bound: a valid override, otherwise the series extreme. */
  function Bound(o: Override, fallback: Date): Date {
    match o
    case Given(Some(_)) => o.date
    case _ => fallback
  }

  /** The domain resolution rule of the chart. A valid override fixes its
      bound whatever the data and whatever the other bound (nothing compares
      `fromDate` with `toDate`); an absent or invalid one leaves the bound at
      the earliest (latest) valid point date, which every valid point date
      respects and some point attains, and which is undefined exactly when
      the series has no valid date. */
  function ResolveDomain(series: seq<Point>, fromDate: Override, toDate: Override): (d: Domain)
    ensures IsValidOverride(fromDate) ==> d.minDate == fromDate.date
    ensures IsValidOverride(toDate) ==> d.maxDate == toDate.date
    ensures !IsValidOverride(fromDate) ==>
      && (d.minDate.None? <==> forall i :: 0 <= i < |series| ==> series[i].date.None?)
      && (d.minDate.Some? ==> exists i :: 0 <= i < |series| && series[i].date == d.minDate)
      && (d.minDate.Some? ==> forall i :: 0 <= i < |series| && series[i].date.Some? ==>
            d.minDate.value <= series[i].date.value)
    ensures !IsValidOverride(toDate) ==>
      && (d.maxDate.None? <==> forall i :: 0 <= i < |series| ==> series[i].date.None?)
      && (d.maxDate.Some? ==> exists i :: 0 <= i < |series| && series[i].date == d.maxDate)
      && (d.maxDate.Some? ==> forall i :: 0 <= i < |series| && series[i].date.Some? ==>
            series[i].date.value <= d.maxDate.value)
  {
    var dates := Dates(series);
    var least, greatest := MinOf(dates), MaxOf(dates);
    assert least.Some? ==> exists i :: 0 <= i < |dates| && dates[i] == least;
    assert greatest.Some? ==> exists i :: 0 <= i < |dates| && dates[i] == greatest;
    Domain(Bound(fromDate, least), Bound(toDate, greatest))
  }

  /** An Invalid Date override is the same as no override at all. */
  lemma InvalidOverrideIsAbsent(series: seq<Point>, fromDate: Override, toDate: Override)
    ensures ResolveDomain(series, Given(None), toDate) == ResolveDomain(series, Absent, toDate)
    ensures ResolveDomain(series, fromDate, Given(None)) == ResolveDomain(series, fromDate, Absent)
  {
  }

  /** Reordering a series (as the chart's sort does) does not change its
      domain, so resolving it before or after sorting agrees. */
  lemma DomainIgnoresOrder(s: seq<Point>, t: seq<Point>, fromDate: Override, toDate: Override)
    requires multiset(s) == multiset(t)
    ensures ResolveDomain(s, fromDate, toDate) == ResolveDomain(t, fromDate, toDate)
  {
    var ds, dt := Dates(s), Dates(t);
    forall x ensures x in ds <==> x in dt {
      if x in ds {
        var i :| 0 <= i < |s| && ds[i] == x;
        assert s[i] in multiset(t);
        var j :| 0 <= j < |t| && t[j] == s[i];
        assert dt[j] == x;
      }
      if x in dt {
        var j :| 0 <= j < |t| && dt[j] == x;
        assert t[j] in multiset(s);
        var i :| 0 <= i < |s| && s[i] == t[j];
        assert ds[i] == x;
      }
    }
    ExtremaIgnoreOrder(ds, dt);
  }

  /** For a series sorted by date whose dates are all valid, the unfiltered
      domain runs from its first point's date to its last point's date. */
  lemma SortedDomainIsEnds(s: seq<Point>)
    requires s != [] && SortedByDate(s) && AllDated(s)
    ensures ResolveDomain(s, Absent, Absent) == Domain(s[0].date, s[|s| - 1].date)
  {
    var ds := Dates(s);
    assert IsLeast(s[0].date, ds) by {
      assert ds[0] == s[0].date;
      forall i | 0 < i < |ds| ensures s[0].date.value <= ds[i].value {
        assert DateLe(s[0], s[i]);
      }
    }
    LeastIsUnique(s[0].date, MinOf(ds), ds);
    assert IsGreatest(s[|s| - 1].date, ds) by {
      assert ds[|s| - 1] == s[|s| - 1].date;
      forall i | 0 <= i < |ds| - 1 ensures ds[i].value <= s[|s| - 1].date.value {
        assert DateLe(s[i], s[|s| - 1]);
      }
    }
    GreatestIsUnique(s[|s| - 1].date, MaxOf(ds), ds);
  }
}
