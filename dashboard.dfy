/**
 * The dashboard statistics: how many reports there are, how many belong to
 * the current month, and one chart bar per unit with that unit's count.
 */
module Dashboard {
  import opened Types
  import opened Text
  import opened Counting

  /** The number of reports whose month name is `currentMonth`. */
  function ThisMonthCount(reports: seq<ReportData>, currentMonth: string): (n: nat)
    ensures n == |set i | 0 <= i < |reports| && reports[i].bulan == currentMonth|
    ensures n <= |reports|
  {
    var inMonth := (r: ReportData) => r.bulan == currentMonth;
    assert Matching(reports, inMonth) == set i | 0 <= i < |reports| && reports[i].bulan == currentMonth;
    CountWhere(reports, inMonth)
  }

  /** The number of reports of unit `ulp`. */
  function UnitCount(reports: seq<ReportData>, ulp: string): (n: nat)
    ensures n == |set i | 0 <= i < |reports| && reports[i].ulp == ulp|
    ensures n <= |reports|
  {
    var ofUnit := (r: ReportData) => r.ulp == ulp;
    assert Matching(reports, ofUnit) == set i | 0 <= i < |reports| && reports[i].ulp == ulp;
    CountWhere(reports, ofUnit)
  }

  /** The `reduce` that counts reports per unit name into a dictionary. */
  function DataMap(reports: seq<ReportData>): map<string, nat> {
    if reports == [] then map[]
    else
      var acc := DataMap(reports[..|reports| - 1]);
      var k := reports[|reports| - 1].ulp;
      acc[k := (if k in acc then acc[k] else 0) + 1]
  }

  /** `dataMap[name] || 0`. */
  function Lookup(m: map<string, nat>, name: string): nat {
    if name in m then m[name] else 0
  }

  /**
   * The fold agrees with counting by filter: a unit has an entry exactly
   * when it has a report, and the entry is its number of reports.
   */
  lemma {:induction false} DataMapCounts(reports: seq<ReportData>, name: string)
    ensures name in DataMap(reports) <==> UnitCount(reports, name) > 0
    ensures Lookup(DataMap(reports), name) == UnitCount(reports, name)
  {
    if reports != [] {
      DataMapCounts(reports[..|reports| - 1], name);
    }
  }

  /** One bar of the chart. */
  datatype Bar = Bar(name: string, count: nat)

  /** A bar per unit of `units`, labelled without the "ULP " prefix. */
  function BarsFor(units: seq<ULPName>, reports: seq<ReportData>): (bars: seq<Bar>)
    ensures |bars| == |units|
  {
    seq(|units|, i requires 0 <= i < |units| =>
      Bar(RemoveFirst(units[i].Name(), "ULP "), Lookup(DataMap(reports), units[i].Name())))
  }

  /** `chartData`: one bar per unit, in the enum's order. */
  function ChartData(reports: seq<ReportData>): (bars: seq<Bar>)
    ensures |bars| == |AllUnits|
  {
    BarsFor(AllUnits, reports)
  }

  /** Every unit name starts with "ULP ". */
  lemma NameHasPrefix(u: ULPName)
    ensures StartsWith(u.Name(), "ULP ")
  {
  }

  /**
   * Bar `i` is the `i`-th unit of the enum: its label is the unit name
   * without "ULP ", its count the unit's number of reports (0 when none).
   */
  lemma ChartBars(reports: seq<ReportData>, i: int)
    requires 0 <= i < |AllUnits|
    ensures ChartData(reports)[i].name == AllUnits[i].Name()[4..]
    ensures ChartData(reports)[i].count == UnitCount(reports, AllUnits[i].Name())
  {
    NameHasPrefix(AllUnits[i]);
    DataMapCounts(reports, AllUnits[i].Name());
  }

  function SumOfCounts(bars: seq<Bar>): nat {
    if bars == [] then 0 else bars[0].count + SumOfCounts(bars[1..])
  }

  /** How many units of `units` are called `name`. */
  function UnitsNamed(units: seq<ULPName>, name: string): nat {
    if units == [] then 0 else (if units[0].Name() == name then 1 else 0) + UnitsNamed(units[1..], name)
  }

  /** The bars' counts add up to the reports whose unit is among `units`, each weighed by how often it occurs. */
  lemma {:induction false} BarsSum(units: seq<ULPName>, reports: seq<ReportData>)
    ensures SumOfCounts(BarsFor(units, reports)) == SumOverReports(units, reports)
    decreases |reports|
  {
    if reports == [] {
      NoReportsNoCounts(units);
    } else {
      var n := |reports| - 1;
      BarsSum(units, reports[..n]);
      assert reports == reports[..n] + [reports[n]];
      BarsSnoc(units, reports[..n], reports[n]);
    }
  }

  /** `UnitsNamed` summed over the reports. */
  function SumOverReports(units: seq<ULPName>, reports: seq<ReportData>): nat {
    if reports == [] then 0
    else SumOverReports(units, reports[..|reports| - 1]) + UnitsNamed(units, reports[|reports| - 1].ulp)
  }

  lemma {:induction false} NoReportsNoCounts(units: seq<ULPName>)
    ensures SumOfCounts(BarsFor(units, [])) == 0
  {
    if units != [] {
      assert BarsFor(units, [])[1..] == BarsFor(units[1..], []);
      NoReportsNoCounts(units[1..]);
    }
  }

  /** Adding a report at the end raises the bar sum by the number of units it names. */
  lemma {:induction false} BarsSnoc(units: seq<ULPName>, reports: seq<ReportData>, x: ReportData)
    ensures SumOfCounts(BarsFor(units, reports + [x]))
      == SumOfCounts(BarsFor(units, reports)) + UnitsNamed(units, x.ulp)
  {
    if units != [] {
      assert BarsFor(units, reports + [x])[1..] == BarsFor(units[1..], reports + [x]);
      assert BarsFor(units, reports)[1..] == BarsFor(units[1..], reports);
      BarsSnoc(units[1..], reports, x);
      var name := units[0].Name();
      DataMapCounts(reports + [x], name);
      DataMapCounts(reports, name);
      CountWhereSnoc(reports, x, (r: ReportData) => r.ulp == name);
    }
  }

  /** In a list of distinct units a name is carried by at most one of them. */
  lemma {:induction false} DistinctUnitsNamed(units: seq<ULPName>, s: string)
    requires forall i, j :: 0 <= i < j < |units| ==> units[i] != units[j]
    ensures UnitsNamed(units, s) == if exists u :: u in units && u.Name() == s then 1 else 0
  {
    if units != [] {
      DistinctUnitsNamed(units[1..], s);
      if units[0].Name() == s {
        forall u | u in units[1..] ensures u.Name() != s {
          UnitNamesDistinct(u, units[0]);
        }
      }
      assert forall u :: u in units <==> u == units[0] || u in units[1..];
    }
  }

  /** Each unit name occurs once in the enum, and no other string does. */
  lemma EnumNamesOnce(s: string)
    ensures UnitsNamed(AllUnits, s) == if UnitNamed(s).Some? then 1 else 0
  {
    DistinctUnitsNamed(AllUnits, s);
    if UnitNamed(s).Some? {
      var u := UnitNamed(s).value;
      UnitNameRoundTrip(u, s);
      EveryUnitListed(u);
    } else {
      forall u: ULPName ensures u.Name() != s {
        UnitNameRoundTrip(u, s);
      }
    }
  }

  /**
   * When every report names one of the seven units, the chart accounts for
   * every report: its bars add up to the total.
   */
  lemma {:induction false} ChartSumsToTotal(reports: seq<ReportData>)
    requires forall r :: r in reports ==> UnitNamed(r.ulp).Some?
    ensures SumOfCounts(ChartData(reports)) == |reports|
  {
    BarsSum(AllUnits, reports);
    ReportsCountedOnce(reports);
  }

  lemma {:induction false} ReportsCountedOnce(reports: seq<ReportData>)
    requires forall r :: r in reports ==> UnitNamed(r.ulp).Some?
    ensures SumOverReports(AllUnits, reports) == |reports|
  {
    if reports != [] {
      var n := |reports| - 1;
      assert forall r :: r in reports[..n] ==> r in reports;
      ReportsCountedOnce(reports[..n]);
      EnumNamesOnce(reports[n].ulp);
    }
  }
}
