/**
 * The officer summary of the admin screen: reports filtered by a date
 * range, one row per registered officer with the number of filtered reports
 * that name them, ranked by that number and numbered from 1.
 */
module AdminRekap {
  import opened Types
  import opened Text
  import opened Sorting
  import opened Counting

  /**
   * The date filter: the report's `yyyy-mm-dd` date (the timestamp up to its
   * first 'T') lies within the bounds that are set; an empty bound does not
   * filter. Dates compare as strings.
   */
  predicate InPeriod(r: ReportData, start: string, end: string) {
    var date := BeforeFirstT(r.timestamp);
    (start == [] || LexLe(start, date)) && (end == [] || LexLe(date, end))
  }

  function FilterByPeriod(reports: seq<ReportData>, start: string, end: string): (r: seq<ReportData>)
    ensures |r| <= |reports|
    ensures forall x :: x in r <==> x in reports && InPeriod(x, start, end)
  {
    if reports == [] then []
    else
      var rest := FilterByPeriod(reports[1..], start, end);
      assert forall x :: x in reports <==> x == reports[0] || x in reports[1..];
      if InPeriod(reports[0], start, end) then [reports[0]] + rest else rest
  }

  /**
   * The filter works piece by piece: every report in the period is kept,
   * as often as it occurs, and in its place.
   */
  lemma {:induction false} FilterByPeriodAppend(a: seq<ReportData>, b: seq<ReportData>, start: string, end: string)
    ensures FilterByPeriod(a + b, start, end) == FilterByPeriod(a, start, end) + FilterByPeriod(b, start, end)
  {
    if a != [] {
      var ab := a + b;
      assert ab != [] && ab[0] == a[0] && ab[1..] == a[1..] + b;
      FilterByPeriodAppend(a[1..], b, start, end);
      var head := if InPeriod(a[0], start, end) then [a[0]] else [];
      assert FilterByPeriod(ab, start, end) == head + FilterByPeriod(a[1..] + b, start, end);
      assert FilterByPeriod(a, start, end) == head + FilterByPeriod(a[1..], start, end);
    } else {
      assert a + b == b;
    }
  }

  /** The filter keeps one entry per position whose report is in the period. */
  lemma {:induction false} FilterByPeriodCount(reports: seq<ReportData>, start: string, end: string)
    ensures |FilterByPeriod(reports, start, end)|
      == |set i | 0 <= i < |reports| && InPeriod(reports[i], start, end)|
  {
    var inPeriod := (r: ReportData) => InPeriod(r, start, end);
    FilterByPeriodLength(reports, start, end, inPeriod);
    assert Matching(reports, inPeriod) == set i | 0 <= i < |reports| && InPeriod(reports[i], start, end);
  }

  lemma {:induction false} FilterByPeriodLength(
    reports: seq<ReportData>, start: string, end: string, inPeriod: ReportData -> bool)
    requires forall r :: inPeriod(r) == InPeriod(r, start, end)
    ensures |FilterByPeriod(reports, start, end)| == CountWhere(reports, inPeriod)
  {
    if reports != [] {
      var n := |reports| - 1;
      var init, last := reports[..n], reports[n];
      FilterByPeriodLength(init, start, end, inPeriod);
      assert reports == init + [last];
      FilterByPeriodAppend(init, [last], start, end);
      var one := if InPeriod(last, start, end) then 1 else 0;
      assert |FilterByPeriod([last], start, end)| == one;
      assert CountWhere(reports, inPeriod) == CountWhere(init, inPeriod) + one;
    }
  }

  /** With neither bound set, every report passes the date filter, in order. */
  lemma {:induction false} NoBoundsKeepsAll(reports: seq<ReportData>)
    ensures FilterByPeriod(reports, "", "") == reports
  {
    if reports != [] {
      NoBoundsKeepsAll(reports[1..]);
      assert reports == [reports[0]] + reports[1..];
    }
  }

  /** The report belongs to unit `ulp` and names `nama` in either officer slot. */
  predicate Names(r: ReportData, ulp: string, nama: string) {
    r.ulp == ulp && (r.petugas1 == nama || r.petugas2 == nama)
  }

  /**
   * An officer's total: the number of reports that name them, each report
   * counted once however many of its slots name them.
   */
  function Realisasi(reports: seq<ReportData>, ulp: string, nama: string): (n: nat)
    ensures n == |set i | 0 <= i < |reports| && Names(reports[i], ulp, nama)|
    ensures n <= |reports|
  {
    var naming := (r: ReportData) => Names(r, ulp, nama);
    assert Matching(reports, naming) == set i | 0 <= i < |reports| && Names(reports[i], ulp, nama);
    CountWhere(reports, naming)
  }

  /**
   * The period label of every row: "Semua" when no start date is set, the
   * month range when both bounds are, "Sejak <month>" with only a start.
   * `monthYear` and `month` stand for the locale formatting of a date.
   */
  function PeriodLabel(start: string, end: string, monthYear: string -> string, month: string -> string)
    : (r: string)
    ensures start == [] ==> r == "Semua"
    ensures start != [] && end == [] ==> r == "Sejak " + month(start)
    ensures start != [] && end != [] && monthYear(start) == monthYear(end) ==> r == monthYear(start)
    ensures start != [] && end != [] && monthYear(start) != monthYear(end) ==>
      r == monthYear(start) + " - " + monthYear(end)
  {
    if start != [] && end != [] then
      var s, e := monthYear(start), monthYear(end);
      if s == e then s else s + " - " + e
    else if start != [] then "Sejak " + month(start)
    else "Semua"
  }

  /** A row before numbering. */
  datatype Row = Row(bulan: string, nama: string, ulp: string, total: nat)

  /** A row of the displayed table. */
  datatype NumberedRow = NumberedRow(no: nat, row: Row)

  /** A unit is listed when no unit filter is set or it is the filtered unit. */
  predicate Included(u: ULPData, filterUlp: string) {
    filterUlp == [] || u.name == filterUlp
  }

  /** The row of the unit's `k`-th officer. */
  function OfficerRow(u: ULPData, k: nat, filtered: seq<ReportData>, period: string): Row
    requires k < |u.petugas|
  {
    Row(period, u.petugas[k], u.name, Realisasi(filtered, u.name, u.petugas[k]))
  }

  function UnitRows(u: ULPData, filtered: seq<ReportData>, period: string): seq<Row> {
    seq(|u.petugas|, k requires 0 <= k < |u.petugas| => OfficerRow(u, k, filtered, period))
  }

  /** The rows in the order they are pushed: unit by unit, officer by officer. */
  function RawRows(units: seq<ULPData>, filterUlp: string, filtered: seq<ReportData>, period: string)
    : seq<Row>
  {
    if units == [] then []
    else
      var last := units[|units| - 1];
      RawRows(units[..|units| - 1], filterUlp, filtered, period)
        + (if Included(last, filterUlp) then UnitRows(last, filtered, period) else [])
  }

  /** `row` is the row of some officer of an included unit. */
  ghost predicate IsIncludedOfficerRow(
    units: seq<ULPData>, filterUlp: string, filtered: seq<ReportData>, period: string, row: Row)
  {
    exists i, k :: (0 <= i < |units| && 0 <= k < |units[i].petugas| && Included(units[i], filterUlp)
      && row == OfficerRow(units[i], k, filtered, period))
  }

  /**
   * Only officers of included units get a row, each with their unit, the
   * shared period label and their total over the filtered reports.
   */
  lemma {:induction false} RowsAreIncludedOfficers(
    units: seq<ULPData>, filterUlp: string, filtered: seq<ReportData>, period: string, row: Row)
    requires row in RawRows(units, filterUlp, filtered, period)
    ensures IsIncludedOfficerRow(units, filterUlp, filtered, period, row)
  {
    var n := |units| - 1;
    var init := units[..n];
    var own := if Included(units[n], filterUlp) then UnitRows(units[n], filtered, period) else [];
    assert RawRows(units, filterUlp, filtered, period) == RawRows(init, filterUlp, filtered, period) + own;
    if row in RawRows(init, filterUlp, filtered, period) {
      RowsAreIncludedOfficers(init, filterUlp, filtered, period, row);
      var i, k :| 0 <= i < |init| && 0 <= k < |init[i].petugas| && Included(init[i], filterUlp)
        && row == OfficerRow(init[i], k, filtered, period);
      assert init[i] == units[i];
    } else {
      var k :| 0 <= k < |own| && own[k] == row;
      assert row == OfficerRow(units[n], k, filtered, period);
    }
  }

  /** Every officer of an included unit gets a row. */
  lemma {:induction false} IncludedOfficersHaveRows(
    units: seq<ULPData>, filterUlp: string, filtered: seq<ReportData>, period: string, i: int, k: int)
    requires 0 <= i < |units| && 0 <= k < |units[i].petugas| && Included(units[i], filterUlp)
    ensures OfficerRow(units[i], k, filtered, period) in RawRows(units, filterUlp, filtered, period)
  {
    var n := |units| - 1;
    var init := units[..n];
    var own := if Included(units[n], filterUlp) then UnitRows(units[n], filtered, period) else [];
    assert RawRows(units, filterUlp, filtered, period) == RawRows(init, filterUlp, filtered, period) + own;
    if i < n {
      assert init[i] == units[i];
      IncludedOfficersHaveRows(init, filterUlp, filtered, period, i, k);
    } else {
      assert own[k] == OfficerRow(units[i], k, filtered, period);
    }
  }

  /** The `forEach` loops that push one row per officer of each included unit. */
  method CollectRows(units: seq<ULPData>, filterUlp: string, filtered: seq<ReportData>, period: string)
    returns (rows: seq<Row>)
    ensures rows == RawRows(units, filterUlp, filtered, period)
  {
    rows := [];
    var i := 0;
    while i < |units|
      invariant 0 <= i <= |units|
      invariant rows == RawRows(units[..i], filterUlp, filtered, period)
    {
      var u := units[i];
      assert units[..i + 1][..i] == units[..i];
      if Included(u, filterUlp) {
        var k := 0;
        while k < |u.petugas|
          invariant 0 <= k <= |u.petugas|
          invariant rows == RawRows(units[..i], filterUlp, filtered, period) + UnitRows(u, filtered, period)[..k]
        {
          assert UnitRows(u, filtered, period)[..k + 1]
            == UnitRows(u, filtered, period)[..k] + [OfficerRow(u, k, filtered, period)];
          rows := rows + [OfficerRow(u, k, filtered, period)];
          k := k + 1;
        }
        assert UnitRows(u, filtered, period)[..k] == UnitRows(u, filtered, period);
      }
      i := i + 1;
    }
    assert units[..i] == units;
  }

  /**
   * The ranking comparator: a higher total first, equal totals by name,
   * `collate` standing for `localeCompare(a, b) <= 0`.
   */
  function Ranking(collate: (string, string) -> bool): (Row, Row) -> bool {
    (a: Row, b: Row) => a.total > b.total || (a.total == b.total && collate(a.nama, b.nama))
  }

  lemma RankingIsTotalPreorder(collate: (string, string) -> bool)
    requires IsTotalPreorder(collate)
    ensures IsTotalPreorder(Ranking(collate))
  {
    var before := Ranking(collate);
    forall a: Row, b: Row
      ensures before(a, b) || before(b, a)
    {
      assert collate(a.nama, b.nama) || collate(b.nama, a.nama);
    }
    forall a: Row, b: Row, c: Row | before(a, b) && before(b, c)
      ensures before(a, c)
    {
      if a.total == b.total == c.total {
        assert collate(a.nama, b.nama) && collate(b.nama, c.nama);
      }
    }
  }

  /** `rawResult.map((item, index) => ({...item, no: index + 1}))`. */
  function Numbered(rows: seq<Row>): (t: seq<NumberedRow>)
    ensures |t| == |rows|
    ensures forall i :: 0 <= i < |t| ==> t[i].no == i + 1 && t[i].row == rows[i]
  {
    seq(|rows|, i requires 0 <= i < |rows| => NumberedRow(i + 1, rows[i]))
  }

  function Unnumbered(t: seq<NumberedRow>): (rows: seq<Row>)
    ensures |rows| == |t|
    ensures forall i :: 0 <= i < |t| ==> rows[i] == t[i].row
  {
    seq(|t|, i requires 0 <= i < |t| => t[i].row)
  }

  /** Numbering only adds the position: dropping it gives the rows back. */
  lemma UnnumberedNumbered(rows: seq<Row>)
    ensures Unnumbered(Numbered(rows)) == rows
  {
  }

  /**
   * The whole `rekapData` computation. `units` is `Object.values(masterData)`
   * in its iteration order. The table holds exactly the collected rows,
   * ranked, and numbered 1..n in table order.
   */
  method Rekap(reports: seq<ReportData>, units: seq<ULPData>, start: string, end: string, filterUlp: string,
               collate: (string, string) -> bool, monthYear: string -> string, month: string -> string)
    returns (table: seq<NumberedRow>)
    requires IsTotalPreorder(collate)
    ensures var filtered := FilterByPeriod(reports, start, end);
      multiset(Unnumbered(table))
        == multiset(RawRows(units, filterUlp, filtered, PeriodLabel(start, end, monthYear, month)))
    ensures SortedBy(Unnumbered(table), Ranking(collate))
    ensures forall i :: 0 <= i < |table| ==> table[i].no == i + 1
    ensures forall i :: 0 <= i < |table| ==>
      && table[i].row.total <= |FilterByPeriod(reports, start, end)|
      && (start == [] ==> table[i].row.bulan == "Semua")
      && (filterUlp != [] ==> table[i].row.ulp == filterUlp)
  {
    var filtered := FilterByPeriod(reports, start, end);
    var period := PeriodLabel(start, end, monthYear, month);
    var raw := CollectRows(units, filterUlp, filtered, period);
    var a := new Row[|raw|](i requires 0 <= i < |raw| => raw[i]);
    assert a[..] == raw;
    RankingIsTotalPreorder(collate);
    InsertionSort(a, Ranking(collate));
    var ranked := a[..];
    table := Numbered(ranked);
    UnnumberedNumbered(ranked);
    forall i | 0 <= i < |table|
      ensures && table[i].row.total <= |filtered|
              && (start == [] ==> table[i].row.bulan == "Semua")
              && (filterUlp != [] ==> table[i].row.ulp == filterUlp)
    {
      assert table[i].row == ranked[i];
      assert ranked[i] in multiset(raw);
      RowsAreIncludedOfficers(units, filterUlp, filtered, period, ranked[i]);
      var j, k :| 0 <= j < |units| && 0 <= k < |units[j].petugas| && Included(units[j], filterUlp)
        && ranked[i] == OfficerRow(units[j], k, filtered, period);
    }
  }
}
