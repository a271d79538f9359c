/**
 * `reports.filter(p).length`, the count both the dashboard and the officer
 * summary take over the report list.
 */
module Counting {
  import opened Types

  /** The positions of the reports that meet `p`. */
  ghost function Matching(reports: seq<ReportData>, p: ReportData -> bool): set<int> {
    set i | 0 <= i < |reports| && p(reports[i])
  }

  /** The number of reports meeting `p`: one per matching position. */
  function CountWhere(reports: seq<ReportData>, p: ReportData -> bool): (n: nat)
    ensures n == |Matching(reports, p)|
    ensures n <= |reports|
  {
    if reports == [] then 0
    else
      var last := |reports| - 1;
      var init := reports[..last];
      assert forall i :: 0 <= i < last ==> init[i] == reports[i];
      assert Matching(reports, p)
        == Matching(init, p) + (if p(reports[last]) then {last} else {});
      CountWhere(init, p) + (if p(reports[last]) then 1 else 0)
  }

  /** A count grows by one exactly for a matching report added at the end. */
  lemma CountWhereSnoc(reports: seq<ReportData>, x: ReportData, p: ReportData -> bool)
    ensures CountWhere(reports + [x], p) == CountWhere(reports, p) + (if p(x) then 1 else 0)
  {
    assert (reports + [x])[..|reports|] == reports;
  }
}
