/**
 * The top-level application state: the report list, the master data, the
 * logged-in role and the visible view, and the handlers that change them.
 */
module App {
  import opened Types
  import opened Text
  import opened Sorting
  import Constants

  /** What `api.getAllData()` came back with. */
  datatype FetchResult =
      /** the request or the JSON parse threw */
    | FetchFailed
      /** it resolved to a falsy value */
    | NoData
      /**
       * an object; `reports` is present only when the field is an array,
       * `masterData` only when the field is a truthy object (empty or not)
       */
    | Fetched(reports: Option<seq<ReportData>>, masterData: Option<map<string, ULPData>>)

  /**
   * The comparator of the fetch step: `a` may stay ahead of `b` when `b` is
   * not newer. ISO-8601 timestamps in the form `toISOString` writes compare
   * chronologically as strings.
   */
  function NewestFirst(): (ReportData, ReportData) -> bool {
    (a: ReportData, b: ReportData) => LexLe(b.timestamp, a.timestamp)
  }

  /** Newest-first is a total preorder, so sorting by it is well defined. */
  lemma NewestFirstIsTotalPreorder()
    ensures IsTotalPreorder(NewestFirst())
  {
    forall a: ReportData, b: ReportData
      ensures NewestFirst()(a, b) || NewestFirst()(b, a)
    {
      LexLeTotal(a.timestamp, b.timestamp);
    }
    forall a: ReportData, b: ReportData, c: ReportData | NewestFirst()(a, b) && NewestFirst()(b, c)
      ensures NewestFirst()(a, c)
    {
      LexLeTransitive(c.timestamp, b.timestamp, a.timestamp);
    }
  }

  /** The master data the fetch step settles on: the server's when it has a unit, else the defaults. */
  function AdoptedMasterData(server: Option<map<string, ULPData>>): (r: map<string, ULPData>)
    ensures |r| > 0
    ensures server.Some? && |server.value| > 0 ==> r == server.value
    ensures !(server.Some? && |server.value| > 0) ==> r == Constants.DataUlp
  {
    Constants.CatalogKeys();
    assert Bukittinggi in AllUnits;
    if server.Some? && |server.value| > 0 then server.value else Constants.DataUlp
  }

  /** The two name lists of a unit the admin edits. */
  datatype NameList = Officers | Feeders {
    function Other(): NameList {
      match this
      case Officers => Feeders
      case Feeders => Officers
    }
  }

  function ListOf(d: ULPData, which: NameList): seq<string> {
    match which
    case Officers => d.petugas
    case Feeders => d.penyulang
  }

  function WithList(d: ULPData, which: NameList, list: seq<string>): ULPData {
    match which
    case Officers => d.(petugas := list)
    case Feeders => d.(penyulang := list)
  }

  /** `list.filter(p => p !== name)`. */
  function Without(list: seq<string>, name: string): (r: seq<string>)
    ensures name !in r
    ensures multiset(r) == multiset(list)[name := 0]
  {
    if list == [] then []
    else
      assert list == [list[0]] + list[1..];
      if list[0] == name then Without(list[1..], name)
      else [list[0]] + Without(list[1..], name)
  }

  /** Removing a name keeps the order of what remains: it works piece by piece. */
  lemma {:induction false} WithoutAppend(a: seq<string>, b: seq<string>, name: string)
    ensures Without(a + b, name) == Without(a, name) + Without(b, name)
  {
    if a == [] {
      assert a + b == b;
    } else {
      assert (a + b)[0] == a[0];
      assert (a + b)[1..] == a[1..] + b;
      WithoutAppend(a[1..], b, name);
    }
  }

  /** Removing a name that is not there changes nothing. */
  lemma {:induction false} WithoutAbsent(list: seq<string>, name: string)
    requires name !in list
    ensures Without(list, name) == list
  {
    if list != [] {
      WithoutAbsent(list[1..], name);
    }
  }

  /**
   * The record `handleAddPetugas` / `handleAddPenyulang` build: the unit's
   * list grows by `names`, in order; the unit's other fields and every other
   * unit stay as they were.
   */
  function Appended(m: map<string, ULPData>, ulp: string, which: NameList, names: seq<string>)
    : (r: map<string, ULPData>)
    requires ulp in m
    ensures r.Keys == m.Keys
    ensures ListOf(r[ulp], which) == ListOf(m[ulp], which) + names
    ensures ListOf(r[ulp], which.Other()) == ListOf(m[ulp], which.Other())
    ensures r[ulp].name == m[ulp].name && r[ulp].keypoints == m[ulp].keypoints
    ensures forall k :: k in m && k != ulp ==> r[k] == m[k]
  {
    m[ulp := WithList(m[ulp], which, ListOf(m[ulp], which) + names)]
  }

  /**
   * The record `handleDeletePetugas` / `handleDeletePenyulang` build: every
   * occurrence of `name` leaves the unit's list; nothing else changes.
   */
  function Removed(m: map<string, ULPData>, ulp: string, which: NameList, name: string)
    : (r: map<string, ULPData>)
    requires ulp in m
    ensures r.Keys == m.Keys
    ensures name !in ListOf(r[ulp], which)
    ensures multiset(ListOf(r[ulp], which)) == multiset(ListOf(m[ulp], which))[name := 0]
    ensures ListOf(r[ulp], which.Other()) == ListOf(m[ulp], which.Other())
    ensures r[ulp].name == m[ulp].name && r[ulp].keypoints == m[ulp].keypoints
    ensures forall k :: k in m && k != ulp ==> r[k] == m[k]
  {
    m[ulp := WithList(m[ulp], which, Without(ListOf(m[ulp], which), name))]
  }

  /** Deleting a name right after adding it, when it was not there before, restores the master data. */
  lemma DeleteUndoesAdd(m: map<string, ULPData>, ulp: string, which: NameList, name: string)
    requires ulp in m && name !in ListOf(m[ulp], which)
    ensures Removed(Appended(m, ulp, which, [name]), ulp, which, name) == m
  {
    var d := m[ulp];
    var list := ListOf(d, which);
    WithoutAppend(list, [name], name);
    WithoutAbsent(list, name);
    assert [name][1..] == [];
    assert Without([name], name) == [];
    var added := Appended(m, ulp, which, [name]);
    assert added[ulp] == WithList(d, which, list + [name]);
    assert WithList(added[ulp], which, Without(list + [name], name)) == d;
    assert m[ulp := d] == m;
  }

  /** The state `App` keeps with `useState`. */
  class AppState {
    var role: Option<UserRole>
    var view: ViewState
    var reports: seq<ReportData>
    var masterData: map<string, ULPData>

    constructor ()
      ensures role == None && view == LoginView
      ensures reports == [] && masterData == Constants.DataUlp
    {
      role, view := None, LoginView;
      reports, masterData := [], Constants.DataUlp;
    }

    /**
     * `fetchData`'s state updates. An array of reports replaces the list,
     * sorted newest first; master data with at least one unit is adopted,
     * otherwise the defaults are, whether or not pushing them to the server
     * (`initPushOk`) succeeded. A failed or empty response changes nothing.
     */
    method ApplyFetch(response: FetchResult, initPushOk: bool)
      modifies this
      ensures role == old(role) && view == old(view)
      ensures response.Fetched? && response.reports.Some? ==>
        && multiset(reports) == multiset(response.reports.value)
        && SortedBy(reports, NewestFirst())
      ensures !(response.Fetched? && response.reports.Some?) ==> reports == old(reports)
      ensures response.Fetched? ==> masterData == AdoptedMasterData(response.masterData)
      ensures !response.Fetched? ==> masterData == old(masterData)
    {
      if response.Fetched? {
        if response.reports.Some? {
          var snapshot := response.reports.value;
          var a := new ReportData[|snapshot|](i requires 0 <= i < |snapshot| => snapshot[i]);
          assert a[..] == snapshot;
          NewestFirstIsTotalPreorder();
          InsertionSort(a, NewestFirst());
          reports := a[..];
        }
        if response.masterData.Some? && |response.masterData.value| > 0 {
          masterData := response.masterData.value;
        } else if initPushOk {
          masterData := Constants.DataUlp;
        } else {
          // the failed push is only logged; the local defaults are used anyway
          masterData := Constants.DataUlp;
        }
      }
    }

    /** `handleLogin`: the admin lands on the dashboard, everyone else on the input form. */
    method Login(selected: UserRole)
      modifies this
      ensures role == Some(selected)
      ensures view == (if selected == Admin then DashboardView else InputView)
      ensures reports == old(reports) && masterData == old(masterData)
    {
      role := Some(selected);
      if selected == Admin {
        view := DashboardView;
      } else {
        view := InputView;
      }
    }

    /** `handleLogout`: no role, back to the login screen. */
    method Logout()
      modifies this
      ensures role == None && view == LoginView
      ensures reports == old(reports) && masterData == old(masterData)
    {
      role, view := None, LoginView;
    }

    /**
     * `handleSaveReport`: once the server accepted the report (`saved`) it
     * goes in front of the list, nothing removed or deduplicated, and a
     * field officer is taken to the table. A failed save changes nothing.
     */
    method SaveReport(data: ReportData, saved: bool)
      modifies this
      ensures reports == if saved then [data] + old(reports) else old(reports)
      ensures view == if saved && old(role) == Some(User) then TableView else old(view)
      ensures role == old(role) && masterData == old(masterData)
    {
      if saved {
        reports := [data] + reports;
        if role == Some(User) {
          view := TableView;
        }
      }
    }

    /**
     * `handleAddPetugas` / `handleAddPenyulang`. Reading the list of a unit
     * the master data does not hold throws before any state changes (`ok`
     * false). The local state is kept whatever the server push does.
     */
    method AddNames(ulp: string, which: NameList, names: seq<string>) returns (ok: bool)
      modifies this
      ensures ok == (ulp in old(masterData))
      ensures masterData == if ok then Appended(old(masterData), ulp, which, names) else old(masterData)
      ensures role == old(role) && view == old(view) && reports == old(reports)
    {
      ok := ulp in masterData;
      if ok {
        masterData := Appended(masterData, ulp, which, names);
      }
    }

    /** `handleDeletePetugas` / `handleDeletePenyulang`, with the same failure path. */
    method DeleteName(ulp: string, which: NameList, name: string) returns (ok: bool)
      modifies this
      ensures ok == (ulp in old(masterData))
      ensures masterData == if ok then Removed(old(masterData), ulp, which, name) else old(masterData)
      ensures role == old(role) && view == old(view) && reports == old(reports)
    {
      ok := ulp in masterData;
      if ok {
        masterData := Removed(masterData, ulp, which, name);
      }
    }

    /** `handleInitDefault`: the defaults replace the master data once the server took them. */
    method InitDefault(pushOk: bool)
      modifies this
      ensures masterData == if pushOk then Constants.DataUlp else old(masterData)
      ensures role == old(role) && view == old(view) && reports == old(reports)
    {
      if pushOk {
        masterData := Constants.DataUlp;
      }
    }
  }
}
