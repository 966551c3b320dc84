/** The state of the App component (src/App.jsx): the filter record, the
    filtered view and the selected id, with `applyFilters` and the two
    change handlers that update them. */
module App {
  import opened Wrappers
  import opened Regions
  import opened Filtering
  import opened FilterForm
  import opened Dashboard

  /** After `applyFilters` with criteria `f`, the detail panel shows a region
      exactly when some record of the input has id `f.state` and passes all
      four tests; with the empty state (and
      ids that are never empty) it always shows "no selection". */
  lemma {:induction false} SelectionAfterApply(s: seq<Record>, f: Filters)
    requires forall i :: 0 <= i < |s| ==> s[i].id != ""
    ensures DetailPanel(FilterData(s, f), f.state).Metrics? <==>
      exists i :: 0 <= i < |s| && s[i].id == f.state && Matches(s[i], f)
    ensures f.state == "" ==> DetailPanel(FilterData(s, f), f.state) == NoSelection
  {
    var view := FilterData(s, f);
    if DetailPanel(view, f.state).Metrics? {
      var k :| 0 <= k < |view| && view[k].id == f.state;
      assert view[k] in view;
      assert view[k] in s;
      var i :| 0 <= i < |s| && s[i] == view[k];
      assert s[i].id == f.state && Matches(s[i], f);
    }
    if exists i :: 0 <= i < |s| && s[i].id == f.state && Matches(s[i], f) {
      var i :| 0 <= i < |s| && s[i].id == f.state && Matches(s[i], f);
      FilterMembership(s, f, s[i]);
      var k :| 0 <= k < |view| && view[k] == s[i];
      assert view[k].id == f.state;
    }
  }

  /** With unique ids, the region shown after `applyFilters` is the record
      with the state filter's id, when it passes the criteria. */
  lemma {:induction false} SelectionShowsRecord(s: seq<Record>, f: Filters, i: int)
    requires UniqueIds(s)
    requires 0 <= i < |s| && s[i].id == f.state && Matches(s[i], f)
    ensures DetailPanel(FilterData(s, f), f.state) == MetricsOf(s[i])
  {
    var view := FilterData(s, f);
    FilterMembership(s, f, s[i]);
    var k :| 0 <= k < |view| && view[k] == s[i];
    assert view[k].id == f.state;
    var d := DetailPanel(view, f.state);
    var m :| 0 <= m < |view| && view[m].id == f.state && d == MetricsOf(view[m]);
    assert view[m] in view;
    var n :| 0 <= n < |s| && s[n] == view[m];
    assert s[n].id == s[i].id;
    assert n == i;
  }

  /** The map still marks a selected region that the filters drop: with
      state "DL" and AQI at most 100, Delhi's box is marked selected while
      the detail panel shows "no selection". */
  lemma GridAndPanelMayDisagree()
    ensures StateGrid("DL")[1].name == "Delhi" && StateGrid("DL")[1].selected
    ensures DetailPanel(FilterData(MockData, DefaultFilters.(state := "DL", aqiMax := 100)), "DL") == NoSelection
  {
    MockDataWellFormed();
    var f := DefaultFilters.(state := "DL", aqiMax := 100);
    forall i | 0 <= i < |MockData| && MockData[i].id == f.state
      ensures !Matches(MockData[i], f)
    {
      assert MockData[i] == MockData[1];
    }
    SelectionAfterApply(MockData, f);
  }

  /** The App component's state. */
  class AppState {
    var filters: Filters
    var filteredData: seq<Record>
    var selectedStateId: string

    /** The view shows what the current criteria select: the state that
        `applyFilters` leaves behind. */
    ghost predicate InSync()
      reads this
    {
      filteredData == FilterData(MockData, filters) && selectedStateId == filters.state
    }

    /** The initial state: default criteria, the whole dataset, no selection.
        It is already what `applyFilters` would produce. */
    constructor ()
      ensures filters == DefaultFilters && filteredData == MockData && selectedStateId == ""
      ensures InSync()
    {
      filters := DefaultFilters;
      filteredData := MockData;
      selectedStateId := "";
      new;
      DefaultKeepsAll();
      assert filteredData == FilterData(MockData, filters);
    }

    /** `applyFilters`: recompute the view from the dataset and copy the
        state filter into the selection. */
    method ApplyFilters()
      modifies this
      ensures filters == old(filters)
      ensures filteredData == FilterData(MockData, filters)
      ensures selectedStateId == filters.state
      ensures InSync()
    {
      filteredData := FilterData(MockData, filters);
      if filters.state != "" {
        selectedStateId := filters.state;
      } else {
        selectedStateId := "";
      }
    }

    /** `handleChange` on a select box: set one text field, nothing else. */
    method HandleChange(k: Field, value: string)
      requires k.IsText()
      modifies this
      ensures filters == WithText(old(filters), k, value)
      ensures filteredData == old(filteredData) && selectedStateId == old(selectedStateId)
    {
      filters := WithText(filters, k, value);
    }

    /** `handleRangeChange` on a number input: set one numeric field to the
        parsed value, or 0 when parsing fails, nothing else. */
    method HandleRangeChange(k: Field, parsed: Option<int>)
      requires !k.IsText()
      modifies this
      ensures filters == WithNumber(old(filters), k, parsed)
      ensures filteredData == old(filteredData) && selectedStateId == old(selectedStateId)
    {
      filters := WithNumber(filters, k, parsed);
    }

    /** What the Dashboard shows below the map for the current state; when
        the view is in sync, a region is shown exactly when the dataset has
        a record with the state filter's id that passes the criteria. */
    method SelectedDetail() returns (d: Detail)
      requires InSync()
      ensures d == DetailPanel(filteredData, selectedStateId)
      ensures d.Metrics? <==>
        exists i :: 0 <= i < |MockData| && MockData[i].id == filters.state && Matches(MockData[i], filters)
      ensures filters.state == "" ==> d == NoSelection
    {
      MockDataWellFormed();
      SelectionAfterApply(MockData, filters);
      d := DetailPanel(filteredData, selectedStateId);
    }
  }
}
