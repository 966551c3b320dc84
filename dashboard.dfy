/** What the Dashboard component derives from the view (src/App.jsx): the
    lookup of the selected region, the detail panel and the state grid. */
module Dashboard {
  import opened Wrappers
  import opened Regions

  /** `data.find(d => d.id === id)`: the first record with that id, if any. */
  function FindById(data: seq<Record>, id: string): (r: Option<Record>)
    ensures r.None? <==> forall i :: 0 <= i < |data| ==> data[i].id != id
    ensures r.Some? ==> exists i :: 0 <= i < |data| && data[i] == r.value && data[i].id == id
                                   && forall j :: 0 <= j < i ==> data[j].id != id
  {
    if data == [] then None
    else if data[0].id == id then Some(data[0])
    else
      var r := FindById(data[1..], id);
      assert forall i :: 0 < i < |data| ==> data[i] == data[1..][i - 1];
      r
  }

  /** The lower part of the dashboard: the metrics of the selected region,
      or the "no selection" message. */
  datatype Detail =
    | NoSelection
    | Metrics(name: string, aqi: int, hospitalAdmissions: int, incomeLevel: string, suggestion: string)

  /** The metric cards of one region: its name, AQI, admissions, income
      level and the product suggested for that level. */
  function MetricsOf(r: Record): Detail
  {
    Metrics(r.name, r.aqi, r.hospitalAdmissions, r.incomeLevel, ProductSuggestion(r.incomeLevel))
  }

  /** The detail panel for the filtered view and the selected id: the
      metrics of the first record of the view with that id, if any. */
  function DetailPanel(filteredData: seq<Record>, selectedStateId: string): (d: Detail)
    ensures d.Metrics? <==> exists i :: 0 <= i < |filteredData| && filteredData[i].id == selectedStateId
    ensures d.Metrics? ==>
      exists i :: 0 <= i < |filteredData| && filteredData[i].id == selectedStateId &&
        (forall j :: 0 <= j < i ==> filteredData[j].id != selectedStateId) &&
        d == MetricsOf(filteredData[i])
  {
    match FindById(filteredData, selectedStateId)
    case None => NoSelection
    case Some(r) => MetricsOf(r)
  }

  /** One box of the map overview: marked selected when its id is the
      selected one, and high-AQI when its index is above 200. */
  datatype StateBox = StateBox(id: string, name: string, selected: bool, highAqi: bool)

  function Box(r: Record, selectedStateId: string): StateBox
  {
    StateBox(r.id, r.name, selectedStateId == r.id, IsHighAqi(r))
  }

  /** The map overview draws every region of the dataset, whatever the
      filters, in dataset order. */
  function StateGrid(selectedStateId: string): seq<StateBox>
  {
    seq(|MockData|, i requires 0 <= i < |MockData| => Box(MockData[i], selectedStateId))
  }

  /** The grid has one box per region; a box is marked selected exactly when
      its region has the selected id, so at most one box is; a box is marked
      high-AQI exactly when the region's AQI exceeds 200. */
  lemma GridMarks(selectedStateId: string)
    ensures |StateGrid(selectedStateId)| == |MockData|
    ensures forall i :: 0 <= i < |MockData| ==>
      StateGrid(selectedStateId)[i].id == MockData[i].id &&
      (StateGrid(selectedStateId)[i].selected <==> MockData[i].id == selectedStateId) &&
      (StateGrid(selectedStateId)[i].highAqi <==> MockData[i].aqi > 200)
    ensures forall i, j ::
      (0 <= i < |MockData| && 0 <= j < |MockData| &&
       StateGrid(selectedStateId)[i].selected && StateGrid(selectedStateId)[j].selected) ==> i == j
  {
    MockDataWellFormed();
  }
}
