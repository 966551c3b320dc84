# Air-quality market dashboard: filter and selection engine

This project models the logic of a small client-side dashboard (`src/App.jsx`)
that filters a fixed list of fifteen Indian states by state, AQI range,
hospital-admission ceiling and income level, shows metrics and a product
suggestion for the selected state, and draws a map overview that flags
high-AQI states. Everything else in the component is rendering.

Modules, one per part of the component:

- `Wrappers` (`wrappers.dfy`): the `Option` type used for lookups and parses.
- `Regions` (`regions.dfy`): the region record, the constant dataset
  `mockData`, the income-level product lookup `getProductSuggestion` and the
  `aqi > 200` classifier.
- `Filtering` (`filtering.dfy`): the filter record, the four tests of
  `applyFilters` and `FilterData`, the `mockData.filter(...)` call, together
  with its properties: order-preserving subsequence, exact multiplicities,
  membership, idempotence, wildcard and sentinel behaviour, inclusive bounds,
  and the default criteria keeping everything.
- `FilterForm` (`form.dfy`): `handleChange` and `handleRangeChange` as pure
  updates of one field of the filter record, addressed by the input's name.
- `Dashboard` (`dashboard.dfy`): `filteredData.find(...)` by id, the detail
  panel (metrics or "no selection") and the map grid's per-state flags.
- `App` (`app.dfy`): the component state as a class `AppState` with fields
  `filters`, `filteredData` and `selectedStateId`; `ApplyFilters`,
  `HandleChange` and `HandleRangeChange` change them, and `InSync` names the
  state that `applyFilters` leaves behind (the view is the filtered dataset
  and the selection is the state filter).

Parsing with `parseInt` is not modelled; the handler receives the parse's
outcome as an `Option<int>` parameter, with `None` standing for `NaN`.

Facts about the code that the model keeps: Delhi has AQI 280, 80000
admissions and income level `High` (src/App.jsx:7); the income levels are
`Low`, `Medium` and `High`; the selection is looked up in the filtered view
(src/App.jsx:86), not in the whole dataset; `aqiMin <= aqiMax` is not
enforced, so an inverted range selects nothing.

## Model

| member | source | states |
|---|---|---|
| `Regions.MockDataWellFormed` | src/App.jsx:5-21 | the dataset has 15 records, ids are unique and none is empty |
| `Regions.MockDataRanges` | src/App.jsx:5-21 | every AQI lies in 80..280 and every admissions count in 20000..80000 |
| `Regions.ProductSuggestion` | src/App.jsx:23-34 | total; High, Medium and Low give their fixed texts; the fallback text is returned exactly for values outside the three levels; never empty |
| `Regions.SuggestionsDistinct` | src/App.jsx:23-34 | the three known levels map to three different suggestions |
| `Regions.HighAqiRegions` | src/App.jsx:98 | the test is strict: in the dataset exactly Delhi and Uttar Pradesh are high-AQI, Odisha at exactly 200 is not |
| `Filtering.FilterData` | src/App.jsx:154-161 | the result is no longer than the input and every kept record is from the input and passes all four tests |
| `Filtering.FilterIsSubsequence` | src/App.jsx:154-161 | the result is an order-preserving subsequence of the input |
| `Filtering.FilterCounts` | src/App.jsx:154-161 | each record occurs in the result as often as in the input if it passes, and not at all otherwise (no passing record dropped, nothing foreign added) |
| `Filtering.FilterMembership` | src/App.jsx:154-161 | a record is in the result exactly when it is in the input and passes |
| `Filtering.FilterExtensional` | src/App.jsx:154-161 | criteria accepting the same input records give the same result |
| `Filtering.FilterMonotone` | src/App.jsx:154-161 | if every input record that passes criteria f also passes criteria g, the result under f is a subsequence of the result under g |
| `Filtering.FilterKeepsAll` | src/App.jsx:154-161 | the result is the whole input exactly when every record passes |
| `Filtering.FilterEmpty` | src/App.jsx:154-161 | the result is empty exactly when no record passes |
| `Filtering.FilterIdempotent` | src/App.jsx:154-161 | filtering the result again with the same criteria returns it unchanged |
| `Filtering.AqiBoundsInclusive` | src/App.jsx:156 | a record that passes the other three tests and has AQI equal to either bound of a nonempty range is in the result |
| `Filtering.InvertedAqiRangeIsEmpty` | src/App.jsx:156 | with `aqiMin > aqiMax` the result is empty |
| `Filtering.ZeroCeilingIsNoCeiling` | src/App.jsx:157 | a ceiling of 0 selects the same records as any ceiling at or above every admissions count |
| `Filtering.NonzeroCeilingBounds` | src/App.jsx:157 | with a nonzero ceiling a record is kept exactly when the other three tests pass and its admissions are at most the ceiling |
| `Filtering.WildcardsWiden` | src/App.jsx:155-158 | with the empty state (or empty income level) a record is kept exactly when it is in the input and passes the other three tests, and any other choice keeps a subsequence of that result |
| `Filtering.StateKeepsAtMostOne` | src/App.jsx:155 | with unique ids a nonempty state filter keeps at most one record, the one with that id |
| `Filtering.DefaultKeepsInRange` | src/App.jsx:142-148 | the default criteria keep every record with AQI in 0..500 and at most 100000 admissions |
| `Filtering.DefaultKeepsAll` | src/App.jsx:142-150 | the default criteria keep all fifteen records in order |
| `Filtering.AqiRangeExample` | src/App.jsx:156 | a record with AQI 280 passes the range 200..500 and fails 0..150 |
| `Filtering.DelhiRangeExample` | src/App.jsx:7 | Delhi is kept for AQI 200..500 and dropped for AQI 0..150 |
| `Filtering.ZeroCeilingExample` | src/App.jsx:157 | ceiling 0 keeps all fifteen records while ceiling 1 keeps none |
| `FilterForm.WithText` | src/App.jsx:37-40 | the named text field holds the new value and every other field is unchanged |
| `FilterForm.ParsedOrZero` | src/App.jsx:44 | a failed parse gives 0, a successful one its integer |
| `FilterForm.WithNumber` | src/App.jsx:42-45 | the named number field holds the parsed integer, or 0 when parsing fails, and every other field is unchanged |
| `FilterForm.WithTextUnique` | src/App.jsx:39 | the text update is the only filter record that sets the field and keeps the others |
| `Dashboard.FindById` | src/App.jsx:86 | nothing is found exactly when no record has the id; otherwise the result is the first record with that id |
| `Dashboard.DetailPanel` | src/App.jsx:86-135 | metrics are shown exactly when some record of the view has the selected id, and they are the figures and product suggestion of the first such record |
| `Dashboard.GridMarks` | src/App.jsx:95-103 | the grid has one box per region; a box is selected exactly when its id is the selected one, so at most one is; high-AQI exactly when AQI > 200 |
| `App.SelectionAfterApply` | src/App.jsx:153-165 | after applying criteria, metrics are shown exactly when a record with the state filter's id passes all tests; with the empty state, "no selection" |
| `App.SelectionShowsRecord` | src/App.jsx:86-130 | with unique ids, after applying criteria under which the record with the state filter's id passes, the panel shows exactly that record's metrics |
| `App.GridAndPanelMayDisagree` | src/App.jsx:86-135 | with state DL and AQI at most 100 the map marks Delhi selected while the panel shows "no selection" |
| `App.AppState.constructor` | src/App.jsx:142-151 | the initial state has the default criteria, the whole dataset and no selection, and is already in sync |
| `App.AppState.ApplyFilters` | src/App.jsx:153-165 | keeps the criteria, sets the view to the filtered dataset and the selection to the state filter |
| `App.AppState.HandleChange` | src/App.jsx:37-40 | sets one text field of the criteria and nothing else |
| `App.AppState.HandleRangeChange` | src/App.jsx:42-45 | sets one numeric field to the parsed integer or 0, and nothing else |
| `App.AppState.SelectedDetail` | src/App.jsx:86-135 | in a synced state, a region's metrics are shown exactly when a record with the state filter's id passes the criteria |

## Left out

- JSX rendering, CSS class strings, legend text and `toLocaleString` formatting: presentation only.
- The `useEffect` that re-runs `applyFilters` after every change of the criteria (src/App.jsx:167-169): scheduling by the UI framework. `ApplyFilters` re-establishes `InSync` from any state, which is what the effect relies on.
- The semantics of `parseInt` (prefix parsing, radix, whitespace): the parse outcome is a parameter.
- JavaScript numbers are doubles; the model uses unbounded integers, which agree on every value the inputs produce.
- Input names other than the five used by the form: the handlers are modelled only on the names the JSX wires to them (select boxes for `handleChange`, number inputs for `handleRangeChange`).
- CSV and PDF export and an AQI colour-band table: they are not in this source.
