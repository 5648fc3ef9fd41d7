# Customer-growth drill-down dashboard: aggregation and selection model

A Dafny model of the two pieces of logic in the Streamlit customer-growth
dashboard (`app.py`):

- **The aggregation pipeline** (`preparing_data` and `calculate_growth`). The raw
  customer table has district, city and province names (`WADMKC`, `WADMKK`,
  `WADMPR`) and, for 2019 and 2024, a customer count and N/Y sub-counts for the
  business units NMC, REFI, MPF, MMU and OTHERS. It is grouped at three levels:
  by province, by (city, province) and by (district, city, province). Each
  group's count columns are summed. Then the derived columns are added:
  `{year}_{unit}_TOTAL`, `{unit}_BOOKING_GROWTH` and `CUSTOMER_GROWTH`.
  Infinities and NaN are replaced by 0. Finally the result is left-merged onto
  the level's boundary table, whose names were upper-cased.
- **The drill-down selection** (`callback`, `reset_to_province_view`,
  `reset_to_city_view`, the session-state initialisation). It is modelled as
  the class `Session.DrillDownState`. Two pure functions model what
  `display_map` derives from the selection. One chooses the rows whose polygons
  give the map extent. The other chooses the city and district rows drawn over
  the province layer.
- The tooltip field and alias lists of `create_tooltip`.

Files: `options.dfy` (Option), `tables.dfy` (rows, count columns, keys,
upper-casing), `growth.dfy` (derived columns), `aggregate.dfy` (group-by-sum),
`merge.dfy` (left merge), `pipeline.dfy` (the three level tables),
`session.dfy` (selection state), `display.dfy` (extent and layers),
`tooltip.dfy`.

Modelling choices:
- Counts are unbounded integers. Growth values are exact reals.
- Division follows the dataframe library's float rules. A zero divisor gives
  +inf, -inf or NaN (`Growth.Float`). Cleaning maps all three to 0, and this
  is proved equal to the reference `GrowthPct`, which is 0 when the 2019 value
  is 0.
- Polygons are opaque handles (`Tables.Geometry`).
- Metrics in a final table are an `Option`, because the merge runs after the
  zero-fill. An area without raw rows has missing metrics.
- The callback's Python exceptions become the outcome `Raised`, with the
  selection unchanged. There are two of them: a `last_clicked` with no active
  drawing, and a city feature without `WADMPR`.
- `display_map` tests the selection fields for truthiness, so an empty name
  counts as unselected (`Display.Truthy`).

Behaviour of `app.py` that the model keeps as written:
- Clicking the selected city again is a no-op (app.py:213). It does not
  collapse the view to the top level.
- A district is never selected: `clicked_district` is only ever cleared
  (app.py:216, 225, 231, 237).
- Clicking a province feature compares only the province (app.py:222). A
  selected city stays selected when its own province is clicked again.
- Only the boundary names are upper-cased (app.py:60, 64, 68). The raw names
  are matched as they are (`Pipeline.LowerCaseRawNamesMatchNothing`).

## Model

| member | source | states |
|---|---|---|
| `Tables.Add` | app.py:72-74 | every count column of the sum is the sum of that column in the two rows |
| `Tables.Upper` | app.py:60-68 | same length; no lower-case ASCII letter remains; lower-case letters become their upper-case letter and every other character is kept |
| `Tables.UpperKey` | app.py:60-68 | every name of a key is upper-cased and the level of the key is kept |
| `Tables.UpperShapes` | app.py:59-69 | the boundary table keeps its length and each row's polygon and key kind; every name of row i is the upper-cased old name, with no lower-case letter left |
| `Growth.Divide` | app.py:43-54 | a non-zero divisor gives the exact quotient; a zero divisor gives +inf, -inf or NaN by the dividend's sign |
| `Growth.GrowthPct` | app.py:43-54 | growth is 0 when the 2019 value is 0, and otherwise satisfies growth × 2019 value = (2024 − 2019) × 100 |
| `Growth.CleanedGrowth` | app.py:43-54 | the raw growth column is non-finite exactly when the 2019 value is 0; after replacing ±inf and NaN by 0 it equals `GrowthPct` |
| `Growth.CalculateGrowth` | app.py:42-55 | one output row per input row with the same key and counts; CUSTOMER_GROWTH is `GrowthPct` of the customer counts; all five units get both TOTALs as N+Y and BOOKING_GROWTH as `GrowthPct` of the TOTALs |
| `Aggregate.SumWhereByColumn` | app.py:72-74 | each column of a group's summed counts is the sum of that column over the raw rows with the group's key |
| `Aggregate.AddTo` | app.py:74 | adding a row's counts to its group either adds them to the one group with that key or opens a new group at the end; other groups and the key order are unchanged; keys stay distinct |
| `Aggregate.GroupSum` | app.py:72-74 | keys are distinct; a key has a group exactly when some raw row has it; each group's counts are the sum over the raw rows with its key (the same at each level: lines 74, 83, 92) |
| `Aggregate.DistrictsRollUpToCity` | app.py:83-93 | the city and district tables group the same raw rows, so the district groups of a city sum to that city's summed counts |
| `Merge.Matches` | app.py:76-81 | the metrics of exactly the aggregated rows with the given key; empty exactly when no aggregated row has it |
| `Merge.MergeLeft` | app.py:76-81 | at least as many rows as the boundary table; every output row has a boundary row's key and polygon; present metrics come from an aggregated row with that key |
| `Merge.MergeLeftCovers` | app.py:76-81 | every boundary row appears in the merge with its key and polygon |
| `Merge.MergeLeftMissingOnlyUnmatched` | app.py:76-81 | a merged row's metrics are missing only when no aggregated row has its key |
| `Merge.MergeLeftOneToOne` | app.py:76-99 | with distinct aggregated keys, the output has exactly the boundary rows in order; row i has boundary row i's key and polygon and the metrics of the aggregated row with that key; metrics are missing exactly when no aggregated row has it |
| `Pipeline.PrepareLevel` | app.py:72-99 | a level's table has one row per boundary row in order; metrics are present exactly when a raw row has that key; present metrics are the derived columns of the summed raw rows |
| `Pipeline.PreparingData` | app.py:58-101 | the province, city and district tables each satisfy that, against the upper-cased boundary tables |
| `Pipeline.TotalsAreColumnSums` | app.py:47-48 | in a final table every TOTAL is the sum of the unit's N column plus the sum of its Y column over the area's raw rows; CUSTOMER_GROWTH is the growth between the summed customer counts |
| `Pipeline.LowerCaseRawNamesMatchNothing` | app.py:60-81 | a raw row whose province name has a lower-case letter matches no row of the final table |
| `Pipeline.SingleRowArea` | app.py:74-81 | an area with a single raw row, whatever rows other areas have, gets exactly that row's counts and the growth between its customer counts |
| `Pipeline.ProvinceGrowthExamples` | app.py:43 | 100 customers in 2019 and 150 in 2024 give a growth of 50.0; 0 and 20 give 0 |
| `Session.DrillDownState.constructor` | app.py:115-126 | first run: nothing selected, no reset pending |
| `Session.DrillDownState.Callback` | app.py:200-225 | a pending reset is consumed and nothing else changes. Otherwise: no click, no change. A new city selects that city and its province and clears the district. A new province selects it and clears city and district. Re-clicking the selected city or province changes nothing. A missing drawing or `WADMPR` raises with no change. "city ⇒ province" and "no district" are preserved |
| `Session.DrillDownState.ResetToProvinceView` | app.py:228-234 | all three selections cleared and the reset flag set |
| `Session.DrillDownState.ResetToCityView` | app.py:236-239 | city and district cleared, province kept, reset flag set |
| `Display.WhereCount` | app.py:336-361 | a boolean mask keeps each accepted row as often as it occurs and drops every rejected row |
| `Display.WhereAppend` | app.py:336-361 | masking distributes over concatenation, so kept rows stay in table order |
| `Display.ChooseExtent` | app.py:279-318 | a selected city gives the city rows matching both city and province; otherwise a selected province gives the province rows of that name; otherwise the start view |
| `Display.ShownLayers` | app.py:336-361 | with a province selected, the city rows of that province are drawn; with a city selected too, the district rows matching both city and province; otherwise nothing |
| `Display.ExtentAmongShownCities` | app.py:279-361 | with province and city selected, the extent rows are among the drawn city rows, and they and every drawn district lie in the selected city and province |
| `Tooltip.Insert` | app.py:152-158 | `list.insert`: the element lands at the index (or at the end), everything before stays and everything after shifts by one |
| `Tooltip.CreateTooltip` | app.py:137-158 | the exact field lists for province, city and district layers, and the i-th alias always names the i-th field |

## Left out

- Page configuration, CSS injection and `load_css` (app.py:14-39) are user-interface output and file I/O.
- Reading the boundary and Excel files and `set_crs` (app.py:59-71) are I/O. The loaded tables are inputs to `Pipeline.PreparingData`.
- A missing name or count column is a fatal error in the source. In the model the rows are typed records, so a column cannot be missing.
- `Aggregate.GroupSum` lists groups in first-occurrence order, whereas `groupby` sorts them by key. The final tables follow the boundary table's order either way.
- `groupby` drops rows whose key is NaN. Names are always strings in the model.
- Count columns are integers with no NaN. `fillna(0)` is modelled only on the growth columns, the only ones that can be NaN.
- `Tables.Upper`: Python's `str.upper` follows Unicode casing. The model upper-cases ASCII letters only.
- Finite growth values are exact reals, not 64-bit floats, so rounding is not modelled.
- `@st.cache_data`, Streamlit's re-run on interaction, the buttons and their `disabled` flags, and the `st_folium` callback registration (app.py:57, 381-418) are framework plumbing.
- Folium maps, layers, tooltip objects, the colormap quantiles, `style_function`, `style_function2` and `highlight_function` (app.py:129-197, 320-379) are rendering in libraries not modelled. `Tooltip.CreateTooltip` returns the two lists instead of a tooltip object.
- The bounds, centre and zoom arithmetic, including `FitBounds.calculate_zoom` (app.py:106-111, 242-275, 284-311), is floating-point geometry. `Display.ChooseExtent` returns the rows whose bounds are used, not the numbers.
- The session fields `center` and `zoom` (app.py:121-124, 232-233) are not modelled. They are set but never read by `display_map`.
- `Session.DrillDownState.Callback` models only the two exceptions its own code can raise. A missing `province_map` widget state is not modelled.
