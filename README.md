# CO2 chart pipeline — a Dafny model

This project models the chart-shaping core of a CO2-emissions dashboard and
proves properties of it. The core has two parts.

- **The chart endpoint** (`app/routers/co2.py`, `generate_chart` and
  `predict_single_country`). A gate reads the request; it rejects an empty
  selection and a forecast asked for several countries. A request then takes
  one of two paths.
  - **Comparison mode** fetches the emissions of the requested countries and
    keeps those inside `[year_start, year_end]`. It optionally divides each
    value by the country's surface area. It builds the sorted, deduplicated
    year axis and emits one series per requested country that has data, with
    None for the years that country has no record for.
  - **Forecast mode** runs for exactly one country when `year_end` is 2023. It
    takes the country's non-null observations in year order and trains the
    forecasting model on those from 1990 on. It then merges observed and
    predicted values over the sorted union of their years, and an observation
    always wins over a prediction.
- **The dashboard component** (`frontend/src/components/CO2Dashboard.js`). It
  holds one to five country selectors, an AI toggle that pins or resets the
  range end, and the request it sends for the non-empty selectors. In normal
  mode it also filters the returned axis on the client and re-indexes every
  series to the filtered axis.

Modules, one per component:

- `ChartTypes` (`types.dfy`): records, cells, series, payload, request, errors,
  and generic `Filter` / `Map` / `IndexOf` / `IsSubsequence`.
- `YearAxis` (`year_axis.dfy`): `sorted(set(years))`.
- `Comparison` (`comparison.dfy`): comparison mode.
- `Forecast` (`forecast.dfy`): forecast mode.
- `ChartRouter` (`router.dfy`): the request gate.
- `DashboardState` (`dashboard.dfy`): the dashboard state, as class `Dashboard`.

How the model is built:

- **The database is an input.** The emission table joined with its countries
  and years is a `seq<Record>`, the *store*. The country table is a
  `map<int, string>` from id to name.
  - The comparison query is the filter `Comparison.Fetch`.
  - The forecast query is a filter on the id followed by a stable sort by
    year (`Forecast.History`).
- **The forecasting model is a parameter.** It is an opaque function
  `Forecast.Predictor` from the training points to the predicted points, or
  None when fitting fails.
- **Values are cells.** A `Cell` is `Null` (Python's None), `Num(real)`, or
  `NotFinite`. `NotFinite` stands for the NaN or infinity that pandas computes.
  - In comparison mode a null `co2` is NaN in the frame, so it is `NotFinite`.
  - With density on, a missing surface area (NaN) or a zero one (infinity or
    NaN) also gives `NotFinite`.
- **Each loop of the source is a method proved against a specification
  function**: `CollectRows`, `AlignValues`, `AssembleSeries`, `Unzip`,
  `Merge`. The specification functions are `Comparison.Outcome` and
  `Forecast.Outcome`, and the lemmas prove what they mean in terms of the
  store and the request.
- **Errors are variants** of `Error`, not status codes.

Four behaviours of the code worth knowing, all modelled as written:

- **Forecast gate.** The gate compares `year_end` with the literal 2023, not
  with the latest year in the store.
- **Density without an area.** The code raises no error for a missing area; it
  divides and gets NaN.
- **No records for the ids.** When the query returns nothing (for example an
  unknown id), the code never reaches the "Nessun dato disponibile" check. The
  frame has no `year` column, so pandas raises `KeyError('year')`. This is the
  distinct outcome `EmptyFetch`.
- **Status codes.** Every error is re-wrapped by the catch-all as the same
  internal-error response, so validation errors are not distinct 400
  responses.

## Model

| member | source | states |
|---|---|---|
| `ChartTypes.IndexOf` | app/routers/co2.py:185-190 | the index is the first position holding the element (`list.index`, `indexOf`) |
| `YearAxis.SortedUnique` | app/routers/co2.py:86-87 | the axis is strictly ascending and holds exactly the input's years, once each |
| `YearAxis.AscendingDeterminedByElements` | app/routers/co2.py:86 | two strictly ascending lists with the same elements are equal, so the axis is the only sorted deduplicated listing |
| `YearAxis.SortedUniqueIsTheAxis` | app/routers/co2.py:180 | any strictly ascending list of exactly the given years is `SortedUnique` of them, as `sorted(list(set(...)))` promises |
| `Comparison.CellOf` | app/routers/co2.py:74-76 | without density the value is `co2` unchanged; with density it is `co2 / surface_km2`; a null co2, a missing area or a zero area gives NaN/inf, never None |
| `Comparison.CollectRows` | app/routers/co2.py:55-65 | the loop turns every fetched emission into one frame row, in order |
| `Comparison.AlignValues` | app/routers/co2.py:97-101 | one value per axis year: the country's dict entry for that year, or None when it has none |
| `Comparison.AssembleSeries` | app/routers/co2.py:90-108 | the loop over `country_ids` appends, for each id with rows, its first row's name and its series aligned to the axis |
| `Comparison.BuildComparison` | app/routers/co2.py:48-110 | comparison mode end to end: fetch, year filter, empty checks, density, axis, series, as the specification `Outcome` |
| `Comparison.FrameMember` | app/routers/co2.py:50-76 | a row is in the final frame iff it comes from a store record of a requested country inside `[year_start, year_end]` (divided by area with density) |
| `Comparison.InRangeMember` | app/routers/co2.py:50-68 | before density, a row survives the fetch and the year filter iff it comes from a store record of a requested country inside `[year_start, year_end]` |
| `Comparison.FrameHasNoNull` | app/routers/co2.py:61-76 | no frame row holds None, so in the model a None in a series means a missing year (the all-null `co2` column without density, where pandas keeps None, is under Left out) |
| `Comparison.ToDictKeys` | app/routers/co2.py:98 | the dict has a key exactly for the years that appear among the rows |
| `Comparison.ToDictValue` | app/routers/co2.py:98 | the dict's value for a year is the value of some row of that year |
| `Comparison.ToDictKeepsLast` | app/routers/co2.py:98 | for a year, `dict(zip(...))` keeps the value of the last row of that year |
| `Comparison.AssembleIsCharted` | app/routers/co2.py:90-108 | the names and series line up one to one with the ids that have rows, in request order; each name is the series' name and its first row's country name |
| `Comparison.OutcomeErrors` | app/routers/co2.py:65-72 | `EmptyFetch` iff no store record has a requested id; `NoDataInRange` iff some do but none lies in the range; no other error |
| `Comparison.AxisMeaning` | app/routers/co2.py:67-87 | the axis is strictly ascending, lies within `[year_start, year_end]`, and holds exactly the years of the in-range records of the requested countries |
| `Comparison.RowsOfMember` | app/routers/co2.py:91 | a requested country's frame rows are exactly its in-range records |
| `Comparison.SeriesFollowRequest` | app/routers/co2.py:90-108 | `countries` and `series` have equal length; they follow `country_ids` in order, omit ids without in-range records, and keep every series as long as `years` |
| `Comparison.ChartedIsAssembled` | app/routers/co2.py:91-92 | filtering the ids on "has rows in the frame" is filtering them on "has an in-range record in the store" |
| `Comparison.ChartedOnPrefix` | app/routers/co2.py:90-92 | the same equality for every prefix of `country_ids` |
| `Comparison.HasRowsIff` | app/routers/co2.py:91-92 | a requested id has frame rows iff the store has an in-range record for it |
| `Comparison.CountryCell` | app/routers/co2.py:96-101 | for a requested country and an in-range year, the looked-up value is None iff the country has no record for the year; otherwise it is the value of one of those records, and of every one when there is one per country and year |
| `Comparison.CellMeaning` | app/routers/co2.py:93-108 | position k of a series is None iff the country has no record for `years[k]`; otherwise it is the value of one of those records (per area with density), and under one emission per country and year it is that record's; the series' name is one of its records' names |
| `Forecast.ByYear` | app/routers/co2.py:120-122 | the country's emissions ordered by year: year-ordered and a permutation of its records |
| `Forecast.ObservationsMember` | app/routers/co2.py:124 | a point is observed iff some record has that year and that non-null co2 |
| `Forecast.ObservationsOrdered` | app/routers/co2.py:122-124 | dropping null co2 keeps the year order |
| `Forecast.HistoryMeaning` | app/routers/co2.py:120-124 | the history is year-ordered and holds exactly the country's non-null (year, co2) pairs |
| `Forecast.OutcomeErrors` | app/routers/co2.py:124-137 | an error naming the country iff it has no non-null co2; a fit failure iff the history is non-empty and the model fails; no other error |
| `Forecast.TrainingMeaning` | app/routers/co2.py:130-131 | the training data is the history from 1990 on, in history order, and every training year is at least 1990 |
| `Forecast.Unzip` | app/routers/co2.py:154-177 | the year and value lists are the points' years and values, position by position |
| `Forecast.Merge` | app/routers/co2.py:182-192 | one value per axis year: the first observed value of that year, else the first predicted one, else None |
| `Forecast.PickObserved` | app/routers/co2.py:185-187 | a year first observed at position j shows that observation's value |
| `Forecast.PickPredicted` | app/routers/co2.py:188-190 | a year never observed and first predicted at position j shows that prediction's value |
| `Forecast.MergedMeaning` | app/routers/co2.py:179-205 | for any history and forecast: the axis is strictly ascending and is the union of their years; one series, qualified name, as long as the axis, no None; observation first, then prediction |
| `Forecast.PredictSingleCountry` | app/routers/co2.py:115-207 | forecast mode end to end, as the specification `Outcome` |
| `Forecast.MergeMeaning` | app/routers/co2.py:179-205 | the axis is the sorted union of observed and predicted years; the single series is named `"<name> (osservato + previsto)"` and is as long as the axis; no position is None; an observed year shows its first observation even when also predicted; a year with no observation shows its first prediction |
| `ChartRouter.GenerateChart` | app/routers/co2.py:33-46 | no countries gives `NoCountries` ("Seleziona almeno un paese") and an AI request for several countries gives `MultiCountryForecast`, both whatever the store holds; forecast mode iff `ai`, one id and `year_end == 2023`; every other request is answered in comparison mode |
| `ChartRouter.ResponseAligned` | app/routers/co2.py:79-110 | every returned chart has a strictly ascending axis, one name per series, and each series as long as the axis (both modes) |
| `DashboardState.SelectedIdsMeaning` | frontend/src/components/CO2Dashboard.js:57 | the sent ids are the non-empty selections in selector order, repeats kept (`Some` of each id, in turn, is exactly the filtered selector list); an id is sent iff some selector holds it; never more ids than selectors; none iff every selector is empty |
| `DashboardState.MaxYear` | frontend/src/components/CO2Dashboard.js:114-116 | `Math.max` of the year list: one of the years and no smaller than any |
| `DashboardState.MinYear` | frontend/src/components/CO2Dashboard.js:30-31 | `Math.min` of the year list: one of the years and no larger than any |
| `DashboardState.ViewMeaning` | frontend/src/components/CO2Dashboard.js:126-158 | in normal mode the axis keeps exactly the in-range years in their original order; each series keeps its name, gets one value per shown year, and on an ascending aligned chart shows the value it had for that year; AI mode shows everything unfiltered |
| `DashboardState.Dashboard.constructor` | frontend/src/components/CO2Dashboard.js:7-16 | one empty selector, range 1923–2023, AI and density off, no chart |
| `DashboardState.Dashboard.LoadYears` | frontend/src/components/CO2Dashboard.js:27-32 | the year directory is stored and the range set to its smallest and largest year |
| `DashboardState.Dashboard.AddCountry` | frontend/src/components/CO2Dashboard.js:85-89 | appends one empty selector iff fewer than 5 and AI mode off, else no change; never more than 5 |
| `DashboardState.Dashboard.RemoveCountry` | frontend/src/components/CO2Dashboard.js:91-97 | drops the last selector iff more than one, else no change; never fewer than 1 |
| `DashboardState.Dashboard.UpdateCountry` | frontend/src/components/CO2Dashboard.js:99-103 | only selector `index` changes; the others and the count stay |
| `DashboardState.Dashboard.ToggleAiPrediction` | frontend/src/components/CO2Dashboard.js:105-119 | flips AI mode; turning it on sets the range end to 2023, turning it off resets it to the directory's largest year (unchanged if no directory yet) |
| `DashboardState.Dashboard.RequestChart` | frontend/src/components/CO2Dashboard.js:55-74 | with no non-empty selector the chart is cleared and no request is made; otherwise the request carries `SelectedIds` of the selectors (the non-empty selections in order, by `SelectedIdsMeaning`) and the current settings, so it is never rejected for an empty selection |
| `DashboardState.Dashboard.ReceiveChart` | frontend/src/components/CO2Dashboard.js:76-79 | a reply becomes the chart, an error clears it |
| `DashboardState.Dashboard.ChartOptions` | frontend/src/components/CO2Dashboard.js:121-122 | nothing is drawn exactly when there is no chart; otherwise the view of the chart |

## Left out

- Database and ORM access. The sessions, engine and joins are not modelled; the queries are replaced by a store sequence and a name map. So is the `order_by` tie order, since SQL leaves it unspecified and the model keeps store order.
- The forecasting model's internals are hidden behind `Forecast.Predictor`: Prophet's fit and predict, the 36-period horizon and the year-to-date conversions. Floating-point behaviour is also not modelled.
- The global-average query (app/routers/co2.py:139-147) is not modelled. Its result is never used; a failure of that query is not modelled either.
- Floating point. Values are exact reals. The different NaN and infinity values are merged into the single `NotFinite` cell. When such a cell is written as JSON, the web layer fails after the core returns; that failure is not modelled.
- pandas dtype corner case. If every fetched `co2` is null, the column stays an object column of None. Without density the series then shows None for years that have a record, where the model shows `NotFinite`. With density, pandas' masked arithmetic gives NaN, as the model does. An area column made only of nulls likewise divides to NaN, as modelled.
- HTTP status mapping and the catch-all re-wrapping of every error as an internal error with a prefixed detail are not modelled. `Detail` gives only the messages the code raises itself.
- The constant rendering hints `"type": "line"` and `"smooth": True` of every series are not modelled.
- Transport and bootstrap (app/main.py), the pass-through country and year list endpoints, and the scripts are not part of this model.
- Frontend rendering, styling, the loading and error cells, async fetching and React's batching of state updates are not modelled.
- Also left out on the frontend: the default selection of the United States, the country directory, and the plain setters for the year sliders and the density checkbox.
- DashboardState.Dashboard.LoadYears: requires a non-empty year list, because for an empty one `Math.min()` gives `Infinity`, which an integer range cannot hold.
- DashboardState.Dashboard.UpdateCountry: requires an existing index, because the selectors only ever pass their own index; JavaScript would grow the array for a larger index.
- Selector values are modelled as `Option<int>`: `''` becomes None and an id's decimal string becomes Some(id), so `parseInt` is not modelled. The year cells are JavaScript strings compared with numbers by coercion; they are modelled as integers.
- `DashboardState.Reindexed`: a series position outside its data reads `undefined` in JavaScript; the model shows it as `Null`. Idempotence of a repeated request holds by construction, since every member is a function of its inputs.
