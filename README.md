# govspending in Dafny

A model of the data handling behind two browser views of Australian government spending.
Both views read a table with one row per state and category. Each row has a total budget.

- **The map view** (`map_version/`) colours a map of the states by their total for the chosen
  category. It shows a state's total in a tooltip. The map is given the render-mode data
  (map_version/chart_gen.js:26): in per-capita mode, which is the initial mode, every per-state
  total, tooltip amount, category total and 'Average' row is a sum of per-capita budgets. Selecting a state draws a detail chart of the state's ten
  largest categories, each paired with the average across the nine jurisdictions. A row of
  small charts shows one category each, absolute or per capita.
- **The basic view** (`basic_version/`) draws one bar chart of every row. It can be drilled
  down to one category and switched between absolute and per-capita budgets.

Modules:

- `Wrappers`: an `Option` type. `None` stands for `undefined`/`null`, and for a NaN budget.
- `Seqs`: `indexOf` and first-occurrence de-duplication (`Dedup`). `IndexOf` stands for both
  `Array.prototype.indexOf` (the category list, the top-ten test) and `String.prototype.indexOf`
  on a bar key's characters (basic_version/chart_gen.js:70, map_version/chart_gen.js:153).
- `Text`: `String.prototype.trim` and `substring`.
- `Dicts`: a JavaScript object used as a dictionary, kept as a sequence of entries in
  insertion order with distinct keys. `Get` is `d[k]`; `Put` is `d[k] = v`.
- `AustraliaMap` (`map_version/australia_map.js`):
  - `STATE_MAPPING`;
  - the per-state totals of `getDataForChosenCategory` and the tooltip amount;
  - the five computations of `addDetailChartForState`: category totals, averages over nine
    jurisdictions, the state's records per category, the top-ten ranking, and the pairing
    with averages.
  - Its input is a `Record` whose budget is a number. It stands for whichever rows the map is
    given, absolute or per capita; the model does not link it to the chart modules' `Row`.
  - The three `reduce`s that sum budgets into an object (map_version/australia_map.js:110-113,
    118-126 and 163-168) are loops proved against one specification of keyed sums: the key
    set is `Dedup` of the contributing keys, and each value is the sum of that key's budgets.
  - The averages `reduce` (map_version/australia_map.js:114-117) is a loop proved against its
    own per-entry contract: the same keys in the same order, each total divided by 9.
- `ChartState`: what both `chart_gen.js` files share word for word:
  - the population table, `getPerCapitaData` and `getDataGivenRenderMode`;
  - the bar-key prefix;
  - `drillDownData`. This is a class `Chart` whose fields are the module's `renderMode` and
    `currentDrillDownKey` and the chart's `data`. Its method is proved against the pure
    transition `DrillDownView`.
- `MapChartGen` (`map_version/chart_gen.js`):
  - the category list of `draw`;
  - the trimmed bar-key parse;
  - the per-capita checkbox;
  - the rows `generateSmallMultiple` gives its chart.
- `BasicChartGen` (`basic_version/chart_gen.js`):
  - the untrimmed bar-key parse;
  - the per-capita click, which reloads the chart's data but keeps the drill-down key.

Assumptions about code that is not visible here:

- `dimple.filterData(rows, field, value)` keeps, in order, exactly the rows whose field equals
  the value.
- `Array.prototype.sort` is stable, as the ECMAScript standard requires since its 2019 edition.

## Model

| member | source | states |
|---|---|---|
| ChartState.PopulationsArePositive | map_version/chart_gen.js:1-11 | nine jurisdictions, each with a positive population (the same table is at basic_version/chart_gen.js:1-11) |
| ChartState.PerCapitaBudget | map_version/chart_gen.js:133-135 | the per-capita budget is a number exactly when the budget is one and the state has a population; multiplied by the population it gives back the budget |
| ChartState.PerCapitaData | map_version/chart_gen.js:131-140 | same length; every row keeps its state and category and gets the per-capita budget; the input is a value and stays as it was (identical at basic_version/chart_gen.js:48-57) |
| ChartState.DataGivenRenderMode | map_version/chart_gen.js:127-129 | one row per row, in order, with the same state and category; the budget is the per-capita budget in per-capita mode and unchanged otherwise (identical at basic_version/chart_gen.js:44-46) |
| ChartState.RenderModeKeepsRows | map_version/chart_gen.js:127-129 | absolute mode gives the data itself; either mode keeps the length and each row's state and category (identical at basic_version/chart_gen.js:44-46) |
| ChartState.FilterCategory | map_version/chart_gen.js:174 | the filtered rows are exactly the rows of that category; the length shrinks unless every row has the category, and then nothing is removed |
| ChartState.FilterCategoryCounts | map_version/chart_gen.js:174 | each row of the category is kept as many times as it occurs in the input; no other row is kept |
| ChartState.FilterCategoryAppend | map_version/chart_gen.js:174 | the filter keeps order: filtering a concatenation gives the two filtered parts, concatenated |
| ChartState.BarKeyPrefix | basic_version/chart_gen.js:70 | a key without `_` gives the empty string; otherwise the result followed by `_` is a prefix of the key and holds no `_` |
| ChartState.DrillDownView | map_version/chart_gen.js:165-176 | the mode is kept; a falsy choice clears the key; with no key the chart shows the full render-mode data, and with a key it is the non-empty choice and the chart holds exactly the render-mode rows of that category |
| ChartState.DrillDownFalsyShowsAll | map_version/chart_gen.js:167-172 | a choice of null or the empty string shows the full render-mode data and clears the key |
| ChartState.DrillDownRepeatResets | map_version/chart_gen.js:166-172 | choosing the remembered key while the chart is filtered shows the full data and clears the key |
| ChartState.DrillDownFilters | map_version/chart_gen.js:173-175 | any other non-empty choice becomes the key, the mode is kept, and the chart holds exactly the render-mode rows of that category |
| ChartState.DrillDownTwiceRestores | basic_version/chart_gen.js:82-92 | choosing the same category twice returns to the full data with no key, provided some row has another category |
| ChartState.DrillDownSingleCategoryStays | basic_version/chart_gen.js:84-85 | when every row has the chosen category, filtering keeps the length, so a second choice does not reset and the key stays |
| ChartState.Chart.constructor | map_version/chart_gen.js:13-14 | the mode starts as per capita with no key (as at basic_version/chart_gen.js:13-14), and the chart shows the per-capita data |
| ChartState.Chart.DrillDown | map_version/chart_gen.js:165-176 | the new mode, key and chart data are `DrillDownView` of the old ones (identical at basic_version/chart_gen.js:82-93) |
| AustraliaMap.StateAbbreviation | map_version/australia_map.js:62 | a name has an abbreviation exactly when the mapping has it, and then it is the one stored for that name |
| AustraliaMap.StateMappingIsOneToOne | map_version/australia_map.js:1-10 | eight names with eight distinct abbreviations |
| AustraliaMap.StateMappingHasPopulations | map_version/australia_map.js:1-10 | every abbreviation has a population; `Federal` has one but no region on the map |
| AustraliaMap.GroupStepKeep | map_version/australia_map.js:165 | one step of a reduce: adding a record's budget to its key's entry (0 when absent) gives the totals of the longer prefix |
| AustraliaMap.DataForChosenCategory | map_version/australia_map.js:162-169 | the result holds, for each state, the sum over the records of the chosen category (every record for 'All'); its keys are exactly the states of such records |
| AustraliaMap.ChosenCategoryTotals | map_version/australia_map.js:164-165 | looking a state up gives its total; a state with no record of the chosen category (and a choice other than 'All') is absent and totals 0 |
| AustraliaMap.GroupTotalsKeys | map_version/australia_map.js:163-166 | the keys of a totals object are the keys of the contributing records and nothing else |
| AustraliaMap.TooltipTotal | map_version/australia_map.js:62-63 | 0 for a name without abbreviation and for an abbreviation the totals lack; otherwise an amount the totals store under the abbreviation |
| AustraliaMap.TooltipShowsStateTotal | map_version/australia_map.js:62-63 | the tooltip shows the state's total; 0 for a state missing from the totals and for a name the mapping lacks |
| AustraliaMap.PartitionByCategory | map_version/australia_map.js:162-169 | for every state, the 'All' total is the sum of the single-category totals over the distinct categories, when no category is itself named 'All' |
| AustraliaMap.SumOverCategoriesIsStateTotalIn | map_version/australia_map.js:164-165 | summing single-category totals over distinct categories equals summing the state's records whose category is among them |
| AustraliaMap.ContributionsAppend | map_version/australia_map.js:163-168 | a reduce over a concatenation adds the pairs of the first part, then those of the second |
| AustraliaMap.TrimmedChoiceMissesPaddedCategory | map_version/australia_map.js:164 | the drop-down offers trimmed names but the comparison is exact: for any data, a record whose category trimming changes adds nothing to the totals of its trimmed name, unless that name is 'All' |
| AustraliaMap.TotalsByCategory | map_version/australia_map.js:110-113 | each category's entry is the sum of every record of that category; its keys are exactly the categories present |
| AustraliaMap.AveragesAcrossJurisdictions | map_version/australia_map.js:114-117 | the same keys in the same order, each holding its total divided by 9 |
| AustraliaMap.AverageOfCategory | map_version/australia_map.js:109-117 | the average of a category present in the data is its total over all records divided by 9 |
| AustraliaMap.FilterState | map_version/australia_map.js:118 | the rows kept are exactly the state's rows |
| AustraliaMap.FilterStateCounts | map_version/australia_map.js:118 | each record of the state is kept as many times as it occurs in the input; no other record is kept |
| AustraliaMap.FilterStateAppend | map_version/australia_map.js:118 | the filter keeps order: filtering a concatenation gives the two filtered parts, concatenated; this fixes the key order of the state's category object |
| AustraliaMap.Budget | map_version/australia_map.js:119 | 0 for a category the object lacks; otherwise the total of a record the object stores under that category |
| AustraliaMap.BudgetsPut | map_version/australia_map.js:119-124 | storing a record under a category stores its budget under that category in the object's totals |
| AustraliaMap.CategoryRecordsStep | map_version/australia_map.js:119-124 | one step of the third reduce keeps the totals right and each entry of its own category and of the state |
| AustraliaMap.CategoryRecordsForState | map_version/australia_map.js:118-126 | the object's totals are the per-category totals of the state's rows, and each entry is a record of its key's category and of the state |
| AustraliaMap.CategoryRecordsMeaning | map_version/australia_map.js:118-126 | exactly one entry per category among the state's records, each carrying that category, the state and the summed budget |
| AustraliaMap.Insert | map_version/australia_map.js:127-128 | one more entry, and exactly the entries given plus the new one |
| AustraliaMap.InsertNonIncreasing | map_version/australia_map.js:127-128 | inserting into a non-increasing order keeps it non-increasing |
| AustraliaMap.RankByBudget | map_version/australia_map.js:127-128 | the sorted keys: the same entries, as many, with distinct keys, in non-increasing order of total |
| AustraliaMap.InsertBeforeNoLarger | map_version/australia_map.js:127-128 | an inserted entry lands ahead of every entry whose total is no larger |
| AustraliaMap.InsertKeepsOrder | map_version/australia_map.js:127-128 | insertion keeps the relative order of the entries already ranked |
| AustraliaMap.RankByBudgetStable | map_version/australia_map.js:127-128 | the sort is stable: of two entries with equal totals, the one earlier in the object's key order is ranked first |
| AustraliaMap.Top10Categories | map_version/australia_map.js:127-129 | min(10, number of keys) distinct keys of the object, non-increasing by total; no key left out has a larger total than any key taken |
| AustraliaMap.Top10TakesEarlierTie | map_version/australia_map.js:127-129 | ties at the cut go by key order: of two categories with equal totals, the earlier one is in the top ten whenever the later one is |
| AustraliaMap.TopFacts | map_version/australia_map.js:129 | the first n ranked keys are distinct keys of the object, in order of total, and no key left out has a larger total |
| AustraliaMap.Selected | map_version/australia_map.js:133 | the entries taken are exactly those whose key is in the top ten |
| AustraliaMap.AverageCopy | map_version/australia_map.js:136-139 | the copy has State 'Average', the same category, and that category's average as budget |
| AustraliaMap.Paired | map_version/australia_map.js:131-142 | the array the pairing builds in the object's key order: two rows per entry whose key is in the top ten |
| AustraliaMap.PairedShape | map_version/australia_map.js:131-142 | two rows per selected entry: its record, then immediately its average copy |
| AustraliaMap.PairWithAverages | map_version/australia_map.js:131-142 | the rows are the pairing, in the key order of the object: each top-ten record is followed by its average copy, and no other key adds anything |
| AustraliaMap.SelectedOrder | map_version/australia_map.js:131-133 | the selected entries follow the object's key order, not the rank order |
| AustraliaMap.SelectedCount | map_version/australia_map.js:131-133 | exactly as many entries are selected as there are top-ten keys |
| AustraliaMap.AverageOfCategoryRecord | map_version/australia_map.js:136-138 | a category record of the state has an average, equal to its category's total over all records divided by 9 |
| AustraliaMap.DetailChartData | map_version/australia_map.js:109-142 | the chart gets the pairing: two rows for each top-ten category (at most ten), no category twice, in the key order of the state's category object (not rank order); the state's record with its summed budget, then 'Average' with the category's total divided by 9 |
| MapChartGen.TrimmedCategories | map_version/chart_gen.js:18 | one entry per row, in order: that row's trimmed category |
| MapChartGen.UniqueCategories | map_version/chart_gen.js:17-23 | the list holds every row's trimmed category, has no duplicates and nothing that is not a trimmed category, and follows the order of first occurrence |
| MapChartGen.CategoryListFacts | map_version/chart_gen.js:17-23 | the same four properties, stated on the de-duplication of the trimmed categories |
| MapChartGen.BarKeyCategory | map_version/chart_gen.js:153 | a key without `_` gives the empty string; otherwise the trimmed text before the first `_` |
| MapChartGen.BarWithoutSeparatorShowsAll | map_version/chart_gen.js:153 | clicking a bar whose key has no `_` shows every category and clears the key |
| MapChartGen.BarKeyIgnoresPadding | map_version/chart_gen.js:153 | a space before the `_` is not part of the category drilled into |
| MapChartGen.PerCapitaClick | map_version/chart_gen.js:77-78 | the mode becomes per capita exactly when the box is checked; nothing else changes before the redraw |
| MapChartGen.SmallMultipleDataAsWritten | map_version/chart_gen.js:59-63 | for 'All' the render-mode data whatever `shouldModifyData` is; otherwise the rows of `dataForChart` with the chosen category |
| MapChartGen.AllOnChangeDividesTwice | map_version/australia_map.js:37 | from the drop-down, in per-capita mode and with 'All', a row whose budget equals its state's population is shown as 1/7618200 instead of 1 |
| MapChartGen.SmallMultipleData | map_version/chart_gen.js:59-63 | the corrected choice: `dataForChart` for 'All', its rows of the chosen category otherwise |
| MapChartGen.SmallMultipleCallersAgree | map_version/chart_gen.js:29 | `draw` and the drop-down hand the chart the same rows: the render-mode rows of the category, or all of them for 'All' |
| MapChartGen.SmallMultipleFromDrawUnchanged | map_version/chart_gen.js:27-30 | from `draw` the corrected choice is the one written |
| BasicChartGen.BarKeyKeepsPadding | basic_version/chart_gen.js:70 | a space before the `_` stays part of the category drilled into |
| BasicChartGen.PerCapitaView | basic_version/chart_gen.js:37-38 | the mode follows the box, the chart shows the full data of that mode, and the key is kept |
| BasicChartGen.PerCapitaClick | basic_version/chart_gen.js:36-40 | the new state is `PerCapitaView` of the old one |
| BasicChartGen.SameKeyAfterSwitchFiltersAgain | basic_version/chart_gen.js:84-92 | right after a switch, choosing the remembered category filters again instead of resetting |
| BasicChartGen.SwitchChangesRepeatOutcome | basic_version/chart_gen.js:84-92 | a switch changes what choosing the remembered category does: reset before it, filter after it |
| Seqs.IndexOf | map_version/chart_gen.js:19 | -1 exactly when absent; otherwise an index holding the element with no earlier occurrence |
| Seqs.DedupFacts | map_version/chart_gen.js:17-23 | no duplicates, every element kept, nothing added |
| Seqs.DedupFirstOccurrenceOrder | map_version/chart_gen.js:17-23 | the kept elements come in the order of their first occurrence |
| Text.TrimIsInfix | map_version/chart_gen.js:18 | `trim` gives an infix of the string with only whitespace cut off both ends |
| Text.TrimIdempotent | map_version/chart_gen.js:18 | trimming twice is trimming once |
| Text.Substring | map_version/chart_gen.js:153 | in-range bounds give the slice; an end of -1 gives the prefix up to the clamped start |
| Dicts.GetNone | map_version/australia_map.js:63 | a lookup finds nothing exactly when the object lacks the key; the source reads that as 0 |
| Dicts.PutFacts | map_version/australia_map.js:165 | assignment keeps keys distinct, appends a new key at the end, and changes no other entry |
| Dicts.PutGet | map_version/australia_map.js:165 | after assignment the key holds the new value |

## Left out

- Rendering through d3, dimple and jQuery is not modelled: the SVGs, axes, legends, margins,
  the map projection and the colour scale, the `chosen` drop-down and the tooltip HTML. These
  are calls into libraries that are not part of this model.
- `toFixed(2)` in the tooltip is not modelled: the model keeps the exact amount.
- Loading `govspendingdata.tsv` and `au-states.geojson` is not modelled; both are I/O.
- The bar animations (`doFunStuffWithChartBar`, `bounceBar`, `spinBarAround`) are not
  modelled. They depend on `Math.random` and transitions.
- Arithmetic is exact: budgets are `real`, and floating-point rounding is not modelled.
- `parseFloat` and string coercion are not modelled.
  - In `AustraliaMap`, budgets are already numbers.
  - In the chart modules, a NaN budget is `None`.
  - The `|| 0` defaults are read as "absent gives 0".
- JavaScript objects are modelled as dictionaries with insertion-ordered keys. This, with the
  `|| 0` reading above, is exact when no sum is NaN and no state or category name is an
  array index or an `Object.prototype` property name (`constructor`, `toString`,
  `__proto__`, …). For such names the source differs:
  - `Object.keys` lists array-index keys first, in numeric order.
  - A lookup of an inherited name finds the inherited value, not `undefined`, so the sum is
    not a number.
  - Assigning to `__proto__` never adds a key: an object replaces the prototype, and a number
    is ignored.
- The redraw cycle is not modelled: `draw`, emptying the containers, `myChart.draw`, and
  re-wiring the click handlers after each drill-down.
  - The handlers are modelled as state transitions only.
  - `MapChartGen.PerCapitaClick` therefore changes only the mode.
- In the map view, `addDrillDown` is only ever called from `drillDownData` itself, so no
  drill-down handler is ever wired there. The shared drill-down model covers the function
  all the same.
- The 'All' entry of the category drop-down comes from the page's HTML, which is not part of
  this model.

## Findings

| source | as written | input that shows it | evidently intended | confidence | as-written member | corrected member |
|---|---|---|---|---|---|---|
| map_version/chart_gen.js:60 | for 'All', the small multiple is built from `getDataGivenRenderMode(data)` even when `shouldModifyData` is false. The drop-down's change handler (map_version/australia_map.js:37) passes data that is already per capita, so it is divided by the population a second time | per-capita mode, 'All' chosen in the drop-down, one row `NSW`, `Health`, budget 7618200: the chart shows 1/7618200 instead of 1 | use `dataForChart` for 'All' as for every other category, so both callers show the render-mode rows | medium; not executed | MapChartGen.SmallMultipleDataAsWritten, MapChartGen.AllOnChangeDividesTwice | MapChartGen.SmallMultipleData, MapChartGen.SmallMultipleCallersAgree |
