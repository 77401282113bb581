/**
 * What both chart views (`basic_version/chart_gen.js` and `map_version/chart_gen.js`) share,
 * word for word: the population table, the per-capita conversion, the choice of data by render
 * mode, the bar-key parse, and the drill-down handler over the module's render mode, its
 * remembered drill-down key and the chart's data.
 */
module ChartState {
  import opened Wrappers
  import opened Seqs
  import opened Text

  /** A row of the loaded table as the charts see it; `None` is a budget that is not a number (NaN). */
  datatype Row = Row(state: string, category: string, budget: Option<real>)

  /** The two values the module's `renderMode` takes. */
  datatype RenderMode = PerCapita | Absolute

  /** `populationOfStates`: the eight states and territories and the federal entry. */
  const POPULATION_OF_STATES: map<string, real> := map[
    "NSW" := 7618200.0,
    "VIC" := 5938100.0,
    "QLD" := 4779400.0,
    "WA" := 2591600.0,
    "SA" := 1698600.0,
    "TAS" := 516600.0,
    "ACT" := 390800.0,
    "NT" := 244600.0,
    "Federal" := 23781200.0
  ]

  /** Nine jurisdictions, each with a positive population. */
  lemma PopulationsArePositive()
    ensures |POPULATION_OF_STATES| == 9
    ensures forall s :: s in POPULATION_OF_STATES ==> POPULATION_OF_STATES[s] > 0.0
  {
  }

  /**
   * The per-capita budget of a row: its budget divided by its state's population. It is
   * `None` (JavaScript's NaN) when the budget is not a number or the state has no population.
   */
  function PerCapitaBudget(r: Row): (b: Option<real>)
    ensures b.Some? <==> r.budget.Some? && r.state in POPULATION_OF_STATES
    ensures b.Some? ==> b.value * POPULATION_OF_STATES[r.state] == r.budget.value
  {
    if r.budget.Some? && r.state in POPULATION_OF_STATES then
      PopulationsArePositive();
      Some(r.budget.value / POPULATION_OF_STATES[r.state])
    else
      None
  }

  /**
   * `getPerCapitaData`: a new row for every row, in order, equal to it except for the budget,
   * which becomes the per-capita budget. The input is a value and is left as it was.
   */
  function PerCapitaData(data: seq<Row>): (r: seq<Row>)
    ensures |r| == |data|
    ensures forall i :: 0 <= i < |data| ==>
      r[i].state == data[i].state && r[i].category == data[i].category && r[i].budget == PerCapitaBudget(data[i])
  {
    if data == [] then []
    else [data[0].(budget := PerCapitaBudget(data[0]))] + PerCapitaData(data[1..])
  }

  /** `getDataGivenRenderMode`. */
  function DataGivenRenderMode(mode: RenderMode, data: seq<Row>): (r: seq<Row>)
    ensures |r| == |data|
    ensures forall i :: 0 <= i < |data| ==>
      && r[i].state == data[i].state && r[i].category == data[i].category
      && r[i].budget == if mode == PerCapita then PerCapitaBudget(data[i]) else data[i].budget
  {
    if mode == PerCapita then PerCapitaData(data) else data
  }

  /**
   * The absolute view is the loaded data itself; either view has the same rows, with the same
   * states and categories in the same order, so only budgets differ between them.
   */
  lemma RenderModeKeepsRows(mode: RenderMode, data: seq<Row>)
    ensures mode == Absolute ==> DataGivenRenderMode(mode, data) == data
    ensures |DataGivenRenderMode(mode, data)| == |data|
    ensures forall i :: 0 <= i < |data| ==>
      DataGivenRenderMode(mode, data)[i].state == data[i].state &&
      DataGivenRenderMode(mode, data)[i].category == data[i].category
  {
  }

  /** The render mode the per-capita checkbox selects. */
  function ModeFromCheckbox(checked: bool): RenderMode {
    if checked then PerCapita else Absolute
  }

  /** `dimple.filterData(rows, 'Category', c)`, taken to be an order-preserving equality filter. */
  function FilterCategory(rows: seq<Row>, c: string): (r: seq<Row>)
    ensures forall x :: x in r <==> x in rows && x.category == c
    ensures |r| <= |rows|
    ensures |r| == |rows| <==> forall i :: 0 <= i < |rows| ==> rows[i].category == c
    ensures (forall i :: 0 <= i < |rows| ==> rows[i].category == c) ==> r == rows
  {
    if rows == [] then []
    else
      var rest := FilterCategory(rows[1..], c);
      assert forall i :: 1 <= i < |rows| ==> rows[i] == rows[1..][i - 1];
      if rows[0].category == c then [rows[0]] + rest else rest
  }

  /** Each row of the category is kept as often as it occurs, and no other row is kept. */
  lemma {:induction false} FilterCategoryCounts(rows: seq<Row>, c: string)
    ensures forall x :: multiset(FilterCategory(rows, c))[x] == if x.category == c then multiset(rows)[x] else 0
  {
    if rows != [] {
      assert rows == [rows[0]] + rows[1..];
      FilterCategoryCounts(rows[1..], c);
    }
  }

  /**
   * The filter keeps order: filtering a concatenation filters each part. With the counts
   * above, which settle a single row, this determines the result completely.
   */
  lemma {:induction false} FilterCategoryAppend(a: seq<Row>, b: seq<Row>, c: string)
    ensures FilterCategory(a + b, c) == FilterCategory(a, c) + FilterCategory(b, c)
  {
    if a == [] {
      assert a + b == b;
    } else {
      assert (a + b)[0] == a[0] && (a + b)[1..] == a[1..] + b;
      FilterCategoryAppend(a[1..], b, c);
    }
  }

  /**
   * The text of a bar key before its first `_` (`key.substring(0, key.indexOf('_'))`); a key
   * without `_` gives the empty string, because `substring` clamps the -1 to 0.
   */
  function BarKeyPrefix(key: string): (c: string)
    ensures '_' !in key ==> c == ""
    ensures '_' in key ==> c + "_" <= key && '_' !in c
  {
    Substring(key, 0, IndexOf(key, '_'))
  }

  /** `!chosenCategory`: no category (null or undefined) or the empty string. */
  predicate IsFalsy(chosen: Option<string>) {
    chosen.None? || chosen.value == ""
  }

  /**
   * The state a drill-down reads and writes: the module's `renderMode` and
   * `currentDrillDownKey` (undefined and null both `None`) and the chart's `data`.
   */
  datatype View = View(renderMode: RenderMode, currentDrillDownKey: Option<string>, chartData: seq<Row>)

  /**
   * `drillDownData`: show every category when the choice is falsy, or when it repeats the
   * remembered key while the chart is filtered (its length differs from the full data);
   * otherwise remember the choice and show only its category.
   */
  function DrillDownView(v: View, chosen: Option<string>, data: seq<Row>): (w: View)
    ensures w.renderMode == v.renderMode
    ensures IsFalsy(chosen) ==> w.currentDrillDownKey.None?
    ensures w.currentDrillDownKey.None? ==> w.chartData == DataGivenRenderMode(v.renderMode, data)
    ensures w.currentDrillDownKey.Some? ==> w.currentDrillDownKey == chosen && chosen.value != ""
    ensures w.currentDrillDownKey.Some? ==> forall x :: x in w.chartData <==>
      x in DataGivenRenderMode(v.renderMode, data) && x.category == chosen.value
  {
    var full := DataGivenRenderMode(v.renderMode, data);
    if (|v.chartData| != |full| && v.currentDrillDownKey == chosen) || IsFalsy(chosen) then
      v.(chartData := full, currentDrillDownKey := None)
    else
      v.(currentDrillDownKey := chosen, chartData := FilterCategory(full, chosen.value))
  }

  /** A falsy choice shows the full data of the current mode and forgets the key. */
  lemma DrillDownFalsyShowsAll(v: View, chosen: Option<string>, data: seq<Row>)
    requires IsFalsy(chosen)
    ensures DrillDownView(v, chosen, data) == View(v.renderMode, None, DataGivenRenderMode(v.renderMode, data))
  {
  }

  /** Repeating the remembered key while the chart is filtered shows everything again. */
  lemma DrillDownRepeatResets(v: View, c: string, data: seq<Row>)
    requires c != "" && v.currentDrillDownKey == Some(c)
    requires |v.chartData| != |data|
    ensures DrillDownView(v, Some(c), data) == View(v.renderMode, None, DataGivenRenderMode(v.renderMode, data))
  {
    RenderModeKeepsRows(v.renderMode, data);
  }

  /**
   * Any other non-empty choice is remembered and leaves exactly the rows of the full data
   * whose category is the choice.
   */
  lemma DrillDownFilters(v: View, c: string, data: seq<Row>)
    requires c != ""
    requires !(v.currentDrillDownKey == Some(c) && |v.chartData| != |data|)
    ensures DrillDownView(v, Some(c), data).currentDrillDownKey == Some(c)
    ensures DrillDownView(v, Some(c), data).renderMode == v.renderMode
    ensures forall x :: x in DrillDownView(v, Some(c), data).chartData <==>
      x in DataGivenRenderMode(v.renderMode, data) && x.category == c
  {
    RenderModeKeepsRows(v.renderMode, data);
  }

  /**
   * The toggle: choosing the same non-empty category twice in a row comes back to the full
   * data with no key, whenever the category does not cover every row.
   */
  lemma DrillDownTwiceRestores(v: View, c: string, data: seq<Row>)
    requires c != ""
    requires !(v.currentDrillDownKey == Some(c) && |v.chartData| != |data|)
    requires exists i :: 0 <= i < |data| && data[i].category != c
    ensures DrillDownView(DrillDownView(v, Some(c), data), Some(c), data)
      == View(v.renderMode, None, DataGivenRenderMode(v.renderMode, data))
  {
    RenderModeKeepsRows(v.renderMode, data);
    var full := DataGivenRenderMode(v.renderMode, data);
    var i :| 0 <= i < |data| && data[i].category != c;
    assert full[i].category != c;
  }

  /**
   * When every row has the chosen category, filtering keeps the full length, so choosing it
   * again does not reset: the key stays and the chart keeps showing the (unchanged) rows.
   */
  lemma DrillDownSingleCategoryStays(v: View, c: string, data: seq<Row>)
    requires c != ""
    requires forall i :: 0 <= i < |data| ==> data[i].category == c
    ensures DrillDownView(DrillDownView(v, Some(c), data), Some(c), data)
      == View(v.renderMode, Some(c), DataGivenRenderMode(v.renderMode, data))
  {
    RenderModeKeepsRows(v.renderMode, data);
  }

  /** The module state of a chart view together with the chart whose `data` it replaces. */
  class Chart {
    var renderMode: RenderMode
    var currentDrillDownKey: Option<string>
    var chartData: seq<Row>

    /** The state as a value. */
    function State(): View
      reads this
    {
      View(renderMode, currentDrillDownKey, chartData)
    }

    /** The module's initial state (`renderMode = 'perCapita'`, no key) and a chart drawn from `data`. */
    constructor (data: seq<Row>)
      ensures State() == View(PerCapita, None, DataGivenRenderMode(PerCapita, data))
    {
      renderMode := PerCapita;
      currentDrillDownKey := None;
      chartData := DataGivenRenderMode(PerCapita, data);
    }

    /** `drillDownData(chosenCategory, data, myChart)`, without the redraw. */
    method DrillDown(chosen: Option<string>, data: seq<Row>)
      modifies this
      ensures State() == DrillDownView(old(State()), chosen, data)
    {
      var dataToDrillDown := DataGivenRenderMode(renderMode, data);
      var shouldShowAllCategories :=
        (|chartData| != |dataToDrillDown| && currentDrillDownKey == chosen) || IsFalsy(chosen);
      if shouldShowAllCategories {
        chartData := dataToDrillDown;
        currentDrillDownKey := None;
      } else {
        currentDrillDownKey := chosen;
        chartData := FilterCategory(dataToDrillDown, chosen.value);
      }
    }
  }
}
