/**
 * The chart code of the basic view (`basic_version/chart_gen.js`): one chart over all rows,
 * a bar-key parse without trimming, and a per-capita checkbox that reloads the chart's data in
 * place. The population table, the per-capita conversion, the render-mode choice and the
 * drill-down handler are the shared ones of `ChartState`.
 */
module BasicChartGen {
  import opened Wrappers
  import opened Seqs
  import opened ChartState

  /**
   * The bar-key parse here is `BarKeyPrefix` alone: a space before the `_` stays part of the
   * category drilled into.
   */
  lemma BarKeyKeepsPadding(c: string, rest: string)
    requires '_' !in c
    ensures BarKeyPrefix(c + " _" + rest) == c + " "
  {
    var key := c + " _" + rest;
    var p := c + " ";
    assert key[..|p|] == p && key[|p|] == '_';
    IndexOfFirst(key, '_', |p|);
  }

  /**
   * The state after the per-capita checkbox's click: the mode follows the box, the chart
   * shows the full data of that mode, and the remembered drill-down key is kept as it was.
   */
  function PerCapitaView(v: View, checked: bool, data: seq<Row>): (w: View)
    ensures w.renderMode == ModeFromCheckbox(checked) && (checked <==> w.renderMode == PerCapita)
    ensures w.currentDrillDownKey == v.currentDrillDownKey
    ensures w.chartData == DataGivenRenderMode(w.renderMode, data)
  {
    var mode := ModeFromCheckbox(checked);
    View(mode, v.currentDrillDownKey, DataGivenRenderMode(mode, data))
  }

  /** The click handler, without the redraw and the re-wiring of the drill-down handlers. */
  method PerCapitaClick(chart: Chart, checked: bool, data: seq<Row>)
    modifies chart
    ensures chart.State() == PerCapitaView(old(chart.State()), checked, data)
  {
    chart.renderMode := if checked then PerCapita else Absolute;
    chart.chartData := DataGivenRenderMode(chart.renderMode, data);
  }

  /**
   * Because the switch keeps the key but shows every row, choosing the remembered category
   * right after it filters again instead of resetting, as it would have done before the switch.
   */
  lemma SameKeyAfterSwitchFiltersAgain(v: View, checked: bool, c: string, data: seq<Row>)
    requires c != "" && v.currentDrillDownKey == Some(c)
    ensures DrillDownView(PerCapitaView(v, checked, data), Some(c), data)
      == View(ModeFromCheckbox(checked), Some(c), FilterCategory(DataGivenRenderMode(ModeFromCheckbox(checked), data), c))
  {
    RenderModeKeepsRows(ModeFromCheckbox(checked), data);
  }

  /**
   * With the chart filtered to the remembered category, a second choice of it resets the
   * chart to every row, but after a click on the checkbox the same choice leaves it filtered:
   * the two differ whenever some row has another category.
   */
  lemma SwitchChangesRepeatOutcome(v: View, checked: bool, c: string, data: seq<Row>)
    requires c != "" && v.currentDrillDownKey == Some(c)
    requires |v.chartData| != |data|
    requires exists i :: 0 <= i < |data| && data[i].category != c
    ensures DrillDownView(v, Some(c), data).chartData != DrillDownView(PerCapitaView(v, checked, data), Some(c), data).chartData
  {
    var mode := ModeFromCheckbox(checked);
    var full := DataGivenRenderMode(mode, data);
    RenderModeKeepsRows(mode, data);
    RenderModeKeepsRows(v.renderMode, data);
    DrillDownRepeatResets(v, c, data);
    SameKeyAfterSwitchFiltersAgain(v, checked, c, data);
    var i :| 0 <= i < |data| && data[i].category != c;
    assert full[i].category != c;
    assert |FilterCategory(full, c)| != |full|;
  }
}
