/**
 * The chart code of the map view (`map_version/chart_gen.js`): the category list `draw` builds,
 * the trimmed bar-key parse, the per-capita checkbox, and the data a small multiple is drawn from.
 * The population table, the per-capita conversion, the render-mode choice and the drill-down
 * handler are the shared ones of `ChartState`.
 */
module MapChartGen {
  import opened Wrappers
  import opened Seqs
  import opened Text
  import opened ChartState

  /** The trimmed category of every row, in order. */
  function TrimmedCategories(data: seq<Row>): (ts: seq<string>)
    ensures |ts| == |data|
    ensures forall i :: 0 <= i < |data| ==> ts[i] == Trim(data[i].category)
  {
    seq(|data|, i requires 0 <= i < |data| => Trim(data[i].category))
  }

  /**
   * The reduce in `draw`: the trimmed categories without repetition. Every row's trimmed
   * category is listed, only once, nothing else is, and they come in the order in which they
   * first occur.
   */
  method UniqueCategories(data: seq<Row>) returns (categories: seq<string>)
    ensures categories == Dedup(TrimmedCategories(data))
    ensures forall i :: 0 <= i < |data| ==> Trim(data[i].category) in categories
    ensures Distinct(categories)
    ensures forall c :: c in categories ==> exists i :: 0 <= i < |data| && Trim(data[i].category) == c
    ensures forall i, j :: 0 <= i < j < |categories| ==>
      IndexOf(TrimmedCategories(data), categories[i]) < IndexOf(TrimmedCategories(data), categories[j])
  {
    var ts := TrimmedCategories(data);
    categories := [];
    for i := 0 to |data|
      invariant categories == Dedup(ts[..i])
    {
      var trimmedCategory := Trim(data[i].category);
      ghost var before := categories;
      if IndexOf(categories, trimmedCategory) == -1 {
        categories := categories + [trimmedCategory];
      }
      CategoryStep(ts, i, trimmedCategory, before, categories);
    }
    assert ts[..|data|] == ts;
    CategoryListFacts(data, categories);
  }

  /** One step of the reduce: the list grows as `Dedup` does over the prefixes. */
  lemma CategoryStep(ts: seq<string>, i: int, t: string, before: seq<string>, after: seq<string>)
    requires 0 <= i < |ts| && ts[i] == t && before == Dedup(ts[..i])
    requires after == if IndexOf(before, t) == -1 then before + [t] else before
    ensures after == Dedup(ts[..i + 1])
  {
    DedupPrefixStep(ts, i);
  }

  /** What the category list is, stated on the de-duplicated trimmed categories. */
  lemma CategoryListFacts(data: seq<Row>, categories: seq<string>)
    requires categories == Dedup(TrimmedCategories(data))
    ensures forall i :: 0 <= i < |data| ==> Trim(data[i].category) in categories
    ensures Distinct(categories)
    ensures forall c :: c in categories ==> exists i :: 0 <= i < |data| && Trim(data[i].category) == c
    ensures forall i, j :: 0 <= i < j < |categories| ==>
      IndexOf(TrimmedCategories(data), categories[i]) < IndexOf(TrimmedCategories(data), categories[j])
  {
    var ts := TrimmedCategories(data);
    DedupFacts(ts);
    CategoryListOnlyTrims(data, ts, categories);
    forall i, j | 0 <= i < j < |categories| ensures IndexOf(ts, categories[i]) < IndexOf(ts, categories[j]) {
      DedupFirstOccurrenceOrder(ts, i, j);
    }
  }

  lemma CategoryListOnlyTrims(data: seq<Row>, ts: seq<string>, categories: seq<string>)
    requires ts == TrimmedCategories(data) && categories == Dedup(ts)
    ensures forall c :: c in categories ==> exists i :: 0 <= i < |data| && Trim(data[i].category) == c
  {
    forall c | c in categories ensures exists i :: 0 <= i < |data| && Trim(data[i].category) == c {
      DedupMembership(ts, c);
      var i :| 0 <= i < |ts| && ts[i] == c;
    }
  }

  /**
   * The category a bar click drills into: the text of its key before the first `_`, trimmed.
   * A key without `_` gives the empty string.
   */
  function BarKeyCategory(key: string): (c: string)
    ensures '_' !in key ==> c == ""
    ensures '_' in key ==> exists p :: p + "_" <= key && '_' !in p && c == Trim(p)
  {
    var p := BarKeyPrefix(key);
    assert '_' in key ==> p + "_" <= key && '_' !in p;
    Trim(p)
  }

  /** Clicking a bar whose key has no `_` shows every category and forgets the key. */
  lemma BarWithoutSeparatorShowsAll(v: View, key: string, data: seq<Row>)
    requires '_' !in key
    ensures DrillDownView(v, Some(BarKeyCategory(key)), data)
      == View(v.renderMode, None, DataGivenRenderMode(v.renderMode, data))
  {
    DrillDownFalsyShowsAll(v, Some(BarKeyCategory(key)), data);
  }

  /**
   * A space between the category and the `_` of a bar key is not part of the category drilled
   * into, for any category that has no `_` and neither starts nor ends with whitespace.
   */
  lemma BarKeyIgnoresPadding(c: string, rest: string)
    requires c != [] && '_' !in c
    requires !IsWhitespace(c[0]) && !IsWhitespace(c[|c| - 1])
    ensures BarKeyCategory(c + " _" + rest) == c
  {
    var key := c + " _" + rest;
    var p := c + " ";
    assert key[..|p|] == p && key[|p|] == '_';
    IndexOfFirst(key, '_', |p|);
    assert BarKeyPrefix(key) == p;
    assert TrimStart(p) == p;
    assert p[..|c|] == c;
    assert TrimEnd(p) == TrimEnd(c);
  }

  /**
   * The per-capita checkbox's click handler: the mode follows the box (checked gives per
   * capita). It empties and redraws every chart, which is not part of this model, and leaves
   * the drill-down key and the chart's data to that redraw.
   */
  method PerCapitaClick(chart: Chart, checked: bool)
    modifies chart
    ensures chart.State() == old(chart.State()).(renderMode := ModeFromCheckbox(checked))
    ensures checked <==> chart.renderMode == PerCapita
  {
    chart.renderMode := if checked then PerCapita else Absolute;
  }

  /** The rows `generateSmallMultiple` gives its chart, as written. */
  function SmallMultipleDataAsWritten(mode: RenderMode, data: seq<Row>, chosen: string, shouldModifyData: bool): (r: seq<Row>)
    ensures chosen == "All" ==> r == DataGivenRenderMode(mode, data)
    ensures chosen != "All" ==> forall x :: x in r <==>
      x in (if shouldModifyData then DataGivenRenderMode(mode, data) else data) && x.category == chosen
  {
    var dataForChart := if shouldModifyData then DataGivenRenderMode(mode, data) else data;
    if chosen != "All" then FilterCategory(dataForChart, chosen) else DataGivenRenderMode(mode, data)
  }

  /**
   * The change handler of the category drop-down passes the map's data, which is already the
   * render-mode data, with `shouldModifyData` false. For 'All' in per-capita mode the chart
   * then divides by the population twice: one budget equal to the state's population shows
   * as 1/7618200 instead of 1.
   */
  lemma AllOnChangeDividesTwice()
    ensures var raw := [Row("NSW", "Health", Some(7618200.0))];
      && DataGivenRenderMode(PerCapita, raw) == [Row("NSW", "Health", Some(1.0))]
      && SmallMultipleDataAsWritten(PerCapita, DataGivenRenderMode(PerCapita, raw), "All", false)
        == [Row("NSW", "Health", Some(1.0 / 7618200.0))]
  {
    var raw := [Row("NSW", "Health", Some(7618200.0))];
    var once := DataGivenRenderMode(PerCapita, raw);
    assert once[0].budget == Some(1.0);
    assert once == [Row("NSW", "Health", Some(1.0))];
    var twice := DataGivenRenderMode(PerCapita, once);
    assert twice[0].budget == Some(1.0 / 7618200.0);
  }

  /**
   * The rows a small multiple is drawn from: `dataForChart` (the render-mode data when
   * `shouldModifyData`, the data as given otherwise), filtered to the chosen category unless
   * it is 'All'.
   */
  function SmallMultipleData(mode: RenderMode, data: seq<Row>, chosen: string, shouldModifyData: bool): (r: seq<Row>)
    ensures chosen == "All" ==> r == if shouldModifyData then DataGivenRenderMode(mode, data) else data
    ensures chosen != "All" ==> forall x :: x in r <==>
      x in (if shouldModifyData then DataGivenRenderMode(mode, data) else data) && x.category == chosen
  {
    var dataForChart := if shouldModifyData then DataGivenRenderMode(mode, data) else data;
    if chosen != "All" then FilterCategory(dataForChart, chosen) else dataForChart
  }

  /**
   * Both callers hand the chart the same rows: `draw` passes the loaded data with
   * `shouldModifyData`, the drop-down passes the render-mode data without it. Either way the
   * chart shows the render-mode rows of the chosen category, or all of them for 'All'.
   */
  lemma SmallMultipleCallersAgree(mode: RenderMode, raw: seq<Row>, chosen: string)
    ensures SmallMultipleData(mode, DataGivenRenderMode(mode, raw), chosen, false) == SmallMultipleData(mode, raw, chosen, true)
    ensures chosen == "All" ==> SmallMultipleData(mode, raw, chosen, true) == DataGivenRenderMode(mode, raw)
    ensures chosen != "All" ==> forall x :: x in SmallMultipleData(mode, raw, chosen, true) <==>
      x in DataGivenRenderMode(mode, raw) && x.category == chosen
  {
  }

  /** From `draw`, where `shouldModifyData` holds, the corrected choice is the one written. */
  lemma SmallMultipleFromDrawUnchanged(mode: RenderMode, raw: seq<Row>, chosen: string)
    ensures SmallMultipleData(mode, raw, chosen, true) == SmallMultipleDataAsWritten(mode, raw, chosen, true)
  {
  }
}
