/**
 * The data layer of the map view: per-state totals for the choropleth and its tooltip, and
 * the figures behind the detail chart of one state (totals and averages per category across
 * all jurisdictions, that state's per-category records, its top ten categories, and the rows
 * that pair each of them with the all-jurisdiction average).
 */
module AustraliaMap {
  import opened Wrappers
  import opened Seqs
  import opened Dicts
  import ChartState
  import Text

  /** One row of the dataset, with its budget already a number. */
  datatype Record = Record(state: string, category: string, budget: real)

  // ---------------------------------------------------------------------------------------
  // State names

  /** The full state names of the map's regions and the abbreviations the dataset uses. */
  const STATE_MAPPING: Dict<string> := [
    Entry("Northern Territory", "NT"),
    Entry("Victoria", "VIC"),
    Entry("South Australia", "SA"),
    Entry("Western Australia", "WA"),
    Entry("Australian Capital Territory", "ACT"),
    Entry("Queensland", "QLD"),
    Entry("New South Wales", "NSW"),
    Entry("Tasmania", "TAS")
  ]

  /** `STATE_MAPPING[name]`: the abbreviation the mapping stores for a name it has. */
  function StateAbbreviation(name: string): (a: Option<string>)
    ensures a.Some? <==> name in Keys(STATE_MAPPING)
    ensures a.Some? ==> Entry(name, a.value) in STATE_MAPPING
  {
    GetNone(STATE_MAPPING, name);
    GetFound(STATE_MAPPING, name);
    Get(STATE_MAPPING, name)
  }

  /** Eight names map to eight different abbreviations. */
  lemma StateMappingIsOneToOne()
    ensures |STATE_MAPPING| == 8 && DistinctKeys(STATE_MAPPING)
    ensures forall i, j :: 0 <= i < j < |STATE_MAPPING| ==> STATE_MAPPING[i].value != STATE_MAPPING[j].value
  {
  }

  /**
   * Each abbreviation has a population entry; the ninth jurisdiction of the population table,
   * `Federal`, has no region on the map.
   */
  lemma StateMappingHasPopulations()
    ensures forall i :: 0 <= i < |STATE_MAPPING| ==> STATE_MAPPING[i].value in ChartState.POPULATION_OF_STATES
    ensures "Federal" in ChartState.POPULATION_OF_STATES
    ensures forall i :: 0 <= i < |STATE_MAPPING| ==> STATE_MAPPING[i].value != "Federal"
  {
  }

  // ---------------------------------------------------------------------------------------
  // Keyed sums: the `reduce`s that accumulate budgets into an object

  /** The two ways the source groups budgets into a dictionary of totals. */
  datatype Grouping =
    | StatesFor(chosen: string)  // state -> total over one category, or over all when 'All'
    | Categories                 // category -> total over every record

  /** Whether a record contributes to the grouping. */
  predicate Keeps(g: Grouping, r: Record) {
    match g
    case StatesFor(chosen) => r.category == chosen || chosen == "All"
    case Categories => true
  }

  /** The dictionary key a record is accumulated under. */
  function GroupKey(g: Grouping, r: Record): string {
    if g.StatesFor? then r.state else r.category
  }

  /** The (key, budget) pairs the reduce adds up: one per contributing record, in data order. */
  function Contributions(g: Grouping, data: seq<Record>): seq<Entry<real>> {
    if data == [] then []
    else
      var last := data[|data| - 1];
      Contributions(g, data[..|data| - 1]) + (if Keeps(g, last) then [Entry(GroupKey(g, last), last.budget)] else [])
  }

  /** The sum of the amounts paired with `k`. */
  function SumFor(ps: seq<Entry<real>>, k: string): real {
    if ps == [] then 0.0
    else SumFor(ps[..|ps| - 1], k) + (if ps[|ps| - 1].key == k then ps[|ps| - 1].value else 0.0)
  }

  /** The keys of the contributing records, in data order, repetitions included. */
  function GroupKeys(g: Grouping, data: seq<Record>): seq<string> {
    Keys(Contributions(g, data))
  }

  /** The sum of the budgets of the contributing records whose key is `k`. */
  function GroupTotal(g: Grouping, data: seq<Record>, k: string): real {
    SumFor(Contributions(g, data), k)
  }

  /**
   * `d` is the object a reduce over the pairs `ps` builds: one property per key, in order of
   * first occurrence, each holding the sum of that key's amounts.
   */
  ghost predicate IsSums(ps: seq<Entry<real>>, d: Dict<real>) {
    && DistinctKeys(d)
    && Keys(d) == Dedup(Keys(ps))
    && forall i :: 0 <= i < |d| ==> d[i].value == SumFor(ps, d[i].key)
  }

  /** `d` holds the grouping's totals over `data`. */
  ghost predicate IsGroupTotals(g: Grouping, data: seq<Record>, d: Dict<real>) {
    IsSums(Contributions(g, data), d)
  }

  lemma ContributionsSnoc(g: Grouping, prefix: seq<Record>, r: Record)
    ensures Contributions(g, prefix + [r]) ==
      Contributions(g, prefix) + (if Keeps(g, r) then [Entry(GroupKey(g, r), r.budget)] else [])
  {
    assert (prefix + [r])[..|prefix|] == prefix;
  }

  lemma SumForSnoc(ps: seq<Entry<real>>, p: Entry<real>, k: string)
    ensures SumFor(ps + [p], k) == SumFor(ps, k) + (if p.key == k then p.value else 0.0)
  {
    assert (ps + [p])[..|ps|] == ps;
  }

  /** How appending one record changes the total of a key. */
  lemma GroupTotalSnoc(g: Grouping, prefix: seq<Record>, r: Record, x: string)
    ensures GroupTotal(g, prefix + [r], x) ==
      GroupTotal(g, prefix, x) + (if Keeps(g, r) && GroupKey(g, r) == x then r.budget else 0.0)
  {
    ContributionsSnoc(g, prefix, r);
    var ps := Contributions(g, prefix);
    if Keeps(g, r) {
      SumForSnoc(ps, Entry(GroupKey(g, r), r.budget), x);
    } else {
      assert ps + [] == ps;
    }
  }

  /** How appending one record changes the group keys. */
  lemma GroupKeysSnoc(g: Grouping, prefix: seq<Record>, r: Record)
    ensures GroupKeys(g, prefix + [r]) == GroupKeys(g, prefix) + (if Keeps(g, r) then [GroupKey(g, r)] else [])
  {
    ContributionsSnoc(g, prefix, r);
  }

  /** A key occurs among the group keys exactly when some contributing record carries it. */
  lemma {:induction false} GroupKeysMembership(g: Grouping, data: seq<Record>, k: string)
    ensures k in GroupKeys(g, data) <==> exists r :: r in data && Keeps(g, r) && GroupKey(g, r) == k
  {
    if data != [] {
      var init, last := data[..|data| - 1], data[|data| - 1];
      assert data == init + [last];
      GroupKeysSnoc(g, init, last);
      GroupKeysMembership(g, init, k);
      if k in GroupKeys(g, init) {
        var r :| r in init && Keeps(g, r) && GroupKey(g, r) == k;
        assert r in data;
      }
    }
  }

  /** A key no pair carries sums to zero. */
  lemma {:induction false} SumForAbsent(ps: seq<Entry<real>>, k: string)
    requires k !in Keys(ps)
    ensures SumFor(ps, k) == 0.0
  {
    if ps != [] {
      var init := ps[..|ps| - 1];
      assert k !in Keys(init) by {
        assert forall i :: 0 <= i < |init| ==> Keys(init)[i] == Keys(ps)[i];
      }
      SumForAbsent(init, k);
    }
  }

  /** Looking a key up in the sums gives its sum, or nothing (read as 0) for a key no pair carries. */
  lemma SumLookup(ps: seq<Entry<real>>, d: Dict<real>, k: string)
    requires IsSums(ps, d)
    ensures Get(d, k).GetOr(0.0) == SumFor(ps, k)
  {
    GetNone(d, k);
    if k in Keys(d) {
      var j :| 0 <= j < |d| && d[j].key == k;
      GetAt(d, j);
    } else {
      assert k !in Keys(ps) by {
        DedupFacts(Keys(ps));
      }
      SumForAbsent(ps, k);
    }
  }

  /**
   * One step of the reduce: adding a pair's amount to the accumulator's entry for its key
   * (0 when absent) gives the sums of the longer sequence of pairs.
   */
  lemma SumStep(ps: seq<Entry<real>>, k: string, v: real, qs: seq<Entry<real>>, d: Dict<real>, nv: real, d': Dict<real>)
    requires IsSums(ps, d) && qs == ps + [Entry(k, v)]
    requires nv == Get(d, k).GetOr(0.0) + v && d' == Put(d, k, nv)
    ensures IsSums(qs, d')
  {
    SumLookup(ps, d, k);
    SumKeysStep(ps, k, v, qs, d, nv, d');
    SumValuesStep(ps, k, v, qs, d, nv, d');
  }

  /** The key half of `SumStep`: the keys grow as `Dedup` does and stay distinct. */
  lemma SumKeysStep(ps: seq<Entry<real>>, k: string, v: real, qs: seq<Entry<real>>, d: Dict<real>, nv: real, d': Dict<real>)
    requires DistinctKeys(d) && Keys(d) == Dedup(Keys(ps))
    requires qs == ps + [Entry(k, v)] && d' == Put(d, k, nv)
    ensures DistinctKeys(d') && Keys(d') == Dedup(Keys(qs))
  {
    PutFacts(d, k, nv);
    assert Keys(qs) == Keys(ps) + [k];
    DedupSnoc(Keys(ps), k);
  }

  /** The value half of `SumStep`. */
  lemma SumValuesStep(ps: seq<Entry<real>>, k: string, v: real, qs: seq<Entry<real>>, d: Dict<real>, nv: real, d': Dict<real>)
    requires DistinctKeys(d) && qs == ps + [Entry(k, v)]
    requires forall i :: 0 <= i < |d| ==> d[i].value == SumFor(ps, d[i].key)
    requires nv == SumFor(ps, k) + v && d' == Put(d, k, nv)
    ensures forall i :: 0 <= i < |d'| ==> d'[i].value == SumFor(qs, d'[i].key)
  {
    PutEntries(d, k, nv);
    SumValuesShape(ps, k, v, qs, d, d');
  }

  /** `SumValuesStep` on the shape `Put` leaves. */
  lemma SumValuesShape(ps: seq<Entry<real>>, k: string, v: real, qs: seq<Entry<real>>, d: Dict<real>, d': Dict<real>)
    requires qs == ps + [Entry(k, v)]
    requires forall i :: 0 <= i < |d| ==> d[i].value == SumFor(ps, d[i].key)
    requires |d'| == |d| || (|d'| == |d| + 1 && d'[|d|] == Entry(k, SumFor(ps, k) + v))
    requires forall i :: 0 <= i < |d| ==> d'[i] == if d[i].key == k then Entry(k, SumFor(ps, k) + v) else d[i]
    ensures forall i :: 0 <= i < |d'| ==> d'[i].value == SumFor(qs, d'[i].key)
  {
    forall i | 0 <= i < |d'| ensures d'[i].value == SumFor(qs, d'[i].key) {
      SumForSnoc(ps, Entry(k, v), d'[i].key);
    }
  }

  /** A record that does not contribute leaves the pairs as they were. */
  lemma GroupStepSkip(g: Grouping, prefix: seq<Record>, r: Record)
    requires !Keeps(g, r)
    ensures Contributions(g, prefix + [r]) == Contributions(g, prefix)
  {
    ContributionsSnoc(g, prefix, r);
    assert Contributions(g, prefix) + [] == Contributions(g, prefix);
  }

  /** A contributing record adds its budget to its key's entry. */
  lemma GroupStepKeep(g: Grouping, prefix: seq<Record>, r: Record, d: Dict<real>, d': Dict<real>)
    requires IsGroupTotals(g, prefix, d) && Keeps(g, r)
    requires d' == Put(d, GroupKey(g, r), Get(d, GroupKey(g, r)).GetOr(0.0) + r.budget)
    ensures IsGroupTotals(g, prefix + [r], d')
  {
    var ps, k := Contributions(g, prefix), GroupKey(g, r);
    ContributionsSnoc(g, prefix, r);
    SumStep(ps, k, r.budget, ps + [Entry(k, r.budget)], d, Get(d, k).GetOr(0.0) + r.budget, d');
  }

  /** `getDataForChosenCategory`: per-state totals over one category, or over every record for 'All'. */
  method DataForChosenCategory(chosen: string, data: seq<Record>) returns (summary: Dict<real>)
    ensures IsGroupTotals(StatesFor(chosen), data, summary)
    ensures forall s :: s in Keys(summary) <==>
      exists r :: r in data && r.state == s && (r.category == chosen || chosen == "All")
  {
    summary := [];
    for i := 0 to |data|
      invariant IsGroupTotals(StatesFor(chosen), data[..i], summary)
    {
      var datum := data[i];
      assert data[..i + 1] == data[..i] + [datum];
      if datum.category == chosen || chosen == "All" {
        var next := Put(summary, datum.state, Get(summary, datum.state).GetOr(0.0) + datum.budget);
        GroupStepKeep(StatesFor(chosen), data[..i], datum, summary, next);
        summary := next;
      } else {
        GroupStepSkip(StatesFor(chosen), data[..i], datum);
      }
    }
    assert data[..|data|] == data;
    GroupTotalsKeys(StatesFor(chosen), data, summary);
  }

  /** The keys of a totals object are the keys of the contributing records, and nothing else. */
  lemma GroupTotalsKeys(g: Grouping, data: seq<Record>, d: Dict<real>)
    requires IsGroupTotals(g, data, d)
    ensures forall k :: k in Keys(d) <==> exists r :: r in data && Keeps(g, r) && GroupKey(g, r) == k
  {
    forall k ensures k in Keys(d) <==> exists r :: r in data && Keeps(g, r) && GroupKey(g, r) == k {
      DedupMembership(GroupKeys(g, data), k);
      GroupKeysMembership(g, data, k);
    }
  }

  /**
   * Looking any key up in a totals object, with a missing key read as 0 (the source's `|| 0`),
   * gives that key's total.
   */
  lemma GroupTotalsLookup(g: Grouping, data: seq<Record>, d: Dict<real>, k: string)
    requires IsGroupTotals(g, data, d)
    ensures Get(d, k).GetOr(0.0) == GroupTotal(g, data, k)
  {
    SumLookup(Contributions(g, data), d, k);
  }

  /**
   * With 'All', the per-state totals sum every record of each state; with a category, only that
   * category's records. A state without such records is absent and totals 0.
   */
  lemma ChosenCategoryTotals(chosen: string, data: seq<Record>, summary: Dict<real>, s: string)
    requires IsGroupTotals(StatesFor(chosen), data, summary)
    ensures Get(summary, s).GetOr(0.0) == GroupTotal(StatesFor(chosen), data, s)
    ensures (forall r :: r in data && r.state == s ==> r.category != chosen && chosen != "All") ==>
      Get(summary, s).None? && GroupTotal(StatesFor(chosen), data, s) == 0.0
  {
    GroupTotalsLookup(StatesFor(chosen), data, summary, s);
    GroupTotalsKeys(StatesFor(chosen), data, summary);
    GetNone(summary, s);
  }

  /** The amount a map region's tooltip shows: its state's entry in the totals, or 0 (`|| 0`). */
  function TooltipTotal(totals: Dict<real>, stateName: string): (t: real)
    ensures StateAbbreviation(stateName).None? ==> t == 0.0
    ensures StateAbbreviation(stateName).Some? && StateAbbreviation(stateName).value !in Keys(totals) ==> t == 0.0
    ensures StateAbbreviation(stateName).Some? && StateAbbreviation(stateName).value in Keys(totals) ==>
      Entry(StateAbbreviation(stateName).value, t) in totals
  {
    match StateAbbreviation(stateName)
    case None => 0.0
    case Some(abbrev) =>
      GetNone(totals, abbrev);
      GetFound(totals, abbrev);
      Get(totals, abbrev).GetOr(0.0)
  }

  /**
   * On the per-state totals, the tooltip of every mapped region shows its state's total, which
   * is 0 for a state missing from the totals; an unmapped name shows 0.
   */
  lemma TooltipShowsStateTotal(chosen: string, data: seq<Record>, totals: Dict<real>, stateName: string)
    requires IsGroupTotals(StatesFor(chosen), data, totals)
    ensures StateAbbreviation(stateName).None? ==> TooltipTotal(totals, stateName) == 0.0
    ensures StateAbbreviation(stateName).Some? ==>
      TooltipTotal(totals, stateName) == GroupTotal(StatesFor(chosen), data, StateAbbreviation(stateName).value)
    ensures StateAbbreviation(stateName).Some? && StateAbbreviation(stateName).value !in Keys(totals) ==>
      TooltipTotal(totals, stateName) == 0.0
  {
    if StateAbbreviation(stateName).Some? {
      var abbrev := StateAbbreviation(stateName).value;
      GroupTotalsLookup(StatesFor(chosen), data, totals, abbrev);
      GetNone(totals, abbrev);
    }
  }

  // ---------------------------------------------------------------------------------------
  // The partition identity

  /** The budget of the records of state `s` whose category is one of `cs`. */
  function StateTotalIn(data: seq<Record>, s: string, cs: seq<string>): real {
    if data == [] then 0.0
    else
      var last := data[|data| - 1];
      StateTotalIn(data[..|data| - 1], s, cs) + (if last.state == s && last.category in cs then last.budget else 0.0)
  }

  /** The sum, over the categories `cs`, of state `s`'s total for each single category. */
  function SumOverCategories(cs: seq<string>, data: seq<Record>, s: string): real {
    if cs == [] then 0.0
    else SumOverCategories(cs[..|cs| - 1], data, s) + GroupTotal(StatesFor(cs[|cs| - 1]), data, s)
  }

  lemma {:induction false} StateTotalInSnoc(data: seq<Record>, s: string, cs: seq<string>, c: string)
    requires c != "All" && c !in cs
    ensures StateTotalIn(data, s, cs + [c]) == StateTotalIn(data, s, cs) + GroupTotal(StatesFor(c), data, s)
  {
    if data != [] {
      var init, last := data[..|data| - 1], data[|data| - 1];
      assert data == init + [last];
      StateTotalInSnoc(init, s, cs, c);
      GroupTotalSnoc(StatesFor(c), init, last, s);
    }
  }

  lemma {:induction false} StateTotalInNone(data: seq<Record>, s: string)
    ensures StateTotalIn(data, s, []) == 0.0
  {
    if data != [] {
      StateTotalInNone(data[..|data| - 1], s);
    }
  }

  lemma {:induction false} SumOverCategoriesIsStateTotalIn(cs: seq<string>, data: seq<Record>, s: string)
    requires Distinct(cs) && "All" !in cs
    ensures SumOverCategories(cs, data, s) == StateTotalIn(data, s, cs)
  {
    if cs == [] {
      StateTotalInNone(data, s);
    } else {
      var init, c := cs[..|cs| - 1], cs[|cs| - 1];
      assert cs == init + [c];
      SumOverCategoriesIsStateTotalIn(init, data, s);
      StateTotalInSnoc(data, s, init, c);
    }
  }

  lemma {:induction false} StateTotalInCovering(data: seq<Record>, s: string, cs: seq<string>)
    requires forall r :: r in data ==> r.category in cs
    ensures StateTotalIn(data, s, cs) == GroupTotal(StatesFor("All"), data, s)
  {
    if data != [] {
      var init, last := data[..|data| - 1], data[|data| - 1];
      assert data == init + [last];
      forall r | r in init ensures r.category in cs {
        assert r in data;
      }
      StateTotalInCovering(init, s, cs);
      GroupTotalSnoc(StatesFor("All"), init, last, s);
    }
  }

  /**
   * For every state, the 'All' total is the sum of the single-category totals over the
   * distinct categories of the data, provided no category is itself named 'All' (the
   * sentinel would then also select every record).
   */
  lemma PartitionByCategory(data: seq<Record>, s: string)
    requires forall r :: r in data ==> r.category != "All"
    ensures SumOverCategories(Dedup(GroupKeys(Categories, data)), data, s) == GroupTotal(StatesFor("All"), data, s)
  {
    var cs := Dedup(GroupKeys(Categories, data));
    DedupFacts(GroupKeys(Categories, data));
    DedupMembership(GroupKeys(Categories, data), "All");
    GroupKeysMembership(Categories, data, "All");
    forall r | r in data ensures r.category in cs {
      DedupMembership(GroupKeys(Categories, data), r.category);
      GroupKeysMembership(Categories, data, r.category);
    }
    SumOverCategoriesIsStateTotalIn(cs, data, s);
    StateTotalInCovering(data, s, cs);
  }

  /** The pairs of a concatenation are the pairs of each part. */
  lemma {:induction false} ContributionsAppend(g: Grouping, a: seq<Record>, b: seq<Record>)
    ensures Contributions(g, a + b) == Contributions(g, a) + Contributions(g, b)
  {
    if b == [] {
      assert a + b == a;
    } else {
      var init, last := b[..|b| - 1], b[|b| - 1];
      var ai := a + init;
      assert b == init + [last];
      assert a + b == ai + [last];
      var x := if Keeps(g, last) then [Entry(GroupKey(g, last), last.budget)] else [];
      ContributionsAppend(g, a, init);
      ContributionsSnoc(g, ai, last);
      ContributionsSnoc(g, init, last);
      assert Contributions(g, a + b) == Contributions(g, ai) + x;
      assert Contributions(g, b) == Contributions(g, init) + x;
      assert (Contributions(g, a) + Contributions(g, init)) + x == Contributions(g, a) + (Contributions(g, init) + x);
    }
  }

  /**
   * The drop-down offers trimmed category names, but the comparison is exact: a record whose
   * category is changed by trimming never counts towards its trimmed name (unless that name is
   * the 'All' sentinel). Wherever such a record sits in the data, the totals for the name are
   * those of the data without it.
   */
  lemma TrimmedChoiceMissesPaddedCategory(a: seq<Record>, r: Record, b: seq<Record>)
    requires Text.Trim(r.category) != r.category && Text.Trim(r.category) != "All"
    ensures Contributions(StatesFor(Text.Trim(r.category)), a + [r] + b) == Contributions(StatesFor(Text.Trim(r.category)), a + b)
    ensures GroupKeys(StatesFor(Text.Trim(r.category)), a + [r] + b) == GroupKeys(StatesFor(Text.Trim(r.category)), a + b)
    ensures forall s :: GroupTotal(StatesFor(Text.Trim(r.category)), a + [r] + b, s) == GroupTotal(StatesFor(Text.Trim(r.category)), a + b, s)
  {
    var g := StatesFor(Text.Trim(r.category));
    ContributionsAppend(g, a + [r], b);
    ContributionsAppend(g, a, b);
    ContributionsSnoc(g, a, r);
  }

  // ---------------------------------------------------------------------------------------
  // The detail chart of one state

  /** The number of jurisdictions the averages divide by. */
  const NUM_JURISDICTIONS: nat := 9

  /** The first reduce: `totalSpendInAllStates`, category -> total over every record. */
  method TotalsByCategory(data: seq<Record>) returns (totals: Dict<real>)
    ensures IsGroupTotals(Categories, data, totals)
    ensures forall c :: c in Keys(totals) <==> exists r :: r in data && r.category == c
  {
    totals := [];
    for i := 0 to |data|
      invariant IsGroupTotals(Categories, data[..i], totals)
    {
      var datum := data[i];
      assert data[..i + 1] == data[..i] + [datum];
      var next := Put(totals, datum.category, Get(totals, datum.category).GetOr(0.0) + datum.budget);
      GroupStepKeep(Categories, data[..i], datum, totals, next);
      totals := next;
    }
    assert data[..|data|] == data;
    GroupTotalsKeys(Categories, data, totals);
  }

  /** The second reduce: `averageSpendInAllStates`, the same keys, each total divided by 9. */
  method AveragesAcrossJurisdictions(totals: Dict<real>) returns (averages: Dict<real>)
    requires DistinctKeys(totals)
    ensures Keys(averages) == Keys(totals) && DistinctKeys(averages)
    ensures forall i :: 0 <= i < |averages| ==>
      averages[i] == Entry(totals[i].key, totals[i].value / NUM_JURISDICTIONS as real)
  {
    averages := [];
    var keys := Keys(totals);
    for i := 0 to |keys|
      invariant |averages| == i
      invariant forall j :: 0 <= j < i ==> averages[j] == Entry(totals[j].key, totals[j].value / NUM_JURISDICTIONS as real)
      invariant DistinctKeys(averages)
    {
      var category := keys[i];
      GetAt(totals, i);
      assert DistinctKeys(averages);
      assert category !in Keys(averages);
      var average := Get(totals, category).value / NUM_JURISDICTIONS as real;
      PutFacts(averages, category, average);
      averages := Put(averages, category, average);
    }
  }

  /** An average looked up by category is that category's total over all records, divided by 9. */
  lemma AverageOfCategory(data: seq<Record>, totals: Dict<real>, averages: Dict<real>, c: string)
    requires IsGroupTotals(Categories, data, totals)
    requires Keys(averages) == Keys(totals) && DistinctKeys(averages)
    requires forall i :: 0 <= i < |averages| ==>
      averages[i] == Entry(totals[i].key, totals[i].value / NUM_JURISDICTIONS as real)
    requires exists r :: r in data && r.category == c
    ensures c in Keys(averages)
    ensures Get(averages, c) == Some(GroupTotal(Categories, data, c) / NUM_JURISDICTIONS as real)
  {
    GroupTotalsKeys(Categories, data, totals);
    var j := KeyPosition(totals, c);
    assert totals[j].value == GroupTotal(Categories, data, c);
    GetAt(averages, j);
  }

  /** Where a key of an object sits. */
  lemma KeyPosition<V>(d: Dict<V>, k: string) returns (j: int)
    requires k in Keys(d)
    ensures 0 <= j < |d| && d[j].key == k
  {
    j :| 0 <= j < |Keys(d)| && Keys(d)[j] == k;
  }

  /** `dimple.filterData(data, 'State', state)`, taken to be an order-preserving equality filter. */
  function FilterState(data: seq<Record>, state: string): (rows: seq<Record>)
    ensures forall r :: r in rows <==> r in data && r.state == state
  {
    if data == [] then []
    else
      var init, last := data[..|data| - 1], data[|data| - 1];
      assert data == init + [last];
      FilterState(init, state) + (if last.state == state then [last] else [])
  }

  /** Each record of the state is kept as often as it occurs, and no other record is kept. */
  lemma {:induction false} FilterStateCounts(data: seq<Record>, state: string)
    ensures forall r :: multiset(FilterState(data, state))[r] == if r.state == state then multiset(data)[r] else 0
  {
    if data != [] {
      var init, last := data[..|data| - 1], data[|data| - 1];
      assert data == init + [last];
      FilterStateCounts(init, state);
    }
  }

  /**
   * The filter keeps order: filtering a concatenation filters each part. With the counts
   * above, which settle a single record, this determines the result completely.
   */
  lemma {:induction false} FilterStateAppend(a: seq<Record>, b: seq<Record>, state: string)
    ensures FilterState(a + b, state) == FilterState(a, state) + FilterState(b, state)
  {
    if b == [] {
      assert a + b == a;
    } else {
      var init, last := b[..|b| - 1], b[|b| - 1];
      assert b == init + [last];
      assert (a + b)[..|a + b| - 1] == a + init && (a + b)[|a + b| - 1] == last;
      FilterStateAppend(a, init, state);
    }
  }

  /** The totals held in an object of category records, as an object of numbers. */
  function Budgets(m: Dict<Record>): (b: Dict<real>)
    ensures |b| == |m|
    ensures forall i :: 0 <= i < |m| ==> b[i] == Entry(m[i].key, m[i].value.budget)
  {
    seq(|m|, i requires 0 <= i < |m| => Entry(m[i].key, m[i].value.budget))
  }

  /** `(summaryData[c] || {'Total Budget': 0})['Total Budget']`. */
  function Budget(m: Dict<Record>, k: string): (b: real)
    ensures k !in Keys(m) ==> b == 0.0
    ensures k in Keys(m) ==> exists r :: Entry(k, r) in m && b == r.budget
  {
    GetNone(m, k);
    GetFound(m, k);
    match Get(m, k)
    case Some(r) => r.budget
    case None => 0.0
  }

  lemma {:induction false} BudgetsPut(m: Dict<Record>, c: string, rec: Record)
    ensures Budgets(Put(m, c, rec)) == Put(Budgets(m), c, rec.budget)
  {
    if m != [] {
      assert m == [m[0]] + m[1..];
      BudgetsCons(m[0], m[1..]);
      if m[0].key != c {
        BudgetsPut(m[1..], c, rec);
        BudgetsCons(m[0], Put(m[1..], c, rec));
      } else {
        BudgetsCons(Entry(c, rec), m[1..]);
      }
    }
  }

  lemma BudgetsCons(e: Entry<Record>, m: Dict<Record>)
    ensures Budgets([e] + m) == [Entry(e.key, e.value.budget)] + Budgets(m)
  {
  }

  lemma {:induction false} BudgetLookup(m: Dict<Record>, k: string)
    ensures Budget(m, k) == Get(Budgets(m), k).GetOr(0.0)
  {
    if m != [] && m[0].key != k {
      assert Budgets(m)[1..] == Budgets(m[1..]);
      BudgetLookup(m[1..], k);
    }
  }

  /**
   * `m` is the third reduce's object over the state's rows: its totals are the per-category
   * totals of those rows, and each entry is a record of its own category and of the state.
   */
  ghost predicate IsCategoryRecords(state: string, rows: seq<Record>, m: Dict<Record>) {
    && IsGroupTotals(Categories, rows, Budgets(m))
    && forall i :: 0 <= i < |m| ==> m[i].value.state == state && m[i].value.category == m[i].key
  }

  lemma CategoryRecordsStep(state: string, prefix: seq<Record>, r: Record, m: Dict<Record>, m': Dict<Record>)
    requires IsCategoryRecords(state, prefix, m) && r.state == state
    requires m' == Put(m, r.category, Record(r.state, r.category, Budget(m, r.category) + r.budget))
    ensures IsCategoryRecords(state, prefix + [r], m')
  {
    var rec := Record(r.state, r.category, Budget(m, r.category) + r.budget);
    var b := Budgets(m);
    assert DistinctKeys(m) by {
      forall i, j | 0 <= i < j < |m| ensures m[i].key != m[j].key {
        assert b[i].key == m[i].key && b[j].key == m[j].key;
      }
    }
    BudgetsPut(m, r.category, rec);
    BudgetLookup(m, r.category);
    GroupStepKeep(Categories, prefix, r, b, Budgets(m'));
    PutEntries(m, r.category, rec);
  }

  /** The third reduce: `filteredDataMap`, category -> summed record, over the state's rows only. */
  method CategoryRecordsForState(data: seq<Record>, state: string) returns (m: Dict<Record>)
    ensures IsCategoryRecords(state, FilterState(data, state), m)
  {
    var rows := FilterState(data, state);
    m := [];
    for i := 0 to |rows|
      invariant IsCategoryRecords(state, rows[..i], m)
    {
      var datum := rows[i];
      assert datum in rows;
      assert rows[..i + 1] == rows[..i] + [datum];
      var next := Put(m, datum.category, Record(datum.state, datum.category, Budget(m, datum.category) + datum.budget));
      CategoryRecordsStep(state, rows[..i], datum, m, next);
      m := next;
    }
    assert rows[..|rows|] == rows;
  }

  /**
   * The object of category records has one entry per category present among the state's
   * records, with distinct keys, each holding that category, the state and the summed budget.
   */
  lemma CategoryRecordsMeaning(data: seq<Record>, state: string, m: Dict<Record>)
    requires IsCategoryRecords(state, FilterState(data, state), m)
    ensures DistinctKeys(m)
    ensures forall c :: c in Keys(m) <==> exists r :: r in data && r.state == state && r.category == c
    ensures forall i :: 0 <= i < |m| ==>
      m[i].value == Record(state, m[i].key, GroupTotal(Categories, FilterState(data, state), m[i].key))
  {
    var rows := FilterState(data, state);
    var b := Budgets(m);
    assert Keys(b) == Keys(m);
    GroupTotalsKeys(Categories, rows, b);
    forall c ensures c in Keys(m) <==> exists r :: r in data && r.state == state && r.category == c {
      if c in Keys(m) {
        var r :| r in rows && r.category == c;
      }
      if exists r :: r in data && r.state == state && r.category == c {
        var r :| r in data && r.state == state && r.category == c;
        assert r in rows;
      }
    }
    forall i | 0 <= i < |m| ensures m[i].value == Record(state, m[i].key, GroupTotal(Categories, rows, m[i].key)) {
      assert b[i].value == m[i].value.budget;
    }
  }

  // Ranking --------------------------------------------------------------------------------

  /** Places `e` before the first entry whose total is not larger, so equal totals keep their order. */
  function Insert(e: Entry<Record>, sorted: Dict<Record>): (r: Dict<Record>)
    ensures |r| == |sorted| + 1
    ensures forall x :: x in r <==> x == e || x in sorted
  {
    if sorted == [] || sorted[0].value.budget <= e.value.budget then [e] + sorted
    else
      assert sorted == [sorted[0]] + sorted[1..];
      [sorted[0]] + Insert(e, sorted[1..])
  }

  /** Entries in non-increasing order of total. */
  predicate NonIncreasing(s: Dict<Record>) {
    forall i, j :: 0 <= i < j < |s| ==> s[i].value.budget >= s[j].value.budget
  }

  lemma {:induction false} InsertNonIncreasing(e: Entry<Record>, s: Dict<Record>)
    requires NonIncreasing(s)
    ensures NonIncreasing(Insert(e, s))
  {
    if s != [] && s[0].value.budget > e.value.budget {
      InsertNonIncreasing(e, s[1..]);
      var r := Insert(e, s);
      forall j | 0 < j < |r| ensures r[0].value.budget >= r[j].value.budget {
        assert r[j] in Insert(e, s[1..]);
      }
    }
  }

  lemma {:induction false} InsertDistinctKeys(e: Entry<Record>, s: Dict<Record>)
    requires DistinctKeys(s) && e.key !in Keys(s)
    ensures DistinctKeys(Insert(e, s))
  {
    if s != [] && s[0].value.budget > e.value.budget {
      var tail := s[1..];
      assert e.key !in Keys(tail) by {
        assert forall i :: 0 <= i < |tail| ==> Keys(tail)[i] == Keys(s)[i + 1];
      }
      InsertDistinctKeys(e, tail);
      var t := Insert(e, tail);
      forall j | 0 <= j < |t| ensures t[j].key != s[0].key {
        assert t[j] in t;
        if t[j] != e {
          var p :| 0 <= p < |tail| && tail[p] == t[j];
          assert s[p + 1] == t[j];
        } else {
          assert Keys(s)[0] == s[0].key;
        }
      }
    }
  }

  /**
   * `Array.prototype.sort` with the comparator `b - a` on the totals: the same entries in
   * non-increasing order of total, ties in the original key order (`RankByBudgetStable`).
   */
  function RankByBudget(d: Dict<Record>): (r: Dict<Record>)
    requires DistinctKeys(d)
    ensures |r| == |d|
    ensures forall x :: x in r <==> x in d
    ensures NonIncreasing(r)
    ensures DistinctKeys(r)
  {
    if d == [] then []
    else
      var tail := d[1..];
      var rest := RankByBudget(tail);
      InsertNonIncreasing(d[0], rest);
      assert d[0].key !in Keys(rest) by {
        forall j | 0 <= j < |rest| ensures rest[j].key != d[0].key {
          assert rest[j] in tail;
          var p :| 0 <= p < |tail| && tail[p] == rest[j];
          assert d[p + 1] == rest[j];
        }
      }
      InsertDistinctKeys(d[0], rest);
      assert d == [d[0]] + tail;
      Insert(d[0], rest)
  }

  /** Inserting an entry puts it ahead of every entry of no larger total. */
  lemma {:induction false} InsertBeforeNoLarger(e: Entry<Record>, s: Dict<Record>, y: Entry<Record>)
    requires y in s && y != e && y.value.budget <= e.value.budget
    ensures IndexOf(Insert(e, s), e) < IndexOf(Insert(e, s), y)
  {
    if s[0].value.budget > e.value.budget {
      var t := Insert(e, s[1..]);
      assert y in s[1..];
      InsertBeforeNoLarger(e, s[1..], y);
      IndexOfCons(s[0], t, e);
      IndexOfCons(s[0], t, y);
    }
  }

  /** Inserting an entry keeps the order of the entries already there. */
  lemma {:induction false} InsertKeepsOrder(e: Entry<Record>, s: Dict<Record>, x: Entry<Record>, y: Entry<Record>)
    requires x in s && y in s && x != e && y != e
    requires IndexOf(s, x) < IndexOf(s, y)
    ensures IndexOf(Insert(e, s), x) < IndexOf(Insert(e, s), y)
  {
    var h, tail := s[0], s[1..];
    assert s == [h] + tail;
    IndexOfCons(h, tail, x);
    IndexOfCons(h, tail, y);
    if h.value.budget <= e.value.budget {
      assert Insert(e, s) == [e] + s;
      IndexOfCons(e, s, x);
      IndexOfCons(e, s, y);
    } else {
      var t := Insert(e, tail);
      assert Insert(e, s) == [h] + t;
      IndexOfCons(h, t, x);
      IndexOfCons(h, t, y);
      if x != h {
        InsertKeepsOrder(e, tail, x, y);
      }
    }
  }

  /**
   * The ranking is stable: of two entries with equal totals, the one that comes first in the
   * object's key order also comes first in the ranking.
   */
  lemma {:induction false} RankByBudgetStable(d: Dict<Record>, p: int, q: int)
    requires DistinctKeys(d) && 0 <= p < q < |d|
    requires d[p].value.budget == d[q].value.budget
    ensures IndexOf(RankByBudget(d), d[p]) < IndexOf(RankByBudget(d), d[q])
  {
    var tail := d[1..];
    assert DistinctKeys(tail) by {
      assert forall i :: 0 <= i < |tail| ==> tail[i] == d[i + 1];
    }
    var rest := RankByBudget(tail);
    assert RankByBudget(d) == Insert(d[0], rest);
    assert d[q] == tail[q - 1] && d[q] in rest;
    if p == 0 {
      InsertBeforeNoLarger(d[0], rest, d[q]);
    } else {
      assert d[p] == tail[p - 1] && d[p] in rest;
      RankByBudgetStable(tail, p - 1, q - 1);
      InsertKeepsOrder(d[0], rest, d[p], d[q]);
    }
  }

  function Min(a: int, b: int): int {
    if a <= b then a else b
  }

  lemma EntryLookup(m: Dict<Record>, e: Entry<Record>)
    requires DistinctKeys(m) && e in m
    ensures Get(m, e.key) == Some(e.value) && Budget(m, e.key) == e.value.budget
  {
    var i :| 0 <= i < |m| && m[i] == e;
    GetAt(m, i);
  }

  /**
   * `top10Categories`: at most ten keys of `m`, without repetition, by non-increasing total,
   * and no key left out has a larger total than one taken.
   */
  function Top10Categories(m: Dict<Record>): (top: seq<string>)
    requires DistinctKeys(m)
    ensures |top| == Min(10, |m|)
    ensures Distinct(top)
    ensures forall k :: k in top ==> k in Keys(m)
    ensures forall i, j :: 0 <= i < j < |top| ==> Budget(m, top[i]) >= Budget(m, top[j])
    ensures forall e, k :: e in m && e.key !in top && k in top ==> e.value.budget <= Budget(m, k)
  {
    var ranked := RankByBudget(m);
    var n := Min(10, |m|);
    var top := Keys(ranked[..n]);
    TopFacts(m, ranked, n, top);
    top
  }

  /** The first `n` ranked entries, their keys and their totals as looked up by key. */
  lemma TopEntries(m: Dict<Record>, ranked: Dict<Record>, n: int, top: seq<string>)
    requires DistinctKeys(m) && forall x :: x in ranked <==> x in m
    requires 0 <= n <= |ranked| && top == Keys(ranked[..n])
    ensures |top| == n
    ensures forall i :: 0 <= i < n ==> top[i] == ranked[i].key && ranked[i] in m
    ensures forall i :: 0 <= i < n ==> Budget(m, top[i]) == ranked[i].value.budget
  {
    forall i | 0 <= i < n ensures top[i] == ranked[i].key && ranked[i] in m {
      assert ranked[..n][i] == ranked[i];
      assert ranked[i] in ranked;
    }
    forall i | 0 <= i < n ensures Budget(m, top[i]) == ranked[i].value.budget {
      EntryLookup(m, ranked[i]);
    }
  }

  lemma TopFacts(m: Dict<Record>, ranked: Dict<Record>, n: int, top: seq<string>)
    requires DistinctKeys(m) && DistinctKeys(ranked) && NonIncreasing(ranked)
    requires |ranked| == |m| && forall x :: x in ranked <==> x in m
    requires 0 <= n <= |ranked| && top == Keys(ranked[..n])
    ensures Distinct(top)
    ensures forall k :: k in top ==> k in Keys(m)
    ensures forall i, j :: 0 <= i < j < |top| ==> Budget(m, top[i]) >= Budget(m, top[j])
    ensures forall e, k :: e in m && e.key !in top && k in top ==> e.value.budget <= Budget(m, k)
  {
    TopEntries(m, ranked, n, top);
    forall k | k in top ensures k in Keys(m) {
      var i :| 0 <= i < n && top[i] == k;
      var p :| 0 <= p < |m| && m[p] == ranked[i];
      assert Keys(m)[p] == k;
    }
    forall e, k | e in m && e.key !in top && k in top ensures e.value.budget <= Budget(m, k) {
      TopLeftOut(ranked, n, top, e, k);
    }
  }

  /**
   * Ties at the cut are settled by key order: of two categories with equal totals, the one
   * that comes first in the object is in the top ten whenever the later one is.
   */
  lemma Top10TakesEarlierTie(m: Dict<Record>, p: int, q: int)
    requires DistinctKeys(m) && 0 <= p < q < |m|
    requires m[p].value.budget == m[q].value.budget
    requires m[q].key in Top10Categories(m)
    ensures m[p].key in Top10Categories(m)
  {
    var ranked := RankByBudget(m);
    RankByBudgetStable(m, p, q);
    PrefixTakesEarlier(m, ranked, Min(10, |m|), Top10Categories(m), p, q);
  }

  /** If `m[q]` is among the first `n` ranks and `m[p]` is ranked before it, so is `m[p]`. */
  lemma PrefixTakesEarlier(m: Dict<Record>, ranked: Dict<Record>, n: int, top: seq<string>, p: int, q: int)
    requires DistinctKeys(m) && 0 <= p < |m| && 0 <= q < |m|
    requires forall x :: x in ranked <==> x in m
    requires 0 <= n <= |ranked| && top == Keys(ranked[..n])
    requires IndexOf(ranked, m[p]) < IndexOf(ranked, m[q])
    requires m[q].key in top
    ensures m[p].key in top
  {
    var i :| 0 <= i < n && top[i] == m[q].key;
    assert ranked[..n][i] == ranked[i] && ranked[i] in ranked;
    var a :| 0 <= a < |m| && m[a] == ranked[i];
    assert a == q;
    IndexOfAtMost(ranked, m[q], i);
    var j := IndexOf(ranked, m[p]);
    assert ranked[..n][j] == m[p];
  }

  /** An entry whose key is not among the first `n` ranks at `n` or after, so totals no more. */
  lemma TopLeftOut(ranked: Dict<Record>, n: int, top: seq<string>, e: Entry<Record>, k: string)
    requires NonIncreasing(ranked) && 0 <= n <= |ranked| && |top| == n
    requires forall i :: 0 <= i < n ==> top[i] == ranked[i].key
    requires e in ranked && e.key !in top && k in top
    ensures exists q :: 0 <= q < n && top[q] == k && e.value.budget <= ranked[q].value.budget
  {
    var p :| 0 <= p < |ranked| && ranked[p] == e;
    var q :| 0 <= q < n && top[q] == k;
  }

  // Pairing with the averages -----------------------------------------------------------------

  /** The entries of `m` whose key is one of `top`, in the order of `m`. */
  function Selected(m: Dict<Record>, top: seq<string>): (sel: Dict<Record>)
    ensures forall e :: e in sel <==> e in m && e.key in top
  {
    if m == [] then []
    else
      var init, last := m[..|m| - 1], m[|m| - 1];
      assert m == init + [last];
      Selected(init, top) + (if last.key in top then [last] else [])
  }

  /** Every record taken into the pairing has an average for its category. */
  ghost predicate HasAverages(m: Dict<Record>, top: seq<string>, averages: Dict<real>) {
    forall e :: e in m && e.key in top ==> e.value.category in Keys(averages)
  }

  /** `Object.assign({}, datum, {State: 'Average', 'Total Budget': averages[datum.Category]})`. */
  function AverageCopy(datum: Record, averages: Dict<real>): (copy: Record)
    requires datum.category in Keys(averages)
    ensures copy.state == "Average" && copy.category == datum.category
    ensures Get(averages, datum.category) == Some(copy.budget)
  {
    GetNone(averages, datum.category);
    datum.(state := "Average", budget := Get(averages, datum.category).value)
  }

  /** The array the pairing reduce builds: each selected record, then its average copy. */
  function Paired(m: Dict<Record>, top: seq<string>, averages: Dict<real>): (rows: seq<Record>)
    requires HasAverages(m, top, averages)
    ensures |rows| == 2 * |Selected(m, top)|
  {
    if m == [] then []
    else
      var init, last := m[..|m| - 1], m[|m| - 1];
      assert m == init + [last];
      Paired(init, top, averages) + (if last.key in top then [last.value, AverageCopy(last.value, averages)] else [])
  }

  /**
   * The pairing holds two rows per selected entry, in the order of `m`: the entry's record,
   * immediately followed by its average copy.
   */
  lemma {:induction false} PairedShape(m: Dict<Record>, top: seq<string>, averages: Dict<real>)
    requires HasAverages(m, top, averages)
    ensures |Paired(m, top, averages)| == 2 * |Selected(m, top)|
    ensures forall k :: 0 <= k < |Selected(m, top)| ==>
      Paired(m, top, averages)[2 * k] == Selected(m, top)[k].value &&
      Paired(m, top, averages)[2 * k + 1] == AverageCopy(Selected(m, top)[k].value, averages)
  {
    if m != [] {
      var init, last := m[..|m| - 1], m[|m| - 1];
      assert m == init + [last];
      PairedShape(init, top, averages);
    }
  }

  /**
   * `filteredDataArrayWithAverage`: for every key of `m` taken into the top ten, in the order
   * of `m`, its record immediately followed by the average copy; nothing for any other key.
   */
  method PairWithAverages(m: Dict<Record>, top: seq<string>, averages: Dict<real>) returns (rows: seq<Record>)
    requires DistinctKeys(m)
    requires HasAverages(m, top, averages)
    ensures rows == Paired(m, top, averages)
    ensures |rows| == 2 * |Selected(m, top)|
    ensures forall k :: 0 <= k < |Selected(m, top)| ==>
      rows[2 * k] == Selected(m, top)[k].value && rows[2 * k + 1] == AverageCopy(Selected(m, top)[k].value, averages)
  {
    rows := [];
    var keys := Keys(m);
    for i := 0 to |keys|
      invariant rows == Paired(m[..i], top, averages)
    {
      var key := keys[i];
      assert m[..i + 1][..i] == m[..i];
      GetAt(m, i);
      if IndexOf(top, key) > -1 {
        var datum := Get(m, key).value;
        rows := rows + [datum];
        rows := rows + [AverageCopy(datum, averages)];
      }
    }
    assert m[..|m|] == m;
    PairedShape(m, top, averages);
  }

  /** The selection lists entries in the order of `m`. */
  lemma {:induction false} SelectedOrder(m: Dict<Record>, top: seq<string>, i: int, j: int)
    requires DistinctKeys(m) && 0 <= i < j < |Selected(m, top)|
    ensures IndexOf(Keys(m), Selected(m, top)[i].key) < IndexOf(Keys(m), Selected(m, top)[j].key)
  {
    var init, last := m[..|m| - 1], m[|m| - 1];
    assert m == init + [last];
    var s := Selected(init, top);
    var sel := s + (if last.key in top then [last] else []);
    assert Selected(m, top) == sel;
    SelectedInit(m, init, last);
    var x, y := sel[i], sel[j];
    assert x == s[i] && x in s;
    IndexOfAppend(Keys(init), last.key, x.key);
    IndexOfAppend(Keys(init), last.key, y.key);
    KeyOfEntry(init, x);
    if j < |s| {
      SelectedOrder(init, top, i, j);
    }
  }

  /** Splitting off the last entry: the keys of `m` are those of the rest, then the last key, which is new. */
  lemma SelectedInit(m: Dict<Record>, init: Dict<Record>, last: Entry<Record>)
    requires DistinctKeys(m) && m == init + [last]
    ensures DistinctKeys(init) && Keys(m) == Keys(init) + [last.key] && last.key !in Keys(init)
  {
    assert forall q :: 0 <= q < |init| ==> m[q] == init[q];
    assert Keys(m) == Keys(init) + [last.key];
    forall q | 0 <= q < |init| ensures Keys(init)[q] != last.key {
      assert m[|init|] == last;
    }
  }

  lemma KeyOfEntry(d: Dict<Record>, e: Entry<Record>)
    requires e in d
    ensures e.key in Keys(d)
  {
    var p :| 0 <= p < |d| && d[p] == e;
    assert Keys(d)[p] == e.key;
  }

  /** The number of entries of `m` taken into the pairing is the number of top keys. */
  lemma SelectedCount(m: Dict<Record>, top: seq<string>)
    requires DistinctKeys(m) && Distinct(top)
    requires forall k :: k in top ==> k in Keys(m)
    ensures |Selected(m, top)| == |top|
  {
    var sel := Selected(m, top);
    var ks := Keys(sel);
    assert Distinct(ks) by {
      forall i, j | 0 <= i < j < |sel| ensures sel[i].key != sel[j].key {
        SelectedOrder(m, top, i, j);
      }
    }
    assert (set x | x in ks) == (set x | x in top) by {
      forall x | x in top ensures x in ks {
        var p :| 0 <= p < |m| && Keys(m)[p] == x;
        assert m[p] in sel;
        var i :| 0 <= i < |sel| && sel[i] == m[p];
        assert ks[i] == x;
      }
    }
    DistinctCardinality(ks);
    DistinctCardinality(top);
  }

  /**
   * The computations of the state's detail chart, in the source's order, and what the chart
   * receives: two rows for each of the top ten categories (at most ten), the state's record
   * and then its all-jurisdiction average, in the order the categories first occur.
   */
  method DetailChartData(data: seq<Record>, state: string)
    returns (totals: Dict<real>, averages: Dict<real>, byCategory: Dict<Record>, top: seq<string>, rows: seq<Record>)
    ensures IsGroupTotals(Categories, data, totals)
    ensures Keys(averages) == Keys(totals) && DistinctKeys(averages)
    ensures IsCategoryRecords(state, FilterState(data, state), byCategory)
    ensures DistinctKeys(byCategory) && top == Top10Categories(byCategory)
    ensures HasAverages(byCategory, top, averages) && rows == Paired(byCategory, top, averages)
    ensures |rows| == 2 * |top|
    ensures forall i, j :: 0 <= i < j < |top| ==>
      IndexOf(Keys(byCategory), rows[2 * i].category) < IndexOf(Keys(byCategory), rows[2 * j].category)
    ensures forall i, j :: 0 <= i < j < |top| ==> rows[2 * i].category != rows[2 * j].category
    ensures forall k :: 0 <= k < |top| ==>
      && rows[2 * k].category in top
      && rows[2 * k] == Record(state, rows[2 * k].category, GroupTotal(Categories, FilterState(data, state), rows[2 * k].category))
      && rows[2 * k + 1] == Record("Average", rows[2 * k].category, GroupTotal(Categories, data, rows[2 * k].category) / NUM_JURISDICTIONS as real)
  {
    totals := TotalsByCategory(data);
    averages := AveragesAcrossJurisdictions(totals);
    byCategory := CategoryRecordsForState(data, state);
    CategoryRecordsMeaning(data, state, byCategory);
    top := Top10Categories(byCategory);
    assert HasAverages(byCategory, top, averages) by {
      forall e | e in byCategory && e.key in top ensures e.value.category in Keys(averages) {
        AverageOfCategoryRecord(data, state, totals, averages, byCategory, e);
      }
    }
    rows := PairWithAverages(byCategory, top, averages);
    SelectedCount(byCategory, top);
    forall k | 0 <= k < |top|
      ensures rows[2 * k].category in top
      ensures rows[2 * k] == Record(state, rows[2 * k].category, GroupTotal(Categories, FilterState(data, state), rows[2 * k].category))
      ensures rows[2 * k + 1] == Record("Average", rows[2 * k].category, GroupTotal(Categories, data, rows[2 * k].category) / NUM_JURISDICTIONS as real)
    {
      var e := Selected(byCategory, top)[k];
      assert e in byCategory && e.key in top;
      AverageOfCategoryRecord(data, state, totals, averages, byCategory, e);
    }
    forall i, j | 0 <= i < j < |top|
      ensures IndexOf(Keys(byCategory), rows[2 * i].category) < IndexOf(Keys(byCategory), rows[2 * j].category)
      ensures rows[2 * i].category != rows[2 * j].category
    {
      var sel := Selected(byCategory, top);
      assert sel[i] in byCategory && sel[j] in byCategory;
      AverageOfCategoryRecord(data, state, totals, averages, byCategory, sel[i]);
      AverageOfCategoryRecord(data, state, totals, averages, byCategory, sel[j]);
      SelectedOrder(byCategory, top, i, j);
    }
  }

  /** A state's category record has an average, the total of its category over all records / 9. */
  lemma AverageOfCategoryRecord(data: seq<Record>, state: string, totals: Dict<real>, averages: Dict<real>,
                                byCategory: Dict<Record>, e: Entry<Record>)
    requires IsGroupTotals(Categories, data, totals)
    requires Keys(averages) == Keys(totals) && DistinctKeys(averages)
    requires forall i :: 0 <= i < |averages| ==>
      averages[i] == Entry(totals[i].key, totals[i].value / NUM_JURISDICTIONS as real)
    requires IsCategoryRecords(state, FilterState(data, state), byCategory)
    requires e in byCategory
    ensures e.value == Record(state, e.key, GroupTotal(Categories, FilterState(data, state), e.key))
    ensures e.value.category in Keys(averages)
    ensures Get(averages, e.value.category) == Some(GroupTotal(Categories, data, e.key) / NUM_JURISDICTIONS as real)
  {
    CategoryRecordsMeaning(data, state, byCategory);
    var i :| 0 <= i < |byCategory| && byCategory[i] == e;
    assert e.key in Keys(byCategory) by {
      assert Keys(byCategory)[i] == e.key;
    }
    var r :| r in data && r.state == state && r.category == e.key;
    AverageOfCategory(data, totals, averages, e.key);
  }
}
