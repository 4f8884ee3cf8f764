/** The dashboard page (app/page.tsx): the set of active metric filters,
    the above-average material filter, the view-field selection and the cards
    it shows, and the mock time-series generator. The series values are
    `{ timestamp, value }` points, the same pairs as a material's curves. */
module Dashboard {
  import opened Wrappers
  import opened SeqUtil
  import opened JsNumbers
  import opened CurveWindow

  /** The ids of `viewFields`, in their order (also the metric names). */
  const ViewFieldIds: seq<string> := [
    "totalSpend", "totalRevenue", "totalROI", "materialConversionRate",
    "liveStreamRevenue", "liveStreamSpend", "liveStreamROI", "ctr",
    "conversionRate", "cpm"]

  /** The step of the generated series: 10 minutes in milliseconds. */
  const StepMs: int := 10 * 60 * 1000

  /** A material as the dashboard filter sees it: its metric values by name. */
  datatype MaterialMetrics = MaterialMetrics(id: string, metrics: map<string, real>)

  /** What `fetchData` resolves to: a series per metric and the materials. */
  datatype DashboardData = DashboardData(series: map<string, seq<Sample>>, materials: seq<MaterialMetrics>)

  // ----- active metric filters -----

  /** The set after `toggleFilter(metric)`. */
  function Toggled(active: set<string>, metric: string): set<string> {
    if metric in active then active - {metric} else active + {metric}
  }

  /** The mean of a series, `reduce(sum + value, 0) / length`; an empty
      series gives `0 / 0`, which is NaN. */
  function Mean(series: seq<Sample>): JsNum {
    if |series| == 0 then NaN else Finite(Total(series) / (|series| as real))
  }

  /** A material's value for a metric; `undefined` when it has none. */
  function Metric(m: MaterialMetrics, metric: string): Option<real> {
    if metric in m.metrics then Some(m.metrics[metric]) else None
  }

  /** Whether a material is at or above the mean of every active metric. */
  function AboveAverage(data: DashboardData, active: set<string>): MaterialMetrics -> bool
    requires active <= data.series.Keys
  {
    (m: MaterialMetrics) => forall f | f in active :: AtLeast(Metric(m, f), Mean(data.series[f]))
  }

  /** `filteredMaterials`: `undefined` without data, every material without
      active filters, otherwise the materials at or above every active
      metric's mean, in their order. Every active metric must have a series
      (the page only activates metrics it has). */
  function FilteredMaterials(data: Option<DashboardData>, active: set<string>): Option<seq<MaterialMetrics>>
    requires data.Some? ==> active <= data.value.series.Keys
  {
    if data.None? then None
    else if |active| == 0 then Some(data.value.materials)
    else Some(Filter(AboveAverage(data.value, active), data.value.materials))
  }

  // ----- view fields -----

  /** The selection after the checkbox of `field` reports `checked`. */
  function CheckedChange(selected: seq<string>, field: string, checked: bool): seq<string> {
    if checked then selected + [field] else Filter(Other(field), selected)
  }

  function Other(field: string): string -> bool { (id: string) => id != field }

  function InSelection(selected: seq<string>): string -> bool { (id: string) => id in selected }

  /** The cards shown: the view fields in their own order, those selected. */
  function DisplayedCards(selected: seq<string>): seq<string> {
    Filter(InSelection(selected), ViewFieldIds)
  }

  /** The page's filter and selection state. */
  class DashboardState {
    var activeFilters: set<string>
    var selectedFields: seq<string>

    /** No filter active, every view field selected. */
    constructor()
      ensures activeFilters == {} && selectedFields == ViewFieldIds
    {
      activeFilters := {};
      selectedFields := ViewFieldIds;
    }

    /** `toggleFilter(metric)`: copy the set, then delete or add. */
    method ToggleFilter(metric: string)
      modifies this
      ensures activeFilters == Toggled(old(activeFilters), metric)
      ensures metric in activeFilters <==> metric !in old(activeFilters)
      ensures forall x :: x != metric ==> (x in activeFilters <==> x in old(activeFilters))
      ensures selectedFields == old(selectedFields)
    {
      var newFilters := activeFilters;
      if metric in newFilters {
        newFilters := newFilters - {metric};
      } else {
        newFilters := newFilters + {metric};
      }
      activeFilters := newFilters;
    }

    /** `onCheckedChange(checked)` of the checkbox of `field`. */
    method OnCheckedChange(field: string, checked: bool)
      modifies this
      ensures selectedFields == CheckedChange(old(selectedFields), field, checked)
      ensures activeFilters == old(activeFilters)
    {
      if checked {
        selectedFields := selectedFields + [field];
      } else {
        selectedFields := Filter(Other(field), selectedFields);
      }
    }
  }

  // ----- the mock series -----

  /** `generateTimeSeriesData(baseValue)` for the day `[start, end]`: a point
      every 10 minutes from `start` while it is not past `end`. `rand(i)`
      stands for the `i`-th `Math.random()` draw. */
  method GenerateTimeSeries(start: int, end: int, baseValue: real, rand: nat -> real) returns (data: seq<Sample>)
    ensures start > end ==> data == []
    ensures start <= end ==> |data| == (end - start) / StepMs + 1
    ensures forall i :: 0 <= i < |data| ==>
              data[i].timestamp == start + i * StepMs && data[i].timestamp <= end
    ensures forall i :: 0 <= i < |data| ==> data[i].value == baseValue + rand(i) * baseValue * 0.1
    ensures forall i, j :: 0 <= i < j < |data| ==> data[i].timestamp < data[j].timestamp
  {
    data := [];
    var currentTime := start;
    while currentTime <= end
      invariant currentTime == start + |data| * StepMs
      invariant |data| > 0 ==> start + (|data| - 1) * StepMs <= end
      invariant forall i :: 0 <= i < |data| ==>
                  data[i] == Sample(start + i * StepMs, baseValue + rand(i) * baseValue * 0.1)
      decreases end - currentTime
    {
      data := data + [Sample(currentTime, baseValue + rand(|data|) * baseValue * 0.1)];
      currentTime := currentTime + StepMs;
    }
    if start <= end {
      StepCount(end - start, |data|);
    }
  }

  lemma StepCount(d: int, n: int)
    requires 0 <= d && n >= 1
    requires (n - 1) * StepMs <= d < n * StepMs
    ensures d / StepMs == n - 1
  {
  }

  // ----- facts -----

  /** Toggling adds a missing metric, removes a present one and leaves every
      other metric as it was; toggling twice restores the set. */
  lemma ToggledSpec(active: set<string>, metric: string)
    ensures metric in Toggled(active, metric) <==> metric !in active
    ensures forall x :: x != metric ==> (x in Toggled(active, metric) <==> x in active)
    ensures Toggled(Toggled(active, metric), metric) == active
  {
  }

  /** Without data the list is `undefined`; without active filters it is the
      material list unchanged. */
  lemma NoFilterKeepsAll(data: Option<DashboardData>)
    ensures FilteredMaterials(data, {}) == if data.None? then None else Some(data.value.materials)
  {
  }

  /** With active filters a material is kept exactly when, for every active
      metric, the series is not empty and the material has a value at or
      above the series' mean; the kept materials keep their order. */
  lemma FilteredMaterialsSpec(data: DashboardData, active: set<string>)
    requires active <= data.series.Keys && active != {}
    ensures FilteredMaterials(Some(data), active).Some?
    ensures IsSubsequence(FilteredMaterials(Some(data), active).value, data.materials)
    ensures forall m :: m in FilteredMaterials(Some(data), active).value <==>
              m in data.materials
              && forall f | f in active ::
                   |data.series[f]| > 0 && f in m.metrics
                   && m.metrics[f] >= Total(data.series[f]) / (|data.series[f]| as real)
  {
    var p := AboveAverage(data, active);
    var r := FilteredMaterials(Some(data), active).value;
    assert |active| != 0;
    assert r == Filter(p, data.materials);
    FilterIsSubsequence(p, data.materials);
    FilterMembers(p, data.materials);
  }

  /** Activating more filters never lets more materials through: the
      result for the larger set is a subsequence of the one for the smaller. */
  lemma MoreFiltersKeepFewer(data: DashboardData, small: set<string>, large: set<string>)
    requires small <= large <= data.series.Keys
    ensures IsSubsequence(FilteredMaterials(Some(data), large).value,
                          FilteredMaterials(Some(data), small).value)
  {
    if |large| == 0 {
      assert small == {};
      SubsequenceRefl(data.materials);
    } else if |small| == 0 {
      FilterIsSubsequence(AboveAverage(data, large), data.materials);
    } else {
      FilterStrengthen(AboveAverage(data, small), AboveAverage(data, large), data.materials);
    }
  }

  /** Checking a field puts it at the end of the selection; unchecking removes
      every occurrence of it and keeps the others in their order. */
  lemma CheckedChangeSpec(selected: seq<string>, field: string)
    ensures var r := CheckedChange(selected, field, true);
            |r| == |selected| + 1 && r[..|selected|] == selected && r[|selected|] == field
    ensures var r := CheckedChange(selected, field, false);
            && IsSubsequence(r, selected)
            && (forall x :: x in r <==> x in selected && x != field)
            && forall x :: x != field ==> multiset(r)[x] == multiset(selected)[x]
  {
    FilterIsSubsequence(Other(field), selected);
    FilterMembers(Other(field), selected);
    forall x | x != field ensures multiset(Filter(Other(field), selected))[x] == multiset(selected)[x] {
      FilterMultiplicity(Other(field), selected, x);
    }
  }

  /** Unchecking a field just checked restores the selection, when the field
      was not selected before. */
  lemma CheckThenUncheck(selected: seq<string>, field: string)
    requires field !in selected
    ensures CheckedChange(CheckedChange(selected, field, true), field, false) == selected
  {
    FilterConcat(Other(field), selected, [field]);
    FilterKeepsAll(Other(field), selected);
    assert Filter(Other(field), [field]) == [];
  }

  /** The cards are the selected view fields in `viewFields` order. */
  lemma DisplayedCardsSpec(selected: seq<string>)
    ensures IsSubsequence(DisplayedCards(selected), ViewFieldIds)
    ensures forall id :: id in DisplayedCards(selected) <==> id in ViewFieldIds && id in selected
  {
    FilterIsSubsequence(InSelection(selected), ViewFieldIds);
    FilterMembers(InSelection(selected), ViewFieldIds);
  }

  /** The cards depend on which fields are selected, not on the order in
      which they were selected nor on repetitions. */
  lemma DisplayedCardsIgnoreSelectionOrder(a: seq<string>, b: seq<string>)
    requires forall x :: x in a <==> x in b
    ensures DisplayedCards(a) == DisplayedCards(b)
  {
    SameSelectionFilters(a, b, ViewFieldIds);
  }

  lemma SameSelectionFilters(a: seq<string>, b: seq<string>, fields: seq<string>)
    requires forall x :: x in a <==> x in b
    ensures Filter(InSelection(a), fields) == Filter(InSelection(b), fields)
  {
    FilterAgree(InSelection(a), InSelection(b), fields);
  }

  /** Unchecking and re-checking a field moves it to the end of the selection
      but shows the same cards. */
  lemma UncheckThenCheckShowsSameCards(selected: seq<string>, field: string)
    requires field in selected
    ensures DisplayedCards(CheckedChange(CheckedChange(selected, field, false), field, true))
            == DisplayedCards(selected)
  {
    CheckedChangeSpec(selected, field);
    var r := CheckedChange(CheckedChange(selected, field, false), field, true);
    assert forall x :: x in r <==> x in selected;
    DisplayedCardsIgnoreSelectionOrder(r, selected);
  }
}
