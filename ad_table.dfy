/** The table's data-side logic (app/components/VideoAdTable.tsx): the cell
    formatters and their `-` for missing values, the two windowed cells, and
    the advanced threshold filter applied to the materials before they reach
    the table. */
module AdTable {
  import opened Wrappers
  import opened SeqUtil
  import opened JsNumbers
  import opened JsNumberFacts
  import opened CurveWindow

  /** A material as the filter and the windowed cells see it. Numeric fields
      may be `undefined` at run time (the mock data leaves them out), so they
      are `Option<real>`. The other display-only fields are not modelled. */
  datatype Material = Material(
    id: string,
    name: string,
    spend: Option<real>,
    roi: Option<real>,
    consumptionCurve: seq<Sample>,
    roiCurve: seq<Sample>)

  /** What a cell shows: the `-` sentinel, or a number with a fixed count of
      decimals between a prefix and a suffix. */
  datatype Cell = Dash | Shown(prefix: string, amount: real, decimals: nat, suffix: string)

  /** `formatNumber(value, decimalPlaces)`. */
  function FormatNumber(v: Option<real>, decimals: nat): Cell {
    match v
    case None => Dash
    case Some(x) => Shown("", x, decimals, "")
  }

  /** `formatCurrency(value)`: a `¥` before two decimals. */
  function FormatCurrency(v: Option<real>): Cell {
    match v
    case None => Dash
    case Some(x) => Shown("¥", x, 2, "")
  }

  /** `formatPercentage(value)`: the value times 100, two decimals, then `%`. */
  function FormatPercentage(v: Option<real>): Cell {
    match v
    case None => Dash
    case Some(x) => Shown("", x * 100.0, 2, "%")
  }

  /** The recent-consumption cell: `-` without samples in the window, else the
      window's total as currency. */
  function RecentConsumptionCell(m: Material, minutes: int, now: int): Cell {
    match RecentConsumption(m.consumptionCurve, minutes, now)
    case None => Dash
    case Some(total) => FormatCurrency(Some(total))
  }

  /** The recent-ROI cell: `-` without samples in the window, else the
      window's mean with two decimals. */
  function RecentROICell(m: Material, minutes: int, now: int): Cell {
    match RecentROI(m.roiCurve, minutes, now)
    case None => Dash
    case Some(mean) => FormatNumber(Some(mean), 2)
  }

  /** The text of the four boxes of the advanced filter. */
  datatype Thresholds = Thresholds(
    spendFilter: string,
    roiFilter: string,
    recentSpendFilter: string,
    recentRoiFilter: string)

  const NoThresholds := Thresholds("", "", "", "")

  /** One clause of the filter: an empty box imposes nothing, any other text
      requires `value >= parseFloat(text)`. */
  predicate Meets(value: Option<real>, text: string) {
    text == "" || AtLeast(value, ParseFloat(text))
  }

  /** The filter predicate as the source writes it: its recent clauses read
      `material.recentConsumption` and `material.recentROI`, properties no
      material has, so they compare `undefined`. */
  predicate PassesAsWritten(m: Material, t: Thresholds) {
    && Meets(m.spend, t.spendFilter)
    && Meets(m.roi, t.roiFilter)
    && Meets(None, t.recentSpendFilter)
    && Meets(None, t.recentRoiFilter)
  }

  function FilterAsWritten(materials: seq<Material>, t: Thresholds): seq<Material> {
    Filter(PassesAsWrittenFor(t), materials)
  }

  function PassesAsWrittenFor(t: Thresholds): Material -> bool { (m: Material) => PassesAsWritten(m, t) }

  /** The filter predicate as intended: the recent clauses compare the
      windowed aggregates the table shows, for the table's window and clock;
      a material with no data in the window does not meet a recent bound. */
  predicate Passes(m: Material, t: Thresholds, minutes: int, now: int) {
    && Meets(m.spend, t.spendFilter)
    && Meets(m.roi, t.roiFilter)
    && Meets(RecentConsumption(m.consumptionCurve, minutes, now), t.recentSpendFilter)
    && Meets(RecentROI(m.roiCurve, minutes, now), t.recentRoiFilter)
  }

  /** `materials.filter(...)` with the intended predicate. */
  function FilterMaterials(materials: seq<Material>, t: Thresholds, minutes: int, now: int): seq<Material> {
    Filter(PassesFor(t, minutes, now), materials)
  }

  function PassesFor(t: Thresholds, minutes: int, now: int): Material -> bool {
    (m: Material) => Passes(m, t, minutes, now)
  }

  // ----- cells -----

  /** Every formatter shows `-` exactly for a missing value and never for a
      number, whatever the number (0 included). */
  lemma FormattersDashOnlyForMissing(v: Option<real>, decimals: nat)
    ensures FormatNumber(v, decimals) == Dash <==> v.None?
    ensures FormatCurrency(v) == Dash <==> v.None?
    ensures FormatPercentage(v) == Dash <==> v.None?
    ensures v.Some? ==>
              && FormatPercentage(v).amount == 100.0 * v.value
              && FormatCurrency(v).amount == v.value
              && FormatCurrency(v).prefix == "¥"
  {
  }

  /** The recent-consumption cell shows `-` exactly when no consumption
      sample lies in the window, and otherwise the sum of exactly the
      in-window values as currency. */
  lemma RecentConsumptionCellShowsWindowSum(m: Material, minutes: int, now: int)
    ensures RecentConsumptionCell(m, minutes, now) == Dash
            <==> forall i :: 0 <= i < |m.consumptionCurve| ==> !InWindow(m.consumptionCurve[i], minutes, now)
    ensures RecentConsumptionCell(m, minutes, now) != Dash
            ==> RecentConsumptionCell(m, minutes, now)
                == Shown("¥", WindowSum(m.consumptionCurve, minutes, now), 2, "")
  {
    RecentConsumptionIsWindowSum(m.consumptionCurve, minutes, now);
  }

  /** The recent-ROI cell shows `-` exactly when no ROI sample lies in the
      window, and otherwise the mean of the in-window values, two decimals. */
  lemma RecentROICellShowsWindowMean(m: Material, minutes: int, now: int)
    ensures RecentROICell(m, minutes, now) == Dash
            <==> forall i :: 0 <= i < |m.roiCurve| ==> !InWindow(m.roiCurve[i], minutes, now)
    ensures RecentROICell(m, minutes, now) != Dash
            ==> WindowCount(m.roiCurve, minutes, now) > 0
                && RecentROICell(m, minutes, now)
                == Shown("", WindowSum(m.roiCurve, minutes, now) / (WindowCount(m.roiCurve, minutes, now) as real), 2, "")
  {
    RecentROIIsWindowMean(m.roiCurve, minutes, now);
  }

  // ----- the threshold filter -----

  /** The filter keeps an order-preserving subsequence of the materials, and
      keeps a material exactly when every non-empty box holds with `>=`. */
  lemma FilterMaterialsSelects(materials: seq<Material>, t: Thresholds, minutes: int, now: int)
    ensures IsSubsequence(FilterMaterials(materials, t, minutes, now), materials)
    ensures forall m :: m in FilterMaterials(materials, t, minutes, now) <==>
      && m in materials
      && (t.spendFilter == "" || AtLeast(m.spend, ParseFloat(t.spendFilter)))
      && (t.roiFilter == "" || AtLeast(m.roi, ParseFloat(t.roiFilter)))
      && (t.recentSpendFilter == ""
          || AtLeast(RecentConsumption(m.consumptionCurve, minutes, now), ParseFloat(t.recentSpendFilter)))
      && (t.recentRoiFilter == ""
          || AtLeast(RecentROI(m.roiCurve, minutes, now), ParseFloat(t.recentRoiFilter)))
  {
    FilterIsSubsequence(PassesFor(t, minutes, now), materials);
    FilterMembers(PassesFor(t, minutes, now), materials);
  }

  /** Filtering the filtered list again changes nothing. */
  lemma FilterMaterialsIdempotent(materials: seq<Material>, t: Thresholds, minutes: int, now: int)
    ensures FilterMaterials(FilterMaterials(materials, t, minutes, now), t, minutes, now)
            == FilterMaterials(materials, t, minutes, now)
  {
    FilterIdempotent(PassesFor(t, minutes, now), materials);
  }

  /** With all four boxes empty the list is passed on unchanged. */
  lemma EmptyThresholdsKeepAll(materials: seq<Material>, minutes: int, now: int)
    ensures FilterMaterials(materials, NoThresholds, minutes, now) == materials
  {
    FilterKeepsAll(PassesFor(NoThresholds, minutes, now), materials);
  }

  /** Text that `parseFloat` reads as NaN in a box does not switch the
      clause off: no material meets it, so nothing is kept. */
  lemma UnparsableThresholdKeepsNothing(materials: seq<Material>, t: Thresholds, minutes: int, now: int)
    requires t.spendFilter != "" && ParseFloat(t.spendFilter) == NaN
    ensures FilterMaterials(materials, t, minutes, now) == []
  {
    FilterKeepsNone(PassesFor(t, minutes, now), materials);
  }

  /** A material whose spend is `undefined` fails any non-empty spend box. */
  lemma MissingSpendFails(m: Material, t: Thresholds, minutes: int, now: int)
    requires m.spend.None? && t.spendFilter != ""
    ensures FilterMaterials([m], t, minutes, now) == []
  {
  }

  /** As written, any text in either recent box removes every material. */
  lemma RecentThresholdAsWrittenKeepsNothing(materials: seq<Material>, t: Thresholds)
    requires t.recentSpendFilter != "" || t.recentRoiFilter != ""
    ensures FilterAsWritten(materials, t) == []
  {
    FilterKeepsNone(PassesAsWrittenFor(t), materials);
  }

  /** The input that shows it: one material with 100 of consumption in the
      last 30 minutes and a recent-spend bound of 50 is dropped by the filter
      as written and kept by the intended one. */
  lemma RecentThresholdCounterexample()
    ensures var m := Material("1", "视频广告 1", Some(10.0), Some(2.0), [Sample(1000, 100.0)], [Sample(1000, 1.5)]);
            var t := Thresholds("", "", "50", "");
            FilterAsWritten([m], t) == [] && FilterMaterials([m], t, 30, 1000) == [m]
  {
    var m := Material("1", "视频广告 1", Some(10.0), Some(2.0), [Sample(1000, 100.0)], [Sample(1000, 1.5)]);
    var t := Thresholds("", "", "50", "");
    FiftyParses();
    OneSampleWindow(Sample(1000, 100.0), 30, 1000);
    assert Passes(m, t, 30, 1000);
    assert !PassesAsWritten(m, t);
  }

  lemma FiftyParses()
    ensures ParseFloat("50") == Finite(50.0)
  {
    assert Decimal(50) == "50";
    ParseFloatDecimal(50);
  }

  /** A curve of one sample inside the window aggregates to that sample's value. */
  lemma OneSampleWindow(s: Sample, minutes: int, now: int)
    requires InWindow(s, minutes, now)
    ensures RecentConsumption([s], minutes, now) == Some(s.value)
  {
    assert RecentData([s], minutes, now) == [s];
    assert Total([s]) == Total([]) + s.value;
  }

  /** The two predicates differ only in the recent clauses: with both recent
      boxes empty they filter alike. */
  lemma AsWrittenAgreesWithoutRecentBounds(materials: seq<Material>, t: Thresholds, minutes: int, now: int)
    requires t.recentSpendFilter == "" && t.recentRoiFilter == ""
    ensures FilterAsWritten(materials, t) == FilterMaterials(materials, t, minutes, now)
  {
    FilterAgree(PassesAsWrittenFor(t), PassesFor(t, minutes, now), materials);
  }

  /** With the intended predicate, a material with no consumption sample in
      the window fails a non-empty recent-spend bound ("no data" is not 0). */
  lemma NoRecentDataFailsRecentBound(m: Material, t: Thresholds, minutes: int, now: int)
    requires t.recentSpendFilter != ""
    requires forall i :: 0 <= i < |m.consumptionCurve| ==> !InWindow(m.consumptionCurve[i], minutes, now)
    ensures FilterMaterials([m], t, minutes, now) == []
  {
    RecentConsumptionIsWindowSum(m.consumptionCurve, minutes, now);
  }
}
