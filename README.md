# Video ad dashboard: table, column layout, filters and time range

This project models the logic at the core of a Next.js advertising dashboard
and proves properties of that model. The dashboard shows video ad materials
in a table, metric cards above the table, and a time-range picker.

- **Windowed cells** (`CurveWindow`, `AdTable`): the table's
  "recent consumption" and "recent ROI" cells filter a material's
  `[timestamp, value]` curve to the window `[now - minutes * 60000, now]`,
  inclusive at both ends. The consumption cell then shows the sum of the
  filtered values, the ROI cell their mean, and either shows `-` when the
  window holds no sample. Both are proved equal to a reference definition
  that visits every sample once.
- **Formatters and the threshold filter** (`AdTable`): `formatNumber`,
  `formatCurrency` and `formatPercentage`, and the four-box advanced filter
  applied to the materials before they reach the table. It is modelled twice:
  once as written, and once as evidently intended (see "Findings").
- **Column layout** (`ColumnLayout`): the table's `columnOrder` and
  `columnVisibility` state is a class. Its methods are the checkbox and X
  button of the column selector, the selector's drag-to-reorder, the reset
  button and the table's own drag handler. The selector's lists are
  functions: all columns, selected columns, and search results.
- **Dashboard page** (`Dashboard`): the set of active metric filters and
  `toggleFilter`, and the above-average material filter. Also the view-field
  selection (`onCheckedChange`), the cards it shows, and the
  `generateTimeSeriesData` loop.
- **Time-range picker** (`TimeRange`): the `customMinutes`/`isCustomOpen`
  state, `handleCustomSubmit`, `onValueChange` and `getDisplayValue`.
- **JavaScript number conversions** (`JsNumbers`, `JsNumberFacts`):
  `parseInt` and `parseFloat` as the components use them. This covers
  leading white space, sign, the `0x` prefix, `Infinity`, fraction and
  exponent. A `JsNum` value (finite, ±Infinity or NaN) models comparisons
  with NaN and with `undefined`.

Values the browser supplies become parameters:

- `Date.now()` is `now`.
- The `i`-th `Math.random()` draw is `rand(i)`.
- The day bounds computed with `setHours` are `start` and `end`.
- The column definitions `table.getAllColumns()` returns are `cols`.

Three behaviours of the code a reader might not expect, all kept by the model:

- A threshold that `parseFloat` reads as NaN keeps no material. It does not
  switch its clause off. See `AdTable.UnparsableThresholdKeepsNothing`.
- A window of 0 minutes is `[now, now]`. It still counts a sample stamped
  exactly `now`. See `CurveWindow.ZeroMinuteWindowKeepsNow`.
- The selector's drag writes only the pinned pair and the visible columns
  into `columnOrder`, so hidden columns leave the order. See
  `ColumnLayout.SelectorOrderMembers`.

Two preconditions are not checks in the code:

- A drag's source index lies inside the list being dragged; the drag
  library only reports such indices. A destination past the end is
  clamped, as `splice` does.
- Every active dashboard metric has a series. This comes from the page's
  own wiring: it toggles only `viewFields` ids (app/page.tsx:289-290), and
  `fetchData` returns a series under each of them (app/page.tsx:46-55).

## Model

| member | source | states |
|---|---|---|
| CurveWindow.InWindow | app/components/VideoAdTable.tsx:265-268 | the window test `now - minutes * 60000 <= t <= now`, inclusive at both ends; `CurveWindow.ZeroMinuteWindowKeepsNow` and the rows below use it |
| CurveWindow.RecentData | app/components/VideoAdTable.tsx:267-269 | the in-window samples in curve order; `CurveWindow.EmptyWindowIffNoSample` and `CurveWindow.RecentDataMatchesReference` state that it is empty iff no sample is inside and that it sums and counts like the reference |
| CurveWindow.Total | app/components/VideoAdTable.tsx:273 | the left fold `sum + value` from 0; `CurveWindow.TotalCons` reads it from the front |
| CurveWindow.RecentConsumption | app/components/VideoAdTable.tsx:262-274 | the consumption cell's number or "no data"; `CurveWindow.RecentConsumptionIsWindowSum` states it is "no data" iff the window is empty and otherwise the reference sum |
| CurveWindow.RecentROI | app/components/VideoAdTable.tsx:281-293 | the ROI cell's number or "no data"; `CurveWindow.RecentROIIsWindowMean` and `CurveWindow.RecentROIBounded` state it is the reference mean and lies within the in-window bounds |
| AdTable.FormatNumber | app/components/VideoAdTable.tsx:209-212 | `-` for a missing value, else the value with fixed decimals; `AdTable.FormattersDashOnlyForMissing` states the `-` iff missing |
| AdTable.FormatCurrency | app/components/VideoAdTable.tsx:214-215 | `-` or `¥` and two decimals; `AdTable.FormattersDashOnlyForMissing` states the `-` iff missing and the prefix |
| AdTable.FormatPercentage | app/components/VideoAdTable.tsx:217-218 | `-` or 100 times the value with `%`; `AdTable.FormattersDashOnlyForMissing` states the `-` iff missing and the scaling |
| AdTable.RecentConsumptionCell | app/components/VideoAdTable.tsx:262-274 | the recent-consumption cell; `AdTable.RecentConsumptionCellShowsWindowSum` states what it shows |
| AdTable.RecentROICell | app/components/VideoAdTable.tsx:281-293 | the recent-ROI cell; `AdTable.RecentROICellShowsWindowMean` states what it shows |
| AdTable.Meets | app/components/VideoAdTable.tsx:732 | one clause: an empty box or `value >= parseFloat(text)`; `AdTable.UnparsableThresholdKeepsNothing` and `AdTable.MissingSpendFails` state its NaN and `undefined` cases |
| AdTable.PassesAsWritten | app/components/VideoAdTable.tsx:731-736 | the predicate as written, the recent clauses reading absent fields; `AdTable.RecentThresholdAsWrittenKeepsNothing` states its effect |
| AdTable.FilterAsWritten | app/components/VideoAdTable.tsx:730-737 | `materials.filter` with the written predicate; `AdTable.RecentThresholdCounterexample` and `AdTable.AsWrittenAgreesWithoutRecentBounds` relate it to the intended filter |
| AdTable.Passes | app/components/VideoAdTable.tsx:731-736 | the predicate with the recent clauses reading the windowed aggregates; `AdTable.FilterMaterialsSelects` spells it out clause by clause |
| AdTable.FilterMaterials | app/components/VideoAdTable.tsx:730-737 | the intended filter; `AdTable.FilterMaterialsSelects`, `AdTable.FilterMaterialsIdempotent` and `AdTable.EmptyThresholdsKeepAll` state what it keeps |
| ColumnLayout.Title | app/components/VideoAdTable.tsx:220-446 | a column's selector title, its string header or else its id (app/components/VideoAdTable.tsx:461-463) |
| ColumnLayout.ListedIds | app/components/VideoAdTable.tsx:457-458 | the declared ids without `preview` and `actions`; `ColumnLayout.ListedIdsSpec` states membership, order and distinctness |
| ColumnLayout.AllColumns | app/components/VideoAdTable.tsx:457-465 | the selector's list entries; `ColumnLayout.AllColumnsIds` states their ids |
| ColumnLayout.SelectedColumns | app/components/VideoAdTable.tsx:467 | the visible entries; `ColumnLayout.SelectedColumnsAreVisibleOnes` states order, membership and distinctness |
| ColumnLayout.FilteredColumns | app/components/VideoAdTable.tsx:469-471 | the entries whose lowered title includes the lowered term; `ColumnLayout.EmptySearchMatchesAll`, `ColumnLayout.SearchIgnoresCase` and `ColumnLayout.SearchNarrows` state its behaviour |
| ColumnLayout.SelectorOrder | app/components/VideoAdTable.tsx:473-482 | the order the selector's drag installs; `ColumnLayout.SelectorOrderSpec`, `ColumnLayout.SelectorOrderMembers` and `ColumnLayout.SelectorOrderNoDup` state it |
| ColumnLayout.TableDragOrder | app/components/VideoAdTable.tsx:764-778 | the order the table's drag installs; `ColumnLayout.TableDragOrderSpec`, `ColumnLayout.TableDragOrderNoDup` and `ColumnLayout.TableDragOrderPermutation` state it |
| ColumnLayout.ResetPrefix | app/components/VideoAdTable.tsx:540-544 | the visibility after the sweep's first `n` columns; `ColumnLayout.ResetPrefixSpec` states it |
| ColumnLayout.ResetVisibility | app/components/VideoAdTable.tsx:539-545 | the visibility after reset; `ColumnLayout.ResetHidesAllButPinned`, `ColumnLayout.ResetEmptiesSelection` and `ColumnLayout.ResetIdempotent` state it |
| SeqUtil.Move | app/components/VideoAdTable.tsx:477-478 | the two `splice` calls that move one element; `ColumnLayout.SelectorOrderSpec` states where the moved element lands and that the rest is a permutation |
| Dashboard.Toggled | app/page.tsx:135-145 | the set after `toggleFilter`; `Dashboard.ToggledSpec` states it |
| Dashboard.Mean | app/page.tsx:154 | a series' mean, NaN when empty; `Dashboard.FilteredMaterialsSpec` uses it |
| Dashboard.Metric | app/page.tsx:153 | `material[filter]`, `undefined` when absent |
| Dashboard.AboveAverage | app/page.tsx:152-156 | the `every` test over the active metrics; `Dashboard.FilteredMaterialsSpec` spells it out |
| Dashboard.FilteredMaterials | app/page.tsx:148-158 | `filteredMaterials`; `Dashboard.NoFilterKeepsAll`, `Dashboard.FilteredMaterialsSpec` and `Dashboard.MoreFiltersKeepFewer` state it |
| Dashboard.CheckedChange | app/page.tsx:99-104 | the selection after a checkbox change; `Dashboard.CheckedChangeSpec` and `Dashboard.CheckThenUncheck` state it |
| Dashboard.DisplayedCards | app/page.tsx:253-255 | the cards shown; `Dashboard.DisplayedCardsSpec` and `Dashboard.DisplayedCardsIgnoreSelectionOrder` state them |
| TimeRange.AcceptedMinutes | app/components/TimeRangeSelect.tsx:29-30 | the guard of the submit; `TimeRange.AcceptedIsPositive`, `TimeRange.DecimalSubmits`, `TimeRange.BlankRefused` and `TimeRange.LeadingNumeralSubmits` state what passes |
| TimeRange.DisplayValue | app/components/TimeRangeSelect.tsx:36-47 | `getDisplayValue()`; `TimeRange.DisplayValueSpec` and `TimeRange.DisplayValueInjective` state it |
| JsNumbers.ParseInt | app/components/TimeRangeSelect.tsx:29 | JavaScript `parseInt`, `None` for NaN; `JsNumberFacts.ParseIntDecimal`, `JsNumberFacts.ParseIntOfNumeral` and `JsNumberFacts.BlankIsNaN` state it on the inputs the components give it |
| JsNumbers.ParseFloat | app/components/VideoAdTable.tsx:732 | JavaScript `parseFloat`; `JsNumberFacts.ParseFloatDecimal` and `JsNumberFacts.BlankIsNaN` state it on decimal and blank inputs |
| JsNumbers.Decimal | app/components/TimeRangeSelect.tsx:45 | `${n}` for an integer below 10^21 in magnitude, written in full decimal digits; `JsNumberFacts.ParseIntDecimal` and `JsNumberFacts.ParseFloatDecimal` state that both parsers read it back |
| AdTable.FormattersDashOnlyForMissing | app/components/VideoAdTable.tsx:209-218 | each formatter shows `-` exactly for a missing value, never for a number (0 included); a percentage shows 100 times the value, currency carries `¥` |
| AdTable.RecentConsumptionCellShowsWindowSum | app/components/VideoAdTable.tsx:259-277 | the cell is `-` iff no consumption sample lies in the window, else the window's reference sum as currency |
| AdTable.RecentROICellShowsWindowMean | app/components/VideoAdTable.tsx:278-296 | the cell is `-` iff no ROI sample lies in the window, else the reference sum divided by the in-window count, two decimals |
| AdTable.FilterMaterialsSelects | app/components/VideoAdTable.tsx:730-737 | the intended filter keeps an order-preserving subsequence, and keeps a material iff every non-empty box holds with `>=` against its `parseFloat` |
| AdTable.FilterMaterialsIdempotent | app/components/VideoAdTable.tsx:730-737 | filtering the filtered list again changes nothing |
| AdTable.EmptyThresholdsKeepAll | app/components/VideoAdTable.tsx:730-737 | with the four boxes empty (their initial state) the materials pass unchanged |
| AdTable.UnparsableThresholdKeepsNothing | app/components/VideoAdTable.tsx:732 | a spend box whose text reads as NaN keeps no material |
| AdTable.MissingSpendFails | app/components/VideoAdTable.tsx:732 | a material with `undefined` spend fails any non-empty spend box |
| AdTable.RecentThresholdAsWrittenKeepsNothing | app/components/VideoAdTable.tsx:734-735 | as written, any text in either recent box removes every material |
| AdTable.RecentThresholdCounterexample | app/components/VideoAdTable.tsx:734-735 | one material with 100 of consumption in the last 30 minutes and a bound of 50 is dropped as written and kept as intended |
| AdTable.AsWrittenAgreesWithoutRecentBounds | app/components/VideoAdTable.tsx:730-737 | with both recent boxes empty the written and the intended filter agree |
| AdTable.NoRecentDataFailsRecentBound | app/components/VideoAdTable.tsx:734 | a material with no consumption sample in the window fails a non-empty recent-spend bound |
| AdTable.FiftyParses | app/components/VideoAdTable.tsx:734 | helper for the counterexample: `parseFloat("50")` is 50 |
| AdTable.OneSampleWindow | app/components/VideoAdTable.tsx:265-274 | a one-sample curve whose sample is in the window has that sample's value as its recent consumption |
| CurveWindow.RecentDataMatchesReference | app/components/VideoAdTable.tsx:267-273 | the left fold over the filtered samples equals the reference sum, and their count the reference count |
| CurveWindow.EmptyWindowIffNoSample | app/components/VideoAdTable.tsx:267-271 | the filtered list is empty iff no sample of the curve is in the window |
| CurveWindow.RecentConsumptionIsWindowSum | app/components/VideoAdTable.tsx:262-274 | recent consumption is "no data" iff no sample is in the window, otherwise exactly the sum of the in-window values |
| CurveWindow.RecentROIIsWindowMean | app/components/VideoAdTable.tsx:281-293 | recent ROI is "no data" iff no sample is in the window, otherwise the mean of the in-window values |
| CurveWindow.OutsideSampleIrrelevant | app/components/VideoAdTable.tsx:265-269 | replacing an out-of-window sample by another out-of-window sample changes neither aggregate |
| CurveWindow.OutsideSampleInsertIrrelevant | app/components/VideoAdTable.tsx:265-269 | inserting an out-of-window sample anywhere changes neither aggregate |
| CurveWindow.ZeroMinuteWindowKeepsNow | app/components/VideoAdTable.tsx:263-269 | with 0 minutes recent consumption has data iff some sample is stamped exactly `now` |
| CurveWindow.TotalCons | app/components/VideoAdTable.tsx:273 | the left-to-right sum starting at 0 can be read from the front |
| CurveWindow.TimesIsProduct | app/components/VideoAdTable.tsx:292 | helper for the mean bounds: `n` copies of `x` added up are `n * x` |
| CurveWindow.WindowSumBounds | app/components/VideoAdTable.tsx:292 | bounds on every in-window value bound the sum by count times the bounds |
| CurveWindow.MeanBetween | app/components/VideoAdTable.tsx:292 | helper for the mean bounds: a sum between `n` copies of `lo` and of `hi` has its mean between `lo` and `hi` |
| CurveWindow.DivMonotone | app/components/VideoAdTable.tsx:292 | helper for the mean bounds: dividing by a positive count keeps the order |
| CurveWindow.TimesQuotient | app/components/VideoAdTable.tsx:292 | helper for the mean bounds: `n` copies of `x` divided by `n` are `x` |
| CurveWindow.WindowMeanBounded | app/components/VideoAdTable.tsx:292 | bounds on the in-window values bound their mean |
| CurveWindow.RecentROIBounded | app/components/VideoAdTable.tsx:286-293 | the recent ROI lies between any lower and upper bound of the in-window values |
| ColumnLayout.TableView.constructor | app/components/VideoAdTable.tsx:676-706 | visibility starts empty (all visible) and the order is the 28 declared ids, which are distinct |
| ColumnLayout.TableView.SetColumnVisibility | app/components/VideoAdTable.tsx:517-520 | a known id gets the given visibility, an unknown id changes nothing, the order is untouched |
| ColumnLayout.TableView.SelectorDragEnd | app/components/VideoAdTable.tsx:473-484 | no destination changes nothing; otherwise the order becomes the pinned pair and the moved selection, keeping the two pinned first and no id twice |
| ColumnLayout.TableView.TableDragEnd | app/components/VideoAdTable.tsx:764-781 | no destination changes nothing; otherwise the order becomes the seven pinned ids and the other ids after the move, keeping no id twice |
| ColumnLayout.TableView.Reset | app/components/VideoAdTable.tsx:539-545 | the loop over the declared columns hides each one but `preview` and `actions`; the order is untouched |
| ColumnLayout.ColumnIdsDistinct | app/components/VideoAdTable.tsx:677-706 | no column id is declared twice |
| ColumnLayout.AllColumnsIds | app/components/VideoAdTable.tsx:457-465 | the listed ids are the declared ids without the pinned two, in declaration order |
| ColumnLayout.ListedIdsSpec | app/components/VideoAdTable.tsx:457-458 | an id is listed iff it is declared and not pinned; the list is a subsequence of the declarations, each id once |
| ColumnLayout.SelectedIds | app/components/VideoAdTable.tsx:467 | the selected ids are the visible listed ids, in order |
| ColumnLayout.SelectedMembers | app/components/VideoAdTable.tsx:467 | an id is selected iff it is declared, not pinned and visible |
| ColumnLayout.SelectedColumnsAreVisibleOnes | app/components/VideoAdTable.tsx:467 | the selection is an order-preserving subsequence of the list, holding exactly the visible entries, each id once |
| ColumnLayout.SelectedNoDup | app/components/VideoAdTable.tsx:467 | distinct declarations give a selection without repeats |
| ColumnLayout.EmptySearchMatchesAll | app/components/VideoAdTable.tsx:469-471 | an empty search term lists every column |
| ColumnLayout.SearchIgnoresCase | app/components/VideoAdTable.tsx:469-471 | terms equal up to ASCII case list the same columns |
| ColumnLayout.ContainsPrefix | app/components/VideoAdTable.tsx:470 | helper for the search lemmas: a string containing `a + b` contains `a` |
| ColumnLayout.SearchNarrows | app/components/VideoAdTable.tsx:469-471 | extending the term never brings a column back |
| ColumnLayout.SetVisibilitySelects | app/components/VideoAdTable.tsx:517-520 | toggling one column changes the selection for that column alone, and only a listed column can enter it |
| ColumnLayout.SelectorOrderSpec | app/components/VideoAdTable.tsx:473-484 | the new order is the pinned pair, then a permutation of the selected ids with the dragged one at the clamped destination |
| ColumnLayout.SelectorOrderMembers | app/components/VideoAdTable.tsx:473-484 | after the selector's drag the order holds exactly the pinned pair and the visible listed ids, so hidden ids leave it |
| ColumnLayout.SelectorOrderNoDup | app/components/VideoAdTable.tsx:473-484 | with distinct declarations the new order starts with the pinned pair and has no repeats |
| ColumnLayout.SelectorPinnedMembers | app/components/VideoAdTable.tsx:482 | the pinned pair is exactly `preview` and `actions`, each once |
| ColumnLayout.TableDragOrderSpec | app/components/VideoAdTable.tsx:764-781 | the result starts with the seven pinned ids, followed by exactly the other ids of the order in the order the move left them |
| ColumnLayout.TablePinnedDistinct | app/components/VideoAdTable.tsx:769-776 | the seven pinned ids are distinct |
| ColumnLayout.TableDragOrderNoDup | app/components/VideoAdTable.tsx:764-781 | a duplicate-free order stays duplicate-free |
| ColumnLayout.TableDragOrderPermutation | app/components/VideoAdTable.tsx:764-781 | a duplicate-free order holding the seven pinned ids keeps exactly its ids (a permutation) |
| ColumnLayout.ResetPrefixSpec | app/components/VideoAdTable.tsx:541-545 | after visiting the first `n` columns those not pinned are hidden and every other entry is as before |
| ColumnLayout.ResetHidesAllButPinned | app/components/VideoAdTable.tsx:539-545 | reset hides every declared column but `preview` and `actions`, and leaves every other entry as it was |
| ColumnLayout.ResetEmptiesSelection | app/components/VideoAdTable.tsx:539-545 | after reset the selected list is empty |
| ColumnLayout.ResetIdempotent | app/components/VideoAdTable.tsx:539-545 | pressing reset twice is the same as once |
| Dashboard.DashboardState.constructor | app/page.tsx:119-120 | no filter is active and every view field is selected, in `viewFields` order |
| Dashboard.DashboardState.ToggleFilter | app/page.tsx:135-145 | the metric's membership flips and every other metric's is kept; the selection is untouched |
| Dashboard.DashboardState.OnCheckedChange | app/page.tsx:99-104 | the selection becomes the checked-change of the old one; the filters are untouched |
| Dashboard.GenerateTimeSeries | app/page.tsx:30-41 | one point per 10 minutes from `start` while not past `end` (`(end-start)/600000 + 1` points, none when `start > end`), strictly increasing stamps, each value `base + rand(i) * base * 0.1` |
| Dashboard.StepCount | app/page.tsx:33-38 | the loop's point count is the floor quotient of the span by the step, plus one |
| Dashboard.ToggledSpec | app/page.tsx:135-145 | toggling adds a missing metric, removes a present one, keeps every other, and toggling twice restores the set |
| Dashboard.NoFilterKeepsAll | app/page.tsx:148-149 | without data the result is `undefined`; without active filters it is the material list unchanged |
| Dashboard.FilteredMaterialsSpec | app/page.tsx:148-158 | with active filters a material is kept iff for every active metric the series is non-empty and the material's value is at least its mean; order is kept |
| Dashboard.MoreFiltersKeepFewer | app/page.tsx:148-158 | more active filters keep a subsequence of what fewer keep |
| Dashboard.CheckedChangeSpec | app/page.tsx:99-104 | checking appends the field; unchecking removes every occurrence and keeps the others in order, each as often as before |
| Dashboard.CheckThenUncheck | app/page.tsx:99-104 | unchecking a field just checked restores a selection that lacked it |
| Dashboard.DisplayedCardsSpec | app/page.tsx:253-255 | the cards are the selected view fields in `viewFields` order |
| Dashboard.DisplayedCardsIgnoreSelectionOrder | app/page.tsx:253-255 | the cards depend only on which fields are selected |
| Dashboard.SameSelectionFilters | app/page.tsx:254 | selections with the same members filter any field list alike |
| Dashboard.UncheckThenCheckShowsSameCards | app/page.tsx:99-104 | unchecking and re-checking a field shows the same cards |
| TimeRange.TimeRangePicker.constructor | app/components/TimeRangeSelect.tsx:25-26 | the box starts empty and the popover closed |
| TimeRange.TimeRangePicker.SetCustomMinutes | app/components/TimeRangeSelect.tsx:84 | the box holds the typed text; the popover is untouched |
| TimeRange.TimeRangePicker.SetIsCustomOpen | app/components/TimeRangeSelect.tsx:68 | the popover takes the reported state; the box is untouched |
| TimeRange.TimeRangePicker.HandleCustomSubmit | app/components/TimeRangeSelect.tsx:28-34 | calls `onChange` iff `parseInt` of the box is a number above 0, with that number, and then closes the popover; otherwise makes no call and changes nothing |
| TimeRange.TimeRangePicker.OnValueChange | app/components/TimeRangeSelect.tsx:52-58 | "custom" opens the popover and makes no call; any other value calls `onChange` with its `parseInt` reading (NaN for non-numeric text), so "30", "60", "120" pass 30, 60, 120 |
| TimeRange.AcceptedIsPositive | app/components/TimeRangeSelect.tsx:29-30 | a value is accepted iff `parseInt` gives a number above 0 |
| TimeRange.DecimalSubmits | app/components/TimeRangeSelect.tsx:29-30 | typing the decimal numeral of `n` submits `n` iff `n > 0` |
| TimeRange.BlankRefused | app/components/TimeRangeSelect.tsx:29-30 | an empty or blank box is refused |
| TimeRange.NatDigitsLead | app/components/TimeRangeSelect.tsx:45 | the rendering of a positive number does not start with `0` |
| TimeRange.LeadingNumeralSubmits | app/components/TimeRangeSelect.tsx:29-30 | a positive numeral followed by a non-digit submits the numeral's value, so the number box's "1.5" and "1e3" submit 1 and "90.9" submits 90 |
| TimeRange.ItemThirtyParses | app/components/TimeRangeSelect.tsx:64 | helper for `OnValueChange`: the item "30" reads as 30 |
| TimeRange.ItemSixtyParses | app/components/TimeRangeSelect.tsx:65 | helper for `OnValueChange`: the item "60" reads as 60 |
| TimeRange.ItemHundredTwentyParses | app/components/TimeRangeSelect.tsx:66 | helper for `OnValueChange`: the item "120" reads as 120 |
| TimeRange.ParsesAsDecimal | app/components/TimeRangeSelect.tsx:56 | a string that is the rendering of `n` reads as `n` |
| TimeRange.DisplayValueSpec | app/components/TimeRangeSelect.tsx:36-47 | 60 and 120 read in hours; any other value, 30 included, reads `近{value}分钟` |
| TimeRange.DisplayValueInjective | app/components/TimeRangeSelect.tsx:36-47 | different values never share a label |
| JsNumberFacts.ParseIntDecimal | app/components/TimeRangeSelect.tsx:29 | `parseInt` reads the decimal rendering of any integer back as that integer |
| JsNumberFacts.IntMagnitudeOfNumeral | app/components/TimeRangeSelect.tsx:29 | digits followed by a non-digit are read as the digits' value, unless a lone `0` meets an `x` |
| JsNumberFacts.ParseIntOfNumeral | app/components/TimeRangeSelect.tsx:29 | the same through `parseInt`, which finds no blank and no sign to skip |
| JsNumberFacts.LeadingDigitsOfPrefix | app/components/TimeRangeSelect.tsx:29 | the longest digit prefix of digits followed by a non-digit is those digits |
| JsNumberFacts.ParseFloatDecimal | app/components/VideoAdTable.tsx:732 | `parseFloat` reads the decimal rendering of any integer back as that number |
| JsNumberFacts.BlankIsNaN | app/components/VideoAdTable.tsx:732 | an empty or blank string is NaN to `parseFloat` and not a number to `parseInt` |

## Left out

- The table's name filter (`getColumn("name").setFilterValue`, app/components/VideoAdTable.tsx:807-812): it belongs to the table library's filtered row model, which is not part of this model.
- Sorting, pagination and column resizing: the table library does them.
- The time-range dropdown inside the table (app/components/VideoAdTable.tsx:826-844): only its `setTimeRange` effect matters here. The cells take the window length `minutes` as a parameter for that reason.
- The table's own `onDragEnd` (app/components/VideoAdTable.tsx:764-781) is modelled, but in the source no drag context calls it.
- Rendering: `VideoPreview`, the charts and all markup are not modelled.
- Locale formatting: `toLocaleString('zh-CN', ...)` is not modelled. A cell holds the amount, decimal count, prefix and suffix, not the grouped digits.
- Float rounding: values are exact reals, so the model does not capture rounding of sums, means and `value * 100`.
- The mock data: the asynchronous `fetchData`, its base values and its per-material metrics are not modelled. `getVideoAdMaterials` is in lib/api.ts, which is not part of this model. The series generator is modelled; its inputs are parameters.
- Case mapping: `toLowerCase` is modelled for ASCII letters only, so non-ASCII case mapping is left out.
- Number conversions: `parseInt`/`parseFloat` are modelled as far as the components read them.
  - `JsNumbers.ParseInt` does not model the 2^53 precision limit.
  - `JsNumbers.ParseFloat` does not model binary64 rounding.
  - `JsNumbers.Decimal` writes every digit. JavaScript switches to exponent form from 1e21 (`${1e21}` is "1e+21") and keeps exact digits only up to 2^53, so displays of larger minute counts are not modelled.
- TimeRange.TimeRangePicker.SetCustomMinutes: the box may hold any text in the model. The source's box is `<Input type="number" min="1">` (app/components/TimeRangeSelect.tsx:81-87), which hands over only "" or a valid number string, so the model admits a superset of the source's inputs.
- TimeRange.DisplayValue takes an integer, while the source's `value` is a JavaScript number and could be fractional. No page renders the picker, so only whole minutes are modelled.
- The `useEffect` loading flags and the error state: they only choose what to render.

## Findings

| source | as written | input that shows it | evidently intended | confidence | as-written member | corrected member |
|---|---|---|---|---|---|---|
| app/components/VideoAdTable.tsx:734-735 | the recent-spend and recent-ROI clauses compare `material.recentConsumption` and `material.recentROI`, which no material has (`undefined >= x` is false), so any text in a recent box empties the table | one material with a sample of 100 at `now`, window 30 minutes, recent-spend box "50" (`AdTable.RecentThresholdCounterexample`) | compare the windowed total and mean the two cells show for the same window and clock | high (not executed) | AdTable.RecentThresholdAsWrittenKeepsNothing | AdTable.FilterMaterialsSelects |
