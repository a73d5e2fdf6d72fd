# SM-Upgrades dashboard core, modelled in Dafny

This project models the computational core of a child-welfare reporting dashboard.

- **The SDM screening filter store.** This is the single source of truth of the hotline-screening page. It holds:
  - a date window;
  - a display mode;
  - one visibility flag per screening-decision category;
  - a list of listeners.

  Every setter updates the state and then calls each listener with a freshly derived view. To derive the view, the 18-month table is sliced to the window, each slice is summed, and every category total is turned into a percentage of the grand total. That percentage has one decimal and is 0 when the total is 0.
- **The supporting cores.** Each one is deterministic and small:
  - the investigation table and its helpers (monthly records, one month's entries and percentages, the analysis bundle);
  - the filter bar's date-range correction;
  - the visualization generator's keyword classifier, its running totals and its last-six-months slice;
  - the graph assistant's quick-type table and its current-chart bookkeeping;
  - the data analyzer's month search, its peak/lowest month and highest-share selection, and the routing order of its question answering;
  - the keyboard-navigation manager's shortcut registry, arrow-key wrap-around, focus-trap stack and Tab rule.

## How the code is modelled

- **The store is a class.** `FilterStore.FilterState` has the source's fields. Its methods `modifies` exactly the fields they assign. Listeners are opaque ids. The store records every callback invocation in a `delivered` log field, so "each listener is called once, in order, with the current view" becomes a postcondition.
- **The view is a pure function.** `FilterStore.ViewOf` is written once over any well-formed table (`Dataset`). `SdmScreening.SdmData` instantiates it with the screening table. Bounds follow JavaScript's `Array.prototype.slice` exactly (negative and out-of-range bounds are clamped), because the store never checks them.
- **Percentages are exact integers.** Each one is an integer number of tenths of a percent, rounded half up (`PercentTenths`).
- **Other stateful parts are classes too.** These are the generator's current chart, the graph assistant's current type, the filter bar's selects and the keyboard manager's registry and stack. Loops of the source are methods with invariants, each proved against a specification function: `Notify`, `CumulativeSums`, `FindMonthIndex`, `HighestNotTimelyShare` and `HandleShortcuts`.
- **The rounded percentages need not sum to 100 ± 0.1.** With four categories, half-up rounding can be off by 0.2: counts 1, 1, 1 and 1997 round to 0.1 + 0.1 + 0.1 + 99.9 = 100.2. `FilterStore.PercentSumBounds` proves the bound that does hold, half a tenth per category. With the three investigation categories the sum lies between 99.9 and 100.1 (`InvestigationData.RoundedSharesNear100`).

## Model

| member | source | states |
|---|---|---|
| FilterStore.SliceBound | src/data/sdmScreeningData.js:96-103 | A slice bound is clamped into `[0, len]` and is kept as given when it is already inside. |
| FilterStore.JsSlice | src/data/sdmScreeningData.js:96-103 | An in-range window is the ordinary subsequence. An inverted window is empty. The result is never longer than the input. |
| FilterStore.PercentTenths | src/data/sdmScreeningData.js:112-116 | The percentage is 0 when the total is 0. Otherwise it is the count's share of the total to the nearest tenth (within half a tenth). |
| FilterStore.ViewSlices | src/data/sdmScreeningData.js:95-103 | For `0 <= start <= end < len`, the labels and every series are the table restricted to `[start, end]`, with `end - start + 1` entries. The date labels are the first and last label of the window. |
| FilterStore.ViewTotals | src/data/sdmScreeningData.js:105-110 | Each summary row carries its category's descriptor and the sum of its sliced series. The total is the sum of the category counts. |
| FilterStore.ViewPercentages | src/data/sdmScreeningData.js:112-126 | Every summary percentage is its count's share of the total rounded to a tenth when the total is positive, and exactly 0 otherwise. |
| FilterStore.ViewOfEmptyWindow | src/data/sdmScreeningData.js:95-146 | An empty or inverted window (which the store accepts) gives no labels, empty series, a zero total and zero percentages. Its date labels are absent and read "undefined - undefined". |
| FilterStore.VisibilityIndependent | src/data/sdmScreeningData.js:128-139 | The display mode and the flags never change the labels, series, total, summary or date labels. They are only copied into the view. |
| FilterStore.PercentSumBounds | src/data/sdmScreeningData.js:112-116 | For counts that sum to a positive total, the rounded tenths `R` of `n` categories satisfy `2000 - n < 2R <= 2000 + n`. |
| FilterStore.ShareBounds | src/data/sdmScreeningData.js:112-116 | The rounding errors of the categories add up: the scaled sum of the tenths stays within `n` half-tenths of the exact total. |
| FilterStore.AllVisible | src/data/sdmScreeningData.js:48-53 | The initial flags have exactly the category ids as keys, and every flag is true. |
| FilterStore.ViewOf | src/data/sdmScreeningData.js:95-148 | The view has one sliced series and one summary row per category, never more labels than the table, and every series as long as the labels. It copies the title, the mode and the flags. |
| FilterStore.Without | src/data/sdmScreeningData.js:60 | The remaining listeners are exactly the old ones other than the callback, and never more of them. |
| FilterStore.Broadcast | src/data/sdmScreeningData.js:64-66 | One notification is one delivery per listener, in list order, each with the same view. |
| FilterStore.WithoutCounts | src/data/sdmScreeningData.js:59-61 | Unsubscribing removes every occurrence of the callback and keeps every other listener as many times as it was subscribed. |
| FilterStore.WithoutAppend | src/data/sdmScreeningData.js:59-61 | The filter works piecewise over a concatenation, so the remaining listeners keep their order. |
| FilterStore.WithoutAbsent | src/data/sdmScreeningData.js:59-61 | Removing a callback that is not subscribed leaves the list unchanged. |
| FilterStore.FilterState.constructor | src/data/sdmScreeningData.js:44-55 | A new store shows the whole table (`0` to `len - 1`) in `counts` mode, with every category visible and no listeners. |
| FilterStore.FilterState.GetState | src/data/sdmScreeningData.js:86-93 | The snapshot carries the window, the mode and the flags. A map is a value, so the copy cannot alias the store's flags. |
| FilterStore.FilterState.GetFilteredData | src/data/sdmScreeningData.js:95-148 | The current view's total is the sum of its category counts, with one row per category, and it carries the current mode and flags. |
| FilterStore.FilterState.Subscribe | src/data/sdmScreeningData.js:57-62 | Appends the callback and returns the unsubscriber for it. The store stays well formed. |
| FilterStore.FilterState.Unsubscribe | src/data/sdmScreeningData.js:59-61 | The listener list becomes the old list without that callback. The store stays well formed. |
| FilterStore.FilterState.Notify | src/data/sdmScreeningData.js:64-66 | The log grows by exactly one delivery per listener, in list order, each with `getFilteredData()` of the current state. Nothing else changes. |
| FilterStore.FilterState.SetDateRange | src/data/sdmScreeningData.js:68-72 | Stores both bounds as given (no bounds check, no reordering, no unchanged-value check) and notifies every listener once. The store stays well formed. |
| FilterStore.FilterState.SetDisplayMode | src/data/sdmScreeningData.js:74-77 | Stores the mode as given and notifies every listener once. The store stays well formed. |
| FilterStore.FilterState.SetCategory | src/data/sdmScreeningData.js:79-84 | A known key sets only that flag and notifies once. An unknown key changes nothing and notifies nobody. |
| SdmScreening.SdmDataWellFormed | src/data/sdmScreeningData.js:4-37 | The screening table is well formed: four series of 18 counts under four distinct ids. |
| SdmScreening.StaticSummaryConsistent | src/data/sdmScreeningData.js:4-37 | The static summary's counts add up to its total, 1848. Each of its percentages is that count's rounded share. |
| SdmScreening.NewSdmFilterState | src/data/sdmScreeningData.js:44-55 | The screening store starts at window `[0, 17]` in `counts` mode, with all four flags true and no listeners. |
| SdmScreening.MonthsList | src/data/sdmScreeningData.js:175-177 | The month list has 18 labels, from "Jul 21" to "Dec 22". |
| InvestigationData.DataWellFormed | src/data/investigationData.js:6-27 | The months and the three series all have 24 entries. |
| InvestigationData.MonthlyTotals | src/data/investigationData.js:43-53 | There is one record per month, in month order. Each record has that month's three counts, and its total is their sum. |
| InvestigationData.MonthlyTotalsConserve | src/data/investigationData.js:43-53 | The monthly totals add up to the sums of the three series together. |
| InvestigationData.At | src/data/investigationData.js:56-63 | Reading a series at an index gives that entry inside the series, and `undefined` outside it. |
| InvestigationData.GetMonthData | src/data/investigationData.js:56-63 | Gives exactly the i-th entry of each of the four arrays, and all `undefined` outside the table. |
| InvestigationData.ShareTenths | src/data/investigationData.js:71-73 | A share is absent (NaN) exactly when the total is 0. Otherwise it is the count's share rounded to a tenth. |
| InvestigationData.GetMonthPercentages | src/data/investigationData.js:66-75 | The shares divide by the month's total with no zero guard. Every share is NaN for a month without referrals or an index outside the table. |
| InvestigationData.ExactSharesSumTo100 | src/data/investigationData.js:66-75 | With exact arithmetic, the three shares of a month with referrals add up to 100. |
| InvestigationData.RoundedSharesNear100 | src/data/investigationData.js:66-75 | Rounded to tenths, the three shares add up to between 99.9 and 100.1. |
| InvestigationData.SummaryIsLastMonth | src/data/investigationData.js:14-39 | The summary counts are December 2022's entries (index 23), and its total is their sum, 1913. Its percentages are that month's rounded shares. |
| InvestigationData.GetAnalysisData | src/data/investigationData.js:78-93 | The bundle's raw data is the table and its monthly records are `MonthlyTotals` of the table, 24 of them. It also has the table's summary and the period January 2021 to December 2022. |
| InvestigationData.AnalysisSummaryMatchesLastRecord | src/data/investigationData.js:86-93 | The bundle's summary agrees with its last monthly record. |
| InvestigationData.StoreDataWellFormed | src/components/Filters.js:140-156 | The investigation table in store form is well formed and has exactly the keys the checkboxes send. |
| FilterControls.StartCorrection | src/components/Filters.js:88-100 | The chosen start is always kept. The end stays exactly when it is not before the start, and otherwise moves to the start. |
| FilterControls.EndCorrection | src/components/Filters.js:104-116 | The chosen end is always kept. The start stays exactly when it is not after the end, and otherwise moves to the end. |
| FilterControls.ResetRange | src/components/Filters.js:119-124 | Reset sends `(0, months.length - 1)`. |
| FilterControls.CorrectionsStayInOrder | src/components/Filters.js:29-42 | For option indices drawn from `0..n-1`, every range the bar sends satisfies `0 <= start <= end <= n-1`. |
| FilterControls.CorrectionsAgreeOnOrderedPairs | src/components/Filters.js:87-117 | An ordered pair is sent unchanged by either select, and only an ordered pair is. |
| FilterControls.ModeButton.Mode | src/components/Filters.js:49-55 | The mode buttons send exactly `counts` or `percentages`. |
| FilterControls.Checkbox.Key | src/components/Filters.js:140-156 | Every checkbox sends one of the store's category keys. |
| FilterControls.CheckboxKeysDistinct | src/components/Filters.js:140-156 | Different checkboxes drive different categories. |
| FilterControls.Filters.constructor | src/components/Filters.js:28-42 | The selects show the store's window. |
| FilterControls.Filters.OnStartChange | src/components/Filters.js:87-101 | The store's window becomes the start correction, and the store notifies once. |
| FilterControls.Filters.OnEndChange | src/components/Filters.js:103-117 | The store's window becomes the end correction, and the store notifies once. |
| FilterControls.Filters.OnReset | src/components/Filters.js:119-124 | The store's window becomes the whole period, and the store notifies once. |
| FilterControls.Filters.OnModeClick | src/components/Filters.js:126-133 | The store's mode becomes the button's mode. |
| FilterControls.Filters.OnCheckboxChange | src/components/Filters.js:135-156 | Exactly the checkbox's category flag takes the box's state. |
| VisualizationGenerator.ChartType.Id | src/ai/VisualizationGenerator.js:19-52 | Every detected type is one of the nine type ids. |
| VisualizationGenerator.IdInjective | src/ai/VisualizationGenerator.js:19-52 | Different types have different ids. |
| VisualizationGenerator.ParseRequest | src/ai/VisualizationGenerator.js:19-53 | The returned request is the input unchanged. |
| VisualizationGenerator.ParseRequestIsFirstMatch | src/ai/VisualizationGenerator.js:19-53 | The classifier equals the first match of a separate keyword table in priority order, with `bar` as the default. |
| VisualizationGenerator.FirstMatchIsFirst | src/ai/VisualizationGenerator.js:19-53 | The first match is the type at the first matching position, or `bar` when no position matches. |
| VisualizationGenerator.PriorityListsEveryType | src/ai/VisualizationGenerator.js:19-53 | The priority list names each of the nine types exactly once. |
| VisualizationGenerator.CaseInsensitive | src/ai/VisualizationGenerator.js:19-20 | Requests that lower-case to the same string get the same type. |
| VisualizationGenerator.StackedBarIff | src/ai/VisualizationGenerator.js:23-25 | A request is `stackedBar` exactly when it contains both "stacked" and "bar". |
| VisualizationGenerator.BarWinsOverLaterKeywords | src/ai/VisualizationGenerator.js:26-28 | "bar" or "column" without "stacked" is always `bar`, whatever else the request mentions. |
| VisualizationGenerator.LineBeforeCumulative | src/ai/VisualizationGenerator.js:29-31 | "line" or "trend" without "bar" or "column" is `line`, even when "cumulative" is present. |
| VisualizationGenerator.DefaultIsBar | src/ai/VisualizationGenerator.js:51-52 | A request that matches no keyword group is `bar`. |
| VisualizationGenerator.KnownClassifications | src/ai/VisualizationGenerator.js:19-53 | The requests of the type buttons classify as listed. "cumulative trend" is `line` and "percentage bar chart" is `bar`. |
| VisualizationGenerator.GetChartTypes | src/ai/VisualizationGenerator.js:527-538 | Lists eight types, none of them `radar`. |
| VisualizationGenerator.ListedTypesReturnable | src/ai/VisualizationGenerator.js:527-538 | Every listed id is returned by the classifier for some request. `radar` is returnable but not listed. |
| VisualizationGenerator.RunningTotals | src/ai/VisualizationGenerator.js:340-343 | The running totals are as long as the series. |
| VisualizationGenerator.CumulativeSums | src/ai/VisualizationGenerator.js:340-343 | The accumulator loop produces exactly the running totals, whose element `i` is the sum of the first `i + 1` counts. |
| VisualizationGenerator.RunningTotalsMonotone | src/ai/VisualizationGenerator.js:340-343 | The running totals never decrease. |
| VisualizationGenerator.RunningTotalsLast | src/ai/VisualizationGenerator.js:340-343 | The last running total is the series total. |
| VisualizationGenerator.RunningTotalsDifferences | src/ai/VisualizationGenerator.js:340-343 | The first total is the first count, and each later count is the difference of consecutive totals. |
| VisualizationGenerator.CumulativeChartSeries | src/ai/VisualizationGenerator.js:340-343 | The chart's three series are the running totals of the three categories. |
| VisualizationGenerator.LastSix | src/ai/VisualizationGenerator.js:445-448 | `slice(-6)` gives the last six entries, or all entries when there are fewer. |
| VisualizationGenerator.RadarAligned | src/ai/VisualizationGenerator.js:445-448 | The radar's months and series are index-aligned: position `k` of each is the same month of the table. |
| VisualizationGenerator.RadarMonths | src/ai/VisualizationGenerator.js:445-448 | On the investigation table, the radar shows July to December 2022. |
| VisualizationGenerator.Generator.constructor | src/ai/VisualizationGenerator.js:6-8 | A new generator has no current chart. |
| VisualizationGenerator.Generator.GenerateVisualization | src/ai/VisualizationGenerator.js:56-86 | Draws the classified type, which becomes the current chart and is returned. |
| VisualizationGenerator.Generator.ResetToDefault | src/ai/VisualizationGenerator.js:541-543 | Draws the pie chart. |
| ChartAssistant.TypeToRequest | src/components/GraphAssistant.js:113-124 | A type in the table is mapped to its entry. Any other type is sent as it is. |
| ChartAssistant.QuickRequestsRoundTrip | src/components/GraphAssistant.js:113-124 | For `pie`, `bar`, `stackedBar`, `line`, `area` and `heatmap`, the mapped request classifies back to the same id. |
| ChartAssistant.QuickRequestsThatDiffer | src/components/GraphAssistant.js:120-121 | `cumulative` maps to "cumulative trend", which is drawn as `line`. `percentageBar` maps to "percentage bar chart", which is drawn as `bar`. |
| ChartAssistant.QuickRequestFallback | src/components/GraphAssistant.js:124 | `radar` is not in the table, so it is sent as itself and drawn as `radar`. |
| ChartAssistant.GraphAssistant.constructor | src/components/GraphAssistant.js:5-9 | The initial type is `pie`. |
| Common.TrimEmptyIff | src/components/GraphAssistant.js:93-95 | A request trims to the empty string, and is ignored, exactly when every character of it is white space. |
| Common.JoinStartsWithFirst | src/accessibility/KeyboardNavigation.js:128 | A joined list begins with its first part. |
| ChartAssistant.GraphAssistant.HandleGenerate | src/components/GraphAssistant.js:91-106 | An absent box, an empty or white-space-only request, or a missing canvas changes nothing. Otherwise the classified type becomes current and active, and the box is cleared. |
| ChartAssistant.GraphAssistant.HandleQuickType | src/components/GraphAssistant.js:108-128 | With a canvas, the table's request is drawn, and the requested type (not the classified one) becomes current. |
| ChartAssistant.GraphAssistant.HandleReset | src/components/GraphAssistant.js:130-141 | With a canvas, the pie chart is drawn, `pie` becomes current and the box is cleared. |
| DataAnalyzer.FirstThree | src/ai/DataAnalyzer.js:270 | `substring(0, 3)` gives the first three characters, or all of them when there are fewer. |
| DataAnalyzer.FirstMatchFrom | src/ai/DataAnalyzer.js:269-276 | Gives the first matching position at or after `from`, or -1 when no position from there matches. |
| DataAnalyzer.MonthIndex | src/ai/DataAnalyzer.js:265-277 | Gives the first month that contains the query's first three letters and shares its year "21" or "22". It is -1 exactly when no month does. |
| DataAnalyzer.NoYearNoMonth | src/ai/DataAnalyzer.js:272-276 | A query with neither "21" nor "22" never finds a month. |
| DataAnalyzer.FindMonthIndex | src/ai/DataAnalyzer.js:265-277 | The early-return loop computes exactly `MonthIndex`. |
| DataAnalyzer.MaxOf | src/ai/DataAnalyzer.js:109 | `Math.max` is an element that no element exceeds. |
| DataAnalyzer.MinOf | src/ai/DataAnalyzer.js:192 | `Math.min` is an element that exceeds no element. |
| DataAnalyzer.IndexOf | src/ai/DataAnalyzer.js:110 | `indexOf` is -1 exactly when the value is absent. Otherwise it is the first position holding it. |
| DataAnalyzer.PeakIndex | src/ai/DataAnalyzer.js:108-110 | The peak month is the first position holding the maximum: no count is larger, and every earlier count is smaller. |
| DataAnalyzer.LowestIndex | src/ai/DataAnalyzer.js:190-193 | The lowest month is the first position holding the minimum. |
| DataAnalyzer.PeakIndexUnique | src/ai/DataAnalyzer.js:108-110 | Any position with no larger count and only smaller counts before it is the peak. |
| DataAnalyzer.LowestIndexUnique | src/ai/DataAnalyzer.js:190-193 | The same uniqueness holds for the lowest month. |
| DataAnalyzer.TimelyPeak | src/ai/DataAnalyzer.js:108-110 | On the investigation table, the peak timely month is December 2022. |
| DataAnalyzer.TimelyLowest | src/ai/DataAnalyzer.js:190-193 | On the investigation table, the lowest timely month is January 2021. |
| DataAnalyzer.ShareChain | src/ai/DataAnalyzer.js:125-132 | The exact comparison of shares is transitive across the loop's best-so-far. |
| DataAnalyzer.NewBest | src/ai/DataAnalyzer.js:128-131 | A strictly higher share becomes the new best and keeps the loop invariant. |
| DataAnalyzer.KeepBest | src/ai/DataAnalyzer.js:128 | A share that is not higher leaves the best as it is and keeps the loop invariant. |
| DataAnalyzer.HighestNotTimelyShare | src/ai/DataAnalyzer.js:121-132 | Gives the first month with the highest not-timely share, compared strictly. A month without referrals (NaN) is never chosen. The month is `''` when no share is above 0. |
| DataAnalyzer.AnswerQuestion | src/ai/DataAnalyzer.js:178-262 | The anomaly answer lists at most five of the reported anomalies, and only when there are some. The highest and lowest timely answers are given only when the question lacks "not". |
| DataAnalyzer.BranchOf | src/ai/DataAnalyzer.js:178-262 | Both anomaly answers come from the anomaly branch, and only the help text comes from the help branch. |
| DataAnalyzer.RoutingListsEveryBranch | src/ai/DataAnalyzer.js:178-262 | The routing order lists each branch once, all of them but the final help text. |
| DataAnalyzer.FirstBranchIsFirst | src/ai/DataAnalyzer.js:178-262 | The first branch of a list is the one at the first position whose guard holds, and the help branch when no guard holds. |
| DataAnalyzer.RoutingUnfolds | src/ai/DataAnalyzer.js:178-262 | The first branch of the routing order is the chain of guard tests highest, lowest, anomaly, trend, summary, month, percent, compare, June 2022, December 2022, then help. |
| DataAnalyzer.AnswerIsFirstBranch | src/ai/DataAnalyzer.js:178-262 | Every answer comes from the first branch, in routing order, whose guard holds on the lower-cased question. |
| DataAnalyzer.LowestTimelyAnswer | src/ai/DataAnalyzer.js:190-195 | The lowest-timely branch names the first month with the smallest timely count, and that count. |
| DataAnalyzer.AnomalyBeforeTrend | src/ai/DataAnalyzer.js:198-219 | A question with an anomaly word and "trend" gets the anomaly answer. |
| DataAnalyzer.TrendAndSummaryBeforeMonth | src/ai/DataAnalyzer.js:211-236 | "trend", then the summary words, win over month words that find a month. |
| DataAnalyzer.MonthBeforePercent | src/ai/DataAnalyzer.js:225-242 | Month words that find a month win over "percent" and every later word. |
| DataAnalyzer.PercentBeforeCompare | src/ai/DataAnalyzer.js:238-248 | "percent" wins over the comparison words. |
| DataAnalyzer.JuneBeforeDecember | src/ai/DataAnalyzer.js:250-259 | The June 2022 question wins over the December 2022 one. |
| DataAnalyzer.HighestTimelyAnswer | src/ai/DataAnalyzer.js:182-187 | The highest-timely branch names the first month with the largest timely count, and that count. |
| DataAnalyzer.MonthDetailAnswer | src/ai/DataAnalyzer.js:226-235 | A month answer carries the record of the first month the month words find, with its total. |
| DataAnalyzer.DefaultWhenNothingMatches | src/ai/DataAnalyzer.js:260-261 | A question that matches no branch gets the default help. |
| DataAnalyzer.AnomalyAnswerPrefix | src/ai/DataAnalyzer.js:203-206 | The anomaly answer lists the first five anomalies, or all of them when there are fewer. |
| DataAnalyzer.NotExcludesTimelyBranches | src/ai/DataAnalyzer.js:182 | "highest not timely" is never answered with the highest timely month. |
| DataAnalyzer.HighestTimelyOnTable | src/ai/DataAnalyzer.js:182-187 | On the investigation table, "highest timely" is answered with Dec 22 and 1737. |
| KeyboardNavigation.ComboParts | src/accessibility/KeyboardNavigation.js:120-126 | The parts are alt, ctrl and shift, each when its flag is set and in that order, then the lower-cased key unless it is a modifier; their count is exactly that. |
| KeyboardNavigation.Combo | src/accessibility/KeyboardNavigation.js:119-128 | With Alt the combo starts with "alt"; with Ctrl and not Alt it starts with "ctrl"; with no modifier held it is the lower-cased key. |
| KeyboardNavigation.CtrlShiftCombo | src/accessibility/KeyboardNavigation.js:119-128 | Ctrl+Shift with a one-character key gives "ctrl+shift+" and the lower-cased key. |
| KeyboardNavigation.ComboIgnoresKeyCase | src/accessibility/KeyboardNavigation.js:119-128 | Events that differ only in the letter case of a non-modifier key give the same combo. |
| KeyboardNavigation.AltComboMatchesRegistration | src/accessibility/KeyboardNavigation.js:114-128 | Alt with a one-character key gives exactly the registry key of "Alt+c", registered in any letter case. |
| KeyboardNavigation.LoneModifierCombo | src/accessibility/KeyboardNavigation.js:124-128 | Pressing Alt alone gives the combo "alt". |
| KeyboardNavigation.Forward | src/accessibility/KeyboardNavigation.js:153 | `(i + 1) % n` is in `[0, n)` and wraps from the last item to the first. |
| KeyboardNavigation.Backward | src/accessibility/KeyboardNavigation.js:155 | `(i - 1 + n) % n` is in `[0, n)` and wraps from the first item to the last. |
| KeyboardNavigation.ForwardBackwardInverse | src/accessibility/KeyboardNavigation.js:151-156 | A step forward and a step back cancel, in either order. |
| KeyboardNavigation.ArrowTarget | src/accessibility/KeyboardNavigation.js:139-156 | There is a target exactly for an arrow key on an item of a group. The target is in range: forward for Right and Down, backward for Up and Left. |
| KeyboardNavigation.ArrowRoundTrip | src/accessibility/KeyboardNavigation.js:151-156 | Right then Left comes back to the starting item. |
| KeyboardNavigation.TrapTabTarget | src/accessibility/KeyboardNavigation.js:191-210 | In a trap, Shift+Tab on the first focusable goes to the last, and Tab on the last goes to the first. The target is always the first or the last. Anything else leaves the focus to the browser: a target exists exactly for Tab in a trap with focusables, from the first one with Shift or the last one without. |
| KeyboardNavigation.KeyboardNavigationManager.constructor | src/accessibility/KeyboardNavigation.js:5-10 | A new manager has no shortcuts and no traps. |
| KeyboardNavigation.KeyboardNavigationManager.RegisterShortcut | src/accessibility/KeyboardNavigation.js:114-116 | Stores the entry under the lower-cased keys and overwrites any earlier entry there. |
| KeyboardNavigation.KeyboardNavigationManager.RegisterDefaultShortcuts | src/accessibility/KeyboardNavigation.js:72-111 | The registry becomes the old one with the seven default combos set, each to its description and action (alt+h help, alt+f filters, alt+c chat, alt+v visualization, alt+e export, alt+m chart, escape close dialog). |
| KeyboardNavigation.KeyboardNavigationManager.HandleShortcuts | src/accessibility/KeyboardNavigation.js:119-135 | The combo built with pushes is `Combo(e)`. A callback fires, once, exactly on a registry match. |
| KeyboardNavigation.KeyboardNavigationManager.HandleArrowNavigation | src/accessibility/KeyboardNavigation.js:138-165 | Focuses the wrapped neighbour, or changes nothing. |
| KeyboardNavigation.KeyboardNavigationManager.TrapFocus | src/accessibility/KeyboardNavigation.js:168-182 | Pushes a trap that remembers the focused element, and only when the container exists. |
| KeyboardNavigation.KeyboardNavigationManager.ReleaseFocusTrap | src/accessibility/KeyboardNavigation.js:184-189 | Pops the most recent trap (LIFO) and gives the focus back to the element remembered in it. Popping an empty stack changes nothing. |
| KeyboardNavigation.KeyboardNavigationManager.HandleFocusTrap | src/accessibility/KeyboardNavigation.js:191-210 | Applies the Tab wrap rule of the top trap and reports whether it intervened. |
| KeyboardNavigation.KeyboardNavigationManager.ToggleShortcutsHelp | src/accessibility/KeyboardNavigation.js:341-354 | Visibility alternates. Opening pushes a trap on the panel, and closing pops the most recent trap. |

## Left out

- The singleton `sdmFilterState` and its wrapper functions (`src/data/sdmScreeningData.js:151-181`), other than `getSDMMonthsList`. Each one forwards to the store method of the same name, and the model exposes those methods directly.
- `dateRange.startMonth` and `dateRange.endMonth` of the view. They duplicate `start` and `end`.
- Percentages:
  - JavaScript computes `(count / total * 100).toFixed(1)` in binary floating point. The model uses exact half-up rounding to tenths, so the two can differ at exact `.x5` boundaries.
  - `getMonthPercentages` returns strings. The model returns tenths, with `None` for `"NaN"`.
- Listener callbacks are ids. What a callback does, and a callback that changes the store while it is being notified, are not modelled.
- The investigation-data store that `src/components/Filters.js` imports (`setDateRange`, `getFilterState`, `setCategory`) is not part of this model. The filter bar drives the generic store over the investigation table instead, with empty colours, and its category keys come from `src/components/Filters.js:140-156`.
- Rendering, Chart.js construction and options, DOM queries, `setTimeout`, `MutationObserver`, styles, and all answer prose. The canvas and the DOM elements a handler looks up are boolean or `Option` parameters.
- `detectAnomalies`, `analyzeTrends`, `generateExecutiveSummary` and the growth figures of `src/ai/DataAnalyzer.js`. They are floating-point statistics. `AnswerQuestion` takes the reported anomalies as a parameter.
- The month regular expression at `src/ai/DataAnalyzer.js:226` is not interpreted. Its first match in the lower-cased question is a parameter of `AnswerQuestion`.
- String handling:
  - Lower-casing is ASCII only.
  - `trim` removes ASCII white space, no-break space and the byte-order mark, but not the other Unicode space separators.
- `ChartAssistant.TypeToRequest`: does not model keys that a plain JavaScript object inherits from its prototype (such as `constructor`).
- The shortcut callbacks are ids. Their effects are not modelled: focusing an element, toggling the help panel, closing a modal.
- Several DOM effects of the keyboard manager are not modelled:
  - the delayed focus of the first focusable element after `trapFocus`;
  - the click on a radio item after arrow navigation;
  - the `aria-hidden` attribute of the help panel.
- `setupGlobalKeyboardHandlers` (`src/accessibility/KeyboardNavigation.js:25-36`) is not one method. It runs the focus trap handler (only with a non-empty stack), then the shortcuts, then the arrows. Each of them is modelled separately.
- `src/components/Homepage.js`, `src/main.js`, `ChatPanel`, `ExportTools`, the accessibility reader and toggle, `BarSummary`, `InsightsPanel` and `TimeSeriesChart`. They are presentation, speech, export and third-party charting code with no algorithmic content.
