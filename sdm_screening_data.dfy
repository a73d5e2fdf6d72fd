/** The hotline screening-decision table (18 months, July 2021 to December 2022, four
    decision categories), its static summary, and the screening store: the generic filter
    store of module FilterStore instantiated with this table. */
module SdmScreening {
  import opened Common
  import opened FilterStore

  /** The 18 month labels. */
  const Labels: seq<string> := [
    "Jul 21", "Aug 21", "Sep 21", "Oct 21", "Nov 21", "Dec 21",
    "Jan 22", "Feb 22", "Mar 22", "Apr 22", "May 22", "Jun 22",
    "Jul 22", "Aug 22", "Sep 22", "Oct 22", "Nov 22", "Dec 22"]

  const ScreenIn: seq<nat> := [950, 960, 1120, 1180, 1190, 1220, 1290, 1250, 1230,
                               1310, 1420, 1360, 1380, 1440, 1560, 1602, 1750, 1765]
  const EvaluateOut: seq<nat> := [380, 390, 310, 320, 330, 325, 300, 305, 315,
                                  300, 290, 310, 320, 360, 350, 370, 365, 380]
  const OverrideInPerson: seq<nat> := [40, 45, 35, 42, 40, 38, 41, 39, 45,
                                       40, 38, 42, 40, 35, 38, 28, 30, 28]
  const OverrideEvalOut: seq<nat> := [30, 28, 25, 30, 28, 25, 27, 26, 30,
                                      28, 25, 27, 26, 25, 25, 21, 22, 21]

  /** The four categories, in the order of the summary table. */
  const Descriptors: seq<CategoryDescriptor> := [
    CategoryDescriptor("screenIn", "Screen In", "#3366cc"),
    CategoryDescriptor("evaluateOut", "Evaluate Out", "#cc33cc"),
    CategoryDescriptor("overrideInPerson", "Override to In Person", "#00cc99"),
    CategoryDescriptor("overrideEvalOut", "Override to Eval Out", "#ff3399")]

  /** `sdmScreeningData` as the store sees it. */
  const SdmData: Dataset := Dataset("SDM Hotline Screening Decision", Labels, Descriptors,
                                    [ScreenIn, EvaluateOut, OverrideInPerson, OverrideEvalOut])

  /** The static summary block: total and per-category count and percentage (in tenths). */
  const SummaryTotal: nat := 1848
  const SummaryCounts: seq<nat> := [1602, 197, 28, 21]
  const SummaryPercentTenths: seq<nat> := [867, 107, 15, 11]

  /** The table is well formed: four series of 18 counts under four distinct ids. */
  lemma SdmDataWellFormed()
    ensures SdmData.WellFormed()
    ensures |SdmData.labels| == 18
    ensures SdmData.CategoryIds() == {"screenIn", "evaluateOut", "overrideInPerson", "overrideEvalOut"}
  {
    assert SdmData.CategoryIds() == {Descriptors[0].id, Descriptors[1].id, Descriptors[2].id, Descriptors[3].id};
  }

  /** The static summary is self-consistent: its counts add up to its total and each of its
      percentages is that count's share rounded to one decimal. */
  lemma StaticSummaryConsistent()
    ensures Sum(SummaryCounts) == SummaryTotal
    ensures Percents(SummaryCounts, SummaryTotal) == SummaryPercentTenths
  {
    SumOfFour(1602, 197, 28, 21);
  }

  /** `new SDMFilterState()`: the store over the screening table, showing months 0 to 17 in
      counts mode with all four categories visible and no listeners. */
  method NewSdmFilterState() returns (store: FilterState)
    ensures fresh(store) && store.Valid() && store.data == SdmData
    ensures store.startIndex == 0 && store.endIndex == 17 && store.displayMode == "counts"
    ensures store.categories == map["screenIn" := true, "evaluateOut" := true,
                                    "overrideInPerson" := true, "overrideEvalOut" := true]
    ensures store.listeners == [] && store.delivered == []
  {
    SdmDataWellFormed();
    store := new FilterState(SdmData);
  }

  /** `getSDMMonthsList()`: the 18 labels, July 2021 first and December 2022 last. */
  function MonthsList(): (labels: seq<string>)
    ensures |labels| == 18 && labels[0] == "Jul 21" && labels[17] == "Dec 22"
  {
    SdmData.labels
  }
}
