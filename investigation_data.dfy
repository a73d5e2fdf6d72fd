/** The investigation table (24 months, January 2021 to December 2022, three categories),
    its static December 2022 summary, and the helpers that read it: monthly records with
    totals, one month's entries, one month's percentages and the bundle handed to the
    analyzer. */
module InvestigationData {
  import opened Common
  import FilterStore

  /** One category of the static summary; the percentage is in tenths of a percent. */
  datatype SummaryCategory = SummaryCategory(name: string, count: nat, percentage: nat)

  /** The static summary block of the table. */
  datatype Summary = Summary(timeframe: string, description: string,
                             categories: seq<SummaryCategory>, total: nat)

  /** `investigationData`: month labels, one count series per category, and the summary. */
  datatype Table = Table(months: seq<string>, timely: seq<nat>, notTimely: seq<nat>,
                         pending: seq<nat>, summary: Summary)
  {
    /** Every series has one entry per month. */
    predicate WellFormed()
    {
      |timely| == |months| && |notTimely| == |months| && |pending| == |months|
    }
  }

  const Months: seq<string> := [
    "Jan 21", "Feb 21", "Mar 21", "Apr 21", "May 21", "Jun 21",
    "Jul 21", "Aug 21", "Sep 21", "Oct 21", "Nov 21", "Dec 21",
    "Jan 22", "Feb 22", "Mar 22", "Apr 22", "May 22", "Jun 22",
    "Jul 22", "Aug 22", "Sep 22", "Oct 22", "Nov 22", "Dec 22"]
  const Timely: seq<nat> := [45, 52, 68, 85, 120, 135, 142, 158, 165, 172, 180, 188,
                             195, 210, 225, 248, 265, 285, 310, 335, 358, 382, 405, 1737]
  const NotTimely: seq<nat> := [12, 15, 18, 22, 28, 32, 35, 38, 42, 45, 48, 52,
                                55, 58, 62, 65, 68, 72, 75, 78, 82, 85, 88, 152]
  const Pending: seq<nat> := [3, 4, 5, 6, 8, 9, 10, 11, 12, 13, 14, 15,
                              16, 17, 18, 19, 20, 21, 22, 23, 24, 25, 26, 24]

  /** `investigationData`. */
  const Data: Table := Table(
    Months, Timely, NotTimely, Pending,
    Summary("December, 2022",
            "All referrals received in the selected month (12/01/22 to 12/31/22)",
            [SummaryCategory("Investigation Timely", 1737, 908),
             SummaryCategory("Investigation Not Timely", 152, 79),
             SummaryCategory("Pending Investigation", 24, 13)],
            1913))

  /** The table has 24 months and every series has 24 entries. */
  lemma DataWellFormed()
    ensures Data.WellFormed()
    ensures |Data.months| == 24 && |Data.timely| == 24 && |Data.notTimely| == 24 && |Data.pending| == 24
  {
  }

  // ---------------------------------------------------------------------------
  // getMonthlyTotals
  // ---------------------------------------------------------------------------

  /** One element of `getMonthlyTotals()`. */
  datatype MonthRecord = MonthRecord(month: string, timely: nat, notTimely: nat, pending: nat,
                                     total: nat)

  /** The sum of the three counts of month `i`. */
  function MonthTotal(t: Table, i: nat): nat
    requires t.WellFormed() && i < |t.months|
  {
    t.timely[i] + t.notTimely[i] + t.pending[i]
  }

  /** `getMonthlyTotals()`: one record per month, in month order, carrying the month's
      three counts and their sum. */
  function MonthlyTotals(t: Table): (r: seq<MonthRecord>)
    requires t.WellFormed()
    ensures |r| == |t.months|
    ensures forall i :: 0 <= i < |r| ==>
              r[i].month == t.months[i] && r[i].timely == t.timely[i]
              && r[i].notTimely == t.notTimely[i] && r[i].pending == t.pending[i]
              && r[i].total == r[i].timely + r[i].notTimely + r[i].pending
  {
    seq(|t.months|, i requires 0 <= i < |t.months| =>
          MonthRecord(t.months[i], t.timely[i], t.notTimely[i], t.pending[i], MonthTotal(t, i)))
  }

  /** The totals of a sequence of monthly records. */
  function RecordTotals(rs: seq<MonthRecord>): (s: seq<nat>)
    ensures |s| == |rs|
  {
    seq(|rs|, i requires 0 <= i < |rs| => rs[i].total)
  }

  /** No referral is lost or counted twice: the monthly totals add up to the three series'
      sums together. */
  lemma {:induction false} MonthlyTotalsConserve(t: Table)
    requires t.WellFormed()
    ensures Sum(RecordTotals(MonthlyTotals(t))) == Sum(t.timely) + Sum(t.notTimely) + Sum(t.pending)
    decreases |t.months|
  {
    var n := |t.months|;
    if n > 0 {
      var t' := t.(months := t.months[..n - 1], timely := t.timely[..n - 1],
                   notTimely := t.notTimely[..n - 1], pending := t.pending[..n - 1]);
      MonthlyTotalsConserve(t');
      assert RecordTotals(MonthlyTotals(t))[..n - 1] == RecordTotals(MonthlyTotals(t'));
    }
  }

  // ---------------------------------------------------------------------------
  // getMonthData and getMonthPercentages
  // ---------------------------------------------------------------------------

  /** What `getMonthData(i)` returns; an index outside the table reads `undefined` in every
      field, which is `None` here. */
  datatype MonthData = MonthData(month: Option<string>, timely: Option<nat>,
                                 notTimely: Option<nat>, pending: Option<nat>)

  /** The entry of a series at `i`, absent outside it. */
  function At<T>(s: seq<T>, i: int): (r: Option<T>)
    ensures 0 <= i < |s| ==> r == Some(s[i])
    ensures !(0 <= i < |s|) ==> r == None
  {
    if 0 <= i < |s| then Some(s[i]) else None
  }

  /** `getMonthData(i)`: the i-th entry of the months and of each series. */
  function GetMonthData(t: Table, i: int): (r: MonthData)
    requires t.WellFormed()
    ensures 0 <= i < |t.months| ==>
              r == MonthData(Some(t.months[i]), Some(t.timely[i]), Some(t.notTimely[i]), Some(t.pending[i]))
    ensures !(0 <= i < |t.months|) ==> r == MonthData(None, None, None, None)
  {
    MonthData(At(t.months, i), At(t.timely, i), At(t.notTimely, i), At(t.pending, i))
  }

  /** What `getMonthPercentages(i)` returns: each share in tenths of a percent, or `None`
      where JavaScript computes `NaN` (a month with no referrals, or an index outside the
      table, since the division has no zero guard). */
  datatype MonthPercentages = MonthPercentages(month: Option<string>, timely: Option<nat>,
                                               notTimely: Option<nat>, pending: Option<nat>)

  /** `((count / total) * 100).toFixed(1)` as tenths rounded half up; `None` for `0 / 0`. */
  function ShareTenths(count: nat, total: nat): (r: Option<nat>)
    ensures total == 0 <==> r == None
    ensures r.Some? ==> 2 * r.value * total - total <= 2000 * count < 2 * r.value * total + total
  {
    if total > 0 then Some(FilterStore.PercentTenths(count, total)) else None
  }

  /** `getMonthPercentages(i)`. */
  function GetMonthPercentages(t: Table, i: int): (r: MonthPercentages)
    requires t.WellFormed()
    ensures !(0 <= i < |t.months|) ==> r == MonthPercentages(None, None, None, None)
    ensures 0 <= i < |t.months| ==>
              r.month == Some(t.months[i])
              && (r.timely == None <==> MonthTotal(t, i) == 0)
              && r.timely == ShareTenths(t.timely[i], MonthTotal(t, i))
              && r.notTimely == ShareTenths(t.notTimely[i], MonthTotal(t, i))
              && r.pending == ShareTenths(t.pending[i], MonthTotal(t, i))
  {
    var d := GetMonthData(t, i);
    if d.timely.Some? && d.notTimely.Some? && d.pending.Some? then
      var total := d.timely.value + d.notTimely.value + d.pending.value;
      MonthPercentages(d.month, ShareTenths(d.timely.value, total),
                       ShareTenths(d.notTimely.value, total), ShareTenths(d.pending.value, total))
    else
      MonthPercentages(d.month, None, None, None)
  }

  /** The exact share of `count` in `total`, in percent. */
  function ExactShare(count: nat, total: nat): real
    requires total > 0
  {
    (count as real) / (total as real) * 100.0
  }

  /** With exact arithmetic the three shares of a month with referrals add up to 100. */
  lemma ExactSharesSumTo100(t: Table, i: nat)
    requires t.WellFormed() && i < |t.months| && MonthTotal(t, i) > 0
    ensures var total := MonthTotal(t, i);
      ExactShare(t.timely[i], total) + ExactShare(t.notTimely[i], total)
      + ExactShare(t.pending[i], total) == 100.0
  {
    ThreeSharesOfWhole(t.timely[i] as real, t.notTimely[i] as real, t.pending[i] as real,
                       MonthTotal(t, i) as real);
  }

  /** Three parts of a positive whole, each as a percentage of it, add up to 100. */
  lemma ThreeSharesOfWhole(a: real, b: real, c: real, whole: real)
    requires whole > 0.0 && a + b + c == whole
    ensures a / whole * 100.0 + b / whole * 100.0 + c / whole * 100.0 == 100.0
  {
    assert a / whole + b / whole + c / whole == (a + b + c) / whole;
  }

  /** Rounded to tenths, the three shares of a month with referrals add up to 99.9, 100.0
      or 100.1. */
  lemma RoundedSharesNear100(t: Table, i: nat)
    requires t.WellFormed() && i < |t.months| && MonthTotal(t, i) > 0
    ensures var p := GetMonthPercentages(t, i);
      p.timely.Some? && p.notTimely.Some? && p.pending.Some?
      && 999 <= p.timely.value + p.notTimely.value + p.pending.value <= 1001
  {
    var total := MonthTotal(t, i);
    var counts := [t.timely[i], t.notTimely[i], t.pending[i]];
    SumOfThree(t.timely[i], t.notTimely[i], t.pending[i]);
    FilterStore.PercentSumBounds(counts, total);
    var ps := FilterStore.Percents(counts, total);
    SumOfThree(ps[0], ps[1], ps[2]);
    assert ps == [ps[0], ps[1], ps[2]];
  }

  // ---------------------------------------------------------------------------
  // The static summary and getAnalysisData
  // ---------------------------------------------------------------------------

  /** The counts of the summary, in category order. */
  function SummaryCounts(s: Summary): (r: seq<nat>)
    ensures |r| == |s.categories|
  {
    seq(|s.categories|, c requires 0 <= c < |s.categories| => s.categories[c].count)
  }

  /** The static summary is the last month's data: its counts are December 2022's entries,
      its total their sum, 1913, and its percentages that month's rounded shares. */
  lemma SummaryIsLastMonth()
    ensures |Data.summary.categories| == 3
    ensures SummaryCounts(Data.summary) == [Data.timely[23], Data.notTimely[23], Data.pending[23]]
    ensures Data.summary.total == Sum(SummaryCounts(Data.summary)) == MonthTotal(Data, 23) == 1913
    ensures var p := GetMonthPercentages(Data, 23);
      p.month == Some("Dec 22")
      && p.timely == Some(Data.summary.categories[0].percentage)
      && p.notTimely == Some(Data.summary.categories[1].percentage)
      && p.pending == Some(Data.summary.categories[2].percentage)
  {
    SumOfThree(1737, 152, 24);
    assert SummaryCounts(Data.summary) == [1737, 152, 24];
  }

  /** `getDateRange()`. */
  datatype DateRange = DateRange(start: string, end: string)

  /** What `getAnalysisData()` returns. */
  datatype AnalysisData = AnalysisData(raw: Table, monthly: seq<MonthRecord>, summary: Summary,
                                       dateRange: DateRange)

  /** `getAnalysisData()`: the table, its monthly records, its summary and the fixed period. */
  function GetAnalysisData(): (r: AnalysisData)
    ensures r.raw == Data && r.monthly == MonthlyTotals(Data)
    ensures |r.monthly| == |r.raw.months| == 24
    ensures r.summary == r.raw.summary
    ensures r.dateRange == DateRange("January 2021", "December 2022")
  {
    AnalysisData(Data, MonthlyTotals(Data), Data.summary, DateRange("January 2021", "December 2022"))
  }

  /** In the analysis bundle, the summary agrees with the last monthly record. */
  lemma AnalysisSummaryMatchesLastRecord()
    ensures var a := GetAnalysisData();
      var last := a.monthly[|a.monthly| - 1];
      && SummaryCounts(a.summary) == [last.timely, last.notTimely, last.pending]
      && a.summary.total == last.total
  {
    SummaryIsLastMonth();
  }

  // ---------------------------------------------------------------------------
  // The table as the generic filter store sees it
  // ---------------------------------------------------------------------------

  /** The investigation table in the store's form, under the category keys the filter bar
      uses. The store for this table is not part of this model, so its colours are unknown
      and left empty. */
  const StoreData: FilterStore.Dataset := FilterStore.Dataset(
    "Investigations", Data.months,
    [FilterStore.CategoryDescriptor("timely", "Investigation Timely", ""),
     FilterStore.CategoryDescriptor("notTimely", "Investigation Not Timely", ""),
     FilterStore.CategoryDescriptor("pending", "Pending Investigation", "")],
    [Data.timely, Data.notTimely, Data.pending])

  /** The store form is well formed, has the 24 months and exactly the three keys. */
  lemma StoreDataWellFormed()
    ensures StoreData.WellFormed() && |StoreData.labels| == 24
    ensures StoreData.CategoryIds() == {"timely", "notTimely", "pending"}
  {
    assert StoreData.CategoryIds() == {StoreData.descriptors[0].id, StoreData.descriptors[1].id,
                                       StoreData.descriptors[2].id};
  }
}
