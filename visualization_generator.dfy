/** The visualization generator: the keyword classifier that picks a chart type for a
    free-text request, the chart it makes current, and the two integer data derivations of
    its charts (running totals for the cumulative chart, the last six months for the radar
    chart). */
module VisualizationGenerator {
  import opened Common
  import FilterStore
  import InvestigationData

  /** The nine chart types the generator can draw. */
  datatype ChartType = Pie | Bar | StackedBar | Line | Area | Heatmap | Cumulative | PercentageBar | Radar
  {
    /** The type's id string. */
    function Id(): (id: string)
      ensures id in {"pie", "bar", "stackedBar", "line", "area", "heatmap", "cumulative",
                     "percentageBar", "radar"}
    {
      match this
      case Pie => "pie"
      case Bar => "bar"
      case StackedBar => "stackedBar"
      case Line => "line"
      case Area => "area"
      case Heatmap => "heatmap"
      case Cumulative => "cumulative"
      case PercentageBar => "percentageBar"
      case Radar => "radar"
    }
  }

  /** Different types have different ids, so a type is known from its id. */
  lemma IdInjective(a: ChartType, b: ChartType)
    ensures a.Id() == b.Id() <==> a == b
  {
  }

  /** What `parseRequest` returns: the detected type and the request as given. */
  datatype Parsed = Parsed(chartType: ChartType, request: string)

  /** `parseRequest(request)`: lower-cases the request and tests the keyword groups in a
      fixed order, the first group that matches deciding the type, and `bar` when none does.
      The request itself is returned unchanged. */
  function ParseRequest(request: string): (p: Parsed)
    ensures p.request == request
  {
    var r := Lower(request);
    var t :=
      if Contains(r, "stacked") && Contains(r, "bar") then StackedBar
      else if Contains(r, "bar") || Contains(r, "column") then Bar
      else if Contains(r, "line") || Contains(r, "trend") then Line
      else if Contains(r, "area") then Area
      else if Contains(r, "heatmap") || Contains(r, "heat map") then Heatmap
      else if Contains(r, "pie") || Contains(r, "donut") || Contains(r, "doughnut") then Pie
      else if Contains(r, "cumulative") || Contains(r, "running total") then Cumulative
      else if Contains(r, "percentage") || Contains(r, "percent") || Contains(r, "proportion") then PercentageBar
      else if Contains(r, "radar") || Contains(r, "spider") then Radar
      else Bar;
    Parsed(t, request)
  }

  // ---------------------------------------------------------------------------
  // An independent statement of the classifier: a keyword table and a priority list
  // ---------------------------------------------------------------------------

  /** The keyword test of each type on a lower-cased request: `stackedBar` needs both of its
      words, every other type any one of its words. */
  predicate Matches(r: string, t: ChartType)
  {
    match t
    case StackedBar => Contains(r, "stacked") && Contains(r, "bar")
    case Bar => Contains(r, "bar") || Contains(r, "column")
    case Line => Contains(r, "line") || Contains(r, "trend")
    case Area => Contains(r, "area")
    case Heatmap => Contains(r, "heatmap") || Contains(r, "heat map")
    case Pie => Contains(r, "pie") || Contains(r, "donut") || Contains(r, "doughnut")
    case Cumulative => Contains(r, "cumulative") || Contains(r, "running total")
    case PercentageBar => Contains(r, "percentage") || Contains(r, "percent") || Contains(r, "proportion")
    case Radar => Contains(r, "radar") || Contains(r, "spider")
  }

  /** The order in which the groups are tried. */
  const Priority: seq<ChartType> := [StackedBar, Bar, Line, Area, Heatmap, Pie, Cumulative, PercentageBar, Radar]

  /** The first type of `order` whose keywords match, `bar` when none does. */
  function FirstMatch(r: string, order: seq<ChartType>): ChartType
  {
    if order == [] then Bar
    else if Matches(r, order[0]) then order[0]
    else FirstMatch(r, order[1..])
  }

  /** The priority list names every type exactly once. */
  lemma PriorityListsEveryType(t: ChartType)
    ensures t in Priority
    ensures forall i, j :: 0 <= i < j < |Priority| ==> Priority[i] != Priority[j]
  {
  }

  /** No type before position `k` of `order` matches. */
  predicate NoEarlierMatch(r: string, order: seq<ChartType>, k: nat)
  {
    forall j :: 0 <= j < k && j < |order| ==> !Matches(r, order[j])
  }

  /** First match, stated by position: the result is the type at the first position of the
      list whose keywords match, and `bar` when no position matches. */
  lemma {:induction false} FirstMatchIsFirst(r: string, order: seq<ChartType>)
    ensures NoEarlierMatch(r, order, |order|) ==> FirstMatch(r, order) == Bar
    ensures forall k :: 0 <= k < |order| && Matches(r, order[k]) && NoEarlierMatch(r, order, k) ==>
              FirstMatch(r, order) == order[k]
  {
    if order != [] {
      FirstMatchIsFirst(r, order[1..]);
      forall k: nat | k <= |order|
        ensures NoEarlierMatch(r, order, k) && k > 0 ==> NoEarlierMatch(r, order[1..], k - 1)
      {
        if NoEarlierMatch(r, order, k) && k > 0 {
          forall j | 0 <= j < k - 1 && j < |order[1..]|
            ensures !Matches(r, order[1..][j])
          {
            assert order[1..][j] == order[j + 1];
          }
        }
      }
      assert NoEarlierMatch(r, order, |order|) ==> !Matches(r, order[0]);
    }
  }

  /** `parseRequest` is the first match of the keyword table in priority order. */
  lemma ParseRequestIsFirstMatch(request: string)
    ensures ParseRequest(request).chartType == FirstMatch(Lower(request), Priority)
  {
    var r := Lower(request);
    assert FirstMatch(r, Priority) == if Matches(r, StackedBar) then StackedBar else FirstMatch(r, [Bar, Line, Area, Heatmap, Pie, Cumulative, PercentageBar, Radar]);
    assert FirstMatch(r, [Bar, Line, Area, Heatmap, Pie, Cumulative, PercentageBar, Radar]) == if Matches(r, Bar) then Bar else FirstMatch(r, [Line, Area, Heatmap, Pie, Cumulative, PercentageBar, Radar]);
    assert FirstMatch(r, [Line, Area, Heatmap, Pie, Cumulative, PercentageBar, Radar]) == if Matches(r, Line) then Line else FirstMatch(r, [Area, Heatmap, Pie, Cumulative, PercentageBar, Radar]);
    assert FirstMatch(r, [Area, Heatmap, Pie, Cumulative, PercentageBar, Radar]) == if Matches(r, Area) then Area else FirstMatch(r, [Heatmap, Pie, Cumulative, PercentageBar, Radar]);
    assert FirstMatch(r, [Heatmap, Pie, Cumulative, PercentageBar, Radar]) == if Matches(r, Heatmap) then Heatmap else FirstMatch(r, [Pie, Cumulative, PercentageBar, Radar]);
    assert FirstMatch(r, [Pie, Cumulative, PercentageBar, Radar]) == if Matches(r, Pie) then Pie else FirstMatch(r, [Cumulative, PercentageBar, Radar]);
    assert FirstMatch(r, [Cumulative, PercentageBar, Radar]) == if Matches(r, Cumulative) then Cumulative else FirstMatch(r, [PercentageBar, Radar]);
    assert FirstMatch(r, [PercentageBar, Radar]) == if Matches(r, PercentageBar) then PercentageBar else FirstMatch(r, [Radar]);
    assert FirstMatch(r, [Radar]) == if Matches(r, Radar) then Radar else FirstMatch(r, []);
    assert FirstMatch(r, []) == Bar;
  }

  // ---------------------------------------------------------------------------
  // Properties of the classifier
  // ---------------------------------------------------------------------------

  /** Classification ignores letter case: requests that lower-case to the same string get
      the same type, and a request is classified like its lower-case form. */
  lemma CaseInsensitive(x: string, y: string)
    ensures Lower(x) == Lower(y) ==> ParseRequest(x).chartType == ParseRequest(y).chartType
    ensures ParseRequest(Lower(x)).chartType == ParseRequest(x).chartType
  {
    LowerIdempotent(x);
  }

  /** A request is `stackedBar` exactly when it has both "stacked" and "bar"; that test comes
      before the `bar` test. */
  lemma StackedBarIff(request: string)
    ensures var r := Lower(request);
      ParseRequest(request).chartType == StackedBar <==> Contains(r, "stacked") && Contains(r, "bar")
  {
  }

  /** Any request with "bar" or "column" but without "stacked" is a bar chart, whatever else
      it mentions ("pie", "percentage", ...). */
  lemma BarWinsOverLaterKeywords(request: string)
    requires var r := Lower(request); (Contains(r, "bar") || Contains(r, "column")) && !Contains(r, "stacked")
    ensures ParseRequest(request).chartType == Bar
  {
  }

  /** "line" and "trend" are tested before "cumulative": a request with either of them and
      without "bar" or "column" is a line chart even when it also says "cumulative". */
  lemma LineBeforeCumulative(request: string)
    requires var r := Lower(request);
      (Contains(r, "line") || Contains(r, "trend")) && !Contains(r, "bar") && !Contains(r, "column")
    ensures ParseRequest(request).chartType == Line
  {
  }

  /** A request that matches no keyword group is a bar chart. */
  lemma DefaultIsBar(request: string)
    requires forall t :: !Matches(Lower(request), t)
    ensures ParseRequest(request).chartType == Bar
  {
    var r := Lower(request);
    assert !Matches(r, StackedBar) && !Matches(r, Bar) && !Matches(r, Line);
    assert !Matches(r, Area) && !Matches(r, Heatmap) && !Matches(r, Pie);
    assert !Matches(r, Cumulative) && !Matches(r, PercentageBar) && !Matches(r, Radar);
  }

  /** Concrete classifications: each listed type's own request, and the two requests whose
      words lead to an earlier group. */
  lemma KnownClassifications()
    ensures ParseRequest("pie chart").chartType == Pie
    ensures ParseRequest("bar chart").chartType == Bar
    ensures ParseRequest("stacked bar chart").chartType == StackedBar
    ensures ParseRequest("line chart").chartType == Line
    ensures ParseRequest("area chart").chartType == Area
    ensures ParseRequest("heatmap").chartType == Heatmap
    ensures ParseRequest("cumulative").chartType == Cumulative
    ensures ParseRequest("percentage").chartType == PercentageBar
    ensures ParseRequest("radar").chartType == Radar
    ensures ParseRequest("cumulative trend").chartType == Line
    ensures ParseRequest("percentage bar chart").chartType == Bar
  {
    ClassifiesPieChart();
    ClassifiesBarChart();
    ClassifiesStackedBarChart();
    ClassifiesLineChart();
    ClassifiesAreaChart();
    ClassifiesHeatmap();
    ClassifiesCumulative();
    ClassifiesPercentage();
    ClassifiesRadar();
    ClassifiesCumulativeTrend();
    ClassifiesPercentageBarChart();
  }

  /** "pie chart" is classified `Pie`. */
  lemma ClassifiesPieChart()
    ensures ParseRequest("pie chart").chartType == Pie
  {
    LowerOfLowercase("pie chart");
    NotContainsChar("pie chart", "stacked", 0);
    NotContainsChar("pie chart", "bar", 0);
    NotContainsChar("pie chart", "column", 1);
    NotContainsChar("pie chart", "line", 0);
    NotContainsChar("pie chart", "trend", 3);
    NotContainsByColumn("pie chart", "area", 0);
    NotContainsChar("pie chart", "heatmap", 4);
    NotContainsChar("pie chart", "heat map", 5);
    ContainsWitness("pie chart", "pie", 0);
  }

  /** "bar chart" is classified `Bar`. */
  lemma ClassifiesBarChart()
    ensures ParseRequest("bar chart").chartType == Bar
  {
    LowerOfLowercase("bar chart");
    NotContainsChar("bar chart", "stacked", 0);
    ContainsWitness("bar chart", "bar", 0);
  }

  /** "stacked bar chart" is classified `StackedBar`. */
  lemma ClassifiesStackedBarChart()
    ensures ParseRequest("stacked bar chart").chartType == StackedBar
  {
    LowerOfLowercase("stacked bar chart");
    ContainsWitness("stacked bar chart", "stacked", 0);
    ContainsWitness("stacked bar chart", "bar", 8);
  }

  /** "line chart" is classified `Line`. */
  lemma ClassifiesLineChart()
    ensures ParseRequest("line chart").chartType == Line
  {
    LowerOfLowercase("line chart");
    NotContainsChar("line chart", "stacked", 0);
    NotContainsChar("line chart", "bar", 0);
    NotContainsChar("line chart", "column", 1);
    ContainsWitness("line chart", "line", 0);
  }

  /** "area chart" is classified `Area`. */
  lemma ClassifiesAreaChart()
    ensures ParseRequest("area chart").chartType == Area
  {
    LowerOfLowercase("area chart");
    NotContainsChar("area chart", "stacked", 0);
    NotContainsChar("area chart", "bar", 0);
    NotContainsChar("area chart", "column", 1);
    NotContainsChar("area chart", "line", 0);
    NotContainsChar("area chart", "trend", 3);
    ContainsWitness("area chart", "area", 0);
  }

  /** "heatmap" is classified `Heatmap`. */
  lemma ClassifiesHeatmap()
    ensures ParseRequest("heatmap").chartType == Heatmap
  {
    LowerOfLowercase("heatmap");
    NotContainsChar("heatmap", "stacked", 0);
    NotContainsChar("heatmap", "bar", 0);
    NotContainsChar("heatmap", "column", 0);
    NotContainsChar("heatmap", "line", 0);
    NotContainsChar("heatmap", "trend", 1);
    NotContainsChar("heatmap", "area", 1);
    ContainsWitness("heatmap", "heatmap", 0);
  }

  /** "cumulative" is classified `Cumulative`. */
  lemma ClassifiesCumulative()
    ensures ParseRequest("cumulative").chartType == Cumulative
  {
    LowerOfLowercase("cumulative");
    NotContainsChar("cumulative", "stacked", 0);
    NotContainsChar("cumulative", "bar", 0);
    NotContainsChar("cumulative", "column", 1);
    NotContainsChar("cumulative", "line", 2);
    NotContainsChar("cumulative", "trend", 1);
    NotContainsChar("cumulative", "area", 1);
    NotContainsChar("cumulative", "heatmap", 0);
    NotContainsChar("cumulative", "heat map", 0);
    NotContainsChar("cumulative", "pie", 0);
    NotContainsChar("cumulative", "donut", 0);
    NotContainsChar("cumulative", "doughnut", 0);
    ContainsWitness("cumulative", "cumulative", 0);
  }

  /** "percentage" is classified `PercentageBar`. */
  lemma ClassifiesPercentage()
    ensures ParseRequest("percentage").chartType == PercentageBar
  {
    LowerOfLowercase("percentage");
    NotContainsChar("percentage", "stacked", 0);
    NotContainsChar("percentage", "bar", 0);
    NotContainsChar("percentage", "column", 1);
    NotContainsChar("percentage", "line", 0);
    NotContainsChar("percentage", "trend", 4);
    NotContainsByColumn("percentage", "area", 0);
    NotContainsChar("percentage", "heatmap", 0);
    NotContainsChar("percentage", "heat map", 0);
    NotContainsChar("percentage", "pie", 1);
    NotContainsChar("percentage", "donut", 0);
    NotContainsChar("percentage", "doughnut", 0);
    NotContainsChar("percentage", "cumulative", 1);
    NotContainsChar("percentage", "running total", 1);
    ContainsWitness("percentage", "percentage", 0);
  }

  /** "radar" is classified `Radar`. */
  lemma ClassifiesRadar()
    ensures ParseRequest("radar").chartType == Radar
  {
    LowerOfLowercase("radar");
    NotContainsChar("radar", "stacked", 0);
    NotContainsChar("radar", "bar", 0);
    NotContainsChar("radar", "column", 0);
    NotContainsChar("radar", "line", 0);
    NotContainsChar("radar", "trend", 0);
    NotContainsChar("radar", "area", 2);
    NotContainsChar("radar", "heatmap", 0);
    NotContainsChar("radar", "heat map", 0);
    NotContainsChar("radar", "pie", 0);
    NotContainsChar("radar", "donut", 1);
    NotContainsChar("radar", "doughnut", 1);
    NotContainsChar("radar", "cumulative", 0);
    NotContainsChar("radar", "running total", 1);
    NotContainsChar("radar", "percentage", 0);
    NotContainsChar("radar", "percent", 0);
    NotContainsChar("radar", "proportion", 0);
    ContainsWitness("radar", "radar", 0);
  }

  /** "cumulative trend" is classified `Line`. */
  lemma ClassifiesCumulativeTrend()
    ensures ParseRequest("cumulative trend").chartType == Line
  {
    LowerOfLowercase("cumulative trend");
    NotContainsChar("cumulative trend", "stacked", 0);
    NotContainsChar("cumulative trend", "bar", 0);
    NotContainsChar("cumulative trend", "column", 1);
    ContainsWitness("cumulative trend", "trend", 11);
  }

  /** "percentage bar chart" is classified `Bar`. */
  lemma ClassifiesPercentageBarChart()
    ensures ParseRequest("percentage bar chart").chartType == Bar
  {
    LowerOfLowercase("percentage bar chart");
    NotContainsChar("percentage bar chart", "stacked", 0);
    ContainsWitness("percentage bar chart", "bar", 11);
  }


  // ---------------------------------------------------------------------------
  // getChartTypes
  // ---------------------------------------------------------------------------

  /** One button of the chart-type bar. */
  datatype ChartTypeInfo = ChartTypeInfo(id: string, caption: string, icon: string)

  /** `getChartTypes()`: eight of the nine types, without `radar`. */
  function GetChartTypes(): (types: seq<ChartTypeInfo>)
    ensures |types| == 8
    ensures forall i :: 0 <= i < |types| ==> types[i].id != "radar"
  {
    [ChartTypeInfo("pie", "Pie", ""), ChartTypeInfo("bar", "Bar", ""),
     ChartTypeInfo("stackedBar", "Stacked", ""), ChartTypeInfo("line", "Line", ""),
     ChartTypeInfo("area", "Area", ""), ChartTypeInfo("heatmap", "Heatmap", ""),
     ChartTypeInfo("cumulative", "Cumulative", ""), ChartTypeInfo("percentageBar", "Percentage", "%")]
  }

  /** Every listed id is a type `parseRequest` can return, and `radar`, which it can also
      return, is not listed. */
  lemma ListedTypesReturnable()
    ensures forall i :: 0 <= i < |GetChartTypes()| ==>
              exists request :: ParseRequest(request).chartType.Id() == GetChartTypes()[i].id
    ensures ParseRequest("radar").chartType == Radar
    ensures forall i :: 0 <= i < |GetChartTypes()| ==> GetChartTypes()[i].id != Radar.Id()
  {
    KnownClassifications();
    var witnesses := ["pie chart", "bar chart", "stacked bar chart", "line chart", "area chart", "heatmap", "cumulative", "percentage"];
    forall i | 0 <= i < |GetChartTypes()|
      ensures exists request :: ParseRequest(request).chartType.Id() == GetChartTypes()[i].id
    {
      assert ParseRequest(witnesses[i]).chartType.Id() == GetChartTypes()[i].id;
    }
  }

  // ---------------------------------------------------------------------------
  // The cumulative chart's running totals
  // ---------------------------------------------------------------------------

  /** The running totals of a series: element `i` is the sum of the first `i + 1` counts. */
  function RunningTotals(xs: seq<nat>): (r: seq<nat>)
    ensures |r| == |xs|
  {
    seq(|xs|, i requires 0 <= i < |xs| => Sum(xs[..i + 1]))
  }

  /** `series.map(v => acc += v)` with `acc` starting at 0. */
  method CumulativeSums(xs: seq<nat>) returns (r: seq<nat>)
    ensures r == RunningTotals(xs)
  {
    var acc: nat := 0;
    r := [];
    var i := 0;
    while i < |xs|
      invariant 0 <= i <= |xs|
      invariant acc == Sum(xs[..i])
      invariant |r| == i && forall k :: 0 <= k < i ==> r[k] == Sum(xs[..k + 1])
    {
      assert xs[..i + 1][..i] == xs[..i];
      acc := acc + xs[i];
      r := r + [acc];
      i := i + 1;
    }
  }

  /** The running totals never decrease. */
  lemma RunningTotalsMonotone(xs: seq<nat>, i: nat, j: nat)
    requires i <= j < |xs|
    ensures RunningTotals(xs)[i] <= RunningTotals(xs)[j]
  {
    assert xs[..j + 1] == xs[..i + 1] + xs[i + 1..j + 1];
    SumAppend(xs[..i + 1], xs[i + 1..j + 1]);
  }

  /** The last running total is the series total. */
  lemma RunningTotalsLast(xs: seq<nat>)
    requires |xs| > 0
    ensures RunningTotals(xs)[|xs| - 1] == Sum(xs)
  {
    assert xs[..|xs|] == xs;
  }

  /** The running totals determine the series: the first total is the first count and each
      later count is the difference of consecutive totals. */
  lemma RunningTotalsDifferences(xs: seq<nat>, i: nat)
    requires i < |xs|
    ensures i == 0 ==> RunningTotals(xs)[0] == xs[0]
    ensures i > 0 ==> RunningTotals(xs)[i] == RunningTotals(xs)[i - 1] + xs[i]
  {
    var r := RunningTotals(xs);
    assert xs[..i + 1][..i] == xs[..i];
    assert r[i] == Sum(xs[..i + 1]) == Sum(xs[..i]) + xs[i];
    if i == 0 {
      assert xs[..0] == [];
    } else {
      assert r[i - 1] == Sum(xs[..i]);
    }
  }

  /** The three series of the cumulative chart. */
  method CumulativeChartSeries(t: InvestigationData.Table) returns (timely: seq<nat>, notTimely: seq<nat>, pending: seq<nat>)
    ensures timely == RunningTotals(t.timely)
    ensures notTimely == RunningTotals(t.notTimely)
    ensures pending == RunningTotals(t.pending)
  {
    timely := CumulativeSums(t.timely);
    notTimely := CumulativeSums(t.notTimely);
    pending := CumulativeSums(t.pending);
  }

  // ---------------------------------------------------------------------------
  // The radar chart's last six months
  // ---------------------------------------------------------------------------

  /** `s.slice(-6)`: the last six entries, or all of them when there are fewer. */
  function LastSix<T>(s: seq<T>): (r: seq<T>)
    ensures |s| >= 6 ==> r == s[|s| - 6..]
    ensures |s| < 6 ==> r == s
  {
    FilterStore.JsSlice(s, -6, |s|)
  }

  /** The radar chart's labels and series are index-aligned: position `k` of each of them is
      the same month of the table. */
  lemma RadarAligned(t: InvestigationData.Table, k: nat)
    requires t.WellFormed() && k < |LastSix(t.months)|
    ensures |LastSix(t.timely)| == |LastSix(t.notTimely)| == |LastSix(t.pending)| == |LastSix(t.months)|
    ensures var i := |t.months| - |LastSix(t.months)| + k;
      0 <= i < |t.months|
      && LastSix(t.months)[k] == t.months[i] && LastSix(t.timely)[k] == t.timely[i]
      && LastSix(t.notTimely)[k] == t.notTimely[i] && LastSix(t.pending)[k] == t.pending[i]
  {
  }

  /** On the investigation table the radar shows July to December 2022. */
  lemma RadarMonths()
    ensures LastSix(InvestigationData.Data.months) == ["Jul 22", "Aug 22", "Sep 22", "Oct 22", "Nov 22", "Dec 22"]
  {
  }

  // ---------------------------------------------------------------------------
  // The generator and its current chart
  // ---------------------------------------------------------------------------

  /** The generator: the chart it drew last, if any. */
  class Generator {
    var currentChart: Option<ChartType>

    /** A new generator has drawn nothing. */
    constructor ()
      ensures currentChart == None
    {
      currentChart := None;
    }

    /** `generateVisualization(request, canvas)`: draws the chart of the classified type, which
        becomes the current chart, and returns that type. */
    method GenerateVisualization(request: string) returns (drawn: ChartType)
      modifies this
      ensures drawn == ParseRequest(request).chartType
      ensures currentChart == Some(drawn)
    {
      drawn := ParseRequest(request).chartType;
      currentChart := Some(drawn);
    }

    /** `resetToDefault(canvas)`: draws the pie chart. */
    method ResetToDefault() returns (drawn: ChartType)
      modifies this
      ensures drawn == Pie && currentChart == Some(Pie)
    {
      drawn := Pie;
      currentChart := Some(Pie);
    }
  }
}
