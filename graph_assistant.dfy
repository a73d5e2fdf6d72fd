/** The graph assistant panel: a free-text request box, quick chart-type buttons and a reset
    button over the visualization generator, and the chart type the panel records as
    current. */
module ChartAssistant {
  import opened Common
  import opened VisualizationGenerator

  /** The quick-type table: the request each chart-type button sends. */
  const QuickRequests: map<string, string> := map[
    "pie" := "pie chart",
    "bar" := "bar chart",
    "stackedBar" := "stacked bar chart",
    "line" := "line chart",
    "area" := "area chart",
    "heatmap" := "heatmap",
    "cumulative" := "cumulative trend",
    "percentageBar" := "percentage bar chart"]

  /** `typeToRequest[type] || type`: the table's request, or the type itself when the table
      has no entry for it (every entry of the table is a non-empty string). */
  function TypeToRequest(chartType: string): (request: string)
    ensures chartType in QuickRequests ==> request == QuickRequests[chartType]
    ensures chartType !in QuickRequests ==> request == chartType
  {
    if chartType in QuickRequests && QuickRequests[chartType] != "" then QuickRequests[chartType]
    else chartType
  }

  /** Six of the table's requests classify back to the type that sent them. */
  lemma QuickRequestsRoundTrip(chartType: string)
    requires chartType in {"pie", "bar", "stackedBar", "line", "area", "heatmap"}
    ensures ParseRequest(TypeToRequest(chartType)).chartType.Id() == chartType
  {
    KnownClassifications();
  }

  /** Two of them do not: "cumulative trend" is a line chart and "percentage bar chart" a bar
      chart, so those buttons draw a different type than the one they name. */
  lemma QuickRequestsThatDiffer()
    ensures TypeToRequest("cumulative") == "cumulative trend"
    ensures ParseRequest(TypeToRequest("cumulative")).chartType == Line
    ensures TypeToRequest("percentageBar") == "percentage bar chart"
    ensures ParseRequest(TypeToRequest("percentageBar")).chartType == Bar
  {
    KnownClassifications();
  }

  /** A type outside the table is sent as it is: "radar" falls back to itself and is drawn
      as a radar chart. */
  lemma QuickRequestFallback()
    ensures "radar" !in QuickRequests && TypeToRequest("radar") == "radar"
    ensures ParseRequest(TypeToRequest("radar")).chartType == Radar
  {
    KnownClassifications();
  }

  /** The panel. `input` is the text box's value, absent when the box is not on the page;
      `activeType` is the type whose button was last marked active. Whether the chart canvas
      is on the page is a parameter of each handler. */
  class GraphAssistant {
    const generator: Generator
    var currentChartType: string
    var activeType: string
    var input: Option<string>

    /** A new panel records `pie`, which its first render marks active. */
    constructor (g: Generator, box: Option<string>)
      ensures generator == g && currentChartType == "pie" && activeType == "pie" && input == box
    {
      generator := g;
      currentChartType := "pie";
      activeType := "pie";
      input := box;
    }

    /** `handleGenerate()`: an absent box, an empty or white-space-only request, or a missing
        canvas changes nothing; otherwise the trimmed request is drawn, the classified type
        becomes current and active, and the box is cleared. */
    method HandleGenerate(canvasPresent: bool)
      modifies this, generator
      ensures old(input).None? || Trim(old(input).value) == [] || !canvasPresent ==>
                currentChartType == old(currentChartType) && activeType == old(activeType)
                && input == old(input) && generator.currentChart == old(generator.currentChart)
      ensures old(input).Some? && Trim(old(input).value) != [] && canvasPresent ==>
                var drawn := ParseRequest(Trim(old(input).value)).chartType;
                currentChartType == drawn.Id() && activeType == drawn.Id()
                && generator.currentChart == Some(drawn) && input == Some("")
    {
      if input.None? {
        return;
      }
      var request := Trim(input.value);
      if request == [] {
        return;
      }
      if !canvasPresent {
        return;
      }
      var drawn := generator.GenerateVisualization(request);
      currentChartType := drawn.Id();
      activeType := drawn.Id();
      input := Some("");
    }

    /** `handleQuickType(type)`: without a canvas nothing changes; otherwise the table's
        request is drawn and the requested type, not the classified one, becomes current. */
    method HandleQuickType(chartType: string, canvasPresent: bool)
      modifies this, generator
      ensures !canvasPresent ==>
                currentChartType == old(currentChartType) && activeType == old(activeType)
                && generator.currentChart == old(generator.currentChart)
      ensures canvasPresent ==>
                currentChartType == chartType && activeType == chartType
                && generator.currentChart == Some(ParseRequest(TypeToRequest(chartType)).chartType)
      ensures input == old(input)
    {
      if !canvasPresent {
        return;
      }
      var _ := generator.GenerateVisualization(TypeToRequest(chartType));
      currentChartType := chartType;
      activeType := chartType;
    }

    /** `handleReset()`: without a canvas nothing changes; otherwise the pie chart is drawn,
        `pie` becomes current and active, and the box (when present) is cleared. */
    method HandleReset(canvasPresent: bool)
      modifies this, generator
      ensures !canvasPresent ==>
                currentChartType == old(currentChartType) && activeType == old(activeType)
                && input == old(input) && generator.currentChart == old(generator.currentChart)
      ensures canvasPresent ==>
                currentChartType == "pie" && activeType == "pie" && generator.currentChart == Some(Pie)
                && input == (if old(input).Some? then Some("") else None)
    {
      if !canvasPresent {
        return;
      }
      var _ := generator.ResetToDefault();
      currentChartType := "pie";
      activeType := "pie";
      if input.Some? {
        input := Some("");
      }
    }
  }

  /** The cumulative button: the panel records `cumulative` while the generator has drawn a
      line chart. */
  method CumulativeButtonScenario()
  {
    var g := new Generator();
    var panel := new GraphAssistant(g, Some(""));
    KnownClassifications();
    panel.HandleQuickType("cumulative", true);
    assert panel.currentChartType == "cumulative";
    assert g.currentChart == Some(Line);
  }
}
