/** The competitive analyzer's graph (Manager 1): five workers and a compile node
    wired into one chain, an error handler no edge leads to, and the runner that
    builds the initial state and runs the chain. */
module Manager1Graph {
  import opened Wrappers
  import opened Text
  import opened PyValue
  import opened Messages
  import opened Graph
  import opened Manager1Workers

  /** A non-empty error text: what `if state.get("error")` tests. */
  predicate HasError(error: Option<string>) {
    error.Some? && error.value != ""
  }

  /** `should_continue`: "error" when an error is recorded, otherwise the current
      step. */
  function ShouldContinue(s: M1State): (r: string)
    ensures HasError(s.error) ==> r == "error"
    ensures !HasError(s.error) ==> r == s.currentStep
  {
    if HasError(s.error) then "error" else s.currentStep
  }

  /** `handle_error`: the error becomes the final report and the run is complete;
      the key is always present, so an unset error reads "None". */
  function HandleError(s: M1State): (r: M1State)
    ensures Agree(s, r, {FinalReport, CurrentStep})
    ensures r.currentStep == "complete"
    ensures r.finalReport == Some("Error occurred: " + Show(s.error))
  {
    s.(finalReport := Some("Error occurred: " + Show(s.error)), currentStep := "complete")
  }

  // ---------------------------------------------------------------------------
  // Topology

  const NodeNames: seq<string> :=
    ["step1_data_merger", "step2_cep_prioritizer", "step3_insight_analyzer",
     "step4_visualizer", "step5_slide_builder", "compile"]

  /** The one route through the graph. */
  const Chain: seq<string> := [Start] + NodeNames + [End]

  const Topology1: Topology := Topology(
    NodeNames + ["error"],
    [Edge(Start, "step1_data_merger"),
     Edge("step1_data_merger", "step2_cep_prioritizer"),
     Edge("step2_cep_prioritizer", "step3_insight_analyzer"),
     Edge("step3_insight_analyzer", "step4_visualizer"),
     Edge("step4_visualizer", "step5_slide_builder"),
     Edge("step5_slide_builder", "compile"),
     Edge("compile", End),
     Edge("error", End)],
    [])

  /** `create_manager1_graph`: the nodes, then the edges, added one by one. */
  method CreateManager1Graph() returns (g: GraphBuilder)
    ensures fresh(g) && g.Topo() == Topology1
  {
    g := new GraphBuilder();
    AddNodes1(g);
    AddEdges1(g);
  }

  /** The `add_node` calls of `create_manager1_graph`. */
  method AddNodes1(g: GraphBuilder)
    modifies g
    ensures g.nodes == old(g.nodes) + Topology1.nodes
    ensures g.edges == old(g.edges) && g.branches == old(g.branches)
  {
    g.AddNode("step1_data_merger");
    g.AddNode("step2_cep_prioritizer");
    g.AddNode("step3_insight_analyzer");
    g.AddNode("step4_visualizer");
    g.AddNode("step5_slide_builder");
    g.AddNode("compile");
    g.AddNode("error");
  }

  /** The `add_edge` calls of `create_manager1_graph`. */
  method AddEdges1(g: GraphBuilder)
    modifies g
    ensures g.edges == old(g.edges) + Topology1.edges
    ensures g.nodes == old(g.nodes) && g.branches == old(g.branches)
  {
    g.AddEdge(Start, "step1_data_merger");
    g.AddEdge("step1_data_merger", "step2_cep_prioritizer");
    g.AddEdge("step2_cep_prioritizer", "step3_insight_analyzer");
    g.AddEdge("step3_insight_analyzer", "step4_visualizer");
    g.AddEdge("step4_visualizer", "step5_slide_builder");
    g.AddEdge("step5_slide_builder", "compile");
    g.AddEdge("compile", End);
    g.AddEdge("error", End);
  }

  /** The graph is the single chain START, step 1 ... step 5, compile, END. */
  lemma ChainIsLinear()
    ensures Linear(Topology1, Chain)
  {
    var t := Topology1;
    var c := Chain;
    assert c == [Start, "step1_data_merger", "step2_cep_prioritizer", "step3_insight_analyzer",
                 "step4_visualizer", "step5_slide_builder", "compile", End];
    forall k | 0 <= k < |t.edges| && t.edges[k].src in c
      ensures exists i :: 0 <= i < |c| - 1 && t.edges[k] == Edge(c[i], c[i + 1])
    {
      assert k < 7;
      assert t.edges[k] == Edge(c[k], c[k + 1]);
    }
    LinearByEdges(t, c);
  }

  /** Every run visits the chain's nodes in order, each at most once, and never the
      error node: no edge leads to it and `should_continue` is not wired in. */
  lemma RunsFollowChain(p: seq<string>)
    requires IsPath(Topology1, p)
    ensures |p| <= |Chain| && p == Chain[..|p|]
    ensures "error" !in p
  {
    ChainIsLinear();
    LinearPaths(Topology1, Chain, p);
    Unreachable(Topology1, p, "error");
  }

  // ---------------------------------------------------------------------------
  // Running

  /** The answers of the five agents, or the exception each call raises. */
  datatype Replies = Replies(
    merger: Result<string, string>,
    prioritizer: Result<string, string>,
    insights: Result<string, string>,
    visualizer: Result<string, string>,
    slides: Result<string, string>)

  /** The keys a caller's `initial_state` dict sets, with their values; an absent key
      is None. */
  datatype Overlay = Overlay(
    messages: Option<seq<Message>>,
    rawDataPngUrl: Option<Option<string>>,
    rawDataJson: Option<Value>,
    cepAnalysis: Option<Option<string>>,
    cepTables: Option<Option<string>>,
    keyInsights: Option<Option<seq<Value>>>,
    visualizationPngUrl: Option<Option<string>>,
    visualizationPdfUrl: Option<Option<string>>,
    powerpointUrl: Option<Option<string>>,
    finalReport: Option<Option<string>>,
    currentStep: Option<string>,
    error: Option<Option<string>>)

  /** The default state of `run_manager1`: no messages, every output None, the first
      step, no error. */
  const Default: M1State := M1State([], None, PNone, None, None, None, None, None, None, None,
                                    "step1", None)

  /** `state.update(overlay)`: each key the overlay sets replaces that field. */
  function Apply(s: M1State, o: Overlay): (r: M1State)
    ensures o.messages.Some? ==> r.messages == o.messages.value
    ensures o.messages.None? ==> r.messages == s.messages
    ensures o.rawDataPngUrl.Some? ==> r.rawDataPngUrl == o.rawDataPngUrl.value
    ensures o.rawDataPngUrl.None? ==> r.rawDataPngUrl == s.rawDataPngUrl
    ensures o.rawDataJson.Some? ==> r.rawDataJson == o.rawDataJson.value
    ensures o.rawDataJson.None? ==> r.rawDataJson == s.rawDataJson
    ensures o.cepAnalysis.Some? ==> r.cepAnalysis == o.cepAnalysis.value
    ensures o.cepAnalysis.None? ==> r.cepAnalysis == s.cepAnalysis
    ensures o.cepTables.Some? ==> r.cepTables == o.cepTables.value
    ensures o.cepTables.None? ==> r.cepTables == s.cepTables
    ensures o.keyInsights.Some? ==> r.keyInsights == o.keyInsights.value
    ensures o.keyInsights.None? ==> r.keyInsights == s.keyInsights
    ensures o.visualizationPngUrl.Some? ==> r.visualizationPngUrl == o.visualizationPngUrl.value
    ensures o.visualizationPngUrl.None? ==> r.visualizationPngUrl == s.visualizationPngUrl
    ensures o.visualizationPdfUrl.Some? ==> r.visualizationPdfUrl == o.visualizationPdfUrl.value
    ensures o.visualizationPdfUrl.None? ==> r.visualizationPdfUrl == s.visualizationPdfUrl
    ensures o.powerpointUrl.Some? ==> r.powerpointUrl == o.powerpointUrl.value
    ensures o.powerpointUrl.None? ==> r.powerpointUrl == s.powerpointUrl
    ensures o.finalReport.Some? ==> r.finalReport == o.finalReport.value
    ensures o.finalReport.None? ==> r.finalReport == s.finalReport
    ensures o.currentStep.Some? ==> r.currentStep == o.currentStep.value
    ensures o.currentStep.None? ==> r.currentStep == s.currentStep
    ensures o.error.Some? ==> r.error == o.error.value
    ensures o.error.None? ==> r.error == s.error
  {
    M1State(
      o.messages.GetOr(s.messages),
      o.rawDataPngUrl.GetOr(s.rawDataPngUrl),
      o.rawDataJson.GetOr(s.rawDataJson),
      o.cepAnalysis.GetOr(s.cepAnalysis),
      o.cepTables.GetOr(s.cepTables),
      o.keyInsights.GetOr(s.keyInsights),
      o.visualizationPngUrl.GetOr(s.visualizationPngUrl),
      o.visualizationPdfUrl.GetOr(s.visualizationPdfUrl),
      o.powerpointUrl.GetOr(s.powerpointUrl),
      o.finalReport.GetOr(s.finalReport),
      o.currentStep.GetOr(s.currentStep),
      o.error.GetOr(s.error))
  }

  const NoKeys: Overlay := Overlay(None, None, None, None, None, None, None, None, None, None,
                                   None, None)

  /** An overlay that sets no key changes nothing, so the `if initial_state:` guard
      changes no outcome. */
  lemma EmptyOverlayKeeps(s: M1State)
    ensures Apply(s, NoKeys) == s
  {
  }

  /** The state `run_manager1` starts the graph from. */
  function InitialState(overlay: Option<Overlay>): (r: M1State)
    ensures overlay.None? ==> r == Default
    ensures overlay.Some? ==> r == Apply(Default, overlay.value)
  {
    if overlay.Some? then Apply(Default, overlay.value) else Default
  }

  /** The state before the compile node when all five agents answer. */
  function BeforeCompile(s: M1State, rs: Replies, parse: Parser): M1State
    requires rs.merger.Ok? && rs.prioritizer.Ok? && rs.insights.Ok?
    requires rs.visualizer.Ok? && rs.slides.Ok?
  {
    s.(rawDataPngUrl := Some(ExtractPngUrl(rs.merger.value)),
       rawDataJson := ExtractJson(parse, rs.merger.value),
       cepAnalysis := Some(rs.prioritizer.value),
       cepTables := Some(ExtractTables(rs.prioritizer.value)),
       keyInsights := Some(Insights(parse, rs.insights.value)),
       visualizationPngUrl := Some(ExtractPngUrl(rs.visualizer.value)),
       visualizationPdfUrl := Some(ExtractPdfUrl(rs.visualizer.value)),
       powerpointUrl := Some(ExtractPptUrl(rs.slides.value)),
       currentStep := "compile")
  }

  /** The first exception among the agents' calls, in the order the chain makes them. */
  function FirstRaised(rs: Replies): Option<string> {
    if rs.merger.Err? then Some(rs.merger.error)
    else if rs.prioritizer.Err? then Some(rs.prioritizer.error)
    else if rs.insights.Err? then Some(rs.insights.error)
    else if rs.visualizer.Err? then Some(rs.visualizer.error)
    else if rs.slides.Err? then Some(rs.slides.error)
    else None
  }

  /** `ainvoke` on the compiled graph: the nodes of the chain, in order, from `s`.
      The first exception ends the run and escapes it: no node handles it. */
  function RunChain(s: M1State, rs: Replies, parse: Parser): (r: Result<M1State, string>)
    ensures FirstRaised(rs).Some? ==> r == Err(FirstRaised(rs).value)
    ensures FirstRaised(rs).None? ==>
      && r.Ok?
      && var pre := BeforeCompile(s, rs, parse);
      && r.value == pre.(finalReport := Some(Report(pre)), currentStep := "complete")
      && Agree(s, r.value, {RawDataPngUrl, RawDataJson, CepAnalysis, CepTables, KeyInsights,
                            VisualizationPngUrl, VisualizationPdfUrl, PowerpointUrl,
                            FinalReport, CurrentStep})
  {
    var s1 :- DataMerger(s, rs.merger, parse);
    var s2 :- CepPrioritizer(s1, rs.prioritizer);
    var s3 :- InsightAnalyzer(s2, rs.insights, parse);
    var s4 :- Visualizer(s3, rs.visualizer);
    var s5 :- SlideBuilder(s4, rs.slides);
    Ok(CompileReport(s5))
  }

  /** `run_manager1`: the initial state, the overlay, and the chain. */
  function RunManager1(overlay: Option<Overlay>, rs: Replies, parse: Parser): Result<M1State, string>
  {
    RunChain(InitialState(overlay), rs, parse)
  }

  /** Without an overlay, a run that completes ends at step "complete" with the
      messages and error it started with (none), every output set, and the report. */
  lemma DefaultRunCompletes(rs: Replies, parse: Parser)
    requires FirstRaised(rs).None?
    ensures var r := RunManager1(None, rs, parse);
      && r.Ok? && r.value.currentStep == "complete"
      && r.value.messages == [] && r.value.error == None
      && r.value.finalReport.Some? && r.value.cepAnalysis.Some? && r.value.cepTables.Some?
      && r.value.keyInsights.Some? && r.value.powerpointUrl.Some?
      && r.value.rawDataJson.PDict?
  {
  }
}
