/** The audience-to-creative strategy graph (Manager 2): four steps, the slide
    builder and a compile node wired into one chain, an error handler no edge leads
    to, and the runner that starts it from Phase 1's competitive data. */
module Manager2Graph {
  import opened Wrappers
  import opened Text
  import opened PyValue
  import opened Messages
  import opened Scan
  import opened Graph
  import opened Manager2Workers

  /** `handle_error`: the error becomes the final output and the run is complete;
      the key is always present, so an unset error reads "None". */
  function HandleError(s: M2State): (r: M2State)
    ensures Agree(s, r, {FinalOutput, CurrentStep})
    ensures r.currentStep == "complete"
    ensures r.finalOutput == Some("Error occurred: " + Show(s.error))
  {
    s.(finalOutput := Some("Error occurred: " + Show(s.error)), currentStep := "complete")
  }

  // ---------------------------------------------------------------------------
  // Topology

  const NodeNames: seq<string> :=
    ["step1_audience_cep_analyzer", "step2_audience_data_extractor", "step3_build_table",
     "step4_generate_insights", "step5_slide_builder", "compile"]

  /** The one route through the graph. */
  const Chain: seq<string> := [Start] + NodeNames + [End]

  const Topology2: Topology := Topology(
    NodeNames + ["error"],
    [Edge(Start, "step1_audience_cep_analyzer"),
     Edge("step1_audience_cep_analyzer", "step2_audience_data_extractor"),
     Edge("step2_audience_data_extractor", "step3_build_table"),
     Edge("step3_build_table", "step4_generate_insights"),
     Edge("step4_generate_insights", "step5_slide_builder"),
     Edge("step5_slide_builder", "compile"),
     Edge("compile", End),
     Edge("error", End)],
    [])

  /** `create_manager2_graph`: the nodes, then the edges, added one by one. */
  method CreateManager2Graph() returns (g: GraphBuilder)
    ensures fresh(g) && g.Topo() == Topology2
  {
    g := new GraphBuilder();
    AddNodes2(g);
    AddEdges2(g);
  }

  /** The `add_node` calls of `create_manager2_graph`. */
  method AddNodes2(g: GraphBuilder)
    modifies g
    ensures g.nodes == old(g.nodes) + Topology2.nodes
    ensures g.edges == old(g.edges) && g.branches == old(g.branches)
  {
    g.AddNode("step1_audience_cep_analyzer");
    g.AddNode("step2_audience_data_extractor");
    g.AddNode("step3_build_table");
    g.AddNode("step4_generate_insights");
    g.AddNode("step5_slide_builder");
    g.AddNode("compile");
    g.AddNode("error");
  }

  /** The `add_edge` calls of `create_manager2_graph`. */
  method AddEdges2(g: GraphBuilder)
    modifies g
    ensures g.edges == old(g.edges) + Topology2.edges
    ensures g.nodes == old(g.nodes) && g.branches == old(g.branches)
  {
    g.AddEdge(Start, "step1_audience_cep_analyzer");
    g.AddEdge("step1_audience_cep_analyzer", "step2_audience_data_extractor");
    g.AddEdge("step2_audience_data_extractor", "step3_build_table");
    g.AddEdge("step3_build_table", "step4_generate_insights");
    g.AddEdge("step4_generate_insights", "step5_slide_builder");
    g.AddEdge("step5_slide_builder", "compile");
    g.AddEdge("compile", End);
    g.AddEdge("error", End);
  }

  /** The graph is the single chain START, step 1 ... step 5, compile, END. */
  lemma ChainIsLinear()
    ensures Linear(Topology2, Chain)
  {
    var t := Topology2;
    var c := Chain;
    assert c == [Start, "step1_audience_cep_analyzer", "step2_audience_data_extractor",
                 "step3_build_table", "step4_generate_insights", "step5_slide_builder",
                 "compile", End];
    forall k | 0 <= k < |t.edges| && t.edges[k].src in c
      ensures exists i :: 0 <= i < |c| - 1 && t.edges[k] == Edge(c[i], c[i + 1])
    {
      assert k < 7;
      assert t.edges[k] == Edge(c[k], c[k + 1]);
    }
    LinearByEdges(t, c);
  }

  /** Every run visits the chain's nodes in order, each at most once, and never the
      error node. */
  lemma RunsFollowChain(p: seq<string>)
    requires IsPath(Topology2, p)
    ensures |p| <= |Chain| && p == Chain[..|p|]
    ensures "error" !in p
  {
    ChainIsLinear();
    LinearPaths(Topology2, Chain, p);
    Unreachable(Topology2, p, "error");
  }

  // ---------------------------------------------------------------------------
  // Running

  /** What the agents and the LLM answer, or the exception each call raises; the
      data extractor's answer is the agent's whole message list. */
  datatype Replies = Replies(
    analyzer: Result<string, string>,
    extractor: Result<seq<Message>, string>,
    table: Result<string, string>,
    insights: Result<string, string>,
    slides: Result<string, string>)

  /** The keys a caller's `initial_state` dict sets, with their values; an absent key
      is None. */
  datatype Overlay = Overlay(
    messages: Option<seq<Message>>,
    competitiveTables: Option<string>,
    competitiveDynamics: Option<string>,
    audienceSegments: Option<Option<string>>,
    priorityCeps: Option<Value>,
    audienceAttributes: Option<Value>,
    strategicTable: Option<Option<string>>,
    strategicInsights: Option<Option<string>>,
    belowThresholdAnalysis: Option<Option<string>>,
    powerpointUrl: Option<Option<string>>,
    finalOutput: Option<Option<string>>,
    currentStep: Option<string>,
    error: Option<Option<string>>)

  /** The default state of `run_manager2`: the competitive data, no messages, every
      output None, the first step, no error. */
  function Default(tables: string, dynamics: string): (r: M2State)
    ensures r.competitiveTables == tables && r.competitiveDynamics == dynamics
    ensures r.messages == [] && r.currentStep == "step1" && r.error.None?
  {
    M2State([], tables, dynamics, None, PNone, PNone, None, None, None, None, None, "step1", None)
  }

  /** `state.update(overlay)`: each key the overlay sets replaces that field. */
  function Apply(s: M2State, o: Overlay): (r: M2State)
    ensures o.messages.Some? ==> r.messages == o.messages.value
    ensures o.messages.None? ==> r.messages == s.messages
    ensures o.competitiveTables.Some? ==> r.competitiveTables == o.competitiveTables.value
    ensures o.competitiveTables.None? ==> r.competitiveTables == s.competitiveTables
    ensures o.competitiveDynamics.Some? ==> r.competitiveDynamics == o.competitiveDynamics.value
    ensures o.competitiveDynamics.None? ==> r.competitiveDynamics == s.competitiveDynamics
    ensures o.audienceSegments.Some? ==> r.audienceSegments == o.audienceSegments.value
    ensures o.audienceSegments.None? ==> r.audienceSegments == s.audienceSegments
    ensures o.priorityCeps.Some? ==> r.priorityCeps == o.priorityCeps.value
    ensures o.priorityCeps.None? ==> r.priorityCeps == s.priorityCeps
    ensures o.audienceAttributes.Some? ==> r.audienceAttributes == o.audienceAttributes.value
    ensures o.audienceAttributes.None? ==> r.audienceAttributes == s.audienceAttributes
    ensures o.strategicTable.Some? ==> r.strategicTable == o.strategicTable.value
    ensures o.strategicTable.None? ==> r.strategicTable == s.strategicTable
    ensures o.strategicInsights.Some? ==> r.strategicInsights == o.strategicInsights.value
    ensures o.strategicInsights.None? ==> r.strategicInsights == s.strategicInsights
    ensures o.belowThresholdAnalysis.Some? ==> r.belowThresholdAnalysis == o.belowThresholdAnalysis.value
    ensures o.belowThresholdAnalysis.None? ==> r.belowThresholdAnalysis == s.belowThresholdAnalysis
    ensures o.powerpointUrl.Some? ==> r.powerpointUrl == o.powerpointUrl.value
    ensures o.powerpointUrl.None? ==> r.powerpointUrl == s.powerpointUrl
    ensures o.finalOutput.Some? ==> r.finalOutput == o.finalOutput.value
    ensures o.finalOutput.None? ==> r.finalOutput == s.finalOutput
    ensures o.currentStep.Some? ==> r.currentStep == o.currentStep.value
    ensures o.currentStep.None? ==> r.currentStep == s.currentStep
    ensures o.error.Some? ==> r.error == o.error.value
    ensures o.error.None? ==> r.error == s.error
  {
    M2State(
      o.messages.GetOr(s.messages),
      o.competitiveTables.GetOr(s.competitiveTables),
      o.competitiveDynamics.GetOr(s.competitiveDynamics),
      o.audienceSegments.GetOr(s.audienceSegments),
      o.priorityCeps.GetOr(s.priorityCeps),
      o.audienceAttributes.GetOr(s.audienceAttributes),
      o.strategicTable.GetOr(s.strategicTable),
      o.strategicInsights.GetOr(s.strategicInsights),
      o.belowThresholdAnalysis.GetOr(s.belowThresholdAnalysis),
      o.powerpointUrl.GetOr(s.powerpointUrl),
      o.finalOutput.GetOr(s.finalOutput),
      o.currentStep.GetOr(s.currentStep),
      o.error.GetOr(s.error))
  }

  const NoKeys: Overlay := Overlay(None, None, None, None, None, None, None, None, None, None,
                                   None, None, None)

  /** An overlay that sets no key changes nothing. */
  lemma EmptyOverlayKeeps(s: M2State)
    ensures Apply(s, NoKeys) == s
  {
  }

  /** The state `run_manager2` starts the graph from. */
  function InitialState(tables: string, dynamics: string, overlay: Option<Overlay>): (r: M2State)
    ensures overlay.None? ==> r == Default(tables, dynamics)
    ensures overlay.Some? ==> r == Apply(Default(tables, dynamics), overlay.value)
  {
    if overlay.Some? then Apply(Default(tables, dynamics), overlay.value) else Default(tables, dynamics)
  }

  /** The overlay is applied after the competitive data is filled in, so a key it
      sets wins over the tables and dynamics passed as arguments. */
  lemma OverlayWinsOverArguments(tables: string, dynamics: string, o: Overlay)
    requires o.competitiveTables.Some? && o.competitiveDynamics.Some?
    ensures InitialState(tables, dynamics, Some(o)).competitiveTables == o.competitiveTables.value
    ensures InitialState(tables, dynamics, Some(o)).competitiveDynamics == o.competitiveDynamics.value
  {
  }

  /** The first exception among the calls, in the order the chain makes them; an
      empty message list from the data extractor raises there too. */
  function FirstRaised(rs: Replies): Option<string> {
    if rs.analyzer.Err? then Some(rs.analyzer.error)
    else if rs.extractor.Err? then Some(rs.extractor.error)
    else if rs.extractor.value == [] then Some(FullExploration([]).error)
    else if rs.table.Err? then Some(rs.table.error)
    else if rs.insights.Err? then Some(rs.insights.error)
    else if rs.slides.Err? then Some(rs.slides.error)
    else None
  }

  /** The state before the compile node when every call answers. */
  function BeforeCompile(s: M2State, rs: Replies): M2State
    requires FirstRaised(rs).None?
  {
    s.(audienceSegments := Some(rs.analyzer.value),
       priorityCeps := PDict([]),
       audienceAttributes := RawAttributes(FullExploration(rs.extractor.value).value),
       strategicTable := Some(TableOf(rs.table.value)),
       belowThresholdAnalysis := Some(BelowThreshold(rs.table.value)),
       strategicInsights := Some(rs.insights.value),
       powerpointUrl := Some(FirstUrl(rs.slides.value)),
       currentStep := "compile")
  }

  /** `ainvoke` on the compiled graph: the nodes of the chain, in order, from `s`.
      The first exception ends the run and escapes it. */
  function RunChain(s: M2State, rs: Replies): (r: Result<M2State, string>)
    ensures FirstRaised(rs).Some? ==> r == Err(FirstRaised(rs).value)
    ensures FirstRaised(rs).None? ==>
      && r.Ok?
      && var pre := BeforeCompile(s, rs);
      && r.value == pre.(finalOutput := Some(Output(pre)), currentStep := "complete")
      && Agree(s, r.value, {AudienceSegments, PriorityCeps, AudienceAttributes, StrategicTable,
                            BelowThresholdAnalysis, StrategicInsights, PowerpointUrl,
                            FinalOutput, CurrentStep})
  {
    var s1 :- AudienceCepAnalyzer(s, rs.analyzer);
    var s2 :- AudienceDataExtractor(s1, rs.extractor);
    var s3 :- BuildStrategicTable(s2, rs.table);
    var s4 :- GenerateStrategicInsights(s3, rs.insights);
    var s5 :- AudienceSlideBuilder(s4, rs.slides);
    Ok(CompileOutput(s5))
  }

  /** `run_manager2`: the initial state built from Phase 1's data, the overlay, and
      the chain. */
  function RunManager2(tables: string, dynamics: string, overlay: Option<Overlay>, rs: Replies)
    : Result<M2State, string>
  {
    RunChain(InitialState(tables, dynamics, overlay), rs)
  }

  /** Without an overlay, a run that completes keeps the competitive data it was
      given, ends at "complete" with no error, and its output shows the extractor's
      exploration text as the audience attributes. */
  lemma DefaultRunCompletes(tables: string, dynamics: string, rs: Replies)
    requires FirstRaised(rs).None?
    ensures var r := RunManager2(tables, dynamics, None, rs);
      && r.Ok? && r.value.currentStep == "complete" && r.value.error == None
      && r.value.competitiveTables == tables && r.value.competitiveDynamics == dynamics
      && r.value.finalOutput.Some?
      && AttrsText(r.value.audienceAttributes, NoAttrsText) == FullExploration(rs.extractor.value).value
  {
    AttrsTextRoundTrip(FullExploration(rs.extractor.value).value, NoAttrsText);
  }
}
