/** The master phase controller: Phase 1 (the competitive analyzer), a checkpoint
    the run suspends at, the classification of the user's answer, Phase 2 (the
    audience-to-creative orchestrator) when the answer is not "stop", and the final
    message. Both phases contain their sub-pipeline's exception: the master run
    always moves on. */
module MasterGraph {
  import opened Wrappers
  import opened Text
  import opened PyValue
  import opened Messages
  import opened Scan
  import opened Graph
  import M1W = Manager1Workers
  import M1G = Manager1Graph
  import M2W = Manager2Workers
  import M2G = Manager2Graph

  /** The master graph's state. The CEP fields are not in the initial state a run
      starts from, so they read as None until Phase 1 sets them. */
  datatype MasterState = MasterState(
    messages: seq<Message>,
    competitiveIntelligence: Option<string>,
    creativeIntelligence: Option<string>,
    userGuidance: Option<string>,
    currentPhase: string,
    userDecision: Option<string>,
    error: Option<string>,
    cepTables: Option<string>,
    cepAnalysis: Option<string>)

  datatype MField =
    | Messages | CompetitiveIntelligence | CreativeIntelligence | UserGuidance
    | CurrentPhase | UserDecision | Error | CepTables | CepAnalysis

  /** `s` and `t` hold the same value in every field outside `changed`. */
  predicate Agree(s: MasterState, t: MasterState, changed: set<MField>) {
    && (Messages !in changed ==> s.messages == t.messages)
    && (CompetitiveIntelligence !in changed ==> s.competitiveIntelligence == t.competitiveIntelligence)
    && (CreativeIntelligence !in changed ==> s.creativeIntelligence == t.creativeIntelligence)
    && (UserGuidance !in changed ==> s.userGuidance == t.userGuidance)
    && (CurrentPhase !in changed ==> s.currentPhase == t.currentPhase)
    && (UserDecision !in changed ==> s.userDecision == t.userDecision)
    && (Error !in changed ==> s.error == t.error)
    && (CepTables !in changed ==> s.cepTables == t.cepTables)
    && (CepAnalysis !in changed ==> s.cepAnalysis == t.cepAnalysis)
  }

  /** A string field that is set and non-empty: what `if state.get(key)` tests. */
  predicate Truthy(x: Option<string>) {
    x.Some? && x.value != ""
  }

  /** The state a run starts from: the trigger message and nothing else. */
  function InitialState(trigger: string): (r: MasterState)
    ensures r.messages == [HumanMsg(trigger)] && r.currentPhase == "phase1"
    ensures r.error.None? && r.userDecision.None? && r.cepTables.None? && r.cepAnalysis.None?
  {
    MasterState([HumanMsg(trigger)], None, None, None, "phase1", None, None, None, None)
  }

  // ---------------------------------------------------------------------------
  // Phase 1 and the checkpoint

  /** `run_phase1`, given how the Manager 1 run ended. On success the report and
      the CEP fields are kept, the report is appended as one AI message, and any
      error is cleared; on an exception only the error is set. Either way the phase
      becomes "checkpoint". */
  function RunPhase1(s: MasterState, outcome: Result<M1W.M1State, string>): (r: MasterState)
    ensures r.currentPhase == "checkpoint"
    ensures outcome.Ok? ==>
      && Agree(s, r, {CompetitiveIntelligence, CepTables, CepAnalysis, Messages, CurrentPhase, Error})
      && r.competitiveIntelligence == outcome.value.finalReport
      && r.cepTables == outcome.value.cepTables && r.cepAnalysis == outcome.value.cepAnalysis
      && r.messages == s.messages + [AIMsg(Show(outcome.value.finalReport))]
      && r.error.None?
    ensures outcome.Err? ==>
      && Agree(s, r, {Error, CurrentPhase})
      && r.error == Some("Phase 1 failed: " + outcome.error)
  {
    match outcome
    case Ok(m) =>
      s.(competitiveIntelligence := m.finalReport,
         cepTables := m.cepTables,
         cepAnalysis := m.cepAnalysis,
         messages := s.messages + [AIMsg(Show(m.finalReport))],
         currentPhase := "checkpoint",
         error := None)
    case Err(e) =>
      s.(error := Some("Phase 1 failed: " + e), currentPhase := "checkpoint")
  }

  /** The fixed lines of the checkpoint message around the report it embeds (the
      prose and the list of questions are not part of this model). */
  const CheckpointHead: string := "\n# Phase 1 Complete: Competitive Intelligence Report\n\n"
  const CheckpointTail: string := "\n\n---\n\n## \U{2705} Checkpoint: Please Review and Confirm\n"

  function CheckpointMessage(s: MasterState): string {
    CheckpointHead + Show(s.competitiveIntelligence) + CheckpointTail
  }

  /** `present_checkpoint`: one AI message embedding the report (or "None" when
      Phase 1 failed and no report was stored). */
  function PresentCheckpoint(s: MasterState): (r: MasterState)
    ensures Agree(s, r, {Messages, CurrentPhase})
    ensures r.currentPhase == "checkpoint"
    ensures r.messages == s.messages + [AIMsg(CheckpointMessage(s))]
    ensures Contains(CheckpointMessage(s), Show(s.competitiveIntelligence))
  {
    OccursInConcat(CheckpointHead, Show(s.competitiveIntelligence), CheckpointTail);
    ContainsIff(CheckpointMessage(s), Show(s.competitiveIntelligence));
    s.(messages := s.messages + [AIMsg(CheckpointMessage(s))], currentPhase := "checkpoint")
  }

  // ---------------------------------------------------------------------------
  // The user's answer

  const ProceedSignals: seq<string> := ["proceed", "continue", "yes", "go ahead", "move to phase 2", "ok", "okay"]
  const StopSignals: seq<string> := ["stop", "no", "end", "halt"]

  /** `any(signal in text for signal in signals)`. */
  predicate AnyIn(signals: seq<string>, text: string) {
    exists k :: 0 <= k < |signals| && Contains(text, signals[k])
  }

  /** The text the classifier reads: lower-cased, then stripped. */
  function Normalize(content: string): string
  {
    Strip(LowerStr(content))
  }

  /** Normalising is idempotent: guidance fed back in reads the same. */
  lemma NormalizeIdempotent(content: string)
    ensures Normalize(Normalize(content)) == Normalize(content)
  {
    var r := Strip(LowerStr(content));
    assert LowerStr(r) == r by {
      forall i | 0 <= i < |r| ensures Lower(r[i]) == r[i] {
        var l := LeadingSpaces(LowerStr(content));
        assert r[i] == LowerStr(content)[l + i];
      }
    }
    StripIdempotent(LowerStr(content));
  }

  /** The most recent human message, normalised, or "" when there is none. */
  function LatestHumanInput(ms: seq<Message>): string {
    LatestHumanBefore(ms, |ms|)
  }

  /** The most recent human message among the first `n`, normalised, or "". */
  function LatestHumanBefore(ms: seq<Message>, n: nat): string
    requires n <= |ms|
  {
    if n == 0 then ""
    else if ms[n - 1].role == Human then Normalize(ms[n - 1].content)
    else LatestHumanBefore(ms, n - 1)
  }

  lemma {:induction false} LatestHumanIsLast(ms: seq<Message>, n: nat, k: nat)
    requires k < n <= |ms| && ms[k].role == Human
    requires forall j :: k < j < n ==> ms[j].role != Human
    ensures LatestHumanBefore(ms, n) == Normalize(ms[k].content)
    decreases n
  {
    if k < n - 1 {
      LatestHumanIsLast(ms, n - 1, k);
    }
  }

  lemma {:induction false} NoHumanIsEmpty(ms: seq<Message>, n: nat)
    requires n <= |ms| && forall k :: 0 <= k < n ==> ms[k].role != Human
    ensures LatestHumanBefore(ms, n) == ""
    decreases n
  {
    if n > 0 {
      NoHumanIsEmpty(ms, n - 1);
    }
  }

  /** The input is the normalised content of the human message no later message
      follows, and "" when there is no human message. */
  lemma LatestHumanInputIsLast(ms: seq<Message>)
    ensures (forall k :: 0 <= k < |ms| ==> ms[k].role != Human) ==> LatestHumanInput(ms) == ""
    ensures forall k :: 0 <= k < |ms| && ms[k].role == Human
                        && (forall j :: k < j < |ms| ==> ms[j].role != Human)
                        ==> LatestHumanInput(ms) == Normalize(ms[k].content)
  {
    if forall k :: 0 <= k < |ms| ==> ms[k].role != Human {
      NoHumanIsEmpty(ms, |ms|);
    }
    forall k | 0 <= k < |ms| && ms[k].role == Human && (forall j :: k < j < |ms| ==> ms[j].role != Human)
      ensures LatestHumanInput(ms) == Normalize(ms[k].content)
    {
      LatestHumanIsLast(ms, |ms|, k);
    }
  }

  /** The loop of `process_user_input`: scan the messages from the newest back and
      stop at the first human one. */
  method LatestHuman(ms: seq<Message>) returns (input: string)
    ensures input == LatestHumanInput(ms)
  {
    input := "";
    var i := |ms|;
    while i > 0
      invariant 0 <= i <= |ms|
      invariant LatestHumanInput(ms) == LatestHumanBefore(ms, i)
      invariant input == ""
    {
      if ms[i - 1].role == Human {
        input := Normalize(ms[i - 1].content);
        return;
      }
      i := i - 1;
    }
  }

  /** The user's decision and the guidance it carries. */
  datatype Decision = Decision(decision: string, guidance: Option<string>)

  /** The keyword classifier: proceed words first, then stop words, else the whole
      text is guidance. */
  function Classify(input: string): (r: Decision)
    ensures r.decision == "proceed" <==> AnyIn(ProceedSignals, input)
    ensures r.decision == "stop" <==> !AnyIn(ProceedSignals, input) && AnyIn(StopSignals, input)
    ensures r.decision == "guidance" <==> !AnyIn(ProceedSignals, input) && !AnyIn(StopSignals, input)
    ensures r.guidance.Some? <==> r.decision == "guidance"
    ensures r.guidance.Some? ==> r.guidance.value == input
  {
    if AnyIn(ProceedSignals, input) then Decision("proceed", None)
    else if AnyIn(StopSignals, input) then Decision("stop", None)
    else Decision("guidance", Some(input))
  }

  /** `process_user_input`: the decision on the latest human message; the phase
      goes on to "phase2" for proceed and guidance, to "complete" for stop. */
  function ProcessUserInput(s: MasterState): (r: MasterState)
    ensures Agree(s, r, {UserDecision, UserGuidance, CurrentPhase})
    ensures var d := Classify(LatestHumanInput(s.messages));
      && r.userDecision == Some(d.decision) && r.userGuidance == d.guidance
    ensures r.currentPhase == "complete" <==> r.userDecision == Some("stop")
    ensures r.currentPhase == "phase2" <==> r.userDecision != Some("stop")
  {
    var d := Classify(LatestHumanInput(s.messages));
    s.(userDecision := Some(d.decision),
       userGuidance := d.guidance,
       currentPhase := if d.decision == "proceed" || d.decision == "guidance" then "phase2" else "complete")
  }

  /** `route_after_checkpoint`: only a stop decision skips Phase 2; an unset or any
      other decision goes on to it. */
  function Route(s: MasterState): (r: string)
    ensures r == "complete" <==> s.userDecision == Some("stop")
    ensures r == "phase2" <==> s.userDecision != Some("stop")
  {
    if s.userDecision == Some("stop") then "complete" else "phase2"
  }

  /** Proceed words win over stop words. */
  lemma YesStopProceeds()
    ensures Classify("yes, stop").decision == "proceed"
  {
    assert OccursAt("yes, stop", "yes", 0);
    ContainsIff("yes, stop", "yes");
    assert Contains("yes, stop", ProceedSignals[2]);
  }

  /** Matching is by substring: the "no" in "now" stops the workflow. */
  lemma NowStops()
    ensures Classify("now").decision == "stop"
  {
    forall k | 0 <= k < |ProceedSignals| ensures !Contains("now", ProceedSignals[k]) {
      var p := ProceedSignals[k];
      ContainsIff("now", p);
      if k == 2 {
        AbsentCharNotContained("now", p, 'y');
      } else if k == 5 {
        AbsentCharNotContained("now", p, 'k');
      }
    }
    assert OccursAt("now", "no", 0);
    ContainsIff("now", "no");
    assert Contains("now", StopSignals[1]);
  }

  /** With no human message the input is "", which is guidance with "" as the text. */
  lemma NoHumanMessageIsEmptyGuidance(ms: seq<Message>)
    requires forall k :: 0 <= k < |ms| ==> ms[k].role != Human
    ensures Classify(LatestHumanInput(ms)) == Decision("guidance", Some(""))
  {
    NoHumanIsEmpty(ms, |ms|);
    EmptyIsGuidance();
  }

  /** The empty text carries no signal, so it is guidance. */
  lemma EmptyIsGuidance()
    ensures Classify("") == Decision("guidance", Some(""))
  {
    EmptyHasNoSignal(ProceedSignals);
    EmptyHasNoSignal(StopSignals);
  }

  lemma EmptyHasNoSignal(signals: seq<string>)
    requires "" !in signals
    ensures !AnyIn(signals, "")
  {
    forall k | 0 <= k < |signals| ensures !Contains("", signals[k]) {
      ContainsIff("", signals[k]);
    }
  }

  // ---------------------------------------------------------------------------
  // Phase 2 and the final message

  /** The competitive data Phase 2 starts from: the stored tables and analysis ("" when
      unset), the analysis followed by the user's guidance when there is some. */
  function Phase2Inputs(s: MasterState): (r: (string, string))
    ensures r.0 == s.cepTables.GetOr("")
    ensures !Truthy(s.userGuidance) ==> r.1 == s.cepAnalysis.GetOr("")
    ensures Truthy(s.userGuidance) ==>
      r.1 == s.cepAnalysis.GetOr("") + "\n\nUser Guidance: " + s.userGuidance.value
  {
    var analysis := s.cepAnalysis.GetOr("");
    (s.cepTables.GetOr(""),
     if Truthy(s.userGuidance) then analysis + "\n\nUser Guidance: " + s.userGuidance.value else analysis)
  }

  /** `run_phase2`, given how the Manager 2 run ended: on success the output is kept
      and announced in one AI message; on an exception only the error is set. The
      phase always becomes "complete", and an earlier error is never cleared. */
  function RunPhase2(s: MasterState, outcome: Result<M2W.M2State, string>): (r: MasterState)
    ensures r.currentPhase == "complete"
    ensures outcome.Ok? ==>
      && Agree(s, r, {CreativeIntelligence, Messages, CurrentPhase})
      && r.creativeIntelligence == outcome.value.finalOutput
      && r.messages == s.messages + [AIMsg("Phase 2 Complete:\n\n" + Show(outcome.value.finalOutput))]
    ensures outcome.Err? ==>
      && Agree(s, r, {Error, CurrentPhase})
      && r.error == Some("Phase 2 failed: " + outcome.error)
  {
    match outcome
    case Ok(m) =>
      s.(creativeIntelligence := m.finalOutput,
         messages := s.messages + [AIMsg("Phase 2 Complete:\n\n" + Show(m.finalOutput))],
         currentPhase := "complete")
    case Err(e) =>
      s.(error := Some("Phase 2 failed: " + e), currentPhase := "complete")
  }

  /** The three final messages. */
  const StoppedHeading: string := "\n## Workflow Stopped\n"
  const ErrorHeading: string := "\n## Workflow Error\n"
  const SuccessHeading: string := "\n## Strategic Intelligence Report Complete\n"
  const StoppedMessage: string := StoppedHeading + StoppedBody
  const StoppedBody: string :=
    "\nPhase 1 (Competitive Intelligence) has been completed.\n"
    + "Phase 2 was not executed per your request.\n"
    + "\nThe competitive analysis is available above for your reference.\n"
  const ErrorTail: string := "\n\nPlease retry the request or contact support if the issue persists.\n"
  const SuccessMessage: string := SuccessHeading + SuccessBody
  const SuccessBody: string :=
    "\nBoth phases have been successfully executed:\n"
    + "\n\U{2705} **Phase 1**: Competitive Intelligence Report\n"
    + "\U{2705} **Phase 2**: Audience-to-Creative Strategy Analysis\n"
    + "\nThe complete Phase 2 output has been delivered above.\n"
    + "\n### Key Deliverables:\n"
    + "- CEP Competitive Analysis with visualizations\n"
    + "- Audience-to-CEP mapping with creative recommendations\n"
    + "- Strategic insights connecting competitive position to audience strategy\n"
    + "- PowerPoint presentations for both phases\n"

  function ErrorMessage(error: string): string {
    ErrorHeading + "\nAn error occurred during execution:\n" + error + ErrorTail
  }

  /** The final message: stopped first, then error, then success. */
  function FinalMessage(s: MasterState): (r: string)
    ensures r == StoppedMessage <==> s.userDecision == Some("stop")
    ensures r == SuccessMessage <==> s.userDecision != Some("stop") && !Truthy(s.error)
    ensures s.userDecision != Some("stop") && Truthy(s.error) ==> r == ErrorMessage(s.error.value)
  {
    FinalMessagesDiffer(if s.error.Some? then s.error.value else "");
    if s.userDecision == Some("stop") then StoppedMessage
    else if Truthy(s.error) then ErrorMessage(s.error.value)
    else SuccessMessage
  }

  /** The three kinds of final message never coincide: they differ in the heading. */
  lemma FinalMessagesDiffer(error: string)
    ensures ErrorMessage(error) != StoppedMessage && ErrorMessage(error) != SuccessMessage
    ensures StoppedMessage != SuccessMessage
  {
    var m := ErrorMessage(error);
    assert m[13] == 'E' && m[4] == 'W';
    assert StoppedMessage[13] == 'S' && StoppedMessage[4] == 'W';
    assert SuccessMessage[4] == 'S';
  }

  /** `deliver_final_output`: one AI message, and the phase is "complete". */
  function DeliverFinal(s: MasterState): (r: MasterState)
    ensures Agree(s, r, {Messages, CurrentPhase})
    ensures r.currentPhase == "complete"
    ensures r.messages == s.messages + [AIMsg(FinalMessage(s))]
  {
    s.(messages := s.messages + [AIMsg(FinalMessage(s))], currentPhase := "complete")
  }

  // ---------------------------------------------------------------------------
  // Topology

  const MasterTopology: Topology := Topology(
    ["phase1", "present_checkpoint", "process_user_input", "phase2", "deliver_final"],
    [Edge(Start, "phase1"),
     Edge("phase1", "present_checkpoint"),
     Edge("present_checkpoint", "process_user_input"),
     Edge("phase2", "deliver_final"),
     Edge("deliver_final", End)],
    [Branch("process_user_input", [("phase2", "phase2"), ("complete", "deliver_final")])])

  /** `create_master_graph`: nodes, edges and the conditional edge, one by one. */
  method CreateMasterGraph() returns (g: GraphBuilder)
    ensures fresh(g) && g.Topo() == MasterTopology
  {
    g := new GraphBuilder();
    g.AddNode("phase1");
    g.AddNode("present_checkpoint");
    g.AddNode("process_user_input");
    g.AddNode("phase2");
    g.AddNode("deliver_final");
    g.AddEdge(Start, "phase1");
    g.AddEdge("phase1", "present_checkpoint");
    g.AddEdge("present_checkpoint", "process_user_input");
    g.AddConditionalEdges("process_user_input", [("phase2", "phase2"), ("complete", "deliver_final")]);
    g.AddEdge("phase2", "deliver_final");
    g.AddEdge("deliver_final", End);
    assert g.edges == MasterTopology.edges;
  }

  /** `compile_master_graph`: the run pauses before `process_user_input`. */
  function CompileMasterGraph(): (c: Compiled)
    ensures c.topology == MasterTopology && c.interruptBefore == ["process_user_input"]
  {
    Compiled(MasterTopology, ["process_user_input"])
  }

  /** The two routes through the master graph: with and without Phase 2. */
  const WithPhase2: seq<string> :=
    [Start, "phase1", "present_checkpoint", "process_user_input", "phase2", "deliver_final", End]
  const WithoutPhase2: seq<string> :=
    [Start, "phase1", "present_checkpoint", "process_user_input", "deliver_final", End]

  /** Where each node of the master graph may lead. */
  function MasterNext(a: string): set<string> {
    if a == Start then {"phase1"}
    else if a == "phase1" then {"present_checkpoint"}
    else if a == "present_checkpoint" then {"process_user_input"}
    else if a == "process_user_input" then {"phase2", "deliver_final"}
    else if a == "phase2" then {"deliver_final"}
    else if a == "deliver_final" then {End}
    else {}
  }

  lemma MasterSuccsWithin(a: string)
    ensures forall x :: x in Succs(MasterTopology, a) ==> x in MasterNext(a)
  {
    var t := MasterTopology;
    forall k | 0 <= k < |t.edges| && t.edges[k].src == a ensures t.edges[k].dst in MasterNext(a) {
      assert k < 5;
    }
    SuccsWithin(t, a, MasterNext(a));
  }

  /** Every run follows one of the two routes, so every run passes `phase1` and
      `present_checkpoint` before the node it is suspended before, and reaches
      Phase 2 or the final step only through that node. */
  lemma {:induction false} MasterPaths(p: seq<string>)
    requires IsPath(MasterTopology, p)
    ensures (|p| <= |WithPhase2| && p == WithPhase2[..|p|])
            || (|p| <= |WithoutPhase2| && p == WithoutPhase2[..|p|])
    decreases |p|
  {
    if |p| > 1 {
      var q := p[..|p| - 1];
      assert IsPath(MasterTopology, q);
      MasterPaths(q);
      var i := |q| - 1;
      var x := p[i + 1];
      assert p == q + [x];
      MasterSuccsWithin(p[i]);
      var w := if |q| <= |WithPhase2| && q == WithPhase2[..|q|] then WithPhase2 else WithoutPhase2;
      assert q[i] == w[i];
      RouteStep(w, i, x);
      if x == w[i + 1] {
        ExtendPrefix(q, x, w);
      } else {
        var v := if x == "phase2" then WithPhase2 else WithoutPhase2;
        RouteHead(v);
        RouteHead(w);
        assert forall k :: 0 <= k < |q| ==> q[k] == w[k] == v[k];
        ExtendPrefix(q, x, v);
      }
    }
  }

  /** A successor of a node on a route is the route's next node, except at the
      suspension point, where it is the first node of either branch. */
  lemma RouteStep(w: seq<string>, i: nat, x: string)
    requires w == WithPhase2 || w == WithoutPhase2
    requires i < |w| && x in MasterNext(w[i])
    ensures i + 1 < |w|
    ensures x == w[i + 1] || (i == 3 && (x == "phase2" || x == "deliver_final"))
  {
  }

  lemma ExtendPrefix(q: seq<string>, x: string, w: seq<string>)
    requires |q| < |w| && (forall k :: 0 <= k < |q| ==> q[k] == w[k]) && x == w[|q|]
    ensures q + [x] == w[..|q| + 1]
  {
  }

  /** No run reaches Phase 2 or the final step without passing the suspension point. */
  lemma SuspensionGuardsPhase2(p: seq<string>)
    requires IsPath(MasterTopology, p)
    requires "phase2" in p || "deliver_final" in p
    ensures "process_user_input" in p
    ensures "phase1" in p && "present_checkpoint" in p
  {
    MasterPaths(p);
    var w := if |p| <= |WithPhase2| && p == WithPhase2[..|p|] then WithPhase2 else WithoutPhase2;
    assert |p| <= |w| && forall k :: 0 <= k < |p| ==> p[k] == w[k];
    RouteHead(w);
    var j :| 0 <= j < |p| && (p[j] == "phase2" || p[j] == "deliver_final");
    assert 3 < j;
    assert p[1] == "phase1" && p[2] == "present_checkpoint" && p[3] == "process_user_input";
  }

  /** Both routes start with the trigger, `phase1`, `present_checkpoint` and the
      suspension point. */
  lemma RouteHead(w: seq<string>)
    requires w == WithPhase2 || w == WithoutPhase2
    ensures |w| > 4 && w[0] == Start && w[1] == "phase1" && w[2] == "present_checkpoint" && w[3] == "process_user_input"
    ensures forall k :: 0 <= k <= 3 ==> w[k] != "phase2" && w[k] != "deliver_final"
    ensures w[4] == (if w == WithPhase2 then "phase2" else "deliver_final")
  {
  }

  // ---------------------------------------------------------------------------
  // Running: to the checkpoint, then on from it

  /** Phase 1 on Manager 1's run. */
  function Phase1(s: MasterState, replies: M1G.Replies, parse: Parser): MasterState {
    RunPhase1(s, M1G.RunManager1(None, replies, parse))
  }

  /** Phase 2 on Manager 2's run over the inputs the state provides. */
  function Phase2(s: MasterState, replies: M2G.Replies): MasterState {
    var (tables, dynamics) := Phase2Inputs(s);
    RunPhase2(s, M2G.RunManager2(tables, dynamics, None, replies))
  }

  /** The run from the trigger to the suspension point: `phase1`, then
      `present_checkpoint`, each with the state it leaves (the updates a caller
      streams). */
  function RunToCheckpoint(trigger: string, replies: M1G.Replies, parse: Parser)
    : (events: seq<(string, MasterState)>)
    ensures |events| == 2 && events[0].0 == "phase1" && events[1].0 == "present_checkpoint"
    ensures events[1].1 == PresentCheckpoint(events[0].1)
    ensures events[0].1 == Phase1(InitialState(trigger), replies, parse)
  {
    var s1 := Phase1(InitialState(trigger), replies, parse);
    [("phase1", s1), ("present_checkpoint", PresentCheckpoint(s1))]
  }

  /** Resuming from the checkpoint with the user's text: it arrives as a human
      message, is classified, and the run goes to Phase 2 unless it is a stop, then
      to the final message. */
  function Resume(s: MasterState, input: string, replies: M2G.Replies): (r: MasterState)
    ensures r.currentPhase == "complete"
    ensures |r.messages| > |s.messages| && r.messages[..|s.messages|] == s.messages
    ensures r.messages[|s.messages|] == HumanMsg(input)
  {
    var s2 := s.(messages := s.messages + [HumanMsg(input)]);
    var s3 := ProcessUserInput(s2);
    var s4 := AfterDecision(s3, replies);
    PrefixOfPrefix(s.messages, s2.messages, s4.messages);
    DeliverFinal(s4)
  }

  /** The conditional edge out of `process_user_input`: Phase 2 unless the decision
      is stop. Either way the messages so far are kept. */
  function AfterDecision(s: MasterState, replies: M2G.Replies): (r: MasterState)
    ensures |s.messages| <= |r.messages| && r.messages[..|s.messages|] == s.messages
    ensures Route(s) == "complete" ==> r == s
  {
    if Route(s) == "phase2" then Phase2(s, replies) else s
  }

  lemma PrefixOfPrefix(a: seq<Message>, b: seq<Message>, c: seq<Message>)
    requires |a| <= |b| <= |c| && b[..|a|] == a && c[..|b|] == b
    ensures c[..|a|] == a
  {
    assert c[..|a|] == c[..|b|][..|a|];
  }

  /** The run always reaches the checkpoint, whether or not Manager 1 raises: the
      checkpoint message is the last message, and the report message before it is
      there exactly when Phase 1 succeeded. */
  lemma CheckpointAlwaysReached(trigger: string, replies: M1G.Replies, parse: Parser)
    ensures var s := RunToCheckpoint(trigger, replies, parse)[1].1;
      && s.currentPhase == "checkpoint"
      && s.messages[0] == HumanMsg(trigger)
      && s.messages[|s.messages| - 1] == AIMsg(CheckpointMessage(RunToCheckpoint(trigger, replies, parse)[0].1))
      && (M1G.FirstRaised(replies).None? <==> |s.messages| == 3)
      && (M1G.FirstRaised(replies).Some? <==> Truthy(s.error))
  {
  }

  /** A stop answer never runs Phase 2: nothing Phase 2 writes changes, and the
      final message is the stopped message. */
  lemma StopSkipsPhase2(s: MasterState, input: string, replies: M2G.Replies)
    requires Classify(Normalize(input)).decision == "stop"
    ensures var r := Resume(s, input, replies);
      && r.creativeIntelligence == s.creativeIntelligence && r.error == s.error
      && r.userDecision == Some("stop")
      && r.messages == s.messages + [HumanMsg(input), AIMsg(StoppedMessage)]
  {
    var s2 := s.(messages := s.messages + [HumanMsg(input)]);
    assert LatestHumanInput(s2.messages) == Normalize(input);
    var s3 := ProcessUserInput(s2);
    assert s3.userDecision == Some("stop");
    assert Resume(s, input, replies) == DeliverFinal(s3);
  }

  /** A Phase 1 failure does not stop the master run: a proceed answer still runs
      Phase 2, and since the error is never cleared the final message reports it. */
  lemma FailureIsContained(s: MasterState, input: string, replies: M2G.Replies)
    requires Truthy(s.error)
    requires Classify(Normalize(input)).decision == "proceed"
    ensures var r := Resume(s, input, replies);
      var s3 := ProcessUserInput(s.(messages := s.messages + [HumanMsg(input)]));
      && r == DeliverFinal(Phase2(s3, replies))
      && Truthy(r.error)
      && r.messages[|r.messages| - 1].content != SuccessMessage
  {
    var s2 := s.(messages := s.messages + [HumanMsg(input)]);
    assert LatestHumanInput(s2.messages) == Normalize(input);
    var s3 := ProcessUserInput(s2);
    var s4 := Phase2(s3, replies);
    assert Truthy(s4.error);
    assert s4.userDecision == Some("proceed");
  }

  /** A proceed answer with every Manager 2 call answering: the output is stored, and
      the run ends with the Phase 2 message and then the success message, unless an
      error was already recorded. */
  lemma ProceedRunsPhase2(s: MasterState, input: string, replies: M2G.Replies)
    requires Classify(Normalize(input)).decision == "proceed"
    requires M2G.FirstRaised(replies).None?
    ensures var r := Resume(s, input, replies);
      && r.creativeIntelligence.Some?
      && |r.messages| == |s.messages| + 3
      && (!Truthy(s.error) ==> r.messages[|r.messages| - 1] == AIMsg(SuccessMessage))
  {
    var s2 := s.(messages := s.messages + [HumanMsg(input)]);
    assert LatestHumanInput(s2.messages) == Normalize(input);
  }

  // ---------------------------------------------------------------------------
  // Reading a Phase 1 report back

  /** `[:\s]*`: the index after the run of colons and whitespace that starts at `i`. */
  function SkipColonSpace(t: string, i: nat): (j: nat)
    requires i <= |t|
    ensures i <= j <= |t| && (j == |t| || !(t[j] == ':' || IsSpace(t[j])))
    ensures forall k :: i <= k < j ==> t[k] == ':' || IsSpace(t[k])
    decreases |t| - i
  {
    if i < |t| && (t[i] == ':' || IsSpace(t[i])) then SkipColonSpace(t, i + 1) else i
  }

  const AnalysisMarker: string := "## Strategic Analysis"
  const DynamicsMarker: string := "competitive dynamics"

  /** The lazy section from `q` to the first stop, stripped; it holds no stop. */
  function Section(t: string, q: nat, stop: Stop): (r: string)
    requires q <= |t|
    ensures var p := FirstStop(t, q, stop);
      && r == Strip(t[q..p])
      && forall j :: q <= j < p ==> !StopAt(t, j, stop)
  {
    Strip(t[q..FirstStop(t, q, stop)])
  }

  /** The tables part of a report: the section after the first "## Strategic
      Analysis" and the whitespace after it, up to the next "##" or the end; the whole
      report when the heading is missing. */
  function TablesOf(t: string): (r: string)
    ensures FindFrom(t, AnalysisMarker, 0).None? ==> r == t
    ensures FindFrom(t, AnalysisMarker, 0).Some? ==>
      r == Section(t, SkipSpace(t, FindFrom(t, AnalysisMarker, 0).value + |AnalysisMarker|), HeadingOrEol)
  {
    var found := FindFrom(t, AnalysisMarker, 0);
    if found.None? then t else Section(t, SkipSpace(t, found.value + |AnalysisMarker|), HeadingOrEol)
  }

  /** The dynamics part of a report: the section after the first "competitive
      dynamics" in any case and the colons and whitespace after it, up to the next
      "##", two blank lines or the end; "" when the phrase is missing. */
  function DynamicsOf(t: string): (r: string)
    ensures FindFrom(LowerStr(t), DynamicsMarker, 0).None? ==> r == ""
    ensures FindFrom(LowerStr(t), DynamicsMarker, 0).Some? ==>
      r == Section(t, SkipColonSpace(t, FindFrom(LowerStr(t), DynamicsMarker, 0).value + |DynamicsMarker|),
                   HeadingGapOrEol)
  {
    var found := FindFrom(LowerStr(t), DynamicsMarker, 0);
    if found.None? then ""
    else
      FoundWithin(LowerStr(t), DynamicsMarker, 0);
      Section(t, SkipColonSpace(t, found.value + |DynamicsMarker|), HeadingGapOrEol)
  }

  /** `_extract_tables_and_dynamics`: ("", "") for a missing or empty report,
      otherwise its tables part and its dynamics part. */
  function TablesAndDynamics(report: Option<string>): (r: (string, string))
    ensures report.None? || report == Some("") ==> r == ("", "")
    ensures report.Some? && report.value != "" ==> r == (TablesOf(report.value), DynamicsOf(report.value))
  {
    if report.None? || report.value == "" then ("", "")
    else (TablesOf(report.value), DynamicsOf(report.value))
  }

  /** A stretch of text with no stop of a heading kind in it holds no "##". */
  lemma SliceHasNoHeading(t: string, a: nat, b: nat, stop: Stop)
    requires a <= b <= |t| && (stop == HeadingOrEol || stop == HeadingGapOrEol)
    requires forall j :: a <= j < b ==> !StopAt(t, j, stop)
    ensures forall j :: 0 <= j < b - a ==> !OccursAt(t[a..b], "##", j)
  {
    forall j | 0 <= j < b - a ensures !OccursAt(t[a..b], "##", j) {
      if OccursAt(t[a..b], "##", j) {
        SliceOfSlice(t, a, b, j, j + 2);
        assert StopAt(t, a + j, stop);
      }
    }
  }

  /** A section ends before the next heading: no "##" starts inside it. */
  lemma SectionHasNoHeading(t: string, q: nat, stop: Stop)
    requires q <= |t| && (stop == HeadingOrEol || stop == HeadingGapOrEol)
    ensures forall j :: 0 <= j < |Section(t, q, stop)| ==> !OccursAt(Section(t, q, stop), "##", j)
  {
    var p := FirstStop(t, q, stop);
    StripOfSlice(t, q, p);
    var l := LeadingSpaces(t[q..p]);
    var a, b := q + l, q + l + |Section(t, q, stop)|;
    SliceHasNoHeading(t, a, b, stop);
  }

  /** The tables part of a report with the heading holds no "##". */
  lemma TablesHaveNoHeading(t: string)
    requires FindFrom(t, AnalysisMarker, 0).Some?
    ensures forall j :: 0 <= j < |TablesOf(t)| ==> !OccursAt(TablesOf(t), "##", j)
  {
    var k := FindFrom(t, AnalysisMarker, 0).value;
    SectionHasNoHeading(t, SkipSpace(t, k + |AnalysisMarker|), HeadingOrEol);
  }

  /** The dynamics part of a report holds no "##". */
  lemma DynamicsHaveNoHeading(t: string)
    ensures forall j :: 0 <= j < |DynamicsOf(t)| ==> !OccursAt(DynamicsOf(t), "##", j)
  {
    if FindFrom(LowerStr(t), DynamicsMarker, 0).Some? {
      var k := FindFrom(LowerStr(t), DynamicsMarker, 0).value;
      FoundWithin(LowerStr(t), DynamicsMarker, 0);
      assert DynamicsOf(t) == Section(t, SkipColonSpace(t, k + |DynamicsMarker|), HeadingGapOrEol);
      SectionHasNoHeading(t, SkipColonSpace(t, k + |DynamicsMarker|), HeadingGapOrEol);
    }
  }
}
