/** The worker nodes of the audience-to-creative strategy orchestrator (Manager 2)
    and the helpers that read the agents' replies.

    As for Manager 1, each LLM or agent call is a parameter: `Ok(answer)` when it
    returns, `Err(reason)` when it raises, and the node raises with it. */
module Manager2Workers {
  import opened Wrappers
  import opened Text
  import opened PyValue
  import opened Scan
  import opened Messages

  /** The orchestrator's graph state. */
  datatype M2State = M2State(
    messages: seq<Message>,
    competitiveTables: string,
    competitiveDynamics: string,
    audienceSegments: Option<string>,
    priorityCeps: Value,
    audienceAttributes: Value,
    strategicTable: Option<string>,
    strategicInsights: Option<string>,
    belowThresholdAnalysis: Option<string>,
    powerpointUrl: Option<string>,
    finalOutput: Option<string>,
    currentStep: string,
    error: Option<string>)

  datatype M2Field =
    | Messages | CompetitiveTables | CompetitiveDynamics | AudienceSegments | PriorityCeps
    | AudienceAttributes | StrategicTable | StrategicInsights | BelowThresholdAnalysis
    | PowerpointUrl | FinalOutput | CurrentStep | Error

  /** `s` and `t` hold the same value in every field outside `changed`. */
  predicate Agree(s: M2State, t: M2State, changed: set<M2Field>) {
    && (Messages !in changed ==> s.messages == t.messages)
    && (CompetitiveTables !in changed ==> s.competitiveTables == t.competitiveTables)
    && (CompetitiveDynamics !in changed ==> s.competitiveDynamics == t.competitiveDynamics)
    && (AudienceSegments !in changed ==> s.audienceSegments == t.audienceSegments)
    && (PriorityCeps !in changed ==> s.priorityCeps == t.priorityCeps)
    && (AudienceAttributes !in changed ==> s.audienceAttributes == t.audienceAttributes)
    && (StrategicTable !in changed ==> s.strategicTable == t.strategicTable)
    && (StrategicInsights !in changed ==> s.strategicInsights == t.strategicInsights)
    && (BelowThresholdAnalysis !in changed ==> s.belowThresholdAnalysis == t.belowThresholdAnalysis)
    && (PowerpointUrl !in changed ==> s.powerpointUrl == t.powerpointUrl)
    && (FinalOutput !in changed ==> s.finalOutput == t.finalOutput)
    && (CurrentStep !in changed ==> s.currentStep == t.currentStep)
    && (Error !in changed ==> s.error == t.error)
  }

  // ---------------------------------------------------------------------------
  // Reading the replies

  /** `_parse_audience_attributes`: the whole text under the key "raw_attributes". */
  function RawAttributes(text: string): (r: Value)
    ensures r.PDict? && Get(r.entries, "raw_attributes") == Some(PStr(text))
  {
    PDict([Entry("raw_attributes", PStr(text))])
  }

  /** The text the slide builder and the compile node show for the audience
      attributes: a dict's "raw_attributes" entry (`str()` of it), or the whole
      dict's `str()` when it has none; any other value its `str()` when truthy, and
      `fallback` when not. */
  function AttrsText(v: Value, fallback: string): (r: string) {
    match v
    case PDict(es) =>
      (match Get(es, "raw_attributes")
       case Some(x) => Str(x)
       case None => Repr(v))
    case _ => if Truthy(v) then Str(v) else fallback
  }

  /** What the data extractor stores reads back as the text it was given. */
  lemma AttrsTextRoundTrip(text: string, fallback: string)
    ensures AttrsText(RawAttributes(text), fallback) == text
  {
  }

  /** Unset attributes show as the fallback, but an empty dict is a dict: it shows as
      "{}", never as the fallback. */
  lemma AttrsTextFallback(fallback: string)
    ensures AttrsText(PNone, fallback) == fallback
    ensures AttrsText(PDict([]), fallback) == "{}"
  {
    assert Repr(PDict([])) == "{" + ReprEntries(PDict([]), 0) + "}";
  }

  /** The non-empty contents of the AI messages of `ms`, in order: what the data
      extractor's loop collects. */
  function AiTexts(ms: seq<Message>): (r: seq<string>)
    ensures |r| <= |ms|
    ensures forall k :: 0 <= k < |r| ==> r[k] != ""
    ensures forall c :: c in r ==> exists k :: 0 <= k < |ms| && ms[k] == AIMsg(c)
  {
    if |ms| == 0 then []
    else
      var rest := AiTexts(ms[..|ms| - 1]);
      var last := ms[|ms| - 1];
      if last.role == AI && last.content != "" then rest + [last.content] else rest
  }

  lemma AiTextsNext(ms: seq<Message>, i: nat)
    requires i < |ms|
    ensures AiTexts(ms[..i + 1]) ==
        AiTexts(ms[..i]) + (if ms[i].role == AI && ms[i].content != "" then [ms[i].content] else [])
  {
    assert ms[..i + 1][..i] == ms[..i];
  }

  /** The data extractor's loop over the agent's messages. */
  method CollectAiTexts(ms: seq<Message>) returns (texts: seq<string>)
    ensures texts == AiTexts(ms)
  {
    texts := [];
    var i := 0;
    while i < |ms|
      invariant 0 <= i <= |ms|
      invariant texts == AiTexts(ms[..i])
    {
      AiTextsNext(ms, i);
      if ms[i].role == AI && ms[i].content != "" {
        texts := texts + [ms[i].content];
      }
      i := i + 1;
    }
    assert ms[..|ms|] == ms;
  }

  /** The exploration text of the data extractor: its AI answers joined by blank
      lines, or, when there is none, the content of the last message; with no
      message at all, `[-1]` raises. */
  function FullExploration(ms: seq<Message>): (r: Result<string, string>)
    ensures ms == [] ==> r.Err?
    ensures AiTexts(ms) == [] && ms != [] ==> r == Ok(ms[|ms| - 1].content)
    ensures AiTexts(ms) != [] ==> r == Ok(Join(AiTexts(ms), "\n\n")) && r.value != ""
                                  && forall k :: 0 <= k < |AiTexts(ms)| ==> Contains(r.value, AiTexts(ms)[k])
  {
    var texts := AiTexts(ms);
    if texts != [] then
      JoinEmpty(texts, "\n\n");
      JoinContains(texts, "\n\n");
      Ok(Join(texts, "\n\n"))
    else if ms == [] then Err("IndexError: list index out of range")
    else Ok(ms[|ms| - 1].content)
  }

  // ---------------------------------------------------------------------------
  // The table and the below-threshold section

  /** The strategic table of the LLM's answer: from the first `\|.*\|` match to the
      first blank line that is followed by something other than a bar (or to the
      end), stripped; the whole answer, unstripped, when no line holds two bars. */
  function TableOf(t: string): (r: string)
    ensures FirstBarLine(t, 0).None? ==> r == t
    ensures FirstBarLine(t, 0).Some? ==>
      var i := FirstBarLine(t, 0).value;
      var q := BarLineEnd(t, i).value;
      var p := FirstStop(t, q, BlankLineThenNoBarOrEnd);
      && r == Strip(t[i..p])
      && StartsWith(r, t[i..q])
  {
    match FirstBarLine(t, 0)
    case None => t
    case Some(i) =>
      var q := BarLineEnd(t, i).value;
      var p := FirstStop(t, q, BlankLineThenNoBarOrEnd);
      StripKeepsBarLine(t, i, q, p);
      Strip(t[i..p])
  }

  /** Stripping a stretch that starts with a line opening and closing with a bar
      keeps that line at its head. */
  lemma StripKeepsBarLine(t: string, i: nat, q: nat, p: nat)
    requires i + 2 <= q <= p <= |t| && t[i] == '|' && t[q - 1] == '|'
    ensures StartsWith(Strip(t[i..p]), t[i..q])
  {
    var s := t[i..p];
    assert s[..q - i] == t[i..q];
    StripKeepsPrefix(s, s[..q - i]);
  }

  /** The phrases that open the below-threshold section, matched ignoring case. */
  predicate KeywordAt(lt: string, k: nat) {
    || OccursAt(lt, "below threshold", k)
    || OccursAt(lt, "threshold ceps", k)
    || OccursAt(lt, "underperforming", k)
    || OccursAt(lt, "attention", k)
    || OccursAt(lt, "monitor", k)
  }

  /** The first index at or after `from` where a keyword starts. */
  function FirstKeyword(lt: string, from: nat): (r: Option<nat>)
    requires from <= |lt|
    ensures r.Some? ==> from <= r.value <= |lt| && KeywordAt(lt, r.value)
    ensures r.Some? ==> forall j :: from <= j < r.value ==> !KeywordAt(lt, j)
    ensures r.None? ==> forall j :: from <= j <= |lt| ==> !KeywordAt(lt, j)
    decreases |lt| - from
  {
    if KeywordAt(lt, from) then Some(from)
    else if from == |lt| then None
    else FirstKeyword(lt, from + 1)
  }

  /** The below-threshold analysis: from the leftmost keyword (any case) to the end
      of the answer, stripped; "" when no keyword occurs. */
  function BelowThreshold(t: string): (r: string)
    ensures r == "" <==> forall j :: 0 <= j <= |t| ==> !KeywordAt(LowerStr(t), j)
    ensures r != "" ==>
      var k := FirstKeyword(LowerStr(t), 0).value;
      && r == Strip(t[k..])
      && KeywordAt(LowerStr(r), 0)
  {
    match FirstKeyword(LowerStr(t), 0)
    case None => ""
    case Some(k) =>
      KeywordLeads(t, k);
      Strip(t[k..])
  }

  /** A keyword match survives stripping at the head of the rest of the text. */
  lemma KeywordLeads(t: string, k: nat)
    requires k <= |t| && KeywordAt(LowerStr(t), k)
    ensures Strip(t[k..]) != "" && KeywordAt(LowerStr(Strip(t[k..])), 0)
  {
    var lt := LowerStr(t);
    if OccursAt(lt, "below threshold", k) {
      WordLeads(t, k, "below threshold");
    } else if OccursAt(lt, "threshold ceps", k) {
      WordLeads(t, k, "threshold ceps");
    } else if OccursAt(lt, "underperforming", k) {
      WordLeads(t, k, "underperforming");
    } else if OccursAt(lt, "attention", k) {
      WordLeads(t, k, "attention");
    } else {
      WordLeads(t, k, "monitor");
    }
  }

  /** A word that neither starts nor ends with whitespace, found at `k` ignoring
      case, heads the stripped rest of the text. */
  lemma WordLeads(t: string, k: nat, w: string)
    requires OccursAt(LowerStr(t), w, k) && |w| > 0
    requires !IsSpace(w[0]) && !IsSpace(w[|w| - 1])
    ensures Strip(t[k..]) != "" && OccursAt(LowerStr(Strip(t[k..])), w, 0)
  {
    var n := |w|;
    var p := t[k..k + n];
    LowerSlice(t, k, k + n);
    assert LowerStr(p) == w;
    assert Lower(p[0]) == w[0] && Lower(p[n - 1]) == w[n - 1];
    assert t[k..][..n] == p;
    StripKeepsPrefix(t[k..], p);
    var r := Strip(t[k..]);
    assert r[..n] == p;
    LowerSlice(r, 0, n);
    assert LowerStr(r)[0..n] == w;
  }

  /** `_extract_table_and_analysis`: the table and the below-threshold analysis. */
  function TableAndAnalysis(t: string): (string, string)
  {
    (TableOf(t), BelowThreshold(t))
  }

  // ---------------------------------------------------------------------------
  // The node functions

  /** The order the nodes hand `current_step` on in. */
  const StepNames: seq<string> := ["step1", "step2", "step3", "step4", "step5", "compile", "complete"]

  /** Agent 2.1, the audience CEP analyzer: the agent's last message is kept whole as
      the segments, and the CEP mapping is an empty dict. */
  function AudienceCepAnalyzer(s: M2State, reply: Result<string, string>): (r: Result<M2State, string>)
    ensures reply.Err? ==> r == Err(reply.error)
    ensures reply.Ok? ==> && r.Ok? && Agree(s, r.value, {AudienceSegments, PriorityCeps, CurrentStep})
                          && r.value.currentStep == StepNames[1]
                          && r.value.audienceSegments == Some(reply.value)
                          && r.value.priorityCeps == PDict([])
  {
    var answer :- reply;
    Ok(s.(audienceSegments := Some(answer), priorityCeps := PDict([]), currentStep := "step2"))
  }

  /** Agent 2.2, the audience data extractor: the exploration text of the agent's
      messages, stored as raw attributes. */
  function AudienceDataExtractor(s: M2State, reply: Result<seq<Message>, string>): (r: Result<M2State, string>)
    ensures reply.Err? ==> r == Err(reply.error)
    ensures reply.Ok? && reply.value == [] ==> r.Err?
    ensures reply.Ok? && reply.value != [] ==>
      && r.Ok? && Agree(s, r.value, {AudienceAttributes, CurrentStep})
      && r.value.currentStep == StepNames[2]
      && r.value.audienceAttributes == RawAttributes(FullExploration(reply.value).value)
  {
    var ms :- reply;
    var text :- FullExploration(ms);
    Ok(s.(audienceAttributes := RawAttributes(text), currentStep := "step3"))
  }

  /** Step 3, the strategic table the manager builds itself. */
  function BuildStrategicTable(s: M2State, reply: Result<string, string>): (r: Result<M2State, string>)
    ensures reply.Err? ==> r == Err(reply.error)
    ensures reply.Ok? ==> && r.Ok? && Agree(s, r.value, {StrategicTable, BelowThresholdAnalysis, CurrentStep})
                          && r.value.currentStep == StepNames[3]
                          && r.value.strategicTable == Some(TableOf(reply.value))
                          && r.value.belowThresholdAnalysis == Some(BelowThreshold(reply.value))
  {
    var answer :- reply;
    var (table, below) := TableAndAnalysis(answer);
    Ok(s.(strategicTable := Some(table), belowThresholdAnalysis := Some(below), currentStep := "step4"))
  }

  /** Step 4, the strategic insights: the LLM's answer as it is. */
  function GenerateStrategicInsights(s: M2State, reply: Result<string, string>): (r: Result<M2State, string>)
    ensures reply.Err? ==> r == Err(reply.error)
    ensures reply.Ok? ==> && r.Ok? && Agree(s, r.value, {StrategicInsights, CurrentStep})
                          && r.value.currentStep == StepNames[4]
                          && r.value.strategicInsights == Some(reply.value)
  {
    var answer :- reply;
    Ok(s.(strategicInsights := Some(answer), currentStep := "step5"))
  }

  /** Agent 2.3, the slide builder: the first URL of the agent's last message. */
  function AudienceSlideBuilder(s: M2State, reply: Result<string, string>): (r: Result<M2State, string>)
    ensures reply.Err? ==> r == Err(reply.error)
    ensures reply.Ok? ==> && r.Ok? && Agree(s, r.value, {PowerpointUrl, CurrentStep})
                          && r.value.currentStep == StepNames[5]
                          && r.value.powerpointUrl == Some(FirstUrl(reply.value))
  {
    var answer :- reply;
    Ok(s.(powerpointUrl := Some(FirstUrl(answer)), currentStep := "compile"))
  }

  /** The fixed text of the final output right before each field it embeds. Between
      the fields the output also holds an overview sentence, the table notes, six
      summary lines and a closing line, which are not part of this model. */
  const OutputTitle: string := "# Audience-to-Creative Strategy Analysis\n\n## Overview\n"
  const ReadyLine: string := "\n\n\U{2705} **Your Audience-to-Creative Strategy Presentation is ready!**\n\n"
  const AttrsHeading: string :=
    "\n\n---\n\n## Target Exploration: Audience Attributes\n\n"
    + "The following attributes were identified as key differentiators for each audience segment, "
    + "providing the foundation for personalized creative strategies:\n\n"
  const TableHeading: string := "\n\n---\n\n## Strategic Audience-CEP-Creative Table\n\n"
  const BelowHeading: string := "\n\n**BELOW THRESHOLD CEPs REQUIRING ATTENTION:**\n"
  const InsightsHeading: string := "\n\n---\n\n## Strategic Insights by Audience Segment\n\n"
  const SummaryHeading: string := "\n\n---\n\n## Deliverables Summary\n\n"
  const PptSummaryLabel: string := "\U{2705} **PowerPoint URL**: "

  /** The text the compile node shows when no audience attributes were gathered. */
  const NoAttrsText: string := "No audience attribute data available"

  /** The pieces of `compile_manager2_output`'s text: the PowerPoint URL, the
      attributes, the table, the below-threshold analysis, the insights and the URL
      again, each after the fixed text that precedes it. */
  function OutputPieces(s: M2State): (r: seq<string>)
    ensures |r| == 14
  {
    [OutputTitle, ReadyLine, Show(s.powerpointUrl),
     AttrsHeading, AttrsText(s.audienceAttributes, NoAttrsText),
     TableHeading, Show(s.strategicTable),
     BelowHeading, Show(s.belowThresholdAnalysis),
     InsightsHeading, Show(s.strategicInsights),
     SummaryHeading, PptSummaryLabel, Show(s.powerpointUrl)]
  }

  function Output(s: M2State): string {
    Concat(OutputPieces(s))
  }

  /** Each field sits in the output right after the fixed text that precedes it. */
  lemma OutputEmbeds(s: M2State)
    ensures exists i :: OccursAt(Output(s), ReadyLine + Show(s.powerpointUrl), i)
    ensures exists i :: OccursAt(Output(s), AttrsHeading + AttrsText(s.audienceAttributes, NoAttrsText), i)
    ensures exists i :: OccursAt(Output(s), TableHeading + Show(s.strategicTable), i)
    ensures exists i :: OccursAt(Output(s), BelowHeading + Show(s.belowThresholdAnalysis), i)
    ensures exists i :: OccursAt(Output(s), InsightsHeading + Show(s.strategicInsights), i)
    ensures exists i :: OccursAt(Output(s), PptSummaryLabel + Show(s.powerpointUrl), i)
  {
    var ps := OutputPieces(s);
    assert Output(s) == Concat(ps);
    ConcatPair(ps, 1);
    assert OccursAt(Output(s), ReadyLine + Show(s.powerpointUrl), |Concat(ps[..1])|);
    ConcatPair(ps, 3);
    assert OccursAt(Output(s), AttrsHeading + AttrsText(s.audienceAttributes, NoAttrsText), |Concat(ps[..3])|);
    ConcatPair(ps, 5);
    assert OccursAt(Output(s), TableHeading + Show(s.strategicTable), |Concat(ps[..5])|);
    ConcatPair(ps, 7);
    assert OccursAt(Output(s), BelowHeading + Show(s.belowThresholdAnalysis), |Concat(ps[..7])|);
    ConcatPair(ps, 9);
    assert OccursAt(Output(s), InsightsHeading + Show(s.strategicInsights), |Concat(ps[..9])|);
    ConcatPair(ps, 12);
    assert OccursAt(Output(s), PptSummaryLabel + Show(s.powerpointUrl), |Concat(ps[..12])|);
  }

  /** The compile node: the final output, and the step chain ends. */
  function CompileOutput(s: M2State): (r: M2State)
    ensures Agree(s, r, {FinalOutput, CurrentStep})
    ensures r.currentStep == StepNames[6] && r.finalOutput == Some(Output(s))
  {
    s.(finalOutput := Some(Output(s)), currentStep := "complete")
  }
}
