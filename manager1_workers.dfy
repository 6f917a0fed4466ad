/** The worker nodes of the competitive analyzer (Manager 1) and the helpers that
    pull URLs, JSON, tables and insights out of agent replies.

    Each node calls an LLM agent and keeps only the content of the agent's last
    message. That call is a parameter here: `Ok(content)` when the agent answers,
    `Err(reason)` when the call raises, in which case the node raises too (nothing
    in the node catches it). */
module Manager1Workers {
  import opened Wrappers
  import opened Text
  import opened PyValue
  import opened Scan
  import opened Messages

  /** The analyzer's graph state; a field the code initialises to None is an
      `Option` (or `PNone`) here. */
  datatype M1State = M1State(
    messages: seq<Message>,
    rawDataPngUrl: Option<string>,
    rawDataJson: Value,
    cepAnalysis: Option<string>,
    cepTables: Option<string>,
    keyInsights: Option<seq<Value>>,
    visualizationPngUrl: Option<string>,
    visualizationPdfUrl: Option<string>,
    powerpointUrl: Option<string>,
    finalReport: Option<string>,
    currentStep: string,
    error: Option<string>)

  datatype M1Field =
    | Messages | RawDataPngUrl | RawDataJson | CepAnalysis | CepTables | KeyInsights
    | VisualizationPngUrl | VisualizationPdfUrl | PowerpointUrl | FinalReport
    | CurrentStep | Error

  /** `s` and `t` hold the same value in every field outside `changed`. */
  predicate Agree(s: M1State, t: M1State, changed: set<M1Field>) {
    && (Messages !in changed ==> s.messages == t.messages)
    && (RawDataPngUrl !in changed ==> s.rawDataPngUrl == t.rawDataPngUrl)
    && (RawDataJson !in changed ==> s.rawDataJson == t.rawDataJson)
    && (CepAnalysis !in changed ==> s.cepAnalysis == t.cepAnalysis)
    && (CepTables !in changed ==> s.cepTables == t.cepTables)
    && (KeyInsights !in changed ==> s.keyInsights == t.keyInsights)
    && (VisualizationPngUrl !in changed ==> s.visualizationPngUrl == t.visualizationPngUrl)
    && (VisualizationPdfUrl !in changed ==> s.visualizationPdfUrl == t.visualizationPdfUrl)
    && (PowerpointUrl !in changed ==> s.powerpointUrl == t.powerpointUrl)
    && (FinalReport !in changed ==> s.finalReport == t.finalReport)
    && (CurrentStep !in changed ==> s.currentStep == t.currentStep)
    && (Error !in changed ==> s.error == t.error)
  }

  /** Agreement outside `a` and then outside `b` is agreement outside both. */
  lemma AgreeTrans(s: M1State, t: M1State, u: M1State, a: set<M1Field>, b: set<M1Field>)
    requires Agree(s, t, a) && Agree(t, u, b)
    ensures Agree(s, u, a + b)
  {
  }

  // ---------------------------------------------------------------------------
  // Extraction helpers

  /** `_extract_png_url`: the match of `https?://[^\s]+\.png`, or "". */
  function ExtractPngUrl(text: string): (r: string)
    ensures r == "" <==> ExtUrlSpan(text, Png).None?
    ensures r != "" ==> var (a, b) := ExtUrlSpan(text, Png).value; r == text[a..b]
    ensures r != "" ==> HasNoSpace(r) && EndsWith(r, ".png")
                        && (StartsWith(r, "http://") || StartsWith(r, "https://"))
                        && exists a :: OccursAt(text, r, a)
  {
    match ExtUrlSpan(text, Png)
    case None => ""
    case Some((a, b)) =>
      ExtUrlSpanShape(text, Png);
      assert OccursAt(text, text[a..b], a);
      text[a..b]
  }

  /** `_extract_pdf_url`: the match of `https?://[^\s]+\.pdf`, or "". */
  function ExtractPdfUrl(text: string): (r: string)
    ensures r == "" <==> ExtUrlSpan(text, Pdf).None?
    ensures r != "" ==> var (a, b) := ExtUrlSpan(text, Pdf).value; r == text[a..b]
    ensures r != "" ==> HasNoSpace(r) && EndsWith(r, ".pdf")
                        && (StartsWith(r, "http://") || StartsWith(r, "https://"))
                        && exists a :: OccursAt(text, r, a)
  {
    match ExtUrlSpan(text, Pdf)
    case None => ""
    case Some((a, b)) =>
      ExtUrlSpanShape(text, Pdf);
      assert OccursAt(text, text[a..b], a);
      text[a..b]
  }

  /** `_extract_ppt_url`: the match of `https?://[^\s]+\.(pptx?|powerpoint)` ignoring
      case, else the first `https?://[^\s]+`, else "". The case-insensitive search
      runs over the lower-cased text; the match is cut from the original. */
  function ExtractPptUrl(text: string): (r: string)
    ensures ExtUrlSpan(LowerStr(text), PowerPoint).None? ==> r == FirstUrl(text)
    ensures ExtUrlSpan(LowerStr(text), PowerPoint).Some? ==>
      var (a, b) := ExtUrlSpan(LowerStr(text), PowerPoint).value;
      && b <= |text| && r == text[a..b]
      && r != "" && HasNoSpace(r) && (exists a :: OccursAt(text, r, a))
      && (StartsWith(LowerStr(r), "http://") || StartsWith(LowerStr(r), "https://"))
      && (EndsWith(LowerStr(r), ".ppt") || EndsWith(LowerStr(r), ".pptx")
          || EndsWith(LowerStr(r), ".powerpoint"))
  {
    var low := LowerStr(text);
    match ExtUrlSpan(low, PowerPoint)
    case None => FirstUrl(text)
    case Some((a, b)) =>
      PptMatchShape(text, a, b);
      text[a..b]
  }

  /** The PowerPoint match found on the lower-cased text, cut from the original: a
      whitespace-free URL that ends with the extension in any case. */
  lemma PptMatchShape(text: string, a: nat, b: nat)
    requires ExtUrlSpan(LowerStr(text), PowerPoint) == Some((a, b))
    ensures a < b <= |text| && HasNoSpace(text[a..b]) && OccursAt(text, text[a..b], a)
    ensures var low := LowerStr(text[a..b]);
      && (StartsWith(low, "http://") || StartsWith(low, "https://"))
      && (EndsWith(low, ".ppt") || EndsWith(low, ".pptx") || EndsWith(low, ".powerpoint"))
  {
    ExtUrlSpanShape(LowerStr(text), PowerPoint);
    LowerSlice(text, a, b);
  }

  /** `_extract_json`: the span from the first '{' to the last '}' decoded as JSON,
      or `{}` when there is no such span or it does not decode. */
  function ExtractJson(parse: Parser, text: string): (r: Value)
    ensures r.PDict?
    ensures BracketSpan(text, '{', '}').None? ==> r == PDict([])
    ensures BracketSpan(text, '{', '}').Some? ==>
      var span := BracketSpan(text, '{', '}').value;
      r == if LoadsDict(parse, span).Some? then parse(span).value else PDict([])
  {
    match BracketSpan(text, '{', '}')
    case None => PDict([])
    case Some(span) =>
      match LoadsDict(parse, span)
      case Some(v) => v
      case None => PDict([])
  }

  /** The blocks `re.findall(r'\|.*\|[\s\S]*?(?=\n\n|\Z)', text)` returns, in order:
      each a slice of the text that starts with a bar and has a second bar before
      its first line ends. */
  function TableBlocks(text: string): (r: seq<string>)
    ensures var spans := TableSpans(text, 0);
      && |r| == |spans|
      && forall k :: 0 <= k < |r| ==> r[k] == text[spans[k].0..spans[k].1]
    ensures |r| == 0 <==> FirstBarLine(text, 0).None?
    ensures forall k :: 0 <= k < |r| ==> |r[k]| >= 2 && r[k][0] == '|'
                                         && (exists a :: OccursAt(text, r[k], a))
                                         && '|' in r[k][1..LineEnd(r[k], 0)]
  {
    var spans := TableSpans(text, 0);
    seq(|spans|, k requires 0 <= k < |spans| => BlockAt(text, spans[k].0, spans[k].1))
  }

  function BlockAt(text: string, a: nat, b: nat): (r: string)
    requires a <= b <= |text| && BarLineEnd(text, a).Some? && BarLineEnd(text, a).value <= b
    ensures r == text[a..b] && OccursAt(text, r, a)
    ensures |r| >= 2 && r[0] == '|' && '|' in r[1..LineEnd(r, 0)]
  {
    var r := text[a..b];
    var e := BarLineEnd(text, a).value;
    assert forall j :: 0 <= j < e - a ==> r[j] == text[a + j];
    LineEndBeyond(r, 0, e - a);
    assert r[1..LineEnd(r, 0)][e - a - 2] == '|';
    r
  }

  /** `_extract_tables`: the table blocks joined by blank lines; "" when there are
      none, and so whenever the text has no bar. */
  function ExtractTables(text: string): (r: string)
    ensures r == Join(TableBlocks(text), "\n\n")
    ensures r == "" <==> FirstBarLine(text, 0).None?
    ensures '|' !in text ==> r == ""
  {
    var blocks := TableBlocks(text);
    JoinEmpty(blocks, "\n\n");
    Join(blocks, "\n\n")
  }

  // ---------------------------------------------------------------------------
  // Insights

  /** The characters `^[-*\d.)\s]+` strips from the head of a bullet line. */
  predicate IsBulletMark(c: char) {
    c == '-' || c == '*' || IsDigit(c) || c == '.' || c == ')' || IsSpace(c)
  }

  /** `re.sub(r'^[-*\d.)\s]+', '', line)`: drops the leading run of bullet marks. */
  function DropBulletMarks(line: string): (r: string)
    ensures |r| <= |line| && r == line[|line| - |r|..]
    ensures r == [] || !IsBulletMark(r[0])
    ensures forall i :: 0 <= i < |line| - |r| ==> IsBulletMark(line[i])
  {
    line[BulletMarksEnd(line, 0)..]
  }

  /** The end of the run of bullet marks of `line` that starts at `i`. */
  function BulletMarksEnd(line: string, i: nat): (j: nat)
    requires i <= |line|
    ensures i <= j <= |line| && (j == |line| || !IsBulletMark(line[j]))
    ensures forall k :: i <= k < j ==> IsBulletMark(line[k])
    decreases |line| - i
  {
    if i < |line| && IsBulletMark(line[i]) then BulletMarksEnd(line, i + 1) else i
  }

  /** A stripped line the fallback reads as a bullet: it starts with '-', '*' or a
      digit. */
  predicate IsBulletLine(line: string) {
    line != "" && (line[0] == '-' || line[0] == '*' || IsDigit(line[0]))
  }

  /** The cleaned bullets of `lines`, in order, before the cut to four: one per
      stripped bullet line whose text is not all bullet marks. */
  function BulletItems(lines: seq<string>): (r: seq<string>)
    ensures |r| <= |lines|
    ensures forall k :: 0 <= k < |r| ==> CleanItem(r[k])
  {
    KeptClean(CleanedBullet, lines, |lines|);
    Kept(CleanedBullet, lines, |lines|)
  }

  /** The values `f` gives for the first `n` lines, in order, where it gives one. */
  function Kept(f: string -> Option<string>, lines: seq<string>, n: nat): (r: seq<string>)
    requires n <= |lines|
    ensures |r| <= n
  {
    if n == 0 then []
    else
      match f(lines[n - 1])
      case Some(item) => Kept(f, lines, n - 1) + [item]
      case None => Kept(f, lines, n - 1)
  }

  /** When every value `f` gives is clean, so is every item kept. */
  lemma {:induction false} KeptClean(f: string -> Option<string>, lines: seq<string>, n: nat)
    requires n <= |lines|
    requires forall x :: f(x).Some? ==> CleanItem(f(x).value)
    ensures forall k :: 0 <= k < |Kept(f, lines, n)| ==> CleanItem(Kept(f, lines, n)[k])
  {
    if n > 0 {
      KeptClean(f, lines, n - 1);
      var rest := Kept(f, lines, n - 1);
      if f(lines[n - 1]).Some? {
        forall k | 0 <= k < |Kept(f, lines, n)| ensures CleanItem(Kept(f, lines, n)[k]) {
          if k < |rest| {
            assert Kept(f, lines, n)[k] == rest[k];
          }
        }
      }
    }
  }

  /** A kept item: non-empty and free of a leading bullet mark. */
  predicate CleanItem(s: string) {
    s != "" && !IsBulletMark(s[0])
  }

  /** What one raw line contributes to the fallback: its stripped text without the
      leading bullet marks, when the stripped line reads as a bullet and something is
      left after the marks. */
  function CleanedBullet(raw: string): (r: Option<string>)
    ensures r.Some? ==> CleanItem(r.value)
  {
    var line := Strip(raw);
    if IsBulletLine(line) then
      var cleaned := DropBulletMarks(line);
      if cleaned != "" then Some(cleaned) else None
    else None
  }

  /** The fallback of `_parse_insights`: at most four cleaned bullets of the stripped
      text's lines. */
  function FallbackInsights(text: string): (r: seq<string>)
    ensures var items := BulletItems(Split(Strip(text), '\n'));
      |r| == (if |items| < 4 then |items| else 4) && r == items[..|r|]
    ensures forall k :: 0 <= k < |r| ==> CleanItem(r[k])
  {
    var items := BulletItems(Split(Strip(text), '\n'));
    TakeCleanItems(items, 4);
    Take(items, 4)
  }

  /** A prefix of clean items is clean. */
  lemma TakeCleanItems(items: seq<string>, n: nat)
    requires forall k :: 0 <= k < |items| ==> CleanItem(items[k])
    ensures forall k :: 0 <= k < |Take(items, n)| ==> CleanItem(Take(items, n)[k])
  {
  }

  /** The '['...']' span of the text decoded as a JSON list, if it decodes. */
  function DecodedList(parse: Parser, text: string): (r: Option<seq<Value>>)
    ensures r.Some? <==> BracketSpan(text, '[', ']').Some?
                         && LoadsList(parse, BracketSpan(text, '[', ']').value).Some?
    ensures r.Some? ==> r.value == parse(BracketSpan(text, '[', ']').value).value.items
  {
    match BracketSpan(text, '[', ']')
    case Some(span) => LoadsList(parse, span)
    case None => None
  }

  /** Strings as Python values. */
  function AsValues(items: seq<string>): (r: seq<Value>)
    ensures |r| == |items| && forall k :: 0 <= k < |r| ==> r[k] == PStr(items[k])
  {
    seq(|items|, k requires 0 <= k < |items| => PStr(items[k]))
  }

  /** `_parse_insights`: a list that decodes is taken as it is, with no check on its
      length or items; otherwise at most four non-empty bullet strings. */
  function Insights(parse: Parser, text: string): (r: seq<Value>)
    ensures DecodedList(parse, text).Some? ==> r == DecodedList(parse, text).value
    ensures DecodedList(parse, text).None? ==>
      && |r| <= 4
      && forall k :: 0 <= k < |r| ==> r[k].PStr? && CleanItem(r[k].s)
  {
    match DecodedList(parse, text)
    case Some(xs) => xs
    case None => AsValues(FallbackInsights(text))
  }

  /** `_parse_insights` as the code runs it: the fallback collects bullets line by
      line into a list and cuts it to four. */
  method ParseInsights(parse: Parser, text: string) returns (insights: seq<Value>)
    ensures insights == Insights(parse, text)
  {
    var decoded := DecodedList(parse, text);
    if decoded.Some? {
      insights := decoded.value;
    } else {
      var items := CollectBullets(Split(Strip(text), '\n'));
      insights := AsValues(Take(items, 4));
    }
  }

  /** The fallback loop: one cleaned bullet per bullet line, appended in order. */
  method CollectBullets(lines: seq<string>) returns (items: seq<string>)
    ensures items == BulletItems(lines)
  {
    items := [];
    for i := 0 to |lines|
      invariant items == Kept(CleanedBullet, lines, i)
    {
      var c := CleanLine(lines[i]);
      if c.Some? {
        items := items + [c.value];
      }
    }
  }

  /** One pass of the fallback loop: strip the line and, when it reads as a bullet,
      drop its marks; `None` when nothing is to be appended. */
  method CleanLine(raw: string) returns (c: Option<string>)
    ensures c == CleanedBullet(raw)
  {
    var line := Strip(raw);
    c := None;
    if IsBulletLine(line) {
      var cleaned := DropBulletMarks(line);
      if cleaned != "" {
        c := Some(cleaned);
      }
    }
  }

  /** The key-insight lines of the compiled report: `"- " + str(insight)` per insight,
      one per line; None counts as no insights. */
  function InsightLines(insights: Option<seq<Value>>): (r: string)
    ensures r == "" <==> insights.None? || insights.value == []
  {
    var xs := insights.GetOr([]);
    var bullets := Bullets(xs);
    JoinEmpty(bullets, "\n");
    Join(bullets, "\n")
  }

  function Bullets(xs: seq<Value>): (r: seq<string>)
    ensures |r| == |xs|
    ensures forall k :: 0 <= k < |r| ==> r[k] == "- " + Str(xs[k])
  {
    seq(|xs|, k requires 0 <= k < |xs| => "- " + Str(xs[k]))
  }

  /** When no insight spans lines, the insight block reads back as one bullet line
      per insight, in order. */
  lemma InsightLinesSplit(xs: seq<Value>)
    requires |xs| >= 1
    requires forall k :: 0 <= k < |xs| ==> '\n' !in Str(xs[k])
    ensures Split(InsightLines(Some(xs)), '\n') == Bullets(xs)
  {
    var bullets := Bullets(xs);
    forall k | 0 <= k < |bullets| ensures '\n' !in bullets[k] {
      assert bullets[k] == "- " + Str(xs[k]);
    }
    SplitJoin(bullets, '\n');
  }

  // ---------------------------------------------------------------------------
  // The node functions

  /** The order the nodes hand `current_step` on in: each node sets the entry after
      the one it runs as. */
  const StepNames: seq<string> := ["step1", "step2", "step3", "step4", "step5", "compile", "complete"]

  /** Agent 1.1, the data merger: the PNG URL and the JSON of the agent's answer. */
  function DataMerger(s: M1State, reply: Result<string, string>, parse: Parser): (r: Result<M1State, string>)
    ensures reply.Err? ==> r == Err(reply.error)
    ensures reply.Ok? ==> && r.Ok? && Agree(s, r.value, {RawDataPngUrl, RawDataJson, CurrentStep})
                          && r.value.currentStep == StepNames[1]
                          && r.value.rawDataPngUrl == Some(ExtractPngUrl(reply.value))
                          && r.value.rawDataJson == ExtractJson(parse, reply.value)
  {
    var answer :- reply;
    Ok(s.(rawDataPngUrl := Some(ExtractPngUrl(answer)),
          rawDataJson := ExtractJson(parse, answer),
          currentStep := "step2"))
  }

  /** Agent 1.2, the CEP prioritizer: the whole answer as the analysis, and its
      tables. */
  function CepPrioritizer(s: M1State, reply: Result<string, string>): (r: Result<M1State, string>)
    ensures reply.Err? ==> r == Err(reply.error)
    ensures reply.Ok? ==> && r.Ok? && Agree(s, r.value, {CepAnalysis, CepTables, CurrentStep})
                          && r.value.currentStep == StepNames[2]
                          && r.value.cepAnalysis == Some(reply.value)
                          && r.value.cepTables == Some(ExtractTables(reply.value))
  {
    var answer :- reply;
    Ok(s.(cepAnalysis := Some(answer),
          cepTables := Some(ExtractTables(answer)),
          currentStep := "step3"))
  }

  /** Agent 1.3, the insight analyzer: the insights parsed out of the LLM's answer. */
  function InsightAnalyzer(s: M1State, reply: Result<string, string>, parse: Parser): (r: Result<M1State, string>)
    ensures reply.Err? ==> r == Err(reply.error)
    ensures reply.Ok? ==> && r.Ok? && Agree(s, r.value, {KeyInsights, CurrentStep})
                          && r.value.currentStep == StepNames[3]
                          && r.value.keyInsights == Some(Insights(parse, reply.value))
  {
    var answer :- reply;
    Ok(s.(keyInsights := Some(Insights(parse, answer)), currentStep := "step4"))
  }

  /** Agent 1.4, the visualizer: the PNG and PDF URLs of the agent's answer. */
  function Visualizer(s: M1State, reply: Result<string, string>): (r: Result<M1State, string>)
    ensures reply.Err? ==> r == Err(reply.error)
    ensures reply.Ok? ==> && r.Ok?
                          && Agree(s, r.value, {VisualizationPngUrl, VisualizationPdfUrl, CurrentStep})
                          && r.value.currentStep == StepNames[4]
                          && r.value.visualizationPngUrl == Some(ExtractPngUrl(reply.value))
                          && r.value.visualizationPdfUrl == Some(ExtractPdfUrl(reply.value))
  {
    var answer :- reply;
    Ok(s.(visualizationPngUrl := Some(ExtractPngUrl(answer)),
          visualizationPdfUrl := Some(ExtractPdfUrl(answer)),
          currentStep := "step5"))
  }

  /** Agent 1.5, the slide builder: the PowerPoint URL of the agent's answer. */
  function SlideBuilder(s: M1State, reply: Result<string, string>): (r: Result<M1State, string>)
    ensures reply.Err? ==> r == Err(reply.error)
    ensures reply.Ok? ==> && r.Ok? && Agree(s, r.value, {PowerpointUrl, CurrentStep})
                          && r.value.currentStep == StepNames[5]
                          && r.value.powerpointUrl == Some(ExtractPptUrl(reply.value))
  {
    var answer :- reply;
    Ok(s.(powerpointUrl := Some(ExtractPptUrl(answer)), currentStep := "compile"))
  }

  /** The fixed lines of the report that come before each field it embeds (the
      paragraphs of prose between them are not part of this model). */
  const ReportTitle: string := "# Competitive Analysis Report: M&M's Category Entry Points\n\n"
  const PptLabel: string := "**PowerPoint Slide (Link):** "
  const PngLabel: string := "\n\n**CEP Competitive Landscape Table (PNG):** "
  const AnalysisHeading: string := "\n\n---\n\n## Strategic Analysis\n\n"
  const InsightsHeading: string := "\n\n---\n\n## Key Insights\n\n"
  const ReportClosing: string := "\n\n---\n\n## Deliverables Summary\n"

  /** The pieces of the report `compile_manager1_report` writes: the PowerPoint
      URL, the PNG URL, the analysis and the insight bullets, in that order, each
      after its heading. */
  function ReportPieces(s: M1State): (r: seq<string>)
    ensures |r| == 10
  {
    [ReportTitle, PptLabel, Show(s.powerpointUrl), PngLabel, Show(s.rawDataPngUrl),
     AnalysisHeading, Show(s.cepAnalysis), InsightsHeading, InsightLines(s.keyInsights),
     ReportClosing]
  }

  function Report(s: M1State): string {
    Concat(ReportPieces(s))
  }

  /** Each field sits in the report right after its heading, in the order above. */
  lemma ReportEmbeds(s: M1State)
    ensures exists i :: OccursAt(Report(s), PptLabel + Show(s.powerpointUrl), i)
    ensures exists i :: OccursAt(Report(s), PngLabel + Show(s.rawDataPngUrl), i)
    ensures exists i :: OccursAt(Report(s), AnalysisHeading + Show(s.cepAnalysis), i)
    ensures exists i :: OccursAt(Report(s), InsightsHeading + InsightLines(s.keyInsights), i)
  {
    var ps := ReportPieces(s);
    assert Report(s) == Concat(ps);
    ConcatPair(ps, 1);
    assert OccursAt(Report(s), PptLabel + Show(s.powerpointUrl), |Concat(ps[..1])|);
    ConcatPair(ps, 3);
    assert OccursAt(Report(s), PngLabel + Show(s.rawDataPngUrl), |Concat(ps[..3])|);
    ConcatPair(ps, 5);
    assert OccursAt(Report(s), AnalysisHeading + Show(s.cepAnalysis), |Concat(ps[..5])|);
    ConcatPair(ps, 7);
    assert OccursAt(Report(s), InsightsHeading + InsightLines(s.keyInsights), |Concat(ps[..7])|);
  }

  /** The compile node: the report, and the step chain ends. */
  function CompileReport(s: M1State): (r: M1State)
    ensures Agree(s, r, {FinalReport, CurrentStep})
    ensures r.currentStep == StepNames[6] && r.finalReport == Some(Report(s))
  {
    s.(finalReport := Some(Report(s)), currentStep := "complete")
  }
}
