# Strategic intelligence workflow — deterministic control layer

This project models the part of the MARS strategic-intelligence workflow that does
not depend on a language model: the control flow and the text handling around the
model calls.

- **Master graph.** It runs Phase 1 (competitive analysis), stops at a human
  checkpoint, classifies the human's reply as proceed, stop or guidance, and runs
  Phase 2 (audience strategy) or skips it.
- **Two sub-pipelines.** Manager 1 has five steps and a report compiler. Manager 2
  has four steps, a slide builder and an output compiler. Each node is a pure
  update of the pipeline's state record.
- **Text extraction.** The helpers that pull URLs, JSON objects and lists, markdown
  tables, bullet points and report sections out of the agents' replies.
- **MCP client.** Request ids, the session handshake, reading server-sent events
  and unwrapping JSON-RPC envelopes and tool content.
- **HTTP API.** A session registry with status transitions, resume rules and the
  Phase 2 output assembly.
- **Streamlit page.** The progress state machine and the sidebar's per-phase
  status.

Every call to a language model, an agent, the MCP server or `json.loads` is a
parameter of the model: its reply, or the exception it raises. A node that calls
an agent takes a `Result<string, string>`. JSON decoding is a `Parser`, a function
from text to an optional Python value.

Some consequences of the code as written, which the model keeps:

- `handle_error` in both sub-graphs always finds the `error` key. An unset error
  therefore renders as "Error occurred: None".
- After a Phase 1 failure the checkpoint message embeds the competitive
  intelligence field. That field is then unset, so the message shows "None" rather
  than the error (`MasterGraph.PresentCheckpoint`, `MasterGraph.CheckpointAlwaysReached`).
- The master graph's initial state has no CEP table or analysis fields. Phase 2
  then reads them as empty strings (`MasterGraph.Phase2Inputs`).
- The page's Phase 1 output is always a string. `present_checkpoint` always emits
  an AI message, which the API records (`Api.CheckpointRecorded`).

The model rests on these assumptions:

- A resumed run receives the human's reply as one more human message, appended to
  the state before `process_user_input` runs. The program as written does not meet
  this assumption. The master graph suspends only through the static
  `interrupt_before=["process_user_input"]`, and it never calls `interrupt()`. A
  value passed with `Command(resume=...)` is therefore never written into the
  messages. `process_user_input` then reads the newest human message already in
  the state, which is the trigger. So whatever the user answers, the trigger text
  is what gets classified, and it is classified as guidance unless it happens to
  contain a proceed or stop word. `MasterGraph.Resume`, `MasterGraph.AfterDecision`,
  `MasterGraph.StopSkipsPhase2`, `MasterGraph.FailureIsContained`,
  and `MasterGraph.ProceedRunsPhase2` hold under this assumption.
- The API's background Phase 1 and Phase 2 tasks are only ever started for a
  session that exists. `Api.SessionRegistry.RunPhase1` and `RunPhase2` require it.
- Streamed `__interrupt__` events are ignored.

`src/state/schemas.py` is not part of this model. The state records are declared
where they are used.

## Model

| member | source | states |
|---|---|---|
| Text.Strip | src/graphs/master_graph.py:115 | the result is the input with its leading and trailing Python whitespace removed, and it neither starts nor ends with whitespace |
| Text.StripIdempotent | src/graphs/master_graph.py:115 | stripping twice is stripping once |
| Text.Split | src/tools/mcp_tools.py:43 | splitting on a separator gives at least one part, no part holds the separator, and joining the parts back gives the text |
| Text.SplitJoin | src/tools/mcp_tools.py:43 | joining separator-free parts and splitting again gives the parts back |
| Text.JoinParts | src/agents/workers/manager1_workers.py:546 | in `sep.join(parts)` each part sits at its offset, a separator follows every part but the last, and the last part ends the text |
| Text.JoinOffsetStep | src/agents/workers/manager1_workers.py:546 | the offset of the next part is this part's offset plus its length and the separator's |
| Text.JoinContains | src/agents/workers/manager2_workers.py:183 | the joined text contains every part |
| Text.ContainsIff | src/graphs/master_graph.py:122-127 | Python's `in` on strings holds exactly when the pattern occurs at some index |
| PyValue.Get | src/tools/mcp_tools.py:122-127 | a dict lookup finds a value exactly when the key is present, and the value is the one stored under that key |
| PyValue.LoadsDict | src/agents/workers/manager1_workers.py:531-537 | a decoded object is accepted exactly when the parser yields a dict, and it is that dict |
| PyValue.LoadsList | src/agents/workers/manager1_workers.py:553-557 | a decoded array is accepted exactly when the parser yields a list, and the result is that list's items |
| PyValue.Str | src/tools/mcp_tools.py:188 | `str()` of a string is the string itself, and `str(None)` is "None" |
| PyValue.Show | src/agents/workers/manager1_workers.py:464-472 | an f-string field shows its value, or "None" when it is unset |
| Scan.FirstUrl | src/agents/workers/manager2_workers.py:766-770 | the result is empty exactly when no `http://` or `https://` occurs, and otherwise it is the whitespace-free run starting at the first one |
| Scan.FirstUrlShape | src/agents/workers/manager2_workers.py:766-770 | a found URL starts with a scheme, holds no whitespace, occurs in the text and ends at whitespace or at the end of the text |
| Scan.ExtUrlSpan | src/agents/workers/manager1_workers.py:503-525 | like `re.search` with a greedy `[^\s]+`: a span is found exactly when some URL ending in the extension occurs; it starts at the leftmost start of such a match and ends at the last extension end that still matches from there |
| Scan.ExtUrlSpanShape | src/agents/workers/manager1_workers.py:503-525 | a found span starts with a scheme, holds no whitespace and ends with `.png`, `.pdf`, or `.ppt`/`.pptx`/`.powerpoint` |
| Scan.BracketSpan | src/agents/workers/manager1_workers.py:528-539 | the span runs from the first opening bracket to the last closing one, and there is none exactly when no opening bracket precedes a closing one |
| Scan.BarLineEnd | src/agents/workers/manager1_workers.py:542-546 | a table line starts with a bar and its match ends at the last bar of that line; there is none exactly when no second bar follows on the line |
| Scan.FirstBarLine | src/agents/workers/manager1_workers.py:542-546 | the result is the first position where a table line starts, or there is none anywhere |
| Scan.TableSpans | src/agents/workers/manager1_workers.py:542-546 | the table matches are in order, do not overlap, each starts at a table line, and there are none exactly when no table line occurs |
| Scan.FirstStop | src/agents/workers/manager2_workers.py:752 | the lookahead stops at the first position where its alternative holds |
| Scan.HeadingAlternativeSubsumed | src/agents/workers/manager2_workers.py:752 | the lookahead's blank-line-then-heading alternative never stops a table before its blank-line-then-no-bar alternative would |
| Graph.GraphBuilder.constructor | src/graphs/manager1_graph.py:48 | a new graph has no nodes, edges or conditional edges |
| Graph.GraphBuilder.AddNode | src/graphs/manager1_graph.py:51-57 | adding a node appends it and changes nothing else |
| Graph.GraphBuilder.AddEdge | src/graphs/manager1_graph.py:60-67 | adding an edge appends it and changes nothing else |
| Graph.GraphBuilder.AddConditionalEdges | src/graphs/master_graph.py:282-289 | adding a routed edge appends the routes and changes nothing else |
| Graph.EdgeTargets | src/graphs/manager1_graph.py:60-67 | the successors along plain edges are exactly the targets of the node's edges |
| Graph.Unreachable | src/graphs/manager1_graph.py:57-67 | a node that no edge leads to never appears on a run |
| Graph.LinearPaths | src/graphs/manager1_graph.py:60-66 | in a graph that is a single chain, every run is a prefix of that chain |
| Manager1Workers.ExtractPngUrl | src/agents/workers/manager1_workers.py:503-507 | the result is empty exactly when no PNG URL occurs; otherwise it is exactly the text of the leftmost, longest match, which has a scheme, no whitespace and ends with `.png` |
| Manager1Workers.ExtractPdfUrl | src/agents/workers/manager1_workers.py:510-514 | the same for `.pdf` |
| Manager1Workers.ExtractPptUrl | src/agents/workers/manager1_workers.py:517-525 | when a case-insensitive PowerPoint URL occurs, the result is exactly the original text of the leftmost, longest such match; without one it falls back to the first URL of any kind, and to empty without any URL |
| Manager1Workers.PptMatchShape | src/agents/workers/manager1_workers.py:520-522 | the original text under a PowerPoint match found in the lower-cased text is non-empty, has no whitespace, and has a scheme and a `.ppt`, `.pptx` or `.powerpoint` ending case-insensitively |
| Manager1Workers.ExtractJson | src/agents/workers/manager1_workers.py:528-539 | the result is always a dict: the decoded brace span when it parses to one, otherwise the empty dict |
| Manager1Workers.TableBlocks | src/agents/workers/manager1_workers.py:542-546 | `re.findall`'s matches: one block per table-match span, in order, each exactly the text of its span; none exactly when no table line occurs, and each block starts with a table line |
| Manager1Workers.ExtractTables | src/agents/workers/manager1_workers.py:542-546 | the result is the blocks joined with a blank line, in order; it is empty exactly when no table line occurs, and in particular when the text has no bar character |
| Manager1Workers.DropBulletMarks | src/agents/workers/manager1_workers.py:567 | the leading run of `-`, `*`, digits, `.`, `)` and whitespace is removed, and nothing after it: what is left does not start with such a mark |
| Manager1Workers.BulletItems | src/agents/workers/manager1_workers.py:561-572 | the kept items are non-empty and start with no bullet mark |
| Manager1Workers.FallbackInsights | src/agents/workers/manager1_workers.py:561-572 | the fallback keeps at most four bullet items, in order |
| Manager1Workers.CollectBullets | src/agents/workers/manager1_workers.py:561-572 | the loop collects exactly the bullet items of the lines |
| Manager1Workers.DecodedList | src/agents/workers/manager1_workers.py:551-557 | a list is decoded exactly when a bracket span exists and parses to a list, and the result is its items |
| Manager1Workers.Insights | src/agents/workers/manager1_workers.py:549-572 | a decoded list wins; otherwise there are at most four non-empty string insights with no bullet mark |
| Manager1Workers.ParseInsights | src/agents/workers/manager1_workers.py:549-572 | the method's result is the insights of the text |
| Manager1Workers.InsightLines | src/agents/workers/manager1_workers.py:478 | the insight lines are empty exactly when there are no insights |
| Manager1Workers.InsightLinesSplit | src/agents/workers/manager1_workers.py:478 | the insight block splits back into one `- ` line per insight |
| Manager1Workers.DataMerger | src/agents/workers/manager1_workers.py:87-113 | on a reply, it stores the PNG URL and the JSON object extracted from it, moves to step 2 and leaves all else; a raised call propagates |
| Manager1Workers.CepPrioritizer | src/agents/workers/manager1_workers.py:225-246 | it stores the analysis and its extracted tables and moves to step 3 |
| Manager1Workers.InsightAnalyzer | src/agents/workers/manager1_workers.py:272-290 | it stores the parsed insights and moves to step 4 |
| Manager1Workers.Visualizer | src/agents/workers/manager1_workers.py:304-324 | it stores the PNG and PDF URLs and moves to step 5 |
| Manager1Workers.SlideBuilder | src/agents/workers/manager1_workers.py:413-439 | it stores the PowerPoint URL and moves to the compile step |
| Manager1Workers.ReportEmbeds | src/agents/workers/manager1_workers.py:446-490 | the report holds each field right after its heading: the slide link, the PNG, the analysis and the insights |
| Manager1Workers.CompileReport | src/agents/workers/manager1_workers.py:446-496 | it sets the final report and "complete" and changes nothing else |
| Manager1Graph.ShouldContinue | src/graphs/manager1_graph.py:23-27 | a truthy error routes to "error"; otherwise it routes to the current step |
| Manager1Graph.HandleError | src/graphs/manager1_graph.py:30-36 | the error text becomes the final report, the run is complete and nothing else changes |
| Manager1Graph.CreateManager1Graph | src/graphs/manager1_graph.py:39-72 | the builder ends with exactly the graph's nodes and edges |
| Manager1Graph.ChainIsLinear | src/graphs/manager1_graph.py:60-67 | the graph is the single chain START, the five steps, compile, END |
| Manager1Graph.RunsFollowChain | src/graphs/manager1_graph.py:57-70 | every run is a prefix of the chain and never reaches the error node |
| Manager1Graph.Apply | src/graphs/manager1_graph.py:123-124 | for each of the twelve fields: a key the caller's dict sets replaces that field, and an unset key keeps the field as it was |
| Manager1Graph.EmptyOverlayKeeps | src/graphs/manager1_graph.py:123-124 | a caller dict with no keys changes nothing |
| Manager1Graph.InitialState | src/graphs/manager1_graph.py:107-124 | the default state, updated by the caller's dict when one is given |
| Manager1Graph.RunChain | src/graphs/manager1_graph.py:127 | the first raised call ends the run with its error; otherwise every step's output is stored and the run completes |
| Manager1Graph.DefaultRunCompletes | src/graphs/manager1_graph.py:97-129 | a default run whose calls all answer completes with no error and every output set |
| Manager2Workers.RawAttributes | src/agents/workers/manager2_workers.py:742-744 | the attributes are a dict holding the text under `raw_attributes` |
| Manager2Workers.AttrsTextRoundTrip | src/agents/workers/manager2_workers.py:665-669 | the output compiler reads the stored attributes back as the exact text |
| Manager2Workers.AttrsTextFallback | src/agents/workers/manager2_workers.py:665-669 | unset attributes show the fallback text, and an empty dict shows `{}` |
| Manager2Workers.AiTexts | src/agents/workers/manager2_workers.py:174-180 | the kept texts are the non-empty contents of AI messages |
| Manager2Workers.CollectAiTexts | src/agents/workers/manager2_workers.py:174-180 | the loop collects exactly those texts |
| Manager2Workers.FullExploration | src/agents/workers/manager2_workers.py:182-183 | with AI texts, the exploration is exactly those texts in order joined with a blank line (so it contains each); with none it is the last message's content, and an empty list raises |
| Manager2Workers.TableOf | src/agents/workers/manager2_workers.py:751-753 | the table is the stripped text from the first table line up to the lookahead, or the whole text when no table line occurs |
| Manager2Workers.BelowThreshold | src/agents/workers/manager2_workers.py:755-761 | the analysis is empty exactly when no keyword occurs, case-insensitively; otherwise it is the stripped rest of the text, which starts with a keyword |
| Manager2Workers.AudienceCepAnalyzer | src/agents/workers/manager2_workers.py:106-130 | it stores the segments and an empty CEP mapping and moves to step 2 |
| Manager2Workers.AudienceDataExtractor | src/agents/workers/manager2_workers.py:160-192 | it stores the exploration as raw attributes and moves to step 3; an empty message list raises |
| Manager2Workers.BuildStrategicTable | src/agents/workers/manager2_workers.py:230-280 | it stores the table and the below-threshold analysis and moves to step 4 |
| Manager2Workers.GenerateStrategicInsights | src/agents/workers/manager2_workers.py:299-327 | it stores the insights and moves to step 5 |
| Manager2Workers.AudienceSlideBuilder | src/agents/workers/manager2_workers.py:616-653 | it stores the first URL of the reply and moves to the compile step |
| Manager2Workers.OutputEmbeds | src/agents/workers/manager2_workers.py:660-720 | the output holds each field right after the fixed text before it: the URL after the ready line, the attributes after their heading and sentence, the table, the below-threshold analysis and the insights after their headings, and the URL again after the PowerPoint summary label |
| Manager2Workers.CompileOutput | src/agents/workers/manager2_workers.py:660-726 | it sets the final output and "complete" and changes nothing else |
| Manager2Graph.HandleError | src/graphs/manager2_graph.py:24-30 | the error text becomes the final output, the run is complete and nothing else changes |
| Manager2Graph.CreateManager2Graph | src/graphs/manager2_graph.py:33-64 | the builder ends with exactly the graph's nodes and edges |
| Manager2Graph.ChainIsLinear | src/graphs/manager2_graph.py:55-62 | the graph is the single chain START, step 1 to step 5, compile, END |
| Manager2Graph.RunsFollowChain | src/graphs/manager2_graph.py:52-62 | every run is a prefix of the chain and never reaches the error node |
| Manager2Graph.Default | src/graphs/manager2_graph.py:102-116 | the default state carries the competitive data, with no messages, step 1 and no error |
| Manager2Graph.Apply | src/graphs/manager2_graph.py:118-119 | for each of the thirteen fields: a key the caller's dict sets replaces that field, and an unset key keeps the field as it was |
| Manager2Graph.EmptyOverlayKeeps | src/graphs/manager2_graph.py:118-119 | a caller dict with no keys changes nothing |
| Manager2Graph.InitialState | src/graphs/manager2_graph.py:101-119 | the default state, updated by the caller's dict when one is given |
| Manager2Graph.OverlayWinsOverArguments | src/graphs/manager2_graph.py:118-119 | competitive data in the caller's dict overrides the arguments |
| Manager2Graph.RunChain | src/graphs/manager2_graph.py:122 | the first raised call ends the run with its error; otherwise every step's output is stored and the run completes |
| Manager2Graph.DefaultRunCompletes | src/graphs/manager2_graph.py:89-124 | a default run whose calls all answer completes with no error, keeps the competitive data, and shows the exploration as the attributes |
| MasterGraph.InitialState | src/graphs/master_graph.py:374-382 | a run starts with the trigger message in phase 1, with no error, decision or CEP data |
| MasterGraph.RunPhase1 | src/graphs/master_graph.py:26-59 | Manager 1's report and CEP data are stored with an AI message, or the failure is recorded; either way the next phase is the checkpoint |
| MasterGraph.PresentCheckpoint | src/graphs/master_graph.py:66-100 | one AI message is appended, and it embeds the report or "None" |
| MasterGraph.NormalizeIdempotent | src/graphs/master_graph.py:115 | normalising the input twice is normalising it once |
| MasterGraph.LatestHumanInputIsLast | src/graphs/master_graph.py:110-116 | the input is the normalised content of the last human message, or empty when there is none |
| MasterGraph.LatestHuman | src/graphs/master_graph.py:110-116 | the backward scan finds that input |
| MasterGraph.Classify | src/graphs/master_graph.py:119-131 | proceed exactly when a proceed signal occurs; stop exactly when no proceed signal and some stop signal occur; otherwise guidance carrying the input |
| MasterGraph.ProcessUserInput | src/graphs/master_graph.py:103-138 | it records the decision and any guidance, and the next phase is complete exactly on stop |
| MasterGraph.Route | src/graphs/master_graph.py:145-152 | the route is "complete" exactly on stop, and "phase2" otherwise |
| MasterGraph.YesStopProceeds | src/graphs/master_graph.py:122-127 | "yes, stop" proceeds, because proceed signals are checked first |
| MasterGraph.NowStops | src/graphs/master_graph.py:122-127 | "now" stops, because it contains "no" |
| MasterGraph.NoHumanMessageIsEmptyGuidance | src/graphs/master_graph.py:110-131 | with no human message the decision is guidance with empty text |
| MasterGraph.EmptyIsGuidance | src/graphs/master_graph.py:128-131 | an empty reply is guidance with empty text |
| MasterGraph.Phase2Inputs | src/graphs/master_graph.py:169-174 | Phase 2 gets the CEP tables and the analysis, with the guidance appended only when there is some |
| MasterGraph.RunPhase2 | src/graphs/master_graph.py:159-198 | Manager 2's output is stored with an AI message, or the failure is recorded; either way the run is complete |
| MasterGraph.FinalMessage | src/graphs/master_graph.py:209-243 | the stop message exactly on stop; the success message exactly when not stopped and without an error; otherwise the error message |
| MasterGraph.FinalMessagesDiffer | src/graphs/master_graph.py:209-243 | the stop, success and error messages are pairwise distinct |
| MasterGraph.DeliverFinal | src/graphs/master_graph.py:205-249 | one AI message with the final text is appended and the run is complete |
| MasterGraph.CreateMasterGraph | src/graphs/master_graph.py:256-294 | the builder ends with exactly the master graph's nodes, edges and routed edge |
| MasterGraph.CompileMasterGraph | src/graphs/master_graph.py:297-319 | the compiled graph suspends before `process_user_input` |
| MasterGraph.MasterPaths | src/graphs/master_graph.py:277-292 | every run is a prefix of the route through Phase 2 or of the route that skips it |
| MasterGraph.SuspensionGuardsPhase2 | src/graphs/master_graph.py:316-319 | Phase 2 and the final output are reached only through Phase 1, the checkpoint and the suspended input node |
| MasterGraph.RunToCheckpoint | src/graphs/master_graph.py:384-386 | streaming to the suspension yields the Phase 1 update, then the checkpoint update |
| MasterGraph.AfterDecision | src/graphs/master_graph.py:282-289 | the conditional edge keeps every message so far, and a stop decision passes the state on unchanged |
| MasterGraph.Resume | src/graphs/master_graph.py:395-415 | resuming appends the human reply after the existing messages and ends complete |
| MasterGraph.CheckpointAlwaysReached | src/graphs/master_graph.py:31-100 | the checkpoint is reached whether Phase 1 succeeds or fails, and an error is set exactly when a Manager 1 call raised |
| MasterGraph.StopSkipsPhase2 | src/graphs/master_graph.py:145-152 | a stop reply leaves the Phase 2 output and the error untouched and ends with the stop message |
| MasterGraph.FailureIsContained | src/graphs/master_graph.py:54-59 | after a Phase 1 failure, proceeding still runs Phase 2, and the final message is not the success message |
| MasterGraph.ProceedRunsPhase2 | src/graphs/master_graph.py:159-198 | proceeding with answering calls stores a Phase 2 output, and the run ends with the success message when there was no earlier error |
| MasterGraph.TablesOf | src/graphs/master_graph.py:334-339 | the tables are the section after the analysis marker, or the whole report when there is no marker |
| MasterGraph.DynamicsOf | src/graphs/master_graph.py:341-347 | the dynamics are the section after the case-insensitive marker, or empty when there is none |
| MasterGraph.TablesAndDynamics | src/graphs/master_graph.py:326-349 | an empty or missing report gives two empty strings |
| MasterGraph.TablesHaveNoHeading | src/graphs/master_graph.py:335-339 | the extracted tables contain no `##` heading |
| MasterGraph.DynamicsHaveNoHeading | src/graphs/master_graph.py:341-347 | the extracted dynamics contain no `##` heading |
| McpTools.RStripSlash | src/tools/mcp_tools.py:31 | the base URL is the input without its trailing slashes |
| McpTools.RStripSlashIdempotent | src/tools/mcp_tools.py:31 | stripping slashes twice is stripping them once |
| McpTools.ArgumentsOrEmpty | src/tools/mcp_tools.py:114 | missing or falsy arguments are sent as an empty dict |
| McpTools.DataValue | src/tools/mcp_tools.py:43-48 | the value is that of the first `data: ` line that parses, and there is none exactly when no such line parses |
| McpTools.SseValue | src/tools/mcp_tools.py:40-53 | a data line wins, then the whole text, then an error object |
| McpTools.SseEventRoundTrip | src/tools/mcp_tools.py:40-53 | a single-line payload sent as an event is read back as what it parses to |
| McpTools.ToolResult | src/tools/mcp_tools.py:122-127 | an `error` key raises "MCP Error: ...", a `result` key yields its value, and otherwise the whole response is returned |
| McpTools.SuccessEnvelope | src/tools/mcp_tools.py:122-127 | a JSON-RPC success response yields its result |
| McpTools.ErrorEnvelope | src/tools/mcp_tools.py:124-125 | a JSON-RPC error response raises with the error's text |
| McpTools.ParseFailureRaises | src/tools/mcp_tools.py:122-125 | an unparsable body raises with its first 200 characters |
| McpTools.MCPClient.constructor | src/tools/mcp_tools.py:30-33 | a new client has the stripped URL, no session and request id 0 |
| McpTools.MCPClient.NextId | src/tools/mcp_tools.py:35-38 | each call returns the counter after incrementing it |
| McpTools.MCPClient.ParseSse | src/tools/mcp_tools.py:40-53 | the line loop computes the response value |
| McpTools.MCPClient.EnsureSession | src/tools/mcp_tools.py:55-84 | with a session nothing is sent; otherwise one `initialize` request is sent, and the session is kept exactly when the server returned a non-empty id |
| McpTools.MCPClient.CallTool | src/tools/mcp_tools.py:86-127 | the requests sent in order, and the tool's result or the error raised; a failed handshake raises the post's error or the missing-session error and keeps the header's session id when the post answered |
| McpTools.FirstCall | src/tools/mcp_tools.py:35-38 | a fresh client sends `initialize` with id 1, then `tools/call` with id 2 |
| McpTools.UnwrapContent | src/tools/mcp_tools.py:184-188 | the first content item's `text`, or the value's `str()` when there is no content list |
| McpTools.UnwrapTextItem | src/tools/mcp_tools.py:184-188 | a text content item unwraps to its text |
| McpTools.UnwrapPlainText | src/tools/mcp_tools.py:188 | a plain string unwraps to itself |
| McpTools.ToolsForAgent | src/tools/mcp_tools.py:411-421 | a known agent type gets its one tool, and an unknown one none |
| McpTools.AgentTypesCount | src/tools/mcp_tools.py:411-419 | the table knows exactly seven agent types |
| McpTools.AgentToolsDistinct | src/tools/mcp_tools.py:411-419 | two different agent types never get the same tool |
| Api.StatusName | api.py:61 | the status is one of "running", "checkpoint", "completed" or "error" |
| Api.StatusNamesDistinct | api.py:61 | distinct statuses have distinct names |
| Api.LastAi | api.py:111-118 | the checkpoint text is unchanged when the update has no AI message, and is the last message's content when that one is an AI message |
| Api.LastAiIsLast | api.py:111-118 | in general, the checkpoint text is the content of the AI message that no later AI message follows |
| Api.LastThree | api.py:188 | `messages[-3:]` is the last three messages, or all of them when there are fewer |
| Api.SessionRegistry.constructor | api.py:47 | the registry starts empty |
| Api.SessionRegistry.StartWorkflow | api.py:70-90 | a new session is running Phase 1 with nothing recorded |
| Api.SessionRegistry.RunPhase1 | api.py:93-128 | on success the session waits at the checkpoint with the checkpoint text as its Phase 1 output; on failure it is in error |
| Api.SessionRegistry.GetStatus | api.py:131-142 | a known session's record, or 404 |
| Api.SessionRegistry.Resume | api.py:145-170 | resuming succeeds exactly for a session at the checkpoint, which then runs Phase 2; otherwise 404 or 400 and nothing changes |
| Api.SessionRegistry.RunPhase2 | api.py:173-198 | on success the session is completed with the AI texts of the last three messages; on failure it is in error |
| Api.SessionRegistry.ListSessions | api.py:207-215 | one entry per session, in insertion order, with its status and phase |
| Api.ResumeTwice | api.py:158-165 | a second resume of the same session is refused with 400 |
| Api.CheckpointRecorded | api.py:111-119 | the streamed run always records the checkpoint message |
| Api.Phase2OutputEndsWithFinal | api.py:186-190 | the Phase 2 output ends with the final AI message |
| App.PhaseStatus | app.py:62-79 | each phase's status as a function of the page state, in both directions, with the matching icon |
| App.PhasesInOrder | app.py:62-79 | phase 2 is never further along than phase 1, and is under way only once phase 1 is complete |
| App.SidebarMatchesOutputs | app.py:62-79 | on a consistent page, phase 1 shows complete exactly when there is a Phase 1 output |
| App.UiSession.constructor | app.py:52-59 | the page starts idle with nothing stored |
| App.UiSession.Reset | app.py:104-108 | a reset returns to idle and clears the outputs and the error |
| App.UiSession.Start | app.py:180-181 | the start button begins Phase 1 |
| App.UiSession.Phase1Done | app.py:185-198 | success stores the output and goes to the checkpoint; failure stores the error and returns to idle |
| App.UiSession.Proceed | app.py:214-216 | proceed stores "proceed" and runs Phase 2 |
| App.UiSession.StopHere | app.py:220-222 | stop completes the page with the fixed stop text |
| App.UiSession.ProceedWithGuidance | app.py:231-233 | non-empty guidance becomes the decision and Phase 2 runs |
| App.UiSession.Phase2Input | app.py:241 | Phase 2 is resumed with the stored decision, or "proceed" |
| App.UiSession.Phase2Done | app.py:237-253 | success stores the output and completes; failure stores the error and returns to the checkpoint |
| App.Phase2UsesChoice | app.py:241 | while Phase 2 runs, the stored decision is used and the default never is |
| App.ProceedRun | app.py:180-248 | start, Phase 1, proceed, Phase 2 leaves both phases complete, with "proceed" as the input |

## Left out

- The prompts and prose of the agents and reports. Only the headings and fixed lines that the properties mention are modelled.
- Manager2Workers.Output: the overview sentence, the table notes, six of the seven summary lines and the closing line are not modelled. Only the fixed text right before each field is.
- Language-model, agent, HTTP (`httpx`) and MCP server behaviour. Each call is a reply parameter.
- LangGraph's scheduler, checkpointer and `Command(resume=...)` delivery. Runs are modelled as the node functions in chain order.
- Concurrency: background tasks, `asyncio` and the shared session dictionary under parallel requests.
- Streamlit rendering, `st.rerun`, the page's layout and styles.
- `uuid` generation. The session id is a parameter.
- The legacy tool aliases and the tool wrappers' HTTP calls in `src/tools/mcp_tools.py`. They are only forwarding calls.
- `str()` and `repr()` of floats and of strings that need escaping. Values are kept to strings, integers, booleans, None, lists and dicts.
- Unicode case folding and Unicode digits. Lower-casing is ASCII, and `\d` is ASCII digits.
- An AI message whose content is not a string.
- The exact exception text for an MCP response that is not a dict. The model says only that the call raises.
- Manager1Graph.ShouldContinue: does not model the "step1" default for a missing `current_step` key, because the state record always has one.
- `main.py`, `scripts/langsmith_fetch.py` and the package `__init__` files are not part of this model.
- `src/state/schemas.py` is not part of this model.
