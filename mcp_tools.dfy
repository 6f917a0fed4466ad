/** The MCP client's bookkeeping: a request-id counter shared by every request a
    client sends, a session id obtained once and then reused, the unpacking of a
    JSON-RPC 2.0 response that may arrive as a server-sent event, the tool wrappers'
    content-text unwrapping, and the agent-to-tool table. The HTTP posts are
    parameters: what the server answered, or the error the post raised. */
module McpTools {
  import opened Wrappers
  import opened Text
  import opened PyValue

  const ServerDan: string := "https://web-dan.up.railway.app"
  const ServerAditi: string := "https://web-aditi.up.railway.app"

  /** `s.rstrip("/")`. */
  function RStripSlash(s: string): (r: string)
    ensures |r| <= |s| && r == s[..|r|]
    ensures r == "" || r[|r| - 1] != '/'
    ensures forall i :: |r| <= i < |s| ==> s[i] == '/'
    decreases |s|
  {
    if |s| > 0 && s[|s| - 1] == '/' then
      var r := RStripSlash(s[..|s| - 1]);
      assert s[..|s| - 1][..|r|] == s[..|r|];
      r
    else s
  }

  /** Stripping twice strips nothing more. */
  lemma RStripSlashIdempotent(s: string)
    ensures RStripSlash(RStripSlash(s)) == RStripSlash(s)
  {
  }

  /** A JSON-RPC request as the client builds it. */
  datatype Request = Request(id: nat, rpcMethod: string, params: Value)

  const InitParams: Value := PDict([
    Entry("protocolVersion", PStr("2025-01-15")),
    Entry("capabilities", PDict([])),
    Entry("clientInfo", PDict([Entry("name", PStr("langgraph-mcp-client")), Entry("version", PStr("1.0.0"))]))])

  /** `arguments or {}`. */
  function ArgumentsOrEmpty(arguments: Option<Value>): (r: Value)
    ensures arguments.None? ==> r == PDict([])
    ensures arguments.Some? && Truthy(arguments.value) ==> r == arguments.value
    ensures arguments.Some? && !Truthy(arguments.value) ==> r == PDict([])
  {
    if arguments.Some? && Truthy(arguments.value) then arguments.value else PDict([])
  }

  function CallParams(name: string, arguments: Option<Value>): Value {
    PDict([Entry("name", PStr(name)), Entry("arguments", ArgumentsOrEmpty(arguments))])
  }

  const NoSessionError: string := "Failed to obtain MCP session ID"

  // ---------------------------------------------------------------------------
  // Reading a response

  predicate IsDataLine(line: string) {
    StartsWith(line, "data: ")
  }

  /** The value of the first `data: ` line whose remainder parses, if any. */
  function DataValue(lines: seq<string>, parse: Parser): (r: Option<Value>)
    ensures r.None? <==>
      forall k :: 0 <= k < |lines| && IsDataLine(lines[k]) ==> parse(lines[k][6..]).None?
    ensures r.Some? ==>
      exists k :: 0 <= k < |lines| && IsDataLine(lines[k]) && parse(lines[k][6..]) == r
        && forall j :: 0 <= j < k && IsDataLine(lines[j]) ==> parse(lines[j][6..]).None?
  {
    if |lines| == 0 then None
    else if IsDataLine(lines[0]) && parse(lines[0][6..]).Some? then parse(lines[0][6..])
    else
      var r := DataValue(lines[1..], parse);
      assert forall k :: 1 <= k < |lines| ==> lines[k] == lines[1..][k - 1];
      FirstDataShift(lines, parse, r);
      r
  }

  /** The first parsing data line after the head is the first of all when the head
      is not one. */
  lemma FirstDataShift(lines: seq<string>, parse: Parser, r: Option<Value>)
    requires |lines| > 0 && !(IsDataLine(lines[0]) && parse(lines[0][6..]).Some?)
    requires r.Some? ==>
      exists k :: 0 <= k < |lines[1..]| && IsDataLine(lines[1..][k]) && parse(lines[1..][k][6..]) == r
        && forall j :: 0 <= j < k && IsDataLine(lines[1..][j]) ==> parse(lines[1..][j][6..]).None?
    ensures r.Some? ==>
      exists k :: 0 <= k < |lines| && IsDataLine(lines[k]) && parse(lines[k][6..]) == r
        && forall j :: 0 <= j < k && IsDataLine(lines[j]) ==> parse(lines[j][6..]).None?
  {
    if r.Some? {
      var k :| 0 <= k < |lines[1..]| && IsDataLine(lines[1..][k]) && parse(lines[1..][k][6..]) == r
               && forall j :: 0 <= j < k && IsDataLine(lines[1..][j]) ==> parse(lines[1..][j][6..]).None?;
      assert lines[k + 1] == lines[1..][k];
      forall j | 0 <= j < k + 1 && IsDataLine(lines[j]) ensures parse(lines[j][6..]).None? {
        if j > 0 {
          assert lines[j] == lines[1..][j - 1];
        }
      }
    }
  }

  /** The object a response that parses nowhere turns into. */
  function ParseFailure(text: string): Value {
    PDict([Entry("error", PStr("Failed to parse response: " + Take(text, 200)))])
  }

  /** `_parse_sse_response`: the first `data: ` line that parses, else the whole
      text, else an error object quoting at most 200 characters of it. */
  function SseValue(text: string, parse: Parser): (r: Value)
    ensures DataValue(Split(text, '\n'), parse).Some? ==> r == DataValue(Split(text, '\n'), parse).value
    ensures DataValue(Split(text, '\n'), parse).None? && parse(text).Some? ==> r == parse(text).value
    ensures DataValue(Split(text, '\n'), parse).None? && parse(text).None? ==> r == ParseFailure(text)
  {
    match DataValue(Split(text, '\n'), parse)
    case Some(v) => v
    case None =>
      match parse(text)
      case Some(v) => v
      case None => ParseFailure(text)
  }

  /** A server-sent event carrying one single-line JSON text. */
  function SseEvent(payload: string): string {
    "event: message\ndata: " + payload + "\n\n"
  }

  /** A single-line payload sent as an event is read back as what it parses to. */
  lemma SseEventRoundTrip(payload: string, parse: Parser)
    requires '\n' !in payload && parse(payload).Some?
    ensures SseValue(SseEvent(payload), parse) == parse(payload).value
  {
    SseEventLines(payload);
    var lines := Split(SseEvent(payload), '\n');
    assert lines[1][6..] == payload;
    assert !IsDataLine(lines[0]);
  }

  /** A single-line payload sent as an event splits into the event line, its data
      line and two empty lines. */
  lemma SseEventLines(payload: string)
    requires '\n' !in payload
    ensures Split(SseEvent(payload), '\n') == ["event: message", "data: " + payload, "", ""]
  {
    var lines := ["event: message", "data: " + payload, "", ""];
    assert Join(lines[2..], "\n") == "\n";
    assert Join(lines[1..], "\n") == "data: " + payload + "\n\n";
    assert Join(lines, "\n") == SseEvent(payload);
    assert '\n' !in "data: " && '\n' !in "event: message";
    SplitJoin(lines, '\n');
  }

  /** What `call_tool` makes of the parsed response: an "error" member raises; else
      the "result" member, or the whole object when there is none. Anything but an
      object raises too (the `in` test or the `get` call fails on it). */
  function ToolResult(result: Value): (r: Result<Value, string>)
    ensures result.PDict? && HasKey(result.entries, "error") ==>
      r == Err("MCP Error: " + Str(Get(result.entries, "error").value))
    ensures result.PDict? && !HasKey(result.entries, "error") && HasKey(result.entries, "result") ==>
      r == Ok(Get(result.entries, "result").value)
    ensures result.PDict? && !HasKey(result.entries, "error") && !HasKey(result.entries, "result") ==>
      r == Ok(result)
    ensures !result.PDict? ==> r.Err?
  {
    match result
    case PDict(es) =>
      if HasKey(es, "error") then Err("MCP Error: " + Str(Get(es, "error").value))
      else Ok(GetOr(es, "result", result))
    case _ => Err(NotAnObjectError)
  }

  const NotAnObjectError: string := "response is not a JSON object"

  /** The response to a post: the error the post raised, or the tool result read
      from the body. */
  function Outcome(response: Result<string, string>, parse: Parser): Result<Value, string> {
    match response
    case Err(e) => Err(e)
    case Ok(body) => ToolResult(SseValue(body, parse))
  }

  /** A JSON-RPC success response yields its result. */
  lemma SuccessEnvelope(id: int, v: Value)
    ensures ToolResult(PDict([Entry("jsonrpc", PStr("2.0")), Entry("id", PInt(id)), Entry("result", v)])) == Ok(v)
  {
    var es := [Entry("jsonrpc", PStr("2.0")), Entry("id", PInt(id)), Entry("result", v)];
    assert forall k :: 0 <= k < |es| ==> es[k].key != "error";
    assert es[1..] == [Entry("id", PInt(id)), Entry("result", v)];
    assert es[1..][1..] == [Entry("result", v)];
    assert es[0].key != "result" && es[1].key != "result";
    assert Get(es[1..][1..], "result") == Some(v);
    assert Get(es[1..], "result") == Some(v);
  }

  /** A JSON-RPC error response raises with the error member's text. */
  lemma ErrorEnvelope(id: int, e: Value)
    ensures ToolResult(PDict([Entry("jsonrpc", PStr("2.0")), Entry("id", PInt(id)), Entry("error", e)]))
            == Err("MCP Error: " + Str(e))
  {
    var es := [Entry("jsonrpc", PStr("2.0")), Entry("id", PInt(id)), Entry("error", e)];
    assert es[2].key == "error";
    assert Get(es, "error") == Some(e);
  }

  /** A body that parses nowhere raises, because the error object has an "error" key. */
  lemma ParseFailureRaises(body: string, parse: Parser)
    requires DataValue(Split(body, '\n'), parse).None? && parse(body).None?
    ensures Outcome(Ok(body), parse) == Err("MCP Error: " + ("Failed to parse response: " + Take(body, 200)))
  {
    var es := [Entry("error", PStr("Failed to parse response: " + Take(body, 200)))];
    assert es[0].key == "error";
    assert Get(es, "error") == Some(PStr("Failed to parse response: " + Take(body, 200)));
  }

  // ---------------------------------------------------------------------------
  // The client

  class MCPClient {
    var baseUrl: string
    var sessionId: Option<string>
    var requestId: nat

    constructor(url: string)
      ensures baseUrl == RStripSlash(url) && sessionId == None && requestId == 0
    {
      baseUrl := RStripSlash(url);
      sessionId := None;
      requestId := 0;
    }

    /** `if self.session_id:`. */
    predicate HasSession()
      reads this
    {
      sessionId.Some? && sessionId.value != ""
    }

    /** `_next_id`: the counter goes up by one and the new value is the id. */
    method NextId() returns (id: nat)
      modifies this
      ensures requestId == old(requestId) + 1 && id == requestId
      ensures baseUrl == old(baseUrl) && sessionId == old(sessionId)
    {
      requestId := requestId + 1;
      id := requestId;
    }

    /** `_parse_sse_response`: the lines in order, returning at the first `data: `
        line that parses. */
    method ParseSse(text: string, parse: Parser) returns (r: Value)
      ensures r == SseValue(text, parse)
    {
      var lines := Split(text, '\n');
      var i := 0;
      while i < |lines|
        invariant 0 <= i <= |lines|
        invariant DataValue(lines, parse) == DataValue(lines[i..], parse)
      {
        assert lines[i..][1..] == lines[i + 1..];
        if IsDataLine(lines[i]) {
          var v := parse(lines[i][6..]);
          if v.Some? {
            return v.value;
          }
        }
        i := i + 1;
      }
      var whole := parse(text);
      if whole.Some? {
        return whole.value;
      }
      return ParseFailure(text);
    }

    /** `_ensure_session`: nothing is sent once a session id is held. Otherwise an
        initialize request takes the next id; the post's error escapes, or the
        session id is taken from the response header, and its absence raises. */
    method EnsureSession(reply: Result<Option<string>, string>) returns (sent: seq<Request>, err: Option<string>)
      modifies this
      ensures baseUrl == old(baseUrl)
      ensures old(HasSession()) ==>
        sent == [] && err == None && requestId == old(requestId) && sessionId == old(sessionId)
      ensures !old(HasSession()) ==>
        && sent == [Request(old(requestId) + 1, "initialize", InitParams)]
        && requestId == old(requestId) + 1
        && (reply.Err? ==> err == Some(reply.error) && sessionId == old(sessionId))
        && (reply.Ok? ==> sessionId == reply.value)
        && (reply.Ok? ==> (err.None? <==> HasSession()))
        && (err.Some? && reply.Ok? ==> err == Some(NoSessionError))
    {
      if HasSession() {
        return [], None;
      }
      var id := NextId();
      sent := [Request(id, "initialize", InitParams)];
      if reply.Err? {
        return sent, Some(reply.error);
      }
      sessionId := reply.value;
      if !HasSession() {
        return sent, Some(NoSessionError);
      }
      err := None;
    }

    /** `call_tool`: make sure of a session, send the call with the next id and the
        arguments (or {}), and read the response. */
    method CallTool(name: string, arguments: Option<Value>, initReply: Result<Option<string>, string>,
                    response: Result<string, string>, parse: Parser)
      returns (sent: seq<Request>, r: Result<Value, string>)
      modifies this
      ensures baseUrl == old(baseUrl)
      ensures old(HasSession()) ==>
        && sent == [Request(old(requestId) + 1, "tools/call", CallParams(name, arguments))]
        && requestId == old(requestId) + 1 && sessionId == old(sessionId)
        && r == Outcome(response, parse)
      ensures !old(HasSession()) && !(initReply.Ok? && initReply.value.Some? && initReply.value.value != "") ==>
        && sent == [Request(old(requestId) + 1, "initialize", InitParams)]
        && requestId == old(requestId) + 1
        && r == Err(if initReply.Err? then initReply.error else NoSessionError)
        && sessionId == (if initReply.Err? then old(sessionId) else initReply.value)
      ensures !old(HasSession()) && initReply.Ok? && initReply.value.Some? && initReply.value.value != "" ==>
        && sent == [Request(old(requestId) + 1, "initialize", InitParams),
                    Request(old(requestId) + 2, "tools/call", CallParams(name, arguments))]
        && requestId == old(requestId) + 2 && sessionId == initReply.value
        && r == Outcome(response, parse)
    {
      var init, ok := EnsureSession(initReply);
      if ok.Some? {
        return init, Err(ok.value);
      }
      var id := NextId();
      sent := init + [Request(id, "tools/call", CallParams(name, arguments))];
      if response.Err? {
        return sent, Err(response.error);
      }
      var result := ParseSse(response.value, parse);
      r := ToolResult(result);
    }
  }

  /** A fresh client's first call: the initialize request gets id 1 and the tool
      call id 2. */
  method FirstCall(url: string, name: string, arguments: Option<Value>, session: string,
                   response: Result<string, string>, parse: Parser)
    returns (sent: seq<Request>, r: Result<Value, string>)
    requires session != ""
    ensures |sent| == 2 && sent[0].id == 1 && sent[0].rpcMethod == "initialize"
    ensures sent[1].id == 2 && sent[1].rpcMethod == "tools/call"
    ensures sent[1].params == CallParams(name, arguments)
    ensures r == Outcome(response, parse)
  {
    var c := new MCPClient(url);
    sent, r := c.CallTool(name, arguments, Ok(Some(session)), response, parse);
  }

  // ---------------------------------------------------------------------------
  // The tool wrappers and the agent table

  const NoGetError: string := "'content' item is not an object"

  /** A tool wrapper's return value: the first content item's "text" when the result
      is an object whose "content" is a non-empty list (`str(result)` when that item
      has no "text"); `str(result)` otherwise. */
  function UnwrapContent(result: Value): (r: Result<Value, string>)
    ensures !result.PDict? ==> r == Ok(PStr(Str(result)))
    ensures result.PDict? && !HasKey(result.entries, "content") ==> r == Ok(PStr(Str(result)))
    ensures result.PDict? && HasKey(result.entries, "content") ==>
      var c := Get(result.entries, "content").value;
      && (!(c.PList? && |c.items| > 0) ==> r == Ok(PStr(Str(result))))
      && (c.PList? && |c.items| > 0 && c.items[0].PDict? ==>
            r == Ok(GetOr(c.items[0].entries, "text", PStr(Str(result)))))
      && (c.PList? && |c.items| > 0 && !c.items[0].PDict? ==> r.Err?)
  {
    if result.PDict? && HasKey(result.entries, "content") then
      match Get(result.entries, "content").value
      case PList(items) =>
        if |items| > 0 then
          if items[0].PDict? then Ok(GetOr(items[0].entries, "text", PStr(Str(result))))
          else Err(NoGetError)
        else Ok(PStr(Str(result)))
      case _ => Ok(PStr(Str(result)))
    else Ok(PStr(Str(result)))
  }

  /** The usual MCP tool result, one text item, unwraps to that text. */
  lemma UnwrapTextItem(s: string)
    ensures UnwrapContent(PDict([Entry("content", PList([PDict([Entry("type", PStr("text")),
                                                                 Entry("text", PStr(s))])]))]))
            == Ok(PStr(s))
  {
    var item := [Entry("type", PStr("text")), Entry("text", PStr(s))];
    assert Get(item, "text") == Some(PStr(s));
    var es := [Entry("content", PList([PDict(item)]))];
    assert es[0].key == "content";
  }

  /** A plain-text result passes through unchanged. */
  lemma UnwrapPlainText(s: string)
    ensures UnwrapContent(PStr(s)) == Ok(PStr(s))
  {
  }

  /** `get_all_tools_for_agent`'s table: one tool per known agent type. */
  const AgentTools: map<string, string> := map[
    "data_merger" := "merge_brand_indices",
    "cep_prioritizer" := "analyze_cep_performance",
    "visualizer" := "create_index_visual",
    "slide_builder" := "build_cep_analysis_slide",
    "audience_cep" := "analyze_audience_cep_priorities",
    "audience_data" := "get_demo_audiences",
    "audience_slide" := "build_audience_strategy_slides"]

  /** `get_all_tools_for_agent`: the agent's one tool, or no tools for an unknown type. */
  function ToolsForAgent(agentType: string): (r: seq<string>)
    ensures agentType in AgentTools ==> r == [AgentTools[agentType]]
    ensures agentType !in AgentTools ==> r == []
  {
    if agentType in AgentTools then [AgentTools[agentType]] else []
  }

  /** Seven agent types are known. */
  lemma AgentTypesCount()
    ensures |AgentTools.Keys| == 7
  {
    assert AgentTools.Keys == {"data_merger", "cep_prioritizer", "visualizer", "slide_builder",
                               "audience_cep", "audience_data", "audience_slide"};
  }

  /** Each known agent type has its own tool. */
  lemma AgentToolsDistinct()
    ensures forall a, b :: a in AgentTools && b in AgentTools && a != b ==> AgentTools[a] != AgentTools[b]
  {
    assert AgentTools.Keys == {"data_merger", "cep_prioritizer", "visualizer", "slide_builder",
                               "audience_cep", "audience_data", "audience_slide"};
  }
}
