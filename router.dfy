/**
 * The decisions `_handle_tool_call_on_main_thread` makes before any Blender
 * code runs: which handler an incoming call goes to, and which error
 * envelope each handler gives back when its arguments are missing or
 * malformed. The handlers' real work (`exec`, attribute navigation into
 * `bpy`, the call to another MCP tool) is not part of this module; a check
 * that passes hands over exactly the values that work would use.
 */
module Router {
  import opened Wrappers
  import opened Text
  import opened Json

  const ExecutePython: string := "execute_python"
  const ApiCallOp: string := "api_call"
  const CallToolOp: string := "call_tool"

  datatype Handler = PythonExecution | ApiCall | McpToolCall

  /**
   * Where a call goes: a handler with the call's `arguments` object, the
   * "Unknown operation" error, or the router's own `except` (a `.get` on a
   * value that is not an object raises AttributeError).
   */
  datatype Route = Dispatch(handler: Handler, arguments: seq<(string, Json)>) | Unknown(operation: Json) | Failed

  /** `call_data.get('params', {}).get('arguments', {})`, when every step is an object. */
  function ArgumentsOf(callData: Json): (r: Option<seq<(string, Json)>>)
    ensures r.Some? <==>
      callData.JObj? && Get(callData.fields, "params", JObj([])).JObj?
      && Get(Get(callData.fields, "params", JObj([])).fields, "arguments", JObj([])).JObj?
  {
    if !callData.JObj? then None
    else
      var params := Get(callData.fields, "params", JObj([]));
      if !params.JObj? then None
      else
        var arguments := Get(params.fields, "arguments", JObj([]));
        if !arguments.JObj? then None else Some(arguments.fields)
  }

  /** The operation named by the arguments, `execute_python` when none is named. */
  function Operation(args: seq<(string, Json)>): Json {
    Get(args, "operation", JStr(ExecutePython))
  }

  /** The routing decision of lines 311-331. */
  function RouteCall(callData: Json): Route {
    match ArgumentsOf(callData)
    case None => Failed
    case Some(args) =>
      var op := Operation(args);
      if op == JStr(ExecutePython) then Dispatch(PythonExecution, args)
      else if op == JStr(ApiCallOp) then Dispatch(ApiCall, args)
      else if op == JStr(CallToolOp) then Dispatch(McpToolCall, args)
      else if HasKey(args, "code") then Dispatch(PythonExecution, args)
      else if HasKey(args, "api_path") then Dispatch(ApiCall, args)
      else Unknown(op)
  }

  /** The operation is one of the three the router names. */
  predicate Named(op: Json) {
    op == JStr(ExecutePython) || op == JStr(ApiCallOp) || op == JStr(CallToolOp)
  }

  /** Arguments with no `operation` member go to Python execution. */
  lemma DefaultIsPython(callData: Json)
    requires ArgumentsOf(callData).Some?
    requires !HasKey(ArgumentsOf(callData).value, "operation")
    ensures RouteCall(callData) == Dispatch(PythonExecution, ArgumentsOf(callData).value)
  {
  }

  /** Every route, stated from the arguments: each handler exactly when its rule applies. */
  lemma RouteIff(callData: Json)
    ensures RouteCall(callData).Failed? <==> ArgumentsOf(callData).None?
    ensures ArgumentsOf(callData).Some? ==>
      var args := ArgumentsOf(callData).value;
      var op := Lookup(args, "operation").GetOr(JStr(ExecutePython));
      && (RouteCall(callData) == Dispatch(PythonExecution, args) <==>
            op == JStr(ExecutePython) || (!Named(op) && HasKey(args, "code")))
      && (RouteCall(callData) == Dispatch(ApiCall, args) <==>
            op == JStr(ApiCallOp) || (!Named(op) && !HasKey(args, "code") && HasKey(args, "api_path")))
      && (RouteCall(callData) == Dispatch(McpToolCall, args) <==> op == JStr(CallToolOp))
      && (RouteCall(callData) == Unknown(op) <==>
            !Named(op) && !HasKey(args, "code") && !HasKey(args, "api_path"))
  {
  }

  /** A routed call always hands its handler the call's own `arguments` object. */
  lemma DispatchCarriesArguments(callData: Json)
    requires RouteCall(callData).Dispatch?
    ensures ArgumentsOf(callData) == Some(RouteCall(callData).arguments)
  {
  }

  /** The "Unknown operation" envelope; `show` is Python's `str` on the operation value. */
  function UnknownReply(op: Json, show: Json -> string): (r: Json)
    ensures IsError(r)
    ensures ResultText(r) == Some("ERROR: Unknown operation '" + show(op) + "'. Use 'execute_python', 'api_call', or 'call_tool'.")
  {
    ToolResult("ERROR: Unknown operation '" + show(op) + "'. Use 'execute_python', 'api_call', or 'call_tool'.", true)
  }

  /**
   * What an argument check decides: go on with the values the handler's
   * work needs, refuse with an error envelope carrying `text`, or raise inside
   * the handler's own `try` (whose message is Python's and is not modelled).
   */
  datatype Checked<T> = Proceed(value: T) | Refuse(text: string) | Crash

  /** The envelope a refusal returns. */
  function Refusal(text: string): (r: Json)
    ensures IsError(r) && ResultText(r) == Some(text)
  {
    ToolResult(text, true)
  }

  const CodeRequired: string := "ERROR: 'code' parameter required for execute_python operation"

  /** What Python execution works with: the code, the session id and the persistence flag. */
  datatype PythonRequest = PythonRequest(code: Json, sessionId: Json, persistent: Json)

  /** The check at the head of `_handle_python_execution` (lines 351-359). */
  function CheckPython(args: seq<(string, Json)>): Checked<PythonRequest> {
    var code := Get(args, "code", JNull);
    if !Truthy(code) then Refuse(CodeRequired)
    else Proceed(PythonRequest(code, Get(args, "session_id", JStr("default")), Get(args, "persistent", JBool(true))))
  }

  /**
   * Python execution refuses exactly when `code` is missing or falsy, and
   * otherwise runs that code in session `default`, persistently, unless the
   * arguments say otherwise.
   */
  lemma PythonCheckIff(args: seq<(string, Json)>)
    ensures CheckPython(args).Refuse? <==> !Truthy(Lookup(args, "code").GetOr(JNull))
    ensures CheckPython(args).Refuse? ==> CheckPython(args).text == CodeRequired
    ensures !CheckPython(args).Crash?
    ensures CheckPython(args).Proceed? ==>
      && Some(CheckPython(args).value.code) == Lookup(args, "code")
      && (!HasKey(args, "session_id") ==> CheckPython(args).value.sessionId == JStr("default"))
      && (!HasKey(args, "persistent") ==> CheckPython(args).value.persistent == JBool(true))
  {
  }

  const ApiPathRequired: string := "ERROR: 'api_path' required for api_call operation"

  /**
   * The checks of `_handle_api_call` (lines 447-469). When they pass, the
   * value is the attribute names to follow from `bpy`. A truthy `api_path`
   * that is not a string has no `split` and raises.
   */
  function CheckApiPath(args: seq<(string, Json)>): Checked<seq<string>> {
    var apiPath := Get(args, "api_path", JStr(""));
    if !Truthy(apiPath) then Refuse(ApiPathRequired)
    else if !apiPath.JStr? then Crash
    else
      var parts := SplitOn(apiPath.s, '.');
      if parts[0] == "bpy" then Proceed(parts[1..])
      else Refuse("ERROR: api_path must start with 'bpy.', got '" + apiPath.s + "'")
  }

  /**
   * An API call goes ahead exactly for a non-empty string whose first
   * dot-separated segment is `bpy`, and the segments it follows are the rest
   * of that path: `bpy` joined with them gives the path back.
   */
  lemma ApiPathCheckIff(args: seq<(string, Json)>)
    ensures var p := Lookup(args, "api_path").GetOr(JStr(""));
      && (CheckApiPath(args) == Refuse(ApiPathRequired) <==> !Truthy(p))
      && (CheckApiPath(args).Crash? <==> Truthy(p) && !p.JStr?)
      && (CheckApiPath(args).Proceed? <==> p.JStr? && p.s != "" && SplitOn(p.s, '.')[0] == "bpy")
      && (CheckApiPath(args).Proceed? ==> JoinWith(["bpy"] + CheckApiPath(args).value, '.') == p.s)
  {
    var p := Lookup(args, "api_path").GetOr(JStr(""));
    if CheckApiPath(args).Proceed? {
      var parts := SplitOn(p.s, '.');
      SplitJoin(p.s, '.');
      assert ["bpy"] + parts[1..] == parts;
    } else if CheckApiPath(args).Refuse? && Truthy(p) {
      // the two refusal texts differ at their eighth character
      assert CheckApiPath(args).text[7] != ApiPathRequired[7];
    }
  }

  /** A path that does not begin with the segment `bpy` is refused with the path in the message. */
  lemma ForeignRootRefused(args: seq<(string, Json)>, p: string)
    requires Lookup(args, "api_path") == Some(JStr(p))
    requires p != "" && SplitOn(p, '.')[0] != "bpy"
    ensures CheckApiPath(args) == Refuse("ERROR: api_path must start with 'bpy.', got '" + p + "'")
  {
  }

  const ToolNameRequired: string := "ERROR: 'tool_name' required for call_tool operation"
  const NotConnected: string := "ERROR: MCP client not connected"

  /**
   * The checks of `_handle_mcp_tool_call` (lines 508-521); `connected` is
   * "there is a client instance and it is connected". When they pass, the
   * value is the tool name and the arguments the client is called with.
   */
  function CheckToolCall(args: seq<(string, Json)>, connected: bool): Checked<(Json, Json)> {
    var toolName := Get(args, "tool_name", JNull);
    if !Truthy(toolName) then Refuse(ToolNameRequired)
    else if !connected then Refuse(NotConnected)
    else Proceed((toolName, Get(args, "arguments", JObj([]))))
  }

  /**
   * The client is called only when a truthy `tool_name` is given and it is
   * connected; a missing name is reported first, a missing connection next.
   */
  lemma ToolCallCheckIff(args: seq<(string, Json)>, connected: bool)
    ensures var name := Lookup(args, "tool_name").GetOr(JNull);
      && (CheckToolCall(args, connected).Proceed? <==> Truthy(name) && connected)
      && (CheckToolCall(args, connected) == Refuse(ToolNameRequired) <==> !Truthy(name))
      && (CheckToolCall(args, connected) == Refuse(NotConnected) <==> Truthy(name) && !connected)
      && (CheckToolCall(args, connected).Proceed? ==>
            CheckToolCall(args, connected).value == (name, Lookup(args, "arguments").GetOr(JObj([]))))
  {
  }

  /** The work a routed, checked call goes on to do. */
  datatype Work = RunCode(request: PythonRequest) | Navigate(attributes: seq<string>) | CallClient(toolName: Json, arguments: Json)

  /**
   * What the main thread does with a call: go on with some work, or return an
   * error envelope at once.
   */
  datatype Decision = Go(work: Work) | Reply(result: Json)

  /**
   * The envelope of the router's own `except` (lines 333-339): `message` is
   * Python's `str(e)` and `trace` the formatted traceback.
   */
  function RouterError(message: string, trace: string): (r: Json)
    ensures IsError(r) && ResultText(r) == Some("ERROR: " + message + "\n\n" + trace)
  {
    ToolResult("ERROR: " + message + "\n\n" + trace, true)
  }

  /**
   * The envelope of `_handle_api_call`'s `except` (lines 494-499), naming the
   * path as `str` shows it.
   */
  function ApiCallError(apiPath: Json, message: string, trace: string, show: Json -> string): (r: Json)
    ensures IsError(r) && ResultText(r) == Some("ERROR calling " + show(apiPath) + ": " + message + "\n\n" + trace)
  {
    ToolResult("ERROR calling " + show(apiPath) + ": " + message + "\n\n" + trace, true)
  }

  /** The work each handler goes on with once its check passes. */
  function PythonWork(r: PythonRequest): Work { RunCode(r) }
  function ApiWork(attributes: seq<string>): Work { Navigate(attributes) }
  function ToolWork(t: (Json, Json)): Work { CallClient(t.0, t.1) }

  /**
   * A check's decision, with `work` building what a passed check goes on
   * with and `caught` the envelope of the handler's `except` when it raises.
   */
  function Decide<T>(c: Checked<T>, work: T -> Work, caught: Json): Decision {
    match c
    case Proceed(v) => Go(work(v))
    case Refuse(text) => Reply(Refusal(text))
    case Crash => Reply(caught)
  }

  /**
   * The router followed by the chosen handler's argument check; `message`
   * and `trace` describe the exception when one is raised and caught.
   */
  function HandleCall(callData: Json, connected: bool, show: Json -> string, message: string, trace: string)
    : Decision
  {
    var caught := RouterError(message, trace);
    match RouteCall(callData)
    case Failed => Reply(caught)
    case Unknown(op) => Reply(UnknownReply(op, show))
    case Dispatch(PythonExecution, args) =>
      Decide(CheckPython(args), PythonWork, caught)
    case Dispatch(ApiCall, args) =>
      Decide(CheckApiPath(args), ApiWork,
             ApiCallError(Get(args, "api_path", JStr("")), message, trace, show))
    case Dispatch(McpToolCall, args) =>
      Decide(CheckToolCall(args, connected), ToolWork, caught)
  }

  /** A decision replies only with a refusal or with the caught envelope. */
  lemma DecideReplies<T>(c: Checked<T>, work: T -> Work, caught: Json)
    requires IsError(caught)
    ensures Decide(c, work, caught).Reply? ==> IsError(Decide(c, work, caught).result)
  {
  }

  /**
   * Every reply, whether unknown operation, refused arguments or a caught
   * exception, is an error envelope.
   */
  lemma RepliesAreErrors(callData: Json, connected: bool, show: Json -> string, message: string, trace: string)
    ensures var d := HandleCall(callData, connected, show, message, trace);
      d.Reply? ==> IsError(d.result)
  {
    var caught := RouterError(message, trace);
    match RouteCall(callData)
    case Failed =>
    case Unknown(op) =>
    case Dispatch(PythonExecution, args) =>
      DecideReplies(CheckPython(args), PythonWork, caught);
    case Dispatch(ApiCall, args) =>
      DecideReplies(CheckApiPath(args), ApiWork, ApiCallError(Get(args, "api_path", JStr("")), message, trace, show));
    case Dispatch(McpToolCall, args) =>
      DecideReplies(CheckToolCall(args, connected), ToolWork, caught);
  }

  /** Python code runs only for the `execute_python` handler and only when a truthy `code` was given. */
  lemma CodeRunsOnlyWhenGiven(callData: Json, connected: bool, show: Json -> string, message: string, trace: string)
    ensures var d := HandleCall(callData, connected, show, message, trace);
      d.Go? && d.work.RunCode? ==>
        RouteCall(callData) == Dispatch(PythonExecution, ArgumentsOf(callData).value)
        && Truthy(d.work.request.code)
  {
    match RouteCall(callData)
    case Failed =>
    case Unknown(op) =>
    case Dispatch(h, args) =>
      DispatchCarriesArguments(callData);
  }

  /**
   * The client is called only when connected, given a truthy tool name, and
   * only for the `call_tool` operation.
   */
  lemma ClientCalledOnlyWhenConnected(callData: Json, connected: bool, show: Json -> string,
                                      message: string, trace: string)
    ensures var d := HandleCall(callData, connected, show, message, trace);
      d.Go? && d.work.CallClient? ==>
        connected && RouteCall(callData) == Dispatch(McpToolCall, ArgumentsOf(callData).value)
        && Lookup(ArgumentsOf(callData).value, "operation") == Some(JStr(CallToolOp))
        && Truthy(d.work.toolName)
  {
    match RouteCall(callData)
    case Failed =>
    case Unknown(op) =>
    case Dispatch(PythonExecution, args) =>
    case Dispatch(ApiCall, args) =>
    case Dispatch(McpToolCall, args) =>
      RouteIff(callData);
      DispatchCarriesArguments(callData);
      ToolCallCheckIff(args, connected);
  }

  /**
   * No exception escapes to the caller: a call whose routing raises gets the
   * router's error envelope, and a non-string `api_path` gets the API
   * handler's, naming that path. Work goes ahead exactly when the call is
   * routed and its handler's check passes.
   */
  lemma FailuresCaught(callData: Json, connected: bool, show: Json -> string, message: string, trace: string)
    ensures RouteCall(callData).Failed? ==>
      HandleCall(callData, connected, show, message, trace) == Reply(RouterError(message, trace))
    ensures RouteCall(callData).Dispatch? && RouteCall(callData).handler == ApiCall
            && CheckApiPath(RouteCall(callData).arguments).Crash? ==>
      && Lookup(RouteCall(callData).arguments, "api_path").Some?
      && HandleCall(callData, connected, show, message, trace)
         == Reply(ApiCallError(Lookup(RouteCall(callData).arguments, "api_path").value, message, trace, show))
    ensures HandleCall(callData, connected, show, message, trace).Go? <==>
      && RouteCall(callData).Dispatch?
      && match RouteCall(callData).handler
         case PythonExecution => CheckPython(RouteCall(callData).arguments).Proceed?
         case ApiCall => CheckApiPath(RouteCall(callData).arguments).Proceed?
         case McpToolCall => CheckToolCall(RouteCall(callData).arguments, connected).Proceed?
  {
    match RouteCall(callData)
    case Failed =>
    case Unknown(op) =>
    case Dispatch(h, args) =>
  }
}
