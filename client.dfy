/**
 * The client's decisions on the replies it receives (`MCPClient._attempt_connection`,
 * `_register_tool` and `_listen_for_calls`): whether the server offers the
 * `remote` tool, whether it acknowledged the registration, and what is done
 * with each reverse call taken from the session's reverse queue.
 *
 * Each check is written with the Python semantics of the expressions it
 * evaluates; where such an expression raises (a `.get` on a list, `len` of a
 * number, `in` on a number), the result is `None`, and the connection attempt
 * that surrounds the check counts it as a failure.
 */
module Client {
  import opened Wrappers
  import opened Text
  import opened Json
  import opened Stream

  const RemoteToolName: string := "remote"
  const RegisteredMarker: string := "Successfully registered tool"

  /** `any(tool.get('name') == 'remote' for tool in tools)` over a list; `None` when a `.get` raises. */
  function AnyRemote(tools: seq<Json>): (r: Option<bool>)
    decreases |tools|
  {
    if tools == [] then Some(false)
    else if !tools[0].JObj? then None
    else if Get(tools[0].fields, "name", JNull) == JStr(RemoteToolName) then Some(true)
    else AnyRemote(tools[1..])
  }

  /** A tool entry named `remote`. */
  predicate IsRemote(tool: Json) {
    tool.JObj? && Get(tool.fields, "name", JNull) == JStr(RemoteToolName)
  }

  /** Every entry before `i` is an object that is not the `remote` tool. */
  predicate Passes(tools: seq<Json>, i: int)
    requires 0 <= i <= |tools|
  {
    forall j :: 0 <= j < i ==> tools[j].JObj? && !IsRemote(tools[j])
  }

  lemma PassesShift(tools: seq<Json>, i: int)
    requires tools != [] && tools[0].JObj? && !IsRemote(tools[0])
    requires 0 <= i < |tools|
    ensures Passes(tools, i + 1) <==> Passes(tools[1..], i)
  {
    if Passes(tools[1..], i) {
      forall j | 0 <= j < i + 1 ensures tools[j].JObj? && !IsRemote(tools[j]) {
        if j > 0 { assert tools[j] == tools[1..][j - 1]; }
      }
    }
    if Passes(tools, i + 1) {
      forall j | 0 <= j < i ensures tools[1..][j].JObj? && !IsRemote(tools[1..][j]) {
        assert tools[1..][j] == tools[j + 1];
      }
    }
  }

  /**
   * `any` stops at the first `remote` entry: it answers true exactly when such
   * an entry comes before any entry that is not an object, and raises exactly
   * when a non-object comes first.
   */
  lemma {:induction false} AnyRemoteIff(tools: seq<Json>)
    ensures AnyRemote(tools) == Some(true) <==>
      exists i :: 0 <= i < |tools| && Passes(tools, i) && IsRemote(tools[i])
    ensures AnyRemote(tools).None? <==>
      exists i :: 0 <= i < |tools| && Passes(tools, i) && !tools[i].JObj?
    decreases |tools|
  {
    if tools == [] {
      return;
    }
    var t := tools[0];
    if !t.JObj? || IsRemote(t) {
      assert Passes(tools, 0);
      forall i | 0 < i < |tools| ensures !Passes(tools, i) {
        assert 0 < i;
      }
      return;
    }
    var rest := tools[1..];
    AnyRemoteIff(rest);
    assert AnyRemote(tools) == AnyRemote(rest);
    if exists i :: 0 <= i < |tools| && Passes(tools, i) && IsRemote(tools[i]) {
      var i :| 0 <= i < |tools| && Passes(tools, i) && IsRemote(tools[i]);
      assert i > 0;
      PassesShift(tools, i - 1);
      assert rest[i - 1] == tools[i];
    }
    if exists i :: 0 <= i < |rest| && Passes(rest, i) && IsRemote(rest[i]) {
      var i :| 0 <= i < |rest| && Passes(rest, i) && IsRemote(rest[i]);
      PassesShift(tools, i);
      assert rest[i] == tools[i + 1];
    }
    if exists i :: 0 <= i < |tools| && Passes(tools, i) && !tools[i].JObj? {
      var i :| 0 <= i < |tools| && Passes(tools, i) && !tools[i].JObj?;
      assert i > 0;
      PassesShift(tools, i - 1);
      assert rest[i - 1] == tools[i];
    }
    if exists i :: 0 <= i < |rest| && Passes(rest, i) && !rest[i].JObj? {
      var i :| 0 <= i < |rest| && Passes(rest, i) && !rest[i].JObj?;
      PassesShift(tools, i);
      assert rest[i] == tools[i + 1];
    }
  }

  /**
   * Step 6 of `_attempt_connection`: `tools_response.get('result', {}).get('tools', [])`
   * and the `any` over it; iterating a string or an object yields strings,
   * whose `.get` raises, and a scalar cannot be iterated.
   */
  function HasRemoteTool(response: Option<Json>): (r: Option<bool>)
    ensures response.None? ==> r == Some(false)
    ensures r == Some(true) <==>
      && response.Some? && response.value.JObj?
      && Get(response.value.fields, "result", JObj([])).JObj?
      && Get(Get(response.value.fields, "result", JObj([])).fields, "tools", JArr([])).JArr?
      && AnyRemote(Get(Get(response.value.fields, "result", JObj([])).fields, "tools", JArr([])).items) == Some(true)
    ensures r.None? <==>
      && response.Some? && Truthy(response.value)
      && (|| !response.value.JObj?
          || (var result := Get(response.value.fields, "result", JObj([]));
              || !result.JObj?
              || (var tools := Get(result.fields, "tools", JArr([]));
                  if tools.JArr? then AnyRemote(tools.items).None?
                  else (!tools.JStr? && !tools.JObj?) || Truthy(tools))))
  {
    match response
    case None => Some(false)
    case Some(resp) =>
      if !Truthy(resp) then Some(false)
      else if !resp.JObj? then None
      else
        var result := Get(resp.fields, "result", JObj([]));
        if !result.JObj? then None
        else match Get(result.fields, "tools", JArr([]))
          case JArr(tools) => AnyRemote(tools)
          case JStr(s) => if s == "" then Some(false) else None
          case JObj(fields) => if fields == [] then Some(false) else None
          case _ => None
  }

  /** A reply that lists a `remote` tool among well-formed tool entries passes step 6. */
  lemma RemoteToolListed(fields: seq<(string, Json)>, resultFields: seq<(string, Json)>, tools: seq<Json>, i: int)
    requires Lookup(fields, "result") == Some(JObj(resultFields))
    requires Lookup(resultFields, "tools") == Some(JArr(tools))
    requires 0 <= i < |tools| && Passes(tools, i) && IsRemote(tools[i])
    ensures HasRemoteTool(Some(JObj(fields))) == Some(true)
  {
    AnyRemoteIff(tools);
  }

  /**
   * `_register_tool`'s check of the reply to the registration call: a dict
   * `result`, a non-empty `content`, and the marker in the first item's `text`.
   */
  function RegistrationCheck(response: Option<Json>): (r: Option<bool>)
    ensures response.None? ==> r == Some(false)
  {
    match response
    case None => Some(false)
    case Some(resp) =>
      if !Truthy(resp) then Some(false)
      else match In("result", resp)
        case None => None
        case Some(false) => Some(false)
        case Some(true) =>
          if !resp.JObj? then None          // `response['result']` on a string or a list
          else
            var result := Lookup(resp.fields, "result").value;
            if !result.JObj? then Some(false)
            else
              var content := Get(result.fields, "content", JArr([]));
              if !Truthy(content) then Some(false)
              else match content
                case JArr(items) =>
                  if !items[0].JObj? then None  // `.get` on a non-object item
                  else In(RegisteredMarker, Get(items[0].fields, "text", JStr("")))
                case _ => None                 // `len` of a number, `[0]` of an object, `.get` on a character
  }

  /** The reply acknowledges the registration, as the server is meant to phrase it. */
  predicate Acknowledges(resp: Json) {
    && resp.JObj? && HasKey(resp.fields, "result")
    && var result := Lookup(resp.fields, "result").value;
       && result.JObj?
       && var content := Get(result.fields, "content", JArr([]));
          && content.JArr? && content.items != [] && content.items[0].JObj?
          && In(RegisteredMarker, Get(content.items[0].fields, "text", JStr(""))) == Some(true)
  }

  /** Registration succeeds exactly on an acknowledging reply. */
  lemma RegisteredIff(response: Option<Json>)
    ensures RegistrationCheck(response) == Some(true) <==> response.Some? && Acknowledges(response.value)
  {
    if response.Some? && Acknowledges(response.value) {
      var fields := response.value.fields;
      assert HasKey(fields, "result");
      assert fields != [];
    }
  }

  /**
   * A reply whose `result` is a text tool result registers exactly when its
   * text contains the marker.
   */
  lemma RegistrationOfToolResult(fields: seq<(string, Json)>, text: string, isError: bool)
    requires Lookup(fields, "result") == Some(ToolResult(text, isError))
    ensures RegistrationCheck(Some(JObj(fields))) == Some(IsSubstring(RegisteredMarker, text))
  {
    assert HasKey(fields, "result");
    var rf := ToolResult(text, isError).fields;
    LookupPair("content", JArr([JObj([("type", JStr("text")), ("text", JStr(text))])]),
               "isError", JBool(isError), "content");
    LookupPair("type", JStr("text"), "text", JStr(text), "text");
  }

  /** What `_listen_for_calls` does with one message from the reverse queue. */
  datatype Action = Skip | Invoke(callId: Json, input: Json) | Abort

  /**
   * A message for this tool (`reverse.tool` equal to its name) is handed to the
   * handler with its `call_id` and `input`; other messages are passed over; a
   * `reverse` member that is not an object makes `.get` raise, which ends the
   * listener.
   */
  function ListenAction(msg: Json, toolName: string): Action {
    if !msg.JObj? || !HasKey(msg.fields, "reverse") then Skip
    else
      var call := Lookup(msg.fields, "reverse").value;
      if !call.JObj? then Abort
      else if Get(call.fields, "tool", JNull) == JStr(toolName) then
        Invoke(Get(call.fields, "call_id", JNull), Get(call.fields, "input", JNull))
      else Skip
  }

  /**
   * Only an object with a `reverse` member can be acted on: it is a call for
   * this tool exactly when `reverse` is an object whose `tool` is the tool's
   * name, and it ends the listener exactly when `reverse` is not an object.
   */
  lemma ListenActionIff(msg: Json, toolName: string)
    ensures ListenAction(msg, toolName).Invoke? <==>
      msg.JObj? && HasKey(msg.fields, "reverse") && Lookup(msg.fields, "reverse").value.JObj?
      && Get(Lookup(msg.fields, "reverse").value.fields, "tool", JNull) == JStr(toolName)
    ensures ListenAction(msg, toolName).Abort? <==>
      msg.JObj? && HasKey(msg.fields, "reverse") && !Lookup(msg.fields, "reverse").value.JObj?
    ensures ListenAction(msg, toolName).Invoke? ==>
      var call := Lookup(msg.fields, "reverse").value;
      ListenAction(msg, toolName) == Invoke(Get(call.fields, "call_id", JNull), Get(call.fields, "input", JNull))
  {
  }

  /** The `result` sent back for a call: the handler's value, or an error tool result. */
  function CallResult(outcome: Outcome): (r: Json)
    ensures outcome.Returned? ==> r == outcome.value
    ensures outcome.Raised? ==> IsError(r)
    ensures outcome.Raised? ==> ResultText(r) == Some("Error: " + outcome.message + "\n\n" + outcome.trace)
  {
    match outcome
    case Returned(value) => value
    case Raised(message, trace) => ToolResult("Error: " + message + "\n\n" + trace, true)
  }

  /** `_send_tool_reply`'s `tools/reply` request for call `callId`. */
  function ToolReply(callId: Json, result: Json): (r: Json)
    ensures r.JObj? && Lookup(r.fields, "id") == Some(callId)
    ensures Lookup(r.fields, "method") == Some(JStr("tools/reply"))
    ensures Lookup(r.fields, "params") == Some(JObj([("result", result)]))
  {
    RpcRequest(callId, "tools/reply", JObj([("result", result)]))
  }

  /** The `tools/call` parameters `call_mcp_tool` sends for a call to another MCP tool. */
  function ToolCallParams(toolName: Json, arguments: Json): (p: Json)
    ensures p.JObj?
    ensures Lookup(p.fields, "name") == Some(toolName)
    ensures Lookup(p.fields, "arguments") == Some(arguments)
  {
    LookupPair("name", toolName, "arguments", arguments, "name");
    LookupPair("name", toolName, "arguments", arguments, "arguments");
    JObj([("name", toolName), ("arguments", arguments)])
  }

  /** What the listener did with a run of queued messages. */
  datatype Served = Served(replies: seq<Json>, taken: nat, aborted: bool)

  /** The listener over the queued messages `q`, until they run out or one ends it. */
  function Serve(q: seq<Json>, toolName: string, handle: Json -> Outcome): (r: Served)
    ensures r.taken <= |q|
    ensures r.aborted || r.taken == |q|
    decreases |q|
  {
    if q == [] then Served([], 0, false)
    else
      match ListenAction(q[0], toolName)
      case Abort => Served([], 1, true)
      case Skip =>
        var rest := Serve(q[1..], toolName, handle);
        rest.(taken := rest.taken + 1)
      case Invoke(callId, input) =>
        var rest := Serve(q[1..], toolName, handle);
        rest.(replies := [ToolReply(callId, CallResult(handle(input)))] + rest.replies, taken := rest.taken + 1)
  }

  /** The calls for this tool among the messages, up to the one that ends the listener. */
  function Calls(q: seq<Json>, toolName: string): seq<(Json, Json)>
    decreases |q|
  {
    if q == [] then []
    else match ListenAction(q[0], toolName)
      case Abort => []
      case Skip => Calls(q[1..], toolName)
      case Invoke(callId, input) => [(callId, input)] + Calls(q[1..], toolName)
  }

  /**
   * Every call for this tool gets exactly one reply, in queue order: the
   * reply carries the call's id and the handler's value, or an error result
   * when the handler raised.
   */
  lemma {:induction false} OneReplyPerCall(q: seq<Json>, toolName: string, handle: Json -> Outcome)
    ensures var served := Serve(q, toolName, handle);
            var calls := Calls(q, toolName);
            && |served.replies| == |calls|
            && forall i :: 0 <= i < |calls| ==>
                 served.replies[i] == ToolReply(calls[i].0, CallResult(handle(calls[i].1)))
    decreases |q|
  {
    if q != [] {
      OneReplyPerCall(q[1..], toolName, handle);
      var served, rest := Serve(q, toolName, handle), Serve(q[1..], toolName, handle);
      var calls, restCalls := Calls(q, toolName), Calls(q[1..], toolName);
      match ListenAction(q[0], toolName) {
        case Abort =>
        case Skip =>
          assert served.replies == rest.replies && calls == restCalls;
        case Invoke(callId, input) =>
          assert served.replies == [ToolReply(callId, CallResult(handle(input)))] + rest.replies;
          assert calls == [(callId, input)] + restCalls;
          forall i | 0 < i < |calls|
            ensures served.replies[i] == ToolReply(calls[i].0, CallResult(handle(calls[i].1)))
          {
            assert served.replies[i] == rest.replies[i - 1] && calls[i] == restCalls[i - 1];
          }
      }
    }
  }

  /** After the first `i` messages of `q` the listener has sent `replies` and has not stopped. */
  ghost predicate ServedSoFar(q: seq<Json>, i: nat, replies: seq<Json>, toolName: string, handle: Json -> Outcome)
    requires i <= |q|
  {
    var all, rest := Serve(q, toolName, handle), Serve(q[i..], toolName, handle);
    all == rest.(replies := replies + rest.replies, taken := i + rest.taken)
  }

  lemma AppendAssoc<T>(a: seq<T>, b: seq<T>, c: seq<T>)
    ensures a + (b + c) == (a + b) + c
  {
  }

  /** One more message taken by the listener. */
  lemma ServeAdvance(q: seq<Json>, i: nat, replies: seq<Json>, toolName: string, handle: Json -> Outcome)
    requires i < |q| && ServedSoFar(q, i, replies, toolName, handle)
    ensures match ListenAction(q[i], toolName)
            case Abort => Serve(q, toolName, handle) == Served(replies, i + 1, true)
            case Skip => ServedSoFar(q, i + 1, replies, toolName, handle)
            case Invoke(callId, input) =>
              ServedSoFar(q, i + 1, replies + [ToolReply(callId, CallResult(handle(input)))], toolName, handle)
  {
    assert q[i..][1..] == q[i + 1..];
    var rest := Serve(q[i + 1..], toolName, handle);
    match ListenAction(q[i], toolName) {
      case Abort =>
      case Skip =>
      case Invoke(callId, input) =>
        AppendAssoc(replies, [ToolReply(callId, CallResult(handle(input)))], rest.replies);
    }
  }

  /** `reverse_queue.get()` and the decision on the message it returns. */
  method TakeNext(s: Session, toolName: string) returns (action: Action)
    requires s.reverseQueue != []
    modifies s
    ensures action == ListenAction(old(s.reverseQueue)[0], toolName)
    ensures s.reverseQueue == old(s.reverseQueue)[1..]
    ensures s.pending == old(s.pending) && s.readerAlive == old(s.readerAlive)
  {
    var msg := s.reverseQueue[0];
    s.reverseQueue := s.reverseQueue[1..];
    action := ListenAction(msg, toolName);
  }

  /**
   * The loop of `_listen_for_calls` over what the reverse queue holds: a dead
   * reader thread ends it at once with the client marked disconnected;
   * otherwise each message is taken off the queue and answered, until the
   * queue is empty (where the loop waits for the stop event) or a message
   * makes it raise (which also marks the client disconnected).
   */
  method Listen(s: Session, toolName: string, handle: Json -> Outcome) returns (replies: seq<Json>, connected: bool)
    modifies s
    ensures s.pending == old(s.pending) && s.readerAlive == old(s.readerAlive)
    ensures !old(s.readerAlive) ==> replies == [] && !connected && s.reverseQueue == old(s.reverseQueue)
    ensures old(s.readerAlive) ==>
      var served := Serve(old(s.reverseQueue), toolName, handle);
      && replies == served.replies
      && s.reverseQueue == old(s.reverseQueue)[served.taken..]
      && connected == !served.aborted
  {
    if !s.readerAlive {
      return [], false;
    }
    ghost var q := s.reverseQueue;
    ghost var i := 0;
    replies := [];
    connected := true;
    while s.reverseQueue != []
      invariant i <= |q| && s.reverseQueue == q[i..]
      invariant s.pending == old(s.pending) && s.readerAlive == old(s.readerAlive)
      invariant ServedSoFar(q, i, replies, toolName, handle)
      invariant connected
      decreases |s.reverseQueue|
    {
      ServeAdvance(q, i, replies, toolName, handle);
      var action := TakeNext(s, toolName);
      match action {
        case Abort =>
          i := i + 1;
          connected := false;
          return;
        case Skip =>
        case Invoke(callId, input) =>
          replies := replies + [ToolReply(callId, CallResult(handle(input)))];
      }
      i := i + 1;
    }
  }
}
