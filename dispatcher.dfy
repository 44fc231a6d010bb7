/**
  The JSON-RPC dispatcher (`process_mcp_message`): one parsed request is routed on
  its `method` to a fixed lifecycle answer, the tool catalogue or the tool
  translator, and answered with the request's `id`.
 */
module Dispatcher {
  import opened Wrappers
  import opened Json
  import Catalogue
  import Invoker

  const JsonRpcVersion := "2.0"
  const ProtocolVersion := "2024-11-05"
  const ServerName := "mac-studio-mcp"
  const ServerVersion := "1.0.0"
  const MethodNotFound := -32601

  datatype Payload =
    | Initialized                                   // protocol version, capabilities, server info
    | ToolList(tools: seq<Catalogue.ToolDescriptor>)
    | CallResult(result: Invoker.ToolResult)
    | Acknowledged                                  // the empty result `{}`

  datatype Body = Result(payload: Payload) | Error(code: int, message: string)

  datatype Response = Response(id: Json, body: Body)

  /**
    The outcome of processing one request: a response (with the remote request made
    for it, if any), or an exception that escapes to the HTTP layer.
   */
  datatype Processed =
    | Answered(response: Response, sent: Option<Invoker.RemoteCall>)
    | Escaped(error: PyException)

  /** `data.get("id", 1)`. */
  function RequestId(data: map<string, Json>): Json {
    Lookup(data, "id", JInt(1))
  }

  /** `data.get("method", "")`. */
  function MethodOf(data: map<string, Json>): Json {
    Lookup(data, "method", JStr(""))
  }

  /** `data.get("params", {})`. */
  function ParamsOf(data: map<string, Json>): Json {
    Lookup(data, "params", JObj(map[]))
  }

  predicate KnownMethod(name: Json) {
    name in [JStr("initialize"), JStr("tools/list"), JStr("tools/call"), JStr("notifications/initialized")]
  }

  /** `process_mcp_message` with the remote endpoint given as `remote`. */
  function ProcessMessage(fmt: Formatter, data: Json, remote: Invoker.RemoteCall -> Invoker.RemoteOutcome): (r: Processed)
    ensures r.Escaped? <==>
              !data.JObj? || (MethodOf(data.fields) == JStr("tools/call") && !ParamsOf(data.fields).JObj?)
    ensures r.Escaped? ==> r.error.AttributeError? && r.error.attr == "get"
    ensures r.Answered? ==> data.JObj? && r.response.id == RequestId(data.fields)
    ensures r.Answered? ==> (r.response.body.Error? <==> !KnownMethod(MethodOf(data.fields)))
    ensures r.Answered? && r.response.body.Error? ==>
              r.response.body == Error(MethodNotFound, "Method not found: " + Str(fmt, MethodOf(data.fields)))
    ensures r.Answered? && r.sent.Some? ==> MethodOf(data.fields) == JStr("tools/call")
    ensures r.Answered? && MethodOf(data.fields) == JStr("initialize") ==> r.response.body == Result(Initialized)
    ensures r.Answered? && MethodOf(data.fields) == JStr("tools/list") ==>
              r.response.body == Result(ToolList(Catalogue.Tools()))
    ensures r.Answered? && MethodOf(data.fields) == JStr("notifications/initialized") ==>
              r.response.body == Result(Acknowledged)
  {
    match data
    case JObj(m) =>
      var name := MethodOf(m);
      var params := ParamsOf(m);
      var id := RequestId(m);
      if name == JStr("initialize") then
        Answered(Response(id, Result(Initialized)), None)
      else if name == JStr("tools/list") then
        Answered(Response(id, Result(ToolList(Catalogue.Tools()))), None)
      else if name == JStr("tools/call") then
        (match params
         case JObj(p) =>
           var inv := Invoker.HandleToolCall(fmt, Lookup(p, "name", JStr("")), Lookup(p, "arguments", JObj(map[])), remote);
           Answered(Response(id, Result(CallResult(inv.result))), inv.sent)
         case _ => Escaped(AttributeError(TypeName(params), "get")))
      else if name == JStr("notifications/initialized") then
        Answered(Response(id, Result(Acknowledged)), None)
      else
        Answered(Response(id, Error(MethodNotFound, "Method not found: " + Str(fmt, name))), None)
    case _ => Escaped(AttributeError(TypeName(data), "get"))
  }

  /**
    `tools/call` hands `name` (default "") and `arguments` (default `{}`) to the
    tool translator and wraps its result, with the request `id`.
   */
  lemma ToolsCallDelegates(fmt: Formatter, data: map<string, Json>, params: map<string, Json>,
                           remote: Invoker.RemoteCall -> Invoker.RemoteOutcome)
    requires MethodOf(data) == JStr("tools/call") && ParamsOf(data) == JObj(params)
    ensures var inv := Invoker.HandleToolCall(fmt, Lookup(params, "name", JStr("")),
                                              Lookup(params, "arguments", JObj(map[])), remote);
            ProcessMessage(fmt, JObj(data), remote)
            == Answered(Response(RequestId(data), Result(CallResult(inv.result))), inv.sent)
  {
  }

  /**
    A `tools/call` without a tool name answers "Unknown tool: " with `isError`
    set and makes no remote request.
   */
  lemma ToolsCallWithoutName(fmt: Formatter, data: map<string, Json>, params: map<string, Json>,
                             remote: Invoker.RemoteCall -> Invoker.RemoteOutcome)
    requires MethodOf(data) == JStr("tools/call") && ParamsOf(data) == JObj(params)
    requires "name" !in params
    ensures ProcessMessage(fmt, JObj(data), remote)
            == Answered(Response(RequestId(data), Result(CallResult(Invoker.ToolResult(JStr("Unknown tool: "), true)))), None)
  {
    Catalogue.NamesInOrder();
    var name := JStr("");
    Invoker.UnknownToolSendsNothing(fmt, name, Lookup(params, "arguments", JObj(map[])), remote, remote);
    assert "Unknown tool: " + Str(fmt, name) == "Unknown tool: ";
  }

  function InitializeJson(): Json {
    JObj(map[
      "protocolVersion" := JStr(ProtocolVersion),
      "capabilities" := JObj(map["tools" := JObj(map["listChanged" := JBool(true)])]),
      "serverInfo" := JObj(map["name" := JStr(ServerName), "version" := JStr(ServerVersion)])])
  }

  function DescriptorsJson(ts: seq<Catalogue.ToolDescriptor>): (js: seq<Json>)
    ensures |js| == |ts| && forall i :: 0 <= i < |ts| ==> js[i] == Catalogue.DescriptorJson(ts[i])
  {
    if ts == [] then [] else [Catalogue.DescriptorJson(ts[0])] + DescriptorsJson(ts[1..])
  }

  function PayloadJson(p: Payload): Json {
    match p
    case Initialized => InitializeJson()
    case ToolList(ts) => JObj(map["tools" := JArr(DescriptorsJson(ts))])
    case CallResult(res) => Invoker.ToolResultJson(res)
    case Acknowledged => JObj(map[])
  }

  /**
    The response object as sent: `jsonrpc` "2.0", the echoed `id`, and exactly one
    of `result` and `error`.
   */
  function ResponseJson(r: Response): (j: Json)
    ensures j.JObj? && "jsonrpc" in j.fields && "id" in j.fields
    ensures j.fields["jsonrpc"] == JStr(JsonRpcVersion) && j.fields["id"] == r.id
    ensures ("result" in j.fields) != ("error" in j.fields)
    ensures "error" in j.fields <==> r.body.Error?
    ensures r.body.Error? ==>
              j.fields["error"] == JObj(map["code" := JInt(r.body.code), "message" := JStr(r.body.message)])
    ensures r.body.Result? ==> j.fields["result"] == PayloadJson(r.body.payload)
  {
    var head := map["jsonrpc" := JStr(JsonRpcVersion), "id" := r.id];
    match r.body
    case Result(p) => JObj(head["result" := PayloadJson(p)])
    case Error(code, message) => JObj(head["error" := JObj(map["code" := JInt(code), "message" := JStr(message)])])
  }

  /**
    `initialize` answers with protocol version 2024-11-05, the `tools` capability
    with `listChanged` set, and the server's name and version.
   */
  lemma InitializeAnswer(fmt: Formatter, data: map<string, Json>, remote: Invoker.RemoteCall -> Invoker.RemoteOutcome)
    requires MethodOf(data) == JStr("initialize")
    ensures var r := ProcessMessage(fmt, JObj(data), remote);
            && r.Answered? && r.sent.None?
            && var result := ResponseJson(r.response).fields["result"];
            && result.JObj?
            && result.fields.Keys == {"protocolVersion", "capabilities", "serverInfo"}
            && result.fields["protocolVersion"] == JStr("2024-11-05")
            && result.fields["capabilities"] == JObj(map["tools" := JObj(map["listChanged" := JBool(true)])])
            && result.fields["serverInfo"] == JObj(map["name" := JStr("mac-studio-mcp"), "version" := JStr("1.0.0")])
  {
  }

  /**
    `tools/list` answers with the seven catalogue descriptors in declared order:
    entry `i` of the `tools` array is named `Names()[i]`.
   */
  lemma ToolsListNames(fmt: Formatter, data: map<string, Json>, remote: Invoker.RemoteCall -> Invoker.RemoteOutcome)
    requires MethodOf(data) == JStr("tools/list")
    ensures var r := ProcessMessage(fmt, JObj(data), remote);
            && r.Answered?
            && var tools := ResponseJson(r.response).fields["result"].fields["tools"];
            && tools.JArr? && |tools.items| == 7
            && forall i :: 0 <= i < 7 ==> tools.items[i].JObj? && tools.items[i].fields["name"] == JStr(Catalogue.Names()[i])
  {
    Catalogue.NamesInOrder();
  }

  /**
    Every answered request is echoed with its `id` (1 when absent) and carries
    exactly one of `result` and `error`; `error` only for an unrecognised method,
    with code -32601 and the method's name in the message.
   */
  lemma ResponseEnvelope(fmt: Formatter, data: map<string, Json>, remote: Invoker.RemoteCall -> Invoker.RemoteOutcome)
    requires ProcessMessage(fmt, JObj(data), remote).Answered?
    ensures var j := ResponseJson(ProcessMessage(fmt, JObj(data), remote).response).fields;
            && j["jsonrpc"] == JStr("2.0")
            && j["id"] == (if "id" in data then data["id"] else JInt(1))
            && ("result" in j) != ("error" in j)
            && ("error" in j <==> !KnownMethod(MethodOf(data)))
            && ("error" in j ==>
                  j["error"] == JObj(map["code" := JInt(-32601),
                                         "message" := JStr("Method not found: " + Str(fmt, MethodOf(data)))]))
  {
  }
}
