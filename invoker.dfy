/**
  The tool translator (`handle_tool_call`): a tool name and its arguments become
  at most one request to the remote execution endpoint, and the endpoint's reply
  becomes a tool result. Every failure, including a missing argument or a failed
  remote call, is returned as a result with `isError` set; none escapes.
 */
module Invoker {
  import opened Wrappers
  import opened Json
  import Shell
  import Catalogue

  datatype Verb = Get | Post

  /** A request to the remote endpoint: path, HTTP verb, JSON body (none for GET). */
  datatype RemoteCall = RemoteCall(endpoint: string, verb: Verb, data: Option<map<string, Json>>)

  /** What the remote endpoint gives back: a decoded JSON body, or a raised exception's text. */
  datatype RemoteOutcome = Reply(body: Json) | Failed(message: string)

  /** How the reply is turned into text. */
  datatype Reading =
    | Dump                       // the whole reply, pretty-printed
    | Fallback                   // `stdout`, else `error`, else `str(reply)`
    | WriteStatus(target: string) // success message for `target` iff the return code is 0

  /** The translation of one tool call before anything is sent. */
  datatype Plan =
    | UnknownTool
    | Abort(error: PyException)
    | Send(call: RemoteCall, reading: Reading)

  /** `{"content": [{"type": "text", "text": text}], "isError": true}`, the flag only when set. */
  datatype ToolResult = ToolResult(text: Json, isError: bool)

  /** The tool result as the JSON object placed in a `tools/call` response. */
  function ToolResultJson(r: ToolResult): (j: Json)
    ensures j.JObj? && "content" in j.fields
    ensures j.fields["content"] == JArr([JObj(map["type" := JStr("text"), "text" := r.text])])
    ensures "isError" in j.fields <==> r.isError
    ensures "isError" in j.fields ==> j.fields["isError"] == JBool(true)
  {
    var content := map["content" := JArr([JObj(map["type" := JStr("text"), "text" := r.text])])];
    if r.isError then JObj(content["isError" := JBool(true)]) else JObj(content)
  }

  /** A tool result together with the remote request made for it, if any. */
  datatype Invocation = Invocation(result: ToolResult, sent: Option<RemoteCall>)

  const DefaultPiHost := "192.168.25.225"
  const DefaultPiUser := "jstewartrr"
  const DefaultListPath := "~"

  /** The diagnostic command of `get_system_info`; the source's line continuations make it one line. */
  const SystemInfoCommand :=
    "echo '=== HOSTNAME ===' && hostname && "
    + "echo '=== UPTIME ===' && uptime && "
    + "echo '=== CPU ===' && sysctl -n machdep.cpu.brand_string && "
    + "echo '=== MEMORY ===' && vm_stat | head -5 && "
    + "echo '=== DISK ===' && df -h / && "
    + "echo '=== TOP PROCESSES ===' && ps aux | head -10"

  function Run(command: Json): RemoteCall {
    RemoteCall("/run", Post, Some(map["command" := command]))
  }

  function RunText(command: string): RemoteCall {
    Run(JStr(command))
  }

  /**
    The `read_file` command for `path` and the `lines` argument (None when absent):
    `tail` for a negative count, `head` for a positive one, `cat` when `lines` is
    absent or has a false truth value; `lines < 0` raises for a non-number.
   */
  function ReadFileCommand(fmt: Formatter, path: Json, lines: Json): (r: Result<string, PyException>)
    ensures r.Failure? <==> Truthy(lines) && !lines.JInt? && !lines.JBool?
    ensures !Truthy(lines) ==> r == Success("cat '" + Str(fmt, path) + "'")
    ensures lines.JInt? && lines.i < 0 ==>
              r == Success("tail -n " + NatToString(-lines.i) + " '" + Str(fmt, path) + "'")
    ensures lines.JInt? && lines.i > 0 ==>
              r == Success("head -n " + NatToString(lines.i) + " '" + Str(fmt, path) + "'")
    ensures lines == JBool(true) ==> r == Success("head -n " + "True" + " '" + Str(fmt, path) + "'")
    ensures r.Failure? ==>
              r.error == TypeError("'<' not supported between instances of '" + TypeName(lines) + "' and 'int'")
  {
    var p := Str(fmt, path);
    if !Truthy(lines) then Success("cat '" + p + "'")
    else if lines.JInt? && lines.i < 0 then Success("tail -n " + IntToString(-lines.i) + " '" + p + "'")
    else if lines.JInt? || lines.JBool? then Success("head -n " + Str(fmt, lines) + " '" + p + "'")
    else Failure(TypeError("'<' not supported between instances of '" + TypeName(lines) + "' and 'int'"))
  }

  /** The `write_file` command: echo the escaped content, append with `>>` iff `append` is true. */
  function WriteFileCommand(fmt: Formatter, path: Json, content: string, append: Json): string {
    "echo '" + Shell.Escape(content) + "' " + (if Truthy(append) then ">>" else ">") + " '" + Str(fmt, path) + "'"
  }

  /** `run_command`: post the `command` argument to `/run`. */
  function PlanRunCommand(args: Json): (p: Plan)
    ensures !p.UnknownTool?
    ensures p.Send? <==> args.JObj? && "command" in args.fields
    ensures p.Send? ==> p == Send(RemoteCall("/run", Post, Some(map["command" := args.fields["command"]])), Dump)
    ensures args.JObj? && "command" !in args.fields ==> p == Abort(KeyError("command"))
  {
    match Subscript(args, "command")
    case Failure(e) => Abort(e)
    case Success(command) => Send(Run(command), Dump)
  }

  /** `ssh_to_pi`: post `command`, `host` and `user` to `/ssh`, with the default Pi host and user. */
  function PlanSsh(args: Json): (p: Plan)
    ensures !p.UnknownTool?
    ensures p.Send? <==> args.JObj? && "command" in args.fields
    ensures p.Send? ==> p.call.endpoint == "/ssh" && p.call.verb == Post && p.reading == Dump
    ensures p.Send? ==> p.call.data.Some? && p.call.data.value.Keys == {"command", "host", "user"}
    ensures args.JObj? && "command" !in args.fields ==> p == Abort(KeyError("command"))
  {
    match Subscript(args, "command")
    case Failure(e) => Abort(e)
    case Success(command) =>
      var data := map[
        "command" := command,
        "host" := Lookup(args.fields, "host", JStr(DefaultPiHost)),
        "user" := Lookup(args.fields, "user", JStr(DefaultPiUser))];
      Send(RemoteCall("/ssh", Post, Some(data)), Dump)
  }

  /** `list_files`: run `ls -la <path>`, the path unquoted and `~` by default. */
  function PlanListFiles(fmt: Formatter, args: Json): (p: Plan)
    ensures !p.UnknownTool?
    ensures p.Send? <==> args.JObj?
    ensures p.Send? ==> p.reading == Fallback && p.call.endpoint == "/run"
    ensures !args.JObj? ==> p == Abort(AttributeError(TypeName(args), "get"))
  {
    if !args.JObj? then Abort(AttributeError(TypeName(args), "get"))
    else
      var path := Lookup(args.fields, "path", JStr(DefaultListPath));
      Send(RunText("ls -la " + Str(fmt, path)), Fallback)
  }

  /** `read_file`: run the `cat`/`head`/`tail` command for `path` and `lines`. */
  function PlanReadFile(fmt: Formatter, args: Json): (p: Plan)
    ensures !p.UnknownTool?
    ensures p.Send? <==>
              && args.JObj? && "path" in args.fields
              && ReadFileCommand(fmt, args.fields["path"], Lookup(args.fields, "lines", JNull)).Success?
    ensures p.Send? ==>
              p == Send(RunText(ReadFileCommand(fmt, args.fields["path"], Lookup(args.fields, "lines", JNull)).value),
                        Fallback)
    ensures args.JObj? && "path" !in args.fields ==> p == Abort(KeyError("path"))
  {
    match Subscript(args, "path")
    case Failure(e) => Abort(e)
    case Success(path) =>
      match ReadFileCommand(fmt, path, Lookup(args.fields, "lines", JNull))
      case Failure(e) => Abort(e)
      case Success(command) => Send(RunText(command), Fallback)
  }

  /** `write_file`: run the echo command; only a string content can be escaped. */
  function PlanWriteFile(fmt: Formatter, args: Json): (p: Plan)
    ensures !p.UnknownTool?
    ensures p.Send? <==>
              args.JObj? && "path" in args.fields && "content" in args.fields && args.fields["content"].JStr?
    ensures p.Send? ==> p.call.endpoint == "/run" && p.reading == WriteStatus(Str(fmt, args.fields["path"]))
    ensures args.JObj? && "path" !in args.fields ==> p == Abort(KeyError("path"))
    ensures args.JObj? && "path" in args.fields && "content" !in args.fields ==> p == Abort(KeyError("content"))
  {
    match Subscript(args, "path")
    case Failure(e) => Abort(e)
    case Success(path) =>
      match Subscript(args, "content")
      case Failure(e) => Abort(e)
      case Success(content) =>
        var append := Lookup(args.fields, "append", JBool(false));
        if !content.JStr? then Abort(AttributeError(TypeName(content), "replace"))
        else Send(RunText(WriteFileCommand(fmt, path, content.s, append)), WriteStatus(Str(fmt, path)))
  }

  /** Translates a tool call into the request to send, or the reason none is sent. */
  function PlanCall(fmt: Formatter, name: Json, args: Json): Plan {
    if name == JStr("run_command") then PlanRunCommand(args)
    else if name == JStr("ssh_to_pi") then PlanSsh(args)
    else if name == JStr("health_check") then Send(RemoteCall("/health", Get, None), Dump)
    else if name == JStr("list_files") then PlanListFiles(fmt, args)
    else if name == JStr("read_file") then PlanReadFile(fmt, args)
    else if name == JStr("write_file") then PlanWriteFile(fmt, args)
    else if name == JStr("get_system_info") then Send(RunText(SystemInfoCommand), Fallback)
    else UnknownTool
  }

  /** Python's `result.get("returncode", 1) == 0`; `False == 0` holds in Python. */
  predicate ReturnCodeIsZero(reply: map<string, Json>) {
    var code := Lookup(reply, "returncode", JInt(1));
    code == JInt(0) || code == JBool(false)
  }

  function ErrorResult(message: string): ToolResult {
    ToolResult(JStr("Error: " + message), true)
  }

  /**
    `stdout` if the reply has it, else `error`, else `str(reply)`; a reply that
    is not a JSON object has no `get`, which raises.
   */
  function FallbackText(fmt: Formatter, reply: Json): (r: Result<Json, PyException>)
    ensures r.Failure? <==> !reply.JObj?
    ensures reply.JObj? && "stdout" in reply.fields ==> r == Success(reply.fields["stdout"])
    ensures reply.JObj? && "stdout" !in reply.fields && "error" in reply.fields ==>
              r == Success(reply.fields["error"])
    ensures reply.JObj? && "stdout" !in reply.fields && "error" !in reply.fields ==>
              r == Success(JStr(fmt.repr(reply)))
  {
    match reply
    case JObj(m) => Success(Lookup(m, "stdout", Lookup(m, "error", JStr(Str(fmt, reply)))))
    case _ => Failure(AttributeError(TypeName(reply), "get"))
  }

  /**
    Turns the remote outcome into the tool result. The result is an error exactly
    when the remote call raised, when a reply that must be read by key is not an
    object, or when a write reports a return code other than 0.
   */
  function Interpret(fmt: Formatter, reading: Reading, outcome: RemoteOutcome): (r: ToolResult)
    ensures r.isError <==>
              || outcome.Failed?
              || (!reading.Dump? && !outcome.body.JObj?)
              || (reading.WriteStatus? && !ReturnCodeIsZero(outcome.body.fields))
    ensures r.isError ==> r.text.JStr? && |r.text.s| >= 7 && r.text.s[..7] == "Error: "
    ensures outcome.Failed? ==> r == ErrorResult(outcome.message)
    ensures outcome.Reply? && reading.Dump? ==> r == ToolResult(JStr(fmt.dumps(outcome.body)), false)
    ensures outcome.Reply? && reading.WriteStatus? && !r.isError ==>
              r.text == JStr("Successfully wrote to " + reading.target)
    ensures outcome.Reply? && reading.WriteStatus? && outcome.body.JObj? && r.isError ==>
              var m := outcome.body.fields;
              r == ErrorResult(if "stderr" in m then Str(fmt, m["stderr"]) else fmt.repr(outcome.body))
  {
    match outcome
    case Failed(message) => ErrorResult(message)
    case Reply(body) =>
      match reading
      case Dump => ToolResult(JStr(fmt.dumps(body)), false)
      case Fallback =>
        (match FallbackText(fmt, body)
         case Success(text) => ToolResult(text, false)
         case Failure(e) => ErrorResult(Message(e)))
      case WriteStatus(target) =>
        if !body.JObj? then ErrorResult(Message(AttributeError(TypeName(body), "get")))
        else if ReturnCodeIsZero(body.fields) then ToolResult(JStr("Successfully wrote to " + target), false)
        else ErrorResult(Str(fmt, Lookup(body.fields, "stderr", JStr(Str(fmt, body)))))
  }

  /** `handle_tool_call` with the remote endpoint given as `remote`. */
  function HandleToolCall(fmt: Formatter, name: Json, args: Json, remote: RemoteCall -> RemoteOutcome): (r: Invocation)
    ensures PlanCall(fmt, name, args).Send? <==> r.sent.Some?
    ensures r.sent.Some? ==> r.sent.value == PlanCall(fmt, name, args).call
    ensures PlanCall(fmt, name, args).UnknownTool? ==>
              r.result == ToolResult(JStr("Unknown tool: " + Str(fmt, name)), true)
    ensures PlanCall(fmt, name, args).Abort? ==>
              r.result == ErrorResult(Message(PlanCall(fmt, name, args).error))
    ensures r.sent.Some? ==> r.result == Interpret(fmt, PlanCall(fmt, name, args).reading, remote(r.sent.value))
    ensures r.sent.Some? ==> name.JStr? && name.s in Catalogue.Names()
    ensures r.sent.None? ==> r.result.isError
  {
    DispatchMatchesCatalogue(fmt, name, args);
    match PlanCall(fmt, name, args)
    case UnknownTool => Invocation(ToolResult(JStr("Unknown tool: " + Str(fmt, name)), true), None)
    case Abort(e) => Invocation(ErrorResult(Message(e)), None)
    case Send(call, reading) => Invocation(Interpret(fmt, reading, remote(call)), Some(call))
  }

  /** Each catalogue name selects its own translation. */
  lemma SelectsRunCommand(fmt: Formatter, args: Json)
    ensures PlanCall(fmt, JStr("run_command"), args) == PlanRunCommand(args)
  {
  }

  lemma SelectsSsh(fmt: Formatter, args: Json)
    ensures PlanCall(fmt, JStr("ssh_to_pi"), args) == PlanSsh(args)
  {
  }

  lemma SelectsListFiles(fmt: Formatter, args: Json)
    ensures PlanCall(fmt, JStr("list_files"), args) == PlanListFiles(fmt, args)
  {
  }

  lemma SelectsReadFile(fmt: Formatter, args: Json)
    ensures PlanCall(fmt, JStr("read_file"), args) == PlanReadFile(fmt, args)
  {
  }

  lemma SelectsWriteFile(fmt: Formatter, args: Json)
    ensures PlanCall(fmt, JStr("write_file"), args) == PlanWriteFile(fmt, args)
  {
  }

  lemma SelectsHealthCheck(fmt: Formatter, args: Json)
    ensures PlanCall(fmt, JStr("health_check"), args) == Send(RemoteCall("/health", Get, None), Dump)
  {
  }

  lemma SelectsSystemInfo(fmt: Formatter, args: Json)
    ensures PlanCall(fmt, JStr("get_system_info"), args) == Send(RunText(SystemInfoCommand), Fallback)
  {
  }

  /**
    Where each tool's request goes and how its reply is read: `ssh_to_pi` posts to
    `/ssh`, `health_check` is the only GET (to `/health`, without a body), every
    other tool posts a `command` to `/run`; the reply is pretty-printed exactly for
    `run_command`, `ssh_to_pi` and `health_check`, and checked for a return code
    exactly for `write_file`.
   */
  lemma PlanCallShape(fmt: Formatter, name: Json, args: Json)
    requires PlanCall(fmt, name, args).Send?
    ensures var c := PlanCall(fmt, name, args).call;
            var reading := PlanCall(fmt, name, args).reading;
            && (c.endpoint == "/ssh" <==> name == JStr("ssh_to_pi"))
            && (c.endpoint == "/health" <==> name == JStr("health_check"))
            && (c.endpoint != "/ssh" && c.endpoint != "/health" ==> c.endpoint == "/run")
            && (c.verb == Get <==> c.endpoint == "/health")
            && (c.verb == Get <==> c.data.None?)
            && (c.data.Some? ==> "command" in c.data.value)
            && (reading.Dump? <==> name in [JStr("run_command"), JStr("ssh_to_pi"), JStr("health_check")])
            && (reading.WriteStatus? <==> name == JStr("write_file"))
  {
    if name == JStr("run_command") {
      SelectsRunCommand(fmt, args);
    } else if name == JStr("ssh_to_pi") {
      SelectsSsh(fmt, args);
    } else if name == JStr("health_check") {
      SelectsHealthCheck(fmt, args);
    } else if name == JStr("list_files") {
      SelectsListFiles(fmt, args);
    } else if name == JStr("read_file") {
      SelectsReadFile(fmt, args);
    } else if name == JStr("write_file") {
      SelectsWriteFile(fmt, args);
    } else {
      DispatchMatchesCatalogue(fmt, name, args);
      Catalogue.NamesInOrder();
      assert name == JStr("get_system_info");
      SelectsSystemInfo(fmt, args);
    }
  }

  /** A tool call is translated into a request exactly when its name is one the catalogue lists. */
  lemma DispatchMatchesCatalogue(fmt: Formatter, name: Json, args: Json)
    ensures PlanCall(fmt, name, args).UnknownTool? <==> !(name.JStr? && name.s in Catalogue.Names())
  {
    Catalogue.NamesInOrder();
    var ns := Catalogue.Names();
    if name == JStr("run_command") {
      assert name.s == ns[0];
    } else if name == JStr("ssh_to_pi") {
      assert name.s == ns[1];
    } else if name == JStr("health_check") {
      assert name.s == ns[2];
    } else if name == JStr("list_files") {
      assert name.s == ns[3];
    } else if name == JStr("read_file") {
      assert name.s == ns[4];
    } else if name == JStr("write_file") {
      assert name.s == ns[5];
    } else if name == JStr("get_system_info") {
      assert name.s == ns[6];
    } else {
      assert PlanCall(fmt, name, args) == UnknownTool;
    }
  }

  /**
    An unlisted tool name (a missing name arrives as "") yields the error
    "Unknown tool: <name>" and no remote request: the result is the same whatever
    the endpoint would answer.
   */
  lemma UnknownToolSendsNothing(fmt: Formatter, name: Json, args: Json, remote: RemoteCall -> RemoteOutcome,
                                other: RemoteCall -> RemoteOutcome)
    requires !(name.JStr? && name.s in Catalogue.Names())
    ensures HandleToolCall(fmt, name, args, remote).sent == None
    ensures HandleToolCall(fmt, name, args, remote).result == ToolResult(JStr("Unknown tool: " + Str(fmt, name)), true)
    ensures HandleToolCall(fmt, name, args, remote) == HandleToolCall(fmt, name, args, other)
  {
    DispatchMatchesCatalogue(fmt, name, args);
  }

  /** Without `command`, `run_command` and `ssh_to_pi` raise `KeyError('command')`. */
  lemma CommandRequired(fmt: Formatter, args: map<string, Json>)
    requires "command" !in args
    ensures PlanCall(fmt, JStr("run_command"), JObj(args)) == Abort(KeyError("command"))
    ensures PlanCall(fmt, JStr("ssh_to_pi"), JObj(args)) == Abort(KeyError("command"))
  {
    SelectsRunCommand(fmt, JObj(args));
    SelectsSsh(fmt, JObj(args));
  }

  /** Without `path`, `read_file` and `write_file` raise `KeyError('path')`. */
  lemma PathRequired(fmt: Formatter, args: map<string, Json>)
    requires "path" !in args
    ensures PlanCall(fmt, JStr("read_file"), JObj(args)) == Abort(KeyError("path"))
    ensures PlanCall(fmt, JStr("write_file"), JObj(args)) == Abort(KeyError("path"))
  {
    SelectsReadFile(fmt, JObj(args));
    SelectsWriteFile(fmt, JObj(args));
  }

  /** With a `path` but no `content`, `write_file` raises `KeyError('content')`. */
  lemma ContentRequired(fmt: Formatter, args: map<string, Json>)
    requires "path" in args && "content" !in args
    ensures PlanCall(fmt, JStr("write_file"), JObj(args)) == Abort(KeyError("content"))
  {
    SelectsWriteFile(fmt, JObj(args));
  }

  /**
    For a catalogue tool called with an argument object that lacks a required
    argument, the first missing one in schema order is reported as a `KeyError`
    ("Error: '<key>'") before any remote request.
   */
  lemma MissingRequiredArgument(fmt: Formatter, t: Catalogue.ToolDescriptor, args: map<string, Json>,
                                remote: RemoteCall -> RemoteOutcome)
    requires t in Catalogue.Tools()
    requires Catalogue.FirstMissing(t.required, args).Some?
    ensures var key := Catalogue.FirstMissing(t.required, args).value;
            && PlanCall(fmt, JStr(t.name), JObj(args)) == Abort(KeyError(key))
            && HandleToolCall(fmt, JStr(t.name), JObj(args), remote)
               == Invocation(ToolResult(JStr("Error: '" + key + "'"), true), None)
  {
    var key := Catalogue.FirstMissing(t.required, args).value;
    if t == Catalogue.RunCommandTool || t == Catalogue.SshToPiTool {
      assert t.required == ["command"] && key == "command";
      CommandRequired(fmt, args);
    } else if t == Catalogue.ReadFileTool {
      assert t.required == ["path"] && key == "path";
      PathRequired(fmt, args);
    } else if t == Catalogue.WriteFileTool {
      assert t.required == ["path", "content"];
      if "path" in args {
        assert key == "content";
        ContentRequired(fmt, args);
      } else {
        assert key == "path";
        PathRequired(fmt, args);
      }
    } else {
      assert false;
    }
    assert "Error: " + ("'" + key + "'") == "Error: '" + key + "'";
  }

  /** `read_file` with a `path` and an integer or absent `lines` is sent. */
  lemma ReadFileSent(fmt: Formatter, args: map<string, Json>)
    requires "path" in args
    requires "lines" in args ==> args["lines"].JInt?
    ensures PlanCall(fmt, JStr("read_file"), JObj(args)).Send?
  {
    SelectsReadFile(fmt, JObj(args));
    var lines := Lookup(args, "lines", JNull);
    assert lines.JNull? || lines.JInt?;
  }

  /** `write_file` with a `path` and a string `content` is sent. */
  lemma WriteFileSent(fmt: Formatter, args: map<string, Json>)
    requires "path" in args && "content" in args && args["content"].JStr?
    ensures PlanCall(fmt, JStr("write_file"), JObj(args)).Send?
  {
    SelectsWriteFile(fmt, JObj(args));
  }

  /** `run_command` and `ssh_to_pi` with a `command` are sent. */
  lemma CommandSent(fmt: Formatter, args: map<string, Json>)
    requires "command" in args
    ensures PlanCall(fmt, JStr("run_command"), JObj(args)).Send?
    ensures PlanCall(fmt, JStr("ssh_to_pi"), JObj(args)).Send?
  {
    SelectsRunCommand(fmt, JObj(args));
    SelectsSsh(fmt, JObj(args));
  }

  /** The tools without required arguments are sent for any argument object. */
  lemma OptionalArgumentsSent(fmt: Formatter, args: map<string, Json>)
    ensures PlanCall(fmt, JStr("health_check"), JObj(args)).Send?
    ensures PlanCall(fmt, JStr("list_files"), JObj(args)).Send?
    ensures PlanCall(fmt, JStr("get_system_info"), JObj(args)).Send?
  {
    SelectsListFiles(fmt, JObj(args));
  }

  /** A catalogue tool called with arguments that meet its input schema always reaches the endpoint. */
  lemma ConformingArgumentsAreSent(fmt: Formatter, t: Catalogue.ToolDescriptor, args: map<string, Json>)
    requires t in Catalogue.Tools()
    requires Catalogue.Conforms(t, args)
    ensures PlanCall(fmt, JStr(t.name), JObj(args)).Send?
  {
    if t == Catalogue.ReadFileTool {
      assert t.required[0] == "path";
      assert t.properties[1] == Catalogue.Property("lines", "integer", t.properties[1].description);
      ReadFileSent(fmt, args);
    } else if t == Catalogue.WriteFileTool {
      assert t.required[0] == "path" && t.required[1] == "content";
      assert t.properties[1] == Catalogue.Property("content", "string", t.properties[1].description);
      WriteFileSent(fmt, args);
    } else if t == Catalogue.RunCommandTool || t == Catalogue.SshToPiTool {
      assert t.required[0] == "command";
      CommandSent(fmt, args);
    } else {
      OptionalArgumentsSent(fmt, args);
    }
  }

  /**
    The `write_file` command echoes a single-quoted word that the shell reads back
    as exactly the content, then redirects with `>>` when appending and `>`
    otherwise.
   */
  lemma WriteFileQuotesContent(fmt: Formatter, path: Json, content: string, append: Json)
    ensures var word := "'" + Shell.Escape(content) + "'";
            && Shell.Unquoted(word) == Some(content)
            && WriteFileCommand(fmt, path, content, append)
               == "echo " + word + " " + (if Truthy(append) then ">>" else ">") + " '" + Str(fmt, path) + "'"
  {
    Shell.SingleQuotedRoundTrip(content);
  }

  /**
    `write_file` sends its command to `/run` and succeeds exactly when the reply
    is an object whose `returncode` is 0 (absent counts as 1); on success the text
    is "Successfully wrote to <path>", otherwise it is "Error: " followed by
    `stderr`, or by the whole reply when `stderr` is absent.
   */
  lemma WriteFileOutcome(fmt: Formatter, path: string, content: string, append: Json,
                         reply: map<string, Json>, remote: RemoteCall -> RemoteOutcome)
    requires remote(RunText(WriteFileCommand(fmt, JStr(path), content, append))) == Reply(JObj(reply))
    ensures var args := map["path" := JStr(path), "content" := JStr(content), "append" := append];
            var inv := HandleToolCall(fmt, JStr("write_file"), JObj(args), remote);
            && inv.sent == Some(RunText(WriteFileCommand(fmt, JStr(path), content, append)))
            && (inv.result.isError <==> !ReturnCodeIsZero(reply))
            && (!inv.result.isError ==> inv.result.text == JStr("Successfully wrote to " + path))
            && (inv.result.isError ==>
                  inv.result.text == JStr("Error: " + if "stderr" in reply then Str(fmt, reply["stderr"])
                                                      else fmt.repr(JObj(reply))))
  {
  }

  /**
    `list_files`, `read_file` and `get_system_info` never report an error for a
    reply that is a JSON object: the text is `stdout`, else `error`, else the
    whole reply as text.
   */
  lemma FallbackToolsSucceed(fmt: Formatter, name: Json, args: Json, remote: RemoteCall -> RemoteOutcome)
    requires name in [JStr("list_files"), JStr("read_file"), JStr("get_system_info")]
    requires PlanCall(fmt, name, args).Send?
    requires remote(PlanCall(fmt, name, args).call).Reply?
    requires remote(PlanCall(fmt, name, args).call).body.JObj?
    ensures var inv := HandleToolCall(fmt, name, args, remote);
            var m := remote(PlanCall(fmt, name, args).call).body.fields;
            && !inv.result.isError
            && inv.result.text == (if "stdout" in m then m["stdout"]
                                   else if "error" in m then m["error"]
                                   else JStr(fmt.repr(JObj(m))))
  {
    PlanCallShape(fmt, name, args);
  }

  /**
    `run_command`, `ssh_to_pi` and `health_check` show any reply pretty-printed and
    never flag it as an error, whatever return code it reports.
   */
  lemma DumpToolsNeverFlagReplies(fmt: Formatter, name: Json, args: Json, remote: RemoteCall -> RemoteOutcome)
    requires name in [JStr("run_command"), JStr("ssh_to_pi"), JStr("health_check")]
    requires PlanCall(fmt, name, args).Send?
    requires remote(PlanCall(fmt, name, args).call).Reply?
    ensures var inv := HandleToolCall(fmt, name, args, remote);
            inv.result == ToolResult(JStr(fmt.dumps(remote(PlanCall(fmt, name, args).call).body)), false)
  {
    PlanCallShape(fmt, name, args);
  }

  /** A failed remote call becomes "Error: <message>" with `isError` set. */
  lemma RemoteFailureIsReported(fmt: Formatter, name: Json, args: Json, remote: RemoteCall -> RemoteOutcome)
    requires PlanCall(fmt, name, args).Send?
    requires remote(PlanCall(fmt, name, args).call).Failed?
    ensures HandleToolCall(fmt, name, args, remote).result
            == ToolResult(JStr("Error: " + remote(PlanCall(fmt, name, args).call).message), true)
  {
  }

  /**
    `ssh_to_pi` posts the command to `/ssh` with the given host and user, or the
    default Pi host and user for whichever is absent.
   */
  lemma SshDefaults(fmt: Formatter, args: map<string, Json>)
    requires "command" in args
    ensures PlanCall(fmt, JStr("ssh_to_pi"), JObj(args))
            == Send(RemoteCall("/ssh", Post, Some(map[
                 "command" := args["command"],
                 "host" := if "host" in args then args["host"] else JStr("192.168.25.225"),
                 "user" := if "user" in args then args["user"] else JStr("jstewartrr")])), Dump)
  {
    SelectsSsh(fmt, JObj(args));
  }

  /** `list_files` lists the given path, unquoted, or the home directory `~` when none is given. */
  lemma ListFilesDefault(fmt: Formatter, args: map<string, Json>)
    ensures PlanCall(fmt, JStr("list_files"), JObj(args))
            == Send(RunText("ls -la " + if "path" in args then Str(fmt, args["path"]) else "~"), Fallback)
  {
    SelectsListFiles(fmt, JObj(args));
    assert Str(fmt, JStr(DefaultListPath)) == "~";
  }

  /** `read_file` with `lines` of -5 tails the file. */
  lemma ReadFileTailExample(fmt: Formatter)
    ensures PlanCall(fmt, JStr("read_file"), JObj(map["path" := JStr("/tmp/x"), "lines" := JInt(-5)]))
            == Send(RunText("tail -n 5 '/tmp/x'"), Fallback)
  {
    assert NatToString(5) == "5";
    assert "tail -n " + "5" + " '" + "/tmp/x" + "'" == "tail -n 5 '/tmp/x'";
    assert ReadFileCommand(fmt, JStr("/tmp/x"), JInt(-5)) == Success("tail -n 5 '/tmp/x'");
  }

  /** `read_file` with `lines` of 5 heads the file. */
  lemma ReadFileHeadExample(fmt: Formatter)
    ensures PlanCall(fmt, JStr("read_file"), JObj(map["path" := JStr("/tmp/x"), "lines" := JInt(5)]))
            == Send(RunText("head -n 5 '/tmp/x'"), Fallback)
  {
    assert NatToString(5) == "5";
    assert "head -n " + "5" + " '" + "/tmp/x" + "'" == "head -n 5 '/tmp/x'";
    assert ReadFileCommand(fmt, JStr("/tmp/x"), JInt(5)) == Success("head -n 5 '/tmp/x'");
  }

  lemma EscapeExample()
    ensures Shell.Escape("it" + "'" + "s ok") == "it" + "'\\''" + "s ok"
  {
    Shell.EscapeWithoutQuotes("it");
    Shell.EscapeWithoutQuotes("s ok");
    Shell.EscapeAppend("it", "'");
    Shell.EscapeAppend("it" + "'", "s ok");
    assert Shell.Escape("'") == "'\\''" by { Shell.EscapeCons('\'', []); }
  }

  lemma WriteCommandExample(fmt: Formatter)
    ensures WriteFileCommand(fmt, JStr("/tmp/x"), "it" + "'" + "s ok", JBool(false))
            == "echo '" + "it" + "'\\''" + "s ok" + "' > '/tmp/x'"
  {
    EscapeExample();
    assert "' " + ">" + " '" + "/tmp/x" + "'" == "' > '/tmp/x'";
  }

  /** `write_file` of "it's ok" escapes the quote and overwrites. */
  lemma WriteFileExample(fmt: Formatter)
    ensures PlanCall(fmt, JStr("write_file"), JObj(map["path" := JStr("/tmp/x"), "content" := JStr("it" + "'" + "s ok")]))
            == Send(RunText("echo '" + "it" + "'\\''" + "s ok" + "' > '/tmp/x'"), WriteStatus("/tmp/x"))
  {
    var args := map["path" := JStr("/tmp/x"), "content" := JStr("it" + "'" + "s ok")];
    assert "append" !in args;
    SelectsWriteFile(fmt, JObj(args));
    WriteCommandExample(fmt);
  }

  /**
    `read_file` with an integer or absent `lines` runs `cat` when it is absent or
    0, `tail` when negative and `head` when positive; the count in the command
    reads back as the absolute value of `lines`.
   */
  lemma ReadFileRequest(fmt: Formatter, args: map<string, Json>)
    requires "path" in args
    requires var lines := Lookup(args, "lines", JNull); lines.JNull? || lines.JInt?
    ensures var path := Str(fmt, args["path"]);
            var lines := Lookup(args, "lines", JNull);
            var count := if lines.JInt? && lines.i < 0 then -lines.i else if lines.JInt? then lines.i else 0;
            && ParseDigits(NatToString(count)) == count
            && PlanCall(fmt, JStr("read_file"), JObj(args))
               == Send(RunText(if count == 0 then "cat '" + path + "'"
                               else (if lines.i < 0 then "tail" else "head") + " -n " + NatToString(count) + " '" + path + "'"),
                       Fallback)
  {
    var lines := Lookup(args, "lines", JNull);
    var count := if lines.JInt? && lines.i < 0 then -lines.i else if lines.JInt? then lines.i else 0;
    ParseNatToString(count);
    var path := Str(fmt, args["path"]);
    SelectsReadFile(fmt, JObj(args));
    assert "tail" + " -n " == "tail -n " && "head" + " -n " == "head -n ";
  }

  /**
    `write_file` with a path and a string content echoes the escaped content,
    redirected with `>>` when `append` is given and truthy and with `>` otherwise
    (in particular when `append` is absent), and reports on the path as text.
   */
  lemma WriteFileRequest(fmt: Formatter, args: map<string, Json>)
    requires "path" in args && "content" in args && args["content"].JStr?
    ensures var path := Str(fmt, args["path"]);
            var op := if "append" in args && Truthy(args["append"]) then ">>" else ">";
            PlanCall(fmt, JStr("write_file"), JObj(args))
            == Send(RunText("echo '" + Shell.Escape(args["content"].s) + "' " + op + " '" + path + "'"),
                    WriteStatus(path))
  {
    SelectsWriteFile(fmt, JObj(args));
    var append := Lookup(args, "append", JBool(false));
    assert Truthy(append) <==> "append" in args && Truthy(args["append"]);
  }
}
