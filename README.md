# Mac Studio MCP server: a Dafny model of its core

The server speaks the Model Context Protocol (JSON-RPC 2.0) for a chat client. It
does not run tools itself. It translates each tool call into one HTTP request to a
remote execution endpoint (a Mac reached through a Tailscale Funnel) and turns the
endpoint's JSON reply into a text result.

This project models three parts of `app.py`:

- the tool catalogue `TOOLS`;
- the tool translator `handle_tool_call`;
- the JSON-RPC dispatcher `process_mcp_message`.

All three are pure code, so the model is made of datatypes, functions and lemmas.

The modules are:

- `Wrappers`: `Option` and `Result`.
- `Json`: JSON values and the parts of Python the core relies on. These are
  truthiness, `str()`, `dict.get`, subscripting and the texts of the exceptions
  it can raise. Decimal rendering of integers is included and proved to read back.
- `Shell`: the single-quote escaping used by `write_file`. It also has a reader
  for one POSIX shell word (section 2.2 of the POSIX Shell Command Language), used
  to prove that escaped content reads back unchanged.
- `Catalogue`: the seven tool descriptors and their input schemas.
- `Invoker`: `handle_tool_call`. Each call is first translated into a `Plan`:
  an unknown tool, an exception raised before anything is sent, or a request to
  send. Then `Interpret` turns the endpoint's outcome into the tool result.
- `Dispatcher`: `process_mcp_message` and the JSON shape of its responses.

The remote endpoint is the parameter `remote: RemoteCall -> RemoteOutcome`. An
outcome is either a decoded JSON reply or the text of the exception the call
raised. `HandleToolCall` also returns the request it made, if any. So "nothing is
sent" is stated as `sent == None`.

`json.dumps(..., indent=2)` and Python's `str()` of a dict or list are the two
function fields of `Formatter`. The model does not fix their output; results
are stated in terms of them.

The source behaves as follows in places a reader might not expect:

- `isError` is set only for an unknown tool, a raised exception, and a
  `write_file` whose reply has a non-zero `returncode` (`app.py:199-201`).
  `run_command`, `ssh_to_pi` and `health_check` return any reply unflagged, even
  one with a non-zero return code. `list_files`, `read_file` and `get_system_info`
  also return their text unflagged.
- The `get_system_info` command ends each source line with a backslash inside the
  string literal (`app.py:204-209`). Python reads that as a line continuation, so
  the command is one line of `&&`-joined steps.
- In Python `False == 0` holds. A `write_file` reply whose `returncode` is `false`
  therefore counts as success.

## Model

| member | source | states |
|---|---|---|
| Catalogue.NamesInOrder | app.py:19-128 | the catalogue lists exactly seven tools, in the order run_command, ssh_to_pi, health_check, list_files, read_file, write_file, get_system_info |
| Catalogue.NamesDistinct | app.py:19-128 | no two tools share a name, so a name identifies one descriptor |
| Catalogue.SchemasWellFormed | app.py:19-128 | in each descriptor the property names are distinct and every required argument is a declared property |
| Catalogue.FirstMissing | app.py:188-190 | returns None exactly when every required argument is present; otherwise it returns the first required argument, in schema order, that is absent: every one listed before it is present |
| Catalogue.DescriptorJson | app.py:236-241 | a descriptor renders as an object with exactly the keys name, description and inputSchema, holding its name and description; inputSchema has exactly type "object", properties keyed by exactly the declared argument names, and required listing the required names in order |
| Catalogue.PropertiesJsonEntries | app.py:19-128 | when argument names are distinct, each argument's entry in the rendered properties object is its own type and description |
| Catalogue.SchemaEntries | app.py:236-241 | in every catalogue tool's rendered schema, each declared argument is listed with its own type and description |
| Catalogue.ToolSchemas | app.py:19-128 | the `TOOLS` entries require command for run_command and ssh_to_pi, path for read_file, path and content for write_file and nothing for the others; lines is an integer, append a boolean, every other argument a string |
| Json.Subscript | app.py:153 | `args[key]` succeeds exactly on an object that holds the key and yields its value; on an object without it, it raises KeyError(key) |
| Json.NatToString | app.py:180-182 | the decimal text of a count is non-empty and made of digits, with a leading 0 only for zero itself |
| Json.IntToStringRoundTrip | app.py:180-182 | `str()` of an int starts with a minus sign exactly when it is negative, and parses back to the same int |
| Json.ParseNatToString | app.py:180-182 | the count written into a head/tail command reads back as the same number |
| Shell.EscapeAppend | app.py:194 | escaping distributes over concatenation |
| Shell.EscapeWithoutQuotes | app.py:194 | text without a single quote is left unchanged by escaping |
| Shell.EscapeLength | app.py:194 | escaping adds exactly three characters per single quote |
| Shell.InQuotesEscape | app.py:194-196 | inside single quotes, escaped text is read back as the original text followed by whatever follows |
| Shell.SingleQuotedRoundTrip | app.py:194-196 | the word `'` + escaped content + `'` is read by a POSIX shell as exactly the content |
| Invoker.ToolResultJson | app.py:149-218 | a tool result renders as one text content item; the isError key is present, with value true, exactly when the flag is set |
| Invoker.PlanRunCommand | app.py:152-154 | run_command sends exactly when the arguments are an object holding command, and then posts just that command to /run with the reply dumped; without command it raises KeyError('command') |
| Invoker.PlanSsh | app.py:156-163 | ssh_to_pi sends exactly when the arguments are an object holding command, and then posts command, host and user to /ssh with the reply dumped; without command it raises KeyError('command') |
| Invoker.PlanListFiles | app.py:169-173 | list_files sends to /run for any argument object, its reply read as stdout, else error, else the whole reply; for a non-object it raises the AttributeError of `.get` |
| Invoker.PlanReadFile | app.py:175-186 | read_file sends exactly when the arguments hold a path and the lines value gives a command, and then runs that command; without path it raises KeyError('path') |
| Invoker.PlanWriteFile | app.py:188-197 | write_file sends exactly when the arguments hold a path and a string content, to /run, reporting on the path as text; a missing path or content raises KeyError for it |
| Invoker.PlanCallShape | app.py:151-211 | ssh_to_pi is the only tool that posts to /ssh and health_check the only GET (to /health, without a body); every other request posts a command to /run; the reply is dumped exactly for run_command, ssh_to_pi and health_check and checked for a return code exactly for write_file |
| Invoker.ReadFileCommand | app.py:176-184 | cat when lines is absent or falsy; tail with the absolute value when negative; head when positive, and `head -n True` for lines true; a truthy value that is neither int nor bool raises the TypeError that `<` raises between it and an int |
| Invoker.FallbackText | app.py:173 | the text is stdout if present, else error, else `str(reply)`; a reply that is not an object raises |
| Invoker.Interpret | app.py:152-218 | the result is an error exactly when the call raised, when a reply that is read by key is not an object, or when a write reports a return code other than 0; every error text starts with "Error: "; a dumped reply is never flagged |
| Invoker.HandleToolCall | app.py:149-218 | a request is sent only for a tool name listed in the catalogue, and when nothing is sent the result is always flagged as an error; an unknown tool gives "Unknown tool: <name>", an exception "Error: <message>", and a sent request's outcome is interpreted |
| Invoker.DispatchMatchesCatalogue | app.py:149-214 | a call is recognised exactly when its name is a string listed in the catalogue |
| Invoker.UnknownToolSendsNothing | app.py:213-214 | an unlisted name gives "Unknown tool: <name>" with isError set, sends nothing, and gives the same result whatever the endpoint would answer |
| Invoker.CommandRequired | app.py:152-163 | run_command and ssh_to_pi without a command raise KeyError('command') before sending |
| Invoker.PathRequired | app.py:175-190 | read_file and write_file without a path raise KeyError('path') before sending |
| Invoker.ContentRequired | app.py:189-190 | write_file with a path but no content raises KeyError('content') |
| Invoker.MissingRequiredArgument | app.py:151-218 | for any catalogue tool, an argument object lacking a required argument gives "Error: '<key>'" for the first missing one in schema order, flagged, and nothing is sent |
| Invoker.CommandSent | app.py:152-163 | run_command and ssh_to_pi with a command always send a request |
| Invoker.OptionalArgumentsSent | app.py:165-211 | health_check, list_files and get_system_info send a request for any argument object |
| Invoker.ReadFileSent | app.py:175-186 | read_file with a path and an integer or absent lines sends a request |
| Invoker.WriteFileSent | app.py:188-197 | write_file with a path and a string content sends a request |
| Invoker.ConformingArgumentsAreSent | app.py:149-211 | every catalogue tool called with arguments that meet its input schema reaches the endpoint |
| Invoker.WriteFileQuotesContent | app.py:193-196 | the command built by WriteFileCommand echoes a single-quoted word, escaped by Shell.Escape, that the shell reads back as the content, redirected with >> when append is truthy and > otherwise |
| Invoker.WriteFileOutcome | app.py:188-201 | write_file sends its command to /run; it succeeds exactly when ReturnCodeIsZero holds, that is when the reply's returncode equals 0 (absent counts as 1, false equals 0), with "Successfully wrote to <path>"; otherwise "Error: " then stderr, or the whole reply when stderr is absent |
| Invoker.FallbackToolsSucceed | app.py:169-211 | list_files, read_file and get_system_info never flag an object reply, and show stdout, else error, else the whole reply |
| Invoker.DumpToolsNeverFlagReplies | app.py:152-167 | run_command, ssh_to_pi and health_check show any reply pretty-printed and never flag it |
| Invoker.RemoteFailureIsReported | app.py:216-218 | a failed remote call gives "Error: <message>" with isError set |
| Invoker.SshDefaults | app.py:156-162 | for every argument map with a command, ssh_to_pi posts exactly command, host and user to /ssh, host and user taken from the arguments when present and 192.168.25.225 and jstewartrr otherwise |
| Invoker.ListFilesDefault | app.py:169-172 | for every argument map, list_files runs `ls -la` followed by the given path, or `~` when none is given |
| Invoker.ReadFileTailExample | app.py:178-180 | lines -5 on /tmp/x runs `tail -n 5 '/tmp/x'` |
| Invoker.ReadFileHeadExample | app.py:178-182 | lines 5 on /tmp/x runs `head -n 5 '/tmp/x'` |
| Invoker.ReadFileRequest | app.py:175-185 | for an integer or absent lines, read_file runs cat (absent or 0), tail (negative) or head (positive) on the quoted path, and the count in the command reads back as the absolute value of lines |
| Invoker.EscapeExample | app.py:194 | escaping "it's ok" replaces the quote by `'\''` |
| Invoker.WriteCommandExample | app.py:194-196 | writing "it's ok" to /tmp/x without append builds `echo 'it'\''s ok' > '/tmp/x'` |
| Invoker.WriteFileExample | app.py:188-197 | write_file of "it's ok" to /tmp/x sends that command and reports on /tmp/x |
| Invoker.WriteFileRequest | app.py:188-197 | for every argument map with a path and a string content, write_file echoes the escaped content with >> when append is present and truthy and > otherwise (so > when append is absent), and reports on the path |
| Dispatcher.ProcessMessage | app.py:220-261 | a non-object request, or tools/call with non-object params, raises an AttributeError; otherwise the id is echoed (1 by default), the body is an error exactly for an unknown method (code -32601, "Method not found: <method>"), only tools/call sends a request, and initialize, tools/list and notifications/initialized get their fixed results |
| Dispatcher.ToolsCallDelegates | app.py:243-251 | tools/call passes name (default "") and arguments (default {}) to the tool translator and wraps its result with the request id |
| Dispatcher.ToolsCallWithoutName | app.py:243-251 | tools/call without a name answers "Unknown tool: " flagged, and sends nothing |
| Dispatcher.ResponseJson | app.py:226-261 | a response renders with jsonrpc "2.0", the echoed id, and exactly one of result and error |
| Dispatcher.InitializeAnswer | app.py:225-234 | initialize answers, without sending anything, with exactly protocolVersion 2024-11-05, capabilities tools.listChanged true, and serverInfo name mac-studio-mcp, version 1.0.0 |
| Dispatcher.ToolsListNames | app.py:236-241 | tools/list answers with seven descriptors whose names are the catalogue names in order |
| Dispatcher.ResponseEnvelope | app.py:220-261 | every answered request carries jsonrpc "2.0", its id (1 when absent), exactly one of result and error, and error only for an unknown method, with code -32601 and the method in the message |

## Left out

- `call_mac` (`app.py:130-138`) is not modelled. Its HTTP client, the base URL from the environment, the 60-second timeout and the disabled TLS verification are replaced by the `remote` parameter. A transport failure or a body that is not JSON raises, and is a `Failed` outcome carrying the exception's text. An HTTP error status with a JSON body does not raise, because the status is never checked; it is an ordinary `Reply`.
- `run_async` (`app.py:140-147`) is not modelled: the event loop does not change any result.
- The Flask routes (`health`, the `/mcp` handler) are not part of this model. Their parse-error (-32700) and internal-error (-32603) answers, and the reachability classification of the health route, are not modelled. A `Processed.Escaped` outcome marks where an exception would reach that handler.
- Logging (`app.py:217`) has no effect on results and is left out.
- `json.dumps` and `str()` of dicts and lists are uninterpreted `Formatter` functions. Their exact text (indentation, key order, quoting) is not modelled.
- JSON numbers are integers only. Floats, and Python's `str()` of a float in a read_file `lines` argument, are not modelled.
- JSON objects are maps, so key order in requests and responses is not modelled.
- Exception texts follow CPython 3.12. Other versions word some TypeError messages differently.
- The shell reader covers one word built from plain characters, backslash escapes and single quotes. It does not model how the whole echo command runs, nor the unquoted `list_files` path (`app.py:171`), which the shell may split or expand.
- Json.Message: a KeyError's text is its key between single quotes. That is Python's `repr` of the key only for keys without a quote or backslash, which holds for the only keys the translator subscripts (command, path, content). The TypeError and AttributeError texts are given by the body alone.
