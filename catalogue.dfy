/** The static tool catalogue (`TOOLS`), returned verbatim by `tools/list`. */
module Catalogue {
  import opened Wrappers
  import opened Json

  /** One declared argument: its name, its JSON Schema type and its description. */
  datatype Property = Property(name: string, kind: string, description: string)

  /** A tool descriptor; its input schema is always of type "object". */
  datatype ToolDescriptor = ToolDescriptor(
    name: string,
    description: string,
    properties: seq<Property>,
    required: seq<string>)

  // Descriptions shown to the client, as the catalogue declares them.
  const RunCommandDescription := "Execute a shell command on Mac Studio. Returns stdout, stderr, and return code."
  const SshToPiDescription := "Execute a command on Raspberry Pi via SSH from Mac Studio"
  const HealthCheckDescription := "Check if Mac Studio is reachable and get system info"
  const ListFilesDescription := "List files in a directory on Mac Studio"
  const ReadFileDescription := "Read contents of a file on Mac Studio"
  const WriteFileDescription := "Write content to a file on Mac Studio"
  const GetSystemInfoDescription := "Get Mac Studio system information (CPU, memory, disk, processes)"
  const RunCommandCommandDescription := "Shell command to execute (e.g., 'ls -la', 'brew list', 'python3 script.py')"
  const SshToPiCommandDescription := "Command to run on the Pi"
  const SshToPiHostDescription := "Pi IP address (default: 192.168.25.225)"
  const SshToPiUserDescription := "SSH user (default: jstewartrr)"
  const ListFilesPathDescription := "Directory path (default: home directory)"
  const ReadFilePathDescription := "Full path to file"
  const ReadFileLinesDescription := "Number of lines to read (default: all). Use negative for tail."
  const WriteFilePathDescription := "Full path to file"
  const WriteFileContentDescription := "Content to write"
  const WriteFileAppendDescription := "Append instead of overwrite (default: false)"

  const RunCommandTool :=
    ToolDescriptor(
      "run_command",
      RunCommandDescription,
      [Property("command", "string", RunCommandCommandDescription)],
      ["command"])

  const SshToPiTool :=
    ToolDescriptor(
      "ssh_to_pi",
      SshToPiDescription,
      [ Property("command", "string", SshToPiCommandDescription),
        Property("host", "string", SshToPiHostDescription),
        Property("user", "string", SshToPiUserDescription)],
      ["command"])

  const HealthCheckTool :=
    ToolDescriptor(
      "health_check",
      HealthCheckDescription,
      [],
      [])

  const ListFilesTool :=
    ToolDescriptor(
      "list_files",
      ListFilesDescription,
      [Property("path", "string", ListFilesPathDescription)],
      [])

  const ReadFileTool :=
    ToolDescriptor(
      "read_file",
      ReadFileDescription,
      [ Property("path", "string", ReadFilePathDescription),
        Property("lines", "integer", ReadFileLinesDescription)],
      ["path"])

  const WriteFileTool :=
    ToolDescriptor(
      "write_file",
      WriteFileDescription,
      [ Property("path", "string", WriteFilePathDescription),
        Property("content", "string", WriteFileContentDescription),
        Property("append", "boolean", WriteFileAppendDescription)],
      ["path", "content"])

  const GetSystemInfoTool :=
    ToolDescriptor(
      "get_system_info",
      GetSystemInfoDescription,
      [],
      [])

  /** `TOOLS`: the catalogue in declared order. */
  function Tools(): seq<ToolDescriptor> {
    [RunCommandTool, SshToPiTool, HealthCheckTool, ListFilesTool,
     ReadFileTool, WriteFileTool, GetSystemInfoTool]
  }

  /** The tool names, in catalogue order. */
  function Names(): (ns: seq<string>)
    ensures |ns| == |Tools()|
    ensures forall i :: 0 <= i < |ns| ==> ns[i] == Tools()[i].name
  {
    NamesOf(Tools())
  }

  function NamesOf(ts: seq<ToolDescriptor>): (ns: seq<string>)
    ensures |ns| == |ts| && forall i :: 0 <= i < |ts| ==> ns[i] == ts[i].name
  {
    if ts == [] then [] else [ts[0].name] + NamesOf(ts[1..])
  }

  function PropertyNames(ps: seq<Property>): (ns: seq<string>)
    ensures |ns| == |ps| && forall i :: 0 <= i < |ps| ==> ns[i] == ps[i].name
  {
    if ps == [] then [] else [ps[0].name] + PropertyNames(ps[1..])
  }

  predicate Distinct(ns: seq<string>) {
    forall i, j :: 0 <= i < j < |ns| ==> ns[i] != ns[j]
  }

  /** The catalogue lists seven tools, in this order. */
  lemma NamesInOrder()
    ensures Names() == ["run_command", "ssh_to_pi", "health_check", "list_files",
                        "read_file", "write_file", "get_system_info"]
  {
  }

  /** Tool names are pairwise distinct, so a name identifies one descriptor. */
  lemma NamesDistinct()
    ensures Distinct(Names())
  {
    NamesInOrder();
    var ns := Names();
    assert ns[1] != ns[4] by { assert ns[1][0] != ns[4][0]; }
    assert ns[3] != ns[5] by { assert ns[3][0] != ns[5][0]; }
  }

  /**
    In every descriptor the argument names are distinct and each required
    argument is a declared one.
   */
  lemma SchemasWellFormed(t: ToolDescriptor)
    requires t in Tools()
    ensures Distinct(PropertyNames(t.properties))
    ensures forall r :: r in t.required ==> r in PropertyNames(t.properties)
  {
    if t == RunCommandTool {
      WellFormedSchema(t, ["command"]);
    } else if t == SshToPiTool {
      WellFormedSchema(t, ["command", "host", "user"]);
    } else if t == ListFilesTool {
      WellFormedSchema(t, ["path"]);
    } else if t == ReadFileTool {
      WellFormedSchema(t, ["path", "lines"]);
    } else if t == WriteFileTool {
      WellFormedSchema(t, ["path", "content", "append"]);
    } else {
      WellFormedSchema(t, []);
    }
  }

  /**
    A descriptor whose argument names `ns` start with pairwise different letters
    has distinct argument names, and is well formed when it requires only those.
   */
  lemma WellFormedSchema(t: ToolDescriptor, ns: seq<string>)
    requires PropertyNames(t.properties) == ns
    requires forall i, j :: 0 <= i < j < |ns| ==> ns[i] != [] && ns[j] != [] && ns[i][0] != ns[j][0]
    requires forall r :: r in t.required ==> r in ns
    ensures Distinct(PropertyNames(t.properties))
    ensures forall r :: r in t.required ==> r in PropertyNames(t.properties)
  {
    forall i, j | 0 <= i < j < |ns|
      ensures ns[i] != ns[j]
    {
      assert ns[i][0] != ns[j][0];
    }
  }

  /**
    What each catalogue tool demands: `command` for `run_command` and `ssh_to_pi`,
    `path` for `read_file`, `path` and `content` for `write_file`, nothing for the
    rest; `lines` is an integer, `append` a boolean and every other argument a string.
   */
  lemma ToolSchemas(t: ToolDescriptor)
    requires t in Tools()
    ensures t.required == (if t.name == "run_command" || t.name == "ssh_to_pi" then ["command"]
                           else if t.name == "read_file" then ["path"]
                           else if t.name == "write_file" then ["path", "content"]
                           else [])
    ensures forall i :: 0 <= i < |t.properties| ==>
              t.properties[i].kind == (if t.properties[i].name == "lines" then "integer"
                                       else if t.properties[i].name == "append" then "boolean"
                                       else "string")
  {
    if t == ReadFileTool {
      assert t.properties[0].name == "path" && t.properties[1].name == "lines";
    } else if t == WriteFileTool {
      assert t.properties[0].name == "path" && t.properties[1].name == "content";
      assert t.properties[2].name == "append";
    } else if t == SshToPiTool {
      assert t.properties[0].name == "command" && t.properties[1].name == "host";
      assert t.properties[2].name == "user";
    }
  }

  /** The JSON Schema type a value has, as `type`/`kind` names it. */
  predicate HasKind(v: Json, kind: string) {
    (kind == "string" && v.JStr?) || (kind == "integer" && v.JInt?) || (kind == "boolean" && v.JBool?)
  }

  /**
    The argument map meets the descriptor's input schema: every required argument
    is present and every declared argument that is present has its declared type.
   */
  predicate Conforms(t: ToolDescriptor, args: map<string, Json>) {
    && (forall i :: 0 <= i < |t.required| ==> t.required[i] in args)
    && (forall i :: 0 <= i < |t.properties| && t.properties[i].name in args ==>
          HasKind(args[t.properties[i].name], t.properties[i].kind))
  }

  /** The first required argument missing from `args`, in the order the schema lists them. */
  function FirstMissing(required: seq<string>, args: map<string, Json>): (r: Option<string>)
    ensures r.None? <==> forall i :: 0 <= i < |required| ==> required[i] in args
    ensures r.Some? ==> r.value in required && r.value !in args
    ensures r.Some? ==> exists i :: 0 <= i < |required| && required[i] == r.value &&
                                    forall j :: 0 <= j < i ==> required[j] in args
  {
    if required == [] then None
    else if required[0] !in args then Some(required[0])
    else FirstMissing(required[1..], args)
  }

  function PropertiesJson(ps: seq<Property>): (m: map<string, Json>)
    ensures forall i :: 0 <= i < |ps| ==> ps[i].name in m
    ensures forall k :: k in m ==> exists i :: 0 <= i < |ps| && ps[i].name == k
  {
    if ps == [] then map[]
    else PropertiesJson(ps[..|ps| - 1])[ps[|ps| - 1].name := PropertyJson(ps[|ps| - 1])]
  }

  function StringsJson(ss: seq<string>): (js: seq<Json>)
    ensures |js| == |ss| && forall i :: 0 <= i < |ss| ==> js[i] == JStr(ss[i])
  {
    if ss == [] then [] else [JStr(ss[0])] + StringsJson(ss[1..])
  }

  /** The JSON Schema entry of one argument: its type and description. */
  function PropertyJson(p: Property): Json {
    JObj(map["type" := JStr(p.kind), "description" := JStr(p.description)])
  }

  /**
    When argument names are distinct, the rendered `properties` object maps each
    argument's name to its own type and description.
   */
  lemma PropertiesJsonEntries(ps: seq<Property>)
    requires forall i, j :: 0 <= i < j < |ps| ==> ps[i].name != ps[j].name
    ensures forall i :: 0 <= i < |ps| ==> PropertiesJson(ps)[ps[i].name] == PropertyJson(ps[i])
  {
    forall i | 0 <= i < |ps|
      ensures PropertiesJson(ps)[ps[i].name] == PropertyJson(ps[i])
    {
      PropertiesJsonEntry(ps, i);
    }
  }

  /** The entry of argument `i`, by induction on the arguments after it. */
  lemma {:induction false} PropertiesJsonEntry(ps: seq<Property>, i: nat)
    requires forall i, j :: 0 <= i < j < |ps| ==> ps[i].name != ps[j].name
    requires i < |ps|
    ensures ps[i].name in PropertiesJson(ps) && PropertiesJson(ps)[ps[i].name] == PropertyJson(ps[i])
    decreases |ps|
  {
    var n := |ps| - 1;
    NameListed(ps, i);
    if i < n {
      var init := ps[..n];
      assert init[i] == ps[i] && ps[i].name != ps[n].name;
      PropertiesJsonEntry(init, i);
      LaterEntryKeepsEarlier(ps, i);
    }
  }

  lemma NameListed(ps: seq<Property>, i: nat)
    requires i < |ps|
    ensures ps[i].name in PropertiesJson(ps)
  {
  }

  /** Adding the last argument leaves an earlier, differently named entry as it was. */
  lemma LaterEntryKeepsEarlier(ps: seq<Property>, i: nat)
    requires i < |ps| - 1 && ps[i].name != ps[|ps| - 1].name
    requires ps[i].name in PropertiesJson(ps[..|ps| - 1])
    ensures PropertiesJson(ps)[ps[i].name] == PropertiesJson(ps[..|ps| - 1])[ps[i].name]
  {
  }

  /**
    In every catalogue descriptor's rendered schema, each declared argument is
    listed with its own type and description.
   */
  lemma SchemaEntries(t: ToolDescriptor)
    requires t in Tools()
    ensures forall i :: 0 <= i < |t.properties| ==>
              PropertiesJson(t.properties)[t.properties[i].name] == PropertyJson(t.properties[i])
  {
    SchemasWellFormed(t);
    var ns := PropertyNames(t.properties);
    forall i, j | 0 <= i < j < |t.properties|
      ensures t.properties[i].name != t.properties[j].name
    {
      assert ns[i] != ns[j];
    }
    PropertiesJsonEntries(t.properties);
  }

  /** The descriptor as it appears in the `tools/list` result. */
  function DescriptorJson(t: ToolDescriptor): (j: Json)
    ensures j.JObj? && j.fields.Keys == {"name", "description", "inputSchema"}
    ensures j.fields["name"] == JStr(t.name) && j.fields["description"] == JStr(t.description)
    ensures var schema := j.fields["inputSchema"];
            && schema.JObj? && schema.fields.Keys == {"type", "properties", "required"}
            && schema.fields["type"] == JStr("object")
            && schema.fields["properties"].JObj?
            && (forall i :: 0 <= i < |t.properties| ==> t.properties[i].name in schema.fields["properties"].fields)
            && (forall k :: k in schema.fields["properties"].fields ==>
                  exists i :: 0 <= i < |t.properties| && t.properties[i].name == k)
            && schema.fields["required"].JArr?
            && |schema.fields["required"].items| == |t.required|
            && forall i :: 0 <= i < |t.required| ==> schema.fields["required"].items[i] == JStr(t.required[i])
  {
    JObj(map[
      "name" := JStr(t.name),
      "description" := JStr(t.description),
      "inputSchema" := JObj(map[
        "type" := JStr("object"),
        "properties" := JObj(PropertiesJson(t.properties)),
        "required" := JArr(StringsJson(t.required))])])
  }
}
