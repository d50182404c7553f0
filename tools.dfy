/**
 * Tools as the rest of the system sees them (name, description, parameter
 * schema, permission flag) and the registry that holds them in insertion
 * order.
 *
 * A tool's `Execute` is not part of a `Tool` value: whoever runs a tool
 * supplies its outcome (see `Outcome`).
 */
module Tools {

  import opened Text

  /** One parameter of a tool's JSON schema */
  datatype Property = Property(name: string, kind: string, description: string)

  /** The JSON schema of a tool's input: an object with these properties */
  datatype Schema = Schema(properties: seq<Property>, required: seq<string>)

  datatype Tool = Tool(name: string, description: string, parameters: Schema, requiresPermission: bool)

  /** What running a tool produced: its text output, or an error */
  datatype Outcome = Output(text: string) | Failure(error: string)

  /** The registry holds all registered tools and keeps their insertion order */
  class Registry {
    var tools: map<string, Tool>
    var order: seq<string>

    ghost predicate Valid()
      reads this
    {
      && (forall i, j :: 0 <= i < j < |order| ==> order[i] != order[j])
      && (forall name :: name in tools <==> name in order)
      && (forall name :: name in tools ==> tools[name].name == name)
    }

    /** The registered tools, in insertion order */
    ghost function Contents(): seq<Tool>
      reads this
      requires Valid()
    {
      ContentsOf(order, tools)
    }

    /** NewRegistry */
    constructor ()
      ensures Valid()
      ensures tools == map[] && order == []
    {
      tools := map[];
      order := [];
    }

    /**
     * A new name is appended to the order; registering an existing name
     * replaces the tool and keeps the order as it was.
     */
    method Register(t: Tool)
      requires Valid()
      modifies this
      ensures Valid()
      ensures tools == old(tools)[t.name := t]
      ensures order == if t.name in old(tools) then old(order) else old(order) + [t.name]
    {
      if t.name !in tools {
        order := order + [t.name];
      }
      tools := tools[t.name := t];
    }

    method Get(name: string) returns (r: Option<Tool>)
      ensures r.Some? <==> name in tools
      ensures r.Some? ==> r.value == tools[name]
    {
      if name in tools {
        r := Some(tools[name]);
      } else {
        r := None;
      }
    }

    /** All registered tools, one per name of `order`, in insertion order */
    method All() returns (r: seq<Tool>)
      requires Valid()
      ensures |r| == |order|
      ensures forall i :: 0 <= i < |r| ==> r[i] == tools[order[i]] && r[i].name == order[i]
      ensures r == Contents()
    {
      r := [];
      var i := 0;
      while i < |order|
        invariant 0 <= i <= |order|
        invariant |r| == i
        invariant forall k :: 0 <= k < i ==> r[k] == tools[order[k]]
      {
        r := r + [tools[order[i]]];
        i := i + 1;
      }
    }

    /**
     * Looks a tool up and runs it; `run` stands for the tool's own Execute.
     * An unknown name is an error and runs nothing.
     */
    method Execute(name: string, input: string, run: (Tool, string) -> Outcome) returns (r: Outcome)
      ensures name !in tools ==> r == Failure("unknown tool: " + name)
      ensures name in tools ==> r == run(tools[name], input)
    {
      var t := Get(name);
      if t.None? {
        r := Failure("unknown tool: " + name);
      } else {
        r := run(t.value, input);
      }
    }
  }

  // ---------------------------------------------------------------------
  // The built-in tools
  // ---------------------------------------------------------------------

  /**
   * The prose of the built-in tools, by key: a tool's description under
   * its name, a parameter's under "tool.parameter". The tools below take
   * it as a parameter, so that what is proved about them holds whatever
   * the texts; `Prose` holds the texts the tools themselves carry.
   */
  function Prose(key: string): string
  {
    match key
    case "glob" => "Fast file pattern matching tool. Supports glob patterns like \"**/*.go\" or \"src/**/*.ts\". Returns matching file paths sorted by name."
    case "glob.pattern" => "The glob pattern to match files against (e.g. \"**/*.go\", \"internal/**/*.go\")"
    case "glob.path" => "The directory to search in. Defaults to the working directory."
    case "grep" => "Fast content search tool. Searches file contents using regular expressions. Returns file paths and line numbers with matching content."
    case "grep.pattern" => "The regex pattern to search for in file contents."
    case "grep.path" => "The directory to search in. Defaults to the working directory."
    case "grep.include" => "File pattern to include in the search (e.g. \"*.go\", \"*.{ts,tsx}\")."
    case "ls" => "List directory contents. Returns entries one per line with a trailing / for subdirectories."
    case "ls.path" => "The directory to list. Defaults to the working directory."
    case "view" => "Read a file's contents. Returns lines prefixed with line numbers. Use offset and limit to read specific sections of large files."
    case "view.file_path" => "The path to the file to read (absolute or relative to working directory)."
    case "view.offset" => "The line number to start reading from (1-indexed). Defaults to 1."
    case "view.limit" => "The maximum number of lines to read. Defaults to 2000."
    case "bash" => "Execute a bash command in the working directory. Returns stdout and stderr. Use this for running builds, tests, git commands, and other terminal operations."
    case "bash.command" => "The bash command to execute."
    case "bash.timeout" => "Optional timeout in seconds. Defaults to 120."
    case "write" => "Write content to a file, creating it if it doesn't exist or overwriting if it does. Parent directories are created automatically."
    case "write.file_path" => "The path to the file to write (absolute or relative to working directory)."
    case "write.content" => "The content to write to the file."
    case "edit" => "Perform exact string replacements in files. The oldString must match exactly (including whitespace and indentation). Use replaceAll to replace all occurrences."
    case "edit.file_path" => "The path to the file to edit (absolute or relative to working directory)."
    case "edit.old_string" => "The exact text to find and replace."
    case "edit.new_string" => "The text to replace it with."
    case "edit.replace_all" => "If true, replace all occurrences. Default is false (replace first occurrence only)."
    case "fetch" => "Fetch content from a URL. Returns the response body as text. Useful for reading documentation, APIs, or web pages."
    case "fetch.url" => "The URL to fetch content from."
    case "fetch.timeout" => "Optional timeout in seconds. Defaults to 30."
    case _ => ""
  }

  function GlobTool(prose: string -> string): Tool
  {
    Tool("glob", prose("glob"),
         Schema([ Property("pattern", "string", prose("glob.pattern")),
                  Property("path", "string", prose("glob.path"))],
           ["pattern"]),
         false)
  }

  function GrepTool(prose: string -> string): Tool
  {
    Tool("grep", prose("grep"),
         Schema([ Property("pattern", "string", prose("grep.pattern")),
                  Property("path", "string", prose("grep.path")),
                  Property("include", "string", prose("grep.include"))],
           ["pattern"]),
         false)
  }

  function LsTool(prose: string -> string): Tool
  {
    Tool("ls", prose("ls"),
         Schema([ Property("path", "string", prose("ls.path"))], []),
         false)
  }

  function ViewTool(prose: string -> string): Tool
  {
    Tool("view", prose("view"),
         Schema([ Property("file_path", "string", prose("view.file_path")),
                  Property("offset", "number", prose("view.offset")),
                  Property("limit", "number", prose("view.limit"))],
           ["file_path"]),
         false)
  }

  function BashTool(prose: string -> string): Tool
  {
    Tool("bash", prose("bash"),
         Schema([ Property("command", "string", prose("bash.command")),
                  Property("timeout", "number", prose("bash.timeout"))],
           ["command"]),
         true)
  }

  function WriteTool(prose: string -> string): Tool
  {
    Tool("write", prose("write"),
         Schema([ Property("file_path", "string", prose("write.file_path")),
                  Property("content", "string", prose("write.content"))],
           ["file_path", "content"]),
         true)
  }

  function EditTool(prose: string -> string): Tool
  {
    Tool("edit", prose("edit"),
         Schema([ Property("file_path", "string", prose("edit.file_path")),
                  Property("old_string", "string", prose("edit.old_string")),
                  Property("new_string", "string", prose("edit.new_string")),
                  Property("replace_all", "boolean", prose("edit.replace_all"))],
           ["file_path", "old_string", "new_string"]),
         true)
  }

  function FetchTool(prose: string -> string): Tool
  {
    Tool("fetch", prose("fetch"),
         Schema([ Property("url", "string", prose("fetch.url")),
                  Property("timeout", "number", prose("fetch.timeout"))],
           ["url"]),
         false)
  }

  /** The built-in tools in registration order */
  function DefaultTools(prose: string -> string): seq<Tool>
  {
    [GlobTool(prose), GrepTool(prose), LsTool(prose), ViewTool(prose),
     BashTool(prose), WriteTool(prose), EditTool(prose), FetchTool(prose)]
  }

  /** The names of some tools, in the same order */
  function Names(ts: seq<Tool>): (r: seq<string>)
    ensures |r| == |ts|
    ensures forall i :: 0 <= i < |ts| ==> r[i] == ts[i].name
  {
    seq(|ts|, i requires 0 <= i < |ts| => ts[i].name)
  }

  /** No name occurs twice */
  predicate Distinct(names: seq<string>)
  {
    forall i, j :: 0 <= i < j < |names| ==> names[i] != names[j]
  }

  const DefaultNameList := ["glob", "grep", "ls", "view", "bash", "write", "edit", "fetch"]

  /** The built-in tools' names, position by position */
  lemma DefaultNamesAt(prose: string -> string)
    ensures var ns := Names(DefaultTools(prose));
      && |ns| == 8 && ns[0] == "glob" && ns[1] == "grep" && ns[2] == "ls" && ns[3] == "view"
      && ns[4] == "bash" && ns[5] == "write" && ns[6] == "edit" && ns[7] == "fetch"
  {
    var ts := DefaultTools(prose);
    assert ts[0].name == "glob" && ts[1].name == "grep" && ts[2].name == "ls" && ts[3].name == "view";
    assert ts[4].name == "bash" && ts[5].name == "write" && ts[6].name == "edit" && ts[7].name == "fetch";
  }

  /** The built-in tools' names */
  lemma DefaultNames(prose: string -> string)
    ensures Names(DefaultTools(prose)) == DefaultNameList
  {
    DefaultNamesAt(prose);
  }

  /** No two built-in tools share a name */
  lemma DefaultNamesDistinct()
    ensures Distinct(DefaultNameList)
  {
  }

  /** Exactly bash, write and edit among the built-in tools require permission */
  lemma DefaultPermissions(prose: string -> string)
    ensures forall t :: t in DefaultTools(prose) ==> (t.requiresPermission <==> t.name in {"bash", "write", "edit"})
  {
  }

  /** The tools of `byName` listed in the order of `names` */
  function ContentsOf(names: seq<string>, byName: map<string, Tool>): (r: seq<Tool>)
    requires forall n :: n in names ==> n in byName
    ensures |r| == |names| && forall i :: 0 <= i < |names| ==> r[i] == byName[names[i]]
  {
    seq(|names|, i requires 0 <= i < |names| => byName[names[i]])
  }

  /** Registering the next of some tools with distinct names extends the listing by that tool */
  lemma RegisterNext(ts: seq<Tool>, i: nat, names: seq<string>, byName: map<string, Tool>)
    requires i < |ts| && Distinct(Names(ts))
    requires names == Names(ts)[..i] && forall n :: n in names ==> n in byName
    requires ContentsOf(names, byName) == ts[..i]
    ensures ts[i].name !in names
    ensures ContentsOf(names + [ts[i].name], byName[ts[i].name := ts[i]]) == ts[..i + 1]
  {
    var t := ts[i];
    forall k | 0 <= k < i
      ensures names[k] != t.name
    {
      assert names[k] == Names(ts)[k];
    }
    var after := ContentsOf(names + [t.name], byName[t.name := t]);
    forall k | 0 <= k < i + 1
      ensures after[k] == ts[k]
    {
      if k < i {
        assert (names + [t.name])[k] == names[k];
        assert after[k] == byName[names[k]] == ContentsOf(names, byName)[k];
      }
    }
  }

  /** Registers tools with distinct names, in order, into a registry */
  method RegisterAll(r: Registry, ts: seq<Tool>)
    requires r.Valid() && r.order == [] && Distinct(Names(ts))
    modifies r
    ensures r.Valid()
    ensures r.order == Names(ts)
    ensures r.Contents() == ts
  {
    var i := 0;
    while i < |ts|
      invariant 0 <= i <= |ts|
      invariant r.Valid()
      invariant r.order == Names(ts)[..i]
      invariant r.Contents() == ts[..i]
    {
      RegisterNext(ts, i, r.order, r.tools);
      r.Register(ts[i]);
      assert r.order == Names(ts)[..i + 1];
      i := i + 1;
    }
    assert Names(ts)[..|ts|] == Names(ts);
  }

  /**
   * DefaultRegistry: the eight built-in tools (glob, grep, ls, view, bash,
   * write, edit, fetch), registered in that order.
   */
  method DefaultRegistry(prose: string -> string) returns (r: Registry)
    ensures fresh(r) && r.Valid()
    ensures r.Contents() == DefaultTools(prose)
    ensures r.order == DefaultNameList
  {
    r := new Registry();
    DefaultNames(prose);
    DefaultNamesDistinct();
    RegisterAll(r, DefaultTools(prose));
  }
}
