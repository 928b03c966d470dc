/** The tool table every server variant defines: `list_tools`, `call_tool`
    and the single tool `get_books_count`, plus the two ways a tool
    descriptor is turned into JSON (the full dump and the name/description
    summary). */
module Tools {
  import opened Wrappers
  import opened PyJson

  datatype Tool = Tool(name: string, description: string, inputSchema: Json)

  /** An MCP text content item; `kind` is its `type` field. */
  datatype TextContent = TextContent(kind: string, text: string)

  const BOOKS_COUNT_TOOL: string := "get_books_count"
  const BOOKS_COUNT_DESCRIPTION: string := "Get the current count of books in the collection"

  /** The placeholder count the tool reports. */
  const BOOKS_COUNT: int := 1

  /** `{"type": "object", "properties": {}, "required": []}` */
  const NO_ARGUMENTS_SCHEMA: Json :=
    JObject([("type", JString("object")), ("properties", JObject([])), ("required", JArray([]))])

  /** A JSON schema for an object with no properties and no required fields. */
  predicate TakesNoArguments(schema: Json) {
    && schema.JObject?
    && Lookup(schema.fields, "type") == Some(JString("object"))
    && Lookup(schema.fields, "properties") == Some(JObject([]))
    && Lookup(schema.fields, "required") == Some(JArray([]))
  }

  predicate UniqueNames(tools: seq<Tool>) {
    forall i, j :: 0 <= i < j < |tools| ==> tools[i].name != tools[j].name
  }

  /** The registered tools, in registration order. */
  function ListTools(): (tools: seq<Tool>)
    ensures |tools| == 1 && UniqueNames(tools)
    ensures tools[0].name == BOOKS_COUNT_TOOL && tools[0].description == BOOKS_COUNT_DESCRIPTION
    ensures forall t :: t in tools ==> TakesNoArguments(t.inputSchema)
  {
    var schema := NO_ARGUMENTS_SCHEMA;
    [Tool(BOOKS_COUNT_TOOL, BOOKS_COUNT_DESCRIPTION, schema)]
  }

  function BooksCountText(count: int): string {
    "Current books count: " + IntToString(count)
  }

  /** The tool body. It never looks at its arguments; the source wraps it in a
      handler for exceptions that its body cannot raise. */
  function GetBooksCount(arguments: Json): (r: seq<TextContent>)
    ensures r == [TextContent("text", "Current books count: 1")]
  {
    assert IntToString(BOOKS_COUNT) == "1";
    assert "Current books count: " + "1" == "Current books count: 1";
    [TextContent("text", BooksCountText(BOOKS_COUNT))]
  }

  /** `call_tool(name, arguments)`: runs the named tool on `arguments or {}`;
      an unknown name raises `ValueError("Unknown tool: <name>")`. */
  function CallTool(name: string, arguments: Json): (r: Result<seq<TextContent>>)
    ensures r.Success? <==> exists t :: t in ListTools() && t.name == name
    ensures r.Success? ==> r.value == [TextContent("text", "Current books count: 1")]
    ensures r.Failure? ==> r.message == "Unknown tool: " + name
  {
    var tools := ListTools();
    assert tools[0] in tools && forall t :: t in tools ==> t == tools[0];
    if name == BOOKS_COUNT_TOOL then Success(GetBooksCount(Or(arguments, JObject([]))))
    else Failure("Unknown tool: " + name)
  }

  /** `tool.model_dump(exclude_none=True)`: every field of the descriptor. */
  function ToolDump(t: Tool): (j: Json)
    ensures j.JObject? && Keys(j.fields) == ["name", "description", "inputSchema"]
    ensures Lookup(j.fields, "name") == Some(JString(t.name))
    ensures Lookup(j.fields, "description") == Some(JString(t.description))
    ensures Lookup(j.fields, "inputSchema") == Some(t.inputSchema)
  {
    Dict3("name", JString(t.name), "description", JString(t.description), "inputSchema", t.inputSchema)
  }

  /** `{"name": t.name, "description": t.description}` */
  function ToolSummary(t: Tool): (j: Json)
    ensures j.JObject? && Keys(j.fields) == ["name", "description"]
    ensures Lookup(j.fields, "name") == Some(JString(t.name))
    ensures Lookup(j.fields, "description") == Some(JString(t.description))
  {
    var fields := [("name", JString(t.name)), ("description", JString(t.description))];
    assert Keys(fields) == ["name", "description"];
    LookupFound(fields, 1);
    JObject(fields)
  }

  /** The entries of a dict whose keys are in `keep`. */
  function Restrict(fields: seq<(string, Json)>, keep: set<string>): (r: seq<(string, Json)>)
    ensures forall p :: p in r <==> p in fields && p.0 in keep
  {
    if fields == [] then []
    else if fields[0].0 in keep then [fields[0]] + Restrict(fields[1..], keep)
    else Restrict(fields[1..], keep)
  }

  /** The summary is the full dump with `inputSchema` dropped. */
  lemma SummaryIsRestrictedDump(t: Tool)
    ensures ToolSummary(t) == JObject(Restrict(ToolDump(t).fields, {"name", "description"}))
    ensures "inputSchema" !in Keys(ToolSummary(t).fields)
  {
    var dump := ToolDump(t).fields;
    assert Restrict(dump[2..], {"name", "description"}) == [];
    assert Restrict(dump[1..], {"name", "description"}) == [dump[1]];
  }

  /** The `/tools`, `/info` and transport listings: one summary per tool, in order. */
  function Summaries(tools: seq<Tool>): (r: seq<Json>)
    ensures |r| == |tools|
    ensures forall i :: 0 <= i < |tools| ==> r[i] == ToolSummary(tools[i])
  {
    seq(|tools|, i requires 0 <= i < |tools| => ToolSummary(tools[i]))
  }

  /** The `tools/list` listing of the service: one full dump per tool, in order. */
  function Dumps(tools: seq<Tool>): (r: seq<Json>)
    ensures |r| == |tools|
    ensures forall i :: 0 <= i < |tools| ==> r[i] == ToolDump(tools[i])
  {
    seq(|tools|, i requires 0 <= i < |tools| => ToolDump(tools[i]))
  }

  /** `{"content": [{"type": "text", "text": items[0].text}]}`: the result both
      dispatchers build from a tool's output; only the first item is kept. */
  function ContentResult(items: seq<TextContent>): (j: Json)
    requires |items| >= 1
    ensures j.JObject? && Keys(j.fields) == ["content"]
    ensures match Lookup(j.fields, "content")
            case Some(JArray(content)) =>
              && |content| == 1 && content[0].JObject?
              && Lookup(content[0].fields, "type") == Some(JString("text"))
              && Lookup(content[0].fields, "text") == Some(JString(items[0].text))
            case _ => false
  {
    var itemFields := [("type", JString("text")), ("text", JString(items[0].text))];
    LookupFound(itemFields, 1);
    var item := JObject(itemFields);
    assert Keys([("content", JArray([item]))]) == ["content"];
    JObject([("content", JArray([item]))])
  }
}
