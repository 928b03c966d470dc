/** The HTTP routes of the stdio/FastAPI server that shape tool results:
    `GET /tools` and `POST /tools/get_books_count`. */
module TalebookServer {
  import opened Wrappers
  import opened PyJson
  import opened Tools

  /** `GET /tools`: `{"tools": [{"name", "description"} for each listed tool]}` */
  function ToolsRoute(): (body: Json)
    ensures body.JObject? && Keys(body.fields) == ["tools"]
    ensures Lookup(body.fields, "tools") == Some(JArray(Summaries(ListTools())))
    ensures Lookup(body.fields, "tools") == Some(JArray([JObject([
              ("name", JString("get_books_count")),
              ("description", JString("Get the current count of books in the collection"))])]))
  {
    assert Summaries(ListTools()) == [ToolSummary(ListTools()[0])];
    assert Keys([("tools", JArray(Summaries(ListTools())))]) == ["tools"];
    JObject([("tools", JArray(Summaries(ListTools())))])
  }

  /** `result[0].text if result else "No result"` */
  function FirstTextOrNoResult(items: seq<TextContent>): (text: string)
    ensures items == [] ==> text == "No result"
    ensures items != [] ==> text == items[0].text
  {
    if items == [] then "No result" else items[0].text
  }

  /** `POST /tools/get_books_count`: the tool's first text under `result`. */
  function BooksCountRoute(): (body: Json)
    ensures body == JObject([("result", JString("Current books count: 1"))])
  {
    JObject([("result", JString(FirstTextOrNoResult(GetBooksCount(JObject([])))))])
  }
}
