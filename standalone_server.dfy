/** The SSE-only standalone server's `GET /info` route. Its
    `create_initialization_options` and tool table are the shared
    `Session` and `Tools` modules. */
module StandaloneServer {
  import opened Wrappers
  import opened PyJson
  import opened Tools
  import TalebookServer

  const SERVER_NAME: string := "talebook-mcp"
  const TRANSPORT: string := "sse"

  /** `GET /info` */
  function InfoRoute(): (body: Json)
    ensures body.JObject? && Keys(body.fields) == ["server_name", "transport", "available_tools"]
    ensures Lookup(body.fields, "server_name") == Some(JString("talebook-mcp"))
    ensures Lookup(body.fields, "transport") == Some(JString("sse"))
    ensures Lookup(body.fields, "available_tools") == Some(JArray(Summaries(ListTools())))
  {
    Dict3("server_name", JString(SERVER_NAME), "transport", JString(TRANSPORT),
          "available_tools", JArray(Summaries(ListTools())))
  }

  /** `/info` lists the tools exactly as the other server's `/tools` does. */
  lemma InfoListsToolsLikeToolsRoute()
    ensures Lookup(InfoRoute().fields, "available_tools")
         == Lookup(TalebookServer.ToolsRoute().fields, "tools")
  {
  }
}
