/** `create_initialization_options`: the session record returned by
    `initialize`. The random session identifier is a parameter. */
module Session {
  import opened Wrappers
  import opened PyJson

  const PROTOCOL_VERSION: string := "2024-11-05"
  const SERVER_NAME: string := "talebook-mcp"
  const SERVER_VERSION: string := "1.0.0"

  /** `{"tools": {}}` */
  const CAPABILITIES: Json := JObject([("tools", JObject([]))])

  /** `{"name": "talebook-mcp", "version": "1.0.0"}` */
  const SERVER_INFO: Json := JObject([("name", JString(SERVER_NAME)), ("version", JString(SERVER_VERSION))])

  function InitializationOptions(sessionId: string): (r: Json)
    ensures r.JObject?
    ensures Keys(r.fields) == ["protocolVersion", "capabilities", "serverInfo", "sessionId"]
    ensures Lookup(r.fields, "protocolVersion") == Some(JString("2024-11-05"))
    ensures Lookup(r.fields, "capabilities") == Some(JObject([("tools", JObject([]))]))
    ensures Lookup(r.fields, "serverInfo") ==
              Some(JObject([("name", JString("talebook-mcp")), ("version", JString("1.0.0"))]))
    ensures Lookup(r.fields, "sessionId") == Some(JString(sessionId))
  {
    var fields := [("protocolVersion", JString(PROTOCOL_VERSION)), ("capabilities", CAPABILITIES),
                   ("serverInfo", SERVER_INFO), ("sessionId", JString(sessionId))];
    assert Keys(fields) == ["protocolVersion", "capabilities", "serverInfo", "sessionId"];
    LookupFound(fields, 1);
    LookupFound(fields, 2);
    LookupFound(fields, 3);
    JObject(fields)
  }

  /** Two session records differ exactly when their identifiers differ, and
      only in the `sessionId` member. */
  lemma OnlySessionIdVaries(a: string, b: string)
    ensures InitializationOptions(a) == InitializationOptions(b) <==> a == b
    ensures InitializationOptions(a).fields[..3] == InitializationOptions(b).fields[..3]
  {
    if InitializationOptions(a) == InitializationOptions(b) {
      assert InitializationOptions(a).fields[3].1 == JString(a);
    }
  }
}
