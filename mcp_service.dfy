/** `MCPService.handle_request`: one decision per decoded request, with the
    `try` block turning every exception raised inside it into an
    internal-error envelope. */
module McpService {
  import opened Wrappers
  import opened PyJson
  import opened JsonRpc
  import opened Tools
  import Session

  /** What `handle_request` does: it returns an envelope, or the exception
      raised by the field extraction in front of its `try` escapes. */
  datatype Outcome = Returned(response: Json) | Raised(message: string)

  /** `request.get("id")`: the identifier every envelope echoes; absent means null. */
  function RequestId(request: Json): (id: Json)
    requires request.JObject?
    ensures "id" !in Keys(request.fields) ==> id == JNull
    ensures "id" in Keys(request.fields) ==> ("id", id) in request.fields
  {
    DictGet(request.fields, "id", JNull)
  }

  /** `request.get("method")` */
  function MethodOf(request: Json): (methodName: Json)
    requires request.JObject?
    ensures "method" !in Keys(request.fields) ==> methodName == JNull
    ensures "method" in Keys(request.fields) ==> ("method", methodName) in request.fields
  {
    DictGet(request.fields, "method", JNull)
  }

  /** `request.get("params", {})` */
  function ParamsOf(request: Json): (params: Json)
    requires request.JObject?
    ensures "params" !in Keys(request.fields) ==> params == JObject([])
    ensures "params" in Keys(request.fields) ==> ("params", params) in request.fields
  {
    DictGet(request.fields, "params", JObject([]))
  }

  /** `{"tools": [tool.model_dump(exclude_none=True) for tool in list_tools()]}` */
  function ListingResult(): (r: Json)
    ensures r.JObject? && Keys(r.fields) == ["tools"]
    ensures match Lookup(r.fields, "tools")
            case Some(JArray(listing)) =>
              && |listing| == |ListTools()|
              && forall i :: 0 <= i < |listing| ==> listing[i] == ToolDump(ListTools()[i])
            case _ => false
  {
    var fields := [("tools", JArray(Dumps(ListTools())))];
    assert Keys(fields) == ["tools"];
    LookupFound(fields, 0);
    JObject(fields)
  }

  /** The `try` block: the envelope it returns, or the text of the exception it raises. */
  function Respond(methodName: Json, id: Json, params: Json, sessionId: string): (r: Result<Json>)
    ensures r.Success? ==> IsReplyTo(r.value, id)
    ensures r.Failure? <==> methodName == JString("tools/call") && !params.JObject?
    ensures r.Failure? ==> r.message == NoAttribute(params, "get")
    ensures r.Success? && IsError(r.value) ==> ErrorCode(r.value) == Some(METHOD_NOT_FOUND)
  {
    if methodName == JString("initialize") then
      Success(ResultEnvelope(id, Session.InitializationOptions(sessionId)))
    else if methodName == JString("tools/list") then
      Success(ResultEnvelope(id, ListingResult()))
    else if methodName == JString("tools/call") then
      var toolName :- Get(params, "name", JNull);
      var arguments := DictGet(params.fields, "arguments", JObject([]));
      if toolName == JString(BOOKS_COUNT_TOOL) then
        Success(ResultEnvelope(id, ContentResult(GetBooksCount(arguments))))
      else
        Success(ErrorEnvelope(id, METHOD_NOT_FOUND, "Unknown tool: " + Str(toolName)))
    else
      Success(ErrorEnvelope(id, METHOD_NOT_FOUND, "Method not found: " + Str(methodName)))
  }

  function HandleRequest(request: Json, sessionId: string): (out: Outcome)
    ensures out.Raised? <==> !request.JObject?
    ensures out.Raised? ==> out.message == NoAttribute(request, "get")
    ensures out.Returned? ==> IsReplyTo(out.response, RequestId(request))
  {
    match request
    case JObject(fields) =>
      var id := RequestId(request);
      (match Respond(MethodOf(request), id, ParamsOf(request), sessionId)
       case Success(response) => Returned(response)
       case Failure(message) => Returned(ErrorEnvelope(id, INTERNAL_ERROR, "Internal error: " + message)))
    case _ => Raised(NoAttribute(request, "get"))
  }

  /** On `tools/call` the reply is the one `Respond` builds for the call branch. */
  lemma HandleOfCall(request: Json, sessionId: string)
    requires request.JObject? && MethodOf(request) == JString("tools/call")
    ensures HandleRequest(request, sessionId)
         == match Respond(JString("tools/call"), RequestId(request), ParamsOf(request), sessionId)
            case Success(response) => Returned(response)
            case Failure(message) =>
              Returned(ErrorEnvelope(RequestId(request), INTERNAL_ERROR, "Internal error: " + message))
  {
  }

  lemma InitializeReturnsSession(request: Json, sessionId: string)
    requires request.JObject? && MethodOf(request) == JString("initialize")
    ensures HandleRequest(request, sessionId)
         == Returned(ResultEnvelope(RequestId(request), Session.InitializationOptions(sessionId)))
  {
  }

  /** `tools/list` lists exactly the one tool, with its full input schema. */
  lemma ListingHoldsFullDescriptor(request: Json, sessionId: string)
    requires request.JObject? && MethodOf(request) == JString("tools/list")
    ensures HandleRequest(request, sessionId) == Returned(ResultEnvelope(RequestId(request),
              JObject([("tools", JArray([JObject([
                ("name", JString("get_books_count")),
                ("description", JString("Get the current count of books in the collection")),
                ("inputSchema", JObject([("type", JString("object")), ("properties", JObject([])),
                                         ("required", JArray([]))]))])]))])))
  {
    assert Dumps(ListTools()) == [ToolDump(ListTools()[0])];
  }

  /** Calling `get_books_count` yields the constant text, whatever the arguments. */
  lemma CallBooksCount(request: Json, sessionId: string)
    requires request.JObject? && MethodOf(request) == JString("tools/call")
    requires ParamsOf(request).JObject?
    requires DictGet(ParamsOf(request).fields, "name", JNull) == JString("get_books_count")
    ensures HandleRequest(request, sessionId) == Returned(ResultEnvelope(RequestId(request),
              JObject([("content", JArray([JObject([("type", JString("text")),
                                                    ("text", JString("Current books count: 1"))])]))])))
  {
  }

  /** Any other tool name, or none, is method-not-found naming the tool; a
      missing name is written `None`. */
  lemma CallUnknownTool(request: Json, sessionId: string)
    requires request.JObject? && MethodOf(request) == JString("tools/call")
    requires ParamsOf(request).JObject?
    requires DictGet(ParamsOf(request).fields, "name", JNull) != JString("get_books_count")
    ensures HandleRequest(request, sessionId) == Returned(ErrorEnvelope(RequestId(request),
              METHOD_NOT_FOUND, "Unknown tool: " + Str(DictGet(ParamsOf(request).fields, "name", JNull))))
  {
    HandleOfCall(request, sessionId);
    assert JString("tools/call") != JString("initialize") && JString("tools/call") != JString("tools/list");
  }

  lemma CallWithoutToolName(request: Json, sessionId: string)
    requires request.JObject? && MethodOf(request) == JString("tools/call")
    requires ParamsOf(request).JObject? && "name" !in Keys(ParamsOf(request).fields)
    ensures HandleRequest(request, sessionId)
         == Returned(ErrorEnvelope(RequestId(request), METHOD_NOT_FOUND, "Unknown tool: None"))
  {
    assert DictGet(ParamsOf(request).fields, "name", JNull) == JNull;
    assert Str(JNull) == "None";
    assert "Unknown tool: " + "None" == "Unknown tool: None";
    CallUnknownTool(request, sessionId);
  }

  lemma RespondUnknown(methodName: Json, id: Json, params: Json, sessionId: string)
    requires methodName != JString("initialize") && methodName != JString("tools/list")
    requires methodName != JString("tools/call")
    ensures Respond(methodName, id, params, sessionId)
         == Success(ErrorEnvelope(id, METHOD_NOT_FOUND, "Method not found: " + Str(methodName)))
  {
  }

  /** Only `initialize`, `tools/list` and `tools/call` are recognised:
      everything else is method-not-found naming the method. */
  lemma UnknownMethodNamed(request: Json, sessionId: string)
    requires request.JObject?
    requires MethodOf(request) !in {JString("initialize"), JString("tools/list"), JString("tools/call")}
    ensures HandleRequest(request, sessionId) == Returned(ErrorEnvelope(RequestId(request),
              METHOD_NOT_FOUND, "Method not found: " + Str(MethodOf(request))))
  {
    RespondUnknown(MethodOf(request), RequestId(request), ParamsOf(request), sessionId);
  }

  /** The `mcp:` aliases the transports accept are unknown to the service. */
  lemma AliasesUnknownToService(request: Json, sessionId: string)
    requires request.JObject?
    requires MethodOf(request) in {JString("mcp:list-tools"), JString("mcp:call-tool")}
    ensures ErrorCode(HandleRequest(request, sessionId).response) == Some(METHOD_NOT_FOUND)
    ensures ErrorMessage(HandleRequest(request, sessionId).response)
         == Some("Method not found: " + MethodOf(request).s)
  {
    UnknownMethodNamed(request, sessionId);
  }

  /** The internal error arises exactly for `tools/call` with non-dict params,
      and still echoes the identifier. */
  lemma InternalErrorExactlyForBadParams(request: Json, sessionId: string)
    requires request.JObject?
    ensures ErrorCode(HandleRequest(request, sessionId).response) == Some(INTERNAL_ERROR)
        <==> MethodOf(request) == JString("tools/call") && !ParamsOf(request).JObject?
    ensures MethodOf(request) == JString("tools/call") && !ParamsOf(request).JObject? ==>
              HandleRequest(request, sessionId) == Returned(ErrorEnvelope(RequestId(request),
                INTERNAL_ERROR, "Internal error: " + NoAttribute(ParamsOf(request), "get")))
  {
  }

  /** Every error the service returns carries one of the two fixed codes. */
  lemma ErrorCodesAreFixed(request: Json, sessionId: string)
    requires request.JObject?
    requires IsError(HandleRequest(request, sessionId).response)
    ensures ErrorCode(HandleRequest(request, sessionId).response) in {Some(METHOD_NOT_FOUND), Some(INTERNAL_ERROR)}
  {
    var r := Respond(MethodOf(request), RequestId(request), ParamsOf(request), sessionId);
    assert r.Success? ==> HandleRequest(request, sessionId).response == r.value;
  }
}
