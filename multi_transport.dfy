/** The dispatch copied inline into the five transport handlers of the
    multi-transport server, and the boundary each handler puts around it:
    reading the body, decoding it, and turning an exception into a reply. */
module MultiTransport {
  import opened Wrappers
  import opened PyJson
  import opened JsonRpc
  import opened Tools
  import Session
  import McpService

  type Byte = bv8

  datatype Transport = WebSocket | SimpleHttp | HttpStream | TrueHttpStream | LongPolling

  /** What a handler does with one inbound message: an HTTP response, a
      WebSocket text frame, or closing the WebSocket. */
  datatype Reply = Http(status: int, body: Json) | WsSend(message: Json) | WsClose

  const LIST_ALIASES: seq<Json> := [JString("tools/list"), JString("mcp:list-tools")]
  const CALL_ALIASES: seq<Json> := [JString("tools/call"), JString("mcp:call-tool")]

  /** `{"error": "No request body"}`: not a JSON-RPC envelope. */
  const NO_BODY: Json := JObject([("error", JString("No request body"))])

  /** `{"tools": [{"name": t.name, "description": t.description} for t in list_tools()]}` */
  function SummaryListing(): (r: Json)
    ensures r.JObject? && Keys(r.fields) == ["tools"]
    ensures match Lookup(r.fields, "tools")
            case Some(JArray(listing)) =>
              && |listing| == |ListTools()|
              && forall i :: 0 <= i < |listing| ==> listing[i] == ToolSummary(ListTools()[i])
            case _ => false
  {
    var fields := [("tools", JArray(Summaries(ListTools())))];
    assert Keys(fields) == ["tools"];
    LookupFound(fields, 0);
    JObject(fields)
  }

  /** The `tools/call` branch of the inline dispatch. The tool is always run
      on `{}`: the request's `arguments` are never read. */
  function CallBranch(id: Json, params: Json): (r: Result<Json>)
    ensures r.Success? ==> IsReplyTo(r.value, id)
    ensures r.Failure? <==> !params.JObject?
    ensures r.Failure? ==> r.message == NoAttribute(params, "get")
  {
    var toolName :- Get(params, "name", JNull);
    if toolName == JString(BOOKS_COUNT_TOOL) then
      Success(ResultEnvelope(id, ContentResult(GetBooksCount(JObject([])))))
    else
      Success(ErrorEnvelope(id, METHOD_NOT_FOUND, "Unknown tool: " + Str(toolName)))
  }

  /** The branches of the inline dispatch once the method, the identifier and
      the params have been read from the request. Only `/simple` has the
      `initialize` branch. */
  function Route(transport: Transport, methodName: Json, id: Json, params: Json, sessionId: string): (r: Result<Json>)
    ensures r.Success? ==> IsReplyTo(r.value, id)
    ensures r.Failure? <==> methodName in CALL_ALIASES && !params.JObject?
    ensures r.Failure? ==> r.message == NoAttribute(params, "get")
  {
    assert methodName in CALL_ALIASES ==> methodName !in LIST_ALIASES && methodName != JString("initialize");
    if transport == SimpleHttp && methodName == JString("initialize") then
      Success(ResultEnvelope(id, Session.InitializationOptions(sessionId)))
    else if methodName in LIST_ALIASES then
      Success(ResultEnvelope(id, SummaryListing()))
    else if methodName in CALL_ALIASES then
      CallBranch(id, params)
    else
      Success(ErrorEnvelope(id, METHOD_NOT_FOUND, "Method not found"))
  }

  /** The inline dispatch: the envelope it builds, or the text of the
      exception raised while building it. */
  function Dispatch(transport: Transport, request: Json, sessionId: string): (r: Result<Json>)
    ensures r.Success? ==> request.JObject? && IsReplyTo(r.value, McpService.RequestId(request))
    ensures r.Failure? <==>
              || !request.JObject?
              || (McpService.MethodOf(request) in CALL_ALIASES && !McpService.ParamsOf(request).JObject?)
    ensures r.Failure? && !request.JObject? ==> r.message == NoAttribute(request, "get")
    ensures r.Failure? && request.JObject? ==> r.message == NoAttribute(McpService.ParamsOf(request), "get")
  {
    match request
    case JObject(_) =>
      Route(transport, McpService.MethodOf(request), McpService.RequestId(request),
            McpService.ParamsOf(request), sessionId)
    case _ => Failure(NoAttribute(request, "get"))
  }

  /** `json.loads` followed by the dispatch; `loads` stands for the decoder. */
  function DecodeAndDispatch(transport: Transport, body: seq<Byte>, loads: seq<Byte> -> Result<Json>,
                             sessionId: string): (r: Result<Json>)
    ensures loads(body).Failure? ==> r == Failure(loads(body).message)
    ensures loads(body).Success? ==> r == Dispatch(transport, loads(body).value, sessionId)
    ensures r.Success? ==>
              && loads(body).Success? && loads(body).value.JObject?
              && IsReplyTo(r.value, McpService.RequestId(loads(body).value))
  {
    var request :- loads(body);
    Dispatch(transport, request, sessionId)
  }

  /** One text frame through the WebSocket loop: the reply frame, or closing
      the socket when decoding or dispatching raises. */
  function ServeWebSocket(frame: seq<Byte>, loads: seq<Byte> -> Result<Json>, sessionId: string): (reply: Reply)
    ensures reply.WsSend? || reply == WsClose
    ensures reply.WsSend? <==> DecodeAndDispatch(WebSocket, frame, loads, sessionId).Success?
    ensures reply.WsSend? ==> reply.message == DecodeAndDispatch(WebSocket, frame, loads, sessionId).value
  {
    match DecodeAndDispatch(WebSocket, frame, loads, sessionId)
    case Success(envelope) => WsSend(envelope)
    case Failure(_) => WsClose
  }

  /** `/simple`, `/stream` and `/poll`: an empty body is refused with 400, an
      exception becomes an identifier-less -32603 envelope with status 500. */
  function ServePlain(transport: Transport, body: seq<Byte>, loads: seq<Byte> -> Result<Json>,
                      sessionId: string): (reply: Reply)
    requires transport in {SimpleHttp, HttpStream, LongPolling}
    ensures reply.Http?
    ensures body == [] ==> reply == Http(400, NO_BODY)
    ensures body != [] && DecodeAndDispatch(transport, body, loads, sessionId).Success? ==>
              reply == Http(200, DecodeAndDispatch(transport, body, loads, sessionId).value)
    ensures body != [] && DecodeAndDispatch(transport, body, loads, sessionId).Failure? ==>
              reply == Http(500, AnonymousError(INTERNAL_ERROR, DecodeAndDispatch(transport, body, loads, sessionId).message))
  {
    if body == [] then Http(400, NO_BODY)
    else
      match DecodeAndDispatch(transport, body, loads, sessionId)
      case Success(envelope) => Http(200, envelope)
      case Failure(message) => Http(500, AnonymousError(INTERNAL_ERROR, message))
  }

  /** `/true-stream`: the status line is sent before the body is read, so
      every reply has status 200; an empty body is a -32700 parse error and an
      exception a -32603 error, neither with an identifier. */
  function ServeTrueStream(body: seq<Byte>, loads: seq<Byte> -> Result<Json>, sessionId: string): (reply: Reply)
    ensures reply.Http? && reply.status == 200
    ensures body == [] ==> reply.body == AnonymousError(PARSE_ERROR, "Parse error: No request body")
    ensures body != [] && DecodeAndDispatch(TrueHttpStream, body, loads, sessionId).Success? ==>
              reply.body == DecodeAndDispatch(TrueHttpStream, body, loads, sessionId).value
    ensures body != [] && DecodeAndDispatch(TrueHttpStream, body, loads, sessionId).Failure? ==>
              reply.body == AnonymousError(INTERNAL_ERROR, DecodeAndDispatch(TrueHttpStream, body, loads, sessionId).message)
  {
    if body == [] then Http(200, AnonymousError(PARSE_ERROR, "Parse error: No request body"))
    else
      match DecodeAndDispatch(TrueHttpStream, body, loads, sessionId)
      case Success(envelope) => Http(200, envelope)
      case Failure(message) => Http(200, AnonymousError(INTERNAL_ERROR, message))
  }

  /** One message through the handler of `transport`. */
  function Serve(transport: Transport, body: seq<Byte>, loads: seq<Byte> -> Result<Json>,
                 sessionId: string): (reply: Reply)
    ensures transport == WebSocket ==> reply == ServeWebSocket(body, loads, sessionId)
    ensures transport == TrueHttpStream ==> reply == ServeTrueStream(body, loads, sessionId)
    ensures transport in {SimpleHttp, HttpStream, LongPolling} ==> reply == ServePlain(transport, body, loads, sessionId)
    ensures transport == WebSocket <==> !reply.Http?
  {
    match transport
    case WebSocket => ServeWebSocket(body, loads, sessionId)
    case TrueHttpStream => ServeTrueStream(body, loads, sessionId)
    case _ => ServePlain(transport, body, loads, sessionId)
  }

  /** On a call alias the dispatch is the call branch. */
  lemma DispatchOfCall(transport: Transport, request: Json, sessionId: string)
    requires request.JObject? && McpService.MethodOf(request) in CALL_ALIASES
    ensures Dispatch(transport, request, sessionId)
         == CallBranch(McpService.RequestId(request), McpService.ParamsOf(request))
  {
    var methodName := McpService.MethodOf(request);
    assert methodName == JString("tools/call") || methodName == JString("mcp:call-tool");
    assert methodName !in LIST_ALIASES && methodName != JString("initialize");
  }

  /** On a list alias the dispatch is the summary listing. */
  lemma DispatchOfList(transport: Transport, request: Json, sessionId: string)
    requires request.JObject? && McpService.MethodOf(request) in LIST_ALIASES
    ensures Dispatch(transport, request, sessionId)
         == Success(ResultEnvelope(McpService.RequestId(request), SummaryListing()))
  {
    var methodName := McpService.MethodOf(request);
    assert methodName != JString("initialize");
  }

  lemma ListAliasesAgree(transport: Transport, a: Json, b: Json, sessionId: string)
    requires a.JObject? && McpService.MethodOf(a) == JString("tools/list")
    requires b.JObject? && McpService.MethodOf(b) == JString("mcp:list-tools")
    requires McpService.RequestId(a) == McpService.RequestId(b)
    ensures Dispatch(transport, a, sessionId) == Dispatch(transport, b, sessionId)
  {
    DispatchOfList(transport, a, sessionId);
    DispatchOfList(transport, b, sessionId);
  }

  lemma CallAliasesAgree(transport: Transport, a: Json, b: Json, sessionId: string)
    requires a.JObject? && McpService.MethodOf(a) == JString("tools/call")
    requires b.JObject? && McpService.MethodOf(b) == JString("mcp:call-tool")
    requires McpService.RequestId(a) == McpService.RequestId(b)
    requires McpService.ParamsOf(a) == McpService.ParamsOf(b)
    ensures Dispatch(transport, a, sessionId) == Dispatch(transport, b, sessionId)
  {
    DispatchOfCall(transport, a, sessionId);
    DispatchOfCall(transport, b, sessionId);
  }

  lemma SummaryListingIsLiteral()
    ensures SummaryListing() == JObject([("tools", JArray([JObject([
              ("name", JString("get_books_count")),
              ("description", JString("Get the current count of books in the collection"))])]))])
  {
    assert Summaries(ListTools()) == [ToolSummary(ListTools()[0])];
  }

  /** The transports list each tool by name and description only. */
  lemma ListingHasNoSchema(transport: Transport, request: Json, sessionId: string)
    requires request.JObject? && McpService.MethodOf(request) in LIST_ALIASES
    ensures Dispatch(transport, request, sessionId) == Success(ResultEnvelope(McpService.RequestId(request),
              JObject([("tools", JArray([JObject([
                ("name", JString("get_books_count")),
                ("description", JString("Get the current count of books in the collection"))])]))])))
  {
    DispatchOfList(transport, request, sessionId);
    SummaryListingIsLiteral();
  }

  /** Entry by entry, the transports' listing is the service's listing with
      everything but `name` and `description` dropped. */
  lemma ListingIsServiceListingRestricted()
    ensures |Summaries(ListTools())| == |Dumps(ListTools())|
    ensures forall i :: 0 <= i < |ListTools()| ==>
              Summaries(ListTools())[i] == JObject(Restrict(Dumps(ListTools())[i].fields, {"name", "description"}))
  {
    forall i | 0 <= i < |ListTools()|
      ensures Summaries(ListTools())[i] == JObject(Restrict(Dumps(ListTools())[i].fields, {"name", "description"}))
    {
      SummaryIsRestrictedDump(ListTools()[i]);
    }
  }

  lemma CallBooksCount(transport: Transport, request: Json, sessionId: string)
    requires request.JObject? && McpService.MethodOf(request) in CALL_ALIASES
    requires McpService.ParamsOf(request).JObject?
    requires DictGet(McpService.ParamsOf(request).fields, "name", JNull) == JString("get_books_count")
    ensures Dispatch(transport, request, sessionId) == Success(ResultEnvelope(McpService.RequestId(request),
              JObject([("content", JArray([JObject([("type", JString("text")),
                                                    ("text", JString("Current books count: 1"))])]))])))
  {
    DispatchOfCall(transport, request, sessionId);
  }

  lemma CallUnknownTool(transport: Transport, request: Json, sessionId: string)
    requires request.JObject? && McpService.MethodOf(request) in CALL_ALIASES
    requires McpService.ParamsOf(request).JObject?
    requires DictGet(McpService.ParamsOf(request).fields, "name", JNull) != JString("get_books_count")
    ensures Dispatch(transport, request, sessionId) == Success(ErrorEnvelope(McpService.RequestId(request),
              METHOD_NOT_FOUND, "Unknown tool: " + Str(DictGet(McpService.ParamsOf(request).fields, "name", JNull))))
  {
    DispatchOfCall(transport, request, sessionId);
  }

  /** `initialize` is a method only on `/simple`; elsewhere it is not found. */
  lemma InitializeOnlyOnSimple(transport: Transport, request: Json, sessionId: string)
    requires request.JObject? && McpService.MethodOf(request) == JString("initialize")
    ensures transport == SimpleHttp ==>
              Dispatch(transport, request, sessionId)
              == Success(ResultEnvelope(McpService.RequestId(request), Session.InitializationOptions(sessionId)))
    ensures transport != SimpleHttp ==>
              Dispatch(transport, request, sessionId)
              == Success(ErrorEnvelope(McpService.RequestId(request), METHOD_NOT_FOUND, "Method not found"))
  {
    assert JString("initialize") !in LIST_ALIASES && JString("initialize") !in CALL_ALIASES;
  }

  /** An unrecognised method is not found, with a message that does not name it. */
  lemma UnknownMethodUnnamed(transport: Transport, request: Json, sessionId: string)
    requires request.JObject?
    requires McpService.MethodOf(request) !in LIST_ALIASES + CALL_ALIASES
    requires transport != SimpleHttp || McpService.MethodOf(request) != JString("initialize")
    ensures Dispatch(transport, request, sessionId)
         == Success(ErrorEnvelope(McpService.RequestId(request), METHOD_NOT_FOUND, "Method not found"))
  {
  }

  // ---------------------------------------------------------------------
  // Where the two dispatchers agree and where they differ

  /** A `tools/call` with dict params gets the same envelope from every
      transport as from the service. */
  lemma CallAgreesWithService(transport: Transport, request: Json, sessionId: string)
    requires request.JObject? && McpService.MethodOf(request) == JString("tools/call")
    requires McpService.ParamsOf(request).JObject?
    ensures Dispatch(transport, request, sessionId)
         == Success(McpService.HandleRequest(request, sessionId).response)
  {
    DispatchOfCall(transport, request, sessionId);
    McpService.HandleOfCall(request, sessionId);
    if DictGet(McpService.ParamsOf(request).fields, "name", JNull) == JString(BOOKS_COUNT_TOOL) {
      McpService.CallBooksCount(request, sessionId);
      CallBooksCount(transport, request, sessionId);
    } else {
      McpService.CallUnknownTool(request, sessionId);
      CallUnknownTool(transport, request, sessionId);
    }
  }

  lemma SimpleInitializeAgreesWithService(request: Json, sessionId: string)
    requires request.JObject? && McpService.MethodOf(request) == JString("initialize")
    ensures Dispatch(SimpleHttp, request, sessionId)
         == Success(McpService.HandleRequest(request, sessionId).response)
  {
  }

  /** A `tools/call` whose params are not a dict: the service still answers
      with an internal-error envelope, the transports' dispatch raises. */
  lemma BadParamsDiverge(transport: Transport, request: Json, sessionId: string)
    requires request.JObject? && McpService.MethodOf(request) == JString("tools/call")
    requires !McpService.ParamsOf(request).JObject?
    ensures Dispatch(transport, request, sessionId) == Failure(NoAttribute(McpService.ParamsOf(request), "get"))
    ensures ErrorCode(McpService.HandleRequest(request, sessionId).response) == Some(INTERNAL_ERROR)
  {
    DispatchOfCall(transport, request, sessionId);
  }

  /** A method neither dispatcher knows: both say -32601, but only the
      service names the method. */
  lemma UnknownMethodMessagesDiffer(transport: Transport, request: Json, sessionId: string)
    requires request.JObject?
    requires McpService.MethodOf(request) !in LIST_ALIASES + CALL_ALIASES + [JString("initialize")]
    ensures ErrorMessage(Dispatch(transport, request, sessionId).value) == Some("Method not found")
    ensures ErrorMessage(McpService.HandleRequest(request, sessionId).response)
         == Some("Method not found: " + Str(McpService.MethodOf(request)))
    ensures Dispatch(transport, request, sessionId).value != McpService.HandleRequest(request, sessionId).response
  {
    UnknownMethodUnnamed(transport, request, sessionId);
    McpService.UnknownMethodNamed(request, sessionId);
    var named := "Method not found: " + Str(McpService.MethodOf(request));
    assert |named| > |"Method not found"|;
  }

  // ---------------------------------------------------------------------
  // The boundary

  /** What the boundary of `transport` promises about its reply to `body`:
      every HTTP reply other than the 400 is a JSON-RPC envelope; a reply
      carries an identifier, or is a WebSocket frame, only when the body
      decoded to a request and the dispatch succeeded, and then it is the
      dispatched envelope, echoing that request's identifier; a non-empty
      body whose decoding or dispatch raised gets an HTTP reply with code
      -32603 and no identifier, and so does every 500. */
  predicate BoundaryReply(reply: Reply, transport: Transport, body: seq<Byte>,
                          loads: seq<Byte> -> Result<Json>, sessionId: string)
  {
    var dispatched := DecodeAndDispatch(transport, body, loads, sessionId);
    && (reply.Http? && reply.status != 400 ==> Tagged(reply.body) && (IsResult(reply.body) || IsError(reply.body)))
    && (reply.Http? && reply.status == 400 ==> reply.body == NO_BODY && !Tagged(reply.body))
    && (reply.Http? && HasId(reply.body) ==>
          && dispatched.Success? && reply.body == dispatched.value
          && loads(body).Success? && loads(body).value.JObject?
          && IsReplyTo(reply.body, McpService.RequestId(loads(body).value)))
    && (reply.WsSend? ==>
          && dispatched.Success? && reply.message == dispatched.value
          && loads(body).Success? && loads(body).value.JObject?
          && IsReplyTo(reply.message, McpService.RequestId(loads(body).value)))
    && (reply.Http? && body != [] && dispatched.Failure? ==>
          !HasId(reply.body) && ErrorCode(reply.body) == Some(INTERNAL_ERROR))
    && (reply.Http? && reply.status == 500 ==> !HasId(reply.body) && ErrorCode(reply.body) == Some(INTERNAL_ERROR))
  }

  lemma WebSocketBoundary(body: seq<Byte>, loads: seq<Byte> -> Result<Json>, sessionId: string)
    ensures BoundaryReply(ServeWebSocket(body, loads, sessionId), WebSocket, body, loads, sessionId)
  {
  }

  lemma TrueStreamBoundary(body: seq<Byte>, loads: seq<Byte> -> Result<Json>, sessionId: string)
    ensures BoundaryReply(ServeTrueStream(body, loads, sessionId), TrueHttpStream, body, loads, sessionId)
  {
  }

  lemma PlainBoundary(transport: Transport, body: seq<Byte>, loads: seq<Byte> -> Result<Json>, sessionId: string)
    requires transport in {SimpleHttp, HttpStream, LongPolling}
    ensures BoundaryReply(ServePlain(transport, body, loads, sessionId), transport, body, loads, sessionId)
  {
    assert Lookup(NO_BODY.fields, "jsonrpc") == None;
  }

  /** Every handler keeps the boundary's promise. */
  lemma BoundaryReplies(transport: Transport, body: seq<Byte>, loads: seq<Byte> -> Result<Json>, sessionId: string)
    ensures BoundaryReply(Serve(transport, body, loads, sessionId), transport, body, loads, sessionId)
  {
    match transport
    case WebSocket => WebSocketBoundary(body, loads, sessionId);
    case TrueHttpStream => TrueStreamBoundary(body, loads, sessionId);
    case _ => PlainBoundary(transport, body, loads, sessionId);
  }
}
