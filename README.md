# talebook-mcp dispatcher model

A Dafny model of the request handling of the talebook-mcp server, a Model
Context Protocol (revision 2024-11-05) tool server that speaks JSON-RPC 2.0.
The server exposes one tool, `get_books_count`, which always answers
`"Current books count: 1"`. Requests reach one of two dispatchers that
disagree with each other, so each has its own model:

- `MCPService.handle_request` (`src/mcp_service.py`) is modelled by the
  module `McpService`. It recognises `initialize`, `tools/list` and
  `tools/call`. Every other method, the `mcp:` aliases included, is
  method-not-found and the message names the method. An exception inside its
  `try` becomes a -32603 envelope that keeps the id. A request that is not an
  object raises before the `try` and escapes.
- The dispatch copied into the five handlers of `src/multi_transport_server.py`
  is modelled by the module `MultiTransport`. It accepts `mcp:list-tools` and
  `mcp:call-tool` as aliases. Its method-not-found message is the bare
  `"Method not found"`. Its listing carries only name and description. Only
  `/simple` knows `initialize`. Around it sits each handler's boundary. On
  `/simple`, `/stream`, `/poll` and `/true-stream` that is the empty body
  check, `json.loads`, and the `except` that turns any exception into an
  envelope without an id. On `/ws` it is `json.loads` alone, and any
  exception closes the socket.

Shared pieces:

- `PyJson` holds decoded JSON values and the Python behaviour the code relies
  on. Objects are association lists, because Python dicts keep insertion
  order and that order reaches the wire. The module also covers `dict.get`,
  the `AttributeError` raised by `.get` on a non-dict, truthiness for
  `arguments or {}`, and `str()`/`repr()` as f-strings use them.
- `JsonRpc` holds the envelopes of section 5 of the JSON-RPC 2.0
  Specification and the codes -32601, -32603 and -32700 of its section 5.1.
- `Tools` holds the tool table. `list_tools`, `call_tool` and
  `get_books_count` are textual copies in `src/server.py:27-68`,
  `src/standalone_server.py:47-84`, `src/multi_transport_server.py:58-91` and
  `src/mcp_service.py:28-75`. They are modelled once and cited at
  `src/server.py`.
- `Session` holds `create_initialization_options`. It has copies in
  `src/mcp_service.py:77-92`, `src/multi_transport_server.py:40-55`,
  `src/standalone_server.py:29-44`, and an inline copy in `/simple` at
  `src/multi_transport_server.py:203-219`.
- `TalebookServer` and `StandaloneServer` hold the HTTP routes of
  `src/server.py` and `src/standalone_server.py` that shape tool results.

Parameters stand for what the code takes from outside. `sessionId` is the
text of `uuid.uuid4()`. `loads` is `json.loads`, a partial function from the
body bytes to a value or the text of the exception it raises.

Behaviour of the code worth noting:
- the `mcp:` aliases are not accepted by `MCPService`;
- the transports' unknown-method message does not name the method;
- the transports' tool listing has no `inputSchema`;
- `initialize` is method-not-found on `/ws`, `/stream`, `/true-stream` and `/poll`;
- an exception on `/simple`, `/stream`, `/poll` and `/true-stream` yields an
  envelope with no `id`;
- on those four routes an undecodable body gives -32603, not -32700. Only an
  empty body on `/true-stream` gives -32700;
- on `/ws` any exception, an undecodable frame included, closes the socket
  and no reply is sent;
- on `/true-stream` every reply has HTTP status 200, errors included. The
  response is a `StreamingResponse`, whose status is fixed before the body
  is produced;
- the tool table is fixed; nothing registers tools at run time.

## Model

| member | source | states |
|---|---|---|
| `PyJson.DictGet` | src/mcp_service.py:104-106 | `d.get(key, default)` on a dict returns the stored value, or the default when the key is absent; so an absent `id` reads as null |
| `PyJson.Get` | src/mcp_service.py:129 | `.get` succeeds exactly on a dict; on any other value it fails with `'<type>' object has no attribute 'get'` |
| `PyJson.Or` | src/server.py:46 | `arguments or {}` keeps a truthy value and replaces a falsy one (None, empty dict) by the default |
| `PyJson.Lookup` | src/mcp_service.py:104-106 | a dict lookup finds nothing exactly when the key is not among the keys, and what it finds is stored under that key |
| `PyJson.TypeName` | src/mcp_service.py:129 | the type name in the AttributeError is `dict` exactly for a dict and `NoneType` exactly for null |
| `PyJson.NoAttribute` | src/mcp_service.py:129 | the AttributeError text holds the value's type name after the opening quote and the attribute before the closing one |
| `PyJson.NoAttributeNamesType` | src/mcp_service.py:154-160 | two AttributeError texts for the same attribute are equal exactly when the values have the same type |
| `PyJson.Repr` | src/mcp_service.py:143 | `repr` of an int reads back as that int, of a string is quoted as Python quotes it, of a list is in brackets and of a dict in braces |
| `PyJson.Str` | src/mcp_service.py:151 | `str()` of a string is the string itself, of null is `None`, of an int reads back as that int, and of a list or dict is bracketed as `repr` writes it |
| `PyJson.NatToString` | src/mcp_service.py:55 | `str(n)` of a natural is a non-empty string of decimal digits without leading zeros |
| `PyJson.NatToStringRoundTrip` | src/mcp_service.py:55 | reading the rendered digits back gives the number again |
| `PyJson.IntToString` | src/mcp_service.py:143 | `str(i)` is digits, preceded by `-` exactly for negatives |
| `PyJson.IntToStringRoundTrip` | src/mcp_service.py:143 | parsing `str(i)` gives `i` for every integer |
| `PyJson.StrRepr` | src/mcp_service.py:143 | `repr` of a string is enclosed in the quote Python picks: double only when the text has a single quote and no double quote |
| `PyJson.EscapePlainText` | src/mcp_service.py:143 | text with no quote, backslash or control character passes through escaping unchanged |
| `PyJson.PlainTextRepr` | src/mcp_service.py:143 | the `repr` of such text is the text between single quotes |
| `McpService.MethodOf` | src/mcp_service.py:104 | the method is the stored `method` member, or null when it is absent |
| `McpService.RequestId` | src/mcp_service.py:105 | the id is the stored `id` member, or null when it is absent |
| `McpService.ParamsOf` | src/mcp_service.py:106 | the params are the stored `params` member, or `{}` when it is absent |
| `McpService.ListingResult` | src/mcp_service.py:119-124 | the service's `tools/list` result is `{"tools": [...]}` with the full dump of each listed tool, in order |
| `MultiTransport.SummaryListing` | src/multi_transport_server.py:149-155 | the transports' listing is `{"tools": [...]}` with the name/description summary of each listed tool, in order |
| `MultiTransport.DecodeAndDispatch` | src/multi_transport_server.py:145-176 | a body `json.loads` refuses fails with its exception text; a decoded body is dispatched, and a successful reply echoes the decoded request's id |
| `MultiTransport.Serve` | src/multi_transport_server.py:135-437 | `/ws` answers with a frame or a close, `/true-stream` with the streaming handler, `/simple`, `/stream` and `/poll` with the plain handler; every route except `/ws` answers over HTTP |
| `JsonRpc.ResultEnvelope` | src/mcp_service.py:112-116 | a success envelope is tagged `"2.0"`, echoes the id, and has `result` and no `error` |
| `JsonRpc.ErrorEnvelope` | src/mcp_service.py:148-152 | an error envelope is tagged `"2.0"`, echoes the id, has `error` and no `result`, with the given code and message |
| `JsonRpc.AnonymousError` | src/multi_transport_server.py:253-256 | the handlers' exception envelope is tagged and an error, but has no `id` member |
| `Tools.ListTools` | src/server.py:27-40 | exactly one tool, `get_books_count` with its description, names unique, schema of type object with no properties and no required fields |
| `Tools.GetBooksCount` | src/server.py:50-68 | returns one text item `"Current books count: 1"` whatever the arguments |
| `Tools.CallTool` | src/server.py:42-48 | succeeds exactly for a listed tool name, with the books-count text; any other name fails with `Unknown tool: <name>` |
| `Tools.ToolDump` | src/mcp_service.py:124 | a dumped descriptor has exactly the members name, description, inputSchema, in that order, holding the tool's name, description and input schema |
| `Tools.ToolSummary` | src/multi_transport_server.py:154 | a summarised descriptor has exactly the members name and description, holding the tool's name and description |
| `Tools.SummaryIsRestrictedDump` | src/multi_transport_server.py:150-155 | the summary is the dump with everything but name and description dropped, so it has no `inputSchema` |
| `Tools.Restrict` | src/multi_transport_server.py:154 | keeping the chosen keys of a dict keeps exactly those entries |
| `Tools.Summaries` | src/server.py:86 | the name/description listing has one entry per tool, in order |
| `Tools.Dumps` | src/mcp_service.py:124 | the full listing has one dump per tool, in order |
| `Tools.ContentResult` | src/mcp_service.py:137 | a tool-call result has the single member `content`, a one-item list whose item has type `"text"` and the first output item's text |
| `Session.InitializationOptions` | src/standalone_server.py:29-44 | the record has the members protocolVersion `"2024-11-05"`, capabilities `{"tools":{}}`, serverInfo `{"name":"talebook-mcp","version":"1.0.0"}` and the given sessionId, in that order |
| `Session.OnlySessionIdVaries` | src/mcp_service.py:77-92 | two records are equal exactly when their session ids are, and they always agree on the other three members |
| `McpService.Respond` | src/mcp_service.py:108-152 | the `try` block returns a well-formed reply echoing the id, and raises exactly for `tools/call` with non-dict params, with the AttributeError text |
| `McpService.HandleRequest` | src/mcp_service.py:94-160 | raises exactly when the request is not an object; otherwise returns a reply tagged `"2.0"` that echoes the request id (null when absent) and has exactly one of result and error |
| `McpService.InitializeReturnsSession` | src/mcp_service.py:110-116 | `initialize` returns the session record for the generated id |
| `McpService.ListingHoldsFullDescriptor` | src/mcp_service.py:119-125 | `tools/list` returns the single `get_books_count` descriptor, including its input schema |
| `McpService.CallBooksCount` | src/mcp_service.py:128-138 | `tools/call` of `get_books_count` returns the books-count content whatever the arguments |
| `McpService.CallUnknownTool` | src/mcp_service.py:139-144 | `tools/call` of any other name is -32601 `Unknown tool: <str(name)>` |
| `McpService.CallWithoutToolName` | src/mcp_service.py:129-144 | a missing tool name is -32601 `Unknown tool: None` |
| `McpService.UnknownMethodNamed` | src/mcp_service.py:147-152 | any method other than `initialize`, `tools/list` and `tools/call` is -32601 `Method not found: <str(method)>` |
| `McpService.AliasesUnknownToService` | src/mcp_service.py:117-152 | the aliases `mcp:list-tools` and `mcp:call-tool` are -32601 with the message naming the alias |
| `McpService.InternalErrorExactlyForBadParams` | src/mcp_service.py:154-160 | -32603 occurs exactly for `tools/call` with non-dict params, with `Internal error: ` and the AttributeError text, and keeps the id |
| `McpService.ErrorCodesAreFixed` | src/mcp_service.py:140-160 | every error the service returns has code -32601 or -32603 |
| `MultiTransport.CallBranch` | src/multi_transport_server.py:227-241 | the call branch echoes the id and raises exactly when params is not a dict |
| `MultiTransport.Dispatch` | src/multi_transport_server.py:202-247 | the inline dispatch returns a reply echoing the request id, and raises exactly for a non-object request or a call alias with non-dict params |
| `MultiTransport.Route` | src/multi_transport_server.py:202-247 | once method, id and params are read, the branch replies echo the id, and raise exactly for a call alias with non-dict params, with the AttributeError text |
| `MultiTransport.ServeWebSocket` | src/multi_transport_server.py:142-185 | a frame is answered with the dispatched envelope, or the socket is closed when decoding or dispatch raises |
| `MultiTransport.ServePlain` | src/multi_transport_server.py:193-256 | an empty body is 400 `{"error":"No request body"}`; a dispatched envelope is 200; an exception is 500 with an id-less -32603 envelope carrying the exception text (on the modelled values; see Left out) |
| `MultiTransport.ServeTrueStream` | src/multi_transport_server.py:319-373 | status is always 200; an empty body is an id-less -32700 `Parse error: No request body`; an exception is an id-less -32603 |
| `MultiTransport.ListAliasesAgree` | src/multi_transport_server.py:149-155 | `tools/list` and `mcp:list-tools` give identical results on every transport |
| `MultiTransport.CallAliasesAgree` | src/multi_transport_server.py:156-170 | `tools/call` and `mcp:call-tool` give identical results on every transport |
| `MultiTransport.ListingHasNoSchema` | src/multi_transport_server.py:150-155 | the listing is the one tool with name and description only |
| `MultiTransport.ListingIsServiceListingRestricted` | src/multi_transport_server.py:58-71 | entry by entry, the transports' listing is the service's listing without `inputSchema` |
| `MultiTransport.CallBooksCount` | src/multi_transport_server.py:156-164 | calling `get_books_count` returns the books-count content, whatever the arguments |
| `MultiTransport.CallUnknownTool` | src/multi_transport_server.py:165-170 | any other or missing tool name is -32601 `Unknown tool: <str(name)>` |
| `MultiTransport.InitializeOnlyOnSimple` | src/multi_transport_server.py:202-219 | `initialize` returns the session record on `/simple` and is -32601 `Method not found` on every other transport |
| `MultiTransport.UnknownMethodUnnamed` | src/multi_transport_server.py:171-176 | an unrecognised method is -32601 with the fixed message `Method not found` |
| `MultiTransport.CallAgreesWithService` | src/multi_transport_server.py:227-241 | for `tools/call` with dict params every transport gives the same envelope as the service |
| `MultiTransport.SimpleInitializeAgreesWithService` | src/multi_transport_server.py:203-219 | `/simple`'s `initialize` gives the same envelope as the service's |
| `MultiTransport.BadParamsDiverge` | src/multi_transport_server.py:251-256 | for `tools/call` with non-dict params the transports raise, while the service returns -32603 |
| `MultiTransport.UnknownMethodMessagesDiffer` | src/multi_transport_server.py:242-247 | for a method neither knows, both answer -32601 but with different messages, and only the service names the method |
| `MultiTransport.WebSocketBoundary` | src/multi_transport_server.py:142-185 | a `/ws` frame is sent only when the frame decoded to a request and the dispatch succeeded; it is the dispatched envelope and echoes the request's id |
| `MultiTransport.TrueStreamBoundary` | src/multi_transport_server.py:319-373 | every `/true-stream` reply is a tagged envelope; it has an id only when the dispatch succeeded, and then echoes the decoded request's id; a non-empty body whose decoding or dispatch raised gets -32603 and no id |
| `MultiTransport.PlainBoundary` | src/multi_transport_server.py:193-256 | on `/simple`, `/stream` and `/poll` the 400 reply is the plain `{"error": ...}` object and every other reply a tagged envelope; a reply has an id only when the dispatch succeeded, and then echoes the decoded request's id; an exception gets -32603 and no id |
| `MultiTransport.BoundaryReplies` | src/multi_transport_server.py:135-437 | on every route, every HTTP reply except the 400 is a tagged envelope; a reply with an id, or a `/ws` frame, exists only when the dispatch succeeded and echoes the decoded request's id; an HTTP reply to a body whose decoding or dispatch raised, and every 500, has code -32603 and no id |
| `TalebookServer.ToolsRoute` | src/server.py:82-86 | `/tools` is `{"tools": [...]}` with one name/description entry per listed tool, in order |
| `TalebookServer.FirstTextOrNoResult` | src/server.py:92 | the first item's text, or `No result` for an empty list |
| `TalebookServer.BooksCountRoute` | src/server.py:88-92 | `/tools/get_books_count` is `{"result": "Current books count: 1"}` |
| `StandaloneServer.InfoRoute` | src/standalone_server.py:132-146 | `/info` names the server and transport and lists one name/description entry per tool, in order |
| `StandaloneServer.InfoListsToolsLikeToolsRoute` | src/standalone_server.py:135-146 | `/info`'s tool list is the same as `/tools` of the other server |

## Left out

- Transport I/O is not modelled: FastAPI routing, uvicorn, `StreamingResponse` chunking, JSON encoding of replies, stdio. Each handler is modelled for one message.
- The WebSocket `while True` loop, `WebSocketDisconnect` and the close call are not modelled. One frame is modelled, and closing is a reply value.
- The `/sse` handlers of `src/multi_transport_server.py` and `src/standalone_server.py` are not modelled. They hand the connection to the `mcp` library's `server.run`, which is not part of this model. This also covers the `@server.list_tools()`/`@server.call_tool()` registration; the decorated functions are modelled directly.
- `json.loads` is the parameter `loads`. JSON parsing, duplicate-key resolution and Python's integer-size limit belong to it.
- JSON numbers with a fraction or an exponent (Python floats), and the `NaN`/`Infinity` tokens `json.loads` accepts, are not values of the model.
- `MultiTransport.ServePlain`: model strings are sequences of Unicode scalar values, so a lone surrogate (which `json.loads` accepts from a `\ud800` escape) cannot occur, and rendering a reply is not modelled. `JSONResponse` renders inside the `try` with `allow_nan=False` and UTF-8 encoding, so a request echoing such a string, or an id of `NaN` or `Infinity`, gets 500 with an id-less -32603 envelope where the model answers 200. Reply rendering in `/ws` and `/true-stream` is not modelled either.
- `PyJson.Lookup` takes the first entry under a key, where a dict built by `json.loads` keeps the last. Decoded dicts never repeat a key, so this only matters for objects `loads` cannot return; `loads` is not constrained to produce distinct keys.
- `uuid.uuid4()` is the parameter `sessionId`. Distinct session ids across `initialize` calls depend on randomness. The model proves only that distinct ids give distinct records.
- Logging is not modelled, and neither are the constant routes `/`, `/health` and `/transports`. `polling_queues` is never read or written.
- `PyJson.StrRepr` escapes the ASCII and C1 control characters as Python does. It keeps every other character unescaped, whereas Python also escapes non-printable ones such as U+00A0 or unassigned code points.
- The `except` branch of `get_books_count` is not modelled: its body cannot raise.
- `src/generate_config.py` is not part of this model.
