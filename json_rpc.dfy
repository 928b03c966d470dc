/** The JSON-RPC 2.0 envelopes the dispatchers build (section 5 of the
    JSON-RPC 2.0 Specification) and the fixed error codes of its section 5.1
    that they use. */
module JsonRpc {
  import opened Wrappers
  import opened PyJson

  const VERSION: string := "2.0"
  const METHOD_NOT_FOUND: int := -32601
  const INTERNAL_ERROR: int := -32603
  const PARSE_ERROR: int := -32700

  /** The envelope is an object tagged `"jsonrpc": "2.0"`. */
  predicate Tagged(e: Json) {
    e.JObject? && Lookup(e.fields, "jsonrpc") == Some(JString(VERSION))
  }

  predicate HasId(e: Json) {
    e.JObject? && "id" in Keys(e.fields)
  }

  /** The envelope carries exactly the identifier `id`. */
  predicate Echoes(e: Json, id: Json) {
    e.JObject? && Lookup(e.fields, "id") == Some(id)
  }

  /** A success envelope: it has a `result` member and no `error` member. */
  predicate IsResult(e: Json) {
    e.JObject? && "result" in Keys(e.fields) && "error" !in Keys(e.fields)
  }

  /** An error envelope: it has an `error` member and no `result` member. */
  predicate IsError(e: Json) {
    e.JObject? && "error" in Keys(e.fields) && "result" !in Keys(e.fields)
  }

  /** A well-formed reply to a request whose identifier was `id`. */
  predicate IsReplyTo(e: Json, id: Json) {
    Tagged(e) && Echoes(e, id) && (IsResult(e) || IsError(e))
  }

  function ResultOf(e: Json): Option<Json> {
    if e.JObject? then Lookup(e.fields, "result") else None
  }

  function ErrorCode(e: Json): Option<int> {
    if !e.JObject? then None
    else match Lookup(e.fields, "error")
      case Some(JObject(err)) =>
        (match Lookup(err, "code") case Some(JInt(code)) => Some(code) case _ => None)
      case _ => None
  }

  function ErrorMessage(e: Json): Option<string> {
    if !e.JObject? then None
    else match Lookup(e.fields, "error")
      case Some(JObject(err)) =>
        (match Lookup(err, "message") case Some(JString(m)) => Some(m) case _ => None)
      case _ => None
  }

  /** `{"jsonrpc": "2.0", "id": id, "result": result}` */
  function ResultEnvelope(id: Json, result: Json): (e: Json)
    ensures IsReplyTo(e, id) && IsResult(e)
    ensures ResultOf(e) == Some(result)
  {
    var fields := [("jsonrpc", JString(VERSION)), ("id", id), ("result", result)];
    assert Keys(fields) == ["jsonrpc", "id", "result"];
    JObject(fields)
  }

  /** `{"jsonrpc": "2.0", "id": id, "error": {"code": code, "message": message}}` */
  function ErrorEnvelope(id: Json, code: int, message: string): (e: Json)
    ensures IsReplyTo(e, id) && IsError(e)
    ensures ErrorCode(e) == Some(code) && ErrorMessage(e) == Some(message)
  {
    var err := [("code", JInt(code)), ("message", JString(message))];
    var fields := [("jsonrpc", JString(VERSION)), ("id", id), ("error", JObject(err))];
    assert Keys(fields) == ["jsonrpc", "id", "error"];
    LookupFound(err, 1);
    JObject(fields)
  }

  /** `{"jsonrpc": "2.0", "error": {"code": code, "message": message}}`: an
      error envelope built where no request identifier is at hand. */
  function AnonymousError(code: int, message: string): (e: Json)
    ensures Tagged(e) && IsError(e) && !HasId(e)
    ensures ErrorCode(e) == Some(code) && ErrorMessage(e) == Some(message)
  {
    var err := [("code", JInt(code)), ("message", JString(message))];
    var fields := [("jsonrpc", JString(VERSION)), ("error", JObject(err))];
    assert Keys(fields) == ["jsonrpc", "error"];
    LookupFound(err, 1);
    JObject(fields)
  }
}
