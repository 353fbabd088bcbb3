/**
 * The MCP endpoint: a stateless JSON-RPC 2.0 dispatcher (`POST`) over the
 * closed method set ping, query, status, topics and initialize, its helper
 * handlers, and the static discovery document (`GET`).
 *
 * The error codes are those of section 5.1 of the JSON-RPC 2.0
 * Specification: -32600 invalid request, -32601 method not found,
 * -32602 invalid params, -32603 internal error.
 */
module McpRoute {
  import opened Wrappers
  import opened JsValues
  import opened DigitalTwin

  const JsonRpcVersion := "2.0"
  const InvalidRequest := -32600
  const MethodNotFound := -32601
  const InvalidParams := -32602
  const InternalError := -32603

  const ServerName := "Digital Twin MCP Server"
  const InvalidVersionMessage := "Invalid Request: jsonrpc must be '2.0'"
  const MissingQuestionMessage := "Missing 'question' parameter"
  const NoVectorsMessage := "No vectors found in database. Please run the Python embedding script first."
  const ReadyMessage := "MCP server is ready!"

  /** The V8 TypeError for reading `body.jsonrpc` when the body is JSON `null`. */
  const NullBodyMessage := "Cannot read properties of null (reading 'jsonrpc')"
  /** The V8 TypeError for `question.trim()` when `params.question` is truthy but not a string. */
  const QuestionNotStringMessage := "question.trim is not a function"

  /** The request body: `request.json()` either throws or yields a JSON value. */
  datatype Body = Unparsable(thrown: Thrown) | Parsed(value: Json)

  /** The `database` member of an initialize result. */
  datatype DatabaseSummary = FullInfo(info: DbInfo) | CountAndDimension(vectorCount: nat, dimension: nat)

  /** The `result` member of a successful response, one shape per method. */
  datatype Payload =
    | Pong(status: string, message: string)
    | Answer(answer: string, sources: seq<Source>, question: string)
    | ServerStatus(server: string, status: string, connected: bool, vectorCount: nat, dimension: nat, model: string)
    | TopicList(topics: seq<string>, count: nat)
    | Readiness(initialized: bool, message: string, database: DatabaseSummary)

  /**
   * A response envelope. A successful one echoes the request's `id` as it
   * was (absent stays absent) and is sent with HTTP 200; an error one
   * carries a code, a message, an id and its HTTP status.
   */
  datatype Response =
    | Reply(jsonrpc: string, result: Payload, id: Option<Json>)
    | ErrorReply(jsonrpc: string, code: int, message: string, errorId: Json, httpStatus: nat)

  function HttpStatus(r: Response): nat {
    match r
    case Reply(_, _, _) => 200
    case ErrorReply(_, _, _, _, status) => status
  }

  /** A response together with the external calls made while computing it. */
  datatype Exchange = Exchange(response: Response, calls: seq<Call>)

  /** What a handler does: return a result, or throw. */
  datatype Outcome = Returned(result: Payload, calls: seq<Call>) | Threw(thrown: Thrown, calls: seq<Call>)

  // ---------------------------------------------------------------------
  // Handlers

  /**
   * `handleQuery`: run the pipeline; a failed pipeline result is re-thrown
   * as an Error carrying its message (or "Query failed" when that is empty).
   */
  function HandleQuery(question: Json, w: World): (o: Outcome)
    ensures question.JString? ==> o.calls == QueryDigitalTwin(question.s, w).calls
    ensures question.JString? && QueryDigitalTwin(question.s, w).response.Answered? ==>
      var r := QueryDigitalTwin(question.s, w).response;
      o == Returned(Answer(r.answer, r.sources, question.s), o.calls)
    ensures question.JString? && QueryDigitalTwin(question.s, w).response.Failed? ==>
      var e := QueryDigitalTwin(question.s, w).response.error;
      o.Threw? && o.thrown == ErrorObject(if e != "" then e else "Query failed")
    ensures !question.JString? ==> o == Threw(ErrorObject(QuestionNotStringMessage), [])
  {
    match question
    case JString(q) =>
      var run := QueryDigitalTwin(q, w);
      (match run.response
       case Failed(e) => Threw(ErrorObject(if e != "" then e else "Query failed"), run.calls)
       case Answered(a, s) => Returned(Answer(a, s, q), run.calls))
    case _ =>
      // `queryDigitalTwin` fails on `question.trim()` before any external call.
      Threw(ErrorObject(QuestionNotStringMessage), [])
  }

  /** `handleStatus`: never throws; `connected` is whether the introspection succeeded. */
  function HandleStatus(w: World): (o: Outcome)
    ensures o.Returned? && o.result.ServerStatus?
    ensures o.result.connected == GetDatabaseInfo(w).info.DbConnected?
    ensures o.result.connected ==>
      o.result.vectorCount == GetDatabaseInfo(w).info.vectorCount && o.result.dimension == GetDatabaseInfo(w).info.dimension
    ensures !o.result.connected ==> o.result.vectorCount == 0 && o.result.dimension == 0
  {
    var db := GetDatabaseInfo(w);
    var count := if db.info.DbConnected? then db.info.vectorCount else 0;
    var dimension := if db.info.DbConnected? then db.info.dimension else 0;
    Returned(ServerStatus(ServerName, "operational", db.info.DbConnected?, count, dimension, "llama-3.1-8b-instant (via Groq)"), db.calls)
  }

  /** `handleTopics`: the topic list and its length; no external call. */
  function HandleTopics(): (o: Outcome)
    ensures o.Returned? && o.calls == [] && o.result.TopicList?
    ensures o.result.topics == ListTopics() && o.result.count == |o.result.topics| == 8
  {
    var topics := ListTopics();
    Returned(TopicList(topics, |topics|), [])
  }

  /**
   * `handleInitialize`: throws when the database is unavailable; otherwise
   * reports `initialized` exactly when the index holds vectors.
   */
  function HandleInitialize(w: World): (o: Outcome)
    ensures o.calls == GetDatabaseInfo(w).calls
    ensures GetDatabaseInfo(w).info.DbUnavailable? ==>
      o.Threw? && o.thrown == ErrorObject("Failed to connect to database: " + GetDatabaseInfo(w).info.error)
    ensures GetDatabaseInfo(w).info.DbConnected? ==>
      o.Returned? && o.result.Readiness? && (o.result.initialized <==> GetDatabaseInfo(w).info.vectorCount != 0)
    ensures o.Returned? && o.result.Readiness? && !o.result.initialized ==>
      o.result.database == FullInfo(GetDatabaseInfo(w).info)
  {
    var db := GetDatabaseInfo(w);
    match db.info
    case DbUnavailable(e) =>
      Threw(ErrorObject("Failed to connect to database: " + e), db.calls)
    case DbConnected(count, dimension, _) =>
      if count == 0 then Returned(Readiness(false, NoVectorsMessage, FullInfo(db.info)), db.calls)
      else Returned(Readiness(true, ReadyMessage, CountAndDimension(count, dimension)), db.calls)
  }

  // ---------------------------------------------------------------------
  // POST

  /** Where the `switch (body.method)` leads. */
  datatype Routing = Handled(outcome: Outcome) | UnknownMethod | MissingQuestion

  /** `body.params.question`, read only when `params` is present. */
  function QuestionParam(params: Option<Json>): Option<Json> {
    match params
    case None => None
    case Some(p) => Field(p, "question")
  }

  /** The method switch: a closed set of names, each with its handler. */
  function Dispatch(name: Option<Json>, params: Option<Json>, w: World): (r: Routing)
    ensures r.UnknownMethod? <==>
      !(name.Some? && name.value.JString? && name.value.s in {"ping", "query", "status", "topics", "initialize"})
    ensures r.MissingQuestion? <==> name == Some(JString("query")) && !TruthyField(QuestionParam(params))
  {
    match name
    case Some(JString("ping")) =>
      Handled(Returned(Pong("ok", "Digital Twin MCP server is running"), []))
    case Some(JString("query")) =>
      var question := QuestionParam(params);
      if !TruthyField(question) then MissingQuestion else Handled(HandleQuery(question.value, w))
    case Some(JString("status")) => Handled(HandleStatus(w))
    case Some(JString("topics")) => Handled(HandleTopics())
    case Some(JString("initialize")) => Handled(HandleInitialize(w))
    case _ => UnknownMethod
  }

  /** `createErrorResponse`: a client error (HTTP 400) with a falsy id replaced by null. */
  function CreateErrorResponse(id: Option<Json>, code: int, message: string): (r: Response)
    ensures r.ErrorReply? && r.jsonrpc == JsonRpcVersion
    ensures r.code == code && r.message == message && r.httpStatus == 400
    ensures TruthyField(id) ==> Some(r.errorId) == id
    ensures !TruthyField(id) ==> r.errorId == JNull
  {
    ErrorReply(JsonRpcVersion, code, message, OrNull(id), 400)
  }

  /** The catch-all of `POST`: -32603, HTTP 500, and always a null id. */
  function InternalErrorResponse(e: Thrown): (r: Response)
    ensures r.ErrorReply? && r.code == InternalError && r.httpStatus == 500 && r.errorId == JNull
    ensures r.message == MessageOr(e, "Internal error")
  {
    ErrorReply(JsonRpcVersion, InternalError, MessageOr(e, "Internal error"), JNull, 500)
  }

  /** The request's `id` member as sent (absent when the body is not an object). */
  function RequestId(body: Body): Option<Json> {
    match body
    case Unparsable(_) => None
    case Parsed(v) => Field(v, "id")
  }

  /**
   * `POST /api/mcp`: validate the envelope, dispatch on the method, and wrap
   * the handler's result or fault in a response envelope.
   */
  function Post(body: Body, w: World): (ex: Exchange)
    ensures ex.response.jsonrpc == JsonRpcVersion
    ensures ex.response.Reply? ==> body.Parsed? && ex.response.id == RequestId(body)
    ensures ex.response.ErrorReply? ==>
      ex.response.code in {InvalidRequest, MethodNotFound, InvalidParams, InternalError}
    ensures ex.response.Reply? <==> HttpStatus(ex.response) == 200
    ensures ex.response.ErrorReply? ==>
      (ex.response.code == InternalError <==> HttpStatus(ex.response) == 500)
      && (ex.response.code != InternalError <==> HttpStatus(ex.response) == 400)
    ensures ex.response.ErrorReply? && ex.response.code == InternalError ==> ex.response.errorId == JNull
    ensures ex.response.ErrorReply? && ex.response.code != InternalError ==>
      ex.calls == [] && (ex.response.errorId == JNull || Some(ex.response.errorId) == RequestId(body))
    ensures ex.response.ErrorReply? && ex.response.code != InternalError && TruthyField(RequestId(body)) ==>
      Some(ex.response.errorId) == RequestId(body)
  {
    match body
    case Unparsable(e) =>
      Exchange(InternalErrorResponse(e), [])
    case Parsed(JNull) =>
      Exchange(InternalErrorResponse(ErrorObject(NullBodyMessage)), [])
    case Parsed(v) =>
      var id := Field(v, "id");
      if Field(v, "jsonrpc") != Some(JString(JsonRpcVersion)) then
        Exchange(ErrorReply(JsonRpcVersion, InvalidRequest, InvalidVersionMessage, OrNull(id), 400), [])
      else
        var requested := Field(v, "method");
        match Dispatch(requested, Field(v, "params"), w)
        case UnknownMethod =>
          // The message is built inside the try: a method the template
          // literal cannot convert throws, and the catch-all answers.
          (match TemplateString(requested)
           case None => Exchange(InternalErrorResponse(ErrorObject(ToPrimitiveMessage)), [])
           case Some(shown) => Exchange(CreateErrorResponse(id, MethodNotFound, "Method not found: " + shown), []))
        case MissingQuestion =>
          Exchange(CreateErrorResponse(id, InvalidParams, MissingQuestionMessage), [])
        case Handled(Threw(e, calls)) =>
          Exchange(InternalErrorResponse(e), calls)
        case Handled(Returned(result, calls)) =>
          Exchange(Reply(JsonRpcVersion, result, id), calls)
  }

  // ---------------------------------------------------------------------
  // Properties of POST

  /** A body that is an object-like value announcing version "2.0". */
  predicate Versioned(v: Json) {
    v != JNull && Field(v, "jsonrpc") == Some(JString(JsonRpcVersion))
  }

  /** Any other version tag is an invalid request (HTTP 400), whatever the method; nothing is called. */
  lemma WrongVersionRejected(v: Json, w: World)
    requires v != JNull && !Versioned(v)
    ensures Post(Parsed(v), w) ==
      Exchange(ErrorReply(JsonRpcVersion, InvalidRequest, InvalidVersionMessage, OrNull(Field(v, "id")), 400), [])
  {
  }

  /**
   * A method outside the five handled names that the template literal can
   * show: -32601 naming the method, HTTP 400, nothing called.
   */
  lemma UnknownMethodRejected(v: Json, w: World)
    requires Versioned(v)
    requires var m := Field(v, "method");
      !(m.Some? && m.value.JString? && m.value.s in {"ping", "query", "status", "topics", "initialize"})
    requires var m := Field(v, "method"); m.None? || !Unconvertible(m.value)
    ensures TemplateString(Field(v, "method")).Some?
    ensures Post(Parsed(v), w) == Exchange(
      CreateErrorResponse(Field(v, "id"), MethodNotFound, "Method not found: " + TemplateString(Field(v, "method")).value), [])
  {
    var m := Field(v, "method");
    if m.Some? {
      ToStringThrowsIff(m.value);
    }
    if m.Some? && m.value.JString? {
      DispatchedNames(m.value.s, Field(v, "params"), w);
    }
  }

  /**
   * A method the template literal cannot convert (an object with its own
   * `toString` member, or an array holding one) makes building the
   * "Method not found" message throw: the catch-all answers -32603 with
   * HTTP 500 and a null id, and nothing is called.
   */
  lemma UnconvertibleMethodFails(v: Json, w: World)
    requires Versioned(v)
    requires var m := Field(v, "method"); m.Some? && Unconvertible(m.value)
    ensures Post(Parsed(v), w) == Exchange(InternalErrorResponse(ErrorObject(ToPrimitiveMessage)), [])
    ensures HttpStatus(Post(Parsed(v), w).response) == 500
  {
    var m := Field(v, "method");
    ToStringThrowsIff(m.value);
    assert Dispatch(m, Field(v, "params"), w) == UnknownMethod;
  }

  /** `query` without a truthy `question`: -32602, HTTP 400, and the pipeline is never run. */
  lemma MissingQuestionRejected(v: Json, w: World)
    requires Versioned(v) && Field(v, "method") == Some(JString("query"))
    requires !TruthyField(QuestionParam(Field(v, "params")))
    ensures Post(Parsed(v), w) == Exchange(CreateErrorResponse(Field(v, "id"), InvalidParams, MissingQuestionMessage), [])
  {
  }

  /**
   * `query` with a question: a pipeline failure becomes -32603 with its
   * message and a null id; a pipeline answer is returned with the request id.
   */
  lemma QueryOutcome(v: Json, w: World, q: string)
    requires Versioned(v) && Field(v, "method") == Some(JString("query"))
    requires QuestionParam(Field(v, "params")) == Some(JString(q)) && q != ""
    ensures var run := QueryDigitalTwin(q, w);
      Post(Parsed(v), w).calls == run.calls
      && (run.response.Failed? ==>
            Post(Parsed(v), w).response ==
            ErrorReply(JsonRpcVersion, InternalError, if run.response.error != "" then run.response.error else "Query failed", JNull, 500))
      && (run.response.Answered? ==>
            Post(Parsed(v), w).response ==
            Reply(JsonRpcVersion, Answer(run.response.answer, run.response.sources, q), Field(v, "id")))
  {
    var run := QueryDigitalTwin(q, w);
    var o := HandleQuery(JString(q), w);
    DispatchQuery(v, w, q);
    PostOfHandled(v, w, o);
    assert o.calls == run.calls;
    if run.response.Failed? {
      assert o.Threw? && o.thrown == ErrorObject(if run.response.error != "" then run.response.error else "Query failed");
    } else {
      assert o == Returned(Answer(run.response.answer, run.response.sources, q), run.calls);
    }
  }

  /** `query` with a non-empty string question is handed to `handleQuery`. */
  lemma DispatchQuery(v: Json, w: World, q: string)
    requires Field(v, "method") == Some(JString("query"))
    requires QuestionParam(Field(v, "params")) == Some(JString(q)) && q != ""
    ensures Dispatch(Field(v, "method"), Field(v, "params"), w) == Handled(HandleQuery(JString(q), w))
  {
  }

  /** A versioned request whose handler ran: its outcome becomes the response. */
  lemma PostOfHandled(v: Json, w: World, o: Outcome)
    requires Versioned(v) && Dispatch(Field(v, "method"), Field(v, "params"), w) == Handled(o)
    ensures Post(Parsed(v), w) ==
      if o.Threw? then Exchange(InternalErrorResponse(o.thrown), o.calls)
      else Exchange(Reply(JsonRpcVersion, o.result, Field(v, "id")), o.calls)
  {
  }

  /**
   * `initialize`: an unavailable database is an internal error; otherwise the
   * server reports itself initialized exactly when the index holds vectors.
   */
  lemma InitializeReadiness(v: Json, w: World)
    requires Versioned(v) && Field(v, "method") == Some(JString("initialize"))
    ensures var r := Post(Parsed(v), w).response;
      (r.Reply? <==> VectorCredentialsPresent(w.creds) && w.info.Info?)
      && (r.Reply? ==> r.result.Readiness? && (r.result.initialized <==> w.info.vectorCount.GetOr(0) > 0))
      && (r.ErrorReply? ==>
            r.code == InternalError && r.errorId == JNull
            && r.message == "Failed to connect to database: " + GetDatabaseInfo(w).info.error)
  {
  }

  /** `status`: always a result; `connected` is whether the introspection succeeded. */
  lemma StatusReportsConnection(v: Json, w: World)
    requires Versioned(v) && Field(v, "method") == Some(JString("status"))
    ensures var r := Post(Parsed(v), w).response;
      r.Reply? && r.id == Field(v, "id") && r.result.ServerStatus?
      && (r.result.connected <==> VectorCredentialsPresent(w.creds) && w.info.Info?)
  {
  }

  /** `topics`: the eight topics and their count, with no external call. */
  lemma TopicsCounted(v: Json, w: World)
    requires Versioned(v) && Field(v, "method") == Some(JString("topics"))
    ensures Post(Parsed(v), w) == Exchange(Reply(JsonRpcVersion, TopicList(ListTopics(), 8), Field(v, "id")), [])
  {
    assert |ListTopics()| == 8;
  }

  /** `ping`: a constant payload, with no external call. */
  lemma PingIsConstant(v: Json, w: World)
    requires Versioned(v) && Field(v, "method") == Some(JString("ping"))
    ensures Post(Parsed(v), w) ==
      Exchange(Reply(JsonRpcVersion, Pong("ok", "Digital Twin MCP server is running"), Field(v, "id")), [])
  {
  }

  // ---------------------------------------------------------------------
  // GET: the discovery document

  datatype MethodDoc = MethodDoc(name: string, description: string, params: seq<string>)

  datatype Discovery = Discovery(
    name: string, version: string, description: string, methods: seq<MethodDoc>, mcpEndpoint: string)

  /** `GET /api/mcp`: a constant description of the server; no external call. */
  function Get(): (d: Discovery)
    ensures d.version == "1.0.0" && d.mcpEndpoint == "/api/mcp"
    ensures |d.methods| == 5 && d.methods[1].name == "query" && d.methods[1].params == ["question: string"]
  {
    Discovery(
      ServerName,
      "1.0.0",
      "AI-powered digital twin for interview preparation using RAG",
      [ MethodDoc("ping", "Check if server is running", []),
        MethodDoc("query", "Ask a question about the professional profile", ["question: string"]),
        MethodDoc("status", "Get database status and vector count", []),
        MethodDoc("topics", "List available topics in the profile", []),
        MethodDoc("initialize", "Initialize and verify MCP server setup", []) ],
      "/api/mcp")
  }

  /** The method names a discovery document lists. */
  function MethodNames(d: Discovery): set<string> {
    set m | m in d.methods :: m.name
  }

  /** The documented names are ping, query, status, topics and initialize. */
  lemma DocumentedNamesAreDispatched()
    ensures MethodNames(Get()) == {"ping", "query", "status", "topics", "initialize"}
  {
    var ms := Get().methods;
    assert ms[0].name == "ping" && ms[1].name == "query" && ms[2].name == "status";
    assert ms[3].name == "topics" && ms[4].name == "initialize";
  }

  /** The switch handles exactly the names ping, query, status, topics and initialize. */
  lemma DispatchedNames(name: string, params: Option<Json>, w: World)
    ensures !Dispatch(Some(JString(name)), params, w).UnknownMethod? <==>
      name in {"ping", "query", "status", "topics", "initialize"}
  {
  }

  /**
   * The discovery document lists exactly the methods the switch handles: a
   * name is documented if and only if dispatching it does not end in
   * "method not found".
   */
  lemma DiscoveryMatchesDispatch(name: string, params: Option<Json>, w: World)
    ensures name in MethodNames(Get()) <==> !Dispatch(Some(JString(name)), params, w).UnknownMethod?
  {
    DocumentedNamesAreDispatched();
    DispatchedNames(name, params, w);
  }

  /** Only `query` can fail for a missing parameter. */
  lemma OnlyQueryNeedsParams(name: string, params: Option<Json>, w: World)
    ensures Dispatch(Some(JString(name)), params, w).MissingQuestion? ==> name == "query"
  {
  }

  /** Only `query` documents a parameter. */
  lemma OnlyQueryDocumentsParams()
    ensures forall m :: m in Get().methods ==> (m.params != [] <==> m.name == "query")
  {
  }
}
