/**
 * The orchestrator Lambda (src/lambda/lambda_orchestrator_secure.py):
 * dispatch on the event's shape, the API Gateway routes, validation of a
 * search request and its routing by processing mode, the three workflows
 * (a search-service call, the same call with LLM processing, a Step
 * Functions execution polled at most 30 times), direct invocation and the
 * health check. Lambda, Step Functions and the clock are parameters.
 */
module Orchestrator {
  import opened Wrappers
  import opened Strings
  import opened JsonValue
  import opened Security
  import RiskOutput

  /** The services the orchestrator invokes. */
  datatype Service = SearchService | ScreeningService

  /** A synchronous Lambda invocation: its StatusCode and its decoded payload. */
  datatype Invocation = Invocation(statusCode: int, payload: Json)

  /** A Step Functions `describe_execution` answer. */
  datatype Execution = Execution(status: string, output: Option<string>)

  /**
   * What the orchestrator talks to: Lambda (an invocation fails by
   * raising), Step Functions, `json.loads`, the environment's topic, the
   * clock and the three health probes.
   */
  datatype Env = Env(
    invoke: (Service, Json) -> Result<Invocation>,
    startExecution: (string, Json) -> Result<string>,
    describe: (string, nat) -> Result<Execution>,
    loads: string -> Option<Json>,
    llmTopic: Option<string>,
    now: string,
    nowEpoch: nat,
    searchServiceUp: bool,
    llmServiceUp: bool,
    dynamoUp: bool,
    eventDriven: Response)

  /** `create_secure_response` without extra headers. */
  function Respond(statusCode: int, body: map<string, Json>): (r: Response)
    ensures r.statusCode == statusCode
    ensures statusCode != 500 ==> r.body == body
  {
    CreateSecureResponse(statusCode, body, map[])
  }

  function ErrorBody(message: string): (b: map<string, Json>)
    ensures Respond(500, b).body == GenericErrorBody
  {
    map["error" := JStr(message)]
  }

  /** `json.loads(payload.get('body', '{}'))`: the payload must be a dictionary and the body a decodable string. */
  function DecodeBody(loads: string -> Option<Json>, payload: Json): Result<Json>
  {
    if !payload.JObject? then Err(AttributeError("get"))
    else
      var body := Get(payload.fields, "body", JStr("{}"));
      if !body.JStr? then Err(TypeError)
      else
        match loads(body.s)
        case None => Err(DecodeError)
        case Some(j) => Ok(j)
  }

  function ClientInfo(clientIp: Json, requestId: Json): Json
  {
    JObject(map["ip" := clientIp, "request_id" := requestId])
  }

  // ---------------------------------------------------------------------
  // handle_search_only
  // ---------------------------------------------------------------------

  function SearchOnlyPayload(query: Json, numResults: Json, clientIp: Json, requestId: Json): (p: Json)
    ensures p.JObject? && p.fields.Keys == {"query", "num_results", "store_results", "process_with_llm", "client_info"}
    ensures p.fields["query"] == query && p.fields["num_results"] == numResults
    ensures p.fields["process_with_llm"] == JBool(false)
  {
    JObject(map["query" := query, "num_results" := numResults, "store_results" := JBool(true),
                "process_with_llm" := JBool(false), "client_info" := ClientInfo(clientIp, requestId)])
  }

  /** `handle_search_only`: 200 with the search service's data when it answered 200, else 500. */
  function SearchOnly(env: Env, query: Json, numResults: Json, clientIp: Json, requestId: Json): (r: Response)
    ensures r.statusCode == 200 || r.statusCode == 500
    ensures r.statusCode == 200 <==>
      var inv := env.invoke(SearchService, SearchOnlyPayload(query, numResults, clientIp, requestId));
      inv.Ok? && inv.value.statusCode == 200 && DecodeBody(env.loads, inv.value.payload).Ok?
    ensures r.statusCode == 500 ==> r.body == GenericErrorBody
  {
    match env.invoke(SearchService, SearchOnlyPayload(query, numResults, clientIp, requestId))
    case Err(_) => Respond(500, ErrorBody("Search processing failed"))
    case Ok(inv) =>
      if inv.statusCode == 200 then
        match DecodeBody(env.loads, inv.payload)
        case Err(_) => Respond(500, ErrorBody("Search processing failed"))
        case Ok(data) =>
          Respond(200, map["success" := JBool(true), "processing_mode" := JStr("search_only"), "data" := data])
      else Respond(500, ErrorBody("Search service failed"))
  }

  // ---------------------------------------------------------------------
  // handle_async_workflow
  // ---------------------------------------------------------------------

  function AsyncPayload(env: Env, query: Json, numResults: Json, clientIp: Json, requestId: Json): (p: Json)
    ensures p.JObject? && p.fields.Keys == {"query", "num_results", "store_results", "process_with_llm", "callback_topic", "client_info"}
    ensures p.fields["process_with_llm"] == JBool(true)
    ensures p.fields["callback_topic"] == if env.llmTopic.Some? then JStr(env.llmTopic.value) else JNull
  {
    JObject(map["query" := query, "num_results" := numResults, "store_results" := JBool(true),
                "process_with_llm" := JBool(true),
                "callback_topic" := (if env.llmTopic.Some? then JStr(env.llmTopic.value) else JNull),
                "client_info" := ClientInfo(clientIp, requestId)])
  }

  /** The tracking information of an accepted asynchronous search. */
  function Tracking(data: Json, requestId: Json): (t: Result<Json>)
    ensures t.Ok? ==> data.JObject?
  {
    match GetDict(data, "storage_info")
    case Err(e) => Err(e)
    case Ok(storage) =>
      if !storage.JObject? then Err(AttributeError("get"))
      else Ok(JObject(map["query_hash" := Get(storage.fields, "query_hash", JNull),
                          "timestamp" := Get(data.fields, "timestamp", JNull),
                          "request_id" := requestId]))
  }

  /** The body of an accepted asynchronous search: its results so far and where to follow it. */
  function AcceptedBody(data: Json, tracking: Json): (b: map<string, Json>)
    requires data.JObject?
    ensures b.Keys == {"success", "processing_mode", "message", "search_results", "tracking"}
    ensures b["success"] == JBool(true) && b["processing_mode"] == JStr("async") && b["tracking"] == tracking
  {
    map["success" := JBool(true), "processing_mode" := JStr("async"),
        "message" := JStr("Search completed, LLM analysis in progress"),
        "search_results" := Get(data.fields, "results", JList([])),
        "tracking" := tracking]
  }

  /**
   * `handle_async_workflow`: 202 with the results and tracking exactly
   * when the search service answered 200 with a decodable body that
   * carries its storage information; 500 otherwise.
   */
  function AsyncWorkflow(env: Env, query: Json, numResults: Json, clientIp: Json, requestId: Json): (r: Response)
    ensures r.statusCode == 202 || r.statusCode == 500
    ensures var inv := env.invoke(SearchService, AsyncPayload(env, query, numResults, clientIp, requestId));
      r.statusCode == 202 <==>
        inv.Ok? && inv.value.statusCode == 200 && DecodeBody(env.loads, inv.value.payload).Ok? &&
        Tracking(DecodeBody(env.loads, inv.value.payload).value, requestId).Ok?
    ensures r.statusCode == 202 ==>
      r.body.Keys == {"success", "processing_mode", "message", "search_results", "tracking"} &&
      r.body["success"] == JBool(true) && r.body["processing_mode"] == JStr("async")
    ensures r.statusCode == 500 ==> r.body == GenericErrorBody
  {
    match env.invoke(SearchService, AsyncPayload(env, query, numResults, clientIp, requestId))
    case Err(_) => Respond(500, ErrorBody("Async processing failed"))
    case Ok(inv) =>
      if inv.statusCode != 200 then Respond(500, ErrorBody("Async workflow failed"))
      else
        match DecodeBody(env.loads, inv.payload)
        case Err(_) => Respond(500, ErrorBody("Async processing failed"))
        case Ok(data) =>
          match Tracking(data, requestId)
          case Err(_) => Respond(500, ErrorBody("Async processing failed"))
          case Ok(tracking) => Respond(202, AcceptedBody(data, tracking))
  }

  // ---------------------------------------------------------------------
  // handle_sync_workflow
  // ---------------------------------------------------------------------

  /** `max_wait_time // poll_interval`: 60 s polled every 2 s. */
  const MaxWaitTime: nat := 60
  const PollInterval: nat := 2
  const MaxPolls: nat := 30

  predicate Terminal(status: string)
  {
    status == "FAILED" || status == "TIMED_OUT" || status == "ABORTED"
  }

  function TimeoutResponse(arn: string): Response
  {
    Respond(202, map["success" := JBool(false), "processing_mode" := JStr("sync"),
                     "message" := JStr("Processing timeout, execution continues in background"),
                     "execution_arn" := JStr(arn)])
  }

  /**
   * One status check: the response it settles on, or None while the
   * execution is still running (any status other than the four below).
   */
  function Settle(env: Env, arn: string, described: Result<Execution>): (r: Option<Response>)
    ensures r.Some? ==> r.value.statusCode in {200, 500}
    ensures r.None? <==> described.Ok? && described.value.status != "SUCCEEDED" && !Terminal(described.value.status)
    ensures r.Some? && r.value.statusCode == 200 <==>
      described.Ok? && described.value.status == "SUCCEEDED" && env.loads(described.value.output.GetOr("{}")).Some?
    ensures r.Some? && r.value.statusCode == 200 ==>
      "success" in r.value.body && r.value.body["success"] == JBool(true) &&
      "data" in r.value.body && r.value.body["data"] == env.loads(described.value.output.GetOr("{}")).value &&
      "execution_arn" in r.value.body && r.value.body["execution_arn"] == JStr(arn)
  {
    match described
    case Err(_) => Some(Respond(500, ErrorBody("Sync processing failed")))
    case Ok(ex) =>
      if ex.status == "SUCCEEDED" then
        match env.loads(ex.output.GetOr("{}"))
        case None => Some(Respond(500, ErrorBody("Sync processing failed")))
        case Some(output) =>
          Some(Respond(200, map["success" := JBool(true), "processing_mode" := JStr("sync"),
                                "data" := output, "execution_arn" := JStr(arn)]))
      else if Terminal(ex.status) then
        Some(Respond(500, map["error" := JStr("Workflow execution " + Lower(ex.status)), "execution_arn" := JStr(arn)]))
      else None
  }

  /**
   * The poll loop from round `k` on, for the answer each round's status
   * check settles on: the response, and how many status checks were made.
   */
  function PollFrom<R>(settle: nat -> Option<R>, timeout: R, k: nat): (r: (R, nat))
    ensures r.1 <= MaxPolls - k || (k >= MaxPolls && r.1 == 0)
    decreases MaxPolls - k
  {
    if k >= MaxPolls then (timeout, 0)
    else
      match settle(k)
      case Some(response) => (response, 1)
      case None =>
        var rest := PollFrom(settle, timeout, k + 1);
        (rest.0, rest.1 + 1)
  }

  /** The loop answers the timeout or what some round settled on, so its status is one of theirs. */
  lemma {:induction false} PollFromStatus(settle: nat -> Option<Response>, timeout: Response, k: nat, codes: set<int>)
    requires timeout.statusCode in codes
    requires forall i :: settle(i).Some? ==> settle(i).value.statusCode in codes
    ensures PollFrom(settle, timeout, k).0.statusCode in codes
    decreases MaxPolls - k
  {
    if k < MaxPolls && settle(k).None? {
      PollFromStatus(settle, timeout, k + 1, codes);
    }
  }

  /** Rounds in which the execution is still running only add to the count of status checks. */
  lemma {:induction false} PollSkip<R>(settle: nat -> Option<R>, timeout: R, j: nat, k: nat)
    requires j <= k <= MaxPolls
    requires forall i :: j <= i < k ==> settle(i).None?
    ensures PollFrom(settle, timeout, j).0 == PollFrom(settle, timeout, k).0
    ensures PollFrom(settle, timeout, j).1 == PollFrom(settle, timeout, k).1 + (k - j)
    decreases k - j
  {
    if j < k {
      PollSkip(settle, timeout, j + 1, k);
    }
  }

  /** Round `i` of the workflow's poll loop: describe the execution, then settle on its status. */
  function Rounds(env: Env, arn: string): nat -> Option<Response>
  {
    (i: nat) => Settle(env, arn, env.describe(arn, i))
  }

  /** Every round that settles answers 200 or 500; only the timeout answers 202. */
  lemma RoundsStatus(env: Env, arn: string)
    ensures forall i :: Rounds(env, arn)(i).Some? ==> Rounds(env, arn)(i).value.statusCode in {200, 500}
  {
    forall i ensures Rounds(env, arn)(i).Some? ==> Rounds(env, arn)(i).value.statusCode in {200, 500} {
      assert Rounds(env, arn)(i) == Settle(env, arn, env.describe(arn, i));
    }
  }

  /** The poll loop of the execution `arn` from round `k` on. */
  function Poll(env: Env, arn: string, k: nat): (r: (Response, nat))
    ensures r.1 <= MaxPolls - k || (k >= MaxPolls && r.1 == 0)
    ensures r.0.statusCode in {200, 202, 500}
  {
    RoundsStatus(env, arn);
    PollFromStatus(Rounds(env, arn), TimeoutResponse(arn), k, {200, 202, 500});
    PollFrom(Rounds(env, arn), TimeoutResponse(arn), k)
  }

  /** The Step Functions execution's name: the start time and the first eight characters of the request id. */
  function ExecutionName(nowEpoch: nat, requestId: string): string
  {
    "search-analysis-" + RiskOutput.IntString(nowEpoch) + "-" + PyTake(requestId, 8)
  }

  function WorkflowInput(env: Env, query: Json, numResults: Json, clientIp: Json, requestId: Json): Json
  {
    JObject(map["query" := query, "num_results" := numResults,
                "client_info" := ClientInfo(clientIp, requestId), "timestamp" := JStr(env.now)])
  }

  /** `handle_sync_workflow`, as a function: (the response, the number of status checks). */
  function SyncWorkflow(env: Env, query: Json, numResults: Json, clientIp: Json, requestId: string): (r: (Response, nat))
  {
    match env.startExecution(ExecutionName(env.nowEpoch, requestId), WorkflowInput(env, query, numResults, clientIp, JStr(requestId)))
    case Err(_) => (Respond(500, ErrorBody("Sync processing failed")), 0)
    case Ok(arn) => Poll(env, arn, 0)
  }

  /** `handle_sync_workflow`: start the execution, then poll it. */
  method HandleSyncWorkflow(env: Env, query: Json, numResults: Json, clientIp: Json, requestId: string)
    returns (r: Response, checks: nat)
    ensures (r, checks) == SyncWorkflow(env, query, numResults, clientIp, requestId)
    ensures checks <= MaxPolls
  {
    var started := env.startExecution(ExecutionName(env.nowEpoch, requestId), WorkflowInput(env, query, numResults, clientIp, JStr(requestId)));
    if started.Err? {
      return Respond(500, ErrorBody("Sync processing failed")), 0;
    }
    r, checks := PollExecution(Rounds(env, started.value), TimeoutResponse(started.value));
  }

  /**
   * The poll loop as written: `waited_time` climbs by the interval until
   * the ceiling; each round asks for the status once and stops when the
   * execution has settled.
   */
  method PollExecution<R>(settle: nat -> Option<R>, timeout: R) returns (r: R, checks: nat)
    ensures r == PollFrom(settle, timeout, 0).0 && checks == PollFrom(settle, timeout, 0).1
    ensures checks <= MaxPolls
  {
    var waited := 0;
    checks := 0;
    while waited < MaxWaitTime
      invariant waited == 2 * checks && checks <= MaxPolls
      invariant forall i :: 0 <= i < checks ==> settle(i).None?
      decreases MaxWaitTime - waited
    {
      var settled := settle(checks);
      if settled.Some? {
        PollFound(settle, timeout, checks);
        return settled.value, checks + 1;
      }
      checks := checks + 1;
      waited := waited + PollInterval;
    }
    PollFound(settle, timeout, checks);
    r := timeout;
  }

  /** The loop ends at the first round that settles, or with the timeout once every round has run. */
  lemma PollFound<R>(settle: nat -> Option<R>, timeout: R, k: nat)
    requires k <= MaxPolls && forall i :: 0 <= i < k ==> settle(i).None?
    ensures k < MaxPolls && settle(k).Some? ==>
      PollFrom(settle, timeout, 0).0 == settle(k).value && PollFrom(settle, timeout, 0).1 == k + 1
    ensures k == MaxPolls ==>
      PollFrom(settle, timeout, 0).0 == timeout && PollFrom(settle, timeout, 0).1 == MaxPolls
  {
    PollSkip(settle, timeout, 0, k);
  }

  /**
   * A failed, timed-out or aborted execution answers 500, and the
   * response redaction replaces that body: the execution ARN never
   * reaches the caller.
   */
  lemma SyncFailureHidesArn(env: Env, arn: string, k: nat)
    requires k < MaxPolls && env.describe(arn, k).Ok? && Terminal(env.describe(arn, k).value.status)
    ensures Poll(env, arn, k).0 == Respond(500, GenericErrorBody)
  {
  }

  /** Without a terminal status the loop gives up after exactly 30 checks with 202 and success false. */
  lemma SyncTimesOut(env: Env, arn: string, k: nat)
    requires k <= MaxPolls
    requires forall i :: k <= i < MaxPolls ==>
      env.describe(arn, i).Ok? && env.describe(arn, i).value.status != "SUCCEEDED" && !Terminal(env.describe(arn, i).value.status)
    ensures Poll(env, arn, k).0 == TimeoutResponse(arn) && Poll(env, arn, k).1 == MaxPolls - k
    ensures Poll(env, arn, k).0.statusCode == 202 && Poll(env, arn, k).0.body["success"] == JBool(false)
  {
    var settle := Rounds(env, arn);
    forall i | k <= i < MaxPolls ensures settle(i).None? {
      assert settle(i) == Settle(env, arn, env.describe(arn, i));
    }
    PollSkip(settle, TimeoutResponse(arn), k, MaxPolls);
  }

  // ---------------------------------------------------------------------
  // handle_entity_screening_workflow
  // ---------------------------------------------------------------------

  function ScreeningPayload(env: Env, body: map<string, Json>, clientIp: Json, requestId: Json): Json
  {
    var topic := Get(body, "callback_topic", JNull);
    JObject(map["entity_name" := Get(body, "entity_name", JNull),
                "screening_categories" := Get(body, "screening_categories", JList([JStr("all")])),
                "queries_per_category" := Get(body, "queries_per_category", JInt(5)),
                "comprehensive_screening" := Get(body, "comprehensive_screening", JBool(true)),
                "store_results" := Get(body, "store_results", JBool(true)),
                "process_with_llm" := Get(body, "process_with_llm", JBool(false)),
                "callback_topic" := (if Truthy(topic) then topic else if env.llmTopic.Some? then JStr(env.llmTopic.value) else JNull),
                "client_info" := ClientInfo(clientIp, requestId)])
  }

  /**
   * `handle_entity_screening_workflow`: 200 with the screening data exactly
   * when the service answered 200 with a decodable body; 500 otherwise.
   */
  function ScreeningWorkflow(env: Env, body: map<string, Json>, clientIp: Json, requestId: Json): (r: Response)
    ensures r.statusCode == 200 || r.statusCode == 500
    ensures var inv := env.invoke(ScreeningService, ScreeningPayload(env, body, clientIp, requestId));
      r.statusCode == 200 <==>
        inv.Ok? && inv.value.statusCode == 200 && DecodeBody(env.loads, inv.value.payload).Ok?
    ensures r.statusCode == 200 ==>
      var inv := env.invoke(ScreeningService, ScreeningPayload(env, body, clientIp, requestId));
      "screening_data" in r.body && r.body["screening_data"] == DecodeBody(env.loads, inv.value.payload).value &&
      "entity_name" in r.body && r.body["entity_name"] == Get(body, "entity_name", JNull) &&
      "processing_mode" in r.body && r.body["processing_mode"] == JStr("entity_screening")
    ensures r.statusCode == 500 ==> r.body == GenericErrorBody
  {
    match env.invoke(ScreeningService, ScreeningPayload(env, body, clientIp, requestId))
    case Err(_) => Respond(500, ErrorBody("Entity screening processing failed"))
    case Ok(inv) =>
      if inv.statusCode != 200 then Respond(500, ErrorBody("Entity screening service failed"))
      else
        match DecodeBody(env.loads, inv.payload)
        case Err(_) => Respond(500, ErrorBody("Entity screening processing failed"))
        case Ok(data) => Respond(200, ScreenedBody(env, body, requestId, data))
  }

  /** The body of a successful screening answer. */
  function ScreenedBody(env: Env, body: map<string, Json>, requestId: Json, data: Json): (b: map<string, Json>)
    ensures "screening_data" in b && b["screening_data"] == data
    ensures "entity_name" in b && b["entity_name"] == Get(body, "entity_name", JNull)
    ensures "processing_mode" in b && b["processing_mode"] == JStr("entity_screening")
  {
    map["success" := JBool(true), "processing_mode" := JStr("entity_screening"),
        "entity_name" := Get(body, "entity_name", JNull), "screening_data" := data,
        "tracking" := JObject(map["request_id" := requestId, "timestamp" := JStr(env.now)])]
  }

  // ---------------------------------------------------------------------
  // handle_search_request
  // ---------------------------------------------------------------------

  const ValidModes: seq<Json> := [JStr("search_only"), JStr("async"), JStr("sync")]

  function RequestId(event: map<string, Json>): Result<Json>
  {
    match GetDict(JObject(event), "requestContext")
    case Err(e) => Err(e)
    case Ok(context) =>
      if context.JObject? then Ok(Get(context.fields, "requestId", JStr("unknown"))) else Err(AttributeError("get"))
  }

  /** The validated query: the entity name in screening mode when one is given, the query otherwise. */
  function RequestQuery(body: map<string, Json>): Result<string>
  {
    var screening := Truthy(Get(body, "use_entity_screening", JBool(false)));
    var entityName := Get(body, "entity_name", JStr(""));
    if screening && Truthy(entityName) then ValidateSearchQuery(entityName)
    else ValidateSearchQuery(Get(body, "query", JStr("")))
  }

  /** The sync workflow's request id is used as a string (`request_id[:8]`); anything else raises. */
  function SyncFor(env: Env, query: string, numResults: int, clientIp: Json, requestId: Json): Response
  {
    if requestId.JStr? then SyncWorkflow(env, JStr(query), JInt(numResults), clientIp, requestId.s).0
    else Respond(500, ErrorBody("Sync processing failed"))
  }

  /**
   * `handle_search_request`: 400 when validation fails or the mode is not
   * one of the three; then screening mode goes to the screening workflow
   * whatever the mode, and otherwise the mode picks the workflow.
   */
  function SearchRequest(env: Env, body: Json, event: map<string, Json>): (r: Response)
    ensures (body.JObject? && (RequestQuery(body.fields).Err? ||
               ValidateNumResults(Get(body.fields, "num_results", JInt(10))).Err?)) ==> r.statusCode == 400
    ensures (body.JObject? && RequestQuery(body.fields).Ok? &&
             ValidateNumResults(Get(body.fields, "num_results", JInt(10))).Ok? &&
             Get(body.fields, "processing_mode", JStr("search_only")) !in ValidModes) ==> r.statusCode == 400
  {
    if !body.JObject? then Respond(500, ErrorBody("Search processing failed"))
    else
      var fields := body.fields;
      match RequestQuery(fields)
      case Err(e) => Respond(400, ErrorBody(Describe(e)))
      case Ok(query) =>
        match ValidateNumResults(Get(fields, "num_results", JInt(10)))
        case Err(e) => Respond(400, ErrorBody(Describe(e)))
        case Ok(numResults) =>
          var mode := Get(fields, "processing_mode", JStr("search_only"));
          if mode !in ValidModes then
            Respond(400, ErrorBody("Invalid processing_mode. Must be one of: ['search_only', 'async', 'sync']"))
          else
            match (SourceIp(event), RequestId(event))
            case (Ok(clientIp), Ok(requestId)) =>
              if Truthy(Get(fields, "use_entity_screening", JBool(false))) then ScreeningWorkflow(env, fields, clientIp, requestId)
              else if mode == JStr("search_only") then SearchOnly(env, JStr(query), JInt(numResults), clientIp, requestId)
              else if mode == JStr("async") then AsyncWorkflow(env, JStr(query), JInt(numResults), clientIp, requestId)
              else SyncFor(env, query, numResults, clientIp, requestId)
            case _ => Respond(500, ErrorBody("Search processing failed"))
  }

  /** A valid request with `use_entity_screening` set goes to the screening workflow, whichever valid mode it names. */
  lemma ScreeningBeforeMode(env: Env, fields: map<string, Json>, event: map<string, Json>)
    requires Truthy(Get(fields, "use_entity_screening", JBool(false)))
    requires RequestQuery(fields).Ok? && ValidateNumResults(Get(fields, "num_results", JInt(10))).Ok?
    requires Get(fields, "processing_mode", JStr("search_only")) in ValidModes
    requires SourceIp(event).Ok? && RequestId(event).Ok?
    ensures SearchRequest(env, JObject(fields), event) ==
      ScreeningWorkflow(env, fields, SourceIp(event).value, RequestId(event).value)
  {
  }

  /** Without screening mode, a valid search_only request goes to the search-only workflow with the validated query and count. */
  lemma SearchOnlyRouting(env: Env, fields: map<string, Json>, event: map<string, Json>)
    requires !Truthy(Get(fields, "use_entity_screening", JBool(false)))
    requires RequestQuery(fields).Ok? && ValidateNumResults(Get(fields, "num_results", JInt(10))).Ok?
    requires SourceIp(event).Ok? && RequestId(event).Ok?
    requires Get(fields, "processing_mode", JStr("search_only")) == JStr("search_only")
    ensures SearchRequest(env, JObject(fields), event) ==
      SearchOnly(env, JStr(RequestQuery(fields).value), JInt(ValidateNumResults(Get(fields, "num_results", JInt(10))).value),
                 SourceIp(event).value, RequestId(event).value)
  {
  }

  /** Without screening mode, a valid async request goes to the asynchronous workflow with the validated query and count. */
  lemma AsyncRouting(env: Env, fields: map<string, Json>, event: map<string, Json>)
    requires !Truthy(Get(fields, "use_entity_screening", JBool(false)))
    requires RequestQuery(fields).Ok? && ValidateNumResults(Get(fields, "num_results", JInt(10))).Ok?
    requires SourceIp(event).Ok? && RequestId(event).Ok?
    requires Get(fields, "processing_mode", JStr("search_only")) == JStr("async")
    ensures SearchRequest(env, JObject(fields), event) ==
      AsyncWorkflow(env, JStr(RequestQuery(fields).value), JInt(ValidateNumResults(Get(fields, "num_results", JInt(10))).value),
                    SourceIp(event).value, RequestId(event).value)
  {
  }

  /** Without screening mode, a valid sync request goes to the synchronous workflow with the validated query and count. */
  lemma SyncRouting(env: Env, fields: map<string, Json>, event: map<string, Json>)
    requires !Truthy(Get(fields, "use_entity_screening", JBool(false)))
    requires RequestQuery(fields).Ok? && ValidateNumResults(Get(fields, "num_results", JInt(10))).Ok?
    requires SourceIp(event).Ok? && RequestId(event).Ok?
    requires Get(fields, "processing_mode", JStr("search_only")) == JStr("sync")
    ensures SearchRequest(env, JObject(fields), event) ==
      SyncFor(env, RequestQuery(fields).value, ValidateNumResults(Get(fields, "num_results", JInt(10))).value,
              SourceIp(event).value, RequestId(event).value)
  {
  }

  // ---------------------------------------------------------------------
  // handle_health_check
  // ---------------------------------------------------------------------

  function Health(up: bool): Json
  {
    JStr(if up then "healthy" else "unhealthy")
  }

  /** `handle_health_check`: each probe's verdict; 200 when all three are healthy, else 503 with status 'degraded'. */
  function HealthCheck(env: Env): (r: Response)
    ensures r.statusCode == 200 <==> env.searchServiceUp && env.llmServiceUp && env.dynamoUp
    ensures r.statusCode == 200 || r.statusCode == 503
    ensures r.body.Keys == {"service", "status", "timestamp", "version", "dependencies"}
    ensures r.body["status"] == JStr(if r.statusCode == 200 then "healthy" else "degraded")
  {
    var healthy := env.searchServiceUp && env.llmServiceUp && env.dynamoUp;
    Respond(if healthy then 200 else 503,
            map["service" := JStr("orchestrator"),
                "status" := JStr(if healthy then "healthy" else "degraded"),
                "timestamp" := JStr(env.now),
                "version" := JStr("1.0.0"),
                "dependencies" := JObject(map["search_service" := Health(env.searchServiceUp),
                                              "llm_service" := Health(env.llmServiceUp),
                                              "dynamodb" := Health(env.dynamoUp)])])
  }

  // ---------------------------------------------------------------------
  // handle_api_gateway_request
  // ---------------------------------------------------------------------

  /** The request body: `{}` when absent or empty; a string that does not decode is a client error. */
  function RequestBody(env: Env, event: map<string, Json>): Result<Json>
  {
    var body := Get(event, "body", JNull);
    if !Truthy(body) then Ok(JObject(map[]))
    else if !body.JStr? then Err(TypeError)
    else
      match env.loads(body.s)
      case None => Err(DecodeError)
      case Some(j) => Ok(j)
  }

  /** `handle_api_gateway_request`: 400 for an undecodable body; POST …/search to search, GET …/health to health, else 404. */
  function ApiGatewayRequest(env: Env, event: map<string, Json>): (r: Response)
    ensures RequestBody(env, event) == Err(DecodeError) ==> r.statusCode == 400
    ensures RequestBody(env, event).Ok? ==>
      var verb := Get(event, "httpMethod", JStr("POST"));
      var path := Get(event, "path", JStr(""));
      (verb == JStr("POST") && In("/search", path) == Ok(true) ==> r == SearchRequest(env, RequestBody(env, event).value, event)) &&
      (verb == JStr("GET") && In("/health", path) == Ok(true) ==> r == HealthCheck(env)) &&
      (verb != JStr("POST") && verb != JStr("GET") ==> r.statusCode == 404)
  {
    match RequestBody(env, event)
    case Err(DecodeError) => Respond(400, ErrorBody("Invalid JSON in request body"))
    case Err(_) => Respond(500, ErrorBody("Request processing failed"))
    case Ok(body) =>
      var verb := Get(event, "httpMethod", JStr("POST"));
      var path := Get(event, "path", JStr(""));
      if verb == JStr("POST") then
        match In("/search", path)
        case Err(_) => Respond(500, ErrorBody("Request processing failed"))
        case Ok(true) => SearchRequest(env, body, event)
        case Ok(false) => Respond(404, ErrorBody("Endpoint not found"))
      else if verb == JStr("GET") then
        match In("/health", path)
        case Err(_) => Respond(500, ErrorBody("Request processing failed"))
        case Ok(true) => HealthCheck(env)
        case Ok(false) => Respond(404, ErrorBody("Endpoint not found"))
      else Respond(404, ErrorBody("Endpoint not found"))
  }

  // ---------------------------------------------------------------------
  // handle_direct_invocation and lambda_handler
  // ---------------------------------------------------------------------

  /** `handle_direct_invocation`: the mode picks the workflow; query and count go through unvalidated. */
  function DirectInvocation(env: Env, event: map<string, Json>, awsRequestId: string): (r: Response)
    ensures var mode := Get(event, "processing_mode", JStr("search_only"));
      (mode !in ValidModes ==> r.statusCode == 400) &&
      (mode == JStr("search_only") ==>
         r == SearchOnly(env, Get(event, "query", JStr("")), Get(event, "num_results", JInt(10)),
                         JStr("direct-invocation"), JStr(awsRequestId)))
  {
    var mode := Get(event, "processing_mode", JStr("search_only"));
    var query := Get(event, "query", JStr(""));
    var numResults := Get(event, "num_results", JInt(10));
    if mode == JStr("search_only") then SearchOnly(env, query, numResults, JStr("direct-invocation"), JStr(awsRequestId))
    else if mode == JStr("async") then AsyncWorkflow(env, query, numResults, JStr("direct-invocation"), JStr(awsRequestId))
    else if mode == JStr("sync") then SyncWorkflow(env, query, numResults, JStr("direct-invocation"), awsRequestId).0
    else Respond(400, ErrorBody("Invalid processing_mode"))
  }

  /** A directly invoked search hands the event's own query to the search service, unvalidated. */
  lemma DirectQueryUnvalidated(query: Json, numResults: Json, awsRequestId: string)
    ensures SearchOnlyPayload(query, numResults, JStr("direct-invocation"), JStr(awsRequestId)).fields["query"] == query
  {
  }

  datatype Route = ApiRoute | EventRoute | DirectRoute

  function RouteOf(event: map<string, Json>): (route: Route)
    ensures route == ApiRoute <==> "httpMethod" in event
    ensures route == EventRoute <==> "httpMethod" !in event && "Records" in event
  {
    if "httpMethod" in event then ApiRoute
    else if "Records" in event then EventRoute
    else DirectRoute
  }

  /** `lambda_handler`: API Gateway events first, then event-source records, then direct invocation. */
  function LambdaHandler(env: Env, event: map<string, Json>, awsRequestId: string): (r: Response)
    ensures RouteOf(event) == ApiRoute ==> r == ApiGatewayRequest(env, event)
    ensures RouteOf(event) == DirectRoute ==> r == DirectInvocation(env, event, awsRequestId)
  {
    match RouteOf(event)
    case ApiRoute => ApiGatewayRequest(env, event)
    case EventRoute => env.eventDriven
    case DirectRoute => DirectInvocation(env, event, awsRequestId)
  }
}
