/**
 * The production search Lambda (src/lambda/lambda_search_service_secure.py):
 * picks the query (the first entity-screening query in entity mode, the
 * validated query otherwise), asks the search API for the organic results,
 * sanitises them, stores them when asked, hands them to the LLM topic when
 * asked and answers through `create_secure_response`. The secret store, the
 * search API, `json.loads`, DynamoDB, SNS, the `LLM_PROCESSING_TOPIC`
 * variable and the clock are parameters.
 */
module SearchService {
  import opened Wrappers
  import opened Strings
  import opened JsonValue
  import opened Security
  import opened Keywords
  import opened Seqs
  import opened Positions
  import DataService

  /** One sanitised organic result, as `perform_search` builds it. */
  datatype SearchResult = SearchResult(title: string, url: string, snippet: string, position: nat)

  function ResultJson(r: SearchResult): (j: Json)
    ensures j.JObject? && j.fields.Keys == {"title", "url", "snippet", "position"}
  {
    JObject(map["title" := JStr(r.title), "url" := JStr(r.url), "snippet" := JStr(r.snippet),
                "position" := JInt(r.position)])
  }

  function ResultsJson(rs: seq<SearchResult>): (j: Json)
    ensures j.JList? && |j.items| == |rs|
  {
    JList(seq(|rs|, i requires 0 <= i < |rs| => ResultJson(rs[i])))
  }

  /**
   * What the service talks to: the API key from the secret store, the
   * keyword catalog a fresh `EntityScreeningKeywords` holds, `json.loads`,
   * the search API (key, query, count) answering with its decoded body or
   * failing, `str` of a non-string, `store_search_results`, the
   * `LLM_PROCESSING_TOPIC` variable, SNS `publish` (topic, message)
   * answering whether it went through, the clock.
   */
  datatype Env = Env(
    apiKey: Result<string>,
    catalog: Catalog,
    loads: string -> Option<Json>,
    search: (string, string, int) -> Result<Json>,
    render: Json -> string,
    store: (string, Json) -> Result<DataService.SearchConfirmation>,
    llmTopic: Option<string>,
    publish: (Json, Json) -> bool,
    now: string)

  // ---------------------------------------------------------------------
  // perform_search
  // ---------------------------------------------------------------------

  /** The search API is never asked for more than a hundred results. */
  const MaxRequested: int := 100

  function Min(a: int, b: int): (m: int)
    ensures m <= a && m <= b && (m == a || m == b)
  {
    if a <= b then a else b
  }

  /** One organic result at 1-based `position`: title, link and snippet cut to 200, 500 and 500 characters. */
  function Sanitized(render: Json -> string, result: Json, position: nat): Result<SearchResult>
  {
    if !result.JObject? then Err(AttributeError("get"))
    else
      Ok(SearchResult(PyTake(Str(render, Get(result.fields, "title", JStr(""))), 200),
                      PyTake(Str(render, Get(result.fields, "link", JStr(""))), 500),
                      PyTake(Str(render, Get(result.fields, "snippet", JStr(""))), 500),
                      position))
  }

  /** `Sanitized` as the per-result step of the loop. */
  function SanitizeAt(render: Json -> string): (Json, nat) -> Result<SearchResult>
  {
    (result: Json, position: nat) => Sanitized(render, result, position)
  }

  /** The sanitised results of a list of organic results, one per result at its 1-based position. */
  function SanitizedAll(render: Json -> string, organic: seq<Json>): Result<seq<SearchResult>>
  {
    MapPositions(SanitizeAt(render), organic)
  }

  /**
   * Sanitising succeeds exactly when every organic result is a dictionary;
   * then result `i` is at position `i + 1` and its title, URL and snippet
   * are leading parts of the organic result's own, at most 200, 500 and
   * 500 characters long.
   */
  lemma SanitizedAllMeaning(render: Json -> string, organic: seq<Json>)
    ensures SanitizedAll(render, organic).Ok? <==> forall i :: 0 <= i < |organic| ==> organic[i].JObject?
    ensures SanitizedAll(render, organic).Ok? ==>
      var rs := SanitizedAll(render, organic).value;
      |rs| == |organic| &&
      forall i :: 0 <= i < |rs| ==>
        rs[i].position == i + 1 &&
        |rs[i].title| <= 200 && |rs[i].url| <= 500 && |rs[i].snippet| <= 500 &&
        rs[i].title <= Str(render, Get(organic[i].fields, "title", JStr(""))) &&
        rs[i].url <= Str(render, Get(organic[i].fields, "link", JStr(""))) &&
        rs[i].snippet <= Str(render, Get(organic[i].fields, "snippet", JStr("")))
  {
    MapPositionsOk(SanitizeAt(render), organic);
    if SanitizedAll(render, organic).Ok? {
      forall i | 0 <= i < |organic| {
        MapPositionsAt(SanitizeAt(render), organic, i);
      }
    }
  }

  /** `perform_search`: ask for at most a hundred results; any failure of the API or of the sanitising is an error. */
  function SearchOf(env: Env, apiKey: string, query: string, num: int): Result<seq<SearchResult>>
  {
    match env.search(apiKey, query, Min(num, MaxRequested))
    case Err(_) => Err(ServiceError("search"))
    case Ok(data) =>
      if !data.JObject? then Err(AttributeError("get"))
      else
        match Iterate(Get(data.fields, "organic", JList([])))
        case Err(e) => Err(e)
        case Ok(organic) => SanitizedAll(env.render, organic)
  }

  /** The loop of `perform_search`, appending one sanitised result per organic result. */
  method PerformSearch(env: Env, apiKey: string, query: string, num: int) returns (r: Result<seq<SearchResult>>)
    ensures r == SearchOf(env, apiKey, query, num)
  {
    var response := env.search(apiKey, query, Min(num, MaxRequested));
    if response.Err? {
      return Err(ServiceError("search"));
    }
    var data := response.value;
    if !data.JObject? {
      return Err(AttributeError("get"));
    }
    var organic := Iterate(Get(data.fields, "organic", JList([])));
    if organic.Err? {
      return Err(organic.error);
    }
    var items := organic.value;
    var results: seq<SearchResult> := [];
    var idx := 0;
    while idx < |items|
      invariant 0 <= idx <= |items|
      invariant SanitizedAll(env.render, items[..idx]) == Ok(results)
    {
      var sanitized := Sanitized(env.render, items[idx], idx + 1);
      if sanitized.Err? {
        assert items[..idx + 1][..idx] == items[..idx];
        MapPositionsStaysErr(SanitizeAt(env.render), items, idx + 1);
        return Err(sanitized.error);
      }
      MapPositionsSnoc(SanitizeAt(env.render), items, idx, results, sanitized.value);
      results := results + [sanitized.value];
      idx := idx + 1;
    }
    assert items[..idx] == items;
    return Ok(results);
  }

  // ---------------------------------------------------------------------
  // generate_entity_screening_queries
  // ---------------------------------------------------------------------

  /** `category_map.get(name.lower(), ScreeningCategory.ALL)`. */
  function CategoryFor(name: string): (c: Category)
    ensures ParseCategory(Lower(name)).Some? ==> c == ParseCategory(Lower(name)).value
    ensures ParseCategory(Lower(name)).None? ==> c == All
  {
    match ParseCategory(Lower(name))
    case Some(c) => c
    case None => All
  }

  /**
   * The bound `keywords[:max_queries]` slices with: an int or a bool; `None`
   * keeps every keyword and every query, which a bound of three queries per
   * keyword also does; anything else is a TypeError.
   */
  function Limit(maxQueries: Json, ks: seq<string>): Option<int>
  {
    match maxQueries
    case JInt(i) => Some(i)
    case JBool(b) => Some(if b then 1 else 0)
    case JNull => Some(3 * |ks|)
    case _ => None
  }

  /** The fallback when generation raises: the entity name in double quotes. */
  function Fallback(render: Json -> string, entityName: Json): seq<string>
  {
    ["\"" + Str(render, entityName) + "\""]
  }

  /**
   * `generate_entity_screening_queries`: the generator's queries for the
   * mapped category; any exception (a name or category that is not a
   * string, a blank name, a bound the slice refuses) gives the fallback.
   */
  function ScreeningQueries(env: Env, entityName: Json, category: Json, maxQueries: Json): (qs: seq<string>)
    requires WellFormed(env.catalog)
    ensures !entityName.JStr? || !category.JStr? ==> qs == Fallback(env.render, entityName)
    ensures entityName.JStr? && IsBlank(entityName.s) ==> qs == Fallback(env.render, entityName)
  {
    if !category.JStr? || !entityName.JStr? then Fallback(env.render, entityName)
    else
      var c := CategoryFor(category.s);
      var ks := KeywordsList(env.catalog, c);
      var limit := Limit(maxQueries, ks);
      if limit.None? && ks != [] && !IsBlank(entityName.s) then Fallback(env.render, entityName)
      else
        match GenerateQueries(env.catalog, entityName.s, c, if limit.Some? then limit.value else 0)
        case Err(_) => Fallback(env.render, entityName)
        case Ok(qs) => qs
  }

  /** A category the map does not know is screened as ALL. */
  lemma UnknownCategoryIsAll(env: Env, entityName: Json, category: string, maxQueries: Json)
    requires WellFormed(env.catalog)
    requires Lower(category) !in {"financial_crimes", "corruption_bribery", "all"}
    ensures ScreeningQueries(env, entityName, JStr(category), maxQueries) ==
            ScreeningQueries(env, entityName, JStr("all"), maxQueries)
  {
    UnknownMapsToAll(category);
    SameCategorySameQueries(env, entityName, category, "all", maxQueries);
  }

  lemma UnknownMapsToAll(category: string)
    requires Lower(category) !in {"financial_crimes", "corruption_bribery", "all"}
    ensures CategoryFor(category) == CategoryFor("all") == All
  {
    assert ParseCategory(Lower(category)) == None;
    assert Lower("all") == "all";
  }

  /** The queries depend on the category name only through the category it maps to. */
  lemma SameCategorySameQueries(env: Env, entityName: Json, a: string, b: string, maxQueries: Json)
    requires WellFormed(env.catalog)
    requires CategoryFor(a) == CategoryFor(b)
    ensures ScreeningQueries(env, entityName, JStr(a), maxQueries) == ScreeningQueries(env, entityName, JStr(b), maxQueries)
  {
  }

  /** A bound of three queries per keyword keeps the whole de-duplicated expansion, as `None` does. */
  lemma LimitOfNoneKeepsAll(e: string, ks: seq<string>)
    requires ks != []
    ensures QueriesFor(e, ks, 3 * |ks|) == Dedup(ExpandAll(e, ks), {})
  {
    assert PyTake(ks, 3 * |ks|) == ks;
  }

  /**
   * In entity mode the first query is `"<name>" <keyword>` for the first
   * sorted keyword: it carries a double quote, which `validate_search_query`
   * always strips, so it is a query validation would never have produced.
   */
  lemma FirstScreeningQueryIsUnsafe(env: Env, entityName: string, category: string, maxQueries: Json)
    requires WellFormed(env.catalog) && !IsBlank(entityName)
    requires KeywordsList(env.catalog, CategoryFor(category)) != []
    requires var l := Limit(maxQueries, KeywordsList(env.catalog, CategoryFor(category))); l.Some? && l.value >= 1
    ensures var qs := ScreeningQueries(env, JStr(entityName), JStr(category), maxQueries);
      qs != [] &&
      qs[0] == "\"" + Strip(entityName) + "\" " + KeywordsList(env.catalog, CategoryFor(category))[0] &&
      '"' in qs[0] &&
      forall q :: ValidateSearchQuery(q).Ok? ==> ValidateSearchQuery(q).value != qs[0]
  {
    FirstScreeningQuery(env, entityName, category, maxQueries);
    var qs := ScreeningQueries(env, JStr(entityName), JStr(category), maxQueries);
    assert qs[0][0] == '"';
  }

  /** The first screening query is the first keyword after the quoted, stripped name. */
  lemma FirstScreeningQuery(env: Env, entityName: string, category: string, maxQueries: Json)
    requires WellFormed(env.catalog) && !IsBlank(entityName)
    requires KeywordsList(env.catalog, CategoryFor(category)) != []
    requires var l := Limit(maxQueries, KeywordsList(env.catalog, CategoryFor(category))); l.Some? && l.value >= 1
    ensures var qs := ScreeningQueries(env, JStr(entityName), JStr(category), maxQueries);
      qs != [] && qs[0] == "\"" + Strip(entityName) + "\" " + KeywordsList(env.catalog, CategoryFor(category))[0]
  {
    var ks := KeywordsList(env.catalog, CategoryFor(category));
    var n := Limit(maxQueries, ks).value;
    var qs := ScreeningQueries(env, JStr(entityName), JStr(category), maxQueries);
    assert qs == QueriesFor(Strip(entityName), ks, n) by {
      assert GenerateQueries(env.catalog, entityName, CategoryFor(category), n) == Ok(QueriesFor(Strip(entityName), ks, n));
    }
    QueriesForFirst(Strip(entityName), ks, n);
  }

  // ---------------------------------------------------------------------
  // lambda_handler
  // ---------------------------------------------------------------------

  /** The request: a non-empty `body` is decoded as a JSON object; otherwise the event itself is the request. */
  function RequestData(env: Env, event: map<string, Json>): (r: Result<map<string, Json>>)
    ensures !("body" in event && Truthy(event["body"])) ==> r == Ok(event)
  {
    if "body" in event && Truthy(event["body"]) then
      var body := event["body"];
      if !body.JStr? then Err(TypeError)
      else
        match env.loads(body.s)
        case None => Err(DecodeError)
        case Some(j) => if j.JObject? then Ok(j.fields) else Err(AttributeError("get"))
    else Ok(event)
  }

  /** Entity mode: `use_entity_screening` and `entity_name` both truthy. */
  predicate EntityMode(request: map<string, Json>)
  {
    Truthy(Get(request, "use_entity_screening", JBool(false))) && Truthy(Get(request, "entity_name", JStr("")))
  }

  function RequestQueries(env: Env, request: map<string, Json>): seq<string>
    requires WellFormed(env.catalog)
  {
    ScreeningQueries(env, Get(request, "entity_name", JStr("")), Get(request, "screening_category", JStr("all")),
                     Get(request, "num_results", JInt(10)))
  }

  /**
   * The query the request runs: in entity mode the first screening query,
   * taken as it is; otherwise, or when there is none, the validated `query`,
   * whose rejection is a ValueError.
   */
  function SelectQuery(env: Env, request: map<string, Json>): (r: Result<string>)
    requires WellFormed(env.catalog)
    ensures EntityMode(request) && RequestQueries(env, request) != [] ==> r == Ok(RequestQueries(env, request)[0])
    ensures !(EntityMode(request) && RequestQueries(env, request) != []) ==>
      r == ValidateSearchQuery(Get(request, "query", JStr("")))
    ensures r.Err? ==> r.error.ValueError?
  {
    if EntityMode(request) && RequestQueries(env, request) != [] then Ok(RequestQueries(env, request)[0])
    else ValidateSearchQuery(Get(request, "query", JStr("")))
  }

  /** `process_with_llm`: `enable_llm_processing` when given, else `process_with_llm` when given, else entity mode's flag. */
  function ProcessWithLlm(request: map<string, Json>): (p: Json)
    ensures "enable_llm_processing" in request ==> p == request["enable_llm_processing"]
    ensures "enable_llm_processing" !in request && "process_with_llm" in request ==> p == request["process_with_llm"]
    ensures "enable_llm_processing" !in request && "process_with_llm" !in request ==>
      p == Get(request, "use_entity_screening", JBool(false))
  {
    Get(request, "enable_llm_processing", Get(request, "process_with_llm", Get(request, "use_entity_screening", JBool(false))))
  }

  /** `callback_topic or os.getenv('LLM_PROCESSING_TOPIC')`, kept only when truthy. */
  function Topic(env: Env, callback: Json): (t: Option<Json>)
    ensures t.Some? ==> Truthy(t.value)
    ensures Truthy(callback) ==> t == Some(callback)
    ensures !Truthy(callback) && t.Some? ==> env.llmTopic.Some? && t.value == JStr(env.llmTopic.value)
  {
    if Truthy(callback) then Some(callback)
    else if env.llmTopic.Some? && env.llmTopic.value != [] then Some(JStr(env.llmTopic.value))
    else None
  }

  /** The SNS message of `trigger_llm_processing`. */
  function TriggerMessage(results: seq<SearchResult>, query: string, timestamp: string): (m: Json)
    ensures m.JObject? && m.fields.Keys == {"search_results", "query", "timestamp", "source", "results_count"}
    ensures m.fields["results_count"] == JInt(|results|) && m.fields["search_results"] == ResultsJson(results)
    ensures m.fields["query"].JStr? && |m.fields["query"].s| <= 500 && m.fields["query"].s <= query
    ensures |query| <= 500 ==> m.fields["query"] == JStr(query)
    ensures m.fields["timestamp"] == JStr(timestamp)
  {
    JObject(map["search_results" := ResultsJson(results), "query" := JStr(PyTake(query, 500)),
                "timestamp" := JStr(timestamp), "source" := JStr("lambda_search_service_secure"),
                "results_count" := JInt(|results|)])
  }

  /** The 200 body; `storage_info` only when the results were stored. */
  function SuccessBody(env: Env, query: string, results: seq<SearchResult>, storage: Option<DataService.SearchConfirmation>,
                       storedFlag: Json, triggered: bool): (b: map<string, Json>)
    ensures b.Keys == {"query", "results", "total_count", "timestamp", "llm_processing_triggered", "stored_in_database"} +
                      (if storage.Some? then {"storage_info"} else {})
    ensures b["stored_in_database"] == storedFlag && b["llm_processing_triggered"] == JBool(triggered)
    ensures b["total_count"] == JInt(|results|) && b["query"] == JStr(query)
    ensures b != GenericErrorBody
  {
    var body := map["query" := JStr(query), "results" := ResultsJson(results), "total_count" := JInt(|results|),
                     "timestamp" := JStr(env.now), "llm_processing_triggered" := JBool(triggered),
                     "stored_in_database" := storedFlag];
    if storage.Some? then
      body["storage_info" := JObject(map["query_hash" := JStr(storage.value.queryHash),
                                         "storage_timestamp" := JStr(storage.value.timestamp)])]
    else body
  }

  /** One SNS publication: the topic and the message. */
  datatype Publication = Publication(topic: Json, message: Json)

  /**
   * What one invocation did: its response, the query and count it asked
   * the search API for, what it stored, and the publication it attempted.
   */
  datatype Outcome = Outcome(response: Response, searched: Option<(string, int)>,
                             storage: Option<DataService.SearchConfirmation>, publication: Option<Publication>)

  function Failed(statusCode: int, message: string, searched: Option<(string, int)>): (o: Outcome)
    ensures o.response.statusCode == statusCode && o.searched == searched
  {
    Outcome(CreateSecureResponse(statusCode, map["error" := JStr(message)], map[]), searched, None, None)
  }

  /**
   * `store_search_results` when storing is asked for; a failure is
   * swallowed. The metadata's client IP is looked up in the event first,
   * and when that raises nothing is stored.
   */
  function StorageOf(env: Env, request: map<string, Json>, clientIp: Result<Json>, query: string, results: seq<SearchResult>)
    : Option<DataService.SearchConfirmation>
  {
    if Truthy(Get(request, "store_results", JBool(true))) && clientIp.Ok? then
      match env.store(query, ResultsJson(results))
      case Ok(c) => Some(c)
      case Err(_) => None
    else None
  }

  /** The publication: LLM processing asked for, some results, and a topic; stamped with the storage time when stored. */
  function PublicationOf(env: Env, request: map<string, Json>, query: string, results: seq<SearchResult>,
                         storage: Option<DataService.SearchConfirmation>): Option<Publication>
  {
    if Truthy(ProcessWithLlm(request)) && results != [] then
      match Topic(env, Get(request, "callback_topic", JNull))
      case None => None
      case Some(topic) =>
        Some(Publication(topic, TriggerMessage(results, query, if storage.Some? then storage.value.timestamp else env.now)))
    else None
  }

  /** After a successful search: store, trigger, answer 200. */
  function Answered(env: Env, request: map<string, Json>, clientIp: Result<Json>, query: string, num: int, results: seq<SearchResult>): (o: Outcome)
    ensures o.response.statusCode == 200 && o.searched == Some((query, Min(num, MaxRequested)))
    ensures o.response.body != GenericErrorBody
  {
    var storage := StorageOf(env, request, clientIp, query, results);
    var publication := PublicationOf(env, request, query, results, storage);
    var triggered := publication.Some? && env.publish(publication.value.topic, publication.value.message);
    var storedFlag := And(Get(request, "store_results", JBool(true)), JBool(storage.Some?));
    Outcome(CreateSecureResponse(200, SuccessBody(env, query, results, storage, storedFlag, triggered), map[]),
            Some((query, Min(num, MaxRequested))), storage, publication)
  }

  /**
   * `lambda_handler`: a body that does not decode to an object is 500;
   * a rejected query or count is 400 with the validator's message; a
   * missing API key or a failed search is 500; otherwise 200.
   */
  function Handle(env: Env, event: map<string, Json>): (o: Outcome)
    requires WellFormed(env.catalog)
    ensures o.response.statusCode in {200, 400, 500}
    ensures o.response.statusCode == 200 <==> o.searched.Some? && o.response.body != GenericErrorBody
  {
    match RequestData(env, event)
    case Err(_) => Failed(500, "Internal server error", None)
    case Ok(request) =>
      match SelectQuery(env, request)
      case Err(e) => Failed(400, Describe(e), None)
      case Ok(query) =>
        match ValidateNumResults(Get(request, "num_results", JInt(10)))
        case Err(e) => Failed(400, Describe(e), None)
        case Ok(num) =>
          match env.apiKey
          case Err(_) => Failed(500, "Configuration error", None)
          case Ok(apiKey) =>
            match SearchOf(env, apiKey, query, num)
            case Err(_) => Failed(500, "Search service unavailable", Some((query, Min(num, MaxRequested))))
            case Ok(results) => Answered(env, request, SourceIp(event), query, num, results)
  }

  /** `lambda_handler` as written, with `perform_search`'s loop. */
  method LambdaHandler(env: Env, event: map<string, Json>) returns (o: Outcome)
    requires WellFormed(env.catalog)
    ensures o == Handle(env, event)
  {
    var request := RequestData(env, event);
    if request.Err? {
      return Failed(500, "Internal server error", None);
    }
    var query := SelectQuery(env, request.value);
    if query.Err? {
      return Failed(400, Describe(query.error), None);
    }
    var num := ValidateNumResults(Get(request.value, "num_results", JInt(10)));
    if num.Err? {
      return Failed(400, Describe(num.error), None);
    }
    if env.apiKey.Err? {
      return Failed(500, "Configuration error", None);
    }
    var results := PerformSearch(env, env.apiKey.value, query.value, num.value);
    if results.Err? {
      return Failed(500, "Search service unavailable", Some((query.value, Min(num.value, MaxRequested))));
    }
    o := Answered(env, request.value, SourceIp(event), query.value, num.value, results.value);
  }

  /** The search API is asked for exactly the validated count, which lies in 1..100. */
  lemma SearchedCount(env: Env, event: map<string, Json>)
    requires WellFormed(env.catalog)
    ensures var o := Handle(env, event);
      o.searched.Some? ==>
        RequestData(env, event).Ok? &&
        var request := RequestData(env, event).value;
        SelectQuery(env, request) == Ok(o.searched.value.0) &&
        ValidateNumResults(Get(request, "num_results", JInt(10))) == Ok(o.searched.value.1) &&
        1 <= o.searched.value.1 <= MaxRequested
  {
  }

  /**
   * After a successful search the answer is 200 whatever storage and SNS
   * do; `stored_in_database` is true exactly when storing was asked for,
   * the client IP could be read from the event and the store succeeded, and `storage_info` is present exactly when it succeeded;
   * `llm_processing_triggered` is true exactly when a publication was
   * attempted and went through.
   */
  lemma AnsweredFlags(env: Env, request: map<string, Json>, clientIp: Result<Json>, query: string, num: int, results: seq<SearchResult>)
    ensures var o := Answered(env, request, clientIp, query, num, results);
      o.response.statusCode == 200 &&
      (o.response.body["stored_in_database"] == JBool(true) <==>
         Truthy(Get(request, "store_results", JBool(true))) && clientIp.Ok? && env.store(query, ResultsJson(results)).Ok?) &&
      ("storage_info" in o.response.body <==> o.storage.Some?) &&
      (o.response.body["llm_processing_triggered"] == JBool(true) <==>
         o.publication.Some? && env.publish(o.publication.value.topic, o.publication.value.message))
  {
  }

  /**
   * A publication is attempted exactly when LLM processing is asked for,
   * the search found something and a topic exists; it carries every
   * result, the query cut to 500 characters, and the storage timestamp
   * when the results were stored, the search timestamp otherwise.
   */
  lemma PublicationMeaning(env: Env, request: map<string, Json>, clientIp: Result<Json>, query: string, num: int, results: seq<SearchResult>)
    ensures var o := Answered(env, request, clientIp, query, num, results);
      (o.publication.Some? <==>
         Truthy(ProcessWithLlm(request)) && results != [] && Topic(env, Get(request, "callback_topic", JNull)).Some?) &&
      (o.publication.Some? ==>
         var m := o.publication.value.message;
         m.fields["results_count"] == JInt(|results|) &&
         m.fields["query"] == JStr(PyTake(query, 500)) &&
         m.fields["timestamp"] == JStr(if o.storage.Some? then o.storage.value.timestamp else env.now))
  {
    var storage := StorageOf(env, request, clientIp, query, results);
    var o := Answered(env, request, clientIp, query, num, results);
    assert o.storage == storage && o.publication == PublicationOf(env, request, query, results, storage);
    PublicationOfMeaning(env, request, query, results, storage);
  }

  lemma PublicationOfMeaning(env: Env, request: map<string, Json>, query: string, results: seq<SearchResult>,
                             storage: Option<DataService.SearchConfirmation>)
    ensures var p := PublicationOf(env, request, query, results, storage);
      (p.Some? <==>
         Truthy(ProcessWithLlm(request)) && results != [] && Topic(env, Get(request, "callback_topic", JNull)).Some?) &&
      (p.Some? ==>
         var m := p.value.message;
         m.fields["results_count"] == JInt(|results|) &&
         m.fields["query"] == JStr(PyTake(query, 500)) &&
         m.fields["timestamp"] == JStr(if storage.Some? then storage.value.timestamp else env.now))
  {
  }
}
