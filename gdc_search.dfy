/**
 * The GDC search Lambda (src/lambda/lambda_gdc_search_service.py): validates
 * the query, the size and the index name, builds the OpenSearch request with
 * its optional filter clauses, answers with the demonstration entities
 * `_generate_mock_results` picks from the query's words, stores the results
 * in the standard search-result shape when asked, and hands the first three
 * to the LLM topic. `json.loads`, DynamoDB, SNS, the `LLM_PROCESSING_TOPIC`
 * variable and the clock are parameters.
 */
module GdcSearch {
  import opened Wrappers
  import opened Strings
  import opened JsonValue
  import opened Security
  import opened Positions
  import DataService

  // ---------------------------------------------------------------------
  // OpenSearchClient.search_entities: the request body
  // ---------------------------------------------------------------------

  /** One filter clause: a `term` match on a field, or a `range` with a lower bound. */
  datatype Clause = Term(field: string, value: Json) | RangeGte(field: string, bound: Json)

  /**
   * The parts of the OpenSearch request that depend on the call: the
   * multi-match query text, the size and the `filter` list, absent when
   * there is no clause. The boosted fields, the sort order and the
   * `_source` list are constants of the request.
   */
  datatype SearchBody = SearchBody(query: string, size: int, filter: Option<seq<Clause>>)

  /** The filter keys in the order their clauses are built. */
  const FilterKeys: seq<string> := ["entity_type", "jurisdiction", "risk_level"]

  /** The clause a truthy filter value becomes: `risk_level` is a lower bound on `risk_score`, the others are terms. */
  function ClauseFor(key: string, value: Json): Clause
  {
    if key == "risk_level" then RangeGte("risk_score", value) else Term(key, value)
  }

  /** The clause of filter key `key`: one when its value is truthy, none otherwise. */
  function ClauseOf(filters: map<string, Json>, key: string): (cs: seq<Clause>)
    ensures |cs| <= 1
  {
    if Truthy(Get(filters, key, JNull)) then [ClauseFor(key, filters[key])] else []
  }

  /** The clauses of the three filter keys, in the order entity type, jurisdiction, risk level. */
  function Clauses(filters: map<string, Json>): (cs: seq<Clause>)
  {
    ClauseOf(filters, "entity_type") + ClauseOf(filters, "jurisdiction") + ClauseOf(filters, "risk_level")
  }

  /** The request body; `filters.get` on a truthy non-dictionary raises, which the caller reports. */
  function SearchBodyOf(query: string, size: int, filters: Json): Result<SearchBody>
  {
    if !Truthy(filters) then Ok(SearchBody(query, size, None))
    else if !filters.JObject? then Err(AttributeError("get"))
    else
      var cs := Clauses(filters.fields);
      Ok(SearchBody(query, size, if cs == [] then None else Some(cs)))
  }

  /** The position of a clause's filter key in `FilterKeys`. */
  function Rank(c: Clause): nat
  {
    if c.RangeGte? then 2 else if c.field == "jurisdiction" then 1 else 0
  }

  /** A clause is built from its key's own value, and only when that value is truthy. */
  predicate FromFilters(filters: map<string, Json>, c: Clause)
  {
    match c
    case Term(field, value) =>
      field in {"entity_type", "jurisdiction"} && field in filters && filters[field] == value && Truthy(value)
    case RangeGte(field, bound) =>
      field == "risk_score" && "risk_level" in filters && filters["risk_level"] == bound && Truthy(bound)
  }

  /**
   * The filter clauses follow the order entity type, jurisdiction, risk
   * level, each built from its own truthy value; the `filter` key is
   * present exactly when at least one filter value is truthy.
   */
  lemma FilterClausesMeaning(query: string, size: int, filters: map<string, Json>)
    ensures var b := SearchBodyOf(query, size, JObject(filters));
      b.Ok? && b.value.query == query && b.value.size == size &&
      (b.value.filter.Some? <==> exists k :: k in FilterKeys && Truthy(Get(filters, k, JNull))) &&
      (b.value.filter.Some? ==>
         var cs := b.value.filter.value;
         cs != [] && |cs| <= 3 &&
         (forall i :: 0 <= i < |cs| ==> FromFilters(filters, cs[i])) &&
         (forall i, j :: 0 <= i < j < |cs| ==> Rank(cs[i]) < Rank(cs[j])))
  {
    ClausesOrdered(filters);
    ClausesNone(filters);
    if filters == map[] {
      assert !Truthy(JObject(filters));
    }
  }

  /** At most one clause per filter key, each from its own value, in key order. */
  lemma ClausesOrdered(filters: map<string, Json>)
    ensures var cs := Clauses(filters);
      |cs| <= 3 &&
      (forall i :: 0 <= i < |cs| ==> FromFilters(filters, cs[i])) &&
      (forall i, j :: 0 <= i < j < |cs| ==> Rank(cs[i]) < Rank(cs[j]))
  {
    var e := ClauseOf(filters, "entity_type");
    var d := ClauseOf(filters, "jurisdiction");
    var r := ClauseOf(filters, "risk_level");
    var cs := Clauses(filters);
    assert forall i :: 0 <= i < |e| ==> FromFilters(filters, e[i]) && Rank(e[i]) == 0;
    assert forall i :: 0 <= i < |d| ==> FromFilters(filters, d[i]) && Rank(d[i]) == 1;
    assert forall i :: 0 <= i < |r| ==> FromFilters(filters, r[i]) && Rank(r[i]) == 2;
    forall i | 0 <= i < |cs| ensures FromFilters(filters, cs[i]) && (i < |e| ==> Rank(cs[i]) == 0) &&
      (|e| <= i < |e| + |d| ==> Rank(cs[i]) == 1) && (|e| + |d| <= i ==> Rank(cs[i]) == 2)
    {
      if i < |e| { assert cs[i] == e[i]; }
      else if i < |e| + |d| { assert cs[i] == d[i - |e|]; }
      else { assert cs[i] == r[i - |e| - |d|]; }
    }
  }

  /** There is no clause exactly when no filter key has a truthy value. */
  lemma ClausesNone(filters: map<string, Json>)
    ensures Clauses(filters) == [] <==> !(exists k :: k in FilterKeys && Truthy(Get(filters, k, JNull)))
  {
    assert FilterKeys[0] == "entity_type" && FilterKeys[1] == "jurisdiction" && FilterKeys[2] == "risk_level";
  }

  /** `search_entities`' request building: the clauses appended one filter at a time, then attached when there are any. */
  method BuildSearchBody(query: string, size: int, filters: Json) returns (r: Result<SearchBody>)
    ensures r == SearchBodyOf(query, size, filters)
  {
    var body := SearchBody(query, size, None);
    if Truthy(filters) {
      if !filters.JObject? {
        return Err(AttributeError("get"));
      }
      var f := filters.fields;
      var clauses: seq<Clause> := [];
      assert "entity_type" != "risk_level" && "jurisdiction" != "risk_level";
      if Truthy(Get(f, "entity_type", JNull)) {
        clauses := clauses + [Term("entity_type", f["entity_type"])];
      }
      assert clauses == ClauseOf(f, "entity_type");
      if Truthy(Get(f, "jurisdiction", JNull)) {
        clauses := clauses + [Term("jurisdiction", f["jurisdiction"])];
      }
      assert clauses == ClauseOf(f, "entity_type") + ClauseOf(f, "jurisdiction");
      if Truthy(Get(f, "risk_level", JNull)) {
        clauses := clauses + [RangeGte("risk_score", f["risk_level"])];
      }
      assert clauses == Clauses(f);
      if clauses != [] {
        body := body.(filter := Some(clauses));
      }
    }
    return Ok(body);
  }

  // ---------------------------------------------------------------------
  // OpenSearchClient._generate_mock_results
  // ---------------------------------------------------------------------

  /** A GDC entity record, as the demonstration results carry it. */
  datatype Entity = Entity(id: string, name: string, kind: string, jurisdiction: string,
                           riskIndicators: seq<string>, regulatoryActions: seq<string>,
                           lastUpdated: string, aliases: seq<string>, relevance: real)

  function StringList(ss: seq<string>): (j: Json)
    ensures j.JList? && |j.items| == |ss| && forall i :: 0 <= i < |ss| ==> j.items[i] == JStr(ss[i])
  {
    JList(seq(|ss|, i requires 0 <= i < |ss| => JStr(ss[i])))
  }

  function EntityJson(e: Entity): (j: Json)
    ensures j.JObject?
    ensures j.fields.Keys == {"entity_id", "entity_name", "entity_type", "jurisdiction", "risk_indicators",
                              "regulatory_actions", "last_updated", "entity_aliases", "relevance_score"}
    ensures j.fields["entity_id"] == JStr(e.id) && j.fields["entity_name"] == JStr(e.name)
    ensures j.fields["entity_type"] == JStr(e.kind) && j.fields["jurisdiction"] == JStr(e.jurisdiction)
    ensures j.fields["risk_indicators"] == StringList(e.riskIndicators)
  {
    JObject(map["entity_id" := JStr(e.id), "entity_name" := JStr(e.name), "entity_type" := JStr(e.kind),
                "jurisdiction" := JStr(e.jurisdiction), "risk_indicators" := StringList(e.riskIndicators),
                "regulatory_actions" := StringList(e.regulatoryActions), "last_updated" := JStr(e.lastUpdated),
                "entity_aliases" := StringList(e.aliases), "relevance_score" := JFloat(e.relevance)])
  }

  /** The demonstration entities: the three known banks and the generic stand-in for a query. */
  datatype MockEntity = WellsFargo | JPMorgan | Goldman | Generic(query: string)

  /** The record each demonstration entity carries. */
  function Record(m: MockEntity): Entity
  {
    match m
    case WellsFargo =>
      Entity("WFC_US_BANK_001", "Wells Fargo & Company", "financial_institution", "US",
             ["regulatory_violations", "consumer_complaints", "settlement_history"],
             ["2020 - Consumer Financial Protection Bureau fine", "2018 - Federal Reserve enforcement action"],
             "2025-10-01T12:00:00Z", ["Wells Fargo Bank", "WFC"], 0.95)
    case JPMorgan =>
      Entity("JPM_US_BANK_001", "JPMorgan Chase & Co.", "financial_institution", "US",
             ["money_laundering_concerns", "regulatory_violations"],
             ["2021 - FinCEN enforcement action", "2019 - SEC settlement"],
             "2025-09-28T15:30:00Z", ["Chase Bank", "JPM"], 0.88)
    case Goldman =>
      Entity("GS_US_BANK_001", "Goldman Sachs Group Inc", "investment_bank", "US",
             ["bribery_allegations", "regulatory_violations"],
             ["2020 - DOJ 1MDB settlement", "2019 - SEC enforcement action"],
             "2025-09-25T10:15:00Z", ["Goldman Sachs", "GS"], 0.82)
    case Generic(query) =>
      Entity("GENERIC_ENTITY_001", "Entity matching '" + query + "'", "corporation", "US",
             ["under_investigation"], [], "2025-10-01T00:00:00Z", [], 0.65)
  }

  const WellsWords: set<string> := {"wells", "fargo"}
  const JPMorganWords: set<string> := {"jpmorgan", "chase", "jp"}
  const GoldmanWords: set<string> := {"goldman", "sachs"}

  /** Some word of the lower-cased query is one of `names`. */
  predicate Mentions(words: seq<string>, names: set<string>)
  {
    exists w :: w in words && w in names
  }

  /** The known entities the query's words name, in the fixed order Wells Fargo, JPMorgan, Goldman. */
  function Named(words: seq<string>): seq<MockEntity>
  {
    (if Mentions(words, WellsWords) then [WellsFargo] else []) +
    (if Mentions(words, JPMorganWords) then [JPMorgan] else []) +
    (if Mentions(words, GoldmanWords) then [Goldman] else [])
  }

  /** The named entities, or the generic one when none is named, cut to `size`. */
  function Pick(named: seq<MockEntity>, query: string, size: int): seq<MockEntity>
  {
    PyTake(if named == [] then [Generic(query)] else named, size)
  }

  /** The words `_generate_mock_results` looks at: the lower-cased query split on whitespace. */
  function QueryWords(query: string): seq<string>
  {
    SplitWords(Lower(query))
  }

  /** `_generate_mock_results`. */
  function MockResults(query: string, size: int): seq<MockEntity>
  {
    Pick(Named(QueryWords(query)), query, size)
  }

  /** The rank of a known entity in the fixed order. */
  function EntityRank(e: MockEntity): nat
  {
    match e
    case WellsFargo => 0
    case JPMorgan => 1
    case _ => 2
  }

  /** The named entities keep the fixed order, and each is named exactly when one of its words occurs. */
  lemma NamedMeaning(words: seq<string>)
    ensures var es := Named(words);
      |es| <= 3 &&
      (forall i, j :: 0 <= i < j < |es| ==> EntityRank(es[i]) < EntityRank(es[j])) &&
      (WellsFargo in es <==> Mentions(words, WellsWords)) &&
      (JPMorgan in es <==> Mentions(words, JPMorganWords)) &&
      (Goldman in es <==> Mentions(words, GoldmanWords)) &&
      forall e :: e in es ==> !e.Generic?
  {
  }

  /**
   * At most `size` entities (at least one for a positive size); either the
   * generic entity alone, when the query names none of the three, or the
   * named ones in the fixed order, each exactly when one of its words occurs.
   */
  lemma MockResultsMeaning(query: string, size: int)
    requires size >= 1
    ensures var words := QueryWords(query);
      var rs := MockResults(query, size);
      1 <= |rs| <= size &&
      (Named(words) == [] ==> rs == [Generic(query)]) &&
      (Named(words) != [] ==>
         (forall i, j :: 0 <= i < j < |rs| ==> EntityRank(rs[i]) < EntityRank(rs[j])) &&
         (size >= 3 ==>
            (WellsFargo in rs <==> Mentions(words, WellsWords)) &&
            (JPMorgan in rs <==> Mentions(words, JPMorganWords)) &&
            (Goldman in rs <==> Mentions(words, GoldmanWords))))
  {
    PickMeaning(QueryWords(query), query, size);
  }

  /** `MockResultsMeaning` for any list of words. */
  lemma PickMeaning(words: seq<string>, query: string, size: int)
    requires size >= 1
    ensures var rs := Pick(Named(words), query, size);
      1 <= |rs| <= size &&
      (Named(words) == [] ==> rs == [Generic(query)]) &&
      (Named(words) != [] ==>
         (forall i, j :: 0 <= i < j < |rs| ==> EntityRank(rs[i]) < EntityRank(rs[j])) &&
         (size >= 3 ==>
            (WellsFargo in rs <==> Mentions(words, WellsWords)) &&
            (JPMorgan in rs <==> Mentions(words, JPMorganWords)) &&
            (Goldman in rs <==> Mentions(words, GoldmanWords))))
  {
    var named := Named(words);
    NamedMeaning(words);
    if named != [] {
      var rs := Pick(named, query, size);
      assert rs == named[..|rs|];
      if size >= 3 {
        assert rs == named;
      }
    }
  }

  /** The known entities the words name, appended one check at a time. */
  method NamedEntities(words: seq<string>) returns (entities: seq<MockEntity>)
    ensures entities == Named(words)
  {
    entities := [];
    if Mentions(words, WellsWords) {
      entities := entities + [WellsFargo];
    }
    if Mentions(words, JPMorganWords) {
      entities := entities + [JPMorgan];
    }
    if Mentions(words, GoldmanWords) {
      entities := entities + [Goldman];
    }
  }

  /** `_generate_mock_results`: the named entities, else the generic one, cut to `size`. */
  method GenerateMockResults(query: string, size: int) returns (results: seq<MockEntity>)
    ensures results == MockResults(query, size)
  {
    var entities := NamedEntities(QueryWords(query));
    if entities == [] {
      entities := [Generic(query)];
    }
    return PyTake(entities, size);
  }

  // ---------------------------------------------------------------------
  // lambda_handler: result standardisation
  // ---------------------------------------------------------------------

  /** `sep.join(words)`. */
  function JoinWith(sep: string, words: seq<string>): string
  {
    if words == [] then [] else if |words| == 1 then words[0] else words[0] + sep + JoinWith(sep, words[1..])
  }

  /** The strings `', '.join` receives from iterating a value; a non-iterable or a non-string item is a TypeError. */
  function JoinItems(j: Json): (r: Result<seq<string>>)
  {
    match Iterate(j)
    case Err(e) => Err(e)
    case Ok(items) =>
      if forall i :: 0 <= i < |items| ==> items[i].JStr?
      then Ok(seq(|items|, i requires 0 <= i < |items| => items[i].s))
      else Err(TypeError)
  }

  /** The standard record of one entity at 1-based `position`. */
  datatype Standard = Standard(title: Json, url: string, snippet: string, position: nat, entityData: Json)

  function StandardJson(s: Standard): Json
  {
    JObject(map["title" := s.title, "url" := JStr(s.url), "snippet" := JStr(s.snippet),
                "position" := JInt(s.position), "entity_data" := s.entityData])
  }

  /** `gdc://entity/<entity_id>`, `unknown` standing in for a missing id. */
  function EntityUrl(render: Json -> string, f: map<string, Json>): string
  {
    "gdc://entity/" + Str(render, Get(f, "entity_id", JStr("unknown")))
  }

  /** The snippet: entity type, jurisdiction (`N/A` when missing) and the joined risk indicators. */
  function EntitySnippet(render: Json -> string, f: map<string, Json>, indicators: seq<string>): string
  {
    "Entity Type: " + Str(render, Get(f, "entity_type", JStr("N/A"))) +
    " | Jurisdiction: " + Str(render, Get(f, "jurisdiction", JStr("N/A"))) +
    " | Risk Indicators: " + JoinWith(", ", indicators)
  }

  /** One entity in the standard search-result shape; the entity itself is kept as `entity_data`. */
  function Standardized(render: Json -> string, result: Json, position: nat): (r: Result<Standard>)
  {
    if !result.JObject? then Err(AttributeError("get"))
    else
      match JoinItems(Get(result.fields, "risk_indicators", JList([])))
      case Err(e) => Err(e)
      case Ok(indicators) =>
        Ok(Standard(Get(result.fields, "entity_name", JStr("Unknown Entity")), EntityUrl(render, result.fields),
                    EntitySnippet(render, result.fields, indicators), position, result))
  }

  /** `Standardized` as the per-entity step of the loop. */
  function StandardizeAt(render: Json -> string): (Json, nat) -> Result<Standard>
  {
    (result: Json, position: nat) => Standardized(render, result, position)
  }

  /** The standardised results of a list of entities, one per entity at its 1-based position. */
  function StandardizedAll(render: Json -> string, results: seq<Json>): Result<seq<Standard>>
  {
    MapPositions(StandardizeAt(render), results)
  }

  /**
   * A standard record sits at the given position, links to
   * `gdc://entity/<entity_id>` (`unknown` when the id is missing), is titled
   * by the entity's name ('Unknown Entity' when it is missing) and carries
   * the entity itself.
   */
  lemma StandardizedMeaning(render: Json -> string, result: Json, position: nat)
    ensures var r := Standardized(render, result, position);
      r.Ok? ==>
        result.JObject? &&
        r.value.position == position && r.value.entityData == result &&
        r.value.url == EntityUrl(render, result.fields) &&
        r.value.title == Get(result.fields, "entity_name", JStr("Unknown Entity")) &&
        ("entity_id" !in result.fields ==> r.value.url == "gdc://entity/unknown") &&
        ("entity_name" !in result.fields ==> r.value.title == JStr("Unknown Entity"))
  {
  }

  /** Record `i` is entity `i` standardised at position `i + 1`, one record per entity. */
  lemma StandardizedAllMeaning(render: Json -> string, results: seq<Json>)
    ensures StandardizedAll(render, results).Ok? ==>
      var ss := StandardizedAll(render, results).value;
      |ss| == |results| &&
      forall i :: 0 <= i < |ss| ==> Standardized(render, results[i], i + 1) == Ok(ss[i])
  {
    MapPositionsOk(StandardizeAt(render), results);
    if StandardizedAll(render, results).Ok? {
      forall i | 0 <= i < |results| {
        StandardizedAllAt(render, results, i);
      }
    }
  }

  lemma StandardizedAllAt(render: Json -> string, results: seq<Json>, i: nat)
    requires StandardizedAll(render, results).Ok? && i < |results|
    ensures i < |StandardizedAll(render, results).value| &&
            Standardized(render, results[i], i + 1) == Ok(StandardizedAll(render, results).value[i])
  {
    MapPositionsAt(StandardizeAt(render), results, i);
  }

  /** The loop of the storage step, appending one standard record per entity. */
  method Standardize(render: Json -> string, results: seq<Json>) returns (r: Result<seq<Standard>>)
    ensures r == StandardizedAll(render, results)
  {
    var standardized: seq<Standard> := [];
    var i := 0;
    while i < |results|
      invariant 0 <= i <= |results|
      invariant StandardizedAll(render, results[..i]) == Ok(standardized) && |standardized| == i
    {
      var s := Standardized(render, results[i], |standardized| + 1);
      if s.Err? {
        assert results[..i + 1][..i] == results[..i];
        MapPositionsStaysErr(StandardizeAt(render), results, i + 1);
        return Err(s.error);
      }
      MapPositionsSnoc(StandardizeAt(render), results, i, standardized, s.value);
      standardized := standardized + [s.value];
      i := i + 1;
    }
    assert results[..i] == results;
    return Ok(standardized);
  }

  /** Every demonstration entity standardises: its indicators are a list of strings. */
  lemma MockResultsStandardize(render: Json -> string, entities: seq<MockEntity>)
    ensures StandardizedAll(render, ResultsJson(entities)).Ok?
  {
    var results := ResultsJson(entities);
    var f := StandardizeAt(render);
    forall i | 0 <= i < |results| ensures f(results[i], i + 1).Ok? {
      EntityStandardizes(render, Record(entities[i]), i + 1);
    }
    MapPositionsOk(f, results);
  }

  /** An entity in the index shape standardises at any position. */
  lemma EntityStandardizes(render: Json -> string, e: Entity, position: nat)
    ensures Standardized(render, EntityJson(e), position).Ok?
  {
    var j := EntityJson(e);
    assert Iterate(j.fields["risk_indicators"]).value == StringList(e.riskIndicators).items;
  }

  // ---------------------------------------------------------------------
  // lambda_handler
  // ---------------------------------------------------------------------

  /**
   * What the service talks to: `json.loads`, `str` of a non-string,
   * `store_search_results`, the `LLM_PROCESSING_TOPIC` variable, SNS
   * `publish` (topic, message) answering whether it went through, the clock.
   */
  datatype Env = Env(
    loads: string -> Option<Json>,
    render: Json -> string,
    store: (string, Json) -> Result<DataService.SearchConfirmation>,
    llmTopic: Option<string>,
    publish: (Json, Json) -> bool,
    now: string)

  /** At most this many results go to the LLM. */
  const LlmResults: nat := 3

  /** The request: a string body is decoded, any other non-empty body taken as it is, otherwise the event; it must be an object. */
  function RequestBody(env: Env, event: map<string, Json>): (r: Result<map<string, Json>>)
    ensures !("body" in event && Truthy(event["body"])) ==> r == Ok(event)
  {
    if "body" in event && Truthy(event["body"]) then
      var raw := event["body"];
      var body := if raw.JStr? then env.loads(raw.s) else Some(raw);
      if body.None? then Err(DecodeError)
      else if body.value.JObject? then Ok(body.value.fields)
      else Err(AttributeError("get"))
    else Ok(event)
  }

  /** `callback_topic or os.getenv('LLM_PROCESSING_TOPIC')`, kept only when truthy. */
  function Topic(env: Env, callback: Json): (t: Option<Json>)
    ensures t.Some? ==> Truthy(t.value)
    ensures Truthy(callback) ==> t == Some(callback)
  {
    if Truthy(callback) then Some(callback)
    else if env.llmTopic.Some? && env.llmTopic.value != [] then Some(JStr(env.llmTopic.value))
    else None
  }

  /** The SNS message: the query, the first three results, and the index and result count. */
  function TriggerMessage(query: string, results: seq<Json>, indexName: string, timestamp: string): (m: Json)
    ensures m.JObject? && m.fields.Keys == {"query", "search_results", "source", "timestamp", "metadata"}
    ensures m.fields["search_results"] == JList(PyTake(results, LlmResults))
    ensures m.fields["metadata"] == JObject(map["index_name" := JStr(indexName), "total_results" := JInt(|results|)])
    ensures m.fields["timestamp"] == JStr(timestamp)
  {
    JObject(map["query" := JStr(query), "search_results" := JList(PyTake(results, LlmResults)),
                "source" := JStr("gdc_opensearch"), "timestamp" := JStr(timestamp),
                "metadata" := JObject(map["index_name" := JStr(indexName), "total_results" := JInt(|results|)])])
  }

  /** The 200 body; `storage_info` only when the results were stored. */
  function SuccessBody(env: Env, query: string, indexName: string, results: seq<Json>, filters: Json,
                       storage: Option<DataService.SearchConfirmation>, triggered: bool): (b: map<string, Json>)
    ensures b.Keys == {"query", "source", "index", "results", "total_hits", "timestamp", "llm_processing_triggered",
                       "stored_in_database", "filters_applied"} + (if storage.Some? then {"storage_info"} else {})
    ensures b["stored_in_database"] == JBool(storage.Some?) && b["llm_processing_triggered"] == JBool(triggered)
    ensures b["total_hits"] == JInt(|results|) && b["results"] == JList(results)
    ensures "storage_info" in b <==> storage.Some?
  {
    var body := map["query" := JStr(query), "source" := JStr("gdc_opensearch"), "index" := JStr(indexName),
                     "results" := JList(results), "total_hits" := JInt(|results|), "timestamp" := JStr(env.now),
                     "llm_processing_triggered" := JBool(triggered), "stored_in_database" := JBool(storage.Some?),
                     "filters_applied" := filters];
    if storage.Some? then
      body["storage_info" := JObject(map["query_hash" := JStr(storage.value.queryHash),
                                         "storage_timestamp" := JStr(storage.value.timestamp)])]
    else body
  }

  /** One SNS publication: the topic and the message. */
  datatype Publication = Publication(topic: Json, message: Json)

  /** What one invocation did: its response, the request body it built, what it stored, the publication it attempted. */
  datatype Outcome = Outcome(response: Response, request: Option<SearchBody>,
                             storage: Option<DataService.SearchConfirmation>, publication: Option<Publication>)

  function Failed(statusCode: int, message: string): (o: Outcome)
    ensures o.response.statusCode == statusCode && o.request.None?
  {
    Outcome(CreateSecureResponse(statusCode, map["error" := JStr(message)], map[]), None, None, None)
  }

  function ResultsJson(entities: seq<MockEntity>): (js: seq<Json>)
    ensures |js| == |entities|
    ensures forall i :: 0 <= i < |entities| ==> js[i] == EntityJson(Record(entities[i]))
  {
    seq(|entities|, i requires 0 <= i < |entities| => EntityJson(Record(entities[i])))
  }

  /**
   * The storage step: the results in the standard shape, then the client
   * IP looked up in the event for the metadata, then the store, when
   * storing is asked for; any failure is swallowed.
   */
  function StorageOf(env: Env, request: map<string, Json>, clientIp: Result<Json>, query: string, results: seq<Json>)
    : Option<DataService.SearchConfirmation>
  {
    if Truthy(Get(request, "store_results", JBool(true))) then
      match StandardizedAll(env.render, results)
      case Err(_) => None
      case Ok(ss) =>
        if clientIp.Err? then None
        else match env.store(query, JList(seq(|ss|, i requires 0 <= i < |ss| => StandardJson(ss[i]))))
        case Ok(c) => Some(c)
        case Err(_) => None
    else None
  }

  /** The publication: LLM processing on (by default), some results, and a topic; stamped with the storage time when stored. */
  function PublicationOf(env: Env, request: map<string, Json>, query: string, indexName: string, results: seq<Json>,
                         storage: Option<DataService.SearchConfirmation>): Option<Publication>
  {
    if Truthy(Get(request, "enable_llm_processing", JBool(true))) && results != [] then
      match Topic(env, Get(request, "callback_topic", JNull))
      case None => None
      case Some(topic) =>
        var timestamp := if storage.Some? then storage.value.timestamp else env.now;
        Some(Publication(topic, TriggerMessage(query, results, indexName, timestamp)))
    else None
  }

  /** After the search: store, trigger, answer 200. */
  function Answered(env: Env, request: map<string, Json>, clientIp: Result<Json>, query: string, indexName: string, filters: Json,
                    body: SearchBody, results: seq<Json>): (o: Outcome)
    ensures o.response.statusCode == 200 && o.request == Some(body)
  {
    var storage := StorageOf(env, request, clientIp, query, results);
    var publication := PublicationOf(env, request, query, indexName, results, storage);
    var triggered := publication.Some? && env.publish(publication.value.topic, publication.value.message);
    Outcome(CreateSecureResponse(200, SuccessBody(env, query, indexName, results, filters, storage, triggered), map[]),
            Some(body), storage, publication)
  }

  /** The index the request names must start with `gdc-`. */
  predicate GdcIndex(name: string)
  {
    "gdc-" <= name
  }

  /**
   * `lambda_handler`: a rejected query or size, or an index name not
   * starting with `gdc-`, is 400 with the validator's message, before any
   * search; an undecodable body, a non-object request or a non-string index
   * name is 500; filters that are not a dictionary fail the search (500).
   */
  function Handle(env: Env, event: map<string, Json>): (o: Outcome)
    ensures o.response.statusCode in {200, 400, 500}
    ensures o.response.statusCode == 200 <==> o.request.Some?
  {
    match RequestBody(env, event)
    case Err(_) => Failed(500, "Internal server error")
    case Ok(request) =>
      match ValidateSearchQuery(Get(request, "query", JStr("")))
      case Err(e) => Failed(400, Describe(e))
      case Ok(query) =>
        match ValidateNumResults(Get(request, "size", JInt(10)))
        case Err(e) => Failed(400, Describe(e))
        case Ok(size) =>
          var index := Get(request, "index", JStr("gdc-entities"));
          var filters := Get(request, "filters", JObject(map[]));
          if !index.JStr? then Failed(500, "Internal server error")
          else if !GdcIndex(index.s) then Failed(400, "Invalid index name. Must start with 'gdc-'")
          else
            match SearchBodyOf(query, size, filters)
            case Err(_) => Failed(500, "Search service unavailable")
            case Ok(body) => Answered(env, request, SourceIp(event), query, index.s, filters, body, ResultsJson(MockResults(query, size)))
  }

  /** The storage step of `lambda_handler`: standardise, then store; a failure of either leaves nothing stored. */
  method StoreResults(env: Env, request: map<string, Json>, clientIp: Result<Json>, query: string, results: seq<Json>)
    returns (storage: Option<DataService.SearchConfirmation>)
    ensures storage == StorageOf(env, request, clientIp, query, results)
  {
    storage := None;
    if Truthy(Get(request, "store_results", JBool(true))) {
      var standardized := Standardize(env.render, results);
      if standardized.Ok? {
        var ss := standardized.value;
        if clientIp.Err? {
          return;
        }
        var stored := env.store(query, JList(seq(|ss|, i requires 0 <= i < |ss| => StandardJson(ss[i]))));
        if stored.Ok? {
          storage := Some(stored.value);
        }
      }
    }
  }

  /** `lambda_handler` as written, with the request building, the mock search and the standardisation loops. */
  method LambdaHandler(env: Env, event: map<string, Json>) returns (o: Outcome)
    ensures o == Handle(env, event)
  {
    var request := RequestBody(env, event);
    if request.Err? {
      return Failed(500, "Internal server error");
    }
    var b := request.value;
    var query := ValidateSearchQuery(Get(b, "query", JStr("")));
    if query.Err? {
      return Failed(400, Describe(query.error));
    }
    var size := ValidateNumResults(Get(b, "size", JInt(10)));
    if size.Err? {
      return Failed(400, Describe(size.error));
    }
    var index := Get(b, "index", JStr("gdc-entities"));
    var filters := Get(b, "filters", JObject(map[]));
    if !index.JStr? {
      return Failed(500, "Internal server error");
    }
    if !GdcIndex(index.s) {
      return Failed(400, "Invalid index name. Must start with 'gdc-'");
    }
    var body := BuildSearchBody(query.value, size.value, filters);
    if body.Err? {
      return Failed(500, "Search service unavailable");
    }
    o := Answer(env, b, SourceIp(event), query.value, size.value, index.s, filters, body.value);
  }

  /** The search, storage and publication steps of `lambda_handler` once the request is accepted. */
  method Answer(env: Env, request: map<string, Json>, clientIp: Result<Json>, query: string, size: int, indexName: string, filters: Json,
                body: SearchBody) returns (o: Outcome)
    ensures o == Answered(env, request, clientIp, query, indexName, filters, body, ResultsJson(MockResults(query, size)))
  {
    var entities := GenerateMockResults(query, size);
    var results := ResultsJson(entities);
    var storage := StoreResults(env, request, clientIp, query, results);
    var publication := PublicationOf(env, request, query, indexName, results, storage);
    var triggered := publication.Some? && env.publish(publication.value.topic, publication.value.message);
    o := Outcome(CreateSecureResponse(200, SuccessBody(env, query, indexName, results, filters, storage, triggered), map[]),
                 Some(body), storage, publication);
  }

  /** A valid query and size with an index name outside `gdc-` is refused with 400 and nothing is searched. */
  lemma NonGdcIndexRefused(env: Env, event: map<string, Json>)
    requires RequestBody(env, event).Ok?
    requires var request := RequestBody(env, event).value;
      ValidateSearchQuery(Get(request, "query", JStr(""))).Ok? &&
      ValidateNumResults(Get(request, "size", JInt(10))).Ok? &&
      var index := Get(request, "index", JStr("gdc-entities"));
      index.JStr? && !GdcIndex(index.s)
    ensures Handle(env, event).response.statusCode == 400 && Handle(env, event).request.None?
    ensures Handle(env, event).response.body == map["error" := JStr("Invalid index name. Must start with 'gdc-'")]
  {
  }

  /**
   * Since a 200 always carries at least one result (`MockResultsMeaning`),
   * the LLM is handed work exactly when processing is on and a topic
   * exists; the message carries at most three results and the full count;
   * `stored_in_database` and `storage_info` both say the storage succeeded.
   */
  lemma AnsweredMeaning(env: Env, request: map<string, Json>, clientIp: Result<Json>, query: string, indexName: string, filters: Json,
                        body: SearchBody, results: seq<Json>)
    requires results != []
    ensures var o := Answered(env, request, clientIp, query, indexName, filters, body, results);
      o.response.statusCode == 200 &&
      (o.publication.Some? <==>
         Truthy(Get(request, "enable_llm_processing", JBool(true))) && Topic(env, Get(request, "callback_topic", JNull)).Some?) &&
      (o.publication.Some? ==>
         var m := o.publication.value.message;
         m.fields["search_results"].items == PyTake(results, LlmResults) && |m.fields["search_results"].items| <= 3 &&
         m.fields["metadata"].fields["total_results"] == JInt(|results|)) &&
      (o.response.body["stored_in_database"] == JBool(true) <==> o.storage.Some?) &&
      ("storage_info" in o.response.body <==> o.storage.Some?) &&
      (o.response.body["llm_processing_triggered"] == JBool(true) <==>
         o.publication.Some? && env.publish(o.publication.value.topic, o.publication.value.message))
  {
    var storage := StorageOf(env, request, clientIp, query, results);
    var publication := PublicationOf(env, request, query, indexName, results, storage);
    var triggered := publication.Some? && env.publish(publication.value.topic, publication.value.message);
    PublicationShape(env, request, query, indexName, results, storage);
    SuccessResponse(env, query, indexName, results, filters, storage, triggered);
  }

  lemma PublicationShape(env: Env, request: map<string, Json>, query: string, indexName: string, results: seq<Json>,
                         storage: Option<DataService.SearchConfirmation>)
    requires results != []
    ensures var p := PublicationOf(env, request, query, indexName, results, storage);
      (p.Some? <==>
         Truthy(Get(request, "enable_llm_processing", JBool(true))) && Topic(env, Get(request, "callback_topic", JNull)).Some?) &&
      (p.Some? ==>
         var m := p.value.message;
         m.fields["search_results"].items == PyTake(results, LlmResults) && |m.fields["search_results"].items| <= 3 &&
         m.fields["metadata"].fields["total_results"] == JInt(|results|))
  {
  }

  lemma SuccessResponse(env: Env, query: string, indexName: string, results: seq<Json>, filters: Json,
                        storage: Option<DataService.SearchConfirmation>, triggered: bool)
    ensures var r := CreateSecureResponse(200, SuccessBody(env, query, indexName, results, filters, storage, triggered), map[]);
      r.statusCode == 200 &&
      (r.body["stored_in_database"] == JBool(true) <==> storage.Some?) &&
      ("storage_info" in r.body <==> storage.Some?) &&
      (r.body["llm_processing_triggered"] == JBool(true) <==> triggered)
  {
  }

  /** With storing on, a readable client IP and a working store, the demonstration results are always stored. */
  lemma MockResultsStored(env: Env, request: map<string, Json>, clientIp: Result<Json>, query: string, size: int)
    requires Truthy(Get(request, "store_results", JBool(true))) && clientIp.Ok?
    requires forall q, j :: env.store(q, j).Ok?
    ensures StorageOf(env, request, clientIp, query, ResultsJson(MockResults(query, size))).Some?
  {
    MockResultsStandardize(env.render, MockResults(query, size));
  }
}
