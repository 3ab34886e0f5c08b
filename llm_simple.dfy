/**
 * The simplified LLM service (src/lambda/lambda_llm_service_simple.py):
 * prompt inputs truncated to fixed lengths, the same decoding and
 * fallback as the production service, a full MEDIUM assessment in place
 * of a failed analysis, and one DynamoDB item holding the whole batch.
 */
module LlmSimple {
  import opened Wrappers
  import opened Strings
  import opened JsonValue
  import opened Scoring

  // ---------------------------------------------------------------------
  // Prompt inputs
  // ---------------------------------------------------------------------

  /** The four values interpolated into the prompt. */
  datatype PromptInputs = PromptInputs(title: string, url: string, snippet: string, context: string)

  /**
   * `str(result.get('title', ''))[:200]`, `str(result.get('url', ''))[:500]`,
   * `str(result.get('snippet', ''))[:1000]` and `str(context)[:200]`.
   */
  function Prompt(result: map<string, Json>, context: string, render: Json -> string): (p: PromptInputs)
    ensures |p.title| <= 200 && |p.url| <= 500 && |p.snippet| <= 1000 && |p.context| <= 200
    ensures p.title <= Str(render, Get(result, "title", JStr("")))
    ensures p.url <= Str(render, Get(result, "url", JStr("")))
    ensures p.snippet <= Str(render, Get(result, "snippet", JStr("")))
    ensures p.context <= context
    ensures |context| <= 200 ==> p.context == context
    ensures var t := Str(render, Get(result, "title", JStr(""))); |t| <= 200 ==> p.title == t
  {
    PromptInputs(
      PyTake(Str(render, Get(result, "title", JStr(""))), 200),
      PyTake(Str(render, Get(result, "url", JStr(""))), 500),
      PyTake(Str(render, Get(result, "snippet", JStr(""))), 1000),
      PyTake(context, 200))
  }

  // ---------------------------------------------------------------------
  // analyze_with_nova_llm
  // ---------------------------------------------------------------------

  /**
   * `analyze_with_nova_llm`: `bedrock` answers a prompt with the reply's
   * `outputText` (None when absent) or the exception the call raised.
   * Only the truncated inputs reach the model.
   */
  function Analyze(result: Json, query: string, render: Json -> string,
                   bedrock: PromptInputs -> Result<Option<string>>, loads: string -> Option<Json>, now: string): (r: Result<Analysis>)
    ensures !result.JObject? ==> r.Err?
    ensures result.JObject? ==>
      var reply := bedrock(Prompt(result.fields, query, render));
      (reply.Err? ==> r == Err(reply.error)) &&
      (reply.Ok? ==> r == AnalysisRecord(result, Parsed(reply.value, loads), now))
  {
    if !result.JObject? then Err(AttributeError("get"))
    else
      match bedrock(Prompt(result.fields, query, render))
      case Err(e) => Err(e)
      case Ok(reply) => AnalysisRecord(result, Parsed(reply, loads), now)
  }

  /** A reply without `outputText` is not an error: it gets the fallback with the fixed summary. */
  lemma MissingOutputText(result: Json, query: string, render: Json -> string,
                          bedrock: PromptInputs -> Result<Option<string>>, loads: string -> Option<Json>, now: string)
    requires result.JObject? && bedrock(Prompt(result.fields, query, render)) == Ok(None)
    ensures var r := Analyze(result, query, render, bedrock, loads, now);
      r.Ok? && r.value.summary == JStr("No summary available") &&
      r.value.assessment.level == JStr("MEDIUM") && r.value.confidence == JFloat(0.3)
  {
    var fallback := AnalysisRecord(result, FallbackParsed(None), now);
    assert Analyze(result, query, render, bedrock, loads, now) == fallback by {
      assert Parsed(None, loads) == FallbackParsed(None);
    }
    assert fallback.Ok? && fallback.value.summary == JStr("No summary available") &&
      fallback.value.assessment.level == JStr("MEDIUM") && fallback.value.confidence == JFloat(0.3) by {
      FallbackRecord(result, None, now);
    }
  }

  // ---------------------------------------------------------------------
  // process_search_results
  // ---------------------------------------------------------------------

  /** The full MEDIUM assessment that replaces a failed analysis. */
  function ErrorRecord(result: Json, summary: Json, error: Error, now: string): (a: Analysis)
    ensures a.original == result && a.processingError
    ensures a.assessment == Assessment(JFloat(0.5), JStr("MEDIUM"), JFloat(0.5), JFloat(0.5), JFloat(0.5), JFloat(0.5), 0.5)
    ensures a.confidence == JFloat(0.3) && a.relevance == JFloat(0.5)
    ensures a.keyFindings == JList([JStr("Error processing: " + Describe(error))])
  {
    Analysis(
      result,
      summary,
      Assessment(JFloat(0.5), JStr("MEDIUM"), JFloat(0.5), JFloat(0.5), JFloat(0.5), JFloat(0.5), 0.5),
      JList([JStr("Error processing: " + Describe(error))]),
      JList([JStr("Unable to analyze with LLM")]),
      JList([JStr("Manual review recommended")]),
      JObject(map["credibility_score" := JFloat(0.5), "source_type" := JStr("unknown"), "publication_date" := JStr("unknown")]),
      JFloat(0.5),
      JFloat(0.3),
      true,
      now)
  }

  /**
   * One turn of the loop: inside the `try`, the logged `title[:50]` and
   * the analysis; in the `except`, the error record, whose
   * `result.get('snippet', '')[:200]` can itself raise and escape.
   */
  function ProcessOne(result: Json, analysis: Result<Analysis>, now: string): (r: Result<Analysis>)
    ensures r.Ok? && r != analysis ==> r.value.processingError && r.value.original == result
    ensures result.JObject? && Take(Get(result.fields, "title", JStr("Unknown")), 50).Some? ==>
      (analysis.Ok? ==> r == analysis) &&
      (analysis.Err? && Take(Get(result.fields, "snippet", JStr("")), 200).Some? ==>
         r == Ok(ErrorRecord(result, Take(Get(result.fields, "snippet", JStr("")), 200).value, analysis.error, now)))
  {
    if !result.JObject? then Err(AttributeError("get"))
    else
      var attempt :=
        if Take(Get(result.fields, "title", JStr("Unknown")), 50).None? then Err(TypeError) else analysis;
      match attempt
      case Ok(a) => Ok(a)
      case Err(e) =>
        match Take(Get(result.fields, "snippet", JStr("")), 200)
        case None => Err(TypeError)
        case Some(summary) => Ok(ErrorRecord(result, summary, e, now))
  }

  /** The records of the loop, in input order; an exception escaping a turn ends the call. */
  function Records(results: seq<Json>, analyze: (nat, Json) -> Result<Analysis>, now: string): Result<seq<Analysis>>
    decreases |results|
  {
    if results == [] then Ok([])
    else
      var n := |results| - 1;
      match Records(results[..n], analyze, now)
      case Err(e) => Err(e)
      case Ok(rs) =>
        match ProcessOne(results[n], analyze(n, results[n]), now)
        case Err(e) => Err(e)
        case Ok(record) => Ok(rs + [record])
  }

  /**
   * One record per result, in input order; a failed analysis becomes the
   * error record of its own result, with composite 0.5 and confidence 0.3.
   */
  lemma {:induction false} RecordsShape(results: seq<Json>, analyze: (nat, Json) -> Result<Analysis>, now: string)
    requires Records(results, analyze, now).Ok?
    ensures var rs := Records(results, analyze, now).value;
      |rs| == |results| &&
      (forall i :: 0 <= i < |rs| && analyze(i, results[i]).Err? ==>
         rs[i].processingError && rs[i].original == results[i] &&
         rs[i].assessment.composite == 0.5 && rs[i].confidence == JFloat(0.3))
    decreases |results|
  {
    if results != [] {
      var n := |results| - 1;
      RecordsShape(results[..n], analyze, now);
      var rs := Records(results, analyze, now).value;
      var prefix := Records(results[..n], analyze, now).value;
      assert rs == prefix + [ProcessOne(results[n], analyze(n, results[n]), now).value];
      forall i | 0 <= i < n && analyze(i, results[i]).Err?
        ensures rs[i].processingError && rs[i].original == results[i]
        ensures rs[i].assessment.composite == 0.5 && rs[i].confidence == JFloat(0.3)
      {
        assert rs[i] == prefix[i];
        assert results[..n][i] == results[i];
      }
    }
  }

  lemma {:induction false} RecordsStayErr(results: seq<Json>, i: nat, analyze: (nat, Json) -> Result<Analysis>, now: string)
    requires 0 < i <= |results|
    requires Records(results[..i], analyze, now).Err?
    ensures Records(results, analyze, now) == Err(Records(results[..i], analyze, now).error)
    decreases |results| - i
  {
    if i < |results| {
      assert results[..i + 1][..i] == results[..i];
      RecordsStayErr(results, i + 1, analyze, now);
    } else {
      assert results[..i] == results;
    }
  }

  /** The per-result loop of `process_search_results`. */
  method ProcessResults(results: seq<Json>, analyze: (nat, Json) -> Result<Analysis>, now: string)
    returns (r: Result<seq<Analysis>>)
    ensures r == Records(results, analyze, now)
  {
    var processed: seq<Analysis> := [];
    var i := 0;
    while i < |results|
      invariant 0 <= i <= |results|
      invariant Records(results[..i], analyze, now) == Ok(processed)
    {
      assert results[..i + 1][..i] == results[..i];
      assert results[..i + 1][i] == results[i];
      var step := ProcessOne(results[i], analyze(i, results[i]), now);
      if step.Err? {
        RecordsStayErr(results, i + 1, analyze, now);
        return Err(step.error);
      }
      processed := processed + [step.value];
      i := i + 1;
    }
    assert results[..i] == results;
    r := Ok(processed);
  }

  // ---------------------------------------------------------------------
  // store_llm_analysis
  // ---------------------------------------------------------------------

  const AnalysisTtl: int := 30 * 24 * 60 * 60

  /** The DynamoDB item written for a batch. */
  datatype LlmAnalysisItem = LlmAnalysisItem(
    queryHash: string, query: string, timestamp: string, recordType: string, llmAnalysis: Json,
    totalCount: nat, processingStatus: string, createdAt: string, updatedAt: string, ttl: int)

  /** The collaborators of the store: the clock, `md5(...).hexdigest()`, the codec, and whether the table accepts a write. */
  datatype StoreEnv = StoreEnv(now: string, nowEpoch: int, md5: string -> string, codec: Codec, putSucceeds: bool)

  /** The batch as the list of dictionaries handed to DynamoDB. */
  function BatchJson(records: seq<Analysis>): Json
  {
    JList(seq(|records|, i requires 0 <= i < |records| => JObject(AnalysisFields(records[i]))))
  }

  /** The item, with `llm_analysis` as given. */
  function Item(env: StoreEnv, query: string, timestamp: string, records: seq<Analysis>, analysis: Json): (item: LlmAnalysisItem)
    ensures item.queryHash == env.md5(query + "_" + timestamp + "_llm_analysis")
    ensures item.recordType == "LLM_ANALYSIS" && item.processingStatus == "ANALYSIS_COMPLETED"
    ensures item.totalCount == |records| && item.ttl == env.nowEpoch + 30 * 86400
  {
    LlmAnalysisItem(env.md5(query + "_" + timestamp + "_llm_analysis"), query, timestamp, "LLM_ANALYSIS",
                    analysis, |records|, "ANALYSIS_COMPLETED", env.now, env.now, env.nowEpoch + AnalysisTtl)
  }

  /** A `put_item` through boto3's resource layer: floats are rejected by its serializer; otherwise the table decides. */
  function PutItem(env: StoreEnv, item: LlmAnalysisItem): Result<LlmAnalysisItem>
  {
    if !NoFloats(item.llmAnalysis) then Err(TypeError)
    else if !env.putSucceeds then Err(ServiceError("dynamodb"))
    else Ok(item)
  }

  /** `store_llm_analysis` as written: the records go to DynamoDB as they are. */
  function StoreLlmAnalysisAsWritten(env: StoreEnv, query: string, timestamp: string, records: seq<Analysis>): Result<LlmAnalysisItem>
  {
    PutItem(env, Item(env, query, timestamp, records, BatchJson(records)))
  }

  /** Every record carries its composite score as a float. */
  lemma RecordHasFloat(a: Analysis)
    ensures !NoFloats(JObject(AnalysisFields(a)))
  {
    var d := AnalysisFields(a);
    var ra := AssessmentFields(a.assessment);
    assert d["risk_assessment"] == JObject(ra);
    assert ra["composite_risk_score"] == JFloat(a.assessment.composite);
    assert !NoFloats(JObject(ra));
  }

  /**
   * As written, no non-empty batch is ever stored: each record holds a
   * float, which the serializer rejects before the table is reached,
   * whatever the table would do.
   */
  lemma AsWrittenStoreAlwaysFails(env: StoreEnv, query: string, timestamp: string, records: seq<Analysis>)
    requires records != []
    ensures StoreLlmAnalysisAsWritten(env, query, timestamp, records) == Err(TypeError)
  {
    RecordHasFloat(records[0]);
    assert BatchJson(records).items[0] == JObject(AnalysisFields(records[0]));
  }

  /** `store_llm_analysis` converting the records to decimals first, as every other writer of the pipeline does. */
  function StoreLlmAnalysis(env: StoreEnv, query: string, timestamp: string, records: seq<Analysis>): (r: Result<LlmAnalysisItem>)
    ensures r.Ok? <==> env.putSucceeds
    ensures r.Ok? ==> r.value == Item(env, query, timestamp, records, ToDecimal(env.codec, BatchJson(records)))
  {
    PutItem(env, Item(env, query, timestamp, records, ToDecimal(env.codec, BatchJson(records))))
  }

  /** The stored batch reads back as the records themselves when each float survives its decimal form. */
  lemma StoredBatchReadsBack(env: StoreEnv, query: string, timestamp: string, records: seq<Analysis>)
    requires RoundTrips(env.codec) && env.putSucceeds
    requires NoDecimals(BatchJson(records))
    ensures ToFloat(env.codec, StoreLlmAnalysis(env, query, timestamp, records).value.llmAnalysis) == BatchJson(records)
  {
    DecimalRoundTrip(env.codec, BatchJson(records));
  }

  /** What `process_search_results` did: the records, and the item stored, if any (a failed store is caught). */
  datatype Outcome = Outcome(records: seq<Analysis>, stored: Option<LlmAnalysisItem>)

  /**
   * `process_search_results`: nothing without results; otherwise one
   * record per result and one store attempt, through `store_llm_analysis`
   * as written. That store always raises on a non-empty batch and the
   * error is caught, so nothing is ever stored (StoreLlmAnalysis is the
   * store that converts the floats first).
   */
  method ProcessSearchResults(env: StoreEnv, analyze: (nat, Json) -> Result<Analysis>, results: seq<Json>,
                              query: string, timestamp: string) returns (r: Result<Outcome>)
    ensures results == [] ==> r == Ok(Outcome([], None))
    ensures results != [] ==> (r.Ok? <==> Records(results, analyze, env.now).Ok?)
    ensures r.Ok? && results != [] ==>
      r.value.records == Records(results, analyze, env.now).value && |r.value.records| == |results|
    ensures r.Ok? ==> r.value.stored.None?
  {
    if results == [] {
      return Ok(Outcome([], None));
    }
    var records := ProcessResults(results, analyze, env.now);
    if records.Err? {
      return Err(records.error);
    }
    RecordsShape(results, analyze, env.now);
    var stored := StoreLlmAnalysisAsWritten(env, query, timestamp, records.value);
    AsWrittenStoreAlwaysFails(env, query, timestamp, records.value);
    var analysed := records.value;
    match stored {
      case Ok(item) => r := Ok(Outcome(analysed, Some(item)));
      case Err(_) => r := Ok(Outcome(analysed, None));
    }
  }
}
