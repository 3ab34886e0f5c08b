/**
 * The production LLM service (src/lambda/lambda_llm_service_secure.py):
 * each search result is analysed, a failed analysis degrades to an error
 * entry instead of aborting, the batch is stored (or handed to the
 * fallback store), and a risk record plus a notification is produced per
 * entry until the first failure.
 */
module LlmSecure {
  import opened Wrappers
  import opened JsonValue
  import opened Scoring
  import RiskOutput

  /** One processed search result. */
  datatype Entry =
    | Analysed(analysis: Analysis)
      /** The entry that replaces a failed analysis. */
    | Degraded(original: Json, summary: Json, error: Error, timestamp: string)

  /** The entry as the dictionary that is stored and handed to the risk-output service. */
  function EntryFields(e: Entry): map<string, Json>
  {
    match e
    case Analysed(a) => AnalysisFields(a)
    case Degraded(original, summary, error, timestamp) =>
      map[
        "original_result" := original,
        "summary" := summary,
        "key_insights" := JList([JStr("Error processing: " + Describe(error))]),
        "relevance_score" := JFloat(0.3),
        "processing_error" := JBool(true),
        "processing_timestamp" := JStr(timestamp)]
  }

  /** A degraded entry carries relevance 0.3, the error flag, and no risk assessment. */
  lemma DegradedFields(original: Json, summary: Json, error: Error, timestamp: string)
    ensures var d := EntryFields(Degraded(original, summary, error, timestamp));
      d["relevance_score"] == JFloat(0.3) && d["processing_error"] == JBool(true) &&
      d["original_result"] == original && "risk_assessment" !in d && "confidence_level" !in d
  {
  }

  // ---------------------------------------------------------------------
  // analyze_with_nova_llm
  // ---------------------------------------------------------------------

  /**
   * `analyze_with_nova_llm` as written: its first step calls
   * `input_validator.sanitize_string`, which `InputValidator` does not
   * define, so every call raises AttributeError before the model is asked.
   */
  function AnalyzeAsWritten(result: Json, query: string): Result<Analysis>
  {
    Err(AttributeError("sanitize_string"))
  }

  /**
   * `analyze_with_nova_llm` with the sanitising step working: `reply` is
   * the outcome of the Bedrock call (its reply text, or the exception it
   * raised); the text is decoded or replaced by the fallback.
   */
  function Analyze(result: Json, reply: Result<string>, loads: string -> Option<Json>, now: string): (r: Result<Analysis>)
    ensures reply.Err? ==> r == Err(reply.error)
    ensures reply.Ok? ==> r == AnalysisRecord(result, Parsed(Some(reply.value), loads), now)
  {
    match reply
    case Err(e) => Err(e)
    case Ok(text) => AnalysisRecord(result, Parsed(Some(text), loads), now)
  }

  /** With a reply that does not decode, the analysis is the degraded MEDIUM assessment, not an error. */
  lemma AnalyzeUndecodable(result: Json, text: string, loads: string -> Option<Json>, now: string)
    requires ParseReply(text, loads).None?
    ensures Analyze(result, Ok(text), loads, now).Ok?
    ensures Analyze(result, Ok(text), loads, now).value.assessment.level == JStr("MEDIUM")
    ensures Analyze(result, Ok(text), loads, now).value.assessment.composite == 0.5
  {
    FallbackRecord(result, Some(text), now);
  }

  // ---------------------------------------------------------------------
  // process_search_results: the per-result loop
  // ---------------------------------------------------------------------

  /**
   * One turn of the loop. Inside the `try`: the title must be sliceable
   * (it is logged as `title[:50]`) and the analysis must succeed;
   * otherwise the `except` builds a degraded entry, whose own
   * `result.get('snippet', '')[:200]` is outside any `try`, so a result
   * that is not a dictionary, or a snippet that cannot be sliced, escapes.
   */
  function ProcessOne(result: Json, analysis: Result<Analysis>, now: string): (r: Result<Entry>)
    ensures r.Ok? && r.value.Degraded? ==> r.value.original == result
    ensures r.Ok? && r.value.Analysed? ==> analysis.Ok? && r.value.analysis == analysis.value
    ensures result.JObject? && Take(Get(result.fields, "title", JStr("Unknown")), 50).Some? ==>
      (analysis.Ok? ==> r == Ok(Analysed(analysis.value))) &&
      (analysis.Err? && Take(Get(result.fields, "snippet", JStr("")), 200).Some? ==>
         r == Ok(Degraded(result, Take(Get(result.fields, "snippet", JStr("")), 200).value, analysis.error, now)))
  {
    if !result.JObject? then Err(AttributeError("get"))
    else
      var attempt :=
        if Take(Get(result.fields, "title", JStr("Unknown")), 50).None? then Err(TypeError) else analysis;
      match attempt
      case Ok(a) => Ok(Analysed(a))
      case Err(e) =>
        match Take(Get(result.fields, "snippet", JStr("")), 200)
        case None => Err(TypeError)
        case Some(summary) => Ok(Degraded(result, summary, e, now))
  }

  /** The entries of the loop, in input order; the first exception that escapes a turn ends the whole call. */
  function Entries(results: seq<Json>, analyze: (nat, Json) -> Result<Analysis>, now: string): Result<seq<Entry>>
    decreases |results|
  {
    if results == [] then Ok([])
    else
      var n := |results| - 1;
      match Entries(results[..n], analyze, now)
      case Err(e) => Err(e)
      case Ok(es) =>
        match ProcessOne(results[n], analyze(n, results[n]), now)
        case Err(e) => Err(e)
        case Ok(entry) => Ok(es + [entry])
  }

  /**
   * One entry per result, in input order: a failed analysis is degraded
   * and keeps its result, a kept analysis is the analyser's own.
   */
  lemma EntriesShape(results: seq<Json>, analyze: (nat, Json) -> Result<Analysis>, now: string)
    requires Entries(results, analyze, now).Ok?
    ensures var es := Entries(results, analyze, now).value;
      |es| == |results| &&
      (forall i :: 0 <= i < |es| && es[i].Degraded? ==> es[i].original == results[i]) &&
      (forall i :: 0 <= i < |es| && analyze(i, results[i]).Err? ==> es[i].Degraded?) &&
      (forall i :: 0 <= i < |es| && es[i].Analysed? ==> es[i].analysis == analyze(i, results[i]).value)
  {
    if results != [] {
      EntryAt(results, analyze, now, 0);
      var es := Entries(results, analyze, now).value;
      forall i | 0 <= i < |es|
        ensures ProcessOne(results[i], analyze(i, results[i]), now) == Ok(es[i])
      {
        EntryAt(results, analyze, now, i);
      }
    }
  }

  /** Entry `i` is what the turn made of result `i`. */
  lemma {:induction false} EntryAt(results: seq<Json>, analyze: (nat, Json) -> Result<Analysis>, now: string, i: nat)
    requires Entries(results, analyze, now).Ok? && i < |results|
    ensures |Entries(results, analyze, now).value| == |results|
    ensures ProcessOne(results[i], analyze(i, results[i]), now) == Ok(Entries(results, analyze, now).value[i])
    decreases |results|
  {
    var n := |results| - 1;
    var prefix := results[..n];
    assert Entries(prefix, analyze, now).Ok?;
    if i < n {
      EntryAt(prefix, analyze, now, i);
      assert prefix[i] == results[i];
    } else if n > 0 {
      EntryAt(prefix, analyze, now, 0);
    }
  }

  /** Once a turn raises, the whole loop has raised. */
  lemma {:induction false} EntriesStayErr(results: seq<Json>, i: nat, analyze: (nat, Json) -> Result<Analysis>, now: string)
    requires 0 < i <= |results|
    requires Entries(results[..i], analyze, now).Err?
    ensures Entries(results, analyze, now) == Err(Entries(results[..i], analyze, now).error)
    decreases |results| - i
  {
    if i < |results| {
      assert results[..i + 1][..i] == results[..i];
      EntriesStayErr(results, i + 1, analyze, now);
    } else {
      assert results[..i] == results;
    }
  }

  // ---------------------------------------------------------------------
  // Storing the batch
  // ---------------------------------------------------------------------

  /** The item `store_results_fallback` writes. */
  datatype FallbackItem = FallbackItem(
    query: string, timestamp: string, recordType: string, llmAnalysis: Json, totalCount: nat,
    processingStatus: string, ttl: int)

  const AnalysisTtl: int := 30 * 24 * 60 * 60

  /** Where the batch went: nowhere (no results), the data service, or the fallback (whose write can fail silently). */
  datatype Storage = NotAttempted | Primary(query: string, timestamp: string, count: nat) | Fallback(item: Option<FallbackItem>)

  /**
   * The collaborators of one call: the clock, `json.loads`, the codec and
   * `hash()`, whether the data service's store and the fallback write
   * succeed, and, per entry, whether the risk record's write and the
   * notification's send succeed.
   */
  datatype LlmEnv = LlmEnv(
    now: string,
    nowEpoch: int,
    codec: Codec,
    hash: string -> int,
    primaryStoreSucceeds: bool,
    fallbackStoreSucceeds: bool,
    riskPutSucceeds: nat -> bool,
    queueUrl: Option<string>,
    sendSucceeds: nat -> bool)

  function FallbackItemOf(env: LlmEnv, query: string, entries: seq<Entry>): (item: FallbackItem)
    ensures item.recordType == "FALLBACK_ANALYSIS" && item.processingStatus == "ANALYSIS_COMPLETED"
    ensures item.totalCount == |entries| && item.ttl == env.nowEpoch + 30 * 86400
    ensures NoFloats(item.llmAnalysis)
  {
    FallbackItem(query, env.now, "FALLBACK_ANALYSIS",
                 ToDecimal(env.codec, JList(seq(|entries|, i requires 0 <= i < |entries| => JObject(EntryFields(entries[i]))))),
                 |entries|, "ANALYSIS_COMPLETED", env.nowEpoch + AnalysisTtl)
  }

  /** The data service's store, and the fallback only when that raised. */
  function StoreBatch(env: LlmEnv, query: string, timestamp: string, entries: seq<Entry>): (s: Storage)
    ensures env.primaryStoreSucceeds ==> s == Primary(query, timestamp, |entries|)
    ensures !env.primaryStoreSucceeds ==> s.Fallback? && (s.item.Some? <==> env.fallbackStoreSucceeds)
  {
    if env.primaryStoreSucceeds then Primary(query, timestamp, |entries|)
    else Fallback(if env.fallbackStoreSucceeds then Some(FallbackItemOf(env, query, entries)) else None)
  }

  // ---------------------------------------------------------------------
  // Risk records and notifications
  // ---------------------------------------------------------------------

  /** The progress of the risk loop: records written, notification outcomes, and whether an exception ended it. */
  datatype RiskProgress = RiskProgress(written: seq<RiskOutput.RiskRecord>, sent: seq<RiskOutput.SendResult>, stopped: bool)

  function StoreEnvAt(env: LlmEnv, i: nat): RiskOutput.StoreEnv
  {
    RiskOutput.StoreEnv(env.now, env.nowEpoch, env.hash, env.codec, env.riskPutSucceeds(i))
  }

  /** One turn: store the entry's risk record, then notify about the summary the store returned. */
  function RiskStep(env: LlmEnv, query: string, source: string, i: nat, entry: Entry, p: RiskProgress): RiskProgress
  {
    if p.stopped then p
    else
      var fields := EntryFields(entry);
      var out := RiskOutput.StoreRiskAssessment(StoreEnvAt(env, i), query, Get(fields, "original_result", JObject(map[])), fields, source);
      var written := if out.written.Some? then p.written + [out.written.value] else p.written;
      match out.result
      case Err(_) => RiskProgress(written, p.sent, true)
      case Ok(summary) =>
        var sent := RiskOutput.SendRiskNotification(env.codec, RiskOutput.SummaryFields(summary), env.queueUrl, env.now, env.sendSucceeds(i));
        RiskProgress(written, p.sent + [sent], false)
  }

  /** The risk loop over the entries, in order. */
  function RiskLoop(env: LlmEnv, query: string, source: string, entries: seq<Entry>): RiskProgress
    decreases |entries|
  {
    if entries == [] then RiskProgress([], [], false)
    else
      var n := |entries| - 1;
      RiskStep(env, query, source, n, entries[n], RiskLoop(env, query, source, entries[..n]))
  }

  /**
   * The loop stops at the first exception: one notification per entry
   * before it, at most one record written without a notification (the
   * write succeeded but the summary could not be built), and a loop that
   * never stopped notified about every entry.
   */
  lemma {:induction false} RiskLoopShape(env: LlmEnv, query: string, source: string, entries: seq<Entry>)
    ensures var p := RiskLoop(env, query, source, entries);
      |p.sent| <= |entries| &&
      (|p.written| == |p.sent| || (p.stopped && |p.written| == |p.sent| + 1)) &&
      (!p.stopped ==> |p.sent| == |entries|)
    decreases |entries|
  {
    if entries != [] {
      RiskLoopShape(env, query, source, entries[..|entries| - 1]);
    }
  }

  /** Every notification of the progress asks for review and names the source 'unknown'. */
  predicate AllAskReview(p: RiskProgress)
  {
    forall k :: 0 <= k < |p.sent| ==> AsksReview(p.sent[k])
  }

  /** A notification that asks for review and names the source 'unknown', or none at all. */
  predicate AsksReview(r: RiskOutput.SendResult)
  {
    r.message.Some? ==> r.message.value.body.requiresReview && r.message.value.body.source == JStr("unknown")
  }

  /** One more notification that asks for review keeps every notification asking for review. */
  lemma AppendAsksReview(p: RiskProgress, sent: RiskOutput.SendResult)
    requires AllAskReview(p) && AsksReview(sent)
    ensures forall written, stopped :: AllAskReview(RiskProgress(written, p.sent + [sent], stopped))
  {
    forall written, stopped ensures AllAskReview(RiskProgress(written, p.sent + [sent], stopped)) {
      var q := RiskProgress(written, p.sent + [sent], stopped);
      forall k | 0 <= k < |q.sent| ensures AsksReview(q.sent[k]) {
        if k < |p.sent| {
          assert q.sent[k] == p.sent[k];
        }
      }
    }
  }

  lemma RiskStepAsksReview(env: LlmEnv, query: string, source: string, i: nat, entry: Entry, p: RiskProgress)
    requires env.queueUrl.Some? && env.queueUrl.value != ""
    requires AllAskReview(p)
    ensures AllAskReview(RiskStep(env, query, source, i, entry, p))
  {
    if !p.stopped {
      var fields := EntryFields(entry);
      var out := RiskOutput.StoreRiskAssessment(StoreEnvAt(env, i), query, Get(fields, "original_result", JObject(map[])), fields, source);
      if out.result.Ok? {
        var sent := RiskOutput.SendRiskNotification(env.codec, RiskOutput.SummaryFields(out.result.value), env.queueUrl, env.now, env.sendSucceeds(i));
        assert AsksReview(sent) by {
          RiskOutput.PipelineNotificationsRequireReview(env.codec, out.result.value, env.queueUrl.value, env.now, env.sendSucceeds(i));
        }
        AppendAsksReview(p, sent);
      }
    }
  }

  /** Every notification of the loop asks for review and names the source 'unknown'. */
  lemma {:induction false} RiskLoopNotificationsRequireReview(env: LlmEnv, query: string, source: string, entries: seq<Entry>)
    requires env.queueUrl.Some? && env.queueUrl.value != ""
    ensures AllAskReview(RiskLoop(env, query, source, entries))
    decreases |entries|
  {
    if entries != [] {
      var n := |entries| - 1;
      RiskLoopNotificationsRequireReview(env, query, source, entries[..n]);
      RiskStepAsksReview(env, query, source, n, entries[n], RiskLoop(env, query, source, entries[..n]));
    }
  }

  /**
   * A degraded entry has no assessment, so its risk record has level
   * UNKNOWN and score 0; it is written when the original result holds no
   * float and the put succeeds.
   */
  lemma DegradedRiskRecord(env: LlmEnv, query: string, source: string, i: nat, original: Json, summary: Json, error: Error, timestamp: string)
    requires original.JObject? && NoFloats(original) && env.riskPutSucceeds(i)
    ensures var fields := EntryFields(Degraded(original, summary, error, timestamp));
      var out := RiskOutput.StoreRiskAssessment(StoreEnvAt(env, i), query, Get(fields, "original_result", JObject(map[])), fields, source);
      out.written.Some? && out.written.value.riskLevel == JStr("UNKNOWN") &&
      out.written.value.overallRiskScore == JDecimal(env.codec.toDecimal(0.0))
  {
    var fields := EntryFields(Degraded(original, summary, error, timestamp));
    DegradedFields(original, summary, error, timestamp);
    DegradedUnlisted(original, summary, error, timestamp);
    assert Get(fields, "original_result", JObject(map[])) == original;
    RiskOutput.UnassessedRecord(StoreEnvAt(env, i), query, original.fields, fields, source);
  }

  /** A degraded entry carries no findings, factors or concerns. */
  lemma DegradedUnlisted(original: Json, summary: Json, error: Error, timestamp: string)
    ensures var d := EntryFields(Degraded(original, summary, error, timestamp));
      "key_findings" !in d && "risk_factors" !in d && "compliance_concerns" !in d
  {
  }

  // ---------------------------------------------------------------------
  // process_search_results
  // ---------------------------------------------------------------------

  datatype Outcome = Outcome(entries: seq<Entry>, storage: Storage, risk: RiskProgress)

  /** `process_search_results` on a message's results, query, timestamp and source. */
  function Process(env: LlmEnv, analyze: (nat, Json) -> Result<Analysis>, results: seq<Json>,
                   query: string, timestamp: string, source: string): Result<Outcome>
  {
    if results == [] then Ok(Outcome([], NotAttempted, RiskProgress([], [], false)))
    else
      match Entries(results, analyze, env.now)
      case Err(e) => Err(e)
      case Ok(es) => Ok(Outcome(es, StoreBatch(env, query, timestamp, es), RiskLoop(env, query, source, es)))
  }

  /** The per-result loop of `process_search_results`, appending one entry per result. */
  method ProcessResults(results: seq<Json>, analyze: (nat, Json) -> Result<Analysis>, now: string)
    returns (r: Result<seq<Entry>>)
    ensures r == Entries(results, analyze, now)
  {
    var processed: seq<Entry> := [];
    var i := 0;
    while i < |results|
      invariant 0 <= i <= |results|
      invariant Entries(results[..i], analyze, now) == Ok(processed)
    {
      assert results[..i + 1][..i] == results[..i];
      assert results[..i + 1][i] == results[i];
      var step := ProcessOne(results[i], analyze(i, results[i]), now);
      if step.Err? {
        EntriesStayErr(results, i + 1, analyze, now);
        return Err(step.error);
      }
      processed := processed + [step.value];
      i := i + 1;
    }
    assert results[..i] == results;
    r := Ok(processed);
  }

  /** The risk loop of `process_search_results`: store, then notify, entry by entry, until an exception. */
  method StoreRiskRecords(env: LlmEnv, query: string, source: string, entries: seq<Entry>) returns (p: RiskProgress)
    ensures p == RiskLoop(env, query, source, entries)
  {
    p := RiskProgress([], [], false);
    var i := 0;
    while i < |entries|
      invariant 0 <= i <= |entries|
      invariant p == RiskLoop(env, query, source, entries[..i])
    {
      assert entries[..i + 1][..i] == entries[..i];
      assert entries[..i + 1][i] == entries[i];
      p := RiskStep(env, query, source, i, entries[i], p);
      i := i + 1;
    }
    assert entries[..i] == entries;
  }

  /** `process_search_results`: nothing happens without results; otherwise analyse, store the batch, then the risk loop. */
  method ProcessSearchResults(env: LlmEnv, analyze: (nat, Json) -> Result<Analysis>, results: seq<Json>,
                              query: string, timestamp: string, source: string) returns (r: Result<Outcome>)
    ensures r == Process(env, analyze, results, query, timestamp, source)
    ensures results == [] ==> r == Ok(Outcome([], NotAttempted, RiskProgress([], [], false)))
    ensures r.Ok? && results != [] ==> |r.value.entries| == |results| && !r.value.storage.NotAttempted?
  {
    if results == [] {
      return Ok(Outcome([], NotAttempted, RiskProgress([], [], false)));
    }
    var entries := ProcessResults(results, analyze, env.now);
    if entries.Err? {
      return Err(entries.error);
    }
    EntriesShape(results, analyze, env.now);
    var storage := StoreBatch(env, query, timestamp, entries.value);
    var risk := StoreRiskRecords(env, query, source, entries.value);
    r := Ok(Outcome(entries.value, storage, risk));
  }

  // ---------------------------------------------------------------------
  // The analyser as written
  // ---------------------------------------------------------------------

  /** The analyser as the loop calls it in the source. */
  function AsWrittenAnalyzer(query: string): (nat, Json) -> Result<Analysis>
  {
    (i: nat, result: Json) => AnalyzeAsWritten(result, query)
  }

  /** The analyser with working sanitisation, given the Bedrock outcome for each result. */
  function CorrectedAnalyzer(replies: nat -> Result<string>, loads: string -> Option<Json>, now: string): (nat, Json) -> Result<Analysis>
  {
    (i: nat, result: Json) => Analyze(result, replies(i), loads, now)
  }

  /**
   * As written, no result is ever analysed: every entry is a degraded
   * entry with relevance 0.3 and the error flag, whatever the model would
   * have answered; for a result whose title can be logged, the recorded
   * error is the missing `sanitize_string`.
   */
  lemma AsWrittenNeverAnalyses(env: LlmEnv, results: seq<Json>, query: string, timestamp: string, source: string)
    requires Process(env, AsWrittenAnalyzer(query), results, query, timestamp, source).Ok?
    ensures var es := Process(env, AsWrittenAnalyzer(query), results, query, timestamp, source).value.entries;
      |es| == |results| &&
      forall i :: 0 <= i < |es| ==>
        es[i].Degraded? &&
        EntryFields(es[i])["relevance_score"] == JFloat(0.3) && EntryFields(es[i])["processing_error"] == JBool(true) &&
        (results[i].JObject? && Take(Get(results[i].fields, "title", JStr("Unknown")), 50).Some? ==>
           es[i].error == AttributeError("sanitize_string"))
  {
    if results != [] {
      var analyze := AsWrittenAnalyzer(query);
      EntriesShape(results, analyze, env.now);
      var es := Entries(results, analyze, env.now).value;
      forall i | 0 <= i < |es|
        ensures es[i].Degraded?
        ensures EntryFields(es[i])["relevance_score"] == JFloat(0.3) && EntryFields(es[i])["processing_error"] == JBool(true)
        ensures results[i].JObject? && Take(Get(results[i].fields, "title", JStr("Unknown")), 50).Some? ==>
           es[i].error == AttributeError("sanitize_string")
      {
        assert analyze(i, results[i]).Err?;
        DegradedFields(es[i].original, es[i].summary, es[i].error, es[i].timestamp);
        if results[i].JObject? && Take(Get(results[i].fields, "title", JStr("Unknown")), 50).Some? {
          DegradedAt(results, analyze, env.now, i);
        }
      }
    }
  }

  /** A turn whose title slices but whose analysis fails records the analysis's own error. */
  lemma DegradedAt(results: seq<Json>, analyze: (nat, Json) -> Result<Analysis>, now: string, i: nat)
    requires Entries(results, analyze, now).Ok?
    requires i < |results| && analyze(i, results[i]).Err?
    requires results[i].JObject? && Take(Get(results[i].fields, "title", JStr("Unknown")), 50).Some?
    ensures |Entries(results, analyze, now).value| == |results|
    ensures Entries(results, analyze, now).value[i].Degraded?
    ensures Entries(results, analyze, now).value[i].error == analyze(i, results[i]).error
  {
    EntryAt(results, analyze, now, i);
  }

  /**
   * With the sanitiser working, a result whose reply arrives is analysed
   * (decoded or degraded to the MEDIUM fallback), not turned into an
   * error entry.
   */
  lemma CorrectedAnalyses(env: LlmEnv, replies: nat -> Result<string>, loads: string -> Option<Json>,
                          results: seq<Json>, query: string, timestamp: string, source: string, i: nat)
    requires Process(env, CorrectedAnalyzer(replies, loads, env.now), results, query, timestamp, source).Ok?
    requires i < |results| && replies(i).Ok?
    requires results[i].JObject? && Take(Get(results[i].fields, "title", JStr("Unknown")), 50).Some?
    requires Get(AnalysisRecordInput(replies(i).value, loads), "risk_assessment", JObject(map[])).JObject?
    ensures var es := Process(env, CorrectedAnalyzer(replies, loads, env.now), results, query, timestamp, source).value.entries;
      |es| == |results| && es[i].Analysed? && es[i].analysis.original == results[i] && !es[i].analysis.processingError
  {
    var analyze := CorrectedAnalyzer(replies, loads, env.now);
    EntriesShape(results, analyze, env.now);
    AnalysedAt(results, analyze, env.now, i);
  }

  /** The dictionary the analysis record is built from, for a reply text. */
  function AnalysisRecordInput(text: string, loads: string -> Option<Json>): map<string, Json>
  {
    Parsed(Some(text), loads)
  }

  /** A turn whose title slices and whose analysis succeeds keeps the analysis. */
  lemma AnalysedAt(results: seq<Json>, analyze: (nat, Json) -> Result<Analysis>, now: string, i: nat)
    requires Entries(results, analyze, now).Ok?
    requires i < |results| && analyze(i, results[i]).Ok?
    requires results[i].JObject? && Take(Get(results[i].fields, "title", JStr("Unknown")), 50).Some?
    ensures |Entries(results, analyze, now).value| == |results|
    ensures Entries(results, analyze, now).value[i] == Analysed(analyze(i, results[i]).value)
  {
    EntryAt(results, analyze, now, i);
  }
}
