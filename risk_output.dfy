/**
 * The risk-output service: the risk record stored per analysed result,
 * the SQS notification sent about it, the review and priority rules, and
 * the processor that acts on those notifications
 * (src/shared/risk_output_service.py).
 */
module RiskOutput {
  import opened Wrappers
  import opened Strings
  import opened JsonValue
  import Security

  // ---------------------------------------------------------------------
  // Scalar conversions
  // ---------------------------------------------------------------------

  /** `str(n)` for an integer. */
  function IntString(n: int): string
  {
    if n < 0 then "-" + Security.NatDigits(-n) else Security.NatDigits(n)
  }

  /**
   * Python `float(x)`. Decimals go through the codec's `float()`, strings
   * through its parser; None, lists and dicts raise TypeError.
   */
  function PyFloat(c: Codec, j: Json): (r: Result<real>)
    ensures j.JFloat? ==> r == Ok(j.f)
    ensures j.JInt? ==> r == Ok(j.i as real)
    ensures j.JStr? ==> (r.Ok? <==> c.parseFloat(j.s).Some?) && (r.Ok? ==> r.value == c.parseFloat(j.s).value)
    ensures j.JStr? && r.Err? ==> r.error.ValueError?
    ensures j.JNull? || j.JList? || j.JObject? ==> r == Err(TypeError)
  {
    match j
    case JBool(b) => Ok(if b then 1.0 else 0.0)
    case JInt(i) => Ok(i as real)
    case JFloat(f) => Ok(f)
    case JDecimal(d) => Ok(c.toFloat(d))
    case JStr(s) =>
      (match c.parseFloat(s)
       case Some(x) => Ok(x)
       case None => Err(ValueError("could not convert string to float")))
    case _ => Err(TypeError)
  }

  /** Values Python can use as dictionary keys or set members. */
  predicate Hashable(j: Json)
  {
    !(j.JList? || j.JObject?)
  }

  predicate IsHighOrCritical(level: Json)
  {
    level == JStr("HIGH") || level == JStr("CRITICAL")
  }

  // ---------------------------------------------------------------------
  // _extract_entity_name
  // ---------------------------------------------------------------------

  /** The title-cased first three words of the query. */
  function NameFromQuery(query: string): string
  {
    Title(JoinSpace(PyTake(SplitWords(query), 3)))
  }

  /** `_extract_entity_name`: the `entity_name` field, else the `title` field, else the name derived from the query. */
  function ExtractEntityName(entityData: map<string, Json>, query: string): Json
  {
    if "entity_name" in entityData then entityData["entity_name"]
    else if "title" in entityData then entityData["title"]
    else JStr(NameFromQuery(query))
  }

  /** A name derived from the query has the query's first three words (all of them when it has fewer), and no more. */
  lemma NameFromQueryWords(query: string)
    ensures var n := |SplitWords(query)|;
      |SplitWords(NameFromQuery(query))| == if n < 3 then n else 3
  {
    var ws := PyTake(SplitWords(query), 3);
    forall i | 0 <= i < |ws| ensures IsWord(ws[i]) {
      assert ws[i] in SplitWords(query);
    }
    SplitJoinRoundTrip(ws);
    var joined := JoinSpace(ws);
    SplitWordsSameSpacing(joined, Title(joined));
  }

  /** Two strings with whitespace at the same positions. */
  predicate SameSpacing(s: string, t: string)
  {
    |s| == |t| && forall i :: 0 <= i < |s| ==> (IsWhitespace(s[i]) <==> IsWhitespace(t[i]))
  }

  lemma SameSpacingSuffix(s: string, t: string, k: nat)
    requires SameSpacing(s, t) && k <= |s|
    ensures SameSpacing(s[k..], t[k..])
  {
    forall i | 0 <= i < |s| - k ensures IsWhitespace(s[k..][i]) <==> IsWhitespace(t[k..][i]) {
      assert s[k..][i] == s[k + i] && t[k..][i] == t[k + i];
    }
  }

  lemma {:induction false} LStripSameSpacing(s: string, t: string)
    requires SameSpacing(s, t)
    ensures |LStrip(s)| == |LStrip(t)|
    decreases |s|
  {
    if s != [] && IsWhitespace(s[0]) {
      SameSpacingSuffix(s, t, 1);
      LStripSameSpacing(s[1..], t[1..]);
    }
  }

  lemma {:induction false} WordLengthSameSpacing(s: string, t: string)
    requires SameSpacing(s, t)
    ensures WordLength(s) == WordLength(t)
    decreases |s|
  {
    if s != [] && !IsWhitespace(s[0]) {
      SameSpacingSuffix(s, t, 1);
      WordLengthSameSpacing(s[1..], t[1..]);
    }
  }

  /** Changing letters but not whitespace keeps the number of words. */
  lemma {:induction false} SplitWordsSameSpacing(s: string, t: string)
    requires SameSpacing(s, t)
    ensures |SplitWords(s)| == |SplitWords(t)|
    decreases |s|
  {
    LStripSameSpacing(s, t);
    var ls, lt := LStrip(s), LStrip(t);
    var k := |s| - |ls|;
    SameSpacingSuffix(s, t, k);
    if ls != [] {
      WordLengthSameSpacing(ls, lt);
      var n := WordLength(ls);
      SameSpacingSuffix(ls, lt, n);
      SplitWordsSameSpacing(ls[n..], lt[n..]);
    }
  }

  /** Splitting a space-joined list of words gives the words back. */
  lemma {:induction false} SplitJoinRoundTrip(ws: seq<string>)
    requires forall i :: 0 <= i < |ws| ==> IsWord(ws[i])
    ensures SplitWords(JoinSpace(ws)) == ws
  {
    if |ws| == 1 {
      SplitJoinOne(ws);
    } else if ws != [] {
      calc {
        SplitWords(JoinSpace(ws));
        == { SplitJoinStep(ws); }
        [ws[0]] + SplitWords(JoinSpace(ws[1..]));
        == { SplitJoinRoundTrip(ws[1..]); }
        [ws[0]] + ws[1..];
        == { assert [ws[0]] + ws[1..] == ws; }
        ws;
      }
    }
  }

  lemma SplitJoinOne(ws: seq<string>)
    requires |ws| == 1 && IsWord(ws[0])
    ensures SplitWords(JoinSpace(ws)) == ws
  {
    var w := ws[0];
    assert JoinSpace(ws) == w;
    assert SplitWords(w) == [w] by {
      SplitWordsCons(w, []);
      assert w + [] == w;
    }
  }

  /** The first word splits off a join of two or more words. */
  lemma SplitJoinStep(ws: seq<string>)
    requires |ws| >= 2 && forall i :: 0 <= i < |ws| ==> IsWord(ws[i])
    ensures SplitWords(JoinSpace(ws)) == [ws[0]] + SplitWords(JoinSpace(ws[1..]))
  {
    var w := ws[0];
    var rest := JoinSpace(ws[1..]);
    assert SplitWords(JoinSpace(ws)) == [w] + SplitWords(rest) by {
      assert JoinSpace(ws) == w + (" " + rest);
      assert SplitWords(w + (" " + rest)) == [w] + SplitWords(" " + rest) by {
        SplitWordsCons(w, " " + rest);
      }
      LStripSpace(rest);
    }
  }

  /** A word followed by whitespace (or nothing) splits off as the first word. */
  lemma SplitWordsCons(w: string, tail: string)
    requires IsWord(w)
    requires tail == [] || IsWhitespace(tail[0])
    ensures SplitWords(w + tail) == [w] + SplitWords(tail)
  {
    var s := w + tail;
    WordLengthOfWord(w, tail);
    assert LStrip(s) == s;
    assert s[..|w|] == w;
    assert s[|w|..] == tail;
  }

  /** The leading word of `w + tail` is `w` when `w` has no whitespace and `tail` starts with whitespace or is empty. */
  lemma {:induction false} WordLengthOfWord(w: string, tail: string)
    requires NoWhitespace(w)
    requires tail == [] || IsWhitespace(tail[0])
    ensures WordLength(w + tail) == |w|
  {
    if w != [] {
      assert (w + tail)[1..] == w[1..] + tail;
      WordLengthOfWord(w[1..], tail);
    } else {
      assert w + tail == tail;
    }
  }

  /** Leading whitespace does not change the words. */
  lemma LStripSpace(rest: string)
    ensures SplitWords(" " + rest) == SplitWords(rest)
  {
    assert (" " + rest)[1..] == rest;
    assert LStrip(" " + rest) == LStrip(rest);
  }

  // ---------------------------------------------------------------------
  // _requires_manual_review and _get_notification_priority
  // ---------------------------------------------------------------------

  /**
   * `_requires_manual_review`: HIGH or CRITICAL, a score of at least 0.8,
   * a confidence below 0.6 (a missing confidence counts as 0), or an
   * UNKNOWN level (also the default). A value `float()` rejects raises.
   */
  function RequiresManualReview(c: Codec, record: map<string, Json>): (r: Result<bool>)
    ensures var score := PyFloat(c, Get(record, "overall_risk_score", JInt(0)));
      var confidence := PyFloat(c, Get(record, "confidence_level", JInt(0)));
      var level := Get(record, "risk_level", JStr("UNKNOWN"));
      (r.Ok? <==> score.Ok? && confidence.Ok?) &&
      (r.Ok? ==> (r.value <==> IsHighOrCritical(level) || level == JStr("UNKNOWN") ||
                               score.value >= 0.8 || confidence.value < 0.6))
    ensures "confidence_level" !in record && PyFloat(c, Get(record, "overall_risk_score", JInt(0))).Ok? ==> r == Ok(true)
  {
    var level := Get(record, "risk_level", JStr("UNKNOWN"));
    match (PyFloat(c, Get(record, "overall_risk_score", JInt(0))), PyFloat(c, Get(record, "confidence_level", JInt(0))))
    case (Ok(score), Ok(confidence)) =>
      Ok(IsHighOrCritical(level) || score >= 0.8 || confidence < 0.6 || level == JStr("UNKNOWN"))
    case (Err(e), _) => Err(e)
    case (_, Err(e)) => Err(e)
  }

  /** `_get_notification_priority`: CRITICAL and HIGH are HIGH priority, LOW is LOW, everything else NORMAL. */
  function NotificationPriority(level: Json): (p: Result<string>)
    ensures p.Ok? <==> Hashable(level)
    ensures p.Ok? ==> (p.value == "HIGH" <==> IsHighOrCritical(level))
    ensures p.Ok? ==> (p.value == "LOW" <==> level == JStr("LOW"))
    ensures p.Ok? ==> p.value in {"HIGH", "NORMAL", "LOW"}
  {
    if !Hashable(level) then Err(TypeError)
    else if level == JStr("CRITICAL") || level == JStr("HIGH") then Ok("HIGH")
    else if level == JStr("LOW") then Ok("LOW")
    else Ok("NORMAL")
  }

  // ---------------------------------------------------------------------
  // store_risk_assessment
  // ---------------------------------------------------------------------

  const RiskRecordTtl: int := 90 * 24 * 60 * 60

  /**
   * The environment of one `store_risk_assessment` call: the clock, the
   * `hash()` of a string (left abstract), the float/decimal codec and
   * whether the table's `put_item` succeeds.
   */
  datatype StoreEnv = StoreEnv(now: string, nowEpoch: int, hash: string -> int, codec: Codec, putSucceeds: bool)

  /** The item written to the risk-score table. */
  datatype RiskRecord = RiskRecord(
    recordId: string,
    query: string,
    entityName: Json,
    entityType: Json,
    jurisdiction: Json,
    source: string,
    timestamp: string,
    riskAssessment: Json,
    overallRiskScore: Json,
    riskLevel: Json,
    keyFindings: Json,
    riskFactors: Json,
    complianceConcerns: Json,
    confidenceLevel: Json,
    processingStatus: string,
    createdAt: string,
    ttl: int,
    entityId: Option<Json>,
    sourceRiskIndicators: Option<Json>)

  /** The dictionary `store_risk_assessment` returns. */
  datatype RiskSummary = RiskSummary(recordId: string, timestamp: string, entityName: Json, riskLevel: Json, overallRiskScore: real)

  /** The summary as the dictionary later handed to `send_risk_notification`. */
  function SummaryFields(s: RiskSummary): (d: map<string, Json>)
    ensures d.Keys == {"record_id", "timestamp", "entity_name", "risk_level", "overall_risk_score"}
  {
    map["record_id" := JStr(s.recordId), "timestamp" := JStr(s.timestamp), "entity_name" := s.entityName,
        "risk_level" := s.riskLevel, "overall_risk_score" := JFloat(s.overallRiskScore)]
  }

  /**
   * What a call leaves behind: the item written, if the write happened,
   * and the summary or the exception. The write comes before the final
   * `float()`, so an item can be written although the call raises.
   */
  datatype StoreOutcome = StoreOutcome(written: Option<RiskRecord>, result: Result<RiskSummary>)

  function Lookup(d: map<string, Json>, key: string): Option<Json>
  {
    if key in d then Some(d[key]) else None
  }

  /** The record built from the entity data and the analysis, with the defaults of the source. */
  function BuildRiskRecord(env: StoreEnv, query: string, entityData: map<string, Json>, analysis: map<string, Json>,
                           source: string, ra: map<string, Json>): (rec: RiskRecord)
    ensures rec.recordId == IntString(env.hash(query + env.now)) + "_" + source
    ensures rec.processingStatus == "COMPLETED" && rec.ttl == env.nowEpoch + 90 * 86400
    ensures rec.timestamp == env.now && rec.createdAt == env.now
    ensures rec.riskLevel == Get(ra, "risk_level", JStr("UNKNOWN"))
    ensures rec.entityName == ExtractEntityName(entityData, query)
    ensures NoFloats(rec.riskAssessment) && NoFloats(rec.overallRiskScore) && NoFloats(rec.confidenceLevel)
    ensures (rec.entityId.Some? <==> "entity_id" in entityData) && (rec.sourceRiskIndicators.Some? <==> "risk_indicators" in entityData)
  {
    RiskRecord(
      IntString(env.hash(query + env.now)) + "_" + source,
      query,
      ExtractEntityName(entityData, query),
      Get(entityData, "entity_type", JStr("unknown")),
      Get(entityData, "jurisdiction", JStr("unknown")),
      source,
      env.now,
      ToDecimal(env.codec, JObject(ra)),
      ToDecimal(env.codec, Get(ra, "overall_risk_score", JFloat(0.0))),
      Get(ra, "risk_level", JStr("UNKNOWN")),
      Get(analysis, "key_findings", JList([])),
      Get(analysis, "risk_factors", JList([])),
      Get(analysis, "compliance_concerns", JList([])),
      ToDecimal(env.codec, Get(analysis, "confidence_level", JFloat(0.0))),
      "COMPLETED",
      env.now,
      env.nowEpoch + RiskRecordTtl,
      Lookup(entityData, "entity_id"),
      Lookup(entityData, "risk_indicators"))
  }

  /**
   * boto3's serializer accepts the record: no field holds a float, inside
   * a list or a map included. The serializer raises TypeError otherwise,
   * before anything is sent.
   */
  predicate Storable(rec: RiskRecord)
  {
    NoFloats(rec.entityName) && NoFloats(rec.entityType) && NoFloats(rec.jurisdiction) &&
    NoFloats(rec.riskAssessment) && NoFloats(rec.overallRiskScore) && NoFloats(rec.riskLevel) &&
    NoFloats(rec.keyFindings) && NoFloats(rec.riskFactors) && NoFloats(rec.complianceConcerns) &&
    NoFloats(rec.confidenceLevel) &&
    (rec.entityId.Some? ==> NoFloats(rec.entityId.value)) &&
    (rec.sourceRiskIndicators.Some? ==> NoFloats(rec.sourceRiskIndicators.value))
  }

  /**
   * Only the fields stored as given can make the record unstorable: the
   * three converted fields never hold a float.
   */
  lemma StorableRecord(env: StoreEnv, query: string, entityData: map<string, Json>, analysis: map<string, Json>,
                       source: string, ra: map<string, Json>)
    ensures Storable(BuildRiskRecord(env, query, entityData, analysis, source, ra)) <==>
      NoFloats(ExtractEntityName(entityData, query)) &&
      NoFloats(Get(entityData, "entity_type", JStr("unknown"))) && NoFloats(Get(entityData, "jurisdiction", JStr("unknown"))) &&
      NoFloats(Get(ra, "risk_level", JStr("UNKNOWN"))) &&
      NoFloats(Get(analysis, "key_findings", JList([]))) && NoFloats(Get(analysis, "risk_factors", JList([]))) &&
      NoFloats(Get(analysis, "compliance_concerns", JList([]))) &&
      ("entity_id" in entityData ==> NoFloats(entityData["entity_id"])) &&
      ("risk_indicators" in entityData ==> NoFloats(entityData["risk_indicators"]))
  {
    var rec := BuildRiskRecord(env, query, entityData, analysis, source, ra);
    assert NoFloats(rec.riskAssessment) && NoFloats(rec.overallRiskScore) && NoFloats(rec.confidenceLevel);
  }

  /** Entity data and an assessment free of floats, with float-free lists, give a storable record. */
  lemma FloatFreeStorable(env: StoreEnv, query: string, entityData: map<string, Json>, analysis: map<string, Json>,
                          source: string, ra: map<string, Json>)
    requires NoFloats(JObject(entityData)) && NoFloats(JObject(ra))
    requires NoFloats(Get(analysis, "key_findings", JList([]))) && NoFloats(Get(analysis, "risk_factors", JList([])))
    requires NoFloats(Get(analysis, "compliance_concerns", JList([])))
    ensures Storable(BuildRiskRecord(env, query, entityData, analysis, source, ra))
  {
    StorableRecord(env, query, entityData, analysis, source, ra);
  }

  /** The analysis's `risk_assessment` field, `{}` when absent. */
  function AssessmentOf(analysis: map<string, Json>): Json
  {
    Get(analysis, "risk_assessment", JObject(map[]))
  }

  /**
   * `store_risk_assessment`. The entity data and the analysis's
   * `risk_assessment` must be dictionaries (`.get` is called on them); a
   * failed write raises; the stored score must convert with `float()`.
   */
  function StoreRiskAssessment(env: StoreEnv, query: string, entityData: Json, analysis: map<string, Json>,
                               source: string): (out: StoreOutcome)
    ensures out.result.Ok? ==> out.written.Some?
    ensures out.written.Some? <==>
      (env.putSucceeds && entityData.JObject? && AssessmentOf(analysis).JObject? &&
       Storable(BuildRiskRecord(env, query, entityData.fields, analysis, source, AssessmentOf(analysis).fields)))
    ensures (entityData.JObject? && AssessmentOf(analysis).JObject? &&
             !Storable(BuildRiskRecord(env, query, entityData.fields, analysis, source, AssessmentOf(analysis).fields))) ==>
      out == StoreOutcome(None, Err(TypeError))
    ensures out.written.Some? ==>
      out.written.value == BuildRiskRecord(env, query, entityData.fields, analysis, source, AssessmentOf(analysis).fields)
    ensures out.result.Ok? ==>
      var rec := out.written.value;
      var s := out.result.value;
      s.recordId == rec.recordId && s.timestamp == rec.timestamp && s.entityName == rec.entityName &&
      s.riskLevel == rec.riskLevel && PyFloat(env.codec, rec.overallRiskScore) == Ok(s.overallRiskScore)
  {
    if !entityData.JObject? then StoreOutcome(None, Err(AttributeError("get")))
    else
      var ra := AssessmentOf(analysis);
      if !ra.JObject? then StoreOutcome(None, Err(AttributeError("get")))
      else
        var rec := BuildRiskRecord(env, query, entityData.fields, analysis, source, ra.fields);
        if !Storable(rec) then StoreOutcome(None, Err(TypeError))
        else if !env.putSucceeds then StoreOutcome(None, Err(ServiceError("dynamodb")))
        else match PyFloat(env.codec, rec.overallRiskScore)
        case Err(e) => StoreOutcome(Some(rec), Err(e))
        case Ok(score) =>
          StoreOutcome(Some(rec), Ok(RiskSummary(rec.recordId, rec.timestamp, rec.entityName, rec.riskLevel, score)))
  }

  /**
   * The score in the summary is the analysis's own score when that is a
   * float that survives its decimal form, and 0 when the analysis gives
   * none; the stored confidence reads back as 0 when the analysis gives none.
   */
  lemma StoredScores(env: StoreEnv, query: string, entityData: map<string, Json>, analysis: map<string, Json>, source: string)
    requires RoundTrips(env.codec) && env.putSucceeds
    requires AssessmentOf(analysis).JObject?
    requires Storable(BuildRiskRecord(env, query, entityData, analysis, source, AssessmentOf(analysis).fields))
    ensures var ra := AssessmentOf(analysis).fields;
      var out := StoreRiskAssessment(env, query, JObject(entityData), analysis, source);
      ("overall_risk_score" !in ra ==> out.result == Ok(RiskSummary(out.written.value.recordId, env.now,
                                                        ExtractEntityName(entityData, query),
                                                        Get(ra, "risk_level", JStr("UNKNOWN")), 0.0))) &&
      (("overall_risk_score" in ra && ra["overall_risk_score"].JFloat?) ==>
         out.result.Ok? && out.result.value.overallRiskScore == ra["overall_risk_score"].f) &&
      ("confidence_level" !in analysis ==> PyFloat(env.codec, out.written.value.confidenceLevel) == Ok(0.0))
  {
    var ra := AssessmentOf(analysis).fields;
    var rec := BuildRiskRecord(env, query, entityData, analysis, source, ra);
    var out := StoreRiskAssessment(env, query, JObject(entityData), analysis, source);
    assert out.written == Some(rec);
    assert rec.overallRiskScore == ToDecimal(env.codec, Get(ra, "overall_risk_score", JFloat(0.0)));
    assert rec.confidenceLevel == ToDecimal(env.codec, Get(analysis, "confidence_level", JFloat(0.0)));
  }

  /** A float among the key findings, stored as given, makes `put_item` raise TypeError and nothing is written. */
  lemma FloatFindingRefused(env: StoreEnv, query: string, entityData: map<string, Json>, analysis: map<string, Json>,
                            source: string)
    requires AssessmentOf(analysis).JObject?
    requires "key_findings" in analysis && !NoFloats(analysis["key_findings"])
    ensures StoreRiskAssessment(env, query, JObject(entityData), analysis, source) == StoreOutcome(None, Err(TypeError))
  {
    StorableRecord(env, query, entityData, analysis, source, AssessmentOf(analysis).fields);
  }

  /**
   * An analysis without an assessment, findings, factors or concerns, for
   * float-free entity data, is written when the put succeeds, with level
   * UNKNOWN and score 0.
   */
  lemma UnassessedRecord(env: StoreEnv, query: string, entityData: map<string, Json>, analysis: map<string, Json>,
                         source: string)
    requires env.putSucceeds && NoFloats(JObject(entityData))
    requires "risk_assessment" !in analysis
    requires "key_findings" !in analysis && "risk_factors" !in analysis && "compliance_concerns" !in analysis
    ensures var out := StoreRiskAssessment(env, query, JObject(entityData), analysis, source);
      out.written.Some? && out.written.value.riskLevel == JStr("UNKNOWN") &&
      out.written.value.overallRiskScore == JDecimal(env.codec.toDecimal(0.0))
  {
    assert AssessmentOf(analysis) == JObject(map[]);
    FloatFreeStorable(env, query, entityData, analysis, source, map[]);
    var rec := BuildRiskRecord(env, query, entityData, analysis, source, map[]);
    assert rec.riskLevel == JStr("UNKNOWN") && rec.overallRiskScore == ToDecimal(env.codec, JFloat(0.0));
    assert StoreRiskAssessment(env, query, JObject(entityData), analysis, source).written == Some(rec);
  }

  // ---------------------------------------------------------------------
  // send_risk_notification
  // ---------------------------------------------------------------------

  /** The JSON body of the notification. */
  datatype NotificationBody = NotificationBody(
    eventType: string,
    recordId: Json,
    entityName: Json,
    riskLevel: Json,
    overallRiskScore: real,
    timestamp: Json,
    source: Json,
    requiresReview: bool,
    notificationTimestamp: string)

  /** The SQS message: its body and its three message attributes. */
  datatype Notification = Notification(body: NotificationBody, priority: string, riskLevel: Json, entityName: string)

  /** The outcome of `send_risk_notification`: whether it answered True, and the message handed to SQS, if any. */
  datatype SendResult = SendResult(sent: bool, message: Option<Notification>)

  /** The message body as the dictionary `json.dumps` serialises. */
  function BodyJson(b: NotificationBody): Json
  {
    JObject(map[
      "event_type" := JStr(b.eventType),
      "record_id" := b.recordId,
      "entity_name" := b.entityName,
      "risk_level" := b.riskLevel,
      "overall_risk_score" := JFloat(b.overallRiskScore),
      "timestamp" := b.timestamp,
      "source" := b.source,
      "requires_review" := JBool(b.requiresReview),
      "notification_timestamp" := JStr(b.notificationTimestamp)])
  }

  /**
   * `send_risk_notification`: False without a queue URL; False when
   * building the message raises (a missing key, a value `float()` rejects,
   * an unhashable level), when `json.dumps` refuses a Decimal in the body,
   * or when boto3 refuses a message attribute that is not a string (the
   * risk level or the name); True once SQS accepts the message.
   */
  function SendRiskNotification(c: Codec, record: map<string, Json>, queueUrl: Option<string>,
                                now: string, sendSucceeds: bool): (r: SendResult)
    ensures queueUrl.None? || queueUrl == Some("") ==> r == SendResult(false, None)
    ensures r.message.Some? <==>
      queueUrl.Some? && queueUrl.value != "" &&
      "record_id" in record && "entity_name" in record && "risk_level" in record &&
      "overall_risk_score" in record && "timestamp" in record &&
      PyFloat(c, record["overall_risk_score"]).Ok? && RequiresManualReview(c, record).Ok? &&
      record["risk_level"].JStr? && record["entity_name"].JStr? &&
      NoDecimals(record["record_id"]) && NoDecimals(record["timestamp"]) &&
      NoDecimals(Get(record, "source", JStr("unknown")))
    ensures r.sent <==> r.message.Some? && sendSucceeds
    ensures r.message.Some? ==>
      var m := r.message.value;
      m.entityName == PyTake(record["entity_name"].s, 100) && |m.entityName| <= 100 &&
      m.body.recordId == record["record_id"] &&
      m.body.entityName == record["entity_name"] &&
      m.body.overallRiskScore == PyFloat(c, record["overall_risk_score"]).value &&
      m.body.timestamp == record["timestamp"] &&
      m.body.notificationTimestamp == now &&
      m.body.eventType == "RISK_ASSESSMENT_COMPLETED" &&
      m.body.source == Get(record, "source", JStr("unknown")) &&
      m.body.riskLevel == record["risk_level"] && m.riskLevel == record["risk_level"] &&
      NotificationPriority(m.riskLevel) == Ok(m.priority) &&
      RequiresManualReview(c, record) == Ok(m.body.requiresReview)
  {
    if queueUrl.None? || queueUrl.value == "" then SendResult(false, None)
    else if !("record_id" in record && "entity_name" in record && "risk_level" in record
              && "overall_risk_score" in record && "timestamp" in record) then SendResult(false, None)
    else match (PyFloat(c, record["overall_risk_score"]), RequiresManualReview(c, record), NotificationPriority(record["risk_level"]))
      case (Ok(score), Ok(review), Ok(priority)) =>
        if !(record["risk_level"].JStr? && record["entity_name"].JStr?) then SendResult(false, None)
        else
          var body := NotificationBody("RISK_ASSESSMENT_COMPLETED", record["record_id"], record["entity_name"],
                                       record["risk_level"], score, record["timestamp"],
                                       Get(record, "source", JStr("unknown")), review, now);
          // `json.dumps` refuses a Decimal; the other fields are strings, a float and a bool.
          if !(NoDecimals(body.recordId) && NoDecimals(body.timestamp) && NoDecimals(body.source)) then SendResult(false, None)
          else SendResult(sendSucceeds, Some(Notification(body, priority, record["risk_level"], PyTake(record["entity_name"].s, 100))))
      case _ => SendResult(false, None)
  }

  /**
   * In the pipeline the notification is built from the summary that
   * `store_risk_assessment` returns. That summary has no confidence and no
   * source, so every such notification asks for review and names the
   * source 'unknown'.
   */
  lemma PipelineNotificationsRequireReview(c: Codec, summary: RiskSummary, queueUrl: string, now: string, sendSucceeds: bool)
    requires queueUrl != ""
    ensures var r := SendRiskNotification(c, SummaryFields(summary), Some(queueUrl), now, sendSucceeds);
      RequiresManualReview(c, SummaryFields(summary)) == Ok(true) &&
      (r.message.Some? ==> r.message.value.body.requiresReview && r.message.value.body.source == JStr("unknown"))
  {
    var d := SummaryFields(summary);
    assert "confidence_level" !in d && "source" !in d;
    assert d["overall_risk_score"] == JFloat(summary.overallRiskScore);
  }

  // ---------------------------------------------------------------------
  // RiskNotificationProcessor.process_notification
  // ---------------------------------------------------------------------

  datatype Action = HighRiskAlert | ManualReviewRequired

  /**
   * The outcome of `process_notification`: the value it returns, the
   * actions it records, and whether the alert and the review request
   * actually went out (their failures are swallowed).
   */
  datatype Handling = Handling(ok: bool, actions: seq<Action>, alertSent: bool, reviewQueued: bool)

  /** The collaborators of the processor: `json.loads`, the two environment settings, and whether SNS and SQS accept. */
  datatype ProcessorEnv = ProcessorEnv(
    loads: string -> Option<Json>,
    alertTopic: Option<string>,
    reviewQueueUrl: Option<string>,
    publishSucceeds: bool,
    sendSucceeds: bool)

  predicate Configured(setting: Option<string>)
  {
    setting.Some? && setting.value != ""
  }

  /** The decision on a decoded notification: an alert for HIGH/CRITICAL, a review request when `requires_review` is truthy. */
  function Decide(env: ProcessorEnv, data: Json): (h: Handling)
    ensures !data.JObject? ==> !h.ok && h.actions == []
    ensures data.JObject? ==> (h.ok &&
      (HighRiskAlert in h.actions <==> IsHighOrCritical(Get(data.fields, "risk_level", JStr("UNKNOWN")))) &&
      (ManualReviewRequired in h.actions <==> Truthy(Get(data.fields, "requires_review", JBool(false)))))
    ensures |h.actions| == 2 ==> h.actions == [HighRiskAlert, ManualReviewRequired]
  {
    if !data.JObject? then Handling(false, [], false, false)
    else
      var level := Get(data.fields, "risk_level", JStr("UNKNOWN"));
      var review := Truthy(Get(data.fields, "requires_review", JBool(false)));
      var alert := IsHighOrCritical(level);
      Handling(true,
               (if alert then [HighRiskAlert] else []) + (if review then [ManualReviewRequired] else []),
               alert && Configured(env.alertTopic) && env.publishSucceeds,
               review && Configured(env.reviewQueueUrl) && env.sendSucceeds)
  }

  /** The body of the message under `key`: decoded when it is a string, taken as it is otherwise, `{}` when absent. */
  function HandleBody(env: ProcessorEnv, message: map<string, Json>, key: string): (h: Handling)
  {
    var raw := Get(message, key, JObject(map[]));
    if raw.JStr? then
      match env.loads(raw.s)
      case None => Handling(false, [], false, false)
      case Some(data) => Decide(env, data)
    else Decide(env, raw)
  }

  /** `process_notification` as written: it reads the message body under the key 'Body'. */
  function ProcessNotificationAsWritten(env: ProcessorEnv, message: map<string, Json>): (h: Handling)
  {
    HandleBody(env, message, "Body")
  }

  /**
   * An SQS event record delivered to a Lambda handler carries its body
   * under 'body' (the manual-review handler reads it there). Handed such a
   * record, the processor as written finds no 'Body', decides on `{}`, and
   * takes no action, whatever the notification said.
   */
  lemma AsWrittenIgnoresSqsRecords(env: ProcessorEnv, message: map<string, Json>)
    requires "Body" !in message
    ensures ProcessNotificationAsWritten(env, message) == Handling(true, [], false, false)
  {
  }

  lemma AsWrittenMissesHighRisk(env: ProcessorEnv)
    ensures var message := map["body" := JObject(map["risk_level" := JStr("CRITICAL"), "requires_review" := JBool(true)])];
      ProcessNotificationAsWritten(env, message).actions == []
  {
  }

  /** `process_notification` reading the body where SQS event records carry it. */
  function ProcessNotification(env: ProcessorEnv, message: map<string, Json>): (h: Handling)
    ensures h.ok ==> (HighRiskAlert in h.actions ==> h.actions[0] == HighRiskAlert)
  {
    HandleBody(env, message, "body")
  }

  /** A decoded HIGH or CRITICAL notification that asks for review triggers both actions, the alert first. */
  lemma ProcessNotificationActs(env: ProcessorEnv, message: map<string, Json>, level: string)
    requires level == "HIGH" || level == "CRITICAL"
    requires message == map["body" := JObject(map["risk_level" := JStr(level), "requires_review" := JBool(true)])]
    ensures ProcessNotification(env, message).actions == [HighRiskAlert, ManualReviewRequired]
    ensures ProcessNotification(env, message).ok
  {
  }

  /** A send failure never turns into a failed handling: the result depends only on decoding the body. */
  lemma ProcessNotificationIgnoresSendFailures(env: ProcessorEnv, message: map<string, Json>)
    ensures ProcessNotification(env, message).ok ==
      ProcessNotification(env.(publishSucceeds := false, sendSucceeds := false), message).ok
  {
  }

  /**
   * End to end: a notification sent for a stored assessment and delivered
   * as an SQS event record always leads to a review request, and to an
   * alert exactly when the level is HIGH or CRITICAL.
   */
  lemma DeliveredNotificationActions(env: ProcessorEnv, c: Codec, summary: RiskSummary, queueUrl: string, now: string,
                                     text: string)
    requires queueUrl != ""
    requires SendRiskNotification(c, SummaryFields(summary), Some(queueUrl), now, true).message.Some?
    requires env.loads(text) == Some(BodyJson(SendRiskNotification(c, SummaryFields(summary), Some(queueUrl), now, true).message.value.body))
    ensures var h := ProcessNotification(env, map["body" := JStr(text)]);
      h.ok && ManualReviewRequired in h.actions &&
      (HighRiskAlert in h.actions <==> IsHighOrCritical(summary.riskLevel))
  {
    PipelineNotificationsRequireReview(c, summary, queueUrl, now, true);
    var body := SendRiskNotification(c, SummaryFields(summary), Some(queueUrl), now, true).message.value.body;
    var fields := BodyJson(body).fields;
    assert fields["risk_level"] == summary.riskLevel;
    assert fields["requires_review"] == JBool(true);
  }
}
