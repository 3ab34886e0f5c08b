/**
 * The risk scoring shared by both LLM services: the weighted composite
 * score, the score-to-level map, the extraction of the JSON object from
 * the model's reply with its degraded fallback, and the analysis record
 * built from it (src/lambda/lambda_llm_service_secure.py and
 * src/lambda/lambda_llm_service_simple.py define the same logic twice).
 */
module Scoring {
  import opened Wrappers
  import opened Strings
  import opened JsonValue

  // ---------------------------------------------------------------------
  // Rounding and clamping
  // ---------------------------------------------------------------------

  /** `round(x, 3)`: the nearest multiple of 0.001, halves rounded up. */
  function Round3(x: real): real
  {
    (x * 1000.0 + 0.5).Floor as real / 1000.0
  }

  /** `round(x, 1)`: the nearest multiple of 0.1, halves rounded up. */
  function Round1(x: real): real
  {
    (x * 10.0 + 0.5).Floor as real / 10.0
  }

  lemma FloorBounds(x: real)
    ensures x.Floor as real <= x < x.Floor as real + 1.0
  {
  }

  lemma FloorMonotone(x: real, y: real)
    requires x <= y
    ensures x.Floor <= y.Floor
  {
    FloorBounds(x);
    FloorBounds(y);
  }

  lemma Round3Monotone(x: real, y: real)
    requires x <= y
    ensures Round3(x) <= Round3(y)
  {
    FloorMonotone(x * 1000.0 + 0.5, y * 1000.0 + 0.5);
  }

  /** Rounding to three places stays within half a unit of the last place. */
  lemma Round3Close(x: real)
    ensures x - 0.0005 < Round3(x) <= x + 0.0005
  {
    FloorBounds(x * 1000.0 + 0.5);
  }

  lemma Round3Integer(n: int)
    ensures Round3(n as real) == n as real
  {
    var k := n * 1000;
    assert n as real * 1000.0 == k as real;
    FloorBounds(k as real + 0.5);
    assert (k as real + 0.5).Floor == k;
  }

  /** Rounding to three places never leaves an interval with integer ends. */
  lemma Round3Bounds(x: real, lo: int, hi: int)
    requires lo as real <= x <= hi as real
    ensures lo as real <= Round3(x) <= hi as real
  {
    Round3Monotone(lo as real, x);
    Round3Monotone(x, hi as real);
    Round3Integer(lo);
    Round3Integer(hi);
  }

  lemma Round1Monotone(x: real, y: real)
    requires x <= y
    ensures Round1(x) <= Round1(y)
  {
    FloorMonotone(x * 10.0 + 0.5, y * 10.0 + 0.5);
  }

  lemma Round1Integer(n: int)
    ensures Round1(n as real) == n as real
  {
    var k := n * 10;
    assert n as real * 10.0 == k as real;
    FloorBounds(k as real + 0.5);
    assert (k as real + 0.5).Floor == k;
  }

  /** Rounding to one place never leaves an interval with integer ends. */
  lemma Round1Bounds(x: real, lo: int, hi: int)
    requires lo as real <= x <= hi as real
    ensures lo as real <= Round1(x) <= hi as real
  {
    Round1Monotone(lo as real, x);
    Round1Monotone(x, hi as real);
    Round1Integer(lo);
    Round1Integer(hi);
  }

  /** `max(0.0, min(1.0, x))`. */
  function Clamp(x: real): (r: real)
    ensures 0.0 <= r <= 1.0
    ensures 0.0 <= x <= 1.0 ==> r == x
    ensures x < 0.0 ==> r == 0.0
    ensures 1.0 < x ==> r == 1.0
  {
    if x < 0.0 then 0.0 else if x > 1.0 then 1.0 else x
  }

  lemma ClampMonotone(x: real, y: real)
    requires x <= y
    ensures Clamp(x) <= Clamp(y)
  {
  }

  // ---------------------------------------------------------------------
  // calculate_composite_risk_score
  // ---------------------------------------------------------------------

  /** The four risk dimensions with their weights, in the order the sum visits them. */
  const Weights: seq<(string, real)> := [
    ("financial_crimes_risk", 0.35),
    ("corruption_risk", 0.25),
    ("regulatory_risk", 0.25),
    ("reputational_risk", 0.15)
  ]

  /** A dimension as the weighted sum sees it: 0.5 when missing; None when it cannot be multiplied by a float. */
  function Dimension(fields: map<string, Json>, key: string): Option<real>
  {
    AsFloatOperand(Get(fields, key, JFloat(0.5)))
  }

  /** The weighted sum over `ws`, left to right; None once a term raises. */
  function WeightedSum(fields: map<string, Json>, ws: seq<(string, real)>): Option<real>
    decreases |ws|
  {
    if ws == [] then Some(0.0)
    else
      match WeightedSum(fields, ws[..|ws| - 1])
      case None => None
      case Some(total) =>
        match Dimension(fields, ws[|ws| - 1].0)
        case None => None
        case Some(v) => Some(total + v * ws[|ws| - 1].1)
  }

  /**
   * `calculate_composite_risk_score`: the weighted sum clamped to [0, 1]
   * and rounded to three places; 0.5 whenever the computation raises
   * (an assessment that is not a dictionary, or a dimension that is not a
   * number).
   */
  function Composite(ra: Json): real
  {
    if !ra.JObject? then 0.5
    else
      match WeightedSum(ra.fields, Weights)
      case None => 0.5
      case Some(total) => Round3(Clamp(total))
  }

  predicate AllDimensionsNumeric(fields: map<string, Json>)
  {
    Dimension(fields, "financial_crimes_risk").Some? && Dimension(fields, "corruption_risk").Some? &&
    Dimension(fields, "regulatory_risk").Some? && Dimension(fields, "reputational_risk").Some?
  }

  /** The weighted sum is 0.35·financial + 0.25·corruption + 0.25·regulatory + 0.15·reputational. */
  lemma WeightedSumFormula(fields: map<string, Json>)
    ensures AllDimensionsNumeric(fields) ==>
      WeightedSum(fields, Weights) == Some(
        0.35 * Dimension(fields, "financial_crimes_risk").value + 0.25 * Dimension(fields, "corruption_risk").value +
        0.25 * Dimension(fields, "regulatory_risk").value + 0.15 * Dimension(fields, "reputational_risk").value)
    ensures !AllDimensionsNumeric(fields) ==> WeightedSum(fields, Weights) == None
  {
    var d1, d2 := Dimension(fields, "financial_crimes_risk"), Dimension(fields, "corruption_risk");
    var d3, d4 := Dimension(fields, "regulatory_risk"), Dimension(fields, "reputational_risk");
    assert Weights[..1][..0] == [];
    assert Weights[..2][..1] == Weights[..1];
    assert Weights[..3][..2] == Weights[..2];
    assert Weights[..|Weights| - 1] == Weights[..3];
    assert WeightedSum(fields, Weights[..1]) == if d1.Some? then Some(0.0 + d1.value * 0.35) else None;
    assert WeightedSum(fields, Weights[..2]) ==
      if d1.Some? && d2.Some? then Some(0.0 + d1.value * 0.35 + d2.value * 0.25) else None;
    assert WeightedSum(fields, Weights[..3]) ==
      if d1.Some? && d2.Some? && d3.Some? then Some(0.0 + d1.value * 0.35 + d2.value * 0.25 + d3.value * 0.25) else None;
  }

  /** The composite always lies in [0, 1]. */
  lemma CompositeInUnitInterval(ra: Json)
    ensures 0.0 <= Composite(ra) <= 1.0
  {
    if ra.JObject? && WeightedSum(ra.fields, Weights).Some? {
      Round3Bounds(Clamp(WeightedSum(ra.fields, Weights).value), 0, 1);
    }
  }

  /** An empty assessment scores 0.5: every dimension defaults to 0.5 and the weights sum to 1. */
  lemma CompositeOfDefaults()
    ensures Composite(JObject(map[])) == 0.5
  {
    WeightedSumFormula(map[]);
    assert Round3(0.5) == 0.5 by {
      FloorBounds(0.5 * 1000.0 + 0.5);
    }
  }

  /** Raising one dimension of an assessment never lowers its composite. */
  lemma CompositeMonotone(fields: map<string, Json>, key: string, v: real, w: real)
    requires key in {"financial_crimes_risk", "corruption_risk", "regulatory_risk", "reputational_risk"}
    requires v <= w
    ensures Composite(JObject(fields[key := JFloat(v)])) <= Composite(JObject(fields[key := JFloat(w)]))
  {
    var lo, hi := fields[key := JFloat(v)], fields[key := JFloat(w)];
    WeightedSumFormula(lo);
    WeightedSumFormula(hi);
    if AllDimensionsNumeric(lo) {
      assert AllDimensionsNumeric(hi);
      var a, b := WeightedSum(lo, Weights).value, WeightedSum(hi, Weights).value;
      assert a <= b;
      ClampMonotone(a, b);
      Round3Monotone(Clamp(a), Clamp(b));
    } else {
      assert !AllDimensionsNumeric(hi);
    }
  }

  /** The loop of `calculate_composite_risk_score`, stopping at the first term that raises. */
  method CalculateCompositeRiskScore(ra: Json) returns (score: real)
    ensures score == Composite(ra)
  {
    if !ra.JObject? {
      return 0.5;
    }
    var total := 0.0;
    var i := 0;
    while i < |Weights|
      invariant 0 <= i <= |Weights|
      invariant WeightedSum(ra.fields, Weights[..i]) == Some(total)
    {
      var (key, weight) := Weights[i];
      assert Weights[..i + 1][..i] == Weights[..i];
      match Dimension(ra.fields, key) {
        case None =>
          SumStaysNone(ra.fields, i + 1);
          return 0.5;
        case Some(value) =>
          total := total + value * weight;
      }
      i := i + 1;
    }
    assert Weights[..i] == Weights;
    score := Round3(Clamp(total));
  }

  /** Once a term of the sum raises, the whole sum does. */
  lemma {:induction false} SumStaysNone(fields: map<string, Json>, i: nat)
    requires 0 < i <= |Weights|
    requires WeightedSum(fields, Weights[..i]) == None
    ensures WeightedSum(fields, Weights) == None
    decreases |Weights| - i
  {
    if i < |Weights| {
      assert Weights[..i + 1][..i] == Weights[..i];
      SumStaysNone(fields, i + 1);
    } else {
      assert Weights[..i] == Weights;
    }
  }

  // ---------------------------------------------------------------------
  // get_risk_level_from_score
  // ---------------------------------------------------------------------

  /** `get_risk_level_from_score`. */
  function RiskLevelFromScore(score: real): string
  {
    if score >= 0.9 then "CRITICAL"
    else if score >= 0.7 then "HIGH"
    else if score >= 0.4 then "MEDIUM"
    else "LOW"
  }

  /** The order of the four levels. */
  function LevelRank(level: string): nat
  {
    if level == "CRITICAL" then 3 else if level == "HIGH" then 2 else if level == "MEDIUM" then 1 else 0
  }

  /** A higher score never gets a lower level, and each level is reached from its threshold up. */
  lemma RiskLevelMonotone(x: real, y: real)
    requires x <= y
    ensures LevelRank(RiskLevelFromScore(x)) <= LevelRank(RiskLevelFromScore(y))
    ensures RiskLevelFromScore(x) in {"CRITICAL", "HIGH", "MEDIUM", "LOW"}
  {
  }

  /** The fallback's composite of 0.5 reads as MEDIUM. */
  lemma DefaultCompositeIsMedium()
    ensures RiskLevelFromScore(Composite(JObject(map[]))) == "MEDIUM"
  {
    CompositeOfDefaults();
  }

  // ---------------------------------------------------------------------
  // Extracting the JSON object from the model's reply
  // ---------------------------------------------------------------------

  /**
   * The bounds of `text[text.find('{'):text.rfind('}') + 1]`: None when
   * either brace is missing; otherwise the first '{' and one past the
   * last '}' (the slice is empty when the last '}' comes first).
   */
  function BraceSpan(text: string): (r: Option<(nat, nat)>)
    ensures r.None? <==> '{' !in text || '}' !in text
    ensures r.Some? ==>
      var (i, j) := r.value;
      i < |text| && 0 < j <= |text| &&
      text[i] == '{' && '{' !in text[..i] &&
      text[j - 1] == '}' && '}' !in text[j..]
  {
    var start := Find(text, '{');
    var end := RFind(text, '}') + 1;
    if start != -1 && end != 0 then Some((start, end)) else None
  }

  /**
   * The dictionary the reply decodes to: None (the fallback applies) when
   * a brace is missing or `json.loads` rejects the slice. A slice from
   * '{' to '}' decodes to a dictionary or not at all, so any other
   * decoded value is treated as a rejection too.
   */
  function ParseReply(text: string, loads: string -> Option<Json>): (r: Option<map<string, Json>>)
    ensures r.Some? ==> (BraceSpan(text).Some? &&
      loads(Slice(text, BraceSpan(text).value.0, BraceSpan(text).value.1)) == Some(JObject(r.value)))
  {
    match BraceSpan(text)
    case None => None
    case Some((i, j)) =>
      match loads(Slice(text, i, j))
      case Some(JObject(fields)) => Some(fields)
      case _ => None
  }

  /** The summary of the fallback: the first 200 characters of the reply, or a fixed text when there is none. */
  function FallbackSummary(reply: Option<string>): (s: string)
    ensures reply.Some? && reply.value != [] ==> s == PyTake(reply.value, 200)
  {
    if reply.Some? && reply.value != [] then PyTake(reply.value, 200) else "No summary available"
  }

  /** The degraded assessment used when the reply cannot be decoded. */
  function FallbackAssessment(): map<string, Json>
  {
    map[
      "overall_risk_score" := JFloat(0.5),
      "risk_level" := JStr("MEDIUM"),
      "financial_crimes_risk" := JFloat(0.5),
      "corruption_risk" := JFloat(0.5),
      "regulatory_risk" := JFloat(0.5),
      "reputational_risk" := JFloat(0.5)]
  }

  /** The dictionary that replaces an undecodable reply. */
  function FallbackParsed(reply: Option<string>): map<string, Json>
  {
    map[
      "summary" := JStr(FallbackSummary(reply)),
      "risk_assessment" := JObject(FallbackAssessment()),
      "key_findings" := JList([JStr("Parsing error - manual review required")]),
      "risk_factors" := JList([JStr("Unable to parse LLM response")]),
      "compliance_concerns" := JList([JStr("Manual review recommended")]),
      "source_credibility" := JObject(map[
        "credibility_score" := JFloat(0.5), "source_type" := JStr("unknown"), "publication_date" := JStr("unknown")]),
      "relevance_score" := JFloat(0.5),
      "confidence_level" := JFloat(0.3)]
  }

  /**
   * The reply as the analysers use it: the decoded dictionary, or the
   * fallback. A missing reply (None) is the simple service's absent
   * `outputText`, on which `find` raises inside the same `try`.
   */
  function Parsed(reply: Option<string>, loads: string -> Option<Json>): (p: map<string, Json>)
    ensures reply.None? ==> p == FallbackParsed(reply)
    ensures reply.Some? && ParseReply(reply.value, loads).None? ==> p == FallbackParsed(reply)
    ensures reply.Some? && ParseReply(reply.value, loads).Some? ==> p == ParseReply(reply.value, loads).value
  {
    if reply.None? then FallbackParsed(reply)
    else match ParseReply(reply.value, loads)
      case None => FallbackParsed(reply)
      case Some(fields) => fields
  }

  // ---------------------------------------------------------------------
  // The analysis record
  // ---------------------------------------------------------------------

  /** The `risk_assessment` of an analysis record. */
  datatype Assessment = Assessment(
    overall: Json, level: Json, financial: Json, corruption: Json, regulatory: Json, reputational: Json,
    composite: real)

  /** One processed search result: the analysis of a result, or the record that replaces a failed analysis. */
  datatype Analysis = Analysis(
    original: Json,
    summary: Json,
    assessment: Assessment,
    keyFindings: Json,
    riskFactors: Json,
    complianceConcerns: Json,
    sourceCredibility: Json,
    relevance: Json,
    confidence: Json,
    processingError: bool,
    timestamp: string)

  function AssessmentFields(a: Assessment): map<string, Json>
  {
    map[
      "overall_risk_score" := a.overall,
      "risk_level" := a.level,
      "financial_crimes_risk" := a.financial,
      "corruption_risk" := a.corruption,
      "regulatory_risk" := a.regulatory,
      "reputational_risk" := a.reputational,
      "composite_risk_score" := JFloat(a.composite)]
  }

  /** The record as the dictionary that is stored and passed on. */
  function AnalysisFields(a: Analysis): map<string, Json>
  {
    var d := map[
      "original_result" := a.original,
      "summary" := a.summary,
      "risk_assessment" := JObject(AssessmentFields(a.assessment)),
      "key_findings" := a.keyFindings,
      "risk_factors" := a.riskFactors,
      "compliance_concerns" := a.complianceConcerns,
      "source_credibility" := a.sourceCredibility,
      "relevance_score" := a.relevance,
      "confidence_level" := a.confidence,
      "processing_timestamp" := JStr(a.timestamp)];
    if a.processingError then d["processing_error" := JBool(true)] else d
  }

  /**
   * The record built from a decoded (or fallback) reply: values copied
   * from the reply with their defaults, and the composite computed from
   * the reply's assessment. An assessment that is not a dictionary makes
   * `.get` raise.
   */
  function AnalysisRecord(result: Json, parsed: map<string, Json>, now: string): (r: Result<Analysis>)
    ensures r.Ok? <==> Get(parsed, "risk_assessment", JObject(map[])).JObject?
    ensures r.Ok? ==>
      var ra := Get(parsed, "risk_assessment", JObject(map[])).fields;
      r.value.original == result && !r.value.processingError &&
      r.value.assessment.composite == Composite(JObject(ra)) &&
      r.value.assessment.overall == Get(ra, "overall_risk_score", JFloat(0.5)) &&
      r.value.assessment.level == Get(ra, "risk_level", JStr("MEDIUM"))
  {
    match Get(parsed, "risk_assessment", JObject(map[]))
    case JObject(ra) =>
      Ok(Analysis(
        result,
        Get(parsed, "summary", JStr("")),
        Assessment(
          Get(ra, "overall_risk_score", JFloat(0.5)),
          Get(ra, "risk_level", JStr("MEDIUM")),
          Get(ra, "financial_crimes_risk", JFloat(0.5)),
          Get(ra, "corruption_risk", JFloat(0.5)),
          Get(ra, "regulatory_risk", JFloat(0.5)),
          Get(ra, "reputational_risk", JFloat(0.5)),
          Composite(JObject(ra))),
        Get(parsed, "key_findings", JList([])),
        Get(parsed, "risk_factors", JList([])),
        Get(parsed, "compliance_concerns", JList([])),
        Get(parsed, "source_credibility", JObject(map[])),
        Get(parsed, "relevance_score", JFloat(0.5)),
        Get(parsed, "confidence_level", JFloat(0.5)),
        false,
        now))
    case _ => Err(AttributeError("get"))
  }

  /**
   * On the fallback path the record is the degraded assessment: MEDIUM,
   * every dimension and the composite 0.5, relevance 0.5, confidence 0.3,
   * the parsing-error finding, and the start of the reply as summary.
   */
  lemma FallbackRecord(result: Json, reply: Option<string>, now: string)
    ensures var r := AnalysisRecord(result, FallbackParsed(reply), now);
      r.Ok? &&
      r.value.assessment == Assessment(JFloat(0.5), JStr("MEDIUM"), JFloat(0.5), JFloat(0.5), JFloat(0.5), JFloat(0.5), 0.5) &&
      r.value.summary == JStr(FallbackSummary(reply)) &&
      r.value.keyFindings == JList([JStr("Parsing error - manual review required")]) &&
      r.value.relevance == JFloat(0.5) && r.value.confidence == JFloat(0.3)
  {
    FallbackParsedFields(reply);
    FallbackAssessmentFields();
    FallbackComposite();
  }

  lemma FallbackParsedFields(reply: Option<string>)
    ensures var p := FallbackParsed(reply);
      Get(p, "risk_assessment", JObject(map[])) == JObject(FallbackAssessment()) &&
      Get(p, "summary", JStr("")) == JStr(FallbackSummary(reply)) &&
      Get(p, "key_findings", JList([])) == JList([JStr("Parsing error - manual review required")]) &&
      Get(p, "relevance_score", JFloat(0.5)) == JFloat(0.5) && Get(p, "confidence_level", JFloat(0.5)) == JFloat(0.3)
  {
    var p := FallbackParsed(reply);
    assert "risk_assessment" in p && "summary" in p && "key_findings" in p;
    assert "relevance_score" in p && "confidence_level" in p;
  }

  lemma FallbackAssessmentFields()
    ensures var ra := FallbackAssessment();
      Get(ra, "overall_risk_score", JFloat(0.5)) == JFloat(0.5) && Get(ra, "risk_level", JStr("MEDIUM")) == JStr("MEDIUM") &&
      Get(ra, "financial_crimes_risk", JFloat(0.5)) == JFloat(0.5) && Get(ra, "corruption_risk", JFloat(0.5)) == JFloat(0.5) &&
      Get(ra, "regulatory_risk", JFloat(0.5)) == JFloat(0.5) && Get(ra, "reputational_risk", JFloat(0.5)) == JFloat(0.5)
  {
    var ra := FallbackAssessment();
    assert "overall_risk_score" in ra && "risk_level" in ra && "financial_crimes_risk" in ra;
    assert "corruption_risk" in ra && "regulatory_risk" in ra && "reputational_risk" in ra;
  }

  lemma FallbackComposite()
    ensures Composite(JObject(FallbackAssessment())) == 0.5
  {
    var ra := FallbackAssessment();
    WeightedSumFormula(ra);
    assert Dimension(ra, "financial_crimes_risk") == Some(0.5) && Dimension(ra, "corruption_risk") == Some(0.5);
    assert Dimension(ra, "regulatory_risk") == Some(0.5) && Dimension(ra, "reputational_risk") == Some(0.5);
    assert Round3(0.5) == 0.5 by {
      FloorBounds(0.5 * 1000.0 + 0.5);
    }
  }
}
