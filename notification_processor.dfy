/**
 * The risk notification processor Lambda
 * (src/lambda/lambda_risk_notification_processor.py): the dashboard
 * summary of stored assessments, the SQS handler that counts processed
 * and failed notifications, and the manual-review queue handler.
 */
module NotificationProcessor {
  import opened Wrappers
  import opened JsonValue
  import opened Scoring
  import opened RiskOutput
  import opened Security
  import Seqs

  // ---------------------------------------------------------------------
  // calculate_risk_summary
  // ---------------------------------------------------------------------

  /** `risk_level_counts.get(level, 0)`. */
  function Count(m: map<Json, nat>, key: Json): nat
  {
    if key in m then m[key] else 0
  }

  /** The level an assessment is counted under: 'UNKNOWN' when it has none. */
  function LevelOf(a: Json): Json
  {
    if a.JObject? then Get(a.fields, "risk_level", JStr("UNKNOWN")) else JNull
  }

  /** `float(assessment.get('overall_risk_score', 0.0))`. */
  function ScoreOf(c: Codec, a: Json): Result<real>
  {
    if a.JObject? then PyFloat(c, Get(a.fields, "overall_risk_score", JFloat(0.0))) else Err(AttributeError("get"))
  }

  /** `float(assessment.get('confidence_level', 1.0))`: a missing confidence counts as 1.0. */
  function ConfidenceOf(c: Codec, a: Json): Result<real>
  {
    if a.JObject? then PyFloat(c, Get(a.fields, "confidence_level", JFloat(1.0))) else Err(AttributeError("get"))
  }

  /** The summary's high-risk rule: a HIGH or CRITICAL level, or a score of at least 0.8. */
  predicate CountsAsHighRisk(c: Codec, a: Json)
  {
    IsHighOrCritical(LevelOf(a)) || (ScoreOf(c, a).Ok? && ScoreOf(c, a).value >= 0.8)
  }

  /**
   * The summary's own review rule: a HIGH or CRITICAL level, or a
   * confidence below 0.6. Unlike `_requires_manual_review` it ignores the
   * score and the UNKNOWN level.
   */
  predicate CountsForReview(c: Codec, a: Json)
  {
    IsHighOrCritical(LevelOf(a)) || (ConfidenceOf(c, a).Ok? && ConfidenceOf(c, a).value < 0.6)
  }

  function HighRiskTest(c: Codec): Json -> bool
  {
    a => CountsAsHighRisk(c, a)
  }

  function ReviewTest(c: Codec): Json -> bool
  {
    a => CountsForReview(c, a)
  }

  /** The running counters of the loop. */
  datatype Tally = Tally(counts: map<Json, nat>, scoreSum: real, highRisk: nat, review: nat)

  /**
   * One assessment: its score (line 184), its level counted (a level that
   * cannot be a dictionary key raises), then its confidence, 1.0 when absent.
   */
  function Step(c: Codec, t: Tally, a: Json): Result<Tally>
  {
    if !a.JObject? then Err(AttributeError("get"))
    else
      var level := LevelOf(a);
      match ScoreOf(c, a)
      case Err(e) => Err(e)
      case Ok(score) =>
        if !Hashable(level) then Err(TypeError)
        else
          match ConfidenceOf(c, a)
          case Err(e) => Err(e)
          case Ok(confidence) =>
            Ok(Tally(t.counts[level := Count(t.counts, level) + 1],
                     t.scoreSum + score,
                     t.highRisk + (if IsHighOrCritical(level) || score >= 0.8 then 1 else 0),
                     t.review + (if IsHighOrCritical(level) || confidence < 0.6 then 1 else 0)))
  }

  /** The counters after the loop over `xs`; the first exception ends it. */
  function Tallied(c: Codec, xs: seq<Json>): Result<Tally>
    decreases |xs|
  {
    if xs == [] then Ok(Tally(map[], 0.0, 0, 0))
    else
      match Tallied(c, xs[..|xs| - 1])
      case Err(e) => Err(e)
      case Ok(t) => Step(c, t, xs[|xs| - 1])
  }

  /**
   * One assessment goes through the loop body without raising: it is a
   * dictionary, its score and confidence convert to float, and its level
   * can be a dictionary key. None of this depends on the counters so far.
   */
  predicate Admissible(c: Codec, a: Json)
  {
    a.JObject? && ScoreOf(c, a).Ok? && Hashable(LevelOf(a)) && ConfidenceOf(c, a).Ok?
  }

  /** The scores of the assessments added up; a score that does not convert adds nothing. */
  function ScoreTotal(c: Codec, xs: seq<Json>): real
    decreases |xs|
  {
    if xs == [] then 0.0
    else
      var a := xs[|xs| - 1];
      ScoreTotal(c, xs[..|xs| - 1]) + (if ScoreOf(c, a).Ok? then ScoreOf(c, a).value else 0.0)
  }

  /** A step raises exactly for an assessment that is not admissible, and otherwise adds its score. */
  lemma StepAdmissible(c: Codec, t: Tally, a: Json)
    ensures Step(c, t, a).Ok? <==> Admissible(c, a)
    ensures Step(c, t, a).Ok? ==> Step(c, t, a).value.scoreSum == t.scoreSum + ScoreOf(c, a).value
  {
  }

  /**
   * The loop finishes exactly when every assessment is admissible, and its
   * running total is then the total of the scores.
   */
  lemma {:induction false} TalliedAdmissible(c: Codec, xs: seq<Json>)
    ensures Tallied(c, xs).Ok? <==> forall i :: 0 <= i < |xs| ==> Admissible(c, xs[i])
    ensures Tallied(c, xs).Ok? ==> Tallied(c, xs).value.scoreSum == ScoreTotal(c, xs)
    decreases |xs|
  {
    if xs != [] {
      var n := |xs| - 1;
      TalliedAdmissible(c, xs[..n]);
      assert forall i :: 0 <= i < n ==> xs[..n][i] == xs[i];
      if Tallied(c, xs[..n]).Ok? {
        StepAdmissible(c, Tallied(c, xs[..n]).value, xs[n]);
      }
    }
  }

  /** `round((k / n) * 100, 1)`: a count out of `n` as a percentage rounded to one place. */
  function Percent(k: nat, n: nat): real
    requires 0 < n
  {
    Round1((k as real / n as real) * 100.0)
  }

  /** The summary statistics; the two percentages exist only for a non-empty input. */
  datatype Summary = Summary(
    total: nat, distribution: map<Json, nat>, averageRiskScore: real,
    highRiskCount: nat, requiresReviewCount: nat, percentages: Option<(real, real)>)

  /**
   * `calculate_risk_summary`, as a function of the assessments: the
   * high-risk and review counts are the numbers of assessments meeting
   * each rule, and the percentages are those counts out of the total.
   */
  function SummaryOf(c: Codec, xs: seq<Json>): (r: Result<Summary>)
    ensures xs == [] ==> r == Ok(Summary(0, map[], 0.0, 0, 0, None))
    ensures r.Ok? ==> r.value.total == |xs|
    ensures r.Ok? ==> r.value.highRiskCount == |set i: nat | i < |xs| && CountsAsHighRisk(c, xs[i])|
    ensures r.Ok? ==> r.value.requiresReviewCount == |set i: nat | i < |xs| && CountsForReview(c, xs[i])|
    ensures r.Ok? <==> forall i :: 0 <= i < |xs| ==> Admissible(c, xs[i])
    ensures r.Ok? && xs != [] ==> r.value.averageRiskScore == Round3(ScoreTotal(c, xs) / |xs| as real)
    ensures r.Ok? && xs != [] ==>
      r.value.percentages == Some((Percent(r.value.highRiskCount, |xs|), Percent(r.value.requiresReviewCount, |xs|)))
  {
    if xs == [] then Ok(Summary(0, map[], 0.0, 0, 0, None))
    else
      TalliedAdmissible(c, xs);
      match Tallied(c, xs)
      case Err(e) => Err(e)
      case Ok(t) =>
        TallyCounts(c, xs);
        SummaryCounts(c, xs);
        var n := |xs| as real;
        Ok(Summary(|xs|, t.counts, Round3(t.scoreSum / n), t.highRisk, t.review,
                   Some((Percent(t.highRisk, |xs|), Percent(t.review, |xs|)))))
  }

  lemma {:induction false} TalliedStaysErr(c: Codec, xs: seq<Json>, i: nat)
    requires 0 < i <= |xs|
    requires Tallied(c, xs[..i]).Err?
    ensures Tallied(c, xs) == Err(Tallied(c, xs[..i]).error)
    decreases |xs| - i
  {
    if i < |xs| {
      assert xs[..i + 1][..i] == xs[..i];
      TalliedStaysErr(c, xs, i + 1);
    } else {
      assert xs[..i] == xs;
    }
  }

  /** The loop of `calculate_risk_summary`. */
  method CalculateRiskSummary(c: Codec, xs: seq<Json>) returns (r: Result<Summary>)
    ensures r == SummaryOf(c, xs)
  {
    if xs == [] {
      return Ok(Summary(0, map[], 0.0, 0, 0, None));
    }
    var counts: map<Json, nat> := map[];
    var total := 0.0;
    var highRisk := 0;
    var review := 0;
    var i := 0;
    while i < |xs|
      invariant 0 <= i <= |xs|
      invariant Tallied(c, xs[..i]) == Ok(Tally(counts, total, highRisk, review))
    {
      assert xs[..i + 1][..i] == xs[..i];
      assert xs[..i + 1][i] == xs[i];
      var step := Step(c, Tally(counts, total, highRisk, review), xs[i]);
      if step.Err? {
        TalliedStaysErr(c, xs, i + 1);
        return Err(step.error);
      }
      counts, total, highRisk, review := step.value.counts, step.value.scoreSum, step.value.highRisk, step.value.review;
      i := i + 1;
    }
    assert xs[..i] == xs;
    var n := |xs| as real;
    r := Ok(Summary(|xs|, counts, Round3(total / n), highRisk, review, Some((Percent(highRisk, |xs|), Percent(review, |xs|)))));
  }

  // --- the distribution -------------------------------------------------

  /** How many of the assessments are counted under `level`. */
  function CountLevel(xs: seq<Json>, level: Json): nat
    decreases |xs|
  {
    if xs == [] then 0
    else CountLevel(xs[..|xs| - 1], level) + (if LevelOf(xs[|xs| - 1]) == level then 1 else 0)
  }

  ghost function PickKey(m: map<Json, nat>): Json
    requires m != map[]
  {
    var k :| k in m; k
  }

  /** The sum of a distribution's counts. */
  ghost function SumValues(m: map<Json, nat>): nat
    decreases |m|
  {
    if m == map[] then 0
    else
      var k := PickKey(m);
      assert (m - {k}).Keys == m.Keys - {k};
      m[k] + SumValues(m - {k})
  }

  lemma {:induction false} SumRemove(m: map<Json, nat>, k: Json)
    requires k in m
    ensures SumValues(m) == m[k] + SumValues(m - {k})
    decreases |m|
  {
    var j := PickKey(m);
    if j != k {
      assert (m - {k}).Keys == m.Keys - {k};
      assert (m - {j}).Keys == m.Keys - {j};
      SumRemove(m - {j}, k);
      SumRemove(m - {k}, j);
      assert m - {j} - {k} == m - {k} - {j};
    }
  }

  lemma SumIncrement(m: map<Json, nat>, k: Json)
    ensures SumValues(m[k := Count(m, k) + 1]) == SumValues(m) + 1
  {
    var m' := m[k := Count(m, k) + 1];
    SumRemove(m', k);
    if k in m {
      SumRemove(m, k);
      assert m' - {k} == m - {k};
    } else {
      assert m' - {k} == m;
    }
  }

  /**
   * After the loop, each level's count is the number of assessments at that
   * level (those without one under 'UNKNOWN'), the counts add up to the
   * number of assessments, and neither the high-risk nor the review count
   * exceeds it.
   */
  lemma {:induction false} TallyCounts(c: Codec, xs: seq<Json>)
    requires Tallied(c, xs).Ok?
    ensures var t := Tallied(c, xs).value;
      (forall level :: Count(t.counts, level) == CountLevel(xs, level)) &&
      SumValues(t.counts) == |xs| &&
      t.highRisk == Seqs.CountWhere(HighRiskTest(c), xs) && t.review == Seqs.CountWhere(ReviewTest(c), xs)
    decreases |xs|
  {
    if xs != [] {
      var n := |xs| - 1;
      TalliedLast(c, xs);
      TallyCounts(c, xs[..n]);
      CountsStep(Tallied(c, xs[..n]).value.counts, Tallied(c, xs).value.counts, xs);
    }
  }

  /** Counting the last assessment under its level keeps the distribution in step with the input. */
  lemma CountsStep(before: map<Json, nat>, after: map<Json, nat>, xs: seq<Json>)
    requires xs != []
    requires (forall level :: Count(before, level) == CountLevel(xs[..|xs| - 1], level)) && SumValues(before) == |xs| - 1
    requires var level := LevelOf(xs[|xs| - 1]); after == before[level := Count(before, level) + 1]
    ensures (forall level :: Count(after, level) == CountLevel(xs, level)) && SumValues(after) == |xs|
  {
    var level := LevelOf(xs[|xs| - 1]);
    assert SumValues(after) == |xs| by {
      SumIncrement(before, level);
    }
    forall other
      ensures Count(after, other) == CountLevel(xs, other)
    {
      LevelStep(before, after, xs, other);
    }
  }

  lemma LevelStep(before: map<Json, nat>, after: map<Json, nat>, xs: seq<Json>, other: Json)
    requires xs != []
    requires Count(before, other) == CountLevel(xs[..|xs| - 1], other)
    requires var level := LevelOf(xs[|xs| - 1]); after == before[level := Count(before, level) + 1]
    ensures Count(after, other) == CountLevel(xs, other)
  {
    var level := LevelOf(xs[|xs| - 1]);
    assert Count(after, other) == Count(before, other) + (if level == other then 1 else 0);
  }

  /** The counters after a non-empty input are one step on from those before its last assessment. */
  lemma TalliedLast(c: Codec, xs: seq<Json>)
    requires xs != [] && Tallied(c, xs).Ok?
    ensures Tallied(c, xs[..|xs| - 1]).Ok?
    ensures var t := Tallied(c, xs[..|xs| - 1]).value;
      var u := Tallied(c, xs).value;
      var level := LevelOf(xs[|xs| - 1]);
      u.counts == t.counts[level := Count(t.counts, level) + 1] &&
      u.highRisk == t.highRisk + (if CountsAsHighRisk(c, xs[|xs| - 1]) then 1 else 0) &&
      u.review == t.review + (if CountsForReview(c, xs[|xs| - 1]) then 1 else 0)
  {
    var n := |xs| - 1;
    assert Tallied(c, xs[..n]).Ok?;
    var t := Tallied(c, xs[..n]).value;
    assert Tallied(c, xs) == Step(c, t, xs[n]);
    StepCounts(c, t, xs[n]);
  }

  /** A step that succeeds counts its assessment once under its level, and once under each rule it meets. */
  lemma StepCounts(c: Codec, t: Tally, a: Json)
    requires Step(c, t, a).Ok?
    ensures var u := Step(c, t, a).value;
      u.counts == t.counts[LevelOf(a) := Count(t.counts, LevelOf(a)) + 1] &&
      u.highRisk == t.highRisk + (if CountsAsHighRisk(c, a) then 1 else 0) &&
      u.review == t.review + (if CountsForReview(c, a) then 1 else 0)
  {
  }

  /** The loop's two flag counters, as numbers of assessments meeting each rule. */
  lemma SummaryCounts(c: Codec, xs: seq<Json>)
    ensures Seqs.CountWhere(HighRiskTest(c), xs) == |set i: nat | i < |xs| && CountsAsHighRisk(c, xs[i])|
    ensures Seqs.CountWhere(ReviewTest(c), xs) == |set i: nat | i < |xs| && CountsForReview(c, xs[i])|
  {
    Seqs.CountWhereIndices(HighRiskTest(c), xs);
    Seqs.CountWhereIndices(ReviewTest(c), xs);
    assert Seqs.IndicesWhere(HighRiskTest(c), xs) == set i: nat | i < |xs| && CountsAsHighRisk(c, xs[i]);
    assert Seqs.IndicesWhere(ReviewTest(c), xs) == set i: nat | i < |xs| && CountsForReview(c, xs[i]);
  }

  /**
   * The summary's review count and `_requires_manual_review` disagree: a
   * MEDIUM assessment scored 0.9 with confidence 0.9 is flagged for
   * review by the service but not counted as needing review (it is
   * counted as high risk).
   */
  lemma ReviewRulesDiffer(c: Codec)
    ensures var fields := map["risk_level" := JStr("MEDIUM"), "overall_risk_score" := JFloat(0.9),
                              "confidence_level" := JFloat(0.9)];
      RequiresManualReview(c, fields) == Ok(true) &&
      SummaryOf(c, [JObject(fields)]).Ok? &&
      SummaryOf(c, [JObject(fields)]).value.requiresReviewCount == 0 &&
      SummaryOf(c, [JObject(fields)]).value.highRiskCount == 1
  {
    var fields := map["risk_level" := JStr("MEDIUM"), "overall_risk_score" := JFloat(0.9),
                      "confidence_level" := JFloat(0.9)];
    var a := JObject(fields);
    assert [a][..0] == [];
    assert Tallied(c, [a]) == Step(c, Tally(map[], 0.0, 0, 0), a);
    assert !CountsForReview(c, a) && CountsAsHighRisk(c, a);
    assert (set i: nat | i < 1 && CountsForReview(c, [a][i])) == {};
    assert (set i: nat | i < 1 && CountsAsHighRisk(c, [a][i])) == {0};
  }

  /** Scores in [0, 1] add up to at most the number of assessments. */
  lemma {:induction false} TallyScoreSum(c: Codec, xs: seq<Json>)
    requires Tallied(c, xs).Ok?
    requires forall i :: 0 <= i < |xs| && ScoreOf(c, xs[i]).Ok? ==> 0.0 <= ScoreOf(c, xs[i]).value <= 1.0
    ensures 0.0 <= Tallied(c, xs).value.scoreSum <= |xs| as real
    decreases |xs|
  {
    if xs != [] {
      var n := |xs| - 1;
      forall i | 0 <= i < n && ScoreOf(c, xs[..n][i]).Ok?
        ensures 0.0 <= ScoreOf(c, xs[..n][i]).value <= 1.0
      {
        assert xs[..n][i] == xs[i];
      }
      TallyScoreSum(c, xs[..n]);
    }
  }

  lemma Ratio(x: real, n: nat)
    requires 0 < n && 0.0 <= x <= n as real
    ensures 0.0 <= x / n as real <= 1.0
  {
    var q := x / n as real;
    assert q * n as real == x;
  }

  /** A count out of `n`, as a percentage rounded to one place, lies in [0, 100]. */
  lemma Percentage(k: nat, n: nat)
    requires 0 < n && k <= n
    ensures 0.0 <= Percent(k, n) <= 100.0
  {
    Ratio(k as real, n);
    Round1Bounds((k as real / n as real) * 100.0, 0, 100);
  }

  /**
   * For a non-empty input: the distribution adds up to the total, the
   * high-risk and review counts do not exceed it, and both percentages
   * lie in [0, 100].
   */
  lemma SummaryBounds(c: Codec, xs: seq<Json>)
    requires xs != [] && SummaryOf(c, xs).Ok?
    ensures var s := SummaryOf(c, xs).value;
      SumValues(s.distribution) == s.total == |xs| &&
      s.highRiskCount <= s.total && s.requiresReviewCount <= s.total &&
      s.percentages.Some? &&
      0.0 <= s.percentages.value.0 <= 100.0 && 0.0 <= s.percentages.value.1 <= 100.0
  {
    var t := Tallied(c, xs).value;
    SummaryFromTally(c, xs);
    assert SumValues(t.counts) == |xs| && t.highRisk <= |xs| && t.review <= |xs| by {
      TallyCounts(c, xs);
    }
    Percentage(t.highRisk, |xs|);
    Percentage(t.review, |xs|);
  }

  /** A summary that exists is read off the loop's counters. */
  lemma SummaryFromTally(c: Codec, xs: seq<Json>)
    requires xs != [] && SummaryOf(c, xs).Ok?
    ensures Tallied(c, xs).Ok?
    ensures var t := Tallied(c, xs).value;
      var s := SummaryOf(c, xs).value;
      s.total == |xs| && s.distribution == t.counts && s.highRiskCount == t.highRisk && s.requiresReviewCount == t.review &&
      s.percentages == Some((Percent(t.highRisk, |xs|), Percent(t.review, |xs|)))
  {
  }

  /** Each level's count is its number of assessments; those without a level are counted under 'UNKNOWN'. */
  lemma SummaryDistribution(c: Codec, xs: seq<Json>, level: Json)
    requires SummaryOf(c, xs).Ok?
    ensures Count(SummaryOf(c, xs).value.distribution, level) == CountLevel(xs, level)
  {
    if xs != [] {
      TallyCounts(c, xs);
    }
  }

  /** With every score in [0, 1], so is the rounded average. */
  lemma SummaryAverage(c: Codec, xs: seq<Json>)
    requires xs != [] && SummaryOf(c, xs).Ok?
    requires forall i :: 0 <= i < |xs| && ScoreOf(c, xs[i]).Ok? ==> 0.0 <= ScoreOf(c, xs[i]).value <= 1.0
    ensures 0.0 <= SummaryOf(c, xs).value.averageRiskScore <= 1.0
  {
    var t := Tallied(c, xs).value;
    TallyScoreSum(c, xs);
    Ratio(t.scoreSum, |xs|);
    Round3Bounds(t.scoreSum / |xs| as real, 0, 1);
  }

  /** An assessment without a risk level lands in the 'UNKNOWN' bucket. */
  lemma MissingLevelIsUnknown(c: Codec, a: map<string, Json>)
    requires "risk_level" !in a && SummaryOf(c, [JObject(a)]).Ok?
    ensures SummaryOf(c, [JObject(a)]).value.distribution == map[JStr("UNKNOWN") := 1]
  {
    assert [JObject(a)][..0] == [];
    assert LevelOf(JObject(a)) == JStr("UNKNOWN");
    assert Tallied(c, [JObject(a)]) == Step(c, Tally(map[], 0.0, 0, 0), JObject(a));
  }

  // ---------------------------------------------------------------------
  // lambda_handler
  // ---------------------------------------------------------------------

  /**
   * A record is processed when it is a dictionary and
   * `process_notification`, as written, answers True. The handler passes
   * the SQS record itself, so the processor looks for 'Body' in it.
   */
  predicate Processed(env: ProcessorEnv, record: Json)
  {
    record.JObject? && ProcessNotificationAsWritten(env, record.fields).ok
  }

  /** (processed_count, failed_count) after the loop over the records. */
  function Counted(env: ProcessorEnv, records: seq<Json>): (r: (nat, nat))
    ensures r.0 + r.1 == |records|
    decreases |records|
  {
    if records == [] then (0, 0)
    else
      var prior := Counted(env, records[..|records| - 1]);
      if Processed(env, records[|records| - 1]) then (prior.0 + 1, prior.1) else (prior.0, prior.1 + 1)
  }

  /** The record loop of the handler. */
  method CountNotifications(env: ProcessorEnv, records: seq<Json>) returns (processed: nat, failed: nat)
    ensures processed == Counted(env, records).0 && failed == Counted(env, records).1
  {
    processed, failed := 0, 0;
    var i := 0;
    while i < |records|
      invariant 0 <= i <= |records|
      invariant processed == Counted(env, records[..i]).0 && failed == Counted(env, records[..i]).1
    {
      assert records[..i + 1][..i] == records[..i];
      if Processed(env, records[i]) {
        processed := processed + 1;
      } else {
        failed := failed + 1;
      }
      i := i + 1;
    }
    assert records[..i] == records;
  }

  /**
   * Dictionary records with no 'Body', or a dictionary under it, are all
   * counted as processed, whatever their 'body' holds: the processor finds
   * no text to decode and decides on `{}` or on that dictionary.
   */
  lemma {:induction false} DictRecordsAllProcessed(env: ProcessorEnv, records: seq<Json>)
    requires forall i :: 0 <= i < |records| ==>
      records[i].JObject? && ("Body" !in records[i].fields || records[i].fields["Body"].JObject?)
    ensures Counted(env, records) == (|records|, 0)
    decreases |records|
  {
    if records != [] {
      var n := |records| - 1;
      assert forall i :: 0 <= i < n ==> records[..n][i] == records[i];
      DictRecordsAllProcessed(env, records[..n]);
      assert Processed(env, records[n]);
    }
  }

  /** A delivered SQS record whose 'body' does not even decode still counts as processed. */
  lemma UndecodableRecordCountsProcessed(env: ProcessorEnv, text: string)
    requires env.loads(text).None?
    ensures Counted(env, [JObject(map["body" := JStr(text)])]) == (1, 0)
  {
    var record := JObject(map["body" := JStr(text)]);
    assert [record][..0] == [];
    AsWrittenIgnoresSqsRecords(env, record.fields);
  }

  function CountsBody(processed: nat, failed: nat, now: string): map<string, Json>
  {
    map["message" := JStr("Risk notifications processed successfully"),
        "processed_count" := JInt(processed),
        "failed_count" := JInt(failed),
        "timestamp" := JStr(now)]
  }

  /**
   * `lambda_handler`: 200 with the counts; 500 (with the generic body) when
   * 'Records' cannot be iterated. `validate_request` catches its own
   * exceptions and its answer is ignored, so it does not take part.
   */
  function NotificationHandler(env: ProcessorEnv, event: map<string, Json>, now: string): (r: Response)
    ensures "Records" !in event ==> r == CreateSecureResponse(200, CountsBody(0, 0, now), map[])
    ensures "Records" in event && event["Records"].JList? ==>
      r.statusCode == 200 &&
      var counts := Counted(env, event["Records"].items);
      r.body == CountsBody(counts.0, counts.1, now) && counts.0 + counts.1 == |event["Records"].items|
  {
    if "Records" !in event then CreateSecureResponse(200, CountsBody(0, 0, now), map[])
    else
      match Iterate(event["Records"])
      case Err(_) => CreateSecureResponse(500, map["error" := JStr("Internal server error"), "timestamp" := JStr(now)], map[])
      case Ok(records) =>
        var counts := Counted(env, records);
        CreateSecureResponse(200, CountsBody(counts.0, counts.1, now), map[])
  }

  // ---------------------------------------------------------------------
  // manual_review_handler
  // ---------------------------------------------------------------------

  /** The review entry logged for a request. */
  datatype ReviewData = ReviewData(
    entityName: Json, recordId: Json, riskLevel: Json, reviewReason: Json, queuedAt: Json,
    processedAt: string, status: string)

  /**
   * One record: its body decoded when it is a string, else taken as it is
   * ({} when absent); None when that raises — a record or request that is
   * not a dictionary, an undecodable body, or an entry `json.dumps` cannot
   * write (a decimal).
   */
  function ReviewOf(record: Json, loads: string -> Option<Json>, now: string): (r: Option<ReviewData>)
    ensures r.Some? ==> r.value.status == "PENDING_MANUAL_REVIEW" && r.value.processedAt == now
  {
    if !record.JObject? then None
    else
      var body := Get(record.fields, "body", JObject(map[]));
      var request := if body.JStr? then loads(body.s) else Some(body);
      if request.None? || !request.value.JObject? then None
      else
        var req := request.value.fields;
        var data := ReviewData(Get(req, "entity_name", JNull), Get(req, "record_id", JNull), Get(req, "risk_level", JNull),
                               Get(req, "requires_review_reason", JNull), Get(req, "queued_at", JNull),
                               now, "PENDING_MANUAL_REVIEW");
        if NoDecimals(data.entityName) && NoDecimals(data.recordId) && NoDecimals(data.riskLevel) &&
           NoDecimals(data.reviewReason) && NoDecimals(data.queuedAt)
        then Some(data)
        else None
  }

  /** The number of records handled without an exception. */
  function ReviewCount(records: seq<Json>, loads: string -> Option<Json>, now: string): (n: nat)
    ensures n <= |records|
  {
    Seqs.CountWhere((record: Json) => ReviewOf(record, loads, now).Some?, records)
  }

  /** Every record is counted exactly when none of them raises. */
  lemma ReviewCountAll(records: seq<Json>, loads: string -> Option<Json>, now: string)
    ensures ReviewCount(records, loads, now) == |records| <==>
      forall i :: 0 <= i < |records| ==> ReviewOf(records[i], loads, now).Some?
  {
    Seqs.CountWhereAll((record: Json) => ReviewOf(record, loads, now).Some?, records);
  }

  /** The record loop of `manual_review_handler`. */
  method CountReviews(records: seq<Json>, loads: string -> Option<Json>, now: string) returns (processed: nat)
    ensures processed == ReviewCount(records, loads, now)
  {
    processed := 0;
    var i := 0;
    while i < |records|
      invariant 0 <= i <= |records|
      invariant processed == ReviewCount(records[..i], loads, now)
    {
      assert records[..i + 1][..i] == records[..i];
      if ReviewOf(records[i], loads, now).Some? {
        processed := processed + 1;
      }
      i := i + 1;
    }
    assert records[..i] == records;
  }

  /** A request already decoded as a dictionary of plain strings is always counted. */
  lemma DecodedRequestCounted(request: map<string, Json>, loads: string -> Option<Json>, now: string)
    requires forall k :: k in request ==> request[k].JStr?
    ensures var r := ReviewOf(JObject(map["body" := JObject(request)]), loads, now);
      r.Some? && r.value.entityName == Get(request, "entity_name", JNull) && r.value.riskLevel == Get(request, "risk_level", JNull)
  {
  }

  /** `manual_review_handler`: 200 with the count; 500 when 'Records' cannot be iterated. */
  function ManualReviewHandler(event: map<string, Json>, loads: string -> Option<Json>, now: string): (r: Response)
    ensures "Records" in event && event["Records"].JList? ==>
      r.statusCode == 200 && "processed_count" in r.body &&
      r.body["processed_count"] == JInt(ReviewCount(event["Records"].items, loads, now))
  {
    var records := if "Records" in event then Iterate(event["Records"]) else Ok([]);
    match records
    case Err(_) => CreateSecureResponse(500, map["error" := JStr("Manual review processing failed"), "timestamp" := JStr(now)], map[])
    case Ok(rs) =>
      CreateSecureResponse(200, map["message" := JStr("Manual review requests processed"),
                                    "processed_count" := JInt(ReviewCount(rs, loads, now)),
                                    "timestamp" := JStr(now)], map[])
  }
}
