/**
 * The DynamoDB data service (src/shared/dynamodb_data_service.py): a
 * table of items keyed by (query, timestamp). Storing search results
 * writes a SEARCH_COMPLETED item; storing the LLM analysis sets six
 * attributes of it; keyword search de-duplicates and orders what the
 * scans return; the statistics and the expiry sweep read and prune the
 * table. The boto3 calls are the table field plus parameters saying
 * whether a call succeeds or what a scan returned.
 */
module DataService {
  import opened Wrappers
  import opened Strings
  import opened JsonValue
  import Seqs

  /** A DynamoDB item: attribute name to value. */
  type Item = map<string, Json>

  /** The table's key: (query, timestamp). */
  type Key = (string, string)

  const SearchTtl: int := 30 * 24 * 60 * 60

  /** The attributes of a stored search item. */
  const SearchAttributes: set<string> :=
    {"query", "timestamp", "query_hash", "record_type", "search_results", "total_results",
     "metadata", "processing_status", "ttl", "created_at", "updated_at"}

  // ---------------------------------------------------------------------
  // _generate_query_hash
  // ---------------------------------------------------------------------

  /** `md5(query.lower())`; the digest itself is a parameter. */
  function QueryHash(md5: string -> string, query: string): string
  {
    md5(Lower(query))
  }

  /** The hash sees only the lower-cased query: a query and its lower-cased form share it. */
  lemma QueryHashIgnoresCase(md5: string -> string, query: string)
    ensures QueryHash(md5, Lower(query)) == QueryHash(md5, query)
  {
    LowerIdempotent(query);
  }

  // ---------------------------------------------------------------------
  // store_search_results
  // ---------------------------------------------------------------------

  /** The item written for a search, before its floats become decimals. */
  function SearchItem(query: string, timestamp: string, nowEpoch: int, queryHash: string,
                      results: seq<Json>, metadata: Json): (item: Item)
    ensures item.Keys == SearchAttributes
    ensures item["query"] == JStr(query) && item["timestamp"] == JStr(timestamp)
    ensures item["record_type"] == JStr("SEARCH_RESULTS") && item["processing_status"] == JStr("SEARCH_COMPLETED")
    ensures item["total_results"] == JInt(|results|) && item["search_results"] == JList(results)
    ensures item["created_at"] == item["updated_at"] == JStr(timestamp)
    ensures item["ttl"] == JInt(nowEpoch + 30 * 86400)
    ensures item["metadata"] == if Truthy(metadata) then metadata else JObject(map[])
  {
    map["query" := JStr(query),
        "timestamp" := JStr(timestamp),
        "query_hash" := JStr(queryHash),
        "record_type" := JStr("SEARCH_RESULTS"),
        "search_results" := JList(results),
        "total_results" := JInt(|results|),
        "metadata" := if Truthy(metadata) then metadata else JObject(map[]),
        "processing_status" := JStr("SEARCH_COMPLETED"),
        "ttl" := JInt(nowEpoch + SearchTtl),
        "created_at" := JStr(timestamp),
        "updated_at" := JStr(timestamp)]
  }

  /** `_convert_floats_to_decimal` on a whole item. */
  function ToDecimalItem(c: Codec, item: Item): (r: Item)
    ensures r.Keys == item.Keys
    ensures forall a :: a in item ==> r[a] == ToDecimal(c, item[a])
  {
    map a | a in item :: ToDecimal(c, item[a])
  }

  /** `_convert_decimal_to_float` on a whole item. */
  function ToFloatItem(c: Codec, item: Item): (r: Item)
    ensures r.Keys == item.Keys
    ensures forall a :: a in item ==> r[a] == ToFloat(c, item[a])
  {
    map a | a in item :: ToFloat(c, item[a])
  }

  /** A stored search item reads back as written when each float survives its decimal form. */
  lemma StoredItemReadsBack(c: Codec, item: Item)
    requires RoundTrips(c)
    requires forall a :: a in item ==> NoDecimals(item[a])
    ensures ToFloatItem(c, ToDecimalItem(c, item)) == item
  {
    forall a | a in item ensures ToFloat(c, ToDecimal(c, item[a])) == item[a] {
      DecimalRoundTrip(c, item[a]);
    }
  }

  /** What `store_search_results` answers. */
  datatype SearchConfirmation = SearchConfirmation(query: string, timestamp: string, queryHash: string, resultsCount: nat)

  // ---------------------------------------------------------------------
  // store_llm_analysis: metrics
  // ---------------------------------------------------------------------

  /** `r.get('relevance_score', 0)` as a number Python can add to floats. */
  function Relevance(r: Json): Result<real>
  {
    if !r.JObject? then Err(AttributeError("get"))
    else
      match AsFloatOperand(Get(r.fields, "relevance_score", JInt(0)))
      case None => Err(TypeError)
      case Some(x) => Ok(x)
  }

  /** `sum(r.get('relevance_score', 0) for r in processed_results)`: it raises exactly when some term does. */
  function RelevanceSum(rs: seq<Json>): (r: Result<real>)
    ensures r.Ok? <==> forall i :: 0 <= i < |rs| ==> Relevance(rs[i]).Ok?
    decreases |rs|
  {
    if rs == [] then Ok(0.0)
    else
      assert forall i :: 0 <= i < |rs| - 1 ==> rs[..|rs| - 1][i] == rs[i];
      match RelevanceSum(rs[..|rs| - 1])
      case Err(e) => Err(e)
      case Ok(total) =>
        match Relevance(rs[|rs| - 1])
        case Err(e) => Err(e)
        case Ok(x) => Ok(total + x)
  }

  /** `r.get('relevance_score', 0) > 0.7`. */
  predicate IsHighRelevance(r: Json)
  {
    Relevance(r).Ok? && Relevance(r).value > 0.7
  }

  /** The number of results whose relevance is strictly above 0.7. */
  function HighRelevance(rs: seq<Json>): (n: nat)
    ensures n == |set i: nat | i < |rs| && IsHighRelevance(rs[i])|
  {
    Seqs.CountWhereIndices(IsHighRelevance, rs);
    assert Seqs.IndicesWhere(IsHighRelevance, rs) == set i: nat | i < |rs| && IsHighRelevance(rs[i]);
    Seqs.CountWhere(IsHighRelevance, rs)
  }

  /** `processing_metrics`; the duration is computed from the two timestamps outside the model. */
  datatype Metrics = Metrics(totalProcessed: nat, averageRelevance: real, processingDuration: real, highRelevanceCount: nat)

  function MetricsOf(rs: seq<Json>, duration: real): (r: Result<Metrics>)
    ensures r.Ok? <==> RelevanceSum(rs).Ok?
    ensures r.Ok? ==> r.value.totalProcessed == |rs|
    ensures r.Ok? ==> r.value.highRelevanceCount == |set i: nat | i < |rs| && IsHighRelevance(rs[i])|
    ensures rs == [] ==> r == Ok(Metrics(0, 0.0, duration, 0))
  {
    match RelevanceSum(rs)
    case Err(e) => Err(e)
    case Ok(total) =>
      Ok(Metrics(|rs|, if rs == [] then 0.0 else total / |rs| as real, duration, HighRelevance(rs)))
  }

  function MetricsJson(m: Metrics): Json
  {
    JObject(map["total_processed" := JInt(m.totalProcessed),
                "average_relevance" := JFloat(m.averageRelevance),
                "processing_duration" := JFloat(m.processingDuration),
                "high_relevance_count" := JInt(m.highRelevanceCount)])
  }

  predicate RelevanceInUnit(rs: seq<Json>)
  {
    forall i :: 0 <= i < |rs| && Relevance(rs[i]).Ok? ==> 0.0 <= Relevance(rs[i]).value <= 1.0
  }

  lemma {:induction false} RelevanceSumBounds(rs: seq<Json>)
    requires RelevanceSum(rs).Ok? && RelevanceInUnit(rs)
    ensures 0.0 <= RelevanceSum(rs).value <= |rs| as real
    decreases |rs|
  {
    if rs != [] {
      var n := |rs| - 1;
      assert forall i :: 0 <= i < n ==> rs[..n][i] == rs[i];
      RelevanceSumBounds(rs[..n]);
    }
  }

  /** A result without a relevance score counts as 0: it leaves the sum as it was. */
  lemma MissingRelevanceCountsZero(rs: seq<Json>, r: map<string, Json>)
    requires "relevance_score" !in r
    ensures RelevanceSum(rs + [JObject(r)]) == RelevanceSum(rs)
  {
    assert (rs + [JObject(r)])[..|rs|] == rs;
  }

  /** With every relevance score in [0, 1], so is the average. */
  lemma AverageRelevanceInUnit(rs: seq<Json>, duration: real)
    requires MetricsOf(rs, duration).Ok? && RelevanceInUnit(rs)
    ensures 0.0 <= MetricsOf(rs, duration).value.averageRelevance <= 1.0
  {
    if rs != [] {
      var total := RelevanceSum(rs).value;
      var q := total / |rs| as real;
      assert 0.0 <= q <= 1.0 by {
        RelevanceSumBounds(rs);
        assert q * |rs| as real == total;
      }
      assert MetricsOf(rs, duration).value.averageRelevance == q;
    }
  }

  /** The six attributes `store_llm_analysis` sets. */
  const AnalysisAttributes: set<string> :=
    {"llm_analysis", "processing_status", "processing_completed_at", "updated_at", "processing_metrics", "record_type"}

  /** The update expression applied to an item: six attributes set, every other one kept. */
  function Updated(base: Item, analysis: Json, now: string, metrics: Json): (item: Item)
    ensures item.Keys == base.Keys + AnalysisAttributes
    ensures forall a :: a in base && a !in AnalysisAttributes ==> item[a] == base[a]
    ensures item["processing_status"] == JStr("ANALYSIS_COMPLETED") && item["record_type"] == JStr("COMPLETE_ANALYSIS")
    ensures item["llm_analysis"] == analysis && item["processing_metrics"] == metrics
    ensures item["processing_completed_at"] == item["updated_at"] == JStr(now)
  {
    base["llm_analysis" := analysis]
        ["processing_status" := JStr("ANALYSIS_COMPLETED")]
        ["processing_completed_at" := JStr(now)]
        ["updated_at" := JStr(now)]
        ["processing_metrics" := metrics]
        ["record_type" := JStr("COMPLETE_ANALYSIS")]
  }

  /** The item an update starts from: the stored one, or just the key when there is none (DynamoDB's update creates it). */
  function BaseItem(table: map<Key, Item>, key: Key): Item
  {
    if key in table then table[key] else map["query" := JStr(key.0), "timestamp" := JStr(key.1)]
  }

  /**
   * The lifecycle of a record: a stored search item, once the analysis is
   * stored on it, is ANALYSIS_COMPLETED / COMPLETE_ANALYSIS, and keeps its
   * key, hash, results, count, creation time and expiry.
   */
  lemma SearchThenAnalysis(c: Codec, query: string, timestamp: string, nowEpoch: int, queryHash: string,
                           results: seq<Json>, metadata: Json, analysis: Json, now: string, metrics: Json)
    ensures var stored := ToDecimalItem(c, SearchItem(query, timestamp, nowEpoch, queryHash, results, metadata));
      var updated := Updated(stored, analysis, now, metrics);
      stored["processing_status"] == JStr("SEARCH_COMPLETED") &&
      updated["processing_status"] == JStr("ANALYSIS_COMPLETED") &&
      updated["record_type"] == JStr("COMPLETE_ANALYSIS") &&
      (forall a :: a in SearchAttributes - AnalysisAttributes ==> updated[a] == stored[a]) &&
      updated["total_results"] == JInt(|results|) && updated["created_at"] == JStr(timestamp)
  {
    var item := SearchItem(query, timestamp, nowEpoch, queryHash, results, metadata);
    var stored := ToDecimalItem(c, item);
    StoredSearchItem(c, query, timestamp, nowEpoch, queryHash, results, metadata);
    UpdatedKeeps(stored, analysis, now, metrics, SearchAttributes);
  }

  /** The stored search item: its attributes, SEARCH_COMPLETED, its count and creation time. */
  lemma StoredSearchItem(c: Codec, query: string, timestamp: string, nowEpoch: int, queryHash: string,
                         results: seq<Json>, metadata: Json)
    ensures var stored := ToDecimalItem(c, SearchItem(query, timestamp, nowEpoch, queryHash, results, metadata));
      stored.Keys == SearchAttributes &&
      stored["processing_status"] == JStr("SEARCH_COMPLETED") &&
      stored["total_results"] == JInt(|results|) && stored["created_at"] == JStr(timestamp)
  {
    var item := SearchItem(query, timestamp, nowEpoch, queryHash, results, metadata);
    assert "processing_status" in item && "total_results" in item && "created_at" in item;
  }

  /** An update keeps every attribute it does not set, and sets the count and creation time of none. */
  lemma UpdatedKeeps(base: Item, analysis: Json, now: string, metrics: Json, keys: set<string>)
    requires base.Keys == keys && "total_results" in keys && "created_at" in keys
    ensures var updated := Updated(base, analysis, now, metrics);
      (forall a :: a in keys - AnalysisAttributes ==> updated[a] == base[a]) &&
      updated["total_results"] == base["total_results"] && updated["created_at"] == base["created_at"]
  {
    assert "total_results" !in AnalysisAttributes && "created_at" !in AnalysisAttributes;
  }

  /** What `store_llm_analysis` answers. */
  datatype AnalysisConfirmation = AnalysisConfirmation(query: string, timestamp: string, processedCount: nat, averageRelevance: real)

  // ---------------------------------------------------------------------
  // search_by_keywords: ordering
  // ---------------------------------------------------------------------

  /** `item.get('timestamp', '')`. */
  function TimestampOf(item: Item): Json
  {
    Get(item, "timestamp", JStr(""))
  }

  /** The sort key, for items whose timestamps are strings. */
  function Ts(item: Item): string
  {
    if TimestampOf(item).JStr? then TimestampOf(item).s else ""
  }

  /** `(item.get('query', ''), item.get('timestamp', ''))`. */
  function KeyOf(item: Item): (Json, Json)
  {
    (Get(item, "query", JStr("")), TimestampOf(item))
  }

  /** Most recent first: no item is older than one after it. */
  predicate SortedDesc(r: seq<Item>)
  {
    forall i, j :: 0 <= i < j < |r| ==> !Less(Ts(r[i]), Ts(r[j]))
  }

  predicate DistinctKeys(r: seq<Item>)
  {
    forall i, j :: 0 <= i < j < |r| ==> KeyOf(r[i]) != KeyOf(r[j])
  }

  /** Places `x` after every item at least as recent: a stable descending insertion. */
  function Insert(x: Item, s: seq<Item>): (r: seq<Item>)
    ensures multiset(r) == multiset(s) + multiset{x}
    ensures |r| == |s| + 1
  {
    if s == [] then [x]
    else if Less(Ts(s[0]), Ts(x)) then [x] + s
    else
      assert s == [s[0]] + s[1..];
      [s[0]] + Insert(x, s[1..])
  }

  /** `sorted(items, key=timestamp, reverse=True)`: stable, so equal timestamps keep their order. */
  function SortDesc(s: seq<Item>): (r: seq<Item>)
    ensures multiset(r) == multiset(s)
    decreases |s|
  {
    if s == [] then []
    else
      assert s == s[..|s| - 1] + [s[|s| - 1]];
      Insert(s[|s| - 1], SortDesc(s[..|s| - 1]))
  }

  /** Every item of an insertion other than the inserted one comes from the list inserted into. */
  lemma InsertedFrom(x: Item, t: seq<Item>, j: nat) returns (k: nat)
    requires j < |Insert(x, t)| && Insert(x, t)[j] != x
    ensures k < |t| && t[k] == Insert(x, t)[j]
  {
    var y := Insert(x, t)[j];
    assert y in multiset(Insert(x, t));
    assert y in multiset(t);
    k :| 0 <= k < |t| && t[k] == y;
  }

  /** Every item of the sorted list comes from the list sorted. */
  lemma SortedFrom(p: seq<Item>, i: nat) returns (k: nat)
    requires i < |SortDesc(p)|
    ensures k < |p| && p[k] == SortDesc(p)[i]
  {
    var y := SortDesc(p)[i];
    assert y in multiset(SortDesc(p));
    assert y in multiset(p);
    k :| 0 <= k < |p| && p[k] == y;
  }

  lemma {:induction false} InsertSorted(x: Item, s: seq<Item>)
    requires SortedDesc(s)
    ensures SortedDesc(Insert(x, s))
    decreases |s|
  {
    if s != [] {
      var r := Insert(x, s);
      if Less(Ts(s[0]), Ts(x)) {
        forall j | 0 <= j < |s| ensures !Less(Ts(x), Ts(s[j])) {
          LessTotal(Ts(s[j]), Ts(s[0]));
          LessAsymmetric(Ts(x), Ts(s[0]));
          if Less(Ts(x), Ts(s[j])) && Less(Ts(s[j]), Ts(s[0])) {
            LessTransitive(Ts(x), Ts(s[j]), Ts(s[0]));
          }
        }
      } else {
        var t := s[1..];
        assert SortedDesc(t) by {
          forall i, j | 0 <= i < j < |t| ensures !Less(Ts(t[i]), Ts(t[j])) {
            assert t[i] == s[i + 1] && t[j] == s[j + 1];
          }
        }
        InsertSorted(x, t);
        var rest := Insert(x, t);
        forall j | 0 <= j < |rest| ensures !Less(Ts(s[0]), Ts(rest[j])) {
          if rest[j] != x {
            var k := InsertedFrom(x, t, j);
            assert s[k + 1] == rest[j];
          }
        }
      }
    }
  }

  lemma {:induction false} SortDescSorted(s: seq<Item>)
    ensures SortedDesc(SortDesc(s))
    decreases |s|
  {
    if s != [] {
      SortDescSorted(s[..|s| - 1]);
      InsertSorted(s[|s| - 1], SortDesc(s[..|s| - 1]));
    }
  }

  lemma {:induction false} InsertDistinct(x: Item, s: seq<Item>)
    requires DistinctKeys(s)
    requires forall i :: 0 <= i < |s| ==> KeyOf(s[i]) != KeyOf(x)
    ensures DistinctKeys(Insert(x, s))
    decreases |s|
  {
    if s != [] && !Less(Ts(s[0]), Ts(x)) {
      var t := s[1..];
      assert DistinctKeys(t) by {
        forall i, j | 0 <= i < j < |t| ensures KeyOf(t[i]) != KeyOf(t[j]) {
          assert t[i] == s[i + 1] && t[j] == s[j + 1];
        }
      }
      InsertDistinct(x, t);
      var rest := Insert(x, t);
      forall j | 0 <= j < |rest| ensures KeyOf(s[0]) != KeyOf(rest[j]) {
        if rest[j] != x {
          var k := InsertedFrom(x, t, j);
          assert s[k + 1] == rest[j];
        }
      }
    }
  }

  lemma {:induction false} SortDescDistinct(s: seq<Item>)
    requires DistinctKeys(s)
    ensures DistinctKeys(SortDesc(s))
    decreases |s|
  {
    if s != [] {
      var n := |s| - 1;
      var p := s[..n];
      assert DistinctKeys(p);
      SortDescDistinct(p);
      var sp := SortDesc(p);
      forall i | 0 <= i < |sp| ensures KeyOf(sp[i]) != KeyOf(s[n]) {
        var k := SortedFrom(p, i);
        assert s[k] == sp[i];
      }
      InsertDistinct(s[n], sp);
    }
  }

  // ---------------------------------------------------------------------
  // search_by_keywords: gathering and de-duplication
  // ---------------------------------------------------------------------

  /** The items the scans return, keyword by keyword; a failed scan raises. */
  function Gathered(keywords: seq<string>, limit: int, scan: (string, int) -> Result<seq<Item>>): Result<seq<Item>>
    decreases |keywords|
  {
    if keywords == [] then Ok([])
    else
      match Gathered(keywords[..|keywords| - 1], limit, scan)
      case Err(e) => Err(e)
      case Ok(items) =>
        match scan(Lower(keywords[|keywords| - 1]), limit)
        case Err(e) => Err(e)
        case Ok(found) => Ok(items + found)
  }

  /** The keys of the first `n` items. */
  function KeysOf(items: seq<Item>): set<(Json, Json)>
  {
    set i | 0 <= i < |items| :: KeyOf(items[i])
  }

  /** The first item of each key, in order, each converted back to floats. */
  function Unique(c: Codec, items: seq<Item>): seq<Item>
    decreases |items|
  {
    if items == [] then []
    else
      var n := |items| - 1;
      var prior := Unique(c, items[..n]);
      if KeyOf(items[n]) in KeysOf(items[..n]) then prior else prior + [ToFloatItem(c, items[n])]
  }

  /** Keys whose attributes are strings survive the conversion back to floats. */
  predicate StringKeys(items: seq<Item>)
  {
    forall i :: 0 <= i < |items| ==> KeyOf(items[i]).0.JStr? && KeyOf(items[i]).1.JStr?
  }

  lemma {:induction false} UniqueKeys(c: Codec, items: seq<Item>)
    requires StringKeys(items)
    ensures var u := Unique(c, items);
      DistinctKeys(u) && StringKeys(u) &&
      (forall i :: 0 <= i < |u| ==> KeyOf(u[i]) in KeysOf(items)) && |u| <= |items|
    decreases |items|
  {
    if items != [] {
      var n := |items| - 1;
      var p, x := items[..n], items[n];
      var u := Unique(c, p);
      assert DistinctKeys(u) && StringKeys(u) && (forall i :: 0 <= i < |u| ==> KeyOf(u[i]) in KeysOf(p)) && |u| <= |p| by {
        assert StringKeys(p);
        UniqueKeys(c, p);
      }
      assert KeysOf(p) <= KeysOf(items) && KeyOf(x) in KeysOf(items) by {
        KeysOfSnoc(items, n);
        assert items[..n + 1] == items;
      }
      if KeyOf(x) !in KeysOf(p) {
        var cx := ToFloatItem(c, x);
        assert Unique(c, items) == u + [cx];
        assert KeyOf(cx) == KeyOf(x) by {
          StringKeyKept(c, x);
        }
        AppendNewKey(u, cx, KeysOf(p), KeysOf(items));
      }
    }
  }

  /** The unique items hold every key the items hold: a key is dropped only when it was seen before. */
  lemma {:induction false} UniqueKeySet(c: Codec, items: seq<Item>)
    requires StringKeys(items)
    ensures KeysOf(Unique(c, items)) == KeysOf(items)
    decreases |items|
  {
    if items != [] {
      var n := |items| - 1;
      var p, x := items[..n], items[n];
      assert StringKeys(p);
      UniqueKeySet(c, p);
      KeysOfSnoc(items, n);
      assert items[..n + 1] == items;
      var u := Unique(c, p);
      if KeyOf(x) !in KeysOf(p) {
        var cx := ToFloatItem(c, x);
        StringKeyKept(c, x);
        KeysOfSnoc(u + [cx], |u|);
        assert (u + [cx])[..|u|] == u && (u + [cx])[..|u| + 1] == u + [cx];
      }
    }
  }

  /** Items with distinct keys hold as many keys as items. */
  lemma {:induction false} DistinctKeysCount(u: seq<Item>)
    requires DistinctKeys(u)
    ensures |KeysOf(u)| == |u|
    decreases |u|
  {
    if u != [] {
      var n := |u| - 1;
      assert DistinctKeys(u[..n]);
      DistinctKeysCount(u[..n]);
      KeysOfSnoc(u, n);
      assert u[..n + 1] == u;
      assert KeyOf(u[n]) !in KeysOf(u[..n]);
    }
  }

  /** Converting an item back to floats keeps a key made of strings. */
  lemma StringKeyKept(c: Codec, x: Item)
    requires KeyOf(x).0.JStr? && KeyOf(x).1.JStr?
    ensures KeyOf(ToFloatItem(c, x)) == KeyOf(x)
  {
  }

  /** Appending an item whose key is not among those seen keeps the keys distinct, string-valued and within `after`. */
  lemma AppendNewKey(u: seq<Item>, cx: Item, before: set<(Json, Json)>, after: set<(Json, Json)>)
    requires DistinctKeys(u) && StringKeys(u) && (forall i :: 0 <= i < |u| ==> KeyOf(u[i]) in before) && before <= after
    requires KeyOf(cx) in after && KeyOf(cx) !in before && KeyOf(cx).0.JStr? && KeyOf(cx).1.JStr?
    ensures var v := u + [cx];
      DistinctKeys(v) && StringKeys(v) && forall i :: 0 <= i < |v| ==> KeyOf(v[i]) in after
  {
    var v := u + [cx];
    assert forall i :: 0 <= i < |u| ==> v[i] == u[i];
  }

  /**
   * The end of `search_by_keywords`: the unique items sorted most recent
   * first and cut to `limit`. A timestamp that is not a string cannot be
   * compared with one that is: the sort raises.
   */
  function Ordered(unique: seq<Item>, limit: int): Result<seq<Item>>
  {
    if |unique| >= 2 && exists i :: 0 <= i < |unique| && !TimestampOf(unique[i]).JStr? then Err(TypeError)
    else Ok(PyTake(SortDesc(unique), limit))
  }

  /** `search_by_keywords`, as a function of what the scans return. */
  function SearchByKeywordsSpec(c: Codec, keywords: seq<string>, limit: int, scan: (string, int) -> Result<seq<Item>>): Result<seq<Item>>
  {
    match Gathered(keywords, limit, scan)
    case Err(e) => Err(e)
    case Ok(items) => Ordered(Unique(c, items), limit)
  }

  /**
   * What `search_by_keywords` promises about a result: no two items with
   * the same (query, timestamp), most recent first, at most `limit` items,
   * and every key one the scans returned; a key the scans returned is left
   * out only by the cut to `limit`.
   */
  lemma SearchByKeywordsResult(c: Codec, keywords: seq<string>, limit: int, scan: (string, int) -> Result<seq<Item>>)
    requires SearchByKeywordsSpec(c, keywords, limit, scan).Ok?
    requires StringKeys(Gathered(keywords, limit, scan).value)
    ensures var items := Gathered(keywords, limit, scan).value;
      var r := SearchByKeywordsSpec(c, keywords, limit, scan).value;
      DistinctKeys(r) && SortedDesc(r) && (0 <= limit ==> |r| <= limit) &&
      (forall i :: 0 <= i < |r| ==> KeyOf(r[i]) in KeysOf(items)) &&
      (0 <= limit ==> |r| == if limit < |KeysOf(items)| then limit else |KeysOf(items)|)
  {
    OrderedUnique(c, Gathered(keywords, limit, scan).value, limit);
    if 0 <= limit {
      OrderedCount(c, Gathered(keywords, limit, scan).value, limit);
    }
  }

  /** The ordered unique items hold one item per gathered key, up to `limit`. */
  lemma OrderedCount(c: Codec, items: seq<Item>, limit: int)
    requires StringKeys(items) && Ordered(Unique(c, items), limit).Ok? && 0 <= limit
    ensures var r := Ordered(Unique(c, items), limit).value;
      |r| == if limit < |KeysOf(items)| then limit else |KeysOf(items)|
  {
    var u := Unique(c, items);
    var s := SortDesc(u);
    assert Ordered(u, limit).value == PyTake(s, limit);
    assert |s| == |multiset(s)| == |multiset(u)| == |u|;
    UniqueKeys(c, items);
    DistinctKeysCount(u);
    UniqueKeySet(c, items);
  }

  /** The ordered unique items of a gathering: distinct keys, most recent first, at most `limit`, every key gathered. */
  lemma OrderedUnique(c: Codec, items: seq<Item>, limit: int)
    requires StringKeys(items) && Ordered(Unique(c, items), limit).Ok?
    ensures var r := Ordered(Unique(c, items), limit).value;
      DistinctKeys(r) && SortedDesc(r) && (0 <= limit ==> |r| <= limit) &&
      (forall i :: 0 <= i < |r| ==> KeyOf(r[i]) in KeysOf(items))
  {
    var u := Unique(c, items);
    var s := SortDesc(u);
    var r := PyTake(s, limit);
    assert Ordered(u, limit).value == r;
    assert DistinctKeys(r) by {
      UniqueKeys(c, items);
      SortDescDistinct(u);
      assert forall i :: 0 <= i < |r| ==> r[i] == s[i];
    }
    assert SortedDesc(r) by {
      SortDescSorted(u);
      assert forall i :: 0 <= i < |r| ==> r[i] == s[i];
    }
    assert forall i :: 0 <= i < |r| ==> KeyOf(r[i]) in KeysOf(items) by {
      UniqueKeys(c, items);
      forall i | 0 <= i < |r| ensures KeyOf(r[i]) in KeysOf(items) {
        var k := SortedFrom(u, i);
      }
    }
  }

  // ---------------------------------------------------------------------
  // get_processing_statistics
  // ---------------------------------------------------------------------

  /** `key in metrics` then `metrics[key]`: a dictionary answers; a string or list may raise. */
  function MetricLookup(metrics: Json, key: string): Result<Option<Json>>
  {
    match metrics
    case JObject(fields) => Ok(if key in fields then Some(fields[key]) else None)
    case JStr(s) => if Contains(s, key) then Err(TypeError) else Ok(None)
    case JList(items) => if JStr(key) in items then Err(TypeError) else Ok(None)
    case _ => Err(TypeError)
  }

  /** The counters of the statistics. */
  datatype Totals = Totals(completed: nat, resultsProcessed: real, relevances: seq<real>, durations: seq<real>)

  /** A number of the converted item, as `sum` adds it. */
  function Number(j: Json): Result<real>
  {
    match AsFloatOperand(j)
    case None => Err(TypeError)
    case Some(x) => Ok(x)
  }

  /** The counters over the scanned items (already converted back to floats). */
  /** `i.get('processing_status') == 'ANALYSIS_COMPLETED'`. */
  predicate IsCompleted(item: Item)
  {
    Get(item, "processing_status", JNull) == JStr("ANALYSIS_COMPLETED")
  }

  function Totalled(items: seq<Item>): (r: Result<Totals>)
    ensures r.Ok? ==> r.value.completed == Seqs.CountWhere(IsCompleted, items) && |r.value.relevances| <= |items|
    decreases |items|
  {
    if items == [] then Ok(Totals(0, 0.0, [], []))
    else
      var n := |items| - 1;
      var item := items[n];
      match Totalled(items[..n])
      case Err(e) => Err(e)
      case Ok(t) =>
        match Number(Get(item, "total_results", JInt(0)))
        case Err(e) => Err(e)
        case Ok(count) =>
          var metrics := Get(item, "processing_metrics", JObject(map[]));
          match MetricLookup(metrics, "average_relevance")
          case Err(e) => Err(e)
          case Ok(relevance) =>
            match MetricLookup(metrics, "processing_duration")
            case Err(e) => Err(e)
            case Ok(duration) =>
              match if relevance.Some? then Number(relevance.value) else Ok(0.0)
              case Err(e) => Err(e)
              case Ok(rv) =>
                match if duration.Some? then Number(duration.value) else Ok(0.0)
                case Err(e) => Err(e)
                case Ok(dv) =>
                  Ok(Totals(t.completed + (if IsCompleted(item) then 1 else 0),
                            t.resultsProcessed + count,
                            t.relevances + (if relevance.Some? then [rv] else []),
                            t.durations + (if duration.Some? then [dv] else [])))
  }

  function SumReals(xs: seq<real>): real
    decreases |xs|
  {
    if xs == [] then 0.0 else SumReals(xs[..|xs| - 1]) + xs[|xs| - 1]
  }

  /** How many of `xs` lie strictly above `threshold`. */
  function CountAbove(xs: seq<real>, threshold: real): (n: nat)
    ensures n == |set i: nat | i < |xs| && xs[i] > threshold|
  {
    var above := (x: real) => x > threshold;
    Seqs.CountWhereIndices(above, xs);
    assert Seqs.IndicesWhere(above, xs) == set i: nat | i < |xs| && xs[i] > threshold;
    Seqs.CountWhere(above, xs)
  }

  /** A mean, or 0 for nothing. */
  function Mean(total: real, n: nat): real
  {
    if n > 0 then total / n as real else 0.0
  }

  /** A count out of `n` has a mean in [0, 1]. */
  lemma MeanOfCount(k: nat, n: nat)
    requires k <= n
    ensures 0.0 <= Mean(k as real, n) <= 1.0
  {
    if n > 0 {
      var q := k as real / n as real;
      assert q * n as real == k as real;
    }
  }

  datatype Statistics = Statistics(
    periodDays: int, totalSearches: nat, completedAnalyses: nat, completionRate: real,
    totalResultsProcessed: real, averageResultsPerSearch: real, averageRelevanceScore: real,
    averageProcessingTimeSeconds: real, highRelevanceSearches: nat)

  /** The scanned items, each converted back to floats. */
  function FloatItems(c: Codec, scanned: seq<Item>): (r: seq<Item>)
    ensures |r| == |scanned| && forall i :: 0 <= i < |scanned| ==> r[i] == ToFloatItem(c, scanned[i])
  {
    seq(|scanned|, i requires 0 <= i < |scanned| => ToFloatItem(c, scanned[i]))
  }

  /**
   * `get_processing_statistics` over the items the scan returned: the
   * totals over the items, each average the mean of what it averages (0
   * for nothing), and the high-relevance count over the collected
   * relevances.
   */
  function ProcessingStatistics(c: Codec, daysBack: int, scanned: seq<Item>): (r: Result<Statistics>)
    ensures r.Ok? ==> r.value.completedAnalyses <= r.value.totalSearches == |scanned|
    ensures r.Ok? ==> r.value.completedAnalyses == |set i: nat | i < |scanned| && IsCompleted(scanned[i])|
    ensures r.Ok? ==>
      r.value.completionRate == (if scanned == [] then 0.0 else r.value.completedAnalyses as real / |scanned| as real)
    ensures r.Ok? ==> 0.0 <= r.value.completionRate <= 1.0
    ensures r.Ok? ==> r.value.highRelevanceSearches <= r.value.totalSearches
    ensures r.Ok? <==> Totalled(FloatItems(c, scanned)).Ok?
    ensures r.Ok? ==>
      var t := Totalled(FloatItems(c, scanned)).value;
      r.value.totalResultsProcessed == t.resultsProcessed &&
      r.value.averageResultsPerSearch == Mean(t.resultsProcessed, |scanned|) &&
      r.value.averageRelevanceScore == Mean(SumReals(t.relevances), |t.relevances|) &&
      r.value.averageProcessingTimeSeconds == Mean(SumReals(t.durations), |t.durations|) &&
      r.value.highRelevanceSearches == CountAbove(t.relevances, 0.7)
  {
    var items := FloatItems(c, scanned);
    match Totalled(items)
    case Err(e) => Err(e)
    case Ok(t) =>
      var n := |items|;
      CompletedCount(c, scanned, items);
      MeanOfCount(t.completed, n);
      Ok(Statistics(daysBack, n, t.completed, Mean(t.completed as real, n), t.resultsProcessed,
                    Mean(t.resultsProcessed, n), Mean(SumReals(t.relevances), |t.relevances|),
                    Mean(SumReals(t.durations), |t.durations|), CountAbove(t.relevances, 0.7)))
  }

  /** Reading an item back leaves its processing status as it was. */
  lemma CompletedAfterConversion(c: Codec, item: Item)
    ensures IsCompleted(ToFloatItem(c, item)) <==> IsCompleted(item)
  {
    if "processing_status" in item {
      var v := item["processing_status"];
      assert ToFloatItem(c, item)["processing_status"] == ToFloat(c, v);
      match v
      case JDecimal(_) =>
      case JList(_) =>
      case JObject(_) =>
      case _ =>
    }
  }

  /** The completed items counted over the converted items are those of the scan. */
  lemma CompletedCount(c: Codec, scanned: seq<Item>, items: seq<Item>)
    requires |items| == |scanned| && forall i :: 0 <= i < |scanned| ==> items[i] == ToFloatItem(c, scanned[i])
    ensures Seqs.CountWhere(IsCompleted, items) == |set i: nat | i < |scanned| && IsCompleted(scanned[i])|
    ensures Seqs.CountWhere(IsCompleted, items) <= |items|
  {
    Seqs.CountWhereIndices(IsCompleted, items);
    var converted := Seqs.IndicesWhere(IsCompleted, items);
    var original := set i: nat | i < |scanned| && IsCompleted(scanned[i]);
    forall i: nat | i < |scanned| ensures i in converted <==> i in original {
      CompletedAfterConversion(c, scanned[i]);
    }
    assert converted == original;
  }

  // ---------------------------------------------------------------------
  // cleanup_expired_records
  // ---------------------------------------------------------------------

  /** `attribute_exists(ttl) AND ttl < :current_time`; a ttl that is not a number never matches. */
  predicate Expired(item: Item, now: int)
  {
    "ttl" in item &&
    match item["ttl"]
    case JInt(t) => t < now
    case JDecimal(d) => d < now as real
    case _ => false
  }

  function ExpiredKeys(table: map<Key, Item>, now: int): set<Key>
  {
    set k | k in table && Expired(table[k], now)
  }

  /**
   * What a sweep leaves: the swept keys are gone, every other key keeps
   * its item, and the expired items left are exactly those the page did
   * not hold.
   */
  lemma SweepLeaves(table: map<Key, Item>, now: int, page: set<Key>)
    requires page <= ExpiredKeys(table, now)
    ensures var after := table - page;
      after.Keys == table.Keys - page &&
      (forall k :: k in after ==> after[k] == table[k]) &&
      ExpiredKeys(after, now) == ExpiredKeys(table, now) - page
  {
    var after := table - page;
    assert ExpiredKeys(after, now) == ExpiredKeys(table, now) - page by {
      forall k ensures k in ExpiredKeys(after, now) <==> k in ExpiredKeys(table, now) - page {
        if k in after {
          assert after[k] == table[k];
        }
      }
    }
  }

  /** A page holding every expired key leaves no expired item behind. */
  lemma FullPageSweepsAll(table: map<Key, Item>, now: int)
    ensures ExpiredKeys(table - ExpiredKeys(table, now), now) == {}
  {
    SweepLeaves(table, now, ExpiredKeys(table, now));
  }

  // ---------------------------------------------------------------------
  // Expression attribute names
  // ---------------------------------------------------------------------

  /**
   * The table's attribute names that are DynamoDB reserved words. DynamoDB
   * compares names with its reserved words case-insensitively.
   */
  const ReservedAttributeNames: set<string> := {"query", "timestamp", "ttl"}

  /**
   * DynamoDB accepts an expression only when no attribute name in it is a
   * reserved word; a reserved name must go through a `#` placeholder of
   * `ExpressionAttributeNames`. Otherwise the call raises a
   * ValidationException before reading anything.
   */
  predicate ExpressionAccepted(names: seq<string>)
  {
    forall i :: 0 <= i < |names| ==> Lower(names[i]) !in ReservedAttributeNames
  }

  /** A scan whose expressions use `names`, answering `answer` when DynamoDB accepts them. */
  function ScanWith<T>(names: seq<string>, answer: Result<T>): (r: Result<T>)
    ensures ExpressionAccepted(names) ==> r == answer
    ensures !ExpressionAccepted(names) ==> r.Err?
  {
    if ExpressionAccepted(names) then answer else Err(ServiceError("dynamodb"))
  }

  /** The names `search_by_keywords`' filter uses as written: `contains(query, :keyword)`. */
  const KeywordScanNamesAsWritten: seq<string> := ["query"]

  /** The names the expiry sweep's filter and projection use as written. */
  const CleanupScanNamesAsWritten: seq<string> := ["ttl", "ttl", "query", "timestamp"]

  /** The same expressions with every attribute name behind a placeholder. */
  const KeywordScanNames: seq<string> := ["#query"]
  const CleanupScanNames: seq<string> := ["#ttl", "#ttl", "#query", "#timestamp"]

  /** A name of lower-case letters lower-cases to itself. */
  lemma LowerOfLowercase(name: string)
    requires forall i :: 0 <= i < |name| ==> 'a' <= name[i] <= 'z'
    ensures Lower(name) == name
  {
    assert forall i :: 0 <= i < |name| ==> Lower(name)[i] == name[i];
  }

  /** A `#` placeholder is never a reserved word. */
  lemma PlaceholderAccepted(name: string)
    requires 0 < |name| && name[0] == '#'
    ensures Lower(name) !in ReservedAttributeNames
  {
    var l := Lower(name);
    assert l[0] == '#';
    assert l != "query" && l != "timestamp" && l != "ttl" by {
      assert "query"[0] == 'q' && "timestamp"[0] == 't' && "ttl"[0] == 't';
    }
  }

  /** As written, both scans name reserved words directly, and DynamoDB refuses each of them. */
  lemma AsWrittenNamesRefused()
    ensures !ExpressionAccepted(KeywordScanNamesAsWritten)
    ensures !ExpressionAccepted(CleanupScanNamesAsWritten)
  {
    LowerOfLowercase("query");
    LowerOfLowercase("ttl");
    assert Lower(KeywordScanNamesAsWritten[0]) in ReservedAttributeNames;
    assert Lower(CleanupScanNamesAsWritten[0]) in ReservedAttributeNames;
  }

  /** With every attribute name behind a placeholder, DynamoDB accepts both scans. */
  lemma PlaceholderNamesAccepted()
    ensures ExpressionAccepted(KeywordScanNames)
    ensures ExpressionAccepted(CleanupScanNames)
  {
    forall i | 0 <= i < |CleanupScanNames| ensures Lower(CleanupScanNames[i]) !in ReservedAttributeNames {
      PlaceholderAccepted(CleanupScanNames[i]);
    }
    PlaceholderAccepted(KeywordScanNames[0]);
  }

  /** The keyword scan `scan` makes when its expression uses `names`. */
  function KeywordScan(names: seq<string>, scan: (string, int) -> Result<seq<Item>>): (string, int) -> Result<seq<Item>>
  {
    (keyword, limit) => ScanWith(names, scan(keyword, limit))
  }

  /** Scans that all raise make any non-empty gathering raise. */
  lemma GatheredRefused(keywords: seq<string>, limit: int, scan: (string, int) -> Result<seq<Item>>)
    requires keywords != [] && forall k, n :: scan(k, n).Err?
    ensures Gathered(keywords, limit, scan).Err?
  {
  }

  /**
   * As written, the sweep always raises whatever the table holds, and the
   * keyword search raises for every non-empty keyword list.
   */
  lemma AsWrittenScansRaise<T>(answer: Result<T>, c: Codec, keywords: seq<string>, limit: int,
                               scan: (string, int) -> Result<seq<Item>>)
    requires keywords != []
    ensures ScanWith(CleanupScanNamesAsWritten, answer).Err?
    ensures SearchByKeywordsSpec(c, keywords, limit, KeywordScan(KeywordScanNamesAsWritten, scan)).Err?
  {
    AsWrittenNamesRefused();
    var refused := KeywordScan(KeywordScanNamesAsWritten, scan);
    forall k, n ensures refused(k, n).Err? {
      assert refused(k, n) == ScanWith(KeywordScanNamesAsWritten, scan(k, n));
    }
    GatheredRefused(keywords, limit, refused);
  }

  /**
   * With placeholders, both scans answer what the table gives: the sweep
   * and the keyword search modelled here are these corrected ones.
   */
  lemma CorrectedScansAnswer<T>(answer: Result<T>, c: Codec, keywords: seq<string>, limit: int,
                                scan: (string, int) -> Result<seq<Item>>)
    ensures ScanWith(CleanupScanNames, answer) == answer
    ensures SearchByKeywordsSpec(c, keywords, limit, KeywordScan(KeywordScanNames, scan)) ==
      SearchByKeywordsSpec(c, keywords, limit, scan)
  {
    PlaceholderNamesAccepted();
    GatheredSameScans(keywords, limit, KeywordScan(KeywordScanNames, scan), scan);
  }

  /** Two scans that answer alike gather alike. */
  lemma {:induction false} GatheredSameScans(keywords: seq<string>, limit: int,
                                             a: (string, int) -> Result<seq<Item>>, b: (string, int) -> Result<seq<Item>>)
    requires forall k, n :: a(k, n) == b(k, n)
    ensures Gathered(keywords, limit, a) == Gathered(keywords, limit, b)
    decreases |keywords|
  {
    if keywords != [] {
      GatheredSameScans(keywords[..|keywords| - 1], limit, a, b);
    }
  }

  // ---------------------------------------------------------------------
  // SearchResultsDataService
  // ---------------------------------------------------------------------

  class SearchResultsDataService {
    /** The table's items by key. */
    var table: map<Key, Item>

    constructor ()
      ensures table == map[]
    {
      table := map[];
    }

    /**
     * `store_search_results`: the item, with its floats made decimals, is
     * put at (query, now); a failed put raises and changes nothing.
     */
    method StoreSearchResults(c: Codec, md5: string -> string, now: string, nowEpoch: int,
                              query: string, results: seq<Json>, metadata: Json, putSucceeds: bool)
      returns (r: Result<SearchConfirmation>)
      modifies this
      ensures putSucceeds ==>
        r == Ok(SearchConfirmation(query, now, QueryHash(md5, query), |results|)) &&
        table == old(table)[(query, now) := ToDecimalItem(c, SearchItem(query, now, nowEpoch, QueryHash(md5, query), results, metadata))]
      ensures !putSucceeds ==> r.Err? && table == old(table)
    {
      var queryHash := QueryHash(md5, query);
      var item := ToDecimalItem(c, SearchItem(query, now, nowEpoch, queryHash, results, metadata));
      if !putSucceeds {
        return Err(ServiceError("dynamodb"));
      }
      table := table[(query, now) := item];
      r := Ok(SearchConfirmation(query, now, queryHash, |results|));
    }

    /**
     * `store_llm_analysis`: the metrics (which raise on a result that is
     * not a dictionary or a relevance that is not a number), then the
     * update of six attributes on (query, timestamp); nothing else in the
     * table changes.
     */
    method StoreLlmAnalysis(c: Codec, now: string, duration: real, query: string, timestamp: string,
                            processed: seq<Json>, updateSucceeds: bool)
      returns (r: Result<AnalysisConfirmation>)
      modifies this
      ensures r.Ok? <==> MetricsOf(processed, duration).Ok? && updateSucceeds
      ensures r.Ok? ==>
        var m := MetricsOf(processed, duration).value;
        r.value == AnalysisConfirmation(query, timestamp, |processed|, m.averageRelevance) &&
        table == old(table)[(query, timestamp) :=
          Updated(BaseItem(old(table), (query, timestamp)), ToDecimal(c, JList(processed)), now, ToDecimal(c, MetricsJson(m)))]
      ensures r.Err? ==> table == old(table)
    {
      var metrics := MetricsOf(processed, duration);
      if metrics.Err? {
        return Err(metrics.error);
      }
      if !updateSucceeds {
        return Err(ServiceError("dynamodb"));
      }
      var key := (query, timestamp);
      table := table[key := Updated(BaseItem(table, key), ToDecimal(c, JList(processed)), now, ToDecimal(c, MetricsJson(metrics.value)))];
      r := Ok(AnalysisConfirmation(query, timestamp, |processed|, metrics.value.averageRelevance));
    }

    /**
     * `search_by_keywords`, with the keyword filter's name behind a
     * placeholder (CorrectedScansAnswer): one scan per keyword, then the first item of
     * each key, then the order and the limit. It reads the scans, not the
     * table, and changes nothing.
     */
    method SearchByKeywords(c: Codec, keywords: seq<string>, limit: int, scan: (string, int) -> Result<seq<Item>>)
      returns (r: Result<seq<Item>>)
      ensures r == SearchByKeywordsSpec(c, keywords, limit, scan)
    {
      var results := GatherScans(keywords, limit, scan);
      if results.Err? {
        return Err(results.error);
      }
      var unique := KeepFirstOfEachKey(c, results.value);
      r := Ordered(unique, limit);
    }

    /**
     * `cleanup_expired_records` over the one page the scan returned: the
     * items of that page, all expired by the filter, are deleted and
     * counted, and nothing else changes. A failed scan raises before
     * anything is deleted. The scan is the one whose names go through
     * placeholders (CorrectedScansAnswer); as written it always raises
     * (AsWrittenScansRaise).
     */
    method CleanupExpiredRecords(now: int, page: Result<set<Key>>) returns (r: Result<nat>)
      requires page.Ok? ==> page.value <= ExpiredKeys(table, now)
      modifies this
      ensures page.Err? ==> r.Err? && table == old(table)
      ensures page.Ok? ==> r == Ok(|page.value|) && table == old(table) - page.value
    {
      if page.Err? {
        return Err(page.error);
      }
      var deleted := DeleteKeys(page.value);
      r := Ok(deleted);
    }

    /** The delete loop of the clean-up: one `delete_item` per key, counting the deletions. */
    method DeleteKeys(keys: set<Key>) returns (deleted: nat)
      modifies this
      ensures table == old(table) - keys && deleted == |keys|
    {
      var remaining := keys;
      ghost var gone: set<Key> := {};
      deleted := 0;
      while remaining != {}
        invariant gone + remaining == keys && gone !! remaining
        invariant table == old(table) - gone
        invariant deleted == |gone|
        decreases |remaining|
      {
        var k :| k in remaining;
        assert table - {k} == old(table) - (gone + {k}) by {
          MapMinusStep(old(table), gone, k);
        }
        table := table - {k};
        remaining := remaining - {k};
        gone := gone + {k};
        deleted := deleted + 1;
      }
      assert gone == keys;
    }
  }

  lemma MapMinusStep(m: map<Key, Item>, gone: set<Key>, k: Key)
    ensures m - (gone + {k}) == (m - gone) - {k}
  {
  }

  /** The loop of `search_by_keywords` that extends `results` with each scan. */
  method GatherScans(keywords: seq<string>, limit: int, scan: (string, int) -> Result<seq<Item>>)
    returns (r: Result<seq<Item>>)
    ensures r == Gathered(keywords, limit, scan)
  {
    var results: seq<Item> := [];
    var i := 0;
    while i < |keywords|
      invariant 0 <= i <= |keywords|
      invariant Gathered(keywords[..i], limit, scan) == Ok(results)
    {
      assert keywords[..i + 1][..i] == keywords[..i];
      var found := scan(Lower(keywords[i]), limit);
      if found.Err? {
        GatheredStaysErr(keywords, i + 1, limit, scan);
        return Err(found.error);
      }
      results := results + found.value;
      i := i + 1;
    }
    assert keywords[..i] == keywords;
    r := Ok(results);
  }

  lemma KeysOfSnoc(items: seq<Item>, j: nat)
    requires j < |items|
    ensures KeysOf(items[..j + 1]) == KeysOf(items[..j]) + {KeyOf(items[j])}
  {
    var prefix := items[..j];
    var longer := items[..j + 1];
    forall key | key in KeysOf(longer) ensures key in KeysOf(prefix) + {KeyOf(items[j])} {
      var k :| 0 <= k < j + 1 && KeyOf(longer[k]) == key;
      if k < j {
        assert longer[k] == prefix[k];
      }
    }
    forall key | key in KeysOf(prefix) ensures key in KeysOf(longer) {
      var k :| 0 <= k < j && KeyOf(prefix[k]) == key;
      assert longer[k] == prefix[k];
    }
    assert KeyOf(longer[j]) in KeysOf(longer);
  }

  /** The loop of `search_by_keywords` with the `seen` set: the first item of each key, converted back to floats. */
  method KeepFirstOfEachKey(c: Codec, results: seq<Item>) returns (unique: seq<Item>)
    ensures unique == Unique(c, results)
  {
    var seen: set<(Json, Json)> := {};
    unique := [];
    var j := 0;
    while j < |results|
      invariant 0 <= j <= |results|
      invariant seen == KeysOf(results[..j])
      invariant unique == Unique(c, results[..j])
    {
      assert results[..j + 1][..j] == results[..j];
      KeysOfSnoc(results, j);
      var key := KeyOf(results[j]);
      if key !in seen {
        seen := seen + {key};
        unique := unique + [ToFloatItem(c, results[j])];
      }
      j := j + 1;
    }
    assert results[..j] == results;
  }

  lemma {:induction false} GatheredStaysErr(keywords: seq<string>, i: nat, limit: int, scan: (string, int) -> Result<seq<Item>>)
    requires 0 < i <= |keywords|
    requires Gathered(keywords[..i], limit, scan).Err?
    ensures Gathered(keywords, limit, scan) == Err(Gathered(keywords[..i], limit, scan).error)
    decreases |keywords| - i
  {
    if i < |keywords| {
      assert keywords[..i + 1][..i] == keywords[..i];
      GatheredStaysErr(keywords, i + 1, limit, scan);
    } else {
      assert keywords[..i] == keywords;
    }
  }
}
