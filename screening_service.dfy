/**
 * The entity-screening Lambda (src/lambda/lambda_entity_screening_service.py):
 * validates the entity name, fans the keyword queries of each screening
 * category out to the search API, gathers the hits of the queries that
 * succeeded per category, stores the non-empty categories and hands all
 * hits to the LLM topic. The search API, the secret store, DynamoDB and
 * the iteration order of the keyword sets are parameters.
 */
module ScreeningService {
  import opened Wrappers
  import opened Strings
  import opened JsonValue
  import opened Security
  import opened Keywords
  import opened Seqs
  import opened Positions
  import DataService

  /** One shaped search hit, as `perform_single_search` builds it. */
  datatype Hit = Hit(title: string, url: string, snippet: string, position: nat, searchQuery: string)

  function HitJson(h: Hit): Json
  {
    JObject(map["title" := JStr(h.title), "url" := JStr(h.url), "snippet" := JStr(h.snippet),
                "position" := JInt(h.position), "search_query" := JStr(h.searchQuery)])
  }

  function HitsJson(hs: seq<Hit>): (j: Json)
    ensures j.JList? && |j.items| == |hs|
  {
    JList(seq(|hs|, i requires 0 <= i < |hs| => HitJson(hs[i])))
  }

  /** The screening results: the hits of each category, in dictionary order. */
  type Screening = seq<(string, seq<Hit>)>

  /**
   * What the service talks to: the API key from the secret store, the
   * search API (key, query, count) answering with its decoded body or
   * failing, `str` of a non-string, the keyword catalog a fresh
   * `EntityScreeningKeywords` holds and the iteration order of its two
   * sets, `store_search_results`, the clock.
   */
  datatype Env = Env(
    apiKey: Result<string>,
    catalog: Catalog,
    search: (string, string, nat) -> Result<Json>,
    render: Json -> string,
    financialOrder: seq<string>,
    corruptionOrder: seq<string>,
    store: (string, Json) -> Result<DataService.SearchConfirmation>,
    now: string,
    elapsed: real)

  // ---------------------------------------------------------------------
  // perform_single_search
  // ---------------------------------------------------------------------

  /** The search API is never asked for more than ten hits. */
  const MaxPerRequest: nat := 10

  function Min(a: nat, b: nat): nat
  {
    if a <= b then a else b
  }

  /** One organic result at 1-based `position`: title, link and snippet cut to 200, 500 and 500 characters. */
  function ShapeHit(render: Json -> string, query: string, result: Json, position: nat): Result<Hit>
  {
    if !result.JObject? then Err(AttributeError("get"))
    else
      Ok(Hit(PyTake(Str(render, Get(result.fields, "title", JStr(""))), 200),
             PyTake(Str(render, Get(result.fields, "link", JStr(""))), 500),
             PyTake(Str(render, Get(result.fields, "snippet", JStr(""))), 500),
             position, query))
  }

  /** `ShapeHit` for one query, as the per-result step of the loop. */
  function ShapeAt(render: Json -> string, query: string): (Json, nat) -> Result<Hit>
  {
    (result: Json, position: nat) => ShapeHit(render, query, result, position)
  }

  /** The shaped hits of a list of organic results, one per result at its 1-based position. */
  function Shaped(render: Json -> string, query: string, organic: seq<Json>): Result<seq<Hit>>
  {
    MapPositions(ShapeAt(render, query), organic)
  }

  /**
   * Shaping succeeds exactly when every organic result is a dictionary;
   * then hit `i` is at position `i + 1`, carries the query that found it,
   * and its title, URL and snippet are leading parts of the result's own,
   * at most 200, 500 and 500 characters long.
   */
  lemma ShapedMeaning(render: Json -> string, query: string, organic: seq<Json>)
    ensures Shaped(render, query, organic).Ok? <==> forall i :: 0 <= i < |organic| ==> organic[i].JObject?
    ensures Shaped(render, query, organic).Ok? ==>
      var hits := Shaped(render, query, organic).value;
      |hits| == |organic| &&
      forall i :: 0 <= i < |hits| ==>
        hits[i].position == i + 1 && hits[i].searchQuery == query &&
        |hits[i].title| <= 200 && |hits[i].url| <= 500 && |hits[i].snippet| <= 500 &&
        hits[i].title <= Str(render, Get(organic[i].fields, "title", JStr(""))) &&
        hits[i].url <= Str(render, Get(organic[i].fields, "link", JStr(""))) &&
        hits[i].snippet <= Str(render, Get(organic[i].fields, "snippet", JStr("")))
  {
    MapPositionsOk(ShapeAt(render, query), organic);
    if Shaped(render, query, organic).Ok? {
      forall i | 0 <= i < |organic| {
        MapPositionsAt(ShapeAt(render, query), organic, i);
      }
    }
  }

  /** `perform_single_search`: ask for at most ten hits; any failure of the API or of the shaping is an error. */
  function SingleSearch(env: Env, apiKey: string, query: string, num: nat): Result<seq<Hit>>
  {
    match env.search(apiKey, query, Min(num, MaxPerRequest))
    case Err(_) => Err(ServiceError("search"))
    case Ok(data) =>
      if !data.JObject? then Err(AttributeError("get"))
      else
        match Iterate(Get(data.fields, "organic", JList([])))
        case Err(e) => Err(e)
        case Ok(organic) => Shaped(env.render, query, organic)
  }

  /** The loop of `perform_single_search`, enumerating the organic results. */
  method PerformSingleSearch(env: Env, apiKey: string, query: string, num: nat) returns (r: Result<seq<Hit>>)
    ensures r == SingleSearch(env, apiKey, query, num)
  {
    var response := env.search(apiKey, query, Min(num, MaxPerRequest));
    if response.Err? {
      return Err(ServiceError("search"));
    }
    var data := response.value;
    if !data.JObject? {
      return Err(AttributeError("get"));
    }
    var organic := Iterate(Get(data.fields, "organic", JList([])));
    if organic.Err? {
      return Err(organic.error);
    }
    var items := organic.value;
    var results: seq<Hit> := [];
    var idx := 0;
    while idx < |items|
      invariant 0 <= idx <= |items|
      invariant Shaped(env.render, query, items[..idx]) == Ok(results)
    {
      var hit := ShapeHit(env.render, query, items[idx], idx + 1);
      if hit.Err? {
        assert items[..idx + 1][..idx] == items[..idx];
        MapPositionsStaysErr(ShapeAt(env.render, query), items, idx + 1);
        return Err(hit.error);
      }
      MapPositionsSnoc(ShapeAt(env.render, query), items, idx, results, hit.value);
      results := results + [hit.value];
      idx := idx + 1;
    }
    assert items[..|items|] == items;
    r := Ok(results);
  }

  // ---------------------------------------------------------------------
  // One category: the hits of its successful queries
  // ---------------------------------------------------------------------

  /** The hits of every query that succeeded, concatenated in query order; a failing query adds nothing. */
  function Gathered(env: Env, apiKey: string, queries: seq<string>, num: nat): seq<Hit>
    decreases |queries|
  {
    if queries == [] then []
    else
      var before := Gathered(env, apiKey, queries[..|queries| - 1], num);
      match SingleSearch(env, apiKey, queries[|queries| - 1], num)
      case Ok(found) => before + found
      case Err(_) => before
  }

  /** Every gathered hit was found by one of the category's queries; when every query fails the category is empty. */
  lemma {:induction false} GatheredMeaning(env: Env, apiKey: string, queries: seq<string>, num: nat)
    ensures forall h :: h in Gathered(env, apiKey, queries, num) ==> h.searchQuery in queries
    ensures (forall q :: q in queries ==> SingleSearch(env, apiKey, q, num).Err?) ==> Gathered(env, apiKey, queries, num) == []
    decreases |queries|
  {
    if queries != [] {
      var init := queries[..|queries| - 1];
      var q := queries[|queries| - 1];
      GatheredMeaning(env, apiKey, init, num);
      assert forall x :: x in init ==> x in queries;
      match SingleSearch(env, apiKey, q, num)
      case Err(_) =>
      case Ok(found) =>
        ShapedQuery(env, apiKey, q, num);
    }
  }

  /** Every hit of one search carries that search's query. */
  lemma ShapedQuery(env: Env, apiKey: string, query: string, num: nat)
    ensures SingleSearch(env, apiKey, query, num).Ok? ==>
      forall h :: h in SingleSearch(env, apiKey, query, num).value ==> h.searchQuery == query
  {
    var response := env.search(apiKey, query, Min(num, MaxPerRequest));
    if response.Ok? && response.value.JObject? {
      var organic := Iterate(Get(response.value.fields, "organic", JList([])));
      if organic.Ok? {
        ShapedMeaning(env.render, query, organic.value);
      }
    }
  }

  /** The per-query loop of one category: extend with each success, skip each failure. */
  method GatherCategory(env: Env, apiKey: string, queries: seq<string>, num: nat) returns (hits: seq<Hit>)
    ensures hits == Gathered(env, apiKey, queries, num)
  {
    hits := [];
    var i := 0;
    while i < |queries|
      invariant 0 <= i <= |queries|
      invariant hits == Gathered(env, apiKey, queries[..i], num)
    {
      assert queries[..i + 1][..i] == queries[..i];
      var found := PerformSingleSearch(env, apiKey, queries[i], num);
      if found.Ok? {
        hits := hits + found.value;
      }
      i := i + 1;
    }
    assert queries[..|queries|] == queries;
  }

  // ---------------------------------------------------------------------
  // perform_comprehensive_screening
  // ---------------------------------------------------------------------

  /** Hits per query in comprehensive and in targeted screening. */
  const ComprehensivePerQuery: nat := 5
  const TargetedPerQuery: nat := 3

  /** The keyword category of a requested name: the three known names, case-insensitively; anything else screens against all keywords. */
  function TargetCategory(name: string): (c: Category)
    ensures ParseCategory(Lower(name)).Some? ==> c == ParseCategory(Lower(name)).value
    ensures ParseCategory(Lower(name)).None? ==> c == All
  {
    var n := Lower(name);
    if n == "financial_crimes" then FinancialCrimes
    else if n == "corruption_bribery" then CorruptionBribery
    else All
  }

  function KeysOf<V>(d: seq<(string, V)>): (ks: seq<string>)
    ensures |ks| == |d| && forall i :: 0 <= i < |d| ==> ks[i] == d[i].0
  {
    seq(|d|, i requires 0 <= i < |d| => d[i].0)
  }

  /** Where key `k` sits among the keys. */
  function Position(ks: seq<string>, k: string): (i: nat)
    requires k in ks
    ensures i < |ks| && ks[i] == k
  {
    if ks[0] == k then 0 else 1 + Position(ks[1..], k)
  }

  /**
   * `d[k] = v` on a dictionary: an existing key keeps its place and takes
   * the new value; a new key goes last; every other entry is untouched.
   */
  function Put<V>(d: seq<(string, V)>, k: string, v: V): (r: seq<(string, V)>)
    requires NoDuplicates(KeysOf(d))
    ensures KeysOf(r) == if k in KeysOf(d) then KeysOf(d) else KeysOf(d) + [k]
    ensures forall i :: 0 <= i < |r| ==> r[i] == if r[i].0 == k then (k, v) else d[i]
  {
    var ks := KeysOf(d);
    if k in ks then
      var p := Position(ks, k);
      var r := d[p := (k, v)];
      assert KeysOf(r) == ks;
      assert forall i :: 0 <= i < |r| && i != p ==> r[i] == d[i] && ks[i] != ks[p];
      r
    else
      var r := d + [(k, v)];
      assert KeysOf(r) == ks + [k];
      assert forall i :: 0 <= i < |d| ==> r[i] == d[i] && ks[i] != k;
      r
  }

  /** The dictionary that assignments `d[k] = v`, made in order from `{}`, leave behind. */
  function Assign<V>(pairs: seq<(string, V)>): (d: seq<(string, V)>)
    ensures KeysOf(d) == Dedup(KeysOf(pairs), {})
    decreases |pairs|
  {
    if pairs == [] then []
    else
      var init := pairs[..|pairs| - 1];
      var last := pairs[|pairs| - 1];
      assert KeysOf(pairs) == KeysOf(init) + [last.0];
      DedupSnoc(KeysOf(init), {}, last.0);
      Put(Assign(init), last.0, last.1)
  }

  /** One more assignment is one more `Put`. */
  lemma AssignSnoc<V>(pairs: seq<(string, V)>, p: (string, V))
    ensures NoDuplicates(KeysOf(Assign(pairs)))
    ensures Assign(pairs + [p]) == Put(Assign(pairs), p.0, p.1)
  {
    assert (pairs + [p])[..|pairs|] == pairs;
  }

  /** The value of the last assignment to `k`, if any. */
  function LastValue<V>(pairs: seq<(string, V)>, k: string): Option<V>
    decreases |pairs|
  {
    if pairs == [] then None
    else if pairs[|pairs| - 1].0 == k then Some(pairs[|pairs| - 1].1)
    else LastValue(pairs[..|pairs| - 1], k)
  }

  /** Each key of `d` holds the value of its last assignment in `pairs`. */
  predicate KeepsLast<V(==)>(pairs: seq<(string, V)>, d: seq<(string, V)>)
  {
    forall i :: 0 <= i < |d| ==> LastValue(pairs, d[i].0) == Some(d[i].1)
  }

  /** A later assignment to the same key overwrites: each key ends with its last value. */
  lemma {:induction false} AssignKeepsLast<V>(pairs: seq<(string, V)>)
    ensures KeepsLast(pairs, Assign(pairs))
    decreases |pairs|
  {
    if pairs != [] {
      var init := pairs[..|pairs| - 1];
      var last := pairs[|pairs| - 1];
      AssignKeepsLast(init);
      var before := Assign(init);
      var d := Assign(pairs);
      assert d == Put(before, last.0, last.1);
      forall i | 0 <= i < |d|
        ensures LastValue(pairs, d[i].0) == Some(d[i].1)
      {
        if d[i].0 != last.0 {
          assert KeysOf(d)[i] == d[i].0;
          assert i < |before| && d[i] == before[i];
          assert LastValue(init, before[i].0) == Some(before[i].1);
        }
      }
    }
  }

  /** A last value was assigned to its key. */
  lemma {:induction false} LastValueAssigned<V>(pairs: seq<(string, V)>, k: string)
    ensures LastValue(pairs, k).Some? ==> (k, LastValue(pairs, k).value) in pairs
    decreases |pairs|
  {
    if pairs != [] && pairs[|pairs| - 1].0 != k {
      LastValueAssigned(pairs[..|pairs| - 1], k);
    }
  }

  /** The hits of one targeted category name. */
  function CategoryHits(env: Env, apiKey: string, entityName: string, name: string, perCategory: int): seq<Hit>
    requires WellFormed(env.catalog) && !IsBlank(entityName)
  {
    Gathered(env, apiKey, GenerateQueries(env.catalog, entityName, TargetCategory(name), perCategory).value, TargetedPerQuery)
  }

  /** The assignments of targeted screening: each requested name with its category's hits. */
  function Requests(env: Env, apiKey: string, entityName: string, names: seq<string>, perCategory: int): (pairs: seq<(string, seq<Hit>)>)
    requires WellFormed(env.catalog) && !IsBlank(entityName)
    ensures KeysOf(pairs) == names
  {
    seq(|names|, i requires 0 <= i < |names| => (names[i], CategoryHits(env, apiKey, entityName, names[i], perCategory)))
  }

  /** The assignments for one more requested name. */
  lemma RequestsSnoc(env: Env, apiKey: string, entityName: string, names: seq<string>, i: nat, perCategory: int)
    requires WellFormed(env.catalog) && !IsBlank(entityName) && i < |names|
    ensures Requests(env, apiKey, entityName, names[..i + 1], perCategory) ==
      Requests(env, apiKey, entityName, names[..i], perCategory) + [(names[i], CategoryHits(env, apiKey, entityName, names[i], perCategory))]
  {
    var longer := Requests(env, apiKey, entityName, names[..i + 1], perCategory);
    var extended := Requests(env, apiKey, entityName, names[..i], perCategory) + [(names[i], CategoryHits(env, apiKey, entityName, names[i], perCategory))];
    assert |longer| == i + 1 == |extended|;
    forall j | 0 <= j <= i
      ensures longer[j] == extended[j]
    {
      if j < i {
        assert names[..i + 1][j] == names[..i][j];
      } else {
        assert names[..i + 1][j] == names[i];
      }
    }
  }

  /** Targeted screening: one entry per distinct requested name, in order of first request. */
  function Targeted(env: Env, apiKey: string, entityName: string, names: seq<string>, perCategory: int): (s: Screening)
    requires WellFormed(env.catalog) && !IsBlank(entityName)
    ensures KeysOf(s) == Dedup(names, {})
  {
    Assign(Requests(env, apiKey, entityName, names, perCategory))
  }

  /**
   * Targeted screening has one entry per distinct requested name, and
   * each holds the hits of that name's category.
   */
  lemma TargetedMeaning(env: Env, apiKey: string, entityName: string, names: seq<string>, perCategory: int)
    requires WellFormed(env.catalog) && !IsBlank(entityName)
    ensures var s := Targeted(env, apiKey, entityName, names, perCategory);
      NoDuplicates(KeysOf(s)) && (forall n :: n in KeysOf(s) <==> n in names) &&
      forall i :: 0 <= i < |s| ==> s[i].1 == CategoryHits(env, apiKey, entityName, s[i].0, perCategory)
  {
    var pairs := Requests(env, apiKey, entityName, names, perCategory);
    var s := Targeted(env, apiKey, entityName, names, perCategory);
    AssignKeepsLast(pairs);
    forall i | 0 <= i < |s|
      ensures s[i].1 == CategoryHits(env, apiKey, entityName, s[i].0, perCategory)
    {
      LastValueAssigned(pairs, s[i].0);
      var j :| 0 <= j < |pairs| && pairs[j] == (s[i].0, s[i].1);
    }
  }

  /** The three query lists of comprehensive screening over the built-in catalog. */
  function ComprehensiveQueries(env: Env, entityName: string, perCategory: int): (qs: seq<(string, seq<string>)>)
    requires WellFormed(env.catalog) && !IsBlank(entityName)
    ensures |qs| == 3 && qs[0].0 == "financial_crimes" && qs[1].0 == "corruption_bribery" && qs[2].0 == "mixed"
  {
    var picks := MixedPicks(env);
    [("financial_crimes", GenerateQueries(env.catalog, entityName, FinancialCrimes, perCategory).value),
     ("corruption_bribery", GenerateQueries(env.catalog, entityName, CorruptionBribery, perCategory).value),
     ("mixed", QuoteAll(entityName, picks[..MixedCount(|picks|, perCategory)]))]
  }

  /** Each category's query list gathered at `num` hits per query. */
  function GatherEach(env: Env, apiKey: string, qs: seq<(string, seq<string>)>, num: nat): (s: Screening)
    ensures KeysOf(s) == KeysOf(qs)
    ensures forall i :: 0 <= i < |qs| ==> s[i].1 == Gathered(env, apiKey, qs[i].1, num)
  {
    seq(|qs|, i requires 0 <= i < |qs| => (qs[i].0, Gathered(env, apiKey, qs[i].1, num)))
  }

  /** Comprehensive screening: the three query lists, five hits per query. */
  function Comprehensive(env: Env, apiKey: string, entityName: string, perCategory: int): (s: Screening)
    requires WellFormed(env.catalog) && !IsBlank(entityName)
    ensures |s| == 3 && s[0].0 == "financial_crimes" && s[1].0 == "corruption_bribery" && s[2].0 == "mixed"
  {
    var qs := ComprehensiveQueries(env, entityName, perCategory);
    var s := GatherEach(env, apiKey, qs, ComprehensivePerQuery);
    assert KeysOf(s)[0] == s[0].0 && KeysOf(s)[1] == s[1].0 && KeysOf(s)[2] == s[2].0;
    s
  }

  /** `queries_per_category` as the integer the generators slice with (a bool is an int in Python). */
  function IntOf(j: Json): Option<int>
  {
    match j
    case JInt(i) => Some(i)
    case JBool(b) => Some(if b then 1 else 0)
    case _ => None
  }

  /** The requested category names; `.lower()` raises on anything that is not a string. */
  function Names(categories: Json): (r: Result<seq<string>>)
    ensures categories.JList? && (forall i :: 0 <= i < |categories.items| ==> categories.items[i].JStr?) ==>
      r.Ok? && |r.value| == |categories.items|
  {
    match Iterate(categories)
    case Err(e) => Err(e)
    case Ok(items) =>
      if forall i :: 0 <= i < |items| ==> items[i].JStr? then Ok(seq(|items|, i requires 0 <= i < |items| => items[i].s))
      else Err(AttributeError("lower"))
  }

  /**
   * A bound that stands for Python's `[:None]`: at least three queries per
   * keyword of every category, so no keyword and no query is cut.
   */
  function NoCap(cat: Catalog): nat
    requires WellFormed(cat)
  {
    3 * (|KeywordsList(cat, FinancialCrimes)| + |KeywordsList(cat, CorruptionBribery)| + |KeywordsList(cat, All)|)
  }

  /** Every query the generator can make for a category: each variation of each keyword, first occurrences kept. */
  function AllQueries(cat: Catalog, entityName: string, category: Category): seq<string>
    requires WellFormed(cat)
  {
    var ks := KeywordsList(cat, category);
    if ks == [] then [Strip(entityName)] else Dedup(ExpandAll(Strip(entityName), ks), {})
  }

  /** With no cap the generator returns every de-duplicated variation of every keyword of the category. */
  lemma NoCapKeepsEveryQuery(cat: Catalog, entityName: string, category: Category)
    requires WellFormed(cat) && !IsBlank(entityName)
    ensures GenerateQueries(cat, entityName, category, NoCap(cat)) == Ok(AllQueries(cat, entityName, category))
  {
    var ks := KeywordsList(cat, category);
    var n := NoCap(cat);
    assert 3 * |ks| <= n;
    if ks != [] {
      assert PyTake(ks, n) == ks;
      var u := Dedup(ExpandAll(Strip(entityName), ks), {});
      assert |u| <= n;
      assert PyTake(u, n) == u;
    }
  }

  /** The keywords the mixed bucket would quote: up to three of each set, in iteration order. */
  function MixedPicks(env: Env): seq<string>
  {
    PyTake(env.financialOrder, 3) + PyTake(env.corruptionOrder, 3)
  }

  /**
   * `perform_comprehensive_screening`: a blank name, a count that is not
   * an integer or `None`, or a category name that is not a string raises
   * inside the outer try, and the screening is then empty. A `None` count
   * slices nothing away in the generators (`keywords[:None]`), so targeted
   * screening runs every query; in comprehensive mode the mixed bucket's
   * `len(mixed_queries) >= None` raises as soon as there is a keyword to mix.
   */
  function ScreeningOf(env: Env, apiKey: string, entityName: string, categories: Json, perCategory: Json, comprehensive: Json): Screening
    requires WellFormed(env.catalog)
  {
    if IsBlank(entityName) then []
    else if perCategory.JNull? then
      if Truthy(comprehensive) then
        if MixedPicks(env) != [] then [] else Comprehensive(env, apiKey, entityName, NoCap(env.catalog))
      else
        match Names(categories)
        case Err(_) => []
        case Ok(names) => Targeted(env, apiKey, entityName, names, NoCap(env.catalog))
    else
      match IntOf(perCategory)
      case None => []
      case Some(n) =>
        if Truthy(comprehensive) then Comprehensive(env, apiKey, entityName, n)
        else
          match Names(categories)
          case Err(_) => []
          case Ok(names) => Targeted(env, apiKey, entityName, names, n)
  }

  /**
   * A targeted request with a `None` count screens each requested name
   * with every query its category generates.
   */
  lemma NullCountRunsEveryQuery(env: Env, apiKey: string, entityName: string, categories: Json)
    requires WellFormed(env.catalog) && !IsBlank(entityName) && Names(categories).Ok?
    ensures var s := ScreeningOf(env, apiKey, entityName, categories, JNull, JBool(false));
      (forall n :: n in KeysOf(s) <==> n in Names(categories).value) &&
      forall i :: 0 <= i < |s| ==>
        s[i].1 == Gathered(env, apiKey, AllQueries(env.catalog, entityName, TargetCategory(s[i].0)), TargetedPerQuery)
  {
    var names := Names(categories).value;
    var s := Targeted(env, apiKey, entityName, names, NoCap(env.catalog));
    assert ScreeningOf(env, apiKey, entityName, categories, JNull, JBool(false)) == s;
    TargetedMeaning(env, apiKey, entityName, names, NoCap(env.catalog));
    forall i | 0 <= i < |s|
      ensures s[i].1 == Gathered(env, apiKey, AllQueries(env.catalog, entityName, TargetCategory(s[i].0)), TargetedPerQuery)
    {
      NoCapKeepsEveryQuery(env.catalog, entityName, TargetCategory(s[i].0));
    }
  }

  /** The category loop of comprehensive screening. */
  method ScreenEach(env: Env, apiKey: string, qs: seq<(string, seq<string>)>, num: nat) returns (s: Screening)
    ensures s == GatherEach(env, apiKey, qs, num)
  {
    s := [];
    var i := 0;
    while i < |qs|
      invariant 0 <= i <= |qs|
      invariant |s| == i && forall j :: 0 <= j < i ==> s[j] == (qs[j].0, Gathered(env, apiKey, qs[j].1, num))
    {
      var hits := GatherCategory(env, apiKey, qs[i].1, num);
      s := s + [(qs[i].0, hits)];
      i := i + 1;
    }
  }

  /** One targeted name: its category's queries from the catalog, gathered at three hits per query. */
  method ScreenName(env: Env, apiKey: string, catalog: KeywordCatalog, entityName: string, name: string, n: int)
    returns (hits: seq<Hit>)
    requires catalog.Valid() && catalog.keywords == env.catalog && !IsBlank(entityName)
    ensures hits == CategoryHits(env, apiKey, entityName, name, n)
  {
    var queries := catalog.GenerateEntitySearchQueries(entityName, TargetCategory(name), n);
    hits := GatherCategory(env, apiKey, queries.value, TargetedPerQuery);
  }

  /** The name loop of targeted screening: each name's queries from the catalog, gathered, then assigned. */
  method ScreenTargeted(env: Env, apiKey: string, catalog: KeywordCatalog, entityName: string, names: seq<string>, n: int)
    returns (s: Screening)
    requires catalog.Valid() && catalog.keywords == env.catalog && !IsBlank(entityName)
    ensures s == Targeted(env, apiKey, entityName, names, n)
  {
    s := [];
    ghost var pairs: seq<(string, seq<Hit>)> := [];
    var i := 0;
    while i < |names|
      invariant 0 <= i <= |names|
      invariant pairs == Requests(env, apiKey, entityName, names[..i], n)
      invariant s == Assign(pairs)
    {
      var hits := ScreenName(env, apiKey, catalog, entityName, names[i], n);
      assert NoDuplicates(KeysOf(s)) && Assign(pairs + [(names[i], hits)]) == Put(s, names[i], hits) by {
        AssignSnoc(pairs, (names[i], hits));
      }
      assert pairs + [(names[i], hits)] == Requests(env, apiKey, entityName, names[..i + 1], n) by {
        RequestsSnoc(env, apiKey, entityName, names, i, n);
      }
      s := Put(s, names[i], hits);
      pairs := pairs + [(names[i], hits)];
      i := i + 1;
    }
    assert names[..i] == names;
  }

  /** The comprehensive query lists, as the catalog generates them. */
  method ComprehensiveFrom(env: Env, catalog: KeywordCatalog, entityName: string, n: int)
    returns (queries: seq<(string, seq<string>)>)
    requires catalog.Valid() && catalog.keywords == env.catalog && !IsBlank(entityName)
    requires Enumerates(env.financialOrder, env.catalog[FinancialCrimes]) && Enumerates(env.corruptionOrder, env.catalog[CorruptionBribery])
    ensures queries == ComprehensiveQueries(env, entityName, n)
  {
    var generated := catalog.GenerateComprehensiveSearchQueries(entityName, n, env.financialOrder, env.corruptionOrder);
    queries := generated.value;
  }

  /** `perform_comprehensive_screening`: a fresh catalog, then the comprehensive or the targeted loop. */
  method PerformComprehensiveScreening(env: Env, apiKey: string, entityName: string, categories: Json,
                                       perCategory: Json, comprehensive: Json) returns (s: Screening)
    requires env.catalog == Builtin()
    requires Enumerates(env.financialOrder, env.catalog[FinancialCrimes]) && Enumerates(env.corruptionOrder, env.catalog[CorruptionBribery])
    ensures s == ScreeningOf(env, apiKey, entityName, categories, perCategory, comprehensive)
  {
    var catalog := new KeywordCatalog();
    assert catalog.keywords == env.catalog;
    if IsBlank(entityName) {
      return [];
    }
    var n: int;
    if perCategory.JNull? {
      if Truthy(comprehensive) && MixedPicks(env) != [] {
        return [];
      }
      n := NoCap(catalog.keywords);
    } else {
      var count := IntOf(perCategory);
      if count.None? {
        return [];
      }
      n := count.value;
    }
    if Truthy(comprehensive) {
      var queries := ComprehensiveFrom(env, catalog, entityName, n);
      s := ScreenEach(env, apiKey, queries, ComprehensivePerQuery);
      return s;
    }
    var names := Names(categories);
    if names.Err? {
      return [];
    }
    s := ScreenTargeted(env, apiKey, catalog, entityName, names.value, n);
  }

  // ---------------------------------------------------------------------
  // The summary and the storage loop
  // ---------------------------------------------------------------------

  /** `sum(len(results) for results in screening_results.values())`. */
  function TotalHits(s: Screening): nat
    decreases |s|
  {
    if s == [] then 0 else |s[0].1| + TotalHits(s[1..])
  }

  /** `categories_with_results`: the categories with at least one hit, in order. */
  function WithResults(s: Screening): (cs: seq<string>)
    ensures forall c :: c in cs <==> exists i :: 0 <= i < |s| && s[i].0 == c && s[i].1 != []
    decreases |s|
  {
    if s == [] then []
    else
      var rest := WithResults(s[1..]);
      assert forall i :: 0 < i < |s| ==> s[i] == s[1..][i - 1];
      if s[0].1 != [] then [s[0].0] + rest else rest
  }

  /** No hits at all exactly when no category has results. */
  lemma {:induction false} TotalHitsZero(s: Screening)
    ensures TotalHits(s) == 0 <==> WithResults(s) == []
    decreases |s|
  {
    if s != [] {
      TotalHitsZero(s[1..]);
    }
  }

  function StoreQuery(entityName: string, category: string): string
  {
    "Entity Screening: " + entityName + " - " + category
  }

  /**
   * The storage loop: each non-empty category is stored in order; the
   * first failure ends the loop (its try surrounds the whole loop), and
   * what was stored before it stays recorded. Each store first looks the
   * client IP up in the event, so when that raises nothing is stored.
   */
  function Stored(env: Env, clientIp: Result<Json>, entityName: string, s: Screening)
    : (r: seq<(string, DataService.SearchConfirmation)>)
    ensures clientIp.Err? ==> r == []
    decreases |s|
  {
    if s == [] then []
    else if s[0].1 == [] then Stored(env, clientIp, entityName, s[1..])
    else if clientIp.Err? then []
    else
      match env.store(StoreQuery(entityName, s[0].0), HitsJson(s[0].1))
      case Err(_) => []
      case Ok(confirmation) => [(s[0].0, confirmation)] + Stored(env, clientIp, entityName, s[1..])
  }

  /** Only categories with results are stored, and at most one record per category. */
  lemma {:induction false} StoredOnlyNonEmpty(env: Env, clientIp: Result<Json>, entityName: string, s: Screening)
    ensures forall c :: c in KeysOf(Stored(env, clientIp, entityName, s)) ==> c in WithResults(s)
    ensures |Stored(env, clientIp, entityName, s)| <= |WithResults(s)|
    decreases |s|
  {
    if s != [] {
      StoredOnlyNonEmpty(env, clientIp, entityName, s[1..]);
      var rest := Stored(env, clientIp, entityName, s[1..]);
      forall c | c in KeysOf(Stored(env, clientIp, entityName, s))
        ensures c in WithResults(s)
      {
        if c != s[0].0 || s[0].1 == [] {
          var k :| 0 <= k < |Stored(env, clientIp, entityName, s)| && KeysOf(Stored(env, clientIp, entityName, s))[k] == c;
          if s[0].1 != [] {
            assert k > 0 && KeysOf(rest)[k - 1] == c;
          }
          assert c in KeysOf(rest);
          assert c in WithResults(s[1..]);
          var i :| 0 <= i < |s[1..]| && s[1..][i].0 == c && s[1..][i].1 != [];
          assert s[i + 1].0 == c && s[i + 1].1 != [];
        } else {
          assert s[0].0 == c && s[0].1 != [];
        }
      }
    }
  }

  /** The storage loop as written. */
  method StoreScreening(env: Env, clientIp: Result<Json>, entityName: string, s: Screening)
    returns (stored: seq<(string, DataService.SearchConfirmation)>)
    ensures stored == Stored(env, clientIp, entityName, s)
  {
    stored := [];
    var i := 0;
    while i < |s|
      invariant 0 <= i <= |s|
      invariant stored + Stored(env, clientIp, entityName, s[i..]) == Stored(env, clientIp, entityName, s)
    {
      assert s[i..][1..] == s[i + 1..];
      if s[i].1 != [] {
        if clientIp.Err? {
          return;
        }
        var confirmation := env.store(StoreQuery(entityName, s[i].0), HitsJson(s[i].1));
        if confirmation.Err? {
          assert stored == Stored(env, clientIp, entityName, s);
          return;
        }
        stored := stored + [(s[i].0, confirmation.value)];
      }
      i := i + 1;
    }
  }

  // ---------------------------------------------------------------------
  // lambda_handler
  // ---------------------------------------------------------------------

  /** Every hit, category after category, for the LLM trigger. */
  function AllHits(s: Screening): (hs: seq<Hit>)
    decreases |s|
  {
    if s == [] then [] else s[0].1 + AllHits(s[1..])
  }

  /** The combined hits are exactly as many as the summary's total. */
  lemma {:induction false} AllHitsCount(s: Screening)
    ensures |AllHits(s)| == TotalHits(s)
    decreases |s|
  {
    if s != [] {
      AllHitsCount(s[1..]);
    }
  }

  /** The message `trigger_llm_processing` publishes. */
  function TriggerMessage(hits: seq<Hit>, entityName: string, now: string): (m: Json)
    ensures m.JObject? && m.fields.Keys == {"search_results", "query", "timestamp", "source", "screening_type", "results_count"}
    ensures m.fields["results_count"] == JInt(|hits|) && m.fields["search_results"] == HitsJson(hits)
  {
    JObject(map["search_results" := HitsJson(hits), "query" := JStr("Entity Screening: " + entityName),
                "timestamp" := JStr(now), "source" := JStr("lambda_entity_screening_service"),
                "screening_type" := JStr("comprehensive_entity_screening"), "results_count" := JInt(|hits|)])
  }

  function ScreeningJson(s: Screening): map<string, Json>
    decreases |s|
  {
    if s == [] then map[] else ScreeningJson(s[..|s| - 1])[s[|s| - 1].0 := HitsJson(s[|s| - 1].1)]
  }

  function StorageInfo(stored: seq<(string, DataService.SearchConfirmation)>): map<string, Json>
    decreases |stored|
  {
    if stored == [] then map[]
    else
      var last := stored[|stored| - 1];
      StorageInfo(stored[..|stored| - 1])[last.0 := JObject(map["query_hash" := JStr(last.1.queryHash), "timestamp" := JStr(last.1.timestamp)])]
  }

  function SummaryJson(s: Screening, elapsed: real): map<string, Json>
  {
    var cs := WithResults(s);
    map["total_categories_screened" := JInt(|s|), "total_results_found" := JInt(TotalHits(s)),
        "categories_with_results" := JList(seq(|cs|, i requires 0 <= i < |cs| => JStr(cs[i]))),
        "processing_time_seconds" := JFloat(elapsed)]
  }

  /** The 200 body; `storage_info` only when something was stored. */
  function SuccessBody(env: Env, entityName: string, s: Screening, stored: seq<(string, DataService.SearchConfirmation)>,
                       storedFlag: Json, llmFlag: Json): (b: map<string, Json>)
    ensures b.Keys == {"entity_name", "screening_results", "screening_summary", "timestamp", "stored_in_database",
                       "llm_processing_triggered"} + (if stored != [] then {"storage_info"} else {})
    ensures b["stored_in_database"] == storedFlag && b["llm_processing_triggered"] == llmFlag
    ensures "storage_info" in b <==> stored != []
  {
    var body := map["entity_name" := JStr(entityName), "screening_results" := JObject(ScreeningJson(s)),
                     "screening_summary" := JObject(SummaryJson(s, env.elapsed)), "timestamp" := JStr(env.now),
                     "stored_in_database" := storedFlag, "llm_processing_triggered" := llmFlag];
    if stored != [] then body["storage_info" := JObject(StorageInfo(stored))] else body
  }

  /** What one invocation did: its response, the screening, what it stored and what it published. */
  datatype Outcome = Outcome(response: Response, screening: Screening,
                             stored: seq<(string, DataService.SearchConfirmation)>, published: Option<Json>)

  function Failed(statusCode: int, message: string): (o: Outcome)
    ensures o.response.statusCode == statusCode && o.screening == [] && o.stored == [] && o.published == None
  {
    Outcome(CreateSecureResponse(statusCode, map["error" := JStr(message)], map[]), [], [], None)
  }

  /** The LLM trigger fires with a topic, LLM processing requested and at least one hit. */
  function Published(event: map<string, Json>, entityName: string, s: Screening, now: string): Option<Json>
  {
    if Truthy(Get(event, "process_with_llm", JBool(false))) && Truthy(Get(event, "callback_topic", JNull)) && AllHits(s) != []
    then Some(TriggerMessage(AllHits(s), entityName, now))
    else None
  }

  /** `lambda_handler` after validation: screen, store, trigger and answer 200. */
  function Screened(env: Env, event: map<string, Json>, entityName: string, apiKey: string): (o: Outcome)
    requires WellFormed(env.catalog)
    ensures o.response.statusCode == 200
  {
    var s := ScreeningOf(env, apiKey, entityName, Get(event, "screening_categories", JList([JStr("all")])),
                         Get(event, "queries_per_category", JInt(5)), Get(event, "comprehensive_screening", JBool(false)));
    var storeResults := Get(event, "store_results", JBool(true));
    var stored := if Truthy(storeResults) then Stored(env, SourceIp(event), entityName, s) else [];
    var storedFlag := And(storeResults, JBool(stored != []));
    var llmFlag := And(Get(event, "process_with_llm", JBool(false)), JBool(Get(event, "callback_topic", JNull) != JNull));
    Outcome(CreateSecureResponse(200, SuccessBody(env, entityName, s, stored, storedFlag, llmFlag), map[]),
            s, stored, Published(event, entityName, s, env.now))
  }

  /**
   * `lambda_handler`: a missing or blank entity name is 400 before any
   * search, as is one the validator rejects; a name that is not a string
   * fails with 500, as does a missing API key.
   */
  function Handle(env: Env, event: map<string, Json>): (o: Outcome)
    requires WellFormed(env.catalog)
    ensures var name := Get(event, "entity_name", JStr(""));
      name.JStr? && IsBlank(name.s) ==>
        o.response.statusCode == 400 && o.screening == [] && o.stored == [] && o.published == None
    ensures o.response.statusCode in {200, 400, 500}
  {
    var name := Get(event, "entity_name", JStr(""));
    if !name.JStr? then Failed(500, "Entity screening service error")
    else if Strip(name.s) == [] then Failed(400, "entity_name is required")
    else
      match ValidateSearchQuery(JStr(Strip(name.s)))
      case Err(e) => Failed(400, "Invalid entity name: " + Describe(e))
      case Ok(entityName) =>
        match env.apiKey
        case Err(_) => Failed(500, "Configuration error")
        case Ok(apiKey) => Screened(env, event, entityName, apiKey)
  }

  /** `lambda_handler` as written: validation, the screening, the storage loop and the trigger. */
  method LambdaHandler(env: Env, event: map<string, Json>) returns (o: Outcome)
    requires env.catalog == Builtin()
    requires Enumerates(env.financialOrder, env.catalog[FinancialCrimes]) && Enumerates(env.corruptionOrder, env.catalog[CorruptionBribery])
    ensures o == Handle(env, event)
  {
    var name := Get(event, "entity_name", JStr(""));
    if !name.JStr? {
      return Failed(500, "Entity screening service error");
    }
    var stripped := Strip(name.s);
    if stripped == [] {
      return Failed(400, "entity_name is required");
    }
    var validated := ValidateSearchQuery(JStr(stripped));
    if validated.Err? {
      return Failed(400, "Invalid entity name: " + Describe(validated.error));
    }
    var entityName := validated.value;
    if env.apiKey.Err? {
      return Failed(500, "Configuration error");
    }
    var s := PerformComprehensiveScreening(env, env.apiKey.value, entityName,
                                           Get(event, "screening_categories", JList([JStr("all")])),
                                           Get(event, "queries_per_category", JInt(5)),
                                           Get(event, "comprehensive_screening", JBool(false)));
    var storeResults := Get(event, "store_results", JBool(true));
    var stored := [];
    if Truthy(storeResults) {
      stored := StoreScreening(env, SourceIp(event), entityName, s);
    }
    var storedFlag := And(storeResults, JBool(stored != []));
    var llmFlag := And(Get(event, "process_with_llm", JBool(false)), JBool(Get(event, "callback_topic", JNull) != JNull));
    o := Outcome(CreateSecureResponse(200, SuccessBody(env, entityName, s, stored, storedFlag, llmFlag), map[]),
                 s, stored, Published(event, entityName, s, env.now));
  }

  /**
   * The response flags: `stored_in_database` is true exactly when storing
   * was asked for and some category was stored; `llm_processing_triggered`
   * is true exactly when LLM processing was asked for with a topic, even
   * when nothing was published; a publication implies the flag.
   */
  lemma ResponseFlags(env: Env, event: map<string, Json>, entityName: string, apiKey: string)
    requires WellFormed(env.catalog)
    ensures var o := Screened(env, event, entityName, apiKey);
      var b := o.response.body;
      o.response.statusCode == 200 && "stored_in_database" in b && "llm_processing_triggered" in b &&
      (b["stored_in_database"] == JBool(true) <==>
         Truthy(Get(event, "store_results", JBool(true))) && o.stored != []) &&
      (b["llm_processing_triggered"] == JBool(true) <==>
         Truthy(Get(event, "process_with_llm", JBool(false))) && Get(event, "callback_topic", JNull) != JNull) &&
      (o.published.Some? ==> b["llm_processing_triggered"] == JBool(true)) &&
      ("storage_info" in b <==> o.stored != [])
  {
    var o := Screened(env, event, entityName, apiKey);
    var storeResults := Get(event, "store_results", JBool(true));
    var llmFlag := And(Get(event, "process_with_llm", JBool(false)), JBool(Get(event, "callback_topic", JNull) != JNull));
    assert o.response.body == SuccessBody(env, entityName, o.screening, o.stored, And(storeResults, JBool(o.stored != [])), llmFlag);
  }

  /** What was stored is a subset of the categories with results, and the trigger carries every hit. */
  lemma ScreenedMeaning(env: Env, event: map<string, Json>, entityName: string, apiKey: string)
    requires WellFormed(env.catalog)
    ensures var o := Screened(env, event, entityName, apiKey);
      (forall c :: c in KeysOf(o.stored) ==> c in WithResults(o.screening)) &&
      (o.published.Some? ==> o.published.value.fields["results_count"] == JInt(TotalHits(o.screening)))
  {
    var o := Screened(env, event, entityName, apiKey);
    StoredOnlyNonEmpty(env, SourceIp(event), entityName, o.screening);
    AllHitsCount(o.screening);
  }
}
