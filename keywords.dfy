/**
 * The screening-keyword catalog: one mutable keyword set per screening
 * category, the query generators built on it, and the guarded
 * add/remove/import/export operations (src/shared/entity_screening_keywords.py).
 */
module Keywords {
  import opened Wrappers
  import opened Strings
  import opened Seqs

  /** ScreeningCategory; `All` is a pseudo-category that holds no set of its own. */
  datatype Category = FinancialCrimes | CorruptionBribery | All

  /** The enum's string value. */
  function CategoryValue(c: Category): string
  {
    match c
    case FinancialCrimes => "financial_crimes"
    case CorruptionBribery => "corruption_bribery"
    case All => "all"
  }

  /** `ScreeningCategory(name)`: the member whose value is `name`, or the ValueError the enum raises. */
  function ParseCategory(name: string): (r: Option<Category>)
    ensures r.Some? ==> CategoryValue(r.value) == name
    ensures forall c :: CategoryValue(c) == name ==> r == Some(c)
  {
    if name == "financial_crimes" then Some(FinancialCrimes)
    else if name == "corruption_bribery" then Some(CorruptionBribery)
    else if name == "all" then Some(All)
    else None
  }

  /** The catalog's state: the keyword set of each real category. */
  type Catalog = map<Category, set<string>>

  /** Exactly the two real categories have a set; `All` never does. */
  predicate WellFormed(cat: Catalog)
  {
    cat.Keys == {FinancialCrimes, CorruptionBribery}
  }

  const BuiltinFinancial: set<string> :=
    {"fraud", "scam", "Ponzi", "embezzlement", "insider trading",
     "accounting irregularities", "money laundering", "misappropriation",
     "kickbacks", "shell company"}

  const BuiltinCorruption: set<string> :=
    {"bribery", "corruption", "graft", "undue influence", "facilitation payment",
     "procurement fraud", "nepotism", "political donation scandal"}

  function Builtin(): (cat: Catalog)
    ensures WellFormed(cat)
  {
    map[FinancialCrimes := BuiltinFinancial, CorruptionBribery := BuiltinCorruption]
  }

  /** `get_keywords`: `All` is the union of every category's set; a real category is its own set. */
  function KeywordsOf(cat: Catalog, category: Category): (s: set<string>)
    requires WellFormed(cat)
    ensures forall k :: k in s <==>
      exists c :: c in cat && (category == All || category == c) && k in cat[c]
  {
    match category
    case All => cat[FinancialCrimes] + cat[CorruptionBribery]
    case FinancialCrimes => cat[FinancialCrimes]
    case CorruptionBribery => cat[CorruptionBribery]
  }

  /** `get_keywords_list`: the category's keywords, sorted and without repetition. */
  function KeywordsList(cat: Catalog, category: Category): (ks: seq<string>)
    requires WellFormed(cat)
    ensures StrictlySorted(ks)
    ensures forall k :: k in ks <==> k in KeywordsOf(cat, category)
  {
    SortedList(KeywordsOf(cat, category))
  }

  /** The three query variations built for one keyword, in emission order. */
  function Variants(e: string, k: string): seq<string>
  {
    ["\"" + e + "\" " + k, e + " " + k, e + " AND " + k]
  }

  /** The variations of every keyword, keyword by keyword. */
  function ExpandAll(e: string, ks: seq<string>): (qs: seq<string>)
    ensures |qs| == 3 * |ks|
  {
    if ks == [] then [] else Variants(e, ks[0]) + ExpandAll(e, ks[1..])
  }

  lemma {:induction false} ExpandAllSnoc(e: string, ks: seq<string>, k: string)
    ensures ExpandAll(e, ks + [k]) == ExpandAll(e, ks) + Variants(e, k)
  {
    if ks != [] {
      assert (ks + [k])[1..] == ks[1..] + [k];
      ExpandAllSnoc(e, ks[1..], k);
    }
  }

  /** A query of the expansion is a variation of one of the keywords, and every variation appears. */
  lemma {:induction false} ExpandAllMembers(e: string, ks: seq<string>, q: string)
    ensures q in ExpandAll(e, ks) <==> exists k :: k in ks && q in Variants(e, k)
  {
    if ks != [] {
      ExpandAllMembers(e, ks[1..], q);
      assert forall k :: k in ks <==> k == ks[0] || k in ks[1..];
    }
  }

  /** The queries for a stripped name and a sorted keyword list: the de-duplicated expansion, capped. */
  function QueriesFor(e: string, ks: seq<string>, maxQueries: int): seq<string>
  {
    if ks == [] then [e]
    else PyTake(Dedup(ExpandAll(e, PyTake(ks, maxQueries)), {}), maxQueries)
  }

  /** With at least one keyword and a positive bound, the first query is the quoted name with the first keyword. */
  lemma QueriesForFirst(e: string, ks: seq<string>, maxQueries: int)
    requires ks != [] && maxQueries >= 1
    ensures QueriesFor(e, ks, maxQueries) != [] && QueriesFor(e, ks, maxQueries)[0] == "\"" + e + "\" " + ks[0]
  {
    var expanded := ExpandAll(e, PyTake(ks, maxQueries));
    assert PyTake(ks, maxQueries)[0] == ks[0];
    assert expanded[0] == Variants(e, ks[0])[0];
    var u := Dedup(expanded, {});
    assert u[0] == expanded[0];
  }

  /** `generate_entity_search_queries` as a function of the catalog state. */
  function GenerateQueries(cat: Catalog, entityName: string, category: Category, maxQueries: int): Result<seq<string>>
    requires WellFormed(cat)
  {
    if IsBlank(entityName) then Err(ValueError("Entity name cannot be empty"))
    else Ok(QueriesFor(Strip(entityName), KeywordsList(cat, category), maxQueries))
  }

  /**
   * What the generator promises: a blank name is rejected; an empty
   * category gives just the stripped name; otherwise the queries are
   * distinct, at most `maxQueries` of them, and each is a variation of
   * the stripped name with one of the first `maxQueries` sorted keywords.
   */
  lemma GenerateQueriesMeaning(cat: Catalog, entityName: string, category: Category, maxQueries: int)
    requires WellFormed(cat)
    ensures GenerateQueries(cat, entityName, category, maxQueries).Err? <==> IsBlank(entityName)
    ensures var r := GenerateQueries(cat, entityName, category, maxQueries);
      var ks := KeywordsList(cat, category);
      r.Ok? ==>
        (ks == [] ==> r.value == [Strip(entityName)]) &&
        (ks != [] ==>
          NoDuplicates(r.value) &&
          (0 <= maxQueries ==> |r.value| <= maxQueries) &&
          forall q :: q in r.value ==>
            exists k :: k in PyTake(ks, maxQueries) && q in Variants(Strip(entityName), k))
  {
    var r := GenerateQueries(cat, entityName, category, maxQueries);
    var ks := KeywordsList(cat, category);
    if r.Ok? && ks != [] {
      var e := Strip(entityName);
      var chosen := PyTake(ks, maxQueries);
      var u := Dedup(ExpandAll(e, chosen), {});
      var qs := PyTake(u, maxQueries);
      assert qs == r.value;
      assert qs == u[..|qs|];
      forall q | q in qs ensures exists k :: k in chosen && q in Variants(e, k) {
        assert q in u;
        ExpandAllMembers(e, chosen, q);
      }
      assert NoDuplicates(qs) by {
        forall i, j | 0 <= i < j < |qs| ensures qs[i] != qs[j] {
          assert qs[i] == u[i] && qs[j] == u[j];
        }
      }
    }
  }

  /** Both lists of the mixed bucket are built with the unstripped name. */
  function Quoted(entityName: string, k: string): string
  {
    "\"" + entityName + "\" " + k
  }

  function QuoteAll(entityName: string, ks: seq<string>): (qs: seq<string>)
    ensures |qs| == |ks|
    ensures forall i :: 0 <= i < |ks| ==> qs[i] == Quoted(entityName, ks[i])
  {
    seq(|ks|, i requires 0 <= i < |ks| => Quoted(entityName, ks[i]))
  }

  /** How many entries the mixed loop appends before it stops: none for no keywords, else at least one and at most the cap. */
  function MixedCount(n: nat, queriesPerCategory: int): (m: nat)
    ensures m <= n
  {
    if n == 0 then 0
    else if queriesPerCategory <= 1 then 1
    else if queriesPerCategory < n then queriesPerCategory
    else n
  }

  /** `order` lists the elements of `s`, each once: one possible iteration order of a Python set. */
  ghost predicate Enumerates(order: seq<string>, s: set<string>)
  {
    NoDuplicates(order) && forall k :: k in order <==> k in s
  }

  /** Bounds of the mixed bucket: at most six entries, at most max(1, queries_per_category), each a quoted keyword of its categories. */
  lemma MixedMeaning(entityName: string, fin: set<string>, corr: set<string>, finOrder: seq<string>, corrOrder: seq<string>, queriesPerCategory: int)
    requires Enumerates(finOrder, fin) && Enumerates(corrOrder, corr)
    ensures var picks := PyTake(finOrder, 3) + PyTake(corrOrder, 3);
      var mixed := QuoteAll(entityName, picks[..MixedCount(|picks|, queriesPerCategory)]);
      |mixed| <= 6 &&
      |mixed| <= (if queriesPerCategory < 1 then 1 else queriesPerCategory) &&
      (fin + corr == {} <==> mixed == []) &&
      forall q :: q in mixed ==> exists k :: (k in fin || k in corr) && q == Quoted(entityName, k)
  {
    var picks := PyTake(finOrder, 3) + PyTake(corrOrder, 3);
    var n := MixedCount(|picks|, queriesPerCategory);
    var mixed := QuoteAll(entityName, picks[..n]);
    forall q | q in mixed ensures exists k :: (k in fin || k in corr) && q == Quoted(entityName, k) {
      var i :| 0 <= i < |mixed| && mixed[i] == q;
      var k := picks[i];
      if i < |PyTake(finOrder, 3)| {
        assert k == finOrder[i];
      } else {
        assert k == corrOrder[i - |PyTake(finOrder, 3)|];
      }
    }
    assert finOrder != [] ==> finOrder[0] in fin;
    assert corrOrder != [] ==> corrOrder[0] in corr;
    if fin + corr != {} {
      var k :| k in fin + corr;
      if k in fin {
        assert finOrder != [];
      } else {
        assert corrOrder != [];
      }
    }
  }

  /** `export_keywords`: each category's value with its sorted keyword list, in catalog order. */
  function Export(cat: Catalog): (data: seq<(string, seq<string>)>)
    requires WellFormed(cat)
    ensures |data| == 2
    ensures data[0].0 == "financial_crimes" && data[1].0 == "corruption_bribery"
    ensures forall i :: 0 <= i < 2 ==> StrictlySorted(data[i].1)
  {
    [(CategoryValue(FinancialCrimes), SortedList(cat[FinancialCrimes])),
     (CategoryValue(CorruptionBribery), SortedList(cat[CorruptionBribery]))]
  }

  function ElementsOf(list: seq<string>): (s: set<string>)
    ensures forall k :: k in s <==> k in list
  {
    set k | k in list
  }

  /** One entry of `import_keywords`: a named real category gets the listed set; `all` and unknown names change nothing. */
  function ImportEntry(cat: Catalog, name: string, list: seq<string>): Catalog
  {
    match ParseCategory(name)
    case Some(c) => if c != All then cat[c := ElementsOf(list)] else cat
    case None => cat
  }

  /** `import_keywords` over the entries of the dictionary in order. */
  function ImportAll(cat: Catalog, data: seq<(string, seq<string>)>): Catalog
  {
    if data == [] then cat
    else
      var last := data[|data| - 1];
      ImportEntry(ImportAll(cat, data[..|data| - 1]), last.0, last.1)
  }

  /** Import never creates a set for `All`, and it leaves untouched every category no entry names. */
  lemma {:induction false} ImportPreserves(cat: Catalog, data: seq<(string, seq<string>)>)
    requires WellFormed(cat)
    ensures WellFormed(ImportAll(cat, data))
    ensures forall c :: c in cat && (forall i :: 0 <= i < |data| ==> ParseCategory(data[i].0) != Some(c)) ==>
      ImportAll(cat, data)[c] == cat[c]
  {
    if data != [] {
      var front := data[..|data| - 1];
      ImportPreserves(cat, front);
      forall c | c in cat && (forall i :: 0 <= i < |data| ==> ParseCategory(data[i].0) != Some(c))
        ensures ImportAll(cat, data)[c] == cat[c]
      {
        assert forall i :: 0 <= i < |front| ==> front[i] == data[i];
        assert ParseCategory(data[|data| - 1].0) != Some(c);
      }
    }
  }

  /** Importing an export restores the catalog exactly. */
  lemma ImportExportRoundTrip(cat: Catalog)
    requires WellFormed(cat)
    ensures ImportAll(cat, Export(cat)) == cat
  {
    var data := Export(cat);
    var fin, corr := cat[FinancialCrimes], cat[CorruptionBribery];
    assert data[..1][..0] == [];
    assert ImportAll(cat, data[..1][..0]) == cat;
    assert ParseCategory(data[0].0) == Some(FinancialCrimes);
    assert ElementsOf(data[0].1) == fin;
    var once := ImportAll(cat, data[..1]);
    assert once == ImportEntry(cat, data[0].0, data[0].1);
    assert once == cat[FinancialCrimes := fin];
    assert once == cat;
    assert data[..|data| - 1] == data[..1];
    assert ParseCategory(data[1].0) == Some(CorruptionBribery);
    assert ElementsOf(data[1].1) == corr;
    assert ImportAll(cat, data) == ImportEntry(cat, data[1].0, data[1].1);
    assert ImportAll(cat, data) == cat[CorruptionBribery := corr];
  }

  /** `get_keyword_statistics`: per-category sizes in catalog order, then the size of the union. */
  function Statistics(cat: Catalog): (stats: seq<(string, int)>)
    requires WellFormed(cat)
    ensures |stats| == 3
    ensures stats[0] == ("financial_crimes", |cat[FinancialCrimes]|)
    ensures stats[1] == ("corruption_bribery", |cat[CorruptionBribery]|)
    ensures stats[2].0 == "total" && stats[2].1 == |KeywordsOf(cat, All)|
  {
    [(CategoryValue(FinancialCrimes), |cat[FinancialCrimes]|),
     (CategoryValue(CorruptionBribery), |cat[CorruptionBribery]|),
     ("total", |KeywordsOf(cat, All)|)]
  }

  /** The total never exceeds the sum of the category sizes and is at least each of them. */
  lemma StatisticsTotalBounds(cat: Catalog)
    requires WellFormed(cat)
    ensures var s := Statistics(cat);
      s[0].1 <= s[2].1 && s[1].1 <= s[2].1 && s[2].1 <= s[0].1 + s[1].1
  {
    var a, b := cat[FinancialCrimes], cat[CorruptionBribery];
    assert a + b == a + (b - a);
    assert |a + b| == |a| + |b - a|;
    assert b == (b - a) + (b * a);
    assert |b| == |b - a| + |b * a|;
    assert |a + b| == |b| + |a - b| by {
      assert a + b == b + (a - b);
    }
  }

  lemma BuiltinFinancialSize()
    ensures |BuiltinFinancial| == 10
  {
    var first: set<string> := {"fraud", "scam", "Ponzi", "embezzlement", "insider trading"};
    var second: set<string> := {"accounting irregularities", "money laundering", "misappropriation",
                                "kickbacks", "shell company"};
    assert |first| == 5;
    assert |second| == 5;
    forall k | k in first ensures k !in second {
    }
    assert first * second == {};
    assert BuiltinFinancial == first + second;
    assert |first + second| == 10;
  }

  lemma BuiltinCorruptionSize()
    ensures |BuiltinCorruption| == 8
  {
    var first: set<string> := {"bribery", "corruption", "graft", "undue influence"};
    var second: set<string> := {"facilitation payment", "procurement fraud", "nepotism", "political donation scandal"};
    assert |first| == 4;
    assert |second| == 4;
    forall k | k in first ensures k !in second {
    }
    assert first * second == {};
    assert BuiltinCorruption == first + second;
    assert |first + second| == 8;
  }

  lemma BuiltinDisjoint()
    ensures BuiltinFinancial * BuiltinCorruption == {}
  {
    forall k | k in BuiltinFinancial ensures k !in BuiltinCorruption {
    }
  }

  /** The built-in table has 10 financial-crime and 8 corruption keywords, 18 in all. */
  lemma BuiltinStatistics()
    ensures Statistics(Builtin()) == [("financial_crimes", 10), ("corruption_bribery", 8), ("total", 18)]
  {
    var cat := Builtin();
    assert |cat[FinancialCrimes]| == 10 by {
      BuiltinFinancialSize();
    }
    assert |cat[CorruptionBribery]| == 8 by {
      BuiltinCorruptionSize();
    }
    assert |KeywordsOf(cat, All)| == 18 by {
      BuiltinFinancialSize();
      BuiltinCorruptionSize();
      BuiltinDisjoint();
      DisjointUnionSize(BuiltinFinancial, BuiltinCorruption);
    }
  }

  lemma DisjointUnionSize<T>(a: set<T>, b: set<T>)
    requires a * b == {}
    ensures |a + b| == |a| + |b|
  {
    assert |a * b| == 0;
  }

  /** The generator's first loop: the three variations of each keyword, keyword by keyword. */
  method ExpandQueries(e: string, chosen: seq<string>) returns (queries: seq<string>)
    ensures queries == ExpandAll(e, chosen)
  {
    queries := [];
    var i := 0;
    while i < |chosen|
      invariant 0 <= i <= |chosen|
      invariant queries == ExpandAll(e, chosen[..i])
    {
      ExpandAllSnoc(e, chosen[..i], chosen[i]);
      assert chosen[..i + 1] == chosen[..i] + [chosen[i]];
      queries := queries + Variants(e, chosen[i]);
      i := i + 1;
    }
    assert chosen[..i] == chosen;
  }

  /** The generator's second loop: a `seen` set and a list that receives each query the first time it appears. */
  method KeepFirstOccurrences(queries: seq<string>) returns (unique: seq<string>)
    ensures unique == Dedup(queries, {})
  {
    var seen: set<string> := {};
    unique := [];
    var j := 0;
    while j < |queries|
      invariant 0 <= j <= |queries|
      invariant unique == Dedup(queries[..j], {})
      invariant forall q :: q in seen <==> q in queries[..j]
    {
      var q := queries[j];
      DedupSnoc(queries[..j], {}, q);
      assert queries[..j + 1] == queries[..j] + [q];
      if q !in seen {
        seen := seen + {q};
        unique := unique + [q];
      }
      j := j + 1;
    }
    assert queries[..j] == queries;
  }

  /** The mixed-bucket loop: one quoted query per picked keyword, stopping once the list reaches `queriesPerCategory`. */
  method MixedQueries(entityName: string, picks: seq<string>, queriesPerCategory: int) returns (mixed: seq<string>)
    ensures mixed == QuoteAll(entityName, picks[..MixedCount(|picks|, queriesPerCategory)])
  {
    mixed := [];
    var i := 0;
    while i < |picks|
      invariant 0 <= i <= |picks|
      invariant i <= MixedCount(|picks|, queriesPerCategory)
      invariant i == 0 || i < queriesPerCategory
      invariant mixed == QuoteAll(entityName, picks[..i])
    {
      assert picks[..i + 1] == picks[..i] + [picks[i]];
      mixed := mixed + [Quoted(entityName, picks[i])];
      i := i + 1;
      if |mixed| >= queriesPerCategory {
        break;
      }
    }
    assert i == MixedCount(|picks|, queriesPerCategory);
  }

  /** EntityScreeningKeywords: the catalog, changed in place by add, remove and import. */
  class KeywordCatalog {
    var keywords: Catalog

    ghost predicate Valid()
      reads this
    {
      WellFormed(keywords)
    }

    constructor ()
      ensures Valid() && keywords == Builtin()
    {
      keywords := Builtin();
    }

    /** `generate_entity_search_queries`: expand keyword by keyword, keep first occurrences, then cap. */
    method GenerateEntitySearchQueries(entityName: string, category: Category, maxQueries: int)
      returns (r: Result<seq<string>>)
      requires Valid()
      ensures r == GenerateQueries(keywords, entityName, category, maxQueries)
    {
      if IsBlank(entityName) {
        return Err(ValueError("Entity name cannot be empty"));
      }
      var e := Strip(entityName);
      var ks := KeywordsList(keywords, category);
      if ks == [] {
        return Ok([e]);
      }
      var queries := ExpandQueries(e, PyTake(ks, maxQueries));
      var unique := KeepFirstOccurrences(queries);
      return Ok(PyTake(unique, maxQueries));
    }

    /**
     * `generate_comprehensive_search_queries`. `financialOrder` and
     * `corruptionOrder` are the iteration orders of the two sets, which
     * Python leaves unspecified; the mixed bucket takes the first three of each.
     */
    method GenerateComprehensiveSearchQueries(entityName: string, queriesPerCategory: int,
                                              financialOrder: seq<string>, corruptionOrder: seq<string>)
      returns (r: Result<seq<(string, seq<string>)>>)
      requires Valid()
      requires Enumerates(financialOrder, keywords[FinancialCrimes])
      requires Enumerates(corruptionOrder, keywords[CorruptionBribery])
      ensures r.Err? <==> IsBlank(entityName)
      ensures r.Ok? ==> (
        |r.value| == 3 &&
        r.value[0] == ("financial_crimes", GenerateQueries(keywords, entityName, FinancialCrimes, queriesPerCategory).value) &&
        r.value[1] == ("corruption_bribery", GenerateQueries(keywords, entityName, CorruptionBribery, queriesPerCategory).value) &&
        var picks := PyTake(financialOrder, 3) + PyTake(corruptionOrder, 3);
        r.value[2] == ("mixed", QuoteAll(entityName, picks[..MixedCount(|picks|, queriesPerCategory)])))
    {
      if IsBlank(entityName) {
        return Err(ValueError("Entity name cannot be empty"));
      }
      var fin := GenerateEntitySearchQueries(entityName, FinancialCrimes, queriesPerCategory);
      var corr := GenerateEntitySearchQueries(entityName, CorruptionBribery, queriesPerCategory);
      var picks := PyTake(financialOrder, 3) + PyTake(corruptionOrder, 3);
      var mixed := MixedQueries(entityName, picks, queriesPerCategory);
      return Ok([(CategoryValue(FinancialCrimes), fin.value),
                 (CategoryValue(CorruptionBribery), corr.value),
                 ("mixed", mixed)]);
    }

    /** `add_custom_keyword`: refuses `All`; stores the stripped, lower-cased keyword unless it is blank. */
    method AddCustomKeyword(keyword: string, category: Category) returns (r: Result<()>)
      requires Valid()
      modifies this
      ensures Valid()
      ensures r.Err? <==> category == All
      ensures keywords ==
        if category == All || IsBlank(keyword) then old(keywords)
        else old(keywords)[category := old(keywords)[category] + {Lower(Strip(keyword))}]
    {
      if category == All {
        return Err(ValueError("Cannot add keywords to 'ALL' category"));
      }
      if !IsBlank(keyword) {
        var k := Lower(Strip(keyword));
        keywords := keywords[category := keywords[category] + {k}];
      }
      return Ok(());
    }

    /** `remove_keyword`: refuses `All`; removes an exact match and otherwise changes nothing. */
    method RemoveKeyword(keyword: string, category: Category) returns (r: Result<()>)
      requires Valid()
      modifies this
      ensures Valid()
      ensures r.Err? <==> category == All
      ensures keywords ==
        if category == All then old(keywords)
        else old(keywords)[category := old(keywords)[category] - {keyword}]
    {
      if category == All {
        return Err(ValueError("Cannot remove keywords from 'ALL' category"));
      }
      if keyword in keywords[category] {
        keywords := keywords[category := keywords[category] - {keyword}];
      } else {
        assert keywords[category] - {keyword} == keywords[category];
        assert keywords[category := keywords[category] - {keyword}] == keywords;
      }
      return Ok(());
    }

    /** `import_keywords`: entry by entry, replacing the set of each named real category. */
    method ImportKeywords(data: seq<(string, seq<string>)>)
      requires Valid()
      modifies this
      ensures Valid()
      ensures keywords == ImportAll(old(keywords), data)
    {
      ImportPreserves(keywords, data);
      var i := 0;
      while i < |data|
        invariant 0 <= i <= |data|
        invariant keywords == ImportAll(old(keywords), data[..i])
      {
        assert data[..i + 1][..i] == data[..i];
        var name := data[i].0;
        var c := ParseCategory(name);
        if c.Some? && c.value != All {
          keywords := keywords[c.value := ElementsOf(data[i].1)];
        }
        i := i + 1;
      }
      assert data[..i] == data;
    }
  }
}
