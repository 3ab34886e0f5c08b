/**
 * Request and input validation and the hardened HTTP response builder
 * (src/shared/production_security_fixes.py).
 */
module Security {
  import opened Wrappers
  import opened Strings
  import opened JsonValue

  // ---------------------------------------------------------------------
  // Python iteration and membership over decoded values
  // ---------------------------------------------------------------------

  /**
   * The items a `for` loop visits in a value: a list's elements, a
   * string's characters, a dictionary's keys (here in sorted order; every
   * consumer below fails on the first key whichever it is). Any other
   * value is not iterable: a TypeError.
   */
  function Iterate(j: Json): (r: Result<seq<Json>>)
    ensures j.JList? ==> r == Ok(j.items)
    ensures r.Err? <==> !(j.JList? || j.JStr? || j.JObject?)
  {
    match j
    case JList(items) => Ok(items)
    case JStr(s) => Ok(seq(|s|, i requires 0 <= i < |s| => JStr([s[i]])))
    case JObject(fields) =>
      var keys := SortedList(fields.Keys);
      Ok(seq(|keys|, i requires 0 <= i < |keys| => JStr(keys[i])))
    case _ => Err(TypeError)
  }

  /** Python `key in container` for a string key. */
  function In(key: string, container: Json): (r: Result<bool>)
    ensures container.JObject? ==> r == Ok(key in container.fields)
  {
    match container
    case JObject(fields) => Ok(key in fields)
    case JList(items) => Ok(JStr(key) in items)
    case JStr(s) => Ok(Contains(s, key))
    case _ => Err(TypeError)
  }

  // ---------------------------------------------------------------------
  // SecurityManager.validate_request
  // ---------------------------------------------------------------------

  /**
   * The record loop of `validate_request`: true at the first record whose
   * EventSource is aws:sns, false when no record is one, and an error
   * (`.get` on a value that is not a dictionary) at the first non-dictionary
   * met before that.
   */
  function FindSnsRecord(records: seq<Json>): Result<bool>
  {
    if records == [] then Ok(false)
    else if !records[0].JObject? then Err(AttributeError("get"))
    else if Get(records[0].fields, "EventSource", JNull) == JStr("aws:sns") then Ok(true)
    else FindSnsRecord(records[1..])
  }

  /**
   * `validate_request`: an empty event is refused; so is one whose Records
   * cannot be scanned (the exception handler answers false); every other
   * event passes, since each later branch also answers true.
   */
  function ValidateRequest(event: map<string, Json>): (ok: bool)
    ensures event == map[] ==> !ok
    ensures event != map[] && "Records" !in event ==> ok
  {
    if event == map[] then false
    else if "Records" in event then
      match Iterate(event["Records"])
      case Err(_) => false
      case Ok(records) => FindSnsRecord(records).Ok?
    else true
  }

  /** A list of dictionaries never trips the scan, so a non-empty event with such Records passes. */
  lemma {:induction false} ValidateRequestDictRecords(event: map<string, Json>)
    requires event != map[] && "Records" in event && event["Records"].JList?
    requires forall i :: 0 <= i < |event["Records"].items| ==> event["Records"].items[i].JObject?
    ensures ValidateRequest(event)
  {
    DictRecordsScan(event["Records"].items);
  }

  lemma {:induction false} DictRecordsScan(records: seq<Json>)
    requires forall i :: 0 <= i < |records| ==> records[i].JObject?
    ensures FindSnsRecord(records).Ok?
  {
    if records != [] {
      DictRecordsScan(records[1..]);
    }
  }

  // ---------------------------------------------------------------------
  // InputValidator
  // ---------------------------------------------------------------------

  const UnsafeChars: set<char> := {'<', '>', '"', '\''}
  const MaxQueryLength: nat := 500
  const MinQueryLength: nat := 3

  /**
   * The stripped query with every `<`, `>`, `"` and `'` removed and every
   * other character kept (in order, by Strings.RemoveCharsAppend).
   */
  function Sanitize(s: string): (r: string)
    ensures forall c :: c in r ==> c !in UnsafeChars
    ensures |r| <= |s|
    ensures forall c :: multiset(r)[c] == if c in UnsafeChars then 0 else multiset(Strip(s))[c]
    ensures (forall c :: c in Strip(s) ==> c !in UnsafeChars) ==> r == Strip(s)
  {
    var t := Strip(s);
    StripMeaning(s);
    RemoveChars(t, UnsafeChars)
  }

  /** `validate_search_query`: the sanitized query when it is a non-empty string of 3 to 500 characters after sanitizing. */
  function ValidateSearchQuery(query: Json): (r: Result<string>)
    ensures r.Ok? <==> query.JStr? && query.s != [] && MinQueryLength <= |Sanitize(query.s)| <= MaxQueryLength
    ensures r.Ok? ==> r.value == Sanitize(query.s)
    ensures r.Ok? ==> MinQueryLength <= |r.value| <= MaxQueryLength && forall c :: c in r.value ==> c !in UnsafeChars
    ensures r.Err? ==> r.error.ValueError?
  {
    if !query.JStr? || query.s == [] then Err(ValueError("Query must be a non-empty string"))
    else
      var sanitized := Sanitize(query.s);
      if |sanitized| > MaxQueryLength then Err(ValueError("Query too long (max 500 characters)"))
      else if |sanitized| < MinQueryLength then Err(ValueError("Query too short (min 3 characters)"))
      else Ok(sanitized)
  }

  lemma {:induction false} StripOfTrimmed(s: string)
    requires s == [] || (!IsWhitespace(s[0]) && !IsWhitespace(s[|s| - 1]))
    ensures Strip(s) == s
  {
    assert LStrip(s) == s;
  }

  lemma SanitizeClean(s: string)
    requires s == [] || (!IsWhitespace(s[0]) && !IsWhitespace(s[|s| - 1]))
    requires forall c :: c in s ==> c !in UnsafeChars
    ensures Sanitize(s) == s
  {
    StripOfTrimmed(s);
  }

  /** A query that is already clean (no surrounding whitespace, no unsafe character, 3 to 500 characters) is accepted unchanged. */
  lemma ValidateSearchQueryAcceptsClean(s: string)
    requires s == [] || (!IsWhitespace(s[0]) && !IsWhitespace(s[|s| - 1]))
    requires forall c :: c in s ==> c !in UnsafeChars
    requires MinQueryLength <= |s| <= MaxQueryLength
    ensures ValidateSearchQuery(JStr(s)) == Ok(s)
  {
    var t := Sanitize(s);
    SanitizeClean(s);
    assert |t| == |s|;
    var r := ValidateSearchQuery(JStr(s));
    assert r == Ok(t);
  }

  /** A query that holds an unsafe character never comes back unchanged. */
  lemma ValidateSearchQueryChangesUnsafe(s: string, i: nat)
    requires i < |s| && s[i] in UnsafeChars
    ensures ValidateSearchQuery(JStr(s)) != Ok(s)
  {
  }

  // Python int() of a value.

  function DigitValue(c: char): (d: nat)
    requires '0' <= c <= '9'
    ensures d < 10
  {
    c as int - '0' as int
  }

  predicate AllDigits(s: string)
  {
    forall i :: 0 <= i < |s| ==> '0' <= s[i] <= '9'
  }

  /** The value of a string of decimal digits, most significant first. */
  function DigitsValue(s: string): nat
    requires AllDigits(s)
  {
    if s == [] then 0 else DigitsValue(s[..|s| - 1]) * 10 + DigitValue(s[|s| - 1])
  }

  /**
   * The body of a base-10 numeral as `int()` reads it: ASCII digits, where
   * an underscore may stand between two digits (so never first, last or
   * doubled).
   */
  predicate DecimalLiteral(s: string)
  {
    s != [] && '0' <= s[0] <= '9' && '0' <= s[|s| - 1] <= '9' && DigitsOrUnderscores(s) &&
    forall i :: 0 <= i < |s| - 1 && s[i] == '_' ==> '0' <= s[i + 1] <= '9'
  }

  /** Digits and underscores only. */
  predicate DigitsOrUnderscores(s: string)
  {
    forall i :: 0 <= i < |s| ==> ('0' <= s[i] <= '9') || s[i] == '_'
  }

  /** The value of a numeral read with its underscores skipped, most significant digit first. */
  function NumeralValue(s: string): nat
    requires DigitsOrUnderscores(s)
  {
    if s == [] then 0
    else
      var n := |s| - 1;
      if s[n] == '_' then NumeralValue(s[..n]) else NumeralValue(s[..n]) * 10 + DigitValue(s[n])
  }

  /** `int(s)` for a string: optional surrounding whitespace, an optional sign, then a numeral of ASCII digits and grouping underscores. */
  function ParseIntString(s: string): (r: Result<int>)
  {
    var t := Strip(s);
    var signed := t != [] && (t[0] == '-' || t[0] == '+');
    var negative := t != [] && t[0] == '-';
    var digits := if signed then t[1..] else t;
    if DecimalLiteral(digits) then
      var magnitude: int := NumeralValue(digits);
      Ok(if negative then -magnitude else magnitude)
    else Err(ValueError("invalid literal for int()"))
  }

  /** Truncation toward zero, as `int()` does to a float. */
  function Trunc(x: real): (n: int)
    ensures 0.0 <= x ==> n as real <= x < n as real + 1.0
    ensures x < 0.0 ==> n as real - 1.0 < x <= n as real
  {
    if x >= 0.0 then x.Floor else -((-x).Floor)
  }

  /** Python `int(x)`. */
  function PyInt(x: Json): (r: Result<int>)
    ensures x.JInt? ==> r == Ok(x.i)
  {
    match x
    case JInt(i) => Ok(i)
    case JBool(b) => Ok(if b then 1 else 0)
    case JFloat(f) => Ok(Trunc(f))
    case JDecimal(d) => Ok(Trunc(d))
    case JStr(s) => ParseIntString(s)
    case _ => Err(TypeError)
  }

  /** `validate_num_results`: the integer value when it lies in 1..100; every failure becomes one ValueError. */
  function ValidateNumResults(x: Json): (r: Result<int>)
    ensures r.Ok? <==> PyInt(x).Ok? && 1 <= PyInt(x).value <= 100
    ensures r.Ok? ==> r.value == PyInt(x).value
    ensures r.Err? ==> r.error == ValueError("Invalid number of results")
  {
    match PyInt(x)
    case Ok(n) =>
      if n < 1 || n > 100 then Err(ValueError("Invalid number of results")) else Ok(n)
    case Err(_) => Err(ValueError("Invalid number of results"))
  }

  /** An integer is accepted exactly when it lies in 1..100, and comes back unchanged. */
  lemma ValidateNumResultsOnInts(n: int)
    ensures ValidateNumResults(JInt(n)) == if 1 <= n <= 100 then Ok(n) else Err(ValueError("Invalid number of results"))
  {
  }

  lemma {:induction false} DigitsValueOfDigits(n: nat)
    ensures AllDigits(NatDigits(n)) && NatDigits(n) != []
    ensures DigitsValue(NatDigits(n)) == n
  {
    if n >= 10 {
      DigitsValueOfDigits(n / 10);
      var s := NatDigits(n);
      assert s[..|s| - 1] == NatDigits(n / 10);
    }
  }

  /** `str(n)` for a natural number: its decimal digits. */
  function NatDigits(n: nat): (s: string)
  {
    var last := ['0' + (n % 10) as char];
    if n < 10 then last else NatDigits(n / 10) + last
  }

  /** A count written as a decimal string validates like the number itself: `int()` reads back what `str()` wrote. */
  lemma ValidateNumResultsOnNumerals(n: nat)
    ensures ValidateNumResults(JStr(NatDigits(n))) == ValidateNumResults(JInt(n))
  {
    calc {
      ValidateNumResults(JStr(NatDigits(n)));
      == { ParseNatDigits(n); }
      ValidateNumResults(JInt(n));
    }
  }

  /** `int(str(n)) == n` for a natural number. */
  lemma ParseNatDigits(n: nat)
    ensures PyInt(JStr(NatDigits(n))) == Ok(n)
  {
    DigitsValueOfDigits(n);
    ParseDigitString(NatDigits(n));
  }

  /** Without underscores, a numeral's value is its digits' value. */
  lemma {:induction false} NumeralOfDigits(s: string)
    requires AllDigits(s)
    ensures NumeralValue(s) == DigitsValue(s)
  {
    if s != [] {
      NumeralOfDigits(s[..|s| - 1]);
    }
  }

  /** An underscore adds nothing to a numeral's value. */
  lemma {:induction false} NumeralSkipsUnderscore(x: string, y: string)
    requires DigitsOrUnderscores(x) && DigitsOrUnderscores(y)
    ensures DigitsOrUnderscores(x + "_" + y) && DigitsOrUnderscores(x + y)
    ensures NumeralValue(x + "_" + y) == NumeralValue(x + y)
    decreases |y|
  {
    if y == [] {
      assert (x + "_")[..|x|] == x && x + [] == x && x + "_" + [] == x + "_";
    } else {
      var n := |y| - 1;
      NumeralSkipsUnderscore(x, y[..n]);
      assert (x + "_" + y)[..|x| + 1 + n] == x + "_" + y[..n];
      assert (x + y)[..|x| + n] == x + y[..n];
    }
  }

  /** An unsigned numeral parses to its value. */
  lemma ParseLiteral(s: string)
    requires DecimalLiteral(s)
    ensures ParseIntString(s) == Ok(NumeralValue(s))
  {
    assert Strip(s) == s by {
      assert !IsWhitespace(s[0]) && !IsWhitespace(s[|s| - 1]);
      StripOfTrimmed(s);
    }
  }

  /** A non-empty string of ASCII digits parses to its value. */
  lemma ParseDigitString(s: string)
    requires s != [] && AllDigits(s)
    ensures ParseIntString(s) == Ok(DigitsValue(s))
  {
    ParseLiteral(s);
    NumeralOfDigits(s);
  }

  /** Two runs of digits joined by an underscore form a numeral. */
  lemma GroupedLiteral(a: string, b: string)
    requires a != [] && AllDigits(a) && b != [] && AllDigits(b)
    ensures DecimalLiteral(a + "_" + b)
  {
    var s := a + "_" + b;
    assert s[0] == a[0] && s[|s| - 1] == b[|b| - 1];
    forall i | 0 <= i < |s| && i != |a| ensures '0' <= s[i] <= '9' {
      if i < |a| {
        assert s[i] == a[i];
      } else {
        assert s[i] == b[i - |a| - 1];
      }
    }
    assert s[|a| + 1] == b[0];
  }

  /** An underscore between two runs of digits groups them and leaves the value alone: `int("1_0") == int("10")`. */
  lemma ParseGroupedDigits(a: string, b: string)
    requires a != [] && AllDigits(a) && b != [] && AllDigits(b)
    ensures ParseIntString(a + "_" + b) == ParseIntString(a + b) == Ok(DigitsValue(a + b))
  {
    assert AllDigits(a + b);
    ParseDigitString(a + b);
    GroupedLiteral(a, b);
    ParseLiteral(a + "_" + b);
    NumeralSkipsUnderscore(a, b);
    NumeralOfDigits(a + b);
  }

  /** `int("1_0")` is 10. */
  lemma GroupedNumeral(s: string)
    requires |s| == 3 && s[0] == '1' && s[1] == '_' && s[2] == '0'
    ensures ParseIntString(s) == Ok(10)
  {
    var a, b := s[..1], s[2..];
    assert s == a + "_" + b;
    ParseGroupedDigits(a, b);
    TenDigits(a + b);
  }

  /** The digits "10" have the value 10. */
  lemma TenDigits(s: string)
    requires |s| == 2 && s[0] == '1' && s[1] == '0'
    ensures AllDigits(s) && DigitsValue(s) == 10
  {
    assert DigitsValue(s[..1]) == 1;
  }

  /** So `validate_num_results("1_0")` is 10. */
  lemma GroupedCountValidates(s: string)
    requires |s| == 3 && s[0] == '1' && s[1] == '_' && s[2] == '0'
    ensures ValidateNumResults(JStr(s)) == Ok(10)
  {
    GroupedNumeral(s);
    assert PyInt(JStr(s)) == Ok(10);
  }

  /** A doubled underscore is no grouping: `int("1__0")` raises. */
  lemma DoubledUnderscoreRefused()
    ensures ParseIntString("1__0").Err?
  {
    var t := "1__0";
    assert Strip(t) == t by {
      assert !IsWhitespace(t[0]) && !IsWhitespace(t[|t| - 1]);
      StripOfTrimmed(t);
    }
    assert t[1] == '_' && t[2] == '_';
  }

  /** `validate_api_key_format`: a key is well-formed exactly when it has at least 20 characters. */
  function ValidateApiKeyFormat(apiKey: string): (ok: bool)
    ensures ok <==> |apiKey| >= 20
  {
    !(apiKey == [] || |apiKey| < 20)
  }

  /**
   * The SNS branch of `validate_llm_event` for one record. `loads` is
   * `json.loads`, left abstract: None when the text does not decode.
   * Ok(true) means the record proves the event valid; Ok(false) moves on
   * to the next record; Err is an exception, which makes the whole check false.
   */
  function SnsRecordCarriesRequest(record: Json, loads: string -> Option<Json>): Result<bool>
  {
    if !record.JObject? then Err(AttributeError("get"))
    else if Get(record.fields, "EventSource", JNull) != JStr("aws:sns") then Ok(false)
    else
      var sns := Get(record.fields, "Sns", JObject(map[]));
      if !sns.JObject? then Err(AttributeError("get"))
      else
        var message := Get(sns.fields, "Message", JNull);
        if !Truthy(message) then Ok(false)
        else if !message.JStr? then Err(TypeError)
        else match loads(message.s)
          case None => Err(DecodeError)
          case Some(data) =>
            match (In("query", data), In("search_results", data))
            case (Ok(q), Ok(sr)) => Ok(q && sr)
            case (Err(e), _) => Err(e)
            case (_, Err(e)) => Err(e)
  }

  function ScanLlmRecords(records: seq<Json>, loads: string -> Option<Json>): Result<bool>
  {
    if records == [] then Ok(false)
    else match SnsRecordCarriesRequest(records[0], loads)
      case Err(e) => Err(e)
      case Ok(true) => Ok(true)
      case Ok(false) => ScanLlmRecords(records[1..], loads)
  }

  /** `validate_llm_event`: an SNS record whose message decodes with both keys, or a direct event with both keys; any exception gives false. */
  function ValidateLlmEvent(event: map<string, Json>, loads: string -> Option<Json>): (ok: bool)
    ensures "Records" !in event ==> (ok <==> "query" in event && "search_results" in event)
  {
    var scanned :=
      if "Records" in event then
        match Iterate(event["Records"])
        case Err(e) => Err(e)
        case Ok(records) => ScanLlmRecords(records, loads)
      else Ok(false);
    match scanned
    case Err(_) => false
    case Ok(true) => true
    case Ok(false) => "query" in event && "search_results" in event
  }

  /** A message that fails to decode makes the whole check false, whatever follows it. */
  lemma ValidateLlmEventDecodeFailure(event: map<string, Json>, loads: string -> Option<Json>, text: string)
    requires "Records" in event && event["Records"].JList? && event["Records"].items != []
    requires event["Records"].items[0] ==
      JObject(map["EventSource" := JStr("aws:sns"), "Sns" := JObject(map["Message" := JStr(text)])])
    requires text != [] && loads(text) == None
    ensures !ValidateLlmEvent(event, loads)
  {
    var records := event["Records"].items;
    assert SnsRecordCarriesRequest(records[0], loads) == Err(DecodeError);
  }

  /** A record that is a dictionary from some other source than SNS: the scan passes over it. */
  predicate PlainRecord(record: Json)
  {
    record.JObject? && Get(record.fields, "EventSource", JNull) != JStr("aws:sns")
  }

  /** Both keys are `in` the decoded message, whatever kind of value it is. */
  predicate CarriesBothKeys(data: Json)
  {
    In("query", data) == Ok(true) && In("search_results", data) == Ok(true)
  }

  /** An SNS record whose message is a non-empty string that decodes to a value carrying both keys. */
  predicate SnsRequest(record: Json, loads: string -> Option<Json>)
  {
    record.JObject? && Get(record.fields, "EventSource", JNull) == JStr("aws:sns") &&
    var sns := Get(record.fields, "Sns", JObject(map[]));
    sns.JObject? &&
    var message := Get(sns.fields, "Message", JNull);
    message.JStr? && message.s != [] && loads(message.s).Some? && CarriesBothKeys(loads(message.s).value)
  }

  /** One record proves the event valid exactly when it is an SNS request; a plain record moves the scan on. */
  lemma SnsRecordRequest(record: Json, loads: string -> Option<Json>)
    ensures SnsRecordCarriesRequest(record, loads) == Ok(true) <==> SnsRequest(record, loads)
    ensures PlainRecord(record) ==> SnsRecordCarriesRequest(record, loads) == Ok(false)
  {
  }

  /**
   * The scan succeeds exactly when some record is an SNS request and every
   * record before it moved the scan on without raising.
   */
  lemma {:induction false} ScanMeaning(records: seq<Json>, loads: string -> Option<Json>)
    ensures ScanLlmRecords(records, loads) == Ok(true) <==>
      exists k :: 0 <= k < |records| && SnsRequest(records[k], loads) &&
        forall i :: 0 <= i < k ==> SnsRecordCarriesRequest(records[i], loads) == Ok(false)
    decreases |records|
  {
    if records != [] {
      var rest := records[1..];
      SnsRecordRequest(records[0], loads);
      ScanMeaning(rest, loads);
      var first := SnsRecordCarriesRequest(records[0], loads);
      if ScanLlmRecords(records, loads) == Ok(true) {
        if first != Ok(true) {
          assert first == Ok(false) && ScanLlmRecords(rest, loads) == Ok(true);
          var k :| 0 <= k < |rest| && SnsRequest(rest[k], loads) &&
            forall i :: 0 <= i < k ==> SnsRecordCarriesRequest(rest[i], loads) == Ok(false);
          assert records[k + 1] == rest[k];
          forall i | 0 <= i < k + 1 ensures SnsRecordCarriesRequest(records[i], loads) == Ok(false) {
            if i > 0 {
              assert records[i] == rest[i - 1];
            }
          }
        }
      }
      if exists k :: 0 <= k < |records| && SnsRequest(records[k], loads) &&
                     forall i :: 0 <= i < k ==> SnsRecordCarriesRequest(records[i], loads) == Ok(false) {
        var k :| 0 <= k < |records| && SnsRequest(records[k], loads) &&
          forall i :: 0 <= i < k ==> SnsRecordCarriesRequest(records[i], loads) == Ok(false);
        if k > 0 {
          assert first == Ok(false);
          assert rest[k - 1] == records[k];
          forall i | 0 <= i < k - 1 ensures SnsRecordCarriesRequest(rest[i], loads) == Ok(false) {
            assert rest[i] == records[i + 1];
          }
        }
      }
    }
  }

  /** Records that all come from elsewhere than SNS are passed over, and the scan finds nothing. */
  lemma {:induction false} ScanSkipsPlain(records: seq<Json>, loads: string -> Option<Json>)
    requires forall i :: 0 <= i < |records| ==> PlainRecord(records[i])
    ensures ScanLlmRecords(records, loads) == Ok(false)
    decreases |records|
  {
    if records != [] {
      SnsRecordRequest(records[0], loads);
      assert forall i :: 0 <= i < |records| - 1 ==> records[1..][i] == records[i + 1];
      ScanSkipsPlain(records[1..], loads);
    }
  }

  /** An SNS record carrying a request, after records from elsewhere, makes the event valid. */
  lemma SnsRequestPasses(event: map<string, Json>, loads: string -> Option<Json>, k: nat)
    requires "Records" in event && event["Records"].JList?
    requires k < |event["Records"].items| && SnsRequest(event["Records"].items[k], loads)
    requires forall i :: 0 <= i < k ==> PlainRecord(event["Records"].items[i])
    ensures ValidateLlmEvent(event, loads)
  {
    var records := event["Records"].items;
    forall i | 0 <= i < k ensures SnsRecordCarriesRequest(records[i], loads) == Ok(false) {
      SnsRecordRequest(records[i], loads);
    }
    ScanMeaning(records, loads);
  }

  /** With no SNS record among the records, the event is judged by its own two keys. */
  lemma NoSnsFallsBackToDirect(event: map<string, Json>, loads: string -> Option<Json>)
    requires "Records" in event && event["Records"].JList?
    requires forall i :: 0 <= i < |event["Records"].items| ==> PlainRecord(event["Records"].items[i])
    ensures ValidateLlmEvent(event, loads) <==> "query" in event && "search_results" in event
  {
    ScanSkipsPlain(event["Records"].items, loads);
  }

  /** `validate_gdc_search_input`: a non-blank string query, a non-empty string index, an int size in 1..100. */
  function ValidateGdcSearchInput(query: Json, index: Json, size: Json): (ok: bool)
    ensures ok <==>
      query.JStr? && !IsBlank(query.s) &&
      index.JStr? && index.s != [] &&
      (size.JInt? || size.JBool?) && 1 <= PyInt(size).value <= 100
  {
    var queryOk := query.JStr? && query.s != [] && |Strip(query.s)| != 0;
    var indexOk := index.JStr? && index.s != [];
    var sizeOk := (size.JInt? || size.JBool?) && !(PyInt(size).value < 1 || PyInt(size).value > 100);
    assert query.JStr? ==> (|Strip(query.s)| != 0 <==> !IsBlank(query.s)) by {
      if query.JStr? { StripMeaning(query.s); }
    }
    queryOk && indexOk && sizeOk
  }

  // ---------------------------------------------------------------------
  // create_secure_response
  // ---------------------------------------------------------------------

  /** An API Gateway response; the body is kept as the dictionary `json.dumps` would encode. */
  datatype Response = Response(statusCode: int, headers: map<string, string>, body: map<string, Json>)

  const SecurityHeaders: map<string, string> := map[
    "Content-Type" := "application/json",
    "X-Content-Type-Options" := "nosniff",
    "X-Frame-Options" := "DENY",
    "X-XSS-Protection" := "1; mode=block",
    "Strict-Transport-Security" := "max-age=31536000; includeSubDomains",
    "Cache-Control" := "no-cache, no-store, must-revalidate",
    "Pragma" := "no-cache",
    "Expires" := "0"
  ]

  const GenericErrorBody: map<string, Json> := map["error" := JStr("Internal server error")]

  /**
   * `create_secure_response`: the eight security headers, overridden by
   * the caller's; the status echoed; a 500 body that carries an 'error'
   * replaced by the generic one.
   */
  function CreateSecureResponse(statusCode: int, body: map<string, Json>, headers: map<string, string>): (r: Response)
    ensures r.statusCode == statusCode
    ensures r.headers.Keys == SecurityHeaders.Keys + headers.Keys
    ensures forall h :: h in headers ==> r.headers[h] == headers[h]
    ensures forall h :: h in SecurityHeaders && h !in headers ==> r.headers[h] == SecurityHeaders[h]
    ensures statusCode == 500 && "error" in body ==> r.body == GenericErrorBody
    ensures !(statusCode == 500 && "error" in body) ==> r.body == body
  {
    var merged := SecurityHeaders + headers;
    var shown := if statusCode >= 400 && "error" in body && statusCode == 500 then GenericErrorBody else body;
    Response(statusCode, merged, shown)
  }

  /** Nothing of a redacted body reaches the caller: the response is the same whatever the details were. */
  lemma RedactionHidesDetails(body1: map<string, Json>, body2: map<string, Json>, headers: map<string, string>)
    requires "error" in body1 && "error" in body2
    ensures CreateSecureResponse(500, body1, headers) == CreateSecureResponse(500, body2, headers)
  {
  }

  lemma SecurityHeaderNames()
    ensures SecurityHeaders.Keys ==
      {"Content-Type", "X-Content-Type-Options", "X-Frame-Options", "X-XSS-Protection"} +
      {"Strict-Transport-Security", "Cache-Control", "Pragma", "Expires"}
  {
  }

  lemma EightHeaderNames()
    ensures |{"Content-Type", "X-Content-Type-Options", "X-Frame-Options", "X-XSS-Protection"} +
      {"Strict-Transport-Security", "Cache-Control", "Pragma", "Expires"}| == 8
  {
    var a: set<string> := {"Content-Type", "X-Content-Type-Options", "X-Frame-Options", "X-XSS-Protection"};
    var b: set<string> := {"Strict-Transport-Security", "Cache-Control", "Pragma", "Expires"};
    assert |a| == 4;
    assert |b| == 4;
    forall h | h in a ensures h !in b {
    }
    assert a * b == {};
  }

  /** Without caller headers every response carries exactly the eight security headers. */
  lemma SecurityHeadersAlwaysPresent(statusCode: int, body: map<string, Json>)
    ensures CreateSecureResponse(statusCode, body, map[]).headers == SecurityHeaders
    ensures |SecurityHeaders.Keys| == 8
  {
    assert |SecurityHeaders.Keys| == 8 by {
      SecurityHeaderNames();
      EightHeaderNames();
    }
  }
}
