# Entity screening pipeline — a Dafny model

This project models the core of a serverless entity-risk-screening
pipeline written in Python. Requests reach an **orchestrator**
(`src/lambda/lambda_orchestrator_secure.py`). It validates the query and the
result count with the input validator, and routes each request to one of
several workflows:

- a search only;
- an asynchronous workflow that invokes the search service as a Lambda;
- a synchronous Step Functions workflow that polls the execution at most
  30 times;
- an entity-screening workflow.

Three **search services** run the queries, shape each hit into a result
record, store the results in DynamoDB, and publish an SNS message that
starts the LLM analysis:

- the plain search service (`lambda_search_service_secure.py`);
- the GDC search service, over OpenSearch or its mock results
  (`lambda_gdc_search_service.py`);
- the entity-screening service (`lambda_entity_screening_service.py`),
  which screens a name against keyword categories.

The **keyword catalog** (`src/shared/entity_screening_keywords.py`) holds
the screening keywords per category and generates the screening queries.

Two **LLM services** analyse each search result with Bedrock. They pull
the JSON object out of the model's reply, fall back to a MEDIUM
assessment when no object can be decoded, and score the risk as a
weighted composite of four dimensions:

- `lambda_llm_service_secure.py`;
- `lambda_llm_service_simple.py`.

The **risk output service** (`src/shared/risk_output_service.py`) stores
risk assessments. For assessments that need review it sends SQS
notifications, and its processor turns each notification into a
high-risk alert and a manual-review request. The **notification
processor** lambda (`lambda_risk_notification_processor.py`) counts the
records it handles and summarises a batch of assessments. The **DynamoDB
data service** (`src/shared/dynamodb_data_service.py`) holds the search
table and its keyword search, statistics and expiry sweep. The **security
module** (`src/shared/production_security_fixes.py`) validates queries
and result counts, sanitises text, and builds the HTTP responses.

## How the model is built

Module by module, the model follows the Python file it comes from:

- Parsed JSON and DynamoDB items are values of the `Json` datatype
  (module `JsonValue`); a dictionary is a `map<string, Json>`. Where the
  order of a dictionary's keys matters, an association list is used.
- The catalog's keyword sets (`Keywords.KeywordCatalog`) and the search
  table (`DataService.SearchResultsDataService`) are classes whose methods
  change their fields in place. The source's loops are methods with loop
  invariants, proved against functions that state their results.
- Every call the code makes outside itself is a parameter. For a call
  that only succeeds or fails, the parameter says which. For one that
  returns data, the parameter is that data or a function. This covers:
  - boto3: DynamoDB, SNS, SQS, Step Functions, Lambda, Secrets Manager;
  - Bedrock `invoke_model`;
  - `requests.post`;
  - `json.loads` and `json.dumps`;
  - md5 and Python's `hash()`;
  - the clock (`now`).
- The float/Decimal conversion is a `Codec` pair of functions. Lemmas
  that need the two conversions to undo each other require
  `RoundTrips(codec)`.

## Model

| member | source | states |
|---|---|---|
| Strings.LStrip | src/shared/entity_screening_keywords.py:98 | the result is a suffix of the input, starts with no whitespace, and only blank characters were dropped |
| Strings.RStrip | src/shared/entity_screening_keywords.py:98 | the result is a prefix of the input, ends with no whitespace, and only blank characters were dropped |
| Strings.StripMeaning | src/shared/entity_screening_keywords.py:95-98 | `strip()` is empty exactly when the input is blank; otherwise it has no whitespace at either end; it is never longer |
| Strings.BlankParts | src/shared/production_security_fixes.py:143 | a string made of two blank parts is blank |
| Strings.Lower | src/shared/dynamodb_data_service.py:394 | same length, each character lower-cased on its own |
| Strings.LowerIdempotent | src/shared/entity_screening_keywords.py:180 | lower-casing twice is lower-casing once |
| Strings.PyTake | src/shared/risk_output_service.py:228 | `s[:n]` is a prefix of min(n, len) characters, or of len + n for negative n |
| Strings.Slice | src/lambda/lambda_llm_service_secure.py:237 | `s[i:j]` is the characters from i to j, or empty when j < i |
| Strings.Find | src/lambda/lambda_llm_service_secure.py:234 | -1 exactly when the character is absent; otherwise its first index |
| Strings.RFind | src/lambda/lambda_llm_service_secure.py:235 | -1 exactly when the character is absent; otherwise its last index |
| Strings.RemoveChars | src/shared/production_security_fixes.py:83 | no listed character remains; every other character keeps all its occurrences; a string without listed characters comes back unchanged |
| Strings.RemoveCharsAppend | src/shared/production_security_fixes.py:83 | removal distributes over concatenation, so the kept characters stay in their order |
| Strings.SplitWords | src/shared/risk_output_service.py:228 | every piece of `split()` is a non-empty run without whitespace |
| Strings.WordLength | src/shared/risk_output_service.py:228 | the leading run of non-whitespace ends at the first whitespace or the end |
| Strings.TitleFrom | src/shared/risk_output_service.py:229 | `title()` keeps the length and exactly the whitespace positions |
| Strings.Title | src/shared/risk_output_service.py:229 | `title()` keeps the length and every non-letter; a letter right after a letter is lowered, every other letter raised |
| Strings.LessIrreflexive | src/shared/entity_screening_keywords.py:79 | string order is irreflexive |
| Strings.LessAsymmetric | src/shared/entity_screening_keywords.py:79 | string order is asymmetric |
| Strings.LessTransitive | src/shared/entity_screening_keywords.py:79 | string order is transitive |
| Strings.LessTotal | src/shared/entity_screening_keywords.py:79 | any two distinct strings are ordered one way |
| Strings.LeastExists | src/shared/entity_screening_keywords.py:79 | a non-empty set of strings has a least element |
| Strings.LeastUnique | src/shared/entity_screening_keywords.py:79 | that least element is unique |
| Strings.SortedList | src/shared/entity_screening_keywords.py:79 | `sorted(set)` is strictly increasing and holds exactly the set's elements, once each |
| Strings.ConsLeast | src/shared/entity_screening_keywords.py:79 | the least element followed by the sorted rest is the set sorted |
| Strings.SortedUnique | src/shared/entity_screening_keywords.py:221 | two strictly sorted lists with the same elements are equal: `sorted` has one answer |
| JsonValue.And | src/lambda/lambda_entity_screening_service.py:155-156 | `a and b` is truthy exactly when both are, and is True exactly when a is truthy and b is True |
| JsonValue.Get | src/shared/dynamodb_data_service.py:107 | `d.get(k, default)` is the value at k when present, the default otherwise |
| JsonValue.Take | src/lambda/lambda_entity_screening_service.py:299-301 | `x[:n]` exists exactly for strings and lists, and cuts a string to n characters |
| JsonValue.AsFloatOperand | src/shared/dynamodb_data_service.py:107 | a value takes part in float arithmetic exactly when it is a bool, an int or a float |
| JsonValue.GetDict | src/lambda/lambda_orchestrator_secure.py:123 | `d.get(k, {})` is defined exactly on dictionaries and gives the value at k, `{}` when it is missing |
| JsonValue.SourceIp | src/lambda/lambda_orchestrator_secure.py:123 | the client IP is 'unknown' without a request context; the chained lookup succeeds exactly when the context and its identity (each `{}` when missing) are dictionaries |
| Positions.MapPositionsOk | src/lambda/lambda_entity_screening_service.py:297-308 | an enumerate loop succeeds exactly when every element does at its 1-based position, and keeps one record per element |
| Positions.MapPositionsAt | src/lambda/lambda_entity_screening_service.py:297-308 | record i is element i taken at position i + 1 |
| Positions.MapPositionsStaysErr | src/lambda/lambda_entity_screening_service.py:297-308 | once an element fails, the whole loop fails with that error |
| Positions.MapPositionsSnoc | src/lambda/lambda_entity_screening_service.py:297-308 | one more element appends one more record |
| Seqs.CountWhere | src/lambda/lambda_risk_notification_processor.py:229-263 | a count of elements never exceeds the number of elements |
| Seqs.CountWhereAll | src/lambda/lambda_risk_notification_processor.py:229-263 | the count equals the length exactly when every element qualifies |
| Seqs.Dedup | src/shared/entity_screening_keywords.py:116-121 | the seen-set loop keeps exactly the unseen elements, without duplicates, never more than the input |
| Seqs.DedupOfDistinct | src/shared/entity_screening_keywords.py:116-121 | on a list without duplicates the loop keeps the list as it is |
| Seqs.DedupIdempotent | src/shared/entity_screening_keywords.py:116-121 | de-duplicating twice is de-duplicating once |
| Seqs.DedupSnoc | src/shared/entity_screening_keywords.py:116-121 | one more element is appended exactly when it was not seen before |
| Security.Iterate | src/shared/production_security_fixes.py:53 | a list iterates over its elements; only a list, string or dictionary is iterable, anything else is a TypeError |
| Security.In | src/shared/production_security_fixes.py:126 | `key in d` on a dictionary is membership of its keys |
| Security.ValidateRequest | src/shared/production_security_fixes.py:43-71 | an empty event is refused; a non-empty event without Records always passes |
| Security.ValidateRequestDictRecords | src/shared/production_security_fixes.py:52-60 | a non-empty event whose Records are all dictionaries passes |
| Security.Sanitize | src/shared/production_security_fixes.py:83 | the stripped input with every `<`, `>`, `"` and `'` removed and every other character kept with all its occurrences; a stripped input without them comes back unchanged |
| Security.ValidateSearchQuery | src/shared/production_security_fixes.py:77-92 | accepted exactly when the query is a non-empty string whose sanitized form has 3 to 500 characters; the result is that sanitized form; every refusal is a ValueError |
| Security.SanitizeClean | src/shared/production_security_fixes.py:83 | a trimmed string without unsafe characters sanitizes to itself |
| Security.ValidateSearchQueryAcceptsClean | src/shared/production_security_fixes.py:77-92 | a clean query of 3 to 500 characters is accepted unchanged |
| Security.ValidateSearchQueryChangesUnsafe | src/shared/production_security_fixes.py:83-92 | a query holding an unsafe character never comes back unchanged |
| Security.Trunc | src/shared/production_security_fixes.py:98 | `int()` of a float truncates toward zero: the result is within one of the input, on the side of zero |
| Security.PyInt | src/shared/production_security_fixes.py:98 | `int()` of an integer is that integer; a string is read as an optional sign and a numeral of ASCII digits with single grouping underscores, after stripping whitespace |
| Security.ValidateNumResults | src/shared/production_security_fixes.py:95-103 | accepted exactly when `int()` succeeds with a value in 1..100, which is returned; every failure is the single ValueError "Invalid number of results" |
| Security.ValidateNumResultsOnInts | src/shared/production_security_fixes.py:95-103 | an integer is accepted unchanged exactly when it lies in 1..100 |
| Security.ValidateNumResultsOnNumerals | src/shared/production_security_fixes.py:98 | a count written as a decimal string validates exactly like the number |
| Security.ParseNatDigits | src/shared/production_security_fixes.py:98 | `int(str(n)) == n` for every natural number |
| Security.ParseDigitString | src/shared/production_security_fixes.py:98 | a non-empty string of ASCII digits parses to its decimal value |
| Security.ParseLiteral | src/shared/production_security_fixes.py:98 | an unsigned numeral of digits and grouping underscores parses to its value with the underscores skipped |
| Security.NumeralSkipsUnderscore | src/shared/production_security_fixes.py:98 | an underscore adds nothing to a numeral's value |
| Security.ParseGroupedDigits | src/shared/production_security_fixes.py:98 | an underscore between two runs of digits leaves the value of `int()` unchanged |
| Security.GroupedCountValidates | src/shared/production_security_fixes.py:95-103 | `validate_num_results("1_0")` returns 10 |
| Security.DoubledUnderscoreRefused | src/shared/production_security_fixes.py:98 | a doubled underscore is no grouping, so `int("1__0")` raises |
| Security.ValidateApiKeyFormat | src/shared/production_security_fixes.py:106-111 | a key is well-formed exactly when it has at least 20 characters |
| Security.ValidateLlmEvent | src/shared/production_security_fixes.py:114-137 | without Records, an event passes exactly when it has both `query` and `search_results` |
| Security.SnsRecordRequest | src/shared/production_security_fixes.py:120-127 | one record proves the event valid exactly when it is an aws:sns record whose message is a non-empty string decoding to a value with both `query` and `search_results`; a record from elsewhere moves the scan on |
| Security.ScanMeaning | src/shared/production_security_fixes.py:118-127 | the scan of the records succeeds exactly when some record is such an SNS request and every record before it moved the scan on without raising |
| Security.ScanSkipsPlain | src/shared/production_security_fixes.py:119-120 | records that are not from aws:sns are passed over and the scan finds nothing |
| Security.SnsRequestPasses | src/shared/production_security_fixes.py:118-127 | an SNS request after records from elsewhere makes the event valid |
| Security.NoSnsFallsBackToDirect | src/shared/production_security_fixes.py:118-131 | with no SNS record among the records, the event passes exactly when it has both `query` and `search_results` |
| Security.ValidateLlmEventDecodeFailure | src/shared/production_security_fixes.py:118-137 | an SNS message that fails to decode makes the whole check false |
| Security.ValidateGdcSearchInput | src/shared/production_security_fixes.py:140-155 | true exactly for a non-blank string query, a non-empty string index and an int (or bool) size in 1..100 |
| Security.CreateSecureResponse | src/shared/production_security_fixes.py:205-233 | status echoed; headers are the eight security headers overridden by the caller's; a 500 body with an `error` becomes the generic error, any other body is kept |
| Security.RedactionHidesDetails | src/shared/production_security_fixes.py:223-226 | two 500 error bodies give identical responses: no detail reaches the caller |
| Security.SecurityHeadersAlwaysPresent | src/shared/production_security_fixes.py:209-218 | without caller headers the response carries exactly the eight security headers |
| JsonValue.ToDecimal | src/shared/dynamodb_data_service.py:405-414 | no float is left anywhere in the converted value |
| JsonValue.ToFloat | src/shared/dynamodb_data_service.py:416-425 | no decimal is left anywhere in the converted value |
| JsonValue.DecimalRoundTrip | src/shared/dynamodb_data_service.py:405-425 | converting a decimal-free value to decimals and back gives the value itself, given a float survives its decimal form |
| JsonValue.ToDecimalIdempotent | src/shared/dynamodb_data_service.py:405-414 | converting an already converted value changes nothing |
| DataService.QueryHashIgnoresCase | src/shared/dynamodb_data_service.py:392-394 | a query and its lower-cased form have the same hash |
| DataService.SearchItem | src/shared/dynamodb_data_service.py:56-68 | the item has exactly the eleven attributes; SEARCH_RESULTS / SEARCH_COMPLETED; total_results is the result count; created_at = updated_at = timestamp; ttl is now plus 30 days; metadata defaults to {} |
| DataService.ToDecimalItem | src/shared/dynamodb_data_service.py:405-414 | the same attributes, each converted to decimals |
| DataService.ToFloatItem | src/shared/dynamodb_data_service.py:416-425 | the same attributes, each converted back to floats |
| DataService.StoredItemReadsBack | src/shared/dynamodb_data_service.py:71 | a decimal-free item converted for storage and back is the item itself |
| DataService.HighRelevance | src/shared/dynamodb_data_service.py:130 | the number of results whose relevance_score is strictly above 0.7 |
| DataService.MetricsOf | src/shared/dynamodb_data_service.py:107-131 | the metrics exist exactly when every relevance can be summed; total_processed is the result count; an empty list gives all zeros |
| DataService.RelevanceSumBounds | src/shared/dynamodb_data_service.py:107 | with every score in [0, 1], the sum lies in [0, n] |
| DataService.MissingRelevanceCountsZero | src/shared/dynamodb_data_service.py:107 | a result without relevance_score adds 0 to the sum |
| DataService.AverageRelevanceInUnit | src/shared/dynamodb_data_service.py:108 | with every score in [0, 1], the average lies in [0, 1] |
| DataService.Updated | src/shared/dynamodb_data_service.py:111-143 | the update sets exactly the six analysis attributes (ANALYSIS_COMPLETED, COMPLETE_ANALYSIS, analysis, metrics, both times) and keeps every other attribute |
| DataService.StoredSearchItem | src/shared/dynamodb_data_service.py:56-73 | the stored item has the search attributes, status SEARCH_COMPLETED, the result count and the creation time |
| DataService.UpdatedKeeps | src/shared/dynamodb_data_service.py:111-119 | the update leaves every attribute outside the six, among them total_results and created_at, as it was |
| DataService.SearchThenAnalysis | src/shared/dynamodb_data_service.py:56-143 | a search item once analysed is ANALYSIS_COMPLETED / COMPLETE_ANALYSIS and keeps every other search attribute, its count and its creation time |
| DataService.SortDesc | src/shared/dynamodb_data_service.py:279-281 | the sorted list is a permutation of the input |
| DataService.SortDescSorted | src/shared/dynamodb_data_service.py:279-281 | the sorted list is in descending timestamp order |
| DataService.SortDescDistinct | src/shared/dynamodb_data_service.py:279-281 | sorting keeps (query, timestamp) keys distinct |
| DataService.UniqueKeys | src/shared/dynamodb_data_service.py:269-276 | the de-duplicated list has distinct keys, each a key of the scanned items, and is no longer than them |
| DataService.OrderedUnique | src/shared/dynamodb_data_service.py:268-281 | the de-duplicated, sorted and cut list has distinct keys, is most recent first, has at most limit items, and holds only gathered keys |
| DataService.OrderedCount | src/shared/dynamodb_data_service.py:268-281 | the de-duplicated, sorted and cut list has min(limit, number of gathered keys) items |
| DataService.UniqueKeySet | src/shared/dynamodb_data_service.py:268-275 | keeping the first item per key keeps every key the scans returned |
| DataService.SearchByKeywordsResult | src/shared/dynamodb_data_service.py:243-284 | a result of search_by_keywords has distinct (query, timestamp) keys, is most recent first, and every key came from a scan; for limit ≥ 0 it holds one item per gathered key, cut to limit, so a gathered key is left out only by the cut |
| DataService.Totalled | src/shared/dynamodb_data_service.py:316-329 | the completed count and the collected relevances never exceed the number of items |
| DataService.CountAbove | src/shared/dynamodb_data_service.py:340 | a count of scores above the threshold never exceeds the number of scores |
| DataService.MeanOfCount | src/shared/dynamodb_data_service.py:335 | a count out of n has a ratio in [0, 1], and 0 when n is 0 |
| DataService.ProcessingStatistics | src/shared/dynamodb_data_service.py:290-348 | total_searches is the number of items and completed_analyses the number of them with status ANALYSIS_COMPLETED; completion_rate is completed / total, 0 for no items, and lies in [0, 1]; average_results_per_search is the summed total_results over the items, average_relevance_score and average_processing_time_seconds the means of the collected relevances and durations (0 when none), and high_relevance_searches the number of collected relevances above 0.7 |
| DataService.SearchResultsDataService.constructor | src/shared/dynamodb_data_service.py:23-34 | a new service starts from an empty table |
| DataService.SearchResultsDataService.StoreSearchResults | src/shared/dynamodb_data_service.py:36-88 | on success the converted item is put at (query, now) and the confirmation carries the query, time, hash and count; a failed put raises and changes nothing |
| DataService.SearchResultsDataService.StoreLlmAnalysis | src/shared/dynamodb_data_service.py:90-158 | succeeds exactly when the metrics compute and the update succeeds; then only the record at (query, timestamp) changes, by the six-attribute update; on failure nothing changes |
| DataService.SearchResultsDataService.SearchByKeywords | src/shared/dynamodb_data_service.py:243-288 | the loops compute the scan-gather, keep-first, sort and cut specification |
| DataService.SearchResultsDataService.CleanupExpiredRecords | src/shared/dynamodb_data_service.py:350-390 | deletes exactly the items of the one page the scan returned, all expired, and reports their number; every other item is kept; a failed scan changes nothing |
| DataService.SearchResultsDataService.DeleteKeys | src/shared/dynamodb_data_service.py:371-379 | the batch loop removes exactly the given keys and counts one per key |
| DataService.SweepLeaves | src/shared/dynamodb_data_service.py:361-379 | after a sweep the swept keys are gone, every other item is unchanged, and the expired items left are exactly those the page did not hold |
| DataService.FullPageSweepsAll | src/shared/dynamodb_data_service.py:361-379 | a page holding every expired key leaves no expired item behind |
| DataService.AsWrittenNamesRefused | src/shared/dynamodb_data_service.py:260 | the keyword filter and the sweep's expressions name the reserved words `query` and `ttl` directly |
| DataService.PlaceholderNamesAccepted | src/shared/dynamodb_data_service.py:362-364 | with every attribute name behind a `#` placeholder, both expressions are accepted |
| DataService.AsWrittenScansRaise | src/shared/dynamodb_data_service.py:362-364 | as written, the sweep raises whatever the table holds, and the keyword search raises for any non-empty keyword list |
| DataService.CorrectedScansAnswer | src/shared/dynamodb_data_service.py:258-266 | with placeholders, the sweep's scan and the keyword search answer exactly what the table gives |
| DataService.GatherScans | src/shared/dynamodb_data_service.py:258-266 | the scan loop gathers each keyword's items in keyword order, stopping at the first failed scan |
| DataService.KeepFirstOfEachKey | src/shared/dynamodb_data_service.py:269-276 | the seen-set loop keeps the first item of each key, converted back to floats |
| Keywords.ParseCategory | src/shared/entity_screening_keywords.py:14-18 | `ScreeningCategory(name)` finds the member whose value is the name, and fails exactly when there is none |
| Keywords.Builtin | src/shared/entity_screening_keywords.py:25-49 | the built-in table is well formed: one set per real category, no set for ALL |
| Keywords.KeywordsOf | src/shared/entity_screening_keywords.py:51-67 | ALL gives the union of every category's set; a real category gives its own set |
| Keywords.KeywordsList | src/shared/entity_screening_keywords.py:69-79 | the list is strictly sorted and holds exactly the category's keywords |
| Keywords.ExpandAll | src/shared/entity_screening_keywords.py:101-113 | three variations per keyword |
| Keywords.ExpandAllSnoc | src/shared/entity_screening_keywords.py:101-113 | one more keyword appends its three variations at the end |
| Keywords.ExpandAllMembers | src/shared/entity_screening_keywords.py:101-113 | a query is in the expansion exactly when it is a variation of one of the keywords |
| Keywords.QueriesForFirst | src/shared/entity_screening_keywords.py:106-123 | with a keyword and a positive cap, the first query is the quoted name followed by the first keyword |
| Keywords.GenerateQueriesMeaning | src/shared/entity_screening_keywords.py:81-123 | an error exactly for a blank name; no keywords gives just the stripped name; otherwise distinct queries, at most max_queries, each a variation of the stripped name with one of the first max_queries sorted keywords |
| Keywords.QuoteAll | src/shared/entity_screening_keywords.py:159-160 | one quoted query per keyword, in order |
| Keywords.MixedCount | src/shared/entity_screening_keywords.py:159-162 | the mixed loop never appends more entries than it has keywords |
| Keywords.MixedMeaning | src/shared/entity_screening_keywords.py:152-164 | the mixed bucket has at most six and at most max(1, queries_per_category) entries, is empty exactly when both categories are, and each entry quotes a keyword of the two categories |
| Keywords.Export | src/shared/entity_screening_keywords.py:212-223 | one entry per real category, financial crimes then corruption, each a strictly sorted list |
| Keywords.ElementsOf | src/shared/entity_screening_keywords.py:236 | `set(list)` holds exactly the list's elements |
| Keywords.ImportPreserves | src/shared/entity_screening_keywords.py:225-240 | importing keeps the catalog well formed (no set for ALL) and leaves every category no entry names unchanged |
| Keywords.ImportExportRoundTrip | src/shared/entity_screening_keywords.py:212-240 | importing an export gives back the catalog exactly |
| Keywords.Statistics | src/shared/entity_screening_keywords.py:198-210 | one count per real category, then the size of the union as total |
| Keywords.StatisticsTotalBounds | src/shared/entity_screening_keywords.py:198-210 | the total is at least each category count and at most their sum |
| Keywords.BuiltinFinancialSize | src/shared/entity_screening_keywords.py:27-38 | the built-in financial-crime set has 10 keywords |
| Keywords.BuiltinCorruptionSize | src/shared/entity_screening_keywords.py:39-48 | the built-in corruption set has 8 keywords |
| Keywords.BuiltinDisjoint | src/shared/entity_screening_keywords.py:27-48 | the two built-in sets share no keyword |
| Keywords.BuiltinStatistics | src/shared/entity_screening_keywords.py:198-210 | the built-in statistics are 10, 8 and a total of 18 |
| Keywords.ExpandQueries | src/shared/entity_screening_keywords.py:104-113 | the expansion loop computes the three variations of each chosen keyword, in order |
| Keywords.KeepFirstOccurrences | src/shared/entity_screening_keywords.py:116-121 | the seen-set loop keeps the first occurrence of each query, in order |
| Keywords.MixedQueries | src/shared/entity_screening_keywords.py:159-162 | the mixed loop quotes the picks in order and stops once the list reaches queries_per_category |
| Keywords.KeywordCatalog.constructor | src/shared/entity_screening_keywords.py:25-49 | a new catalog holds the built-in table |
| Keywords.KeywordCatalog.GenerateEntitySearchQueries | src/shared/entity_screening_keywords.py:81-123 | the loops compute the generator's specification |
| Keywords.KeywordCatalog.GenerateComprehensiveSearchQueries | src/shared/entity_screening_keywords.py:125-166 | an error exactly for a blank name; otherwise the two category lists from the generator and the mixed bucket |
| Keywords.KeywordCatalog.AddCustomKeyword | src/shared/entity_screening_keywords.py:168-181 | refuses ALL; adds the stripped, lower-cased keyword unless blank; nothing else changes |
| Keywords.KeywordCatalog.RemoveKeyword | src/shared/entity_screening_keywords.py:183-196 | refuses ALL; removes the keyword from that category only, if present |
| Keywords.KeywordCatalog.ImportKeywords | src/shared/entity_screening_keywords.py:225-240 | entry by entry, each named real category's set is replaced by the list's elements |
| Scoring.FloorBounds | src/lambda/lambda_llm_service_secure.py:309 | the floor of x lies within one unit below x |
| Scoring.FloorMonotone | src/lambda/lambda_llm_service_secure.py:309 | the floor is monotone |
| Scoring.Round3Monotone | src/lambda/lambda_llm_service_secure.py:309 | `round(x, 3)` is monotone |
| Scoring.Round3Close | src/lambda/lambda_llm_service_secure.py:309 | `round(x, 3)` lies within half a unit of the third place of x |
| Scoring.Round3Integer | src/lambda/lambda_llm_service_secure.py:309 | rounding an integer to three places gives the integer |
| Scoring.Round3Bounds | src/lambda/lambda_llm_service_secure.py:309 | rounding to three places keeps a value between integer bounds |
| Scoring.Round1Monotone | src/lambda/lambda_risk_notification_processor.py:210-211 | `round(x, 1)` is monotone |
| Scoring.Round1Integer | src/lambda/lambda_risk_notification_processor.py:210-211 | rounding an integer to one place gives the integer |
| Scoring.Round1Bounds | src/lambda/lambda_risk_notification_processor.py:210-211 | rounding to one place keeps a value between integer bounds |
| Scoring.Clamp | src/lambda/lambda_llm_service_secure.py:307 | `max(0.0, min(1.0, x))` lies in [0, 1], is x inside it, and 0 or 1 outside it |
| Scoring.ClampMonotone | src/lambda/lambda_llm_service_secure.py:307 | clamping is monotone |
| Scoring.WeightedSumFormula | src/lambda/lambda_llm_service_secure.py:293-305 | with every dimension numeric the sum is 0.35 financial + 0.25 corruption + 0.25 regulatory + 0.15 reputational (missing ones count 0.5); otherwise the sum raises |
| Scoring.CompositeInUnitInterval | src/lambda/lambda_llm_service_secure.py:290-313 | the composite score always lies in [0, 1], including the 0.5 of the error path |
| Scoring.CompositeOfDefaults | src/lambda/lambda_llm_service_secure.py:290-313 | an empty assessment scores 0.5 |
| Scoring.CompositeMonotone | src/lambda/lambda_llm_service_secure.py:290-313 | raising one risk dimension never lowers the composite |
| Scoring.CalculateCompositeRiskScore | src/lambda/lambda_llm_service_secure.py:290-313 | the weighted-sum loop, stopping at the first term that raises, computes the composite |
| Scoring.SumStaysNone | src/lambda/lambda_llm_service_secure.py:302-305 | once a term raises, the whole sum raises |
| Scoring.RiskLevelMonotone | src/lambda/lambda_llm_service_secure.py:315-324 | the level is one of CRITICAL, HIGH, MEDIUM, LOW, and a higher score never gets a lower level |
| Scoring.DefaultCompositeIsMedium | src/lambda/lambda_llm_service_secure.py:242-262 | the fallback's composite of 0.5 reads as MEDIUM |
| Scoring.BraceSpan | src/lambda/lambda_llm_service_secure.py:234-236 | no span exactly when either brace is missing; otherwise it starts at the first '{' and ends after the last '}' |
| Scoring.ParseReply | src/lambda/lambda_llm_service_secure.py:233-239 | a decoded reply is the dictionary that `json.loads` gives for the text from the first '{' to the last '}' |
| Scoring.FallbackSummary | src/lambda/lambda_llm_service_secure.py:243 | the fallback summary is the first 200 characters of a non-empty reply |
| Scoring.Parsed | src/lambda/lambda_llm_service_secure.py:232-262 | the decoded dictionary when parsing succeeds, the fixed fallback dictionary otherwise |
| Scoring.AnalysisRecord | src/lambda/lambda_llm_service_secure.py:264-287 | a record exists exactly when risk_assessment is a dictionary; it keeps the original result, the composite of that assessment and the overall score and level with their defaults |
| Scoring.FallbackRecord | src/lambda/lambda_llm_service_secure.py:241-287 | on the fallback path the record is MEDIUM with every dimension 0.5, composite 0.5, relevance 0.5, confidence 0.3, the parsing-error finding and the start of the reply as summary |
| Scoring.FallbackParsedFields | src/lambda/lambda_llm_service_secure.py:242-262 | the fallback dictionary's summary, assessment, findings, relevance and confidence |
| Scoring.FallbackAssessmentFields | src/lambda/lambda_llm_service_secure.py:244-251 | the fallback assessment is MEDIUM with every score 0.5 |
| Scoring.FallbackComposite | src/lambda/lambda_llm_service_secure.py:244-251 | the fallback assessment's composite is 0.5 |
| LlmSecure.DegradedFields | src/lambda/lambda_llm_service_secure.py:88-95 | an error entry has relevance 0.3, the error flag, the original result, and no risk assessment |
| LlmSecure.Analyze | src/lambda/lambda_llm_service_secure.py:145-287 | a Bedrock call that raises makes the analysis raise; a reply is decoded or replaced by the fallback and turned into the record |
| LlmSecure.AnalyzeUndecodable | src/lambda/lambda_llm_service_secure.py:241-262 | a reply that does not decode yields the MEDIUM assessment with composite 0.5, not an error |
| LlmSecure.ProcessOne | src/lambda/lambda_llm_service_secure.py:80-95 | a logged result whose analysis succeeds keeps the analysis; one whose analysis raises becomes an error entry holding the result and the snippet's first 200 characters |
| LlmSecure.EntriesShape | src/lambda/lambda_llm_service_secure.py:76-95 | one entry per result, in order; a failed analysis gives an error entry of its own result; a kept analysis is the analyser's |
| LlmSecure.EntryAt | src/lambda/lambda_llm_service_secure.py:79-95 | entry i is what the turn made of result i |
| LlmSecure.EntriesStayErr | src/lambda/lambda_llm_service_secure.py:79-95 | an exception that escapes a turn ends the whole loop with that error |
| LlmSecure.FallbackItemOf | src/lambda/lambda_llm_service_secure.py:341-355 | the fallback item is FALLBACK_ANALYSIS / ANALYSIS_COMPLETED, counts the entries, expires in 30 days and holds no float |
| LlmSecure.StoreBatch | src/lambda/lambda_llm_service_secure.py:97-111 | whether the data service's store raises is a parameter of the environment, not derived from the data service model; when it does not raise the batch is stored there; when it raises the fallback store is tried, and an item is kept exactly when the fallback store succeeds |
| LlmSecure.RiskLoopShape | src/lambda/lambda_llm_service_secure.py:113-141 | the risk loop sends at most one notification per entry, writes at most one record more than it notified, and notifies every entry when nothing raised |
| LlmSecure.AppendAsksReview | src/lambda/lambda_llm_service_secure.py:126 | a notification asking for review keeps all of them asking for review |
| LlmSecure.RiskStepAsksReview | src/lambda/lambda_llm_service_secure.py:117-126 | one more turn of the risk loop keeps every notification asking for review |
| LlmSecure.RiskLoopNotificationsRequireReview | src/lambda/lambda_llm_service_secure.py:113-141 | every notification the loop sends asks for review (source 'unknown' is the only one recorded) |
| LlmSecure.DegradedRiskRecord | src/lambda/lambda_llm_service_secure.py:119-124 | an error entry whose original result holds no float is written when the put succeeds, with level UNKNOWN and score 0 |
| LlmSecure.ProcessResults | src/lambda/lambda_llm_service_secure.py:76-95 | the per-result loop computes one entry per result, stopping at an escaping exception |
| LlmSecure.StoreRiskRecords | src/lambda/lambda_llm_service_secure.py:113-141 | the store-then-notify loop computes the risk-loop specification |
| LlmSecure.ProcessSearchResults | src/lambda/lambda_llm_service_secure.py:61-141 | nothing happens without results; otherwise one entry per result and a store attempt |
| LlmSecure.AsWrittenNeverAnalyses | src/lambda/lambda_llm_service_secure.py:150-153 | as written every entry is an error entry with relevance 0.3 and the error flag, the error being the missing sanitize_string |
| LlmSecure.DegradedAt | src/lambda/lambda_llm_service_secure.py:85-95 | a logged result whose analysis fails gets an error entry with that analysis's error |
| LlmSecure.CorrectedAnalyses | src/lambda/lambda_llm_service_secure.py:145-287 | with a working sanitiser a result whose reply arrives is analysed, not turned into an error entry |
| LlmSecure.AnalysedAt | src/lambda/lambda_llm_service_secure.py:80-83 | a logged result whose analysis succeeds keeps exactly that analysis |
| LlmSimple.Prompt | src/lambda/lambda_llm_service_simple.py:115-118 | title, url, snippet and context reach the prompt cut to 200, 500, 1000 and 200 characters, as prefixes of the rendered values |
| LlmSimple.Analyze | src/lambda/lambda_llm_service_simple.py:110-246 | a result that is not a dictionary raises; a raising Bedrock call raises; a reply is decoded or replaced by the fallback and turned into the record |
| LlmSimple.MissingOutputText | src/lambda/lambda_llm_service_simple.py:188-215 | a reply without outputText gets the fallback with the fixed summary, MEDIUM and confidence 0.3 |
| LlmSimple.ErrorRecord | src/lambda/lambda_llm_service_simple.py:76-99 | the error record is the full MEDIUM assessment (every score 0.5), confidence 0.3, relevance 0.5 and the error text as finding |
| LlmSimple.ProcessOne | src/lambda/lambda_llm_service_simple.py:68-99 | a logged result keeps its analysis, or gets the error record with the snippet's first 200 characters |
| LlmSimple.RecordsShape | src/lambda/lambda_llm_service_simple.py:67-99 | one record per result; a failed analysis gives the error record of its own result with composite 0.5 and confidence 0.3 |
| LlmSimple.RecordsStayErr | src/lambda/lambda_llm_service_simple.py:67-99 | an exception that escapes a turn ends the whole loop with that error |
| LlmSimple.ProcessResults | src/lambda/lambda_llm_service_simple.py:67-99 | the per-result loop computes the records |
| LlmSimple.Item | src/lambda/lambda_llm_service_simple.py:281-294 | the item's hash is md5 of query_timestamp_llm_analysis; LLM_ANALYSIS / ANALYSIS_COMPLETED; total_count is the record count; ttl in 30 days |
| LlmSimple.RecordHasFloat | src/lambda/lambda_llm_service_simple.py:245-290 | every record holds its composite score as a float |
| LlmSimple.AsWrittenStoreAlwaysFails | src/lambda/lambda_llm_service_simple.py:283-296 | as written, storing any non-empty batch raises TypeError, whatever the table would do |
| LlmSimple.StoreLlmAnalysis | src/lambda/lambda_llm_service_simple.py:274-303 | with floats made decimals, the store succeeds exactly when the put does and writes the item |
| LlmSimple.StoredBatchReadsBack | src/lambda/lambda_llm_service_simple.py:274-303 | the stored batch reads back as the records themselves |
| LlmSimple.ProcessSearchResults | src/lambda/lambda_llm_service_simple.py:51-108 | nothing without results; otherwise it raises exactly when a turn does and keeps one record per result, in order; the store as written raises on the float scores and the error is caught, so nothing is stored |
| RiskOutput.PyFloat | src/shared/risk_output_service.py:234-235 | `float()` of a float is itself, of an int its value, of a string what the string parser gives (ValueError when it refuses), and None, lists and dicts raise TypeError |
| RiskOutput.NameFromQueryWords | src/shared/risk_output_service.py:227-229 | a name taken from the query has its first three words, or all of them when there are fewer |
| RiskOutput.SameSpacingSuffix | src/shared/risk_output_service.py:229 | two strings with whitespace at the same places keep that after dropping a prefix |
| RiskOutput.LStripSameSpacing | src/shared/risk_output_service.py:229 | such strings strip the same leading whitespace |
| RiskOutput.WordLengthSameSpacing | src/shared/risk_output_service.py:229 | such strings have the same leading word length |
| RiskOutput.SplitWordsSameSpacing | src/shared/risk_output_service.py:229 | such strings split into the same number of words, so `title()` keeps the word count |
| RiskOutput.SplitJoinRoundTrip | src/shared/risk_output_service.py:228-229 | splitting a space-joined list of words gives the words back |
| RiskOutput.SplitJoinOne | src/shared/risk_output_service.py:228-229 | a single joined word splits to itself |
| RiskOutput.SplitJoinStep | src/shared/risk_output_service.py:228-229 | the first word splits off a join of two or more |
| RiskOutput.SplitWordsCons | src/shared/risk_output_service.py:228 | a word followed by whitespace or nothing splits off first |
| RiskOutput.WordLengthOfWord | src/shared/risk_output_service.py:228 | the leading word of a word followed by whitespace is that word |
| RiskOutput.LStripSpace | src/shared/risk_output_service.py:228 | leading whitespace does not change the words |
| RiskOutput.RequiresManualReview | src/shared/risk_output_service.py:231-243 | raises exactly when score or confidence cannot be converted by `float()`; otherwise true exactly for HIGH, CRITICAL or UNKNOWN (the default), a score of at least 0.8 or a confidence below 0.6; a missing confidence asks for review whenever the score converts |
| RiskOutput.NotificationPriority | src/shared/risk_output_service.py:245-254 | HIGH exactly for HIGH and CRITICAL, LOW exactly for LOW, NORMAL otherwise; an unhashable level raises |
| RiskOutput.SummaryFields | src/shared/risk_output_service.py:95-101 | the summary handed on has exactly record_id, timestamp, entity_name, risk_level and overall_risk_score |
| RiskOutput.BuildRiskRecord | src/shared/risk_output_service.py:49-85 | record id is hash(query + now) then the source; COMPLETED; ttl 90 days; level with default UNKNOWN; the extracted name; the three converted fields (risk_assessment, overall_risk_score, confidence_level) hold no float; entity_id and source_risk_indicators exactly when given |
| RiskOutput.StoreRiskAssessment | src/shared/risk_output_service.py:31-104 | a record is written exactly when the entity data and assessment are dictionaries, the record holds no float anywhere and the put succeeds; a float in any field makes `put_item` raise TypeError with nothing written; the summary repeats its id, time, name, level and score as a float |
| RiskOutput.StorableRecord | src/shared/risk_output_service.py:57-87 | the built record is storable exactly when the fields stored as given (name, type, jurisdiction, level, findings, factors, concerns, entity_id, risk_indicators) hold no float; the three converted fields never do |
| RiskOutput.FloatFreeStorable | src/shared/risk_output_service.py:57-87 | float-free entity data, assessment and lists give a storable record |
| RiskOutput.FloatFindingRefused | src/shared/risk_output_service.py:71-109 | a float among the key findings makes the call raise TypeError, and nothing is written |
| RiskOutput.UnassessedRecord | src/shared/risk_output_service.py:57-90 | an analysis with no assessment, findings, factors or concerns, for float-free entity data, is written when the put succeeds, with level UNKNOWN and score 0 |
| RiskOutput.StoredScores | src/shared/risk_output_service.py:66-101 | for a storable record, the summary's score is the analysis's own float, or 0 when none; a missing confidence is stored as 0 |
| RiskOutput.SendRiskNotification | src/shared/risk_output_service.py:106-164 | False without a queue URL; a message exactly when every key is present, score and review convert, the level and the name are strings and the body holds no Decimal; the body carries the record's id, name, level, timestamp and source (default unknown), the converted score, the review decision and `now`; the EntityName attribute is the name's first 100 characters; True exactly when a message was built and SQS accepted it |
| RiskOutput.PipelineNotificationsRequireReview | src/shared/risk_output_service.py:95-125 | a notification built from a stored summary always asks for review and names the source unknown |
| RiskOutput.Decide | src/shared/risk_output_service.py:306-322 | an alert exactly for HIGH or CRITICAL, a review request exactly when requires_review is truthy, the alert first; a body that is not a dictionary fails |
| RiskOutput.AsWrittenIgnoresSqsRecords | src/shared/risk_output_service.py:297-300 | as written, a record without 'Body' is handled as {} and no action is taken |
| RiskOutput.AsWrittenMissesHighRisk | src/shared/risk_output_service.py:297-300 | as written, an SQS record carrying a CRITICAL notification that asks for review under 'body' triggers nothing |
| RiskOutput.ProcessNotification | src/shared/risk_output_service.py:285-328 | reading the body where SQS records carry it; an alert, when taken, comes first |
| RiskOutput.ProcessNotificationActs | src/shared/risk_output_service.py:306-322 | a HIGH or CRITICAL notification asking for review triggers the alert and then the review request |
| RiskOutput.ProcessNotificationIgnoresSendFailures | src/shared/risk_output_service.py:324-379 | a failed alert or review send never turns the handling into a failure |
| RiskOutput.DeliveredNotificationActions | src/shared/risk_output_service.py:106-328 | a notification sent for a stored assessment and delivered as an SQS record always leads to a review request, and to an alert exactly when the level is HIGH or CRITICAL |
| NotificationProcessor.SummaryOf | src/lambda/lambda_risk_notification_processor.py:156-212 | no assessments give the all-zero summary; otherwise the total is their number, the high-risk count is the number that are HIGH/CRITICAL or score at least 0.8, the review count the number that are HIGH/CRITICAL or have a confidence (default 1.0) below 0.6, the average score is the total of the scores over the total, rounded to three places, and the percentages are those counts over the total times 100, rounded to one place; it raises exactly when some assessment is not a dictionary, has a score or confidence that does not convert to float, or has a level that cannot be a dictionary key |
| NotificationProcessor.StepAdmissible | src/lambda/lambda_risk_notification_processor.py:182-199 | one pass of the loop body raises exactly for an assessment that is not admissible, whatever the counters, and otherwise adds that assessment's score to the total |
| NotificationProcessor.TalliedAdmissible | src/lambda/lambda_risk_notification_processor.py:182-203 | the loop finishes exactly when every assessment is admissible, and its running score total is then the sum of the scores |
| NotificationProcessor.TalliedStaysErr | src/lambda/lambda_risk_notification_processor.py:180-200 | a score or confidence that raises ends the loop with that error |
| NotificationProcessor.CalculateRiskSummary | src/lambda/lambda_risk_notification_processor.py:156-212 | the counting loop computes the summary |
| NotificationProcessor.SumRemove | src/lambda/lambda_risk_notification_processor.py:186 | the sum of a count map splits off any one level |
| NotificationProcessor.SumIncrement | src/lambda/lambda_risk_notification_processor.py:186 | counting one more at a level raises the sum by one |
| NotificationProcessor.TallyCounts | src/lambda/lambda_risk_notification_processor.py:180-200 | each level's count is its number of assessments (missing levels under UNKNOWN), the counts add up to the total, and the high-risk and review counters count exactly the assessments meeting each rule |
| NotificationProcessor.ReviewRulesDiffer | src/lambda/lambda_risk_notification_processor.py:192-199 | a MEDIUM assessment scored 0.9 with confidence 0.9 is flagged by `_requires_manual_review` yet not counted for review by the summary (it counts as high risk) |
| NotificationProcessor.CountsStep | src/lambda/lambda_risk_notification_processor.py:186 | counting the last assessment keeps the distribution in step with the input |
| NotificationProcessor.LevelStep | src/lambda/lambda_risk_notification_processor.py:186 | counting the last assessment changes only its own level's count |
| NotificationProcessor.TalliedLast | src/lambda/lambda_risk_notification_processor.py:180-200 | the counters after one more assessment are one step on: one more at its level, each flag count up by at most one |
| NotificationProcessor.StepCounts | src/lambda/lambda_risk_notification_processor.py:181-198 | one turn counts its assessment once and raises each flag count by at most one |
| NotificationProcessor.TallyScoreSum | src/lambda/lambda_risk_notification_processor.py:189 | scores in [0, 1] sum to at most the number of assessments |
| NotificationProcessor.Ratio | src/lambda/lambda_risk_notification_processor.py:203 | a sum of at most n over n lies in [0, 1] |
| NotificationProcessor.Percentage | src/lambda/lambda_risk_notification_processor.py:210-211 | a count out of n as a percentage rounded to one place lies in [0, 100] |
| NotificationProcessor.SummaryBounds | src/lambda/lambda_risk_notification_processor.py:156-212 | the distribution adds up to the total, the high-risk and review counts never exceed it, both percentages lie in [0, 100] |
| NotificationProcessor.SummaryFromTally | src/lambda/lambda_risk_notification_processor.py:182-212 | a summary that exists reports the loop's distribution, high-risk and review counters, and their percentages of the total |
| NotificationProcessor.SummaryDistribution | src/lambda/lambda_risk_notification_processor.py:182-186 | each level's count is its number of assessments |
| NotificationProcessor.SummaryAverage | src/lambda/lambda_risk_notification_processor.py:203-207 | with every score in [0, 1], the rounded average lies in [0, 1] |
| NotificationProcessor.MissingLevelIsUnknown | src/lambda/lambda_risk_notification_processor.py:182 | an assessment without a level is counted under UNKNOWN |
| NotificationProcessor.Counted | src/lambda/lambda_risk_notification_processor.py:55-73 | every record is counted once, as processed or as failed; a record is processed when it is a dictionary and the processor, reading `'Body'` as written, answers True |
| NotificationProcessor.CountNotifications | src/lambda/lambda_risk_notification_processor.py:55-73 | the record loop computes those two counts |
| NotificationProcessor.DictRecordsAllProcessed | src/lambda/lambda_risk_notification_processor.py:55-73 | dictionary records without a `'Body'`, or with a dictionary under it, are all counted as processed |
| NotificationProcessor.UndecodableRecordCountsProcessed | src/lambda/lambda_risk_notification_processor.py:55-73 | an SQS record whose `'body'` text does not decode is still counted as processed, since the processor never reads it |
| NotificationProcessor.NotificationHandler | src/lambda/lambda_risk_notification_processor.py:27-97 | 200 with zero counts when there is no 'Records'; with a list, 200 with the as-written processed and failed counts, adding up to the number of records |
| NotificationProcessor.ReviewOf | src/lambda/lambda_risk_notification_processor.py:229-254 | a handled review request is PENDING_MANUAL_REVIEW, processed now |
| NotificationProcessor.ReviewCount | src/lambda/lambda_risk_notification_processor.py:229-258 | the count never exceeds the number of records |
| NotificationProcessor.ReviewCountAll | src/lambda/lambda_risk_notification_processor.py:229-258 | every record is counted exactly when none raises |
| NotificationProcessor.CountReviews | src/lambda/lambda_risk_notification_processor.py:229-258 | the record loop computes that count |
| NotificationProcessor.DecodedRequestCounted | src/lambda/lambda_risk_notification_processor.py:233-252 | a request already decoded as a dictionary of strings is counted, with its entity name and level |
| NotificationProcessor.ManualReviewHandler | src/lambda/lambda_risk_notification_processor.py:214-279 | with a list of records, 200 with processed_count the number handled without an exception |
| Orchestrator.Respond | src/lambda/lambda_orchestrator_secure.py:87 | the response has the given status, and any status but 500 keeps its body |
| Orchestrator.ErrorBody | src/lambda/lambda_orchestrator_secure.py:187 | every 500 reaches the caller as the generic error body, whatever message the handler wrote |
| Orchestrator.SearchOnlyPayload | src/lambda/lambda_orchestrator_secure.py:149-160 | the payload carries the query and count and asks for no LLM processing |
| Orchestrator.SearchOnly | src/lambda/lambda_orchestrator_secure.py:142-195 | 200 exactly when the search service answered 200 with a decodable body; otherwise 500 with the generic body |
| Orchestrator.AsyncPayload | src/lambda/lambda_orchestrator_secure.py:200-213 | the payload asks for LLM processing and names the LLM topic, or none |
| Orchestrator.Tracking | src/lambda/lambda_orchestrator_secure.py:226-230 | tracking exists only for a dictionary of data |
| Orchestrator.AcceptedBody | src/lambda/lambda_orchestrator_secure.py:232-246 | the accepted body is success, async mode, message, results and the tracking |
| Orchestrator.AsyncWorkflow | src/lambda/lambda_orchestrator_secure.py:197-257 | 202 with the accepted body exactly when the search service answered 200 with a decodable body carrying its storage information; otherwise 500 with the generic body |
| Orchestrator.Settle | src/lambda/lambda_orchestrator_secure.py:295-321 | a status check settles only on SUCCEEDED or FAILED, TIMED_OUT, ABORTED; 200 exactly on SUCCEEDED with decodable output, carrying that output as data and the execution_arn; everything else that settles is 500 |
| Orchestrator.PollFrom | src/lambda/lambda_orchestrator_secure.py:289-324 | the loop makes at most 30 status checks |
| Orchestrator.PollFromStatus | src/lambda/lambda_orchestrator_secure.py:293-340 | the loop answers the timeout or what some round settled on |
| Orchestrator.PollSkip | src/lambda/lambda_orchestrator_secure.py:293-324 | rounds still running only add to the number of checks |
| Orchestrator.RoundsStatus | src/lambda/lambda_orchestrator_secure.py:295-321 | every settled round answers 200 or 500 |
| Orchestrator.Poll | src/lambda/lambda_orchestrator_secure.py:289-340 | at most 30 checks; the answer is 200, 202 or 500 |
| Orchestrator.HandleSyncWorkflow | src/lambda/lambda_orchestrator_secure.py:259-346 | starting the execution and polling it computes the sync workflow, with at most 30 status checks |
| Orchestrator.PollExecution | src/lambda/lambda_orchestrator_secure.py:289-324 | the waited_time loop computes the poll specification, with at most 30 checks |
| Orchestrator.PollFound | src/lambda/lambda_orchestrator_secure.py:293-324 | the loop ends at the first round that settles, after that many checks, or with the timeout after all 30 |
| Orchestrator.SyncFailureHidesArn | src/lambda/lambda_orchestrator_secure.py:312-321 | a failed, timed-out or aborted execution answers 500 with the generic body: its ARN never reaches the caller |
| Orchestrator.SyncTimesOut | src/lambda/lambda_orchestrator_secure.py:293-340 | without a terminal status the loop gives up after exactly 30 checks with 202 and success false |
| Orchestrator.ScreeningWorkflow | src/lambda/lambda_orchestrator_secure.py:348-410 | 200 exactly when the screening service answered 200 with a decodable body, carrying that body as screening_data with the entity name; otherwise 500 with the generic body |
| Orchestrator.ScreenedBody | src/lambda/lambda_orchestrator_secure.py:386-395 | the success body carries the decoded screening data, the request's entity_name (null when absent) and processing_mode entity_screening |
| Orchestrator.SearchRequest | src/lambda/lambda_orchestrator_secure.py:89-140 | 400 when the query or count fails validation, or the mode is not search_only, async or sync |
| Orchestrator.ScreeningBeforeMode | src/lambda/lambda_orchestrator_secure.py:103-130 | a valid request with use_entity_screening set goes to the screening workflow, not to the workflow its mode names |
| Orchestrator.SearchOnlyRouting | src/lambda/lambda_orchestrator_secure.py:118-130 | without screening mode a valid search_only request goes to the search-only workflow with the validated query and count |
| Orchestrator.AsyncRouting | src/lambda/lambda_orchestrator_secure.py:118-130 | without screening mode a valid async request goes to the asynchronous workflow with the validated query and count |
| Orchestrator.SyncRouting | src/lambda/lambda_orchestrator_secure.py:118-130 | without screening mode a valid sync request goes to the synchronous workflow with the validated query and count |
| Orchestrator.HealthCheck | src/lambda/lambda_orchestrator_secure.py:412-461 | 200 and healthy exactly when all three dependencies are up, otherwise 503 and degraded |
| Orchestrator.ApiGatewayRequest | src/lambda/lambda_orchestrator_secure.py:60-87 | 400 for an undecodable body; POST to a /search path is the search request; GET to /health the health check; any other verb 404 |
| Orchestrator.DirectInvocation | src/lambda/lambda_orchestrator_secure.py:487-520 | an unknown mode is 400; search_only hands the event's own query and count to the search service |
| Orchestrator.DirectQueryUnvalidated | src/lambda/lambda_orchestrator_secure.py:495-505 | a directly invoked search forwards the query unvalidated |
| Orchestrator.RouteOf | src/lambda/lambda_orchestrator_secure.py:36-50 | API Gateway exactly when httpMethod is present; event-driven exactly when Records is present without it |
| Orchestrator.LambdaHandler | src/lambda/lambda_orchestrator_secure.py:28-58 | API Gateway events go to the API handler, everything else without Records to direct invocation |
| ScreeningService.HitsJson | src/lambda/lambda_entity_screening_service.py:130-134 | one JSON entry per hit |
| ScreeningService.ShapedMeaning | src/lambda/lambda_entity_screening_service.py:297-308 | shaping succeeds exactly when every organic result is a dictionary; hit i is at position i + 1, carries its query, and its title, URL and snippet are leading parts of the result's own of at most 200, 500 and 500 characters |
| ScreeningService.PerformSingleSearch | src/lambda/lambda_entity_screening_service.py:260-317 | the enumerate loop computes the shaped hits of one search, or its error |
| ScreeningService.GatheredMeaning | src/lambda/lambda_entity_screening_service.py:206-218 | every gathered hit was found by one of the category's queries; when every query fails the category is empty |
| ScreeningService.ShapedQuery | src/lambda/lambda_entity_screening_service.py:297-308 | every hit of one search carries that search's query |
| ScreeningService.GatherCategory | src/lambda/lambda_entity_screening_service.py:206-218 | the per-query loop extends with each success and skips each failure |
| ScreeningService.TargetCategory | src/lambda/lambda_entity_screening_service.py:224-231 | a known category name, in any case, is that category; any other name screens against all keywords |
| ScreeningService.KeysOf | src/lambda/lambda_entity_screening_service.py:105 | the keys of a dictionary in insertion order |
| ScreeningService.Position | src/lambda/lambda_entity_screening_service.py:254 | where a key sits among the keys |
| ScreeningService.Put | src/lambda/lambda_entity_screening_service.py:254 | `d[k] = v`: an existing key keeps its place and takes the new value, a new key goes last, nothing else changes |
| ScreeningService.Assign | src/lambda/lambda_entity_screening_service.py:228-256 | the keys of the assignments made in order are the distinct assigned keys in order of first assignment |
| ScreeningService.AssignSnoc | src/lambda/lambda_entity_screening_service.py:254 | one more assignment is one more `d[k] = v` |
| ScreeningService.AssignKeepsLast | src/lambda/lambda_entity_screening_service.py:254 | a later assignment to a key overwrites: each key ends with its last value |
| ScreeningService.LastValueAssigned | src/lambda/lambda_entity_screening_service.py:254 | a key's last value was assigned to it |
| ScreeningService.Requests | src/lambda/lambda_entity_screening_service.py:228-256 | one assignment per requested name, in order |
| ScreeningService.RequestsSnoc | src/lambda/lambda_entity_screening_service.py:230-254 | one more requested name is one more assignment |
| ScreeningService.Targeted | src/lambda/lambda_entity_screening_service.py:224-256 | one entry per distinct requested name, in order of first request |
| ScreeningService.TargetedMeaning | src/lambda/lambda_entity_screening_service.py:224-256 | the keys are exactly the requested names without repetition, each holding its category's hits |
| ScreeningService.ComprehensiveQueries | src/lambda/lambda_entity_screening_service.py:198-203 | the query lists are financial_crimes, corruption_bribery and mixed, in that order |
| ScreeningService.GatherEach | src/lambda/lambda_entity_screening_service.py:204-220 | each category's list of queries is gathered at the given count |
| ScreeningService.Comprehensive | src/lambda/lambda_entity_screening_service.py:196-222 | comprehensive screening has exactly financial_crimes, corruption_bribery and mixed |
| ScreeningService.Names | src/lambda/lambda_entity_screening_service.py:230-231 | a list of strings gives one name per entry |
| ScreeningService.ScreenEach | src/lambda/lambda_entity_screening_service.py:204-220 | the category loop computes each category's hits |
| ScreeningService.ScreenName | src/lambda/lambda_entity_screening_service.py:231-252 | one targeted name gets its category's queries gathered at three hits each |
| ScreeningService.ScreenTargeted | src/lambda/lambda_entity_screening_service.py:228-256 | the name loop computes targeted screening |
| ScreeningService.ComprehensiveFrom | src/lambda/lambda_entity_screening_service.py:198-203 | the catalog's comprehensive query lists |
| ScreeningService.PerformComprehensiveScreening | src/lambda/lambda_entity_screening_service.py:178-258 | a fresh catalog, then the comprehensive or targeted loop, computes the screening |
| ScreeningService.NoCapKeepsEveryQuery | src/shared/entity_screening_keywords.py:107-123 | a bound standing for `None` keeps every de-duplicated variation of every keyword |
| ScreeningService.NullCountRunsEveryQuery | src/lambda/lambda_entity_screening_service.py:224-252 | a targeted request with a null queries_per_category screens each requested name with every query its category generates |
| ScreeningService.WithResults | src/lambda/lambda_entity_screening_service.py:151 | categories_with_results holds exactly the categories with at least one hit |
| ScreeningService.TotalHitsZero | src/lambda/lambda_entity_screening_service.py:92-151 | no hits at all exactly when no category has results |
| ScreeningService.StoredOnlyNonEmpty | src/lambda/lambda_entity_screening_service.py:103-121 | only categories with results are stored, at most one record per category |
| ScreeningService.Stored | src/lambda/lambda_entity_screening_service.py:103-121 | when the client IP cannot be read from the event, nothing is stored |
| ScreeningService.StoreScreening | src/lambda/lambda_entity_screening_service.py:103-121 | the storage loop computes the stored records |
| ScreeningService.AllHitsCount | src/lambda/lambda_entity_screening_service.py:92-131 | the combined hits number exactly the summary's total |
| ScreeningService.TriggerMessage | src/lambda/lambda_entity_screening_service.py:319-365 | the message has exactly its six fields, results_count equal to the number of hits sent |
| ScreeningService.SuccessBody | src/lambda/lambda_entity_screening_service.py:144-167 | the body has its six keys, plus storage_info exactly when something was stored, and the two flags as given |
| ScreeningService.Failed | src/lambda/lambda_entity_screening_service.py:56-79 | an error answer with its status, and nothing screened, stored or published |
| ScreeningService.Screened | src/lambda/lambda_entity_screening_service.py:84-169 | after validation the handler answers 200 |
| ScreeningService.Handle | src/lambda/lambda_entity_screening_service.py:30-176 | a missing or blank entity name is 400 before any search; the status is 200, 400 or 500 |
| ScreeningService.LambdaHandler | src/lambda/lambda_entity_screening_service.py:30-176 | validation, the screening, the storage loop and the trigger compute the handler's specification |
| ScreeningService.ResponseFlags | src/lambda/lambda_entity_screening_service.py:100-167 | stored_in_database is true exactly when storing was asked and something was stored; llm_processing_triggered exactly when LLM processing was asked with a topic, even when nothing was published; storage_info exactly when something was stored |
| ScreeningService.ScreenedMeaning | src/lambda/lambda_entity_screening_service.py:103-141 | only categories with results are stored, and the trigger carries every hit |
| SearchService.ResultJson | src/lambda/lambda_search_service_secure.py:206-211 | a sanitised result has exactly title, url, snippet and position |
| SearchService.ResultsJson | src/lambda/lambda_search_service_secure.py:212 | one JSON entry per result |
| SearchService.Min | src/lambda/lambda_search_service_secure.py:189 | `min(a, b)` is at most both and one of them |
| SearchService.SanitizedAllMeaning | src/lambda/lambda_search_service_secure.py:204-212 | sanitising succeeds exactly when every organic result is a dictionary; result i is at position i + 1 and its title, URL and snippet are leading parts of the original's, of at most 200, 500 and 500 characters |
| SearchService.PerformSearch | src/lambda/lambda_search_service_secure.py:176-225 | the enumerate loop computes the search's sanitised results or its error |
| SearchService.CategoryFor | src/lambda/lambda_search_service_secure.py:279-285 | a known category name, in any case, is that category; anything else is ALL |
| SearchService.ScreeningQueries | src/lambda/lambda_search_service_secure.py:263-301 | a name or category that is not a string, or a blank name, gives the fallback query |
| SearchService.UnknownCategoryIsAll | src/lambda/lambda_search_service_secure.py:285 | an unknown category gives the same queries as all |
| SearchService.UnknownMapsToAll | src/lambda/lambda_search_service_secure.py:285 | an unknown category name maps to ALL |
| SearchService.SameCategorySameQueries | src/lambda/lambda_search_service_secure.py:285-291 | the queries depend on the category name only through the category it maps to |
| SearchService.LimitOfNoneKeepsAll | src/shared/entity_screening_keywords.py:106-123 | a bound of three queries per keyword keeps the whole de-duplicated expansion |
| SearchService.FirstScreeningQueryIsUnsafe | src/lambda/lambda_search_service_secure.py:71-79 | the first screening query contains a double quote, so it is not any query the validator returns, yet it is searched unvalidated |
| SearchService.FirstScreeningQuery | src/lambda/lambda_search_service_secure.py:71-79 | the first screening query is the quoted, stripped name followed by the first sorted keyword |
| SearchService.RequestData | src/lambda/lambda_search_service_secure.py:56-62 | without a non-empty body the event itself is the request |
| SearchService.SelectQuery | src/lambda/lambda_search_service_secure.py:65-86 | in entity mode the first screening query as it is; otherwise the validated query, whose rejection is a ValueError |
| SearchService.ProcessWithLlm | src/lambda/lambda_search_service_secure.py:89-90 | enable_llm_processing when given, else process_with_llm, else the entity-mode flag |
| SearchService.Topic | src/lambda/lambda_search_service_secure.py:140 | the callback topic when truthy, else the configured topic, and only a truthy one |
| SearchService.TriggerMessage | src/lambda/lambda_search_service_secure.py:227-261 | the message has exactly its five fields, every result, their count, the query cut to 500 characters and the timestamp |
| SearchService.SuccessBody | src/lambda/lambda_search_service_secure.py:152-167 | the body has its six keys, plus storage_info exactly when stored, with the count, the query and the two flags |
| SearchService.Failed | src/lambda/lambda_search_service_secure.py:84-113 | an error answer with its status |
| SearchService.Answered | src/lambda/lambda_search_service_secure.py:100-169 | after a successful search the answer is 200, and the search asked for min(count, 100) |
| SearchService.Handle | src/lambda/lambda_search_service_secure.py:30-174 | the status is 200, 400 or 500, and 200 exactly when a search was made and answered |
| SearchService.LambdaHandler | src/lambda/lambda_search_service_secure.py:30-174 | the handler with the search loop computes the specification |
| SearchService.SearchedCount | src/lambda/lambda_search_service_secure.py:83-103 | the search runs the selected query with exactly the validated count, in 1..100 |
| SearchService.AnsweredFlags | src/lambda/lambda_search_service_secure.py:115-167 | 200 whatever storage and SNS do; stored_in_database exactly when storing was asked, the client IP could be read from the event and the store succeeded; storage_info exactly when stored; llm_processing_triggered exactly when a publication went through |
| SearchService.PublicationMeaning | src/lambda/lambda_search_service_secure.py:136-150 | a publication is attempted exactly when LLM processing is asked, there are results and a topic; it carries every result, the query cut to 500 and the storage timestamp when stored, else the search's |
| SearchService.PublicationOfMeaning | src/lambda/lambda_search_service_secure.py:136-150 | the same for the publication step on its own |
| GdcSearch.ClauseOf | src/lambda/lambda_gdc_search_service.py:92-105 | each filter key gives at most one clause |
| GdcSearch.FilterClausesMeaning | src/lambda/lambda_gdc_search_service.py:50-108 | the request keeps the query and size; the filter is present exactly when some filter value is truthy, and then holds one to three clauses, each from its own value, in the order entity type, jurisdiction, risk level |
| GdcSearch.ClausesOrdered | src/lambda/lambda_gdc_search_service.py:92-105 | at most one clause per filter key, each from its own value, in key order |
| GdcSearch.ClausesNone | src/lambda/lambda_gdc_search_service.py:107-108 | no clause exactly when no filter value is truthy |
| GdcSearch.BuildSearchBody | src/lambda/lambda_gdc_search_service.py:50-108 | the request-building steps compute the search body |
| GdcSearch.StringList | src/lambda/lambda_gdc_search_service.py:136-140 | a list of strings as JSON, element by element |
| GdcSearch.EntityJson | src/lambda/lambda_gdc_search_service.py:131-195 | an index entity has exactly its nine fields, with its id, name, type, jurisdiction and indicators |
| GdcSearch.NamedMeaning | src/lambda/lambda_gdc_search_service.py:127-180 | the named entities keep the fixed order Wells Fargo, JPMorgan, Goldman, each present exactly when one of its words is in the query |
| GdcSearch.MockResultsMeaning | src/lambda/lambda_gdc_search_service.py:123-195 | between one and size results: the generic entity alone when no known name occurs, otherwise the named ones in order, each present exactly when named (size at least 3) |
| GdcSearch.PickMeaning | src/lambda/lambda_gdc_search_service.py:181-195 | the same for any list of words |
| GdcSearch.NamedEntities | src/lambda/lambda_gdc_search_service.py:127-180 | the checks append the named entities in order |
| GdcSearch.GenerateMockResults | src/lambda/lambda_gdc_search_service.py:123-195 | the method computes the mock results |
| GdcSearch.StandardizedMeaning | src/lambda/lambda_gdc_search_service.py:277-285 | a standard record has its position, links to gdc://entity/<entity_id or unknown>, is titled by the entity name or Unknown Entity, and carries the entity |
| GdcSearch.StandardizedAllMeaning | src/lambda/lambda_gdc_search_service.py:275-285 | one record per entity; record i is entity i at position i + 1 |
| GdcSearch.StandardizedAllAt | src/lambda/lambda_gdc_search_service.py:275-285 | record i is entity i standardised at position i + 1 |
| GdcSearch.Standardize | src/lambda/lambda_gdc_search_service.py:275-285 | the append loop computes the standard records |
| GdcSearch.MockResultsStandardize | src/lambda/lambda_gdc_search_service.py:123-195 | every mock entity standardises |
| GdcSearch.EntityStandardizes | src/lambda/lambda_gdc_search_service.py:282 | an entity in the index shape standardises at any position |
| GdcSearch.RequestBody | src/lambda/lambda_gdc_search_service.py:220-228 | without a non-empty body the event itself is the request |
| GdcSearch.Topic | src/lambda/lambda_gdc_search_service.py:311 | the callback topic when truthy, else the configured one, and only a truthy one |
| GdcSearch.TriggerMessage | src/lambda/lambda_gdc_search_service.py:317-326 | the message has exactly its five fields, the first three results, the index name, the full count and the timestamp |
| GdcSearch.SuccessBody | src/lambda/lambda_gdc_search_service.py:345-361 | the body has its nine keys, plus storage_info exactly when stored, with results, count and the two flags |
| GdcSearch.Failed | src/lambda/lambda_gdc_search_service.py:243-268 | an error answer with its status and no search |
| GdcSearch.ResultsJson | src/lambda/lambda_gdc_search_service.py:123-195 | one JSON entity per mock entity |
| GdcSearch.Answered | src/lambda/lambda_gdc_search_service.py:246-370 | after the search the answer is 200 with that request |
| GdcSearch.Handle | src/lambda/lambda_gdc_search_service.py:197-378 | the status is 200, 400 or 500, and 200 exactly when a search was made |
| GdcSearch.StoreResults | src/lambda/lambda_gdc_search_service.py:271-305 | standardise, read the client IP, then store; a failure of any step leaves nothing stored |
| GdcSearch.LambdaHandler | src/lambda/lambda_gdc_search_service.py:197-378 | the handler with its loops computes the specification |
| GdcSearch.Answer | src/lambda/lambda_gdc_search_service.py:250-370 | the search, storage and publication steps compute the answer |
| GdcSearch.NonGdcIndexRefused | src/lambda/lambda_gdc_search_service.py:234-243 | a valid query and size with an index outside gdc- is 400 with the validator's message, and nothing is searched |
| GdcSearch.AnsweredMeaning | src/lambda/lambda_gdc_search_service.py:307-361 | a publication exactly when processing is on and a topic exists, carrying at most three results and the full count; stored_in_database and storage_info exactly when stored; llm_processing_triggered exactly when published |
| GdcSearch.PublicationShape | src/lambda/lambda_gdc_search_service.py:307-335 | a publication exactly when processing is on and a topic exists, with at most three results and the full count |
| GdcSearch.SuccessResponse | src/lambda/lambda_gdc_search_service.py:345-370 | the 200 response's flags and storage_info say what storage and publication did |
| GdcSearch.MockResultsStored | src/lambda/lambda_gdc_search_service.py:271-305 | with storing on, a readable client IP and a working store, the mock results are always stored |

## Left out

- Case mapping is ASCII-only: `lower()` and `title()` change only ASCII letters, so there is no Unicode case mapping. `strip()` and `split()` use Python's full set of whitespace characters.
- Floating point is `real`: there is no IEEE rounding, infinity or NaN.
- Scoring.Round3Close: `round(x, 3)` and `round(x, 1)` are modelled as round-half-up on exact reals. Python rounds the binary float half-to-even, so a tie may round the other way. The rounding lemmas (monotone, within half a unit, bounds kept) hold for both.
- `json.loads` and `json.dumps` are parameters. No JSON text is parsed or printed.
- An exception is modelled by its kind (`TypeError`, `AttributeError`, a validation error, and so on). The text of its message is not modelled. Where a response body carries `str(e)`, the model carries a rendering parameter.
- The text of the prompts sent to Bedrock is not modelled. The model keeps only the truncated fields the prompt is built from.
- The AWS and HTTP calls are parameters:
  - DynamoDB put, update, scan and delete;
  - SNS publish and SQS send;
  - Step Functions start and describe;
  - Lambda invoke;
  - Secrets Manager;
  - Bedrock `invoke_model`;
  - `requests.post`.
- The clock is a parameter. Timestamps and ttl values are given, and `_calculate_processing_duration` is a given duration.
- The `time.sleep` throttles are not modelled. The orchestrator's poll loop is counted in rounds, at most 30.
- The OpenSearch request body's constant parts and the real OpenSearch call are not modelled. The GDC search is modelled through its filter clauses and its mock results.
- The order in which a dictionary's keys are iterated is not modelled where only the contents matter. Maps stand for such dictionaries. Where the order matters, an association list is used, or a sorted list.
- ScreeningService.Names: a dictionary given as `screening_categories` is iterated in sorted key order (through Security.Iterate), where Python iterates in insertion order. That order decides the order of the storage loop and of the hits in the trigger message. The documented input is a list of strings, which keeps its order.
- DataService.Ordered: with two or more items, any timestamp that is not a string raises TypeError, even when all timestamps are numbers that Python's `sorted` would order. `timestamp` is the table's string sort key, so every stored item has a string timestamp.
- The iteration order of a Python set is a parameter wherever the code takes its first few elements, as in the mixed bucket of the comprehensive queries.
- DataService.MetricsOf: a `relevance_score` that is a Decimal is treated as a `TypeError`. In Python, Decimals can be summed together and with ints, and only a sum that mixes a Decimal with a float fails.
- src/shared/production_monitoring.py is not part of this model: it emits CloudWatch metrics, runs health probes and times calls.
- `RateLimiter` and `SecurityManager.get_secret` / `get_parameter` are not part of this model. They are backed by DynamoDB and Secrets Manager, and their outcomes are parameters of the handlers that use them.
- The `secure_lambda_handler` example handler function (production_security_fixes.py:236) is not part of this model.
- simple_search_lambda.py is not part of this model. It is a thin inline copy of the search service's search, storage and notification steps.
- src/entity_screening_demo.py is not part of this model. It only prints a demonstration.
- The orchestrator's `handle_event_driven_request` (lambda_orchestrator_secure.py:463-485) is not modelled beyond its routing. It decodes the records' messages and does nothing with them.
- The LLM services' own `lambda_handler` dispatch is not modelled. The model starts at `process_search_results` with the message already decoded.
- These read-only queries are not modelled; they only scan and reshape the table:
  - `get_search_results` and `get_recent_searches` of the data service;
  - `get_risk_assessments` of the risk output service;
  - `get_risk_dashboard_data` of the notification processor.
- The `health_check_handler` functions of the entity-screening service and the search service are not modelled. They are probes: each reports degraded when a secret, the table or a sample keyword generation fails.
- The module-level keyword helper functions (entity_screening_keywords.py:242-280) are not modelled. Each builds a fresh catalog and calls one of its methods, and those methods are modelled.
- The GDC service's `trigger_llm_processing` (lambda_gdc_search_service.py:380-411) is not modelled. Its handler never calls it and publishes inline instead, and that inline publication is modelled.
- The stored screening and search records' metadata fields other than the client IP are not modelled. Only the client-IP lookup is, because it can raise before anything is stored.
- DataService.SearchResultsDataService.CleanupExpiredRecords: the scan returns one page, and the code never follows `LastEvaluatedKey`. The model takes that page as a parameter: any set of expired keys. The 1 MB page size itself is not modelled, so the model does not say which expired items a page holds.
- Security.PyInt: a numeral written in non-ASCII decimal digits, such as the Arabic-Indic `٣`, is refused, while Python's `int()` reads any Unicode decimal digit. Security.ValidateNumResults inherits this. Underscore grouping is modelled.
- RiskOutput.BuildRiskRecord: only risk_assessment, overall_risk_score and confidence_level go through the float-to-Decimal conversion. key_findings, risk_factors, compliance_concerns, entity_type, jurisdiction, entity_id and source_risk_indicators are stored as given. A float inside any of them makes `put_item` raise TypeError, and `store_risk_assessment` re-raises it; `StoreRiskAssessment` models that rejection.
- NotificationProcessor.SummaryOf: the risk distribution is keyed by JSON values, so the levels `1`, `1.0` and `True` are three keys, while a Python dictionary merges them into one. Only risk levels that are not strings are affected.
- Collision freedom of md5 and `hash()` is not assumed: both are uninterpreted parameters.

## Findings

| source | as written | input that shows it | evidently intended | confidence | as-written member | corrected member |
|---|---|---|---|---|---|---|
| src/lambda/lambda_llm_service_secure.py:150-153 | `analyze_with_nova_llm` calls `input_validator.sanitize_string`, which `InputValidator` does not define. Every result therefore raises `AttributeError` and becomes an error entry with relevance 0.3. | any search result, e.g. `{"title": "x"}` | each result is sanitised and sent to the model, and its reply is decoded or falls back to MEDIUM | high; not executed | LlmSecure.AsWrittenNeverAnalyses | LlmSecure.CorrectedAnalyses |
| src/shared/risk_output_service.py:297-300 | `process_notification` reads the message body under `'Body'`. SQS event records delivered to a Lambda carry it under `'body'`, so the processor decides on `{}` and takes no action. | `{"body": {"risk_level": "CRITICAL", "requires_review": true}}` | a CRITICAL notification that asks for review raises the high-risk alert and the manual-review request | medium; not executed | RiskOutput.AsWrittenMissesHighRisk | RiskOutput.DeliveredNotificationActions |
| src/lambda/lambda_llm_service_simple.py:283-296 | `store_llm_analysis` puts records holding float composite scores into DynamoDB without converting them to Decimal. The serializer rejects floats, so every non-empty batch fails to store. | any batch of one analysed result | the records are converted to Decimal first, as the other writers in the pipeline do, and read back unchanged | high; not executed | LlmSimple.AsWrittenStoreAlwaysFails | LlmSimple.StoredBatchReadsBack |
| src/shared/dynamodb_data_service.py:362-364 | The sweep's filter `attribute_exists(ttl) AND ttl < :current_time` and projection `query, timestamp` name DynamoDB reserved words directly, without `ExpressionAttributeNames`. So does the keyword filter `contains(query, :keyword)` at line 260. DynamoDB refuses such an expression with a ValidationException, so the sweep always raises and the keyword search raises for any keyword. `get_search_results` and `get_recent_searches` name `query` and `timestamp` the same way; they are not part of this model. | `search_by_keywords(["fraud"])`, or any call of `cleanup_expired_records()` | the names go through `#` placeholders in `ExpressionAttributeNames`, and the scans return what the table holds | medium; not executed (follows DynamoDB's reserved-word list) | DataService.AsWrittenScansRaise | DataService.CorrectedScansAnswer |
