# OpenObserve logs and tracing adapters — a Dafny model

OpenChoreo's two OpenObserve adapters sit between a typed observability API
and the OpenObserve search backend. This project models them in Dafny:

- The logs adapter answers log queries for a component or a workflow run. It
  turns alert rules into count-based OpenObserve alerts and deletes alerts by name.
- The tracing adapter lists traces, the spans of one trace and the detail of
  one span.

The model covers what each adapter does between the typed request and the
decoded search answer:

- **`SqlText`** (`sql_text.dfy`) holds the escaping primitives:
  - `quoteIdentifier` and `escapeSQLString`;
  - a reference reader for quoted SQL tokens, used to state that the escaped
    text reads back as the caller's string and that no caller string can close
    a literal early;
  - the small text helpers the builders share.
- **`LogQueries`** (`log_queries.dfy`) holds the logs query compiler:
  - the operator map and the alert document;
  - the workflow and component query builders. Each builder collects its
    conjuncts step by step, orders them by the sort whitelist and defaults the limit.
- **`TraceQueries`** (`trace_queries.dfy`) holds the tracing query compiler:
  - the scope filter;
  - the flat span listing the trace list is rebuilt from;
  - the span listing of one trace;
  - the point lookup of one span.
- **`TraceClient`** (`trace_client.dfy`) holds the tracing client after the search call:
  - `parseSpanEntry`;
  - `parseSpanDetail`, with its two attribute buckets;
  - the empty-hits rule of `GetSpanDetail`;
  - the `GetTraces` grouping pass.

  The grouping pass is a loop over the rows. It is proved equal to a
  fold-style reference definition, `Group`. Lemmas then characterise each
  trace of the list:
  - which traces appear, and in first-seen order;
  - span counts, and their sum;
  - root fields from the last root row;
  - the start and end window, and the duration.
- **`LogClient`** (`log_client.dfy`) holds the logs client after the backend calls:
  - the application and workflow entry extractors;
  - the hit-to-entry loops;
  - the name lookup of the alert list;
  - alert creation and lookup-then-delete sequencing.
- **`LogHandlers`** (`log_handlers.dfy`) holds the logs request handlers:
  - the `QueryLogs` scope dispatch, with its blank-after-trim validation;
  - the three request-to-parameter converters;
  - `strPtr`.
- **`Search`** and **`Wrappers`** hold the shared vocabulary:
  - a hit is a `map<string, Value>`;
  - the query document is a record;
  - errors are a datatype;
  - `Option` and `Result`.

Times are integers: nanoseconds since the epoch for `time.Time` parameters,
and microseconds in query documents. Paths in the table below are relative to
the repository root.

## Model

| member | source | states |
|---|---|---|
| SqlText.ReplaceAllChar | observability-logs-openobserve/internal/openobserve/queries.go:16 | `strings.ReplaceAll` of one character leaves a string without that character unchanged |
| SqlText.ReplaceAllCharAppend | observability-logs-openobserve/internal/openobserve/queries.go:22-23 | replacing a character distributes over concatenation |
| SqlText.QuoteIdentifier | observability-logs-openobserve/internal/openobserve/queries.go:15-17 | the quoted name starts and ends with `"`; a name without `"` is only wrapped |
| SqlText.QuotedIdentifierReadsBack | observability-logs-openobserve/internal/openobserve/queries.go:15-17 | read after its opening quote, with `""` meaning `"`, the quoted name yields exactly the name and closes at its final quote, whatever the name holds |
| SqlText.DoubledReadsBack | observability-logs-openobserve/internal/openobserve/queries.go:16 | doubling every quote character and appending one quote reads back as the original text followed by the rest |
| SqlText.EscapeSQLString | observability-logs-openobserve/internal/openobserve/queries.go:21-25 | the identity on strings with no `\` and no `'` |
| SqlText.EscapeAppend | observability-logs-openobserve/internal/openobserve/queries.go:21-25 | escaping distributes over concatenation |
| SqlText.EscapeCons | observability-logs-openobserve/internal/openobserve/queries.go:22-23 | backslashes first, then quotes, amounts to escaping each character on its own (`\`→`\\`, `'`→`''`) |
| SqlText.EscapeSQLStringPerChar | observability-logs-openobserve/internal/openobserve/queries.go:21-25 | the two passes equal the per-character escaping of the whole string |
| SqlText.EscapedLiteralReadsBack | observability-logs-openobserve/internal/openobserve/queries.go:21-25 | any value, escaped and closed with `'`, reads back (`''`→`'`, `\c`→`c`) as exactly that value, and the literal ends at the builder's quote and no earlier |
| SqlText.EqualsLiteralReadsBack | observability-logs-openobserve/internal/openobserve/queries.go:169 | an equality conjunct is the column, ` = '`, and a literal holding exactly the caller's value |
| SqlText.ConjunctReadsBack | observability-tracing-openobserve/internal/openobserve/queries.go:61-63 | the same holds for an equality conjunct anywhere in a query, whatever text precedes it |
| SqlText.PlainPrefixLiteral | observability-logs-openobserve/internal/openobserve/queries.go:98 | a fixed prefix with no `\` or `'` may stay outside the escaping without changing the literal |
| SqlText.JoinTwo | observability-tracing-openobserve/internal/openobserve/queries.go:114-121 | two conditions joined have the separator between them |
| SqlText.WhereClause | observability-logs-openobserve/internal/openobserve/queries.go:122-124 | `WHERE` appears exactly when there is a condition, followed by the conditions joined with `AND` |
| SqlText.WhenAppended | observability-logs-openobserve/internal/openobserve/queries.go:96-109 | an optional filter adds one conjunct only when set, after the earlier ones, which it keeps |
| SqlText.EqualsEach | observability-logs-openobserve/internal/openobserve/queries.go:113-116 | one equality per listed value, in order: element i compares the column with the i-th value |
| SqlText.DefaultLimit | observability-logs-openobserve/internal/openobserve/queries.go:134-137 | the page size is the limit when it is positive, and 100 otherwise |
| LogQueries.MapOperator | observability-logs-openobserve/internal/openobserve/queries.go:28-45 | succeeds exactly for gt/gte/lt/lte/eq/neq, with `>`,`>=`,`<`,`<=`,`=`,`!=`; any other string is an unsupported-operator error naming it |
| LogQueries.AlertQueryReadsBack | observability-logs-openobserve/internal/openobserve/queries.go:49-54 | the counting query names exactly the caller's stream in its quoted identifier and matches exactly the caller's pattern in its literal |
| LogQueries.GenerateAlertConfig | observability-logs-openobserve/internal/openobserve/queries.go:48-90 | fails exactly when the operator is unsupported, with the wrapped error. Otherwise: name (`""` when absent), stream, counting query, condition on `match_count`, window, interval, not realtime, destination `openchoreo_alerts`, scheduled |
| LogQueries.ContainsConditionIsLiteral | observability-logs-openobserve/internal/openobserve/queries.go:107-109 | the search-phrase filter is an ordinary literal holding `%`, the phrase and `%` |
| LogQueries.WorkflowNamespaceIsLiteral | observability-logs-openobserve/internal/openobserve/queries.go:97-99 | the workflow namespace filter compares the pod namespace with the literal `openchoreo-ci-<namespace>` |
| LogQueries.WorkflowConditionsPlacement | observability-logs-openobserve/internal/openobserve/queries.go:96-118 | namespace, run name, phrase and the level OR-group each add exactly one conjunct, only when set, after the set ones before it |
| LogQueries.TimestampOrder | observability-logs-openobserve/internal/openobserve/queries.go:127-131 | ascending exactly for `"ASC"` and `"asc"`, else descending |
| LogQueries.BuildAnyOf | observability-logs-openobserve/internal/openobserve/queries.go:112-118 | the indexed loop fills one equality per value, in order, into one parenthesised OR-group |
| LogQueries.BuildLogsSql | observability-logs-openobserve/internal/openobserve/queries.go:120-131 | `SELECT *` over the quoted stream, the `WHERE` clause, then the whitelisted order |
| LogQueries.WorkflowFilters | observability-logs-openobserve/internal/openobserve/queries.go:94-118 | the appends build exactly the workflow conjunct list |
| LogQueries.GenerateWorkflowLogsQuery | observability-logs-openobserve/internal/openobserve/queries.go:93-158 | SQL over the workflow conjuncts; window in microseconds; offset 0; defaulted limit; timeout 0 |
| LogQueries.ComponentConditionsPlacement | observability-logs-openobserve/internal/openobserve/queries.go:166-202 | the namespace conjunct is always first. Project, environment, the component OR-group, phrase and the level OR-group each add one conjunct, only when set, in that order |
| LogQueries.ComponentFilters | observability-logs-openobserve/internal/openobserve/queries.go:166-202 | the appends build exactly the component conjunct list |
| LogQueries.GenerateComponentLogsQuery | observability-logs-openobserve/internal/openobserve/queries.go:161-242 | fails exactly when the namespace is empty. Otherwise SQL over the component conjuncts, microsecond window, offset 0, defaulted limit |
| TraceQueries.ScopeConditionsPlacement | observability-tracing-openobserve/internal/openobserve/queries.go:146-163 | one escaped equality per non-empty scope field, in the order namespace, project, environment, component; none for an empty scope |
| TraceQueries.BuildFilterConditions | observability-tracing-openobserve/internal/openobserve/queries.go:146-163 | the appends build exactly the scope conjunct list |
| TraceQueries.GenerateTracesListQuery | observability-tracing-openobserve/internal/openobserve/queries.go:24-57 | the seven fixed columns over the stream as given (unquoted); `WHERE` only with conditions; always ` ORDER BY start_time`; size -1, offset 0, microsecond window |
| TraceQueries.StartTimeOrder | observability-tracing-openobserve/internal/openobserve/queries.go:73-77 | ascending exactly for `"asc"` and `"ASC"`, else descending |
| TraceQueries.GenerateSpansListQuery | observability-tracing-openobserve/internal/openobserve/queries.go:60-110 | the single `trace_id` conjunct, the whitelisted order, microsecond window, offset 0, defaulted limit |
| TraceQueries.SpansListQueryReadsBack | observability-tracing-openobserve/internal/openobserve/queries.go:61-70 | the span listing's literal holds exactly the requested trace ID and closes just before the order clause |
| TraceQueries.GenerateSpanDetailQuery | observability-tracing-openobserve/internal/openobserve/queries.go:113-143 | the trace conjunct, then `AND` and the span conjunct; window 1 to `MaxInt64/2` whatever the parameters; one row |
| TraceQueries.SpanDetailQueryReadsBack | observability-tracing-openobserve/internal/openobserve/queries.go:114-122 | the first literal holds exactly the trace ID and the second exactly the span ID, which ends the query |
| Search.StringField | observability-tracing-openobserve/internal/openobserve/client.go:311-313 | the column's string when the column holds a string, and `""` otherwise (missing or of another type) |
| Search.NumberField | observability-tracing-openobserve/internal/openobserve/client.go:320-323 | the column's number exactly when the column holds a number, and nothing otherwise |
| Search.Digits | observability-tracing-openobserve/internal/openobserve/client.go:395 | decimal digits without a leading zero that denote exactly the number, as `%v` prints an integer |
| Search.UnixMicro | observability-logs-openobserve/internal/openobserve/queries.go:142-143 | nanoseconds rounded down to microseconds |
| TraceClient.ParseSpanEntry | observability-tracing-openobserve/internal/openobserve/client.go:308-336 | each string field is its column's string, else `""`. Each time is set exactly when its column holds a number. The duration is its number, else 0. It never fails |
| TraceClient.ParseSpanEntryRoundTrip | observability-tracing-openobserve/internal/openobserve/client.go:308-336 | a span's row, with any other columns beside it, parses back to exactly that span |
| TraceClient.GetSpans | observability-tracing-openobserve/internal/openobserve/client.go:271-281 | one parsed entry per hit, in hit order; total and time copied |
| TraceClient.ExcludeFields | observability-tracing-openobserve/internal/openobserve/client.go:382-385 | the exclusion map holds `true` exactly for the internal fields |
| TraceClient.ParseSpanDetail | observability-tracing-openobserve/internal/openobserve/client.go:355-407 | span fields as `parseSpanEntry` reads them. Each non-internal column appears exactly once, rendered: in the resource bucket when its key starts with `service` or `resource`, else in the attribute bucket |
| TraceClient.BucketStep | observability-tracing-openobserve/internal/openobserve/client.go:389-402 | one visited column is skipped when internal, else appended to the bucket its prefix selects, keeping keys distinct |
| TraceClient.DetailCoversRow | observability-tracing-openobserve/internal/openobserve/client.go:389-404 | the two buckets together hold as many attributes as the row has non-internal columns; no key is in both; no internal key appears |
| TraceClient.GetSpanDetail | observability-tracing-openobserve/internal/openobserve/client.go:296-304 | "span not found" for the requested IDs exactly when there are no hits; otherwise the detail of the first hit |
| TraceClient.GroupStep | observability-tracing-openobserve/internal/openobserve/client.go:197-209 | one row keeps the trace map and the trace order in step: same traces, each listed once, none with an empty ID |
| TraceClient.GroupWellFormed | observability-tracing-openobserve/internal/openobserve/client.go:194-240 | after any rows, the map and the order hold the same traces, each once, and never the empty ID |
| TraceClient.AddSpan | observability-tracing-openobserve/internal/openobserve/client.go:211-239 | the loop body counts the row, widens the window and, for a root row, takes each root field that holds a string |
| TraceClient.GroupRows | observability-tracing-openobserve/internal/openobserve/client.go:194-240 | the grouping loop ends with the map and order of the reference fold `Group` |
| TraceClient.Traces | observability-tracing-openobserve/internal/openobserve/client.go:242-250 | one entry per trace, in trace order; duration is end minus start; the name is the root span's name |
| TraceClient.GetTraces | observability-tracing-openobserve/internal/openobserve/client.go:188-256 | the entries are those of `Traces`; `Total` is their number; the time is copied |
| TraceClient.GroupCounts | observability-tracing-openobserve/internal/openobserve/client.go:197-211 | a trace is grouped exactly when some row carries its non-empty ID; its span count is the number of such rows |
| TraceClient.UngroupedHasNoRows | observability-tracing-openobserve/internal/openobserve/client.go:197-209 | no row carries a non-empty ID the pass has not grouped |
| TraceClient.GroupFirstSeen | observability-tracing-openobserve/internal/openobserve/client.go:203-208 | the trace order is the order in which the IDs first occur in the rows |
| TraceClient.TracesStepSeen | observability-tracing-openobserve/internal/openobserve/client.go:203-211 | a row of a listed trace updates that trace's entry in place |
| TraceClient.TracesStepNew | observability-tracing-openobserve/internal/openobserve/client.go:203-209 | a row of a new trace appends its entry |
| TraceClient.TotalSpansCountsKeptRows | observability-tracing-openobserve/internal/openobserve/client.go:211 | the span counts add up to the number of rows with a trace ID |
| TraceClient.LastRowUpdate | observability-tracing-openobserve/internal/openobserve/client.go:203-239 | the last row changes only its own trace's state, by one fold step |
| TraceClient.RootFieldsStep | observability-tracing-openobserve/internal/openobserve/client.go:227-239 | a root row overwrites each root field that holds a string; other rows leave them |
| TraceClient.GroupRootFields | observability-tracing-openobserve/internal/openobserve/client.go:227-239 | each root field is the string of the trace's last root row holding one at that column, else `""` |
| TraceClient.MaxEndStep | observability-tracing-openobserve/internal/openobserve/client.go:220-225 | the end grows to a larger numeric end of the trace's row |
| TraceClient.MinStartStep | observability-tracing-openobserve/internal/openobserve/client.go:214-219 | the start takes a row's numeric start when unset (0) or when that start is smaller |
| TraceClient.GroupMaxEndBound | observability-tracing-openobserve/internal/openobserve/client.go:220-225 | the end is at least 0 and at least every numeric end of the trace's rows |
| TraceClient.GroupMaxEndAttained | observability-tracing-openobserve/internal/openobserve/client.go:220-225 | the end is 0 or the end of one of the trace's rows |
| TraceClient.GroupMinStartBound | observability-tracing-openobserve/internal/openobserve/client.go:214-219 | with no row of the trace starting at 0, the start is at most every numeric start of its rows |
| TraceClient.GroupMinStartUnset | observability-tracing-openobserve/internal/openobserve/client.go:214-219 | with no row of the trace starting at 0, the start is 0 exactly when no row of the trace has a numeric start |
| TraceClient.GroupMinStartAttained | observability-tracing-openobserve/internal/openobserve/client.go:214-219 | the start is 0 or the start of one of the trace's rows |
| TraceClient.TracesListEachTraceOnce | observability-tracing-openobserve/internal/openobserve/client.go:194-209 | every listed ID is non-empty and carried by a row; every non-empty row ID is listed; the list follows first occurrence, so no ID is listed twice |
| TraceClient.TraceEntrySummarizesRows | observability-tracing-openobserve/internal/openobserve/client.go:242-250 | each entry: span count = rows with its ID; root fields from the last root rows; name = root name; end = max(0, ends), attained; start 0 or attained, minimal when no start is 0; duration = end − start |
| LogClient.ParseApplicationLogEntry | observability-logs-openobserve/internal/openobserve/client.go:403-447 | timestamp kept. Each of the twelve text fields is its fixed column's string exactly when that column holds a string, else `""` |
| LogClient.ParseApplicationLogEntryRoundTrip | observability-logs-openobserve/internal/openobserve/client.go:403-447 | an entry's row, with any other columns beside it, parses back to exactly that entry |
| LogClient.TimestampOf | observability-logs-openobserve/internal/openobserve/client.go:186-189 | the numeric `_timestamp`, or 0 when it is missing or not a number |
| LogClient.GetComponentLogs | observability-logs-openobserve/internal/openobserve/client.go:183-198 | one parsed entry per hit, in hit order, with its timestamp; total and time copied |
| LogClient.ParseWorkflowLogEntry | observability-logs-openobserve/internal/openobserve/client.go:232-251 | the log is the `log` string, else `""`. The metadata keys are exactly the row's keys minus `log` and `_timestamp`, with unchanged values |
| LogClient.WorkflowEntryDetermined | observability-logs-openobserve/internal/openobserve/client.go:232-251 | the description fixes the entry whatever order the map is visited in |
| LogClient.WorkflowEntryRestoresRow | observability-logs-openobserve/internal/openobserve/client.go:242-248 | the metadata plus the row's own `log` and `_timestamp` columns give back the row |
| LogClient.GetWorkflowLogs | observability-logs-openobserve/internal/openobserve/client.go:214-228 | one entry per hit, in hit order, describing that hit with its timestamp; total and time copied |
| LogClient.FirstNamed | observability-logs-openobserve/internal/openobserve/client.go:393-399 | the position of the first alert with the name, or none when no alert has it |
| LogClient.AlertLookup | observability-logs-openobserve/internal/openobserve/client.go:359-400 | a failed listing passes its error on. Otherwise the ID of the first alert with that name, or "not found" exactly when none has it |
| LogClient.GetAlertIdByName | observability-logs-openobserve/internal/openobserve/client.go:393-399 | the scan returns the first alert's ID with the name, else "not found" (equal to `AlertLookup`) |
| LogClient.FirstNamedIs | observability-logs-openobserve/internal/openobserve/client.go:393-396 | the first position holding the name is the one the scan stops at |
| LogClient.CreateAlert | observability-logs-openobserve/internal/openobserve/client.go:254-308 | a rejected rule fails before any request, wrapped. A request failure is passed on. A status other than 200 or 201 is a status error carrying that code. Otherwise success with the returned ID, or `""` when the body carries none |
| LogClient.DeleteAlert | observability-logs-openobserve/internal/openobserve/client.go:312-356 | a failed lookup issues no delete and wraps its error. Otherwise the delete is issued for the looked-up ID; success, with that ID, exactly for status 200 or 204 |
| LogHandlers.TrimLeft | observability-logs-openobserve/internal/handlers.go:53 | a suffix of the string preceded only by white space, not starting with white space |
| LogHandlers.TrimRight | observability-logs-openobserve/internal/handlers.go:53 | a prefix of the string followed only by white space, not ending with white space |
| LogHandlers.TrimSpace | observability-logs-openobserve/internal/handlers.go:53 | a slice of the string with only white space around it, neither starting nor ending with white space |
| LogHandlers.TrimRightInside | observability-logs-openobserve/internal/handlers.go:53 | trimming the end of a suffix leaves a slice of the whole followed by white space only |
| LogHandlers.BlankIffAllSpace | observability-logs-openobserve/internal/handlers.go:53-54 | a string trims to `""` exactly when all its characters are white space |
| LogHandlers.CopyLevels | observability-logs-openobserve/internal/handlers.go:167-173 | the levels are copied one for one, in order |
| LogHandlers.ToWorkflowLogsParams | observability-logs-openobserve/internal/handlers.go:149-175 | namespace and window copied. Each optional field is its value when present, else `""`, 0 or no levels |
| LogHandlers.SetScopeFields | observability-logs-openobserve/internal/handlers.go:208-216 | present project and environment are copied; a present component becomes a one-element list |
| LogHandlers.ToComponentLogsParams | observability-logs-openobserve/internal/handlers.go:202-234 | namespace and window copied. A present component becomes the one-element component list. Every absent optional field leaves its zero value |
| LogHandlers.RequestMappingsDetermined | observability-logs-openobserve/internal/handlers.go:149-234 | each mapping determines a single parameter record |
| LogHandlers.QueryLogs | observability-logs-openobserve/internal/handlers.go:42-95 | a missing body is a 400. The workflow branch is taken exactly when the scope decodes as workflow with a non-blank run name; there, a blank namespace is a 400. Otherwise a failed component decode or a blank namespace is a 400. A client call happens exactly when there is no 400, always with a non-blank namespace and the mapped parameters. A client failure is a 500 |
| LogHandlers.SetMetadataFields | observability-logs-openobserve/internal/handlers.go:239-253 | the name pointer copied, then each present metadata field |
| LogHandlers.SetConditionFields | observability-logs-openobserve/internal/handlers.go:259-272 | each present condition field |
| LogHandlers.ToLogAlertParams | observability-logs-openobserve/internal/handlers.go:237-274 | each field comes from its section when section and field are present, else the zero value |
| LogHandlers.MissingSectionsLeaveDefaults | observability-logs-openobserve/internal/handlers.go:237-274 | a missing section leaves its fields at zero values; with no section the record is the zero record |
| LogHandlers.StrPtr | observability-logs-openobserve/internal/handlers.go:348-353 | no pointer exactly for `""`; otherwise a pointer to the string |
| LogHandlers.StrPtrRoundTrip | observability-logs-openobserve/internal/handlers.go:348-353 | reading the pointer back with `""` for none gives the string |

## Left out

- HTTP plumbing is not modelled. That covers `executeSearchQuery`, request building, headers, Basic auth, the client timeout and context cancellation.
  - The client operations take the decoded search response, the decoded alert list or the creation reply as parameters.
  - A failed listing or request is a `Result` failure carrying its error.
  - `QueryLogs` takes the two client calls as function parameters.
- JSON marshalling and decoding are not modelled, nor `json.Number.Int64` or `Decoder.UseNumber`.
  - Query documents are records, and hits are maps of decoded values.
  - Numbers in hits are integers; the `float64`→`int64` cast of `_timestamp` is not modelled.
- The `float32` alert threshold is carried as its bit pattern and never inspected. The `float32` duration casts belong to the tracing handlers.
- `time.UnixMicro` and `time.Unix` conversions are not modelled.
  - Request times are nanosecond integers. `Search.UnixMicro` is the only conversion, rounding down as Go does for the epoch range.
  - An absent span time is `None`, standing for Go's zero `time.Time`.
  - Entry timestamps stay in microseconds.
- int64 wrap-around is not modelled: integers are unbounded. This matters only for `maxEnd - minStart` at the int64 extremes.
- `fmt.Sprintf("%v")` of attribute values is `Search.Render`. Strings render as themselves, integers as decimal, and other values as an opaque text. Float formatting is not modelled.
- Error message text is not modelled: `%q` quoting, `err.Error()`, and the response body in status errors. Errors are a datatype whose `Wrapped` case stands for `fmt.Errorf("…: %w")`.
- Go's random map iteration order is a nondeterministic choice (`:|`) in `parseSpanDetail` and `parseWorkflowLogEntry`. Bucket contents are stated as key sets with distinct keys, not as sequences.
- `uuid.Parse` and `.String()` are not modelled: UUIDs are carried as their canonical text.
- The generated union decoders are not modelled. Their outcome is `SearchScope`, one optional decoded value per variant.
- Debug logging is not modelled, including the duplicate debug block of `generateSpansListQuery`.
- The `Health`, `CreateAlertRule` and `DeleteAlertRule` handlers are not part of this model.
- `toWorkflowLogsQueryResponse`, `toLogsQueryResponse`, `toComponentLogEntry`, `parseUUID` and `ptr` are not part of this model. The 200 answers of `QueryLogs` carry the client result as it is.
- `observability-tracing-openobserve/internal/handlers.go` and `server.go` are not part of this model.
- The tracing copy of `escapeSQLString` (`observability-tracing-openobserve/internal/openobserve/queries.go:16-20`) is identical to the logs copy. Both are `SqlText.EscapeSQLString`.
- `SqlText.EscapedLiteralReadsBack` reads literals as a backend that treats `\` as an escape character and `''` as a quote. A backend that does not treat `\` as an escape is not covered.
  - `LIKE` wildcards (`%`, `_`) in a search phrase are not escaped by the source. The model keeps that: the phrase is read back as the pattern text, not as a literal substring.
- The tracing stream name is inserted into SQL without quoting, as the source does. `TraceQueries.GenerateTracesListQuery` and its siblings state that, and no read-back property is claimed for the stream name.
- TraceClient.GroupMinStartBound: the start is proved minimal only when no row of the trace starts at exactly 0. Such a row is read as "unset" by the source and can be overwritten by a later, larger start. `TraceClient.GroupMinStartAttained` holds without that condition.
- TraceClient.GroupMinStartUnset: the same condition, for the same reason.
- TraceClient.TraceEntrySummarizesRows: its start-is-minimal clause carries the same condition.
- LogClient.DeleteAlert: a transport failure of the delete request is passed on as given. The source's `failed to execute request` wrapping is folded into the error the caller supplies.
- LogClient.CreateAlert: the request is abstracted to its outcome. The request-building and body-reading failures are part of the reply's `Failure`.
