/**
 * What the tracing service does with a decoded search response: span rows
 * become span entries, one row becomes a span detail with its leftover
 * columns split into attributes and resource attributes, and the flat span
 * listing is grouped into one summary per trace.
 */
module TraceClient {
  import opened Wrappers
  import opened Search
  import opened TraceQueries

  /** A span as listed for one trace; `None` times are Go's zero `time.Time`. */
  datatype SpanEntry = SpanEntry(
    spanId: string,
    spanName: string,
    spanKind: string,
    startTime: Option<int>,
    endTime: Option<int>,
    durationNs: int,
    parentSpanId: string)

  datatype SpansResult = SpansResult(spans: seq<SpanEntry>, total: int, tookMs: int)

  /** `parseSpanEntry`: each field from its column when that column has the expected type. */
  function ParseSpanEntry(hit: Hit): (e: SpanEntry)
    ensures TakesString(e.spanId, hit, "span_id") && TakesString(e.spanName, hit, "operation_name")
    ensures TakesString(e.spanKind, hit, "span_kind") && TakesString(e.parentSpanId, hit, "reference_parent_span_id")
    ensures e.startTime.Some? <==> "start_time" in hit && hit["start_time"].Num?
    ensures e.startTime.Some? ==> e.startTime.value == hit["start_time"].num
    ensures e.endTime.Some? <==> "end_time" in hit && hit["end_time"].Num?
    ensures e.endTime.Some? ==> e.endTime.value == hit["end_time"].num
    ensures if "duration" in hit && hit["duration"].Num? then e.durationNs == hit["duration"].num else e.durationNs == 0
  {
    SpanEntry(
      StringField(hit, "span_id"),
      StringField(hit, "operation_name"),
      StringField(hit, "span_kind"),
      NumberField(hit, "start_time"),
      NumberField(hit, "end_time"),
      NumberField(hit, "duration").GetOr(0),
      StringField(hit, "reference_parent_span_id"))
  }

  /** The columns `parseSpanEntry` reads. */
  const SpanEntryColumns: set<string> :=
    {"span_id", "operation_name", "span_kind", "start_time", "end_time", "duration", "reference_parent_span_id"}

  /** The row the backend returns for a span entry: each field in its column. */
  function SpanRow(e: SpanEntry): Hit {
    var times := (if e.startTime.Some? then map["start_time" := Num(e.startTime.value)] else map[])
      + (if e.endTime.Some? then map["end_time" := Num(e.endTime.value)] else map[]);
    times + map[
      "span_id" := Str(e.spanId),
      "operation_name" := Str(e.spanName),
      "span_kind" := Str(e.spanKind),
      "duration" := Num(e.durationNs),
      "reference_parent_span_id" := Str(e.parentSpanId)]
  }

  /**
   * A span's row, together with any other columns, parses back to exactly
   * that span: the other columns never leak into its fields.
   */
  lemma ParseSpanEntryRoundTrip(e: SpanEntry, others: Hit)
    requires others.Keys !! SpanEntryColumns
    ensures ParseSpanEntry(others + SpanRow(e)) == e
  {
    var hit := others + SpanRow(e);
    assert "start_time" in hit <==> e.startTime.Some?;
    assert "end_time" in hit <==> e.endTime.Some?;
  }

  /** `GetSpans` after the search call: one entry per hit, in hit order; total and time copied. */
  method GetSpans(response: SearchResponse) returns (result: SpansResult)
    ensures |result.spans| == |response.hits|
    ensures forall i :: 0 <= i < |response.hits| ==> result.spans[i] == ParseSpanEntry(response.hits[i])
    ensures result.total == response.total && result.tookMs == response.took
  {
    var spans: seq<SpanEntry> := [];
    for i := 0 to |response.hits|
      invariant |spans| == i
      invariant forall k :: 0 <= k < i ==> spans[k] == ParseSpanEntry(response.hits[k])
    {
      var entry := ParseSpanEntry(response.hits[i]);
      spans := spans + [entry];
    }
    result := SpansResult(spans, response.total, response.took);
  }

  datatype SpanAttribute = SpanAttribute(key: string, value: string)

  /** A span with every column that is not one of its fields, as attributes. */
  datatype SpanDetail = SpanDetail(
    spanId: string,
    spanName: string,
    spanKind: string,
    startTime: Option<int>,
    endTime: Option<int>,
    durationNs: int,
    parentSpanId: string,
    attributes: seq<SpanAttribute>,
    resourceAttributes: seq<SpanAttribute>)

  /** `internalFields`: the columns that are never reported as attributes. */
  const InternalFields: seq<string> := [
    "_timestamp", "span_id", "operation_name", "span_kind", "start_time",
    "end_time", "duration", "parent_span_id", "reference_parent_span_id", "trace_id"]

  /** A resource attribute is one whose key starts with `service` or `resource`. */
  predicate IsResourceKey(key: string) {
    "service" <= key || "resource" <= key
  }

  function KeysOf(attributes: seq<SpanAttribute>): set<string> {
    set a | a in attributes :: a.key
  }

  predicate DistinctKeys(attributes: seq<SpanAttribute>) {
    forall i, j :: 0 <= i < j < |attributes| ==> attributes[i].key != attributes[j].key
  }

  /** Every attribute shows its column's value as `%v` renders it. */
  predicate RendersHit(attributes: seq<SpanAttribute>, hit: Hit) {
    forall a :: a in attributes ==> a.key in hit && a.value == Render(hit[a.key])
  }

  /** The non-internal columns of a row that do, or do not, name a resource. */
  function ResourceColumns(hit: Hit, resource: bool): set<string> {
    set k | k in hit && k !in InternalFields && IsResourceKey(k) == resource
  }

  /**
   * What `parseSpanDetail` promises about a row: the span fields as
   * `parseSpanEntry` reads them, and each non-internal column exactly once,
   * rendered, in the bucket its key's prefix selects (bucket order is the
   * unspecified map iteration order).
   */
  predicate DescribesRow(d: SpanDetail, hit: Hit) {
    && SpanEntry(d.spanId, d.spanName, d.spanKind, d.startTime, d.endTime, d.durationNs, d.parentSpanId)
         == ParseSpanEntry(hit)
    && KeysOf(d.attributes) == ResourceColumns(hit, false)
    && KeysOf(d.resourceAttributes) == ResourceColumns(hit, true)
    && DistinctKeys(d.attributes) && DistinctKeys(d.resourceAttributes)
    && RendersHit(d.attributes, hit) && RendersHit(d.resourceAttributes, hit)
  }

  /** `parseSpanDetail`: the exclusion map, then one pass over the row in any order. */
  method ParseSpanDetail(hit: Hit) returns (detail: SpanDetail)
    ensures DescribesRow(detail, hit)
  {
    var entry := ParseSpanEntry(hit);

    var excludeFields := ExcludeFields();
    var attributes: seq<SpanAttribute> := [];
    var resourceAttributes: seq<SpanAttribute> := [];
    var remaining := hit.Keys;
    while remaining != {}
      invariant remaining <= hit.Keys
      invariant BucketsSoFar(hit, remaining, attributes, resourceAttributes)
      decreases |remaining|
    {
      var key :| key in remaining;
      BucketStep(hit, remaining, key, attributes, resourceAttributes);
      remaining := remaining - {key};
      if key in excludeFields && excludeFields[key] {
        continue;
      }
      var attr := SpanAttribute(key, Render(hit[key]));
      if IsResourceKey(key) {
        resourceAttributes := resourceAttributes + [attr];
      } else {
        attributes := attributes + [attr];
      }
    }
    assert ResourceColumns(hit, false) - {} == ResourceColumns(hit, false);
    assert ResourceColumns(hit, true) - {} == ResourceColumns(hit, true);

    detail := SpanDetail(entry.spanId, entry.spanName, entry.spanKind, entry.startTime, entry.endTime,
      entry.durationNs, entry.parentSpanId, attributes, resourceAttributes);
  }

  /** `excludeFields`: the internal columns as a set, built one entry at a time. */
  method ExcludeFields() returns (excludeFields: map<string, bool>)
    ensures forall k :: (k in excludeFields && excludeFields[k]) <==> k in InternalFields
  {
    excludeFields := map[];
    for i := 0 to |InternalFields|
      invariant forall k :: k in excludeFields <==> k in InternalFields[..i]
      invariant forall k :: k in excludeFields ==> excludeFields[k]
    {
      excludeFields := excludeFields[InternalFields[i] := true];
    }
    assert InternalFields[..|InternalFields|] == InternalFields;
  }

  /** The two buckets once the columns outside `remaining` have been visited. */
  predicate BucketsSoFar(hit: Hit, remaining: set<string>, attributes: seq<SpanAttribute>, resourceAttributes: seq<SpanAttribute>) {
    && KeysOf(attributes) == ResourceColumns(hit, false) - remaining
    && KeysOf(resourceAttributes) == ResourceColumns(hit, true) - remaining
    && DistinctKeys(attributes) && DistinctKeys(resourceAttributes)
    && RendersHit(attributes, hit) && RendersHit(resourceAttributes, hit)
  }

  /** Visiting one more column: skipped when internal, else appended to the bucket of its prefix. */
  lemma BucketStep(hit: Hit, remaining: set<string>, key: string,
                   attributes: seq<SpanAttribute>, resourceAttributes: seq<SpanAttribute>)
    requires key in remaining && remaining <= hit.Keys
    requires BucketsSoFar(hit, remaining, attributes, resourceAttributes)
    ensures var rest := remaining - {key};
      var attr := SpanAttribute(key, Render(hit[key]));
      if key in InternalFields then BucketsSoFar(hit, rest, attributes, resourceAttributes)
      else if IsResourceKey(key) then BucketsSoFar(hit, rest, attributes, resourceAttributes + [attr])
      else BucketsSoFar(hit, rest, attributes + [attr], resourceAttributes)
  {
    var attr := SpanAttribute(key, Render(hit[key]));
    AppendNewKey(attributes, attr);
    AppendNewKey(resourceAttributes, attr);
  }

  /** Appending an attribute adds its key and keeps keys distinct when the key is new. */
  lemma AppendNewKey(attributes: seq<SpanAttribute>, attr: SpanAttribute)
    ensures KeysOf(attributes + [attr]) == KeysOf(attributes) + {attr.key}
    ensures DistinctKeys(attributes) && attr.key !in KeysOf(attributes) ==> DistinctKeys(attributes + [attr])
  {
    var s := attributes + [attr];
    forall a | a in s
      ensures a.key in KeysOf(attributes) + {attr.key}
    {
      if a != attr {
        assert a in attributes;
      }
    }
    if DistinctKeys(attributes) && attr.key !in KeysOf(attributes) {
      forall i, j | 0 <= i < j < |s|
        ensures s[i].key != s[j].key
      {
        if j == |attributes| {
          assert s[i] in attributes;
        }
      }
    }
  }

  /** Distinct keys: as many attributes as keys. */
  lemma {:induction false} DistinctKeysCount(attributes: seq<SpanAttribute>)
    requires DistinctKeys(attributes)
    ensures |KeysOf(attributes)| == |attributes|
    decreases |attributes|
  {
    if attributes != [] {
      var init := attributes[..|attributes| - 1];
      var last := attributes[|attributes| - 1];
      assert attributes == init + [last];
      DistinctKeysCount(init);
      AppendNewKey(init, last);
    }
  }

  /**
   * Every column of the row that is not internal is reported exactly once
   * across the two buckets, and no internal column is reported at all.
   */
  lemma DetailCoversRow(d: SpanDetail, hit: Hit)
    requires DescribesRow(d, hit)
    ensures |d.attributes| + |d.resourceAttributes| == |set k | k in hit && k !in InternalFields|
    ensures KeysOf(d.attributes) !! KeysOf(d.resourceAttributes)
    ensures forall a :: a in d.attributes + d.resourceAttributes ==> a.key in hit && a.key !in InternalFields
  {
    DistinctKeysCount(d.attributes);
    DistinctKeysCount(d.resourceAttributes);
    assert (set k | k in hit && k !in InternalFields) == ResourceColumns(hit, false) + ResourceColumns(hit, true);
    forall a | a in d.attributes + d.resourceAttributes
      ensures a.key in hit && a.key !in InternalFields
    {
      if a in d.attributes {
        assert a.key in KeysOf(d.attributes);
      } else {
        assert a.key in KeysOf(d.resourceAttributes);
      }
    }
  }

  /** `GetSpanDetail` after the search call: not found without hits, else the first hit only. */
  method GetSpanDetail(params: TracesQueryParams, response: SearchResponse) returns (r: Result<SpanDetail, Error>)
    ensures r.Failure? <==> response.hits == []
    ensures r.Failure? ==> r.error == SpanNotFound(params.traceId, params.spanId)
    ensures r.Success? ==> DescribesRow(r.value, response.hits[0])
  {
    if |response.hits| == 0 {
      return Failure(SpanNotFound(params.traceId, params.spanId));
    }
    var span := ParseSpanDetail(response.hits[0]);
    r := Success(span);
  }

  /** A trace of the list: its root span's fields and the window of its spans (nanoseconds). */
  datatype TraceEntry = TraceEntry(
    traceId: string,
    traceName: string,
    spanCount: int,
    rootSpanId: string,
    rootSpanName: string,
    rootSpanKind: string,
    startTime: int,
    endTime: int,
    durationNs: int)

  datatype TracesResult = TracesResult(traces: seq<TraceEntry>, total: int, tookMs: int)

  /** The running state `GetTraces` keeps per trace while it scans the rows. */
  datatype TraceAgg = TraceAgg(
    spanCount: int,
    rootSpanId: string,
    rootSpanName: string,
    rootSpanKind: string,
    minStart: int,
    maxEnd: int)

  const NoSpans := TraceAgg(0, "", "", "", 0, 0)

  function TraceIdOf(hit: Hit): string {
    StringField(hit, "trace_id")
  }

  /** The trace ID of every row, in row order ("" where the row has none). */
  function TraceIds(hits: seq<Hit>): (ids: seq<string>)
    ensures |ids| == |hits|
  {
    seq(|hits|, i requires 0 <= i < |hits| => TraceIdOf(hits[i]))
  }

  /** A root span is a row whose parent reference is absent, not a string, or empty. */
  predicate IsRoot(hit: Hit) {
    StringField(hit, "reference_parent_span_id") == ""
  }

  /** A root field is overwritten only when the row holds a string at its column. */
  function Overwrite(current: string, hit: Hit, key: string): string {
    if HasString(hit, key) then hit[key].str else current
  }

  /** One row folded into its trace's running state. */
  function AggStep(agg: TraceAgg, hit: Hit): TraceAgg {
    var start := NumberField(hit, "start_time");
    var end := NumberField(hit, "end_time");
    var root := IsRoot(hit);
    TraceAgg(
      agg.spanCount + 1,
      if root then Overwrite(agg.rootSpanId, hit, "span_id") else agg.rootSpanId,
      if root then Overwrite(agg.rootSpanName, hit, "operation_name") else agg.rootSpanName,
      if root then Overwrite(agg.rootSpanKind, hit, "span_kind") else agg.rootSpanKind,
      if start.Some? && (agg.minStart == 0 || start.value < agg.minStart) then start.value else agg.minStart,
      if end.Some? && end.value > agg.maxEnd then end.value else agg.maxEnd)
  }

  /** `traceMap` and `traceOrder`. */
  datatype Grouping = Grouping(aggs: map<string, TraceAgg>, order: seq<string>)

  predicate Distinct(s: seq<string>) {
    forall i, j :: 0 <= i < j < |s| ==> s[i] != s[j]
  }

  /** The order lists exactly the traces of the map, once each, and no trace has the empty ID. */
  ghost predicate WellFormed(g: Grouping) {
    && (forall id :: id in g.aggs <==> id in g.order)
    && Distinct(g.order)
    && "" !in g.aggs
  }

  /** One row of the grouping pass: skipped without a trace ID, else folded into its trace. */
  function GroupStep(g: Grouping, hit: Hit): (r: Grouping)
    ensures WellFormed(g) ==> WellFormed(r)
  {
    var id := TraceIdOf(hit);
    if id == "" then g
    else if id in g.aggs then Grouping(g.aggs[id := AggStep(g.aggs[id], hit)], g.order)
    else
      assert WellFormed(g) ==> forall i :: 0 <= i < |g.order| ==> g.order[i] in g.aggs;
      Grouping(g.aggs[id := AggStep(NoSpans, hit)], g.order + [id])
  }

  /** The state of the grouping pass after the given rows. */
  function Group(hits: seq<Hit>): (r: Grouping)
    decreases |hits|
  {
    if |hits| == 0 then Grouping(map[], [])
    else GroupStep(Group(hits[..|hits| - 1]), hits[|hits| - 1])
  }

  /** The grouping pass keeps its map and its order in step. */
  lemma {:induction false} GroupWellFormed(hits: seq<Hit>)
    ensures WellFormed(Group(hits))
    decreases |hits|
  {
    if |hits| > 0 {
      GroupWellFormed(hits[..|hits| - 1]);
    }
  }

  /** The finished entry of one trace: its window, its duration and its name from the root span. */
  function Finalize(id: string, agg: TraceAgg): TraceEntry {
    TraceEntry(id, agg.rootSpanName, agg.spanCount, agg.rootSpanId, agg.rootSpanName, agg.rootSpanKind,
      agg.minStart, agg.maxEnd, agg.maxEnd - agg.minStart)
  }

  /** The trace list `GetTraces` returns for the given rows. */
  function Traces(hits: seq<Hit>): (traces: seq<TraceEntry>)
    ensures |traces| == |Group(hits).order|
    ensures forall i :: 0 <= i < |traces| ==> traces[i].traceId == Group(hits).order[i]
    ensures forall i :: 0 <= i < |traces| ==>
      traces[i].durationNs == traces[i].endTime - traces[i].startTime && traces[i].traceName == traces[i].rootSpanName
  {
    GroupWellFormed(hits);
    var g := Group(hits);
    seq(|g.order|, i requires 0 <= i < |g.order| => Finalize(g.order[i], g.aggs[g.order[i]]))
  }

  /** The body of the grouping loop for a row of a known trace: count it, widen the window, take root fields. */
  method AddSpan(current: TraceAgg, hit: Hit) returns (agg: TraceAgg)
    ensures agg == AggStep(current, hit)
  {
    agg := current;
    agg := agg.(spanCount := agg.spanCount + 1);
    var start := NumberField(hit, "start_time");
    if start.Some? {
      if agg.minStart == 0 || start.value < agg.minStart {
        agg := agg.(minStart := start.value);
      }
    }
    var end := NumberField(hit, "end_time");
    if end.Some? {
      if end.value > agg.maxEnd {
        agg := agg.(maxEnd := end.value);
      }
    }
    var parentSpanId := StringField(hit, "reference_parent_span_id");
    if parentSpanId == "" {
      if "span_id" in hit && hit["span_id"].Str? {
        agg := agg.(rootSpanId := hit["span_id"].str);
      }
      if "operation_name" in hit && hit["operation_name"].Str? {
        agg := agg.(rootSpanName := hit["operation_name"].str);
      }
      if "span_kind" in hit && hit["span_kind"].Str? {
        agg := agg.(rootSpanKind := hit["span_kind"].str);
      }
    }
  }

  /**
   * `GetTraces` after the search call: one pass grouping the rows into the
   * trace map in first-seen order, then one entry per trace in that order.
   */
  method GetTraces(response: SearchResponse) returns (result: TracesResult)
    ensures result.traces == Traces(response.hits)
    ensures result.total == |result.traces| && result.tookMs == response.took
  {
    var hits := response.hits;
    var traceMap, traceOrder := GroupRows(hits);
    GroupWellFormed(hits);

    var traces: seq<TraceEntry> := [];
    for k := 0 to |traceOrder|
      invariant |traces| == k
      invariant forall j :: 0 <= j < k ==> traces[j] == Finalize(traceOrder[j], traceMap[traceOrder[j]])
    {
      var agg := traceMap[traceOrder[k]];
      traces := traces + [Finalize(traceOrder[k], agg)];
    }
    result := TracesResult(traces, |traces|, response.took);
  }

  /** The grouping loop of `GetTraces`: the trace map and the first-seen order after all rows. */
  method GroupRows(hits: seq<Hit>) returns (traceMap: map<string, TraceAgg>, traceOrder: seq<string>)
    ensures Grouping(traceMap, traceOrder) == Group(hits)
  {
    traceMap := map[];
    traceOrder := [];
    for i := 0 to |hits|
      invariant Grouping(traceMap, traceOrder) == Group(hits[..i])
    {
      var hit := hits[i];
      assert hits[..i + 1][..i] == hits[..i];
      var traceId := StringField(hit, "trace_id");
      if traceId == "" {
        continue;
      }
      var agg: TraceAgg;
      if traceId in traceMap {
        agg := traceMap[traceId];
      } else {
        agg := NoSpans;
        traceOrder := traceOrder + [traceId];
      }
      agg := AddSpan(agg, hit);
      traceMap := traceMap[traceId := agg];
    }
    assert hits[..|hits|] == hits;
  }

  lemma TraceIdsPrefix(hits: seq<Hit>)
    requires |hits| > 0
    ensures TraceIds(hits) == TraceIds(hits[..|hits| - 1]) + [TraceIdOf(hits[|hits| - 1])]
  {
  }

  /**
   * A trace is grouped exactly when some row carries its (non-empty) ID,
   * and its span count is the number of rows that carry it.
   */
  lemma {:induction false} GroupCounts(hits: seq<Hit>, id: string)
    ensures id in Group(hits).aggs <==> id != "" && id in TraceIds(hits)
    ensures id in Group(hits).aggs ==> Group(hits).aggs[id].spanCount == multiset(TraceIds(hits))[id]
    decreases |hits|
  {
    if |hits| > 0 {
      var p := hits[..|hits| - 1];
      GroupCounts(p, id);
      TraceIdsPrefix(hits);
      if id !in TraceIds(p) {
        assert multiset(TraceIds(p))[id] == 0;
      }
    }
  }

  /** The index of the first occurrence of `id`, or the length when there is none. */
  function FirstIndex(ids: seq<string>, id: string): (r: nat)
    ensures r <= |ids| && (r < |ids| <==> id in ids)
    ensures r < |ids| ==> ids[r] == id
    ensures forall q :: 0 <= q < r ==> ids[q] != id
  {
    if ids == [] then 0 else if ids[0] == id then 0 else 1 + FirstIndex(ids[1..], id)
  }

  /** Rows added at the end do not move the first occurrence of an ID already seen. */
  lemma FirstIndexExtend(ids: seq<string>, x: string, id: string)
    ensures id in ids ==> FirstIndex(ids + [x], id) == FirstIndex(ids, id)
    ensures id !in ids && id == x ==> FirstIndex(ids + [x], id) == |ids|
  {
    var r, r' := FirstIndex(ids, id), FirstIndex(ids + [x], id);
    if id in ids {
      assert (ids + [x])[r] == id;
    } else if id == x {
      assert (ids + [x])[|ids|] == id;
    }
  }

  /** The trace order is the order in which the trace IDs first occur in the rows. */
  lemma {:induction false} GroupFirstSeen(hits: seq<Hit>)
    ensures forall k :: 0 <= k < |Group(hits).order| ==> FirstIndex(TraceIds(hits), Group(hits).order[k]) < |hits|
    ensures forall i, j :: 0 <= i < j < |Group(hits).order| ==>
      FirstIndex(TraceIds(hits), Group(hits).order[i]) < FirstIndex(TraceIds(hits), Group(hits).order[j])
    decreases |hits|
  {
    if |hits| > 0 {
      var p := hits[..|hits| - 1];
      var h := hits[|hits| - 1];
      GroupFirstSeen(p);
      TraceIdsPrefix(hits);
      var ids, pids := TraceIds(hits), TraceIds(p);
      var order, porder := Group(hits).order, Group(p).order;
      forall k | 0 <= k < |porder|
        ensures FirstIndex(ids, porder[k]) == FirstIndex(pids, porder[k]) < |pids|
      {
        FirstIndexExtend(pids, TraceIdOf(h), porder[k]);
      }
      if order != porder {
        var id := TraceIdOf(h);
        GroupCounts(p, id);
        FirstIndexExtend(pids, id, id);
        assert order == porder + [id];
      }
    }
  }

  /** The span counts of a trace list, added up. */
  function TotalSpans(traces: seq<TraceEntry>): int {
    if traces == [] then 0 else TotalSpans(traces[..|traces| - 1]) + traces[|traces| - 1].spanCount
  }

  lemma {:induction false} TotalSpansUpdate(traces: seq<TraceEntry>, k: nat, e: TraceEntry)
    requires k < |traces|
    ensures TotalSpans(traces[k := e]) == TotalSpans(traces) - traces[k].spanCount + e.spanCount
    decreases |traces|
  {
    var n := |traces|;
    var t' := traces[k := e];
    assert t'[..n - 1] == if k == n - 1 then traces[..n - 1] else traces[..n - 1][k := e];
    if k < n - 1 {
      TotalSpansUpdate(traces[..n - 1], k, e);
    }
  }

  /** A row of a trace already listed updates that trace's entry in place. */
  lemma TracesStepSeen(hits: seq<Hit>, k: nat)
    requires |hits| > 0
    requires var g := Group(hits[..|hits| - 1]);
      k < |g.order| && g.order[k] == TraceIdOf(hits[|hits| - 1]) && g.order[k] in g.aggs
    ensures var p := hits[..|hits| - 1];
      var h := hits[|hits| - 1];
      Traces(hits) == Traces(p)[k := Finalize(TraceIdOf(h), AggStep(Group(p).aggs[TraceIdOf(h)], h))]
  {
    var p := hits[..|hits| - 1];
    var h := hits[|hits| - 1];
    var id := TraceIdOf(h);
    var g := Group(p);
    GroupWellFormed(p);
    assert Group(hits) == Grouping(g.aggs[id := AggStep(g.aggs[id], h)], g.order);
    var t, t' := Traces(hits), Traces(p)[k := Finalize(id, AggStep(g.aggs[id], h))];
    forall i | 0 <= i < |t|
      ensures t[i] == t'[i]
    {
      if i != k {
        assert g.order[i] != id;
      }
    }
  }

  /** A row of a trace not yet listed appends that trace's entry. */
  lemma TracesStepNew(hits: seq<Hit>)
    requires |hits| > 0
    requires var h := hits[|hits| - 1];
      TraceIdOf(h) != "" && TraceIdOf(h) !in Group(hits[..|hits| - 1]).aggs
    ensures var p := hits[..|hits| - 1];
      var h := hits[|hits| - 1];
      Traces(hits) == Traces(p) + [Finalize(TraceIdOf(h), AggStep(NoSpans, h))]
  {
    var p := hits[..|hits| - 1];
    var h := hits[|hits| - 1];
    var id := TraceIdOf(h);
    var g := Group(p);
    GroupWellFormed(p);
    assert Group(hits) == Grouping(g.aggs[id := AggStep(NoSpans, h)], g.order + [id]);
    var t, t' := Traces(hits), Traces(p) + [Finalize(id, AggStep(NoSpans, h))];
    forall i | 0 <= i < |t|
      ensures t[i] == t'[i]
    {
      if i < |g.order| {
        assert g.order[i] in g.aggs;
      }
    }
  }

  /** The span counts of the list add up to the number of rows that carry a trace ID. */
  lemma {:induction false} TotalSpansCountsKeptRows(hits: seq<Hit>)
    ensures TotalSpans(Traces(hits)) == |hits| - multiset(TraceIds(hits))[""]
    decreases |hits|
  {
    if |hits| > 0 {
      var p := hits[..|hits| - 1];
      var h := hits[|hits| - 1];
      TotalSpansCountsKeptRows(p);
      TraceIdsPrefix(hits);
      var id := TraceIdOf(h);
      var g := Group(p);
      GroupWellFormed(p);
      if id != "" && id in g.aggs {
        var k :| 0 <= k < |g.order| && g.order[k] == id;
        TracesStepSeen(hits, k);
        TotalSpansUpdate(Traces(p), k, Finalize(id, AggStep(g.aggs[id], h)));
      } else if id != "" {
        TracesStepNew(hits);
        var t := Traces(p) + [Finalize(id, AggStep(NoSpans, h))];
        assert t[..|t| - 1] == Traces(p);
      }
    }
  }

  /**
   * The string at `key` of the last root row of trace `id` that holds a
   * string there, or "" when there is none (a reference definition, read
   * from the end of the rows).
   */
  function LastRootString(hits: seq<Hit>, id: string, key: string): (r: string)
    ensures (forall i :: 0 <= i < |hits| && TraceIdOf(hits[i]) == id ==> !IsRoot(hits[i])) ==> r == ""
    decreases |hits|
  {
    if |hits| == 0 then ""
    else
      var h := hits[|hits| - 1];
      if TraceIdOf(h) == id && IsRoot(h) && HasString(h, key) then h[key].str
      else LastRootString(hits[..|hits| - 1], id, key)
  }

  /** No row of the trace among these: nothing to take root fields from. */
  lemma AbsentTraceHasNoRows(hits: seq<Hit>, id: string)
    requires id !in TraceIds(hits)
    ensures forall i :: 0 <= i < |hits| ==> TraceIdOf(hits[i]) != id
  {
    forall i | 0 <= i < |hits|
      ensures TraceIdOf(hits[i]) != id
    {
      assert TraceIds(hits)[i] == TraceIdOf(hits[i]);
    }
  }

  /** What the last row does to the running state of trace `id`. */
  lemma LastRowUpdate(hits: seq<Hit>, id: string)
    requires |hits| > 0 && id in Group(hits).aggs
    ensures var p := hits[..|hits| - 1];
      var h := hits[|hits| - 1];
      && (TraceIdOf(h) != id ==> id in Group(p).aggs && Group(hits).aggs[id] == Group(p).aggs[id])
      && (TraceIdOf(h) == id && id in Group(p).aggs ==> Group(hits).aggs[id] == AggStep(Group(p).aggs[id], h))
      && (TraceIdOf(h) == id && id !in Group(p).aggs ==> Group(hits).aggs[id] == AggStep(NoSpans, h))
  {
    GroupWellFormed(hits[..|hits| - 1]);
  }

  /** The root fields of trace `id` after the last row, from those before it. */
  lemma RootFieldsStep(hits: seq<Hit>, id: string)
    requires |hits| > 0 && id in Group(hits).aggs
    ensures var p := hits[..|hits| - 1];
      var h := hits[|hits| - 1];
      var before := if id in Group(p).aggs then Group(p).aggs[id] else NoSpans;
      var root := TraceIdOf(h) == id && IsRoot(h);
      var agg := Group(hits).aggs[id];
      && agg.rootSpanId == (if root then Overwrite(before.rootSpanId, h, "span_id") else before.rootSpanId)
      && agg.rootSpanName == (if root then Overwrite(before.rootSpanName, h, "operation_name") else before.rootSpanName)
      && agg.rootSpanKind == (if root then Overwrite(before.rootSpanKind, h, "span_kind") else before.rootSpanKind)
  {
    LastRowUpdate(hits, id);
  }

  /** Each root field of a trace comes from its last root row holding a string at that column. */
  lemma {:induction false} GroupRootFields(hits: seq<Hit>, id: string)
    requires id in Group(hits).aggs
    ensures Group(hits).aggs[id].rootSpanId == LastRootString(hits, id, "span_id")
    ensures Group(hits).aggs[id].rootSpanName == LastRootString(hits, id, "operation_name")
    ensures Group(hits).aggs[id].rootSpanKind == LastRootString(hits, id, "span_kind")
    decreases |hits|
  {
    var p := hits[..|hits| - 1];
    RootFieldsStep(hits, id);
    if id in Group(p).aggs {
      GroupRootFields(p, id);
    } else {
      UngroupedHasNoRows(p, id);
    }
  }

  /** The numeric start and end columns of a row. */
  function StartOf(hit: Hit): Option<int> {
    NumberField(hit, "start_time")
  }

  function EndOf(hit: Hit): Option<int> {
    NumberField(hit, "end_time")
  }

  /** The end of trace `id` after the last row, from its end before it. */
  lemma MaxEndStep(hits: seq<Hit>, id: string)
    requires |hits| > 0 && id in Group(hits).aggs
    ensures var p := hits[..|hits| - 1];
      var h := hits[|hits| - 1];
      var before := if id in Group(p).aggs then Group(p).aggs[id].maxEnd else 0;
      Group(hits).aggs[id].maxEnd
        == if TraceIdOf(h) == id && EndOf(h).Some? && EndOf(h).value > before then EndOf(h).value else before
  {
    LastRowUpdate(hits, id);
  }

  /** The start of trace `id` after the last row, from its start before it. */
  lemma MinStartStep(hits: seq<Hit>, id: string)
    requires |hits| > 0 && id in Group(hits).aggs
    ensures var p := hits[..|hits| - 1];
      var h := hits[|hits| - 1];
      var before := if id in Group(p).aggs then Group(p).aggs[id].minStart else 0;
      Group(hits).aggs[id].minStart
        == if TraceIdOf(h) == id && StartOf(h).Some? && (before == 0 || StartOf(h).value < before)
           then StartOf(h).value else before
  {
    LastRowUpdate(hits, id);
  }

  /** No row carries a non-empty ID that the grouping pass has not seen. */
  lemma UngroupedHasNoRows(hits: seq<Hit>, id: string)
    requires id != "" && id !in Group(hits).aggs
    ensures forall i :: 0 <= i < |hits| ==> TraceIdOf(hits[i]) != id
  {
    GroupCounts(hits, id);
    AbsentTraceHasNoRows(hits, id);
  }

  /** A trace's end is at least 0 and at least every numeric end time among its rows. */
  lemma {:induction false} GroupMaxEndBound(hits: seq<Hit>, id: string)
    requires id in Group(hits).aggs
    ensures Group(hits).aggs[id].maxEnd >= 0
    ensures forall i :: 0 <= i < |hits| && TraceIdOf(hits[i]) == id && EndOf(hits[i]).Some? ==>
      EndOf(hits[i]).value <= Group(hits).aggs[id].maxEnd
    decreases |hits|
  {
    var p := hits[..|hits| - 1];
    MaxEndStep(hits, id);
    if id in Group(p).aggs {
      GroupMaxEndBound(p, id);
    } else {
      UngroupedHasNoRows(p, id);
    }
    forall i | 0 <= i < |p| && TraceIdOf(hits[i]) == id && EndOf(hits[i]).Some?
      ensures EndOf(hits[i]).value <= Group(hits).aggs[id].maxEnd
    {
      assert hits[i] == p[i];
    }
  }

  /** A trace's end is 0 or the end time of one of its rows. */
  lemma {:induction false} GroupMaxEndAttained(hits: seq<Hit>, id: string)
    requires id in Group(hits).aggs
    ensures Group(hits).aggs[id].maxEnd == 0
      || (exists i :: 0 <= i < |hits| && TraceIdOf(hits[i]) == id && EndOf(hits[i]) == Some(Group(hits).aggs[id].maxEnd))
    decreases |hits|
  {
    var p := hits[..|hits| - 1];
    var m := Group(hits).aggs[id].maxEnd;
    MaxEndStep(hits, id);
    if id in Group(p).aggs && m == Group(p).aggs[id].maxEnd && m != 0 {
      GroupMaxEndAttained(p, id);
      var i :| 0 <= i < |p| && TraceIdOf(p[i]) == id && EndOf(p[i]) == Some(m);
      assert hits[i] == p[i];
    }
  }

  /** No row of trace `id` starts at 0, the value the pass takes for "unset". */
  predicate NoZeroStart(hits: seq<Hit>, id: string) {
    forall i :: 0 <= i < |hits| && TraceIdOf(hits[i]) == id ==> StartOf(hits[i]) != Some(0)
  }

  lemma NoZeroStartPrefix(hits: seq<Hit>, id: string)
    requires |hits| > 0 && NoZeroStart(hits, id)
    ensures NoZeroStart(hits[..|hits| - 1], id)
  {
    var p := hits[..|hits| - 1];
    forall i | 0 <= i < |p| && TraceIdOf(p[i]) == id
      ensures StartOf(p[i]) != Some(0)
    {
      assert hits[i] == p[i];
    }
  }

  /**
   * When no row of the trace starts at 0, a trace's start is at most every
   * numeric start time among its rows.
   */
  lemma {:induction false} GroupMinStartBound(hits: seq<Hit>, id: string)
    requires id in Group(hits).aggs && NoZeroStart(hits, id)
    ensures forall i :: 0 <= i < |hits| && TraceIdOf(hits[i]) == id && StartOf(hits[i]).Some? ==>
      Group(hits).aggs[id].minStart <= StartOf(hits[i]).value
    decreases |hits|
  {
    var p := hits[..|hits| - 1];
    var m := Group(hits).aggs[id].minStart;
    MinStartStep(hits, id);
    if id in Group(p).aggs {
      NoZeroStartPrefix(hits, id);
      GroupMinStartBound(p, id);
      GroupMinStartUnset(p, id);
    } else {
      UngroupedHasNoRows(p, id);
    }
    forall i | 0 <= i < |p| && TraceIdOf(hits[i]) == id && StartOf(hits[i]).Some?
      ensures m <= StartOf(hits[i]).value
    {
      assert hits[i] == p[i];
    }
  }

  /**
   * When no row of the trace starts at 0, a trace's start is 0 exactly when
   * none of its rows has a numeric start time.
   */
  lemma {:induction false} GroupMinStartUnset(hits: seq<Hit>, id: string)
    requires id in Group(hits).aggs && NoZeroStart(hits, id)
    ensures Group(hits).aggs[id].minStart == 0 <==>
      forall i :: 0 <= i < |hits| && TraceIdOf(hits[i]) == id ==> StartOf(hits[i]).None?
    decreases |hits|
  {
    var p := hits[..|hits| - 1];
    var m := Group(hits).aggs[id].minStart;
    MinStartStep(hits, id);
    if id in Group(p).aggs {
      NoZeroStartPrefix(hits, id);
      GroupMinStartUnset(p, id);
    } else {
      UngroupedHasNoRows(p, id);
    }
    if m == 0 {
      forall i | 0 <= i < |p| && TraceIdOf(hits[i]) == id
        ensures StartOf(hits[i]).None?
      {
        assert hits[i] == p[i];
      }
    } else if id in Group(p).aggs && m == Group(p).aggs[id].minStart {
      var i :| 0 <= i < |p| && TraceIdOf(p[i]) == id && StartOf(p[i]).Some?;
      assert hits[i] == p[i];
    }
  }

  /** A trace's start is 0 or the start time of one of its rows. */
  lemma {:induction false} GroupMinStartAttained(hits: seq<Hit>, id: string)
    requires id in Group(hits).aggs
    ensures Group(hits).aggs[id].minStart == 0
      || (exists i :: 0 <= i < |hits| && TraceIdOf(hits[i]) == id && StartOf(hits[i]) == Some(Group(hits).aggs[id].minStart))
    decreases |hits|
  {
    var p := hits[..|hits| - 1];
    var m := Group(hits).aggs[id].minStart;
    MinStartStep(hits, id);
    if id in Group(p).aggs && m == Group(p).aggs[id].minStart && m != 0 {
      GroupMinStartAttained(p, id);
      var i :| 0 <= i < |p| && TraceIdOf(p[i]) == id && StartOf(p[i]) == Some(m);
      assert hits[i] == p[i];
    }
  }

  /**
   * Each trace of the list is a trace ID some row carries, listed once, in
   * the order the IDs first occur; every non-empty ID of the rows is listed.
   */
  lemma TracesListEachTraceOnce(hits: seq<Hit>)
    ensures forall k :: 0 <= k < |Traces(hits)| ==>
      Traces(hits)[k].traceId != "" && Traces(hits)[k].traceId in TraceIds(hits)
    ensures forall id :: id != "" && id in TraceIds(hits) ==>
      exists k :: 0 <= k < |Traces(hits)| && Traces(hits)[k].traceId == id
    ensures forall i, j :: 0 <= i < j < |Traces(hits)| ==>
      FirstIndex(TraceIds(hits), Traces(hits)[i].traceId) < FirstIndex(TraceIds(hits), Traces(hits)[j].traceId)
  {
    var g := Group(hits);
    var t := Traces(hits);
    GroupWellFormed(hits);
    GroupFirstSeen(hits);
    forall k | 0 <= k < |t|
      ensures t[k].traceId != "" && t[k].traceId in TraceIds(hits)
    {
      GroupCounts(hits, g.order[k]);
    }
    forall id | id != "" && id in TraceIds(hits)
      ensures exists k :: 0 <= k < |t| && t[k].traceId == id
    {
      GroupCounts(hits, id);
      var k :| 0 <= k < |g.order| && g.order[k] == id;
    }
  }

  /**
   * Each entry of the list summarises the rows of its trace: its span count
   * is the number of rows carrying its ID, its root fields come from the
   * last root rows, its end is the largest numeric end (0 without one), its
   * start is 0 or the start of one of its rows and, when no row of the trace
   * starts at 0, the smallest numeric start.
   */
  lemma TraceEntrySummarizesRows(hits: seq<Hit>, k: nat)
    requires k < |Traces(hits)|
    ensures var e := Traces(hits)[k];
      var id := e.traceId;
      && e.spanCount == multiset(TraceIds(hits))[id]
      && e.rootSpanId == LastRootString(hits, id, "span_id")
      && e.rootSpanName == LastRootString(hits, id, "operation_name")
      && e.rootSpanKind == LastRootString(hits, id, "span_kind")
      && e.traceName == e.rootSpanName
      && e.endTime >= 0
      && (forall i :: 0 <= i < |hits| && TraceIdOf(hits[i]) == id && EndOf(hits[i]).Some? ==> EndOf(hits[i]).value <= e.endTime)
      && (e.endTime == 0 || exists i :: 0 <= i < |hits| && TraceIdOf(hits[i]) == id && EndOf(hits[i]) == Some(e.endTime))
      && (e.startTime == 0 || exists i :: 0 <= i < |hits| && TraceIdOf(hits[i]) == id && StartOf(hits[i]) == Some(e.startTime))
      && (NoZeroStart(hits, id) ==> forall i :: 0 <= i < |hits| && TraceIdOf(hits[i]) == id && StartOf(hits[i]).Some? ==>
            e.startTime <= StartOf(hits[i]).value)
      && e.durationNs == e.endTime - e.startTime
  {
    var id := Group(hits).order[k];
    GroupWellFormed(hits);
    GroupCounts(hits, id);
    GroupRootFields(hits, id);
    GroupMaxEndBound(hits, id);
    GroupMaxEndAttained(hits, id);
    GroupMinStartAttained(hits, id);
    if NoZeroStart(hits, id) {
      GroupMinStartBound(hits, id);
    }
  }
}
