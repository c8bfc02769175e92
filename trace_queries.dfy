/**
 * The tracing service's query compiler: the scope filter, the flat span
 * listing used to rebuild traces, the span listing of one trace and the
 * point lookup of one span, all against the traces stream.
 */
module TraceQueries {
  import opened Wrappers
  import opened Search
  import opened SqlText

  /** The scope a trace query is restricted to; an empty field does not restrict. */
  datatype Scope = Scope(namespace: string, projectId: string, componentId: string, environmentId: string)

  /** Parameters of a trace query; times in nanoseconds since the epoch. */
  datatype TracesQueryParams = TracesQueryParams(
    startTime: int,
    endTime: int,
    limit: int,
    sort: string,
    scope: Scope,
    traceId: string,
    spanId: string)

  /** The span resource attributes the scope filter compares against. */
  const NamespaceAttribute := "service_openchoreo_dev_namespace"
  const ProjectAttribute := "service_openchoreo_dev_project_uid"
  const EnvironmentAttribute := "service_openchoreo_dev_environment_uid"
  const ComponentAttribute := "service_openchoreo_dev_component_uid"

  /** Go's `math.MaxInt64`. */
  const MaxInt64 := 0x7fff_ffff_ffff_ffff

  /** The seven columns of the flat span listing a trace list is rebuilt from. */
  const TracesSelect :=
    "SELECT trace_id, span_id, operation_name, span_kind, start_time, end_time, reference_parent_span_id FROM "

  /** The columns of a trace's span listing, with the duration computed by the backend. */
  const SpansSelect :=
    "SELECT span_id, operation_name, span_kind, start_time, end_time, end_time - start_time as duration, reference_parent_span_id FROM "

  /** The conjuncts of the scope filter, in the order the builder appends them. */
  function ScopeConditions(scope: Scope): seq<string> {
    When(scope.namespace != "", EqualsLiteral(NamespaceAttribute, scope.namespace))
      + When(scope.projectId != "", EqualsLiteral(ProjectAttribute, scope.projectId))
      + When(scope.environmentId != "", EqualsLiteral(EnvironmentAttribute, scope.environmentId))
      + When(scope.componentId != "", EqualsLiteral(ComponentAttribute, scope.componentId))
  }

  /**
   * One escaped equality per non-empty scope field, in the order namespace,
   * project, environment, component; an empty scope yields no conjunct.
   */
  lemma ScopeConditionsPlacement(scope: Scope)
    ensures var c := ScopeConditions(scope);
      var ns := Flag(scope.namespace != "");
      var project := Flag(scope.projectId != "");
      var env := Flag(scope.environmentId != "");
      && |c| == ns + project + env + Flag(scope.componentId != "")
      && (c == [] <==> scope.namespace == "" && scope.projectId == "" && scope.environmentId == "" && scope.componentId == "")
      && (scope.namespace != "" ==> c[0] == EqualsLiteral(NamespaceAttribute, scope.namespace))
      && (scope.projectId != "" ==> c[ns] == EqualsLiteral(ProjectAttribute, scope.projectId))
      && (scope.environmentId != "" ==> c[ns + project] == EqualsLiteral(EnvironmentAttribute, scope.environmentId))
      && (scope.componentId != "" ==> c[ns + project + env] == EqualsLiteral(ComponentAttribute, scope.componentId))
  {
    var x0, x1 := EqualsLiteral(NamespaceAttribute, scope.namespace), EqualsLiteral(ProjectAttribute, scope.projectId);
    var x2, x3 := EqualsLiteral(EnvironmentAttribute, scope.environmentId), EqualsLiteral(ComponentAttribute, scope.componentId);
    var b0, b1, b2, b3 := scope.namespace != "", scope.projectId != "", scope.environmentId != "", scope.componentId != "";
    var c1 := When(b0, x0);
    var c2 := c1 + When(b1, x1);
    var c3 := c2 + When(b2, x2);
    WhenAppended(c1, b1, x1);
    WhenAppended(c2, b2, x2);
    WhenAppended(c3, b3, x3);
  }

  /** `buildFilterConditions`: each non-empty scope field appends its conjunct. */
  method BuildFilterConditions(params: TracesQueryParams) returns (conditions: seq<string>)
    ensures conditions == ScopeConditions(params.scope)
  {
    var scope := params.scope;
    conditions := [];
    if scope.namespace != "" {
      conditions := conditions + [EqualsLiteral(NamespaceAttribute, scope.namespace)];
    }
    assert conditions == When(scope.namespace != "", EqualsLiteral(NamespaceAttribute, scope.namespace));
    ghost var before := conditions;
    if scope.projectId != "" {
      conditions := conditions + [EqualsLiteral(ProjectAttribute, scope.projectId)];
    }
    assert conditions == before + When(scope.projectId != "", EqualsLiteral(ProjectAttribute, scope.projectId));
    before := conditions;
    if scope.environmentId != "" {
      conditions := conditions + [EqualsLiteral(EnvironmentAttribute, scope.environmentId)];
    }
    assert conditions == before + When(scope.environmentId != "", EqualsLiteral(EnvironmentAttribute, scope.environmentId));
    before := conditions;
    if scope.componentId != "" {
      conditions := conditions + [EqualsLiteral(ComponentAttribute, scope.componentId)];
    }
    assert conditions == before + When(scope.componentId != "", EqualsLiteral(ComponentAttribute, scope.componentId));
    assert conditions == ScopeConditions(scope);
  }

  /**
   * `generateTracesListQuery`: the seven span columns over the stream as
   * configured (not quoted), the scope conjuncts only when there are any,
   * ordered by start time, over the window in microseconds and without a
   * page limit (`size` -1), so that grouping sees every span of the window.
   */
  method GenerateTracesListQuery(params: TracesQueryParams, stream: string) returns (query: SearchQuery)
    ensures query.sql == TracesSelect + stream + WhereClause(ScopeConditions(params.scope)) + " ORDER BY start_time"
    ensures query.startTime == UnixMicro(params.startTime) && query.endTime == UnixMicro(params.endTime)
    ensures query.from == 0 && query.size == -1 && query.timeout == None
  {
    var sql := TracesSelect + stream;
    var conditions := BuildFilterConditions(params);
    if |conditions| > 0 {
      sql := sql + (" WHERE " + Join(conditions, " AND "));
    } else {
      assert sql == sql + WhereClause(conditions);
    }
    sql := sql + " ORDER BY start_time";
    query := SearchQuery(sql, UnixMicro(params.startTime), UnixMicro(params.endTime), 0, -1, None);
  }

  /** `ORDER BY start_time`, ascending only for the two whitelisted spellings. */
  function StartTimeOrder(sort: string): (r: string)
    ensures r == " ORDER BY start_time ASC" || r == " ORDER BY start_time DESC"
    ensures r == " ORDER BY start_time ASC" <==> IsAscending(sort)
  {
    if IsAscending(sort) then " ORDER BY start_time ASC" else " ORDER BY start_time DESC"
  }

  /**
   * `generateSpansListQuery`: the one conjunct `trace_id = '<escaped id>'`,
   * the whitelisted order, the window in microseconds, offset 0 and the
   * defaulted limit.
   */
  method GenerateSpansListQuery(params: TracesQueryParams, stream: string) returns (query: SearchQuery)
    ensures query.sql == SpansSelect + stream + " WHERE " + EqualsLiteral("trace_id", params.traceId) + StartTimeOrder(params.sort)
    ensures query.startTime == UnixMicro(params.startTime) && query.endTime == UnixMicro(params.endTime)
    ensures query.from == 0 && query.size == DefaultLimit(params.limit) && query.timeout == Some(0)
  {
    var conditions := [EqualsLiteral("trace_id", params.traceId)];
    var sql := SpansSelect + stream + " WHERE " + Join(conditions, " AND ");
    if IsAscending(params.sort) {
      sql := sql + " ORDER BY start_time ASC";
    } else {
      sql := sql + " ORDER BY start_time DESC";
    }
    var limit := params.limit;
    if limit <= 0 {
      limit := 100;
    }
    query := SearchQuery(sql, UnixMicro(params.startTime), UnixMicro(params.endTime), 0, limit, Some(0));
  }

  /**
   * The span listing's only literal holds exactly the requested trace ID and
   * closes right before the order clause, whatever the ID contains.
   */
  lemma SpansListQueryReadsBack(params: TracesQueryParams, stream: string)
    ensures var lead := SpansSelect + stream + " WHERE ";
      var sql := lead + EqualsLiteral("trace_id", params.traceId) + StartTimeOrder(params.sort);
      var n := |lead| + |"trace_id"| + 4;
      && sql[..n] == lead + "trace_id" + " = '"
      && ScanQuoted(sql[n..], '\'', true) == Some((params.traceId, StartTimeOrder(params.sort)))
  {
    ConjunctReadsBack(SpansSelect + stream + " WHERE ", "trace_id", params.traceId, StartTimeOrder(params.sort));
  }

  /**
   * `generateSpanDetailQuery`: the two conjuncts trace ID then span ID, a
   * window from 1 to `MaxInt64 / 2` whatever the parameters say, one row.
   */
  function GenerateSpanDetailQuery(params: TracesQueryParams, stream: string): (query: SearchQuery)
    ensures query.sql == "SELECT * FROM " + stream + " WHERE "
      + (EqualsLiteral("trace_id", params.traceId) + " AND " + EqualsLiteral("span_id", params.spanId))
    ensures query.startTime == 1 && query.endTime == 4611686018427387903
    ensures query.from == 0 && query.size == 1 && query.timeout == Some(0)
  {
    var conditions := [EqualsLiteral("trace_id", params.traceId), EqualsLiteral("span_id", params.spanId)];
    JoinTwo(conditions[0], conditions[1], " AND ");
    SearchQuery("SELECT * FROM " + stream + " WHERE " + Join(conditions, " AND "), 1, MaxInt64 / 2, 0, 1, Some(0))
  }

  /**
   * The span lookup's first literal holds exactly the trace ID and is
   * followed by ` AND ` and the span conjunct, whose literal holds exactly
   * the span ID and ends the query.
   */
  lemma SpanDetailQueryReadsBack(params: TracesQueryParams, stream: string)
    ensures var sql := GenerateSpanDetailQuery(params, stream).sql;
      var lead := "SELECT * FROM " + stream + " WHERE ";
      var n := |lead| + |"trace_id"| + 4;
      var second := " AND " + EqualsLiteral("span_id", params.spanId);
      var m := |" AND "| + |"span_id"| + 4;
      && sql[..n] == lead + "trace_id" + " = '"
      && ScanQuoted(sql[n..], '\'', true) == Some((params.traceId, second))
      && second[..m] == " AND " + "span_id" + " = '"
      && ScanQuoted(second[m..], '\'', true) == Some((params.spanId, ""))
  {
    var lead := "SELECT * FROM " + stream + " WHERE ";
    var first := EqualsLiteral("trace_id", params.traceId);
    var spanConjunct := EqualsLiteral("span_id", params.spanId);
    Regroup(first, " AND ", spanConjunct);
    Regroup(lead, first, " AND " + spanConjunct);
    ConjunctReadsBack(lead, "trace_id", params.traceId, " AND " + spanConjunct);
    assert " AND " + spanConjunct + "" == " AND " + spanConjunct;
    ConjunctReadsBack(" AND ", "span_id", params.spanId, "");
  }
}
