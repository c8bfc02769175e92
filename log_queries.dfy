/**
 * The logs service's query compiler: the parameter records it receives, the
 * two search-query builders (workflow logs and component logs) and the
 * count-based alert translator, all targeting one OpenObserve stream.
 */
module LogQueries {
  import opened Wrappers
  import opened Search
  import opened SqlText

  /** Parameters of a component (application) log query; times in nanoseconds since the epoch. */
  datatype ComponentLogsParams = ComponentLogsParams(
    namespace: string,
    componentIds: seq<string>,
    environmentId: string,
    projectId: string,
    startTime: int,
    endTime: int,
    searchPhrase: string,
    logLevels: seq<string>,
    limit: int,
    sortOrder: string)

  /** Parameters of a workflow-run log query; times in nanoseconds since the epoch. */
  datatype WorkflowLogsParams = WorkflowLogsParams(
    namespace: string,
    workflowRunName: string,
    startTime: int,
    endTime: int,
    searchPhrase: string,
    logLevels: seq<string>,
    limit: int,
    sortOrder: string)

  /** A `float32` threshold, carried as its bit pattern and never inspected. */
  datatype Float32 = Float32(bits: bv32)

  /** Parameters of a log alert rule. */
  datatype LogAlertParams = LogAlertParams(
    name: Option<string>,
    namespace: string,
    projectUid: string,
    environmentUid: string,
    componentUid: string,
    searchPattern: string,
    operator: string,
    thresholdValue: Float32,
    window: string,
    interval: string)

  datatype AlertCondition = AlertCondition(column: string, operator: string, value: Float32)

  /** The alert document posted to `/api/v2/{org}/alerts`. */
  datatype AlertConfig = AlertConfig(
    name: string,
    streamName: string,
    query: string,
    condition: AlertCondition,
    duration: string,
    frequency: string,
    isRealtime: string,
    destinations: seq<string>,
    alertType: string)

  /** The stream columns the log filters compare against. */
  const NamespaceLabel := "kubernetes_labels_openchoreo_dev_namespace"
  const ProjectLabel := "kubernetes_labels_openchoreo_dev_project_uid"
  const EnvironmentLabel := "kubernetes_labels_openchoreo_dev_environment_uid"
  const ComponentLabel := "kubernetes_labels_openchoreo_dev_component_uid"
  const WorkflowRunLabel := "kubernetes_labels_workflows_argoproj_io_workflow"
  const PodNamespaceColumn := "kubernetes_namespace_name"

  /** The operators an alert rule may use and the SQL comparison each stands for. */
  const OperatorSymbols: map<string, string> :=
    map["gt" := ">", "gte" := ">=", "lt" := "<", "lte" := "<=", "eq" := "=", "neq" := "!="]

  /** `mapOperator`: the six API operators map to their SQL symbols; anything else is refused. */
  function MapOperator(op: string): (r: Result<string, Error>)
    ensures r.Success? <==> op in OperatorSymbols
    ensures r.Success? ==> r.value == OperatorSymbols[op]
    ensures r.Failure? ==> r.error == UnsupportedOperator(op)
  {
    match op
    case "gt" => Success(">")
    case "gte" => Success(">=")
    case "lt" => Success("<")
    case "lte" => Success("<=")
    case "eq" => Success("=")
    case "neq" => Success("!=")
    case _ => Failure(UnsupportedOperator(op))
  }

  /** The counting query an alert runs against its stream. */
  function AlertQuery(streamName: string, pattern: string): string {
    "SELECT count(*) as match_count FROM " + QuoteIdentifier(streamName)
      + " WHERE str_match(log, '" + EscapeSQLString(pattern) + "')"
  }

  /**
   * The alert query names exactly the caller's stream inside its quoted
   * identifier and matches exactly the caller's pattern inside its literal.
   */
  lemma AlertQueryReadsBack(streamName: string, pattern: string)
    ensures var q := AlertQuery(streamName, pattern);
      var select := "SELECT count(*) as match_count FROM ";
      var tail := " WHERE str_match(log, '" + EscapeSQLString(pattern) + "')";
      && q[..|select|] == select
      && q[|select|] == '"'
      && ScanQuoted(q[|select| + 1..], '"', false) == Some((streamName, tail))
      && ScanQuoted(tail[|" WHERE str_match(log, '"|..], '\'', true) == Some((pattern, ")"))
  {
    var select := "SELECT count(*) as match_count FROM ";
    var open_ := " WHERE str_match(log, '";
    var escaped := EscapeSQLString(pattern);
    var quoted := QuoteIdentifier(streamName);
    var tail := open_ + escaped + "')";
    Regroup(select + quoted, open_ + escaped, "')");
    Regroup(select + quoted, open_, escaped);
    Regroup(select, quoted, tail);
    assert AlertQuery(streamName, pattern) == select + (quoted + tail);
    SplitAppend(select, quoted + tail);
    SplitAppend(quoted, tail);
    QuotedIdentifierReadsBack(streamName, tail);
    Regroup(open_, escaped, "')");
    SplitAppend(open_, escaped + "')");
    Regroup(escaped, "'", ")");
    assert "'" + ")" == "')";
    EscapedLiteralReadsBack(pattern, ")");
  }

  /**
   * `generateAlertConfig`: fails exactly when the operator is unsupported;
   * otherwise a scheduled, non-realtime alert on `match_count` of the
   * counting query, routed to the fixed `openchoreo_alerts` destination.
   */
  function GenerateAlertConfig(params: LogAlertParams, streamName: string): (r: Result<AlertConfig, Error>)
    ensures r.Failure? <==> params.operator !in OperatorSymbols
    ensures r.Failure? ==> r.error == Wrapped("invalid alert operator", UnsupportedOperator(params.operator))
    ensures r.Success? ==>
      && r.value.name == (if params.name.None? then "" else params.name.value)
      && r.value.streamName == streamName
      && r.value.query == AlertQuery(streamName, params.searchPattern)
      && r.value.condition == AlertCondition("match_count", OperatorSymbols[params.operator], params.thresholdValue)
      && r.value.duration == params.window
      && r.value.frequency == params.interval
      && r.value.isRealtime == "no"
      && r.value.destinations == ["openchoreo_alerts"]
      && r.value.alertType == "scheduled"
  {
    var query := AlertQuery(streamName, params.searchPattern);
    match MapOperator(params.operator)
    case Failure(e) => Failure(Wrapped("invalid alert operator", e))
    case Success(sqlOperator) =>
      var alertName := params.name.GetOr("");
      Success(AlertConfig(
        alertName, streamName, query,
        AlertCondition("match_count", sqlOperator, params.thresholdValue),
        params.window, params.interval, "no", ["openchoreo_alerts"], "scheduled"))
  }

  /** `column LIKE '%<escaped phrase>%'`. */
  function ContainsCondition(column: string, phrase: string): string {
    column + " LIKE '%" + EscapeSQLString(phrase) + "%'"
  }

  /** The substring filter is an ordinary literal whose content is the phrase between two `%`. */
  lemma ContainsConditionIsLiteral(column: string, phrase: string)
    ensures ContainsCondition(column, phrase) == column + " LIKE '" + EscapeSQLString("%" + phrase + "%") + "'"
  {
    var like, pct, quote := " LIKE '", "%", "'";
    var escaped := EscapeSQLString(phrase);
    assert " LIKE '%" == like + pct && "%'" == pct + quote;
    assert EscapeSQLString(pct) == pct;
    EscapeAppend(pct, phrase);
    EscapeAppend(pct + phrase, pct);
    assert EscapeSQLString(pct + phrase + pct) == pct + escaped + pct;
    Regroup(column, like, pct);
    Regroup(column + like + pct + escaped, pct, quote);
    assert ContainsCondition(column, phrase) == column + like + pct + escaped + pct + quote;
    Regroup(column + like, pct + escaped, pct);
    Regroup(column + like, pct, escaped);
  }

  /** A workflow run's pods live in the namespace `openchoreo-ci-<namespace>`. */
  function WorkflowNamespaceCondition(namespace: string): string {
    PodNamespaceColumn + " = '" + "openchoreo-ci-" + EscapeSQLString(namespace) + "'"
  }

  /** The workflow namespace filter compares with the literal `openchoreo-ci-<namespace>`. */
  lemma WorkflowNamespaceIsLiteral(namespace: string)
    ensures WorkflowNamespaceCondition(namespace)
      == EqualsLiteral(PodNamespaceColumn, "openchoreo-ci-" + namespace)
  {
    var prefix := "openchoreo-ci-";
    assert '\\' !in prefix && '\'' !in prefix;
    PlainPrefixLiteral(PodNamespaceColumn, prefix, namespace);
  }

  /** The conjuncts of a workflow log query, in the order the builder appends them. */
  function WorkflowConditions(p: WorkflowLogsParams): seq<string> {
    When(p.namespace != "", WorkflowNamespaceCondition(p.namespace))
      + When(p.workflowRunName != "",
             EqualsLiteral(WorkflowRunLabel, p.workflowRunName))
      + When(p.searchPhrase != "", ContainsCondition("log", p.searchPhrase))
      + When(|p.logLevels| > 0, AnyOf(EqualsEach("logLevel", p.logLevels)))
  }

  /**
   * Each workflow filter adds exactly one conjunct, only when set, and at
   * the position that follows the set filters before it.
   */
  lemma WorkflowConditionsPlacement(p: WorkflowLogsParams)
    ensures var c := WorkflowConditions(p);
      var ns := Flag(p.namespace != "");
      var run := Flag(p.workflowRunName != "");
      var phrase := Flag(p.searchPhrase != "");
      && |c| == ns + run + phrase + Flag(|p.logLevels| > 0)
      && (p.namespace != "" ==> c[0] == WorkflowNamespaceCondition(p.namespace))
      && (p.workflowRunName != "" ==>
            c[ns] == EqualsLiteral(WorkflowRunLabel, p.workflowRunName))
      && (p.searchPhrase != "" ==> c[ns + run] == ContainsCondition("log", p.searchPhrase))
      && (|p.logLevels| > 0 ==> c[ns + run + phrase] == AnyOf(EqualsEach("logLevel", p.logLevels)))
  {
    var x0, x1 := WorkflowNamespaceCondition(p.namespace), EqualsLiteral(WorkflowRunLabel, p.workflowRunName);
    var x2, x3 := ContainsCondition("log", p.searchPhrase), AnyOf(EqualsEach("logLevel", p.logLevels));
    var b0, b1, b2, b3 := p.namespace != "", p.workflowRunName != "", p.searchPhrase != "", |p.logLevels| > 0;
    var c1 := When(b0, x0);
    var c2 := c1 + When(b1, x1);
    var c3 := c2 + When(b2, x2);
    WhenAppended(c1, b1, x1);
    WhenAppended(c2, b2, x2);
    WhenAppended(c3, b3, x3);
  }

  /** `ORDER BY _timestamp`, ascending only for the two whitelisted spellings. */
  function TimestampOrder(sortOrder: string): (r: string)
    ensures r == " ORDER BY _timestamp ASC" || r == " ORDER BY _timestamp DESC"
    ensures r == " ORDER BY _timestamp ASC" <==> IsAscending(sortOrder)
  {
    if IsAscending(sortOrder) then " ORDER BY _timestamp ASC" else " ORDER BY _timestamp DESC"
  }

  /** `"(" + strings.Join(conds, " OR ") + ")"` over one equality per value, filled by index. */
  method BuildAnyOf(column: string, values: seq<string>) returns (group: string)
    ensures group == AnyOf(EqualsEach(column, values))
  {
    var conditions := new string[|values|];
    for i := 0 to |values|
      invariant forall k :: 0 <= k < i ==> conditions[k] == EqualsLiteral(column, values[k])
    {
      conditions[i] := EqualsLiteral(column, values[i]);
    }
    assert conditions[..] == EqualsEach(column, values);
    group := "(" + Join(conditions[..], " OR ") + ")";
  }

  /**
   * The SQL text both log builders assemble: `SELECT *` over the quoted
   * stream, `WHERE` and the conjuncts only when there are any, and the
   * whitelisted `ORDER BY _timestamp`.
   */
  method BuildLogsSql(stream: string, conditions: seq<string>, sortOrder: string) returns (sql: string)
    ensures sql == "SELECT * FROM " + QuoteIdentifier(stream) + WhereClause(conditions) + TimestampOrder(sortOrder)
  {
    sql := "SELECT * FROM " + QuoteIdentifier(stream);
    if |conditions| > 0 {
      sql := sql + (" WHERE " + Join(conditions, " AND "));
    } else {
      assert sql == sql + WhereClause(conditions);
    }
    if IsAscending(sortOrder) {
      sql := sql + " ORDER BY _timestamp ASC";
    } else {
      sql := sql + " ORDER BY _timestamp DESC";
    }
  }

  /** The filter steps of `generateWorkflowLogsQuery`: each set filter appends its conjunct. */
  method WorkflowFilters(params: WorkflowLogsParams) returns (conditions: seq<string>)
    ensures conditions == WorkflowConditions(params)
  {
    conditions := [];
    if params.namespace != "" {
      conditions := conditions + [WorkflowNamespaceCondition(params.namespace)];
    }
    assert conditions == When(params.namespace != "", WorkflowNamespaceCondition(params.namespace));
    ghost var before := conditions;
    if params.workflowRunName != "" {
      conditions := conditions + [EqualsLiteral(WorkflowRunLabel, params.workflowRunName)];
    }
    assert conditions == before + When(params.workflowRunName != "", EqualsLiteral(WorkflowRunLabel, params.workflowRunName));
    before := conditions;
    if params.searchPhrase != "" {
      conditions := conditions + [ContainsCondition("log", params.searchPhrase)];
    }
    assert conditions == before + When(params.searchPhrase != "", ContainsCondition("log", params.searchPhrase));
    before := conditions;
    if |params.logLevels| > 0 {
      var levels := BuildAnyOf("logLevel", params.logLevels);
      conditions := conditions + [levels];
    }
    assert conditions == before + When(|params.logLevels| > 0, AnyOf(EqualsEach("logLevel", params.logLevels)));
    assert conditions == WorkflowConditions(params);
  }

  /**
   * `generateWorkflowLogsQuery`: `SELECT *` over the quoted stream, the
   * workflow conjuncts (no `WHERE` when there are none), the whitelisted
   * order, the window in microseconds, offset 0 and the defaulted limit.
   */
  method GenerateWorkflowLogsQuery(params: WorkflowLogsParams, stream: string) returns (query: SearchQuery)
    ensures query.sql == "SELECT * FROM " + QuoteIdentifier(stream)
      + WhereClause(WorkflowConditions(params)) + TimestampOrder(params.sortOrder)
    ensures query.startTime == UnixMicro(params.startTime) && query.endTime == UnixMicro(params.endTime)
    ensures query.from == 0 && query.size == DefaultLimit(params.limit) && query.timeout == Some(0)
  {
    var conditions := WorkflowFilters(params);
    var sql := BuildLogsSql(stream, conditions, params.sortOrder);
    var limit := params.limit;
    if limit <= 0 {
      limit := 100;
    }
    query := SearchQuery(sql, UnixMicro(params.startTime), UnixMicro(params.endTime), 0, limit, Some(0));
  }

  /** The conjuncts of a component log query, in the order the builder appends them. */
  function ComponentConditions(p: ComponentLogsParams): seq<string> {
    [EqualsLiteral(NamespaceLabel, p.namespace)]
      + When(p.projectId != "", EqualsLiteral(ProjectLabel, p.projectId))
      + When(p.environmentId != "",
             EqualsLiteral(EnvironmentLabel, p.environmentId))
      + When(|p.componentIds| > 0,
             AnyOf(EqualsEach(ComponentLabel, p.componentIds)))
      + When(p.searchPhrase != "", ContainsCondition("log", p.searchPhrase))
      + When(|p.logLevels| > 0, AnyOf(EqualsEach("logLevel", p.logLevels)))
  }

  /**
   * The namespace conjunct always comes first; every other component filter
   * adds exactly one conjunct, only when set, after the set filters before it.
   */
  lemma ComponentConditionsPlacement(p: ComponentLogsParams)
    ensures var c := ComponentConditions(p);
      var project := Flag(p.projectId != "");
      var env := Flag(p.environmentId != "");
      var comps := Flag(|p.componentIds| > 0);
      var phrase := Flag(p.searchPhrase != "");
      && |c| == 1 + project + env + comps + phrase + Flag(|p.logLevels| > 0)
      && c[0] == EqualsLiteral(NamespaceLabel, p.namespace)
      && (p.projectId != "" ==> c[1] == EqualsLiteral(ProjectLabel, p.projectId))
      && (p.environmentId != "" ==>
            c[1 + project] == EqualsLiteral(EnvironmentLabel, p.environmentId))
      && (|p.componentIds| > 0 ==>
            c[1 + project + env]
              == AnyOf(EqualsEach(ComponentLabel, p.componentIds)))
      && (p.searchPhrase != "" ==> c[1 + project + env + comps] == ContainsCondition("log", p.searchPhrase))
      && (|p.logLevels| > 0 ==>
            c[1 + project + env + comps + phrase] == AnyOf(EqualsEach("logLevel", p.logLevels)))
  {
    var x0, x1, x2 := EqualsLiteral(NamespaceLabel, p.namespace), EqualsLiteral(ProjectLabel, p.projectId),
      EqualsLiteral(EnvironmentLabel, p.environmentId);
    var x3, x4, x5 := AnyOf(EqualsEach(ComponentLabel, p.componentIds)), ContainsCondition("log", p.searchPhrase),
      AnyOf(EqualsEach("logLevel", p.logLevels));
    var b1, b2, b3, b4, b5 := p.projectId != "", p.environmentId != "", |p.componentIds| > 0, p.searchPhrase != "",
      |p.logLevels| > 0;
    var c1 := [x0] + When(b1, x1);
    var c2 := c1 + When(b2, x2);
    var c3 := c2 + When(b3, x3);
    var c4 := c3 + When(b4, x4);
    WhenAppended([x0], b1, x1);
    WhenAppended(c1, b2, x2);
    WhenAppended(c2, b3, x3);
    WhenAppended(c3, b4, x4);
    WhenAppended(c4, b5, x5);
  }

  /** The filter steps of `generateComponentLogsQuery`: the namespace conjunct, then each set filter's. */
  method ComponentFilters(params: ComponentLogsParams) returns (conditions: seq<string>)
    ensures conditions == ComponentConditions(params)
  {
    conditions := [EqualsLiteral(NamespaceLabel, params.namespace)];
    ghost var before := conditions;
    if params.projectId != "" {
      conditions := conditions + [EqualsLiteral(ProjectLabel, params.projectId)];
    }
    assert conditions == before
      + When(params.projectId != "", EqualsLiteral(ProjectLabel, params.projectId));
    before := conditions;
    if params.environmentId != "" {
      conditions := conditions
        + [EqualsLiteral(EnvironmentLabel, params.environmentId)];
    }
    assert conditions == before + When(params.environmentId != "",
      EqualsLiteral(EnvironmentLabel, params.environmentId));
    before := conditions;
    if |params.componentIds| > 0 {
      var components := BuildAnyOf(ComponentLabel, params.componentIds);
      conditions := conditions + [components];
    }
    assert conditions == before + When(|params.componentIds| > 0,
      AnyOf(EqualsEach(ComponentLabel, params.componentIds)));
    before := conditions;
    if params.searchPhrase != "" {
      conditions := conditions + [ContainsCondition("log", params.searchPhrase)];
    }
    assert conditions == before + When(params.searchPhrase != "", ContainsCondition("log", params.searchPhrase));
    before := conditions;
    if |params.logLevels| > 0 {
      var levels := BuildAnyOf("logLevel", params.logLevels);
      conditions := conditions + [levels];
    }
    assert conditions == before + When(|params.logLevels| > 0, AnyOf(EqualsEach("logLevel", params.logLevels)));
    assert conditions == ComponentConditions(params);
  }

  /**
   * `generateComponentLogsQuery`: refuses an empty namespace; otherwise like
   * the workflow builder over the component conjuncts.
   */
  method GenerateComponentLogsQuery(params: ComponentLogsParams, stream: string) returns (r: Result<SearchQuery, Error>)
    ensures r.Failure? <==> params.namespace == ""
    ensures r.Failure? ==> r.error == NamespaceRequired
    ensures r.Success? ==>
      && r.value.sql == "SELECT * FROM " + QuoteIdentifier(stream)
           + WhereClause(ComponentConditions(params)) + TimestampOrder(params.sortOrder)
      && r.value.startTime == UnixMicro(params.startTime) && r.value.endTime == UnixMicro(params.endTime)
      && r.value.from == 0 && r.value.size == DefaultLimit(params.limit) && r.value.timeout == Some(0)
  {
    if params.namespace == "" {
      return Failure(NamespaceRequired);
    }

    var conditions := ComponentFilters(params);
    var sql := BuildLogsSql(stream, conditions, params.sortOrder);

    var limit := params.limit;
    if limit <= 0 {
      limit := 100;
    }
    r := Success(SearchQuery(sql, UnixMicro(params.startTime), UnixMicro(params.endTime), 0, limit, Some(0)));
  }
}
