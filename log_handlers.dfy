/**
 * The logs service's request handlers: the search-scope dispatch of the log
 * query endpoint with its validation, and the mapping of request bodies onto
 * the query and alert parameter records.
 */
module LogHandlers {
  import opened Wrappers
  import opened Search
  import opened LogQueries
  import opened LogClient

  /** `unicode.IsSpace`: the ASCII white space, NEL, NBSP and the Unicode space separators. */
  predicate IsSpace(c: char) {
    || c == ' ' || '\t' <= c <= '\r'
    || c == '\U{0085}' || c == '\U{00A0}' || c == '\U{1680}'
    || '\U{2000}' <= c <= '\U{200A}'
    || c == '\U{2028}' || c == '\U{2029}' || c == '\U{202F}' || c == '\U{205F}' || c == '\U{3000}'
  }

  /** `s` with its leading white space removed. */
  function TrimLeft(s: string): (r: string)
    ensures |r| <= |s| && r == s[|s| - |r|..]
    ensures forall k :: 0 <= k < |s| - |r| ==> IsSpace(s[k])
    ensures r == [] || !IsSpace(r[0])
    decreases |s|
  {
    if |s| > 0 && IsSpace(s[0]) then TrimLeft(s[1..]) else s
  }

  /** `s` with its trailing white space removed. */
  function TrimRight(s: string): (r: string)
    ensures |r| <= |s| && r == s[..|r|]
    ensures forall k :: |r| <= k < |s| ==> IsSpace(s[k])
    ensures r == [] || !IsSpace(r[|r| - 1])
    decreases |s|
  {
    if |s| > 0 && IsSpace(s[|s| - 1]) then TrimRight(s[..|s| - 1]) else s
  }

  /**
   * `strings.TrimSpace`: the part of `s` between its leading and its
   * trailing white space, which neither starts nor ends with white space.
   */
  function TrimSpace(s: string): (r: string)
    ensures var i := |s| - |TrimLeft(s)|;
      && i + |r| <= |s| && r == s[i..i + |r|]
      && (forall k :: 0 <= k < i ==> IsSpace(s[k]))
      && (forall k :: i + |r| <= k < |s| ==> IsSpace(s[k]))
    ensures r == [] || (!IsSpace(r[0]) && !IsSpace(r[|r| - 1]))
  {
    TrimRightInside(s, TrimLeft(s));
    TrimRight(TrimLeft(s))
  }

  /** Trimming the end of a suffix of `s` leaves a slice of `s` followed by white space only. */
  lemma TrimRightInside(s: string, left: string)
    requires |left| <= |s| && left == s[|s| - |left|..]
    ensures var i, r := |s| - |left|, TrimRight(left);
      && i + |r| <= |s| && r == s[i..i + |r|]
      && forall k :: i + |r| <= k < |s| ==> IsSpace(s[k])
  {
    var i, r := |s| - |left|, TrimRight(left);
    forall k | i + |r| <= k < |s|
      ensures IsSpace(s[k])
    {
      assert s[k] == left[k - i];
    }
  }

  /** The validation the handler applies to names: nothing left after trimming. */
  predicate IsBlank(s: string) {
    TrimSpace(s) == ""
  }

  /** A string is blank exactly when every character of it is white space. */
  lemma BlankIffAllSpace(s: string)
    ensures IsBlank(s) <==> forall k :: 0 <= k < |s| ==> IsSpace(s[k])
  {
    var left := TrimLeft(s);
    if !forall k :: 0 <= k < |s| ==> IsSpace(s[k]) {
      var k :| 0 <= k < |s| && !IsSpace(s[k]);
      assert left[k - (|s| - |left|)] == s[k];
    }
  }

  /** The workflow variant of the search scope. */
  datatype WorkflowSearchScope = WorkflowSearchScope(namespace: string, workflowRunName: Option<string>)

  /** The component variant of the search scope. */
  datatype ComponentSearchScope = ComponentSearchScope(
    namespace: string,
    projectUid: Option<string>,
    environmentUid: Option<string>,
    componentUid: Option<string>)

  /**
   * The search-scope union as the two decoders see it: the scope decoded as
   * each variant, or `None` when that decoder reports an error.
   */
  datatype SearchScope = SearchScope(asWorkflow: Option<WorkflowSearchScope>, asComponent: Option<ComponentSearchScope>)

  /** The body of a log query; times in nanoseconds since the epoch. */
  datatype LogsQueryRequest = LogsQueryRequest(
    startTime: int,
    endTime: int,
    limit: Option<int>,
    sortOrder: Option<string>,
    searchPhrase: Option<string>,
    logLevels: Option<seq<string>>,
    searchScope: SearchScope)

  /** `levels`: the requested levels copied one by one into a fresh array of the same length. */
  method CopyLevels(requested: seq<string>) returns (levels: seq<string>)
    ensures |levels| == |requested|
    ensures forall i :: 0 <= i < |requested| ==> levels[i] == requested[i]
  {
    var a := new string[|requested|];
    for i := 0 to |requested|
      invariant a[..i] == requested[..i]
    {
      a[i] := requested[i];
    }
    levels := a[..];
  }

  /**
   * `params` is what `toWorkflowLogsParams` makes of a request and its
   * workflow scope: namespace and window copied, each optional field its
   * value when present and its zero value ("", 0, no levels) when absent.
   */
  predicate MapsWorkflowRequest(params: WorkflowLogsParams, req: LogsQueryRequest, scope: WorkflowSearchScope) {
    && params.namespace == scope.namespace
    && params.startTime == req.startTime && params.endTime == req.endTime
    && params.workflowRunName == scope.workflowRunName.GetOr("")
    && params.limit == req.limit.GetOr(0)
    && params.sortOrder == req.sortOrder.GetOr("")
    && params.searchPhrase == req.searchPhrase.GetOr("")
    && params.logLevels == req.logLevels.GetOr([])
  }

  /** `toWorkflowLogsParams`: start from the copied fields, then set each optional one that is present. */
  method ToWorkflowLogsParams(req: LogsQueryRequest, scope: WorkflowSearchScope) returns (params: WorkflowLogsParams)
    ensures MapsWorkflowRequest(params, req, scope)
  {
    params := WorkflowLogsParams(scope.namespace, "", req.startTime, req.endTime, "", [], 0, "");
    if scope.workflowRunName.Some? {
      params := params.(workflowRunName := scope.workflowRunName.value);
    }
    if req.limit.Some? {
      params := params.(limit := req.limit.value);
    }
    if req.sortOrder.Some? {
      params := params.(sortOrder := req.sortOrder.value);
    }
    if req.searchPhrase.Some? {
      params := params.(searchPhrase := req.searchPhrase.value);
    }
    if req.logLevels.Some? {
      var levels := CopyLevels(req.logLevels.value);
      params := params.(logLevels := levels);
    }
  }

  /**
   * `params` is what `toComponentLogsParams` makes of a request and its
   * component scope: a present component becomes the one-element component
   * list, and every absent optional field leaves its zero value.
   */
  predicate MapsComponentRequest(params: ComponentLogsParams, req: LogsQueryRequest, scope: ComponentSearchScope) {
    && params.namespace == scope.namespace
    && params.startTime == req.startTime && params.endTime == req.endTime
    && params.projectId == scope.projectUid.GetOr("")
    && params.environmentId == scope.environmentUid.GetOr("")
    && params.componentIds == (if scope.componentUid.Some? then [scope.componentUid.value] else [])
    && params.limit == req.limit.GetOr(0)
    && params.sortOrder == req.sortOrder.GetOr("")
    && params.searchPhrase == req.searchPhrase.GetOr("")
    && params.logLevels == req.logLevels.GetOr([])
  }

  /** `toComponentLogsParams`: start from the copied fields, then set each optional one that is present. */
  method ToComponentLogsParams(req: LogsQueryRequest, scope: ComponentSearchScope) returns (params: ComponentLogsParams)
    ensures MapsComponentRequest(params, req, scope)
  {
    params := ComponentLogsParams(scope.namespace, [], "", "", req.startTime, req.endTime, "", [], 0, "");
    params := SetScopeFields(params, scope);
    if req.limit.Some? {
      params := params.(limit := req.limit.value);
    }
    if req.sortOrder.Some? {
      params := params.(sortOrder := req.sortOrder.value);
    }
    if req.searchPhrase.Some? {
      params := params.(searchPhrase := req.searchPhrase.value);
    }
    if req.logLevels.Some? {
      var levels := CopyLevels(req.logLevels.value);
      params := params.(logLevels := levels);
    }
  }

  /** The scope part of `toComponentLogsParams`: each present field, the component as a one-element list. */
  method SetScopeFields(current: ComponentLogsParams, scope: ComponentSearchScope) returns (params: ComponentLogsParams)
    ensures params == current.(projectId := scope.projectUid.GetOr(current.projectId),
      environmentId := scope.environmentUid.GetOr(current.environmentId),
      componentIds := if scope.componentUid.Some? then [scope.componentUid.value] else current.componentIds)
  {
    params := current;
    if scope.projectUid.Some? {
      params := params.(projectId := scope.projectUid.value);
    }
    if scope.environmentUid.Some? {
      params := params.(environmentId := scope.environmentUid.value);
    }
    if scope.componentUid.Some? {
      params := params.(componentIds := [scope.componentUid.value]);
    }
  }

  /** Each mapping determines its parameter record: the records it allows are one. */
  lemma RequestMappingsDetermined(req: LogsQueryRequest, ws: WorkflowSearchScope, cs: ComponentSearchScope,
                                  w1: WorkflowLogsParams, w2: WorkflowLogsParams,
                                  c1: ComponentLogsParams, c2: ComponentLogsParams)
    ensures MapsWorkflowRequest(w1, req, ws) && MapsWorkflowRequest(w2, req, ws) ==> w1 == w2
    ensures MapsComponentRequest(c1, req, cs) && MapsComponentRequest(c2, req, cs) ==> c1 == c2
  {
  }

  /** The messages of the two 400 answers. */
  const BodyRequired := "request body is required"
  const ScopeRequired := "searchScope with a valid namespace is required"

  /** What the query endpoint answers; the 200 bodies are the client's results as they are. */
  datatype QueryLogsResponse =
    | BadRequest(message: string)
    | InternalServerError(error: Error)
    | WorkflowLogsOk(workflowLogs: WorkflowLogsResult)
    | ComponentLogsOk(componentLogs: ComponentLogsResult)

  /** The client call the handler makes, with its parameters. */
  datatype ClientCall =
    | WorkflowQuery(workflowParams: WorkflowLogsParams)
    | ComponentQuery(componentParams: ComponentLogsParams)

  function CallNamespace(call: ClientCall): string {
    match call
    case WorkflowQuery(p) => p.namespace
    case ComponentQuery(p) => p.namespace
  }

  /** A scope is taken as a workflow scope when it decodes as one with a run name that is not blank. */
  predicate IsWorkflowScope(scope: SearchScope) {
    && scope.asWorkflow.Some?
    && scope.asWorkflow.value.workflowRunName.Some?
    && !IsBlank(scope.asWorkflow.value.workflowRunName.value)
  }

  /**
   * `QueryLogs`: a missing body is a 400; a workflow scope with a blank
   * namespace is a 400, and one with a namespace queries workflow logs;
   * any other scope must decode as a component scope with a namespace that
   * is not blank (else 400) and queries component logs. A failing client
   * call is a 500 carrying its error. The client functions stand for the
   * search calls; `call` records the one made, if any.
   */
  method QueryLogs(body: Option<LogsQueryRequest>,
                   workflowLogs: WorkflowLogsParams -> Result<WorkflowLogsResult, Error>,
                   componentLogs: ComponentLogsParams -> Result<ComponentLogsResult, Error>)
    returns (response: QueryLogsResponse, call: Option<ClientCall>)
    ensures body.None? ==> response == BadRequest(BodyRequired) && call == None
    ensures response.BadRequest? <==> call.None?
    ensures call.Some? ==> !IsBlank(CallNamespace(call.value))
    ensures body.Some? && IsWorkflowScope(body.value.searchScope) ==>
      var scope := body.value.searchScope.asWorkflow.value;
      && (IsBlank(scope.namespace) ==> response == BadRequest(ScopeRequired))
      && (!IsBlank(scope.namespace) ==>
            (call.Some? && call.value.WorkflowQuery? && MapsWorkflowRequest(call.value.workflowParams, body.value, scope)))
    ensures body.Some? && !IsWorkflowScope(body.value.searchScope) ==>
      var decoded := body.value.searchScope.asComponent;
      && (decoded.None? || IsBlank(decoded.value.namespace) ==> response == BadRequest(ScopeRequired))
      && (decoded.Some? && !IsBlank(decoded.value.namespace) ==>
            (call.Some? && call.value.ComponentQuery? && MapsComponentRequest(call.value.componentParams, body.value, decoded.value)))
    ensures call.Some? && call.value.WorkflowQuery? ==>
      response == match workflowLogs(call.value.workflowParams)
        case Success(result) => WorkflowLogsOk(result)
        case Failure(e) => InternalServerError(e)
    ensures call.Some? && call.value.ComponentQuery? ==>
      response == match componentLogs(call.value.componentParams)
        case Success(result) => ComponentLogsOk(result)
        case Failure(e) => InternalServerError(e)
  {
    if body.None? {
      return BadRequest(BodyRequired), None;
    }
    var req := body.value;
    if IsWorkflowScope(req.searchScope) {
      var scope := req.searchScope.asWorkflow.value;
      if IsBlank(scope.namespace) {
        return BadRequest(ScopeRequired), None;
      }
      var params := ToWorkflowLogsParams(req, scope);
      call := Some(WorkflowQuery(params));
      var result := workflowLogs(params);
      if result.Failure? {
        return InternalServerError(result.error), call;
      }
      return WorkflowLogsOk(result.value), call;
    }
    var decoded := req.searchScope.asComponent;
    if decoded.None? || IsBlank(decoded.value.namespace) {
      return BadRequest(ScopeRequired), None;
    }
    var params := ToComponentLogsParams(req, decoded.value);
    call := Some(ComponentQuery(params));
    var result := componentLogs(params);
    if result.Failure? {
      return InternalServerError(result.error), call;
    }
    response := ComponentLogsOk(result.value);
  }

  /** The metadata section of an alert rule request; UUIDs are carried as their canonical text. */
  datatype AlertMetadata = AlertMetadata(
    name: Option<string>,
    namespace: Option<string>,
    projectUid: Option<string>,
    environmentUid: Option<string>,
    componentUid: Option<string>)

  datatype AlertSource = AlertSource(query: Option<string>)

  datatype AlertRuleCondition = AlertRuleCondition(
    operator: Option<string>,
    threshold: Option<Float32>,
    window: Option<string>,
    interval: Option<string>)

  /** The body of an alert rule request: three optional sections of optional fields. */
  datatype AlertRuleRequest = AlertRuleRequest(
    metadata: Option<AlertMetadata>,
    source: Option<AlertSource>,
    condition: Option<AlertRuleCondition>)

  /** The zero `float32`. */
  const ZeroThreshold := Float32(0)

  /** The zero value of the alert parameter record. */
  const NoAlertParams := LogAlertParams(None, "", "", "", "", "", "", ZeroThreshold, "", "")

  /**
   * `params` is what `toLogAlertParams` makes of a request: each field from
   * its section when the section and the field are present, else the zero
   * value; the name pointer is copied as it is.
   */
  predicate MapsAlertRequest(params: LogAlertParams, req: AlertRuleRequest) {
    && params.name == (if req.metadata.Some? then req.metadata.value.name else None)
    && params.namespace == (if req.metadata.Some? then req.metadata.value.namespace.GetOr("") else "")
    && params.projectUid == (if req.metadata.Some? then req.metadata.value.projectUid.GetOr("") else "")
    && params.environmentUid == (if req.metadata.Some? then req.metadata.value.environmentUid.GetOr("") else "")
    && params.componentUid == (if req.metadata.Some? then req.metadata.value.componentUid.GetOr("") else "")
    && params.searchPattern == (if req.source.Some? then req.source.value.query.GetOr("") else "")
    && params.operator == (if req.condition.Some? then req.condition.value.operator.GetOr("") else "")
    && params.thresholdValue == (if req.condition.Some? then req.condition.value.threshold.GetOr(ZeroThreshold) else ZeroThreshold)
    && params.window == (if req.condition.Some? then req.condition.value.window.GetOr("") else "")
    && params.interval == (if req.condition.Some? then req.condition.value.interval.GetOr("") else "")
  }

  /** `toLogAlertParams`: from the zero record, each present field of each present section is set. */
  method ToLogAlertParams(req: AlertRuleRequest) returns (params: LogAlertParams)
    ensures MapsAlertRequest(params, req)
  {
    params := NoAlertParams;
    if req.metadata.Some? {
      params := SetMetadataFields(params, req.metadata.value);
    }
    if req.source.Some? && req.source.value.query.Some? {
      params := params.(searchPattern := req.source.value.query.value);
    }
    if req.condition.Some? {
      params := SetConditionFields(params, req.condition.value);
    }
  }

  /** The metadata part of `toLogAlertParams`: the name pointer, then each present field. */
  method SetMetadataFields(current: LogAlertParams, m: AlertMetadata) returns (params: LogAlertParams)
    ensures params == current.(name := m.name, namespace := m.namespace.GetOr(current.namespace),
      projectUid := m.projectUid.GetOr(current.projectUid), environmentUid := m.environmentUid.GetOr(current.environmentUid),
      componentUid := m.componentUid.GetOr(current.componentUid))
  {
    params := current.(name := m.name);
    if m.namespace.Some? {
      params := params.(namespace := m.namespace.value);
    }
    if m.projectUid.Some? {
      params := params.(projectUid := m.projectUid.value);
    }
    if m.environmentUid.Some? {
      params := params.(environmentUid := m.environmentUid.value);
    }
    if m.componentUid.Some? {
      params := params.(componentUid := m.componentUid.value);
    }
  }

  /** The condition part of `toLogAlertParams`: each present field. */
  method SetConditionFields(current: LogAlertParams, c: AlertRuleCondition) returns (params: LogAlertParams)
    ensures params == current.(operator := c.operator.GetOr(current.operator),
      thresholdValue := c.threshold.GetOr(current.thresholdValue), window := c.window.GetOr(current.window),
      interval := c.interval.GetOr(current.interval))
  {
    params := current;
    if c.operator.Some? {
      params := params.(operator := c.operator.value);
    }
    if c.threshold.Some? {
      params := params.(thresholdValue := c.threshold.value);
    }
    if c.window.Some? {
      params := params.(window := c.window.value);
    }
    if c.interval.Some? {
      params := params.(interval := c.interval.value);
    }
  }

  /**
   * A missing section leaves all of its fields at their zero values; with
   * no section at all the record is the zero record.
   */
  lemma MissingSectionsLeaveDefaults(params: LogAlertParams, req: AlertRuleRequest)
    requires MapsAlertRequest(params, req)
    ensures req.metadata.None? ==>
      params.name == None && params.namespace == "" && params.projectUid == ""
      && params.environmentUid == "" && params.componentUid == ""
    ensures req.source.None? ==> params.searchPattern == ""
    ensures req.condition.None? ==>
      params.operator == "" && params.thresholdValue == ZeroThreshold && params.window == "" && params.interval == ""
    ensures req == AlertRuleRequest(None, None, None) ==> params == NoAlertParams
  {
  }

  /** `strPtr`: no pointer for the empty string, a pointer to the string otherwise. */
  function StrPtr(s: string): (r: Option<string>)
    ensures r.None? <==> s == ""
    ensures r.Some? ==> r.value == s
  {
    if s == "" then None else Some(s)
  }

  /** Reading an optional string back with "" for a missing one undoes `StrPtr`. */
  lemma StrPtrRoundTrip(s: string)
    ensures StrPtr(s).GetOr("") == s
  {
  }
}
