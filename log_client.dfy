/**
 * What the logs service does with decoded backend answers: search rows
 * become application or workflow log entries, the alert list is searched by
 * name, and alert creation and deletion are sequenced around those calls.
 */
module LogClient {
  import opened Wrappers
  import opened Search
  import opened LogQueries

  /** An application log line with the labels of the workload that wrote it; `timestamp` in microseconds. */
  datatype ComponentLogsEntry = ComponentLogsEntry(
    timestamp: int,
    log: string,
    logLevel: string,
    componentUid: string,
    componentName: string,
    environmentUid: string,
    environmentName: string,
    projectUid: string,
    projectName: string,
    namespace: string,
    podName: string,
    podNamespace: string,
    containerName: string)

  datatype ComponentLogsResult = ComponentLogsResult(logs: seq<ComponentLogsEntry>, totalCount: int, took: int)

  /** A workflow log line; every column but `log` and `_timestamp` is kept as metadata. */
  datatype WorkflowLogsEntry = WorkflowLogsEntry(timestamp: int, log: string, metadata: map<string, Value>)

  datatype WorkflowLogsResult = WorkflowLogsResult(logs: seq<WorkflowLogsEntry>, totalCount: int, took: int)

  /** The columns the twelve text fields of an application entry come from, in field order. */
  const ApplicationColumns: seq<string> := [
    "log",
    "logLevel",
    "kubernetes_labels_openchoreo_dev_component_uid",
    "kubernetes_labels_openchoreo_dev_component_name",
    "kubernetes_labels_openchoreo_dev_environment_uid",
    "kubernetes_labels_openchoreo_dev_environment_name",
    "kubernetes_labels_openchoreo_dev_project_uid",
    "kubernetes_labels_openchoreo_dev_project_name",
    "kubernetes_labels_openchoreo_dev_namespace",
    "kubernetes_pod_name",
    "kubernetes_pod_namespace",
    "kubernetes_container_name"]

  /** The twelve text fields of an entry, in the order of `ApplicationColumns`. */
  function Texts(e: ComponentLogsEntry): (r: seq<string>)
    ensures |r| == |ApplicationColumns|
  {
    [e.log, e.logLevel, e.componentUid, e.componentName, e.environmentUid, e.environmentName,
     e.projectUid, e.projectName, e.namespace, e.podName, e.podNamespace, e.containerName]
  }

  /**
   * `parseApplicationLogEntry`: each text field is its column's string when
   * the column holds a string and "" otherwise; no other column is read.
   */
  function ParseApplicationLogEntry(timestamp: int, source: Hit): (e: ComponentLogsEntry)
    ensures e.timestamp == timestamp
    ensures forall i :: 0 <= i < |ApplicationColumns| ==>
      if HasString(source, ApplicationColumns[i]) then Texts(e)[i] == source[ApplicationColumns[i]].str else Texts(e)[i] == ""
  {
    ComponentLogsEntry(
      timestamp,
      StringField(source, "log"),
      StringField(source, "logLevel"),
      StringField(source, "kubernetes_labels_openchoreo_dev_component_uid"),
      StringField(source, "kubernetes_labels_openchoreo_dev_component_name"),
      StringField(source, "kubernetes_labels_openchoreo_dev_environment_uid"),
      StringField(source, "kubernetes_labels_openchoreo_dev_environment_name"),
      StringField(source, "kubernetes_labels_openchoreo_dev_project_uid"),
      StringField(source, "kubernetes_labels_openchoreo_dev_project_name"),
      StringField(source, "kubernetes_labels_openchoreo_dev_namespace"),
      StringField(source, "kubernetes_pod_name"),
      StringField(source, "kubernetes_pod_namespace"),
      StringField(source, "kubernetes_container_name"))
  }

  /** The row the backend returns for an entry: each text field as a string in its column. */
  function ApplicationRow(e: ComponentLogsEntry): Hit {
    map i | 0 <= i < |ApplicationColumns| :: ApplicationColumns[i] := Str(Texts(e)[i])
  }

  /**
   * An entry's row, together with any other columns, parses back to exactly
   * that entry: the other columns never leak into its fields.
   */
  lemma ParseApplicationLogEntryRoundTrip(e: ComponentLogsEntry, others: Hit)
    requires forall i :: 0 <= i < |ApplicationColumns| ==> ApplicationColumns[i] !in others
    ensures ParseApplicationLogEntry(e.timestamp, others + ApplicationRow(e)) == e
  {
    var hit := others + ApplicationRow(e);
    var r := ParseApplicationLogEntry(e.timestamp, hit);
    forall i | 0 <= i < |ApplicationColumns|
      ensures Texts(r)[i] == Texts(e)[i]
    {
      ApplicationRowAt(e, i);
    }
    assert Texts(r) == Texts(e);
  }

  /** The row holds each text field, as a string, in its own column. */
  lemma ApplicationRowAt(e: ComponentLogsEntry, i: nat)
    requires i < |ApplicationColumns|
    ensures ApplicationColumns[i] in ApplicationRow(e) && ApplicationRow(e)[ApplicationColumns[i]] == Str(Texts(e)[i])
  {
  }

  /** The timestamp a row is listed with: its numeric `_timestamp`, or 0 when that is missing or not a number. */
  function TimestampOf(hit: Hit): (t: int)
    ensures "_timestamp" in hit && hit["_timestamp"].Num? ==> t == hit["_timestamp"].num
    ensures !("_timestamp" in hit && hit["_timestamp"].Num?) ==> t == 0
  {
    NumberField(hit, "_timestamp").GetOr(0)
  }

  /** `GetComponentLogs` after the search call: one entry per hit, in hit order; total and time copied. */
  method GetComponentLogs(response: SearchResponse) returns (result: ComponentLogsResult)
    ensures |result.logs| == |response.hits|
    ensures forall i :: 0 <= i < |response.hits| ==>
      result.logs[i] == ParseApplicationLogEntry(TimestampOf(response.hits[i]), response.hits[i])
    ensures result.totalCount == response.total && result.took == response.took
  {
    var logs: seq<ComponentLogsEntry> := [];
    for i := 0 to |response.hits|
      invariant |logs| == i
      invariant forall k :: 0 <= k < i ==> logs[k] == ParseApplicationLogEntry(TimestampOf(response.hits[k]), response.hits[k])
    {
      var hit := response.hits[i];
      var timestamp := 0;
      if "_timestamp" in hit && hit["_timestamp"].Num? {
        timestamp := hit["_timestamp"].num;
      }
      var entry := ParseApplicationLogEntry(timestamp, hit);
      logs := logs + [entry];
    }
    result := ComponentLogsResult(logs, response.total, response.took);
  }

  /** The columns a workflow entry does not copy into its metadata. */
  const WorkflowOwnColumns: set<string> := {"log", "_timestamp"}

  /**
   * `entry` is what `parseWorkflowLogEntry` makes of `source`: the given
   * timestamp, the `log` string (or "" when it is not one), and every other
   * column with its value unchanged.
   */
  predicate DescribesWorkflowHit(entry: WorkflowLogsEntry, timestamp: int, source: Hit) {
    && entry.timestamp == timestamp
    && entry.log == StringField(source, "log")
    && entry.metadata.Keys == source.Keys - WorkflowOwnColumns
    && forall k :: k in entry.metadata ==> entry.metadata[k] == source[k]
  }

  /** The metadata copied so far while `remaining` columns are still to be visited. */
  predicate MetadataSoFar(source: Hit, remaining: set<string>, metadata: map<string, Value>) {
    && remaining <= source.Keys
    && metadata.Keys == source.Keys - remaining - WorkflowOwnColumns
    && forall k :: k in metadata ==> metadata[k] == source[k]
  }

  /** `parseWorkflowLogEntry`: the `log` string, then every other column copied in any order. */
  method ParseWorkflowLogEntry(timestamp: int, source: Hit) returns (entry: WorkflowLogsEntry)
    ensures DescribesWorkflowHit(entry, timestamp, source)
  {
    var log := "";
    if "log" in source && source["log"].Str? {
      log := source["log"].str;
    }
    var metadata: map<string, Value> := map[];
    var remaining := source.Keys;
    while remaining != {}
      invariant MetadataSoFar(source, remaining, metadata)
      decreases remaining
    {
      var k :| k in remaining;
      if k != "log" && k != "_timestamp" {
        metadata := metadata[k := source[k]];
      }
      remaining := remaining - {k};
    }
    entry := WorkflowLogsEntry(timestamp, log, metadata);
  }

  /** The description pins the entry down: two entries describing the same row are equal. */
  lemma WorkflowEntryDetermined(a: WorkflowLogsEntry, b: WorkflowLogsEntry, timestamp: int, source: Hit)
    requires DescribesWorkflowHit(a, timestamp, source) && DescribesWorkflowHit(b, timestamp, source)
    ensures a == b
  {
    assert a.metadata == b.metadata;
  }

  /** Nothing of the row is lost: its metadata and its own two columns put back together are the row. */
  lemma WorkflowEntryRestoresRow(entry: WorkflowLogsEntry, timestamp: int, source: Hit)
    requires DescribesWorkflowHit(entry, timestamp, source)
    ensures entry.metadata + (map k | k in source.Keys * WorkflowOwnColumns :: source[k]) == source
  {
    var own := map k | k in source.Keys * WorkflowOwnColumns :: source[k];
    var restored := entry.metadata + own;
    assert restored.Keys == source.Keys;
    forall k | k in source
      ensures restored[k] == source[k]
    {
      if k in WorkflowOwnColumns {
        assert k in own;
      }
    }
  }

  /** `GetWorkflowLogs` after the search call: one entry per hit, in hit order; total and time copied. */
  method GetWorkflowLogs(response: SearchResponse) returns (result: WorkflowLogsResult)
    ensures |result.logs| == |response.hits|
    ensures forall i :: 0 <= i < |response.hits| ==>
      DescribesWorkflowHit(result.logs[i], TimestampOf(response.hits[i]), response.hits[i])
    ensures result.totalCount == response.total && result.took == response.took
  {
    var logs: seq<WorkflowLogsEntry> := [];
    for i := 0 to |response.hits|
      invariant |logs| == i
      invariant forall k :: 0 <= k < i ==> DescribesWorkflowHit(logs[k], TimestampOf(response.hits[k]), response.hits[k])
    {
      var hit := response.hits[i];
      var timestamp := 0;
      if "_timestamp" in hit && hit["_timestamp"].Num? {
        timestamp := hit["_timestamp"].num;
      }
      var entry := ParseWorkflowLogEntry(timestamp, hit);
      logs := logs + [entry];
    }
    result := WorkflowLogsResult(logs, response.total, response.took);
  }

  /** One element of the decoded alert list. */
  datatype AlertSummary = AlertSummary(alertId: string, name: string)

  /** The position of the first alert with the given name, if any (a reference definition). */
  function FirstNamed(alerts: seq<AlertSummary>, name: string): (r: Option<nat>)
    ensures r.Some? ==> r.value < |alerts| && alerts[r.value].name == name
    ensures r.Some? ==> forall j :: 0 <= j < r.value ==> alerts[j].name != name
    ensures r.None? ==> forall j :: 0 <= j < |alerts| ==> alerts[j].name != name
    decreases |alerts|
  {
    if alerts == [] then None
    else if alerts[0].name == name then Some(0)
    else match FirstNamed(alerts[1..], name)
      case None => None
      case Some(k) => Some(k + 1)
  }

  /**
   * What the name lookup answers, given the outcome of listing the alerts:
   * the listing's error, the ID of the first alert with that name, or "not found".
   */
  function AlertLookup(listing: Result<seq<AlertSummary>, Error>, name: string): (r: Result<string, Error>)
    ensures listing.Failure? ==> r == Failure(listing.error)
    ensures listing.Success? && r.Success? ==>
      exists i :: 0 <= i < |listing.value| && listing.value[i] == AlertSummary(r.value, name)
    ensures listing.Success? && r.Success? ==>
      FirstNamed(listing.value, name).Some? && r.value == listing.value[FirstNamed(listing.value, name).value].alertId
    ensures listing.Success? && r.Failure? ==>
      r.error == AlertNotFound(name) && forall j :: 0 <= j < |listing.value| ==> listing.value[j].name != name
  {
    match listing
    case Failure(e) => Failure(e)
    case Success(alerts) =>
      match FirstNamed(alerts, name)
      case Some(i) => Success(alerts[i].alertId)
      case None => Failure(AlertNotFound(name))
  }

  /** `getAlertIDByName` after the list call: a scan that stops at the first alert with the name. */
  method GetAlertIdByName(listing: Result<seq<AlertSummary>, Error>, name: string) returns (r: Result<string, Error>)
    ensures r == AlertLookup(listing, name)
  {
    if listing.Failure? {
      return Failure(listing.error);
    }
    var alerts := listing.value;
    for i := 0 to |alerts|
      invariant forall j :: 0 <= j < i ==> alerts[j].name != name
    {
      if alerts[i].name == name {
        assert FirstNamed(alerts, name) == Some(i) by {
          FirstNamedIs(alerts, name, i);
        }
        return Success(alerts[i].alertId);
      }
    }
    return Failure(AlertNotFound(name));
  }

  /** The first position holding the name is the one `FirstNamed` finds. */
  lemma {:induction false} FirstNamedIs(alerts: seq<AlertSummary>, name: string, i: nat)
    requires i < |alerts| && alerts[i].name == name
    requires forall j :: 0 <= j < i ==> alerts[j].name != name
    ensures FirstNamed(alerts, name) == Some(i)
    decreases i
  {
    if i > 0 {
      FirstNamedIs(alerts[1..], name, i - 1);
    }
  }

  /** The status codes each call accepts as success. */
  predicate CreateAccepted(status: int) {
    status == 200 || status == 201
  }

  predicate DeleteAccepted(status: int) {
    status == 200 || status == 204
  }

  /** The answer to the alert creation request: its status and the `alert_id` its body decodes to, if any. */
  datatype CreateReply = CreateReply(status: int, alertId: Option<string>)

  /**
   * `CreateAlert` around the request: a rule the configuration builder
   * rejects fails before any request; a refused status fails; otherwise the
   * backend's non-empty alert ID, or "" when the body carries none.
   */
  function CreateAlert(params: LogAlertParams, stream: string, reply: Result<CreateReply, Error>): (r: Result<string, Error>)
    ensures GenerateAlertConfig(params, stream).Failure? ==>
      r == Failure(Wrapped("failed to generate alert config", GenerateAlertConfig(params, stream).error))
    ensures GenerateAlertConfig(params, stream).Success? && reply.Failure? ==> r == Failure(reply.error)
    ensures GenerateAlertConfig(params, stream).Success? && reply.Success? ==>
      (r.Success? <==> CreateAccepted(reply.value.status))
    ensures GenerateAlertConfig(params, stream).Success? && reply.Success? && !CreateAccepted(reply.value.status) ==>
      r == Failure(StatusError(reply.value.status))
    ensures r.Success? && r.value != "" ==> reply.Success? && reply.value.alertId == Some(r.value)
    ensures r.Success? && reply.value.alertId.Some? ==> r.value == reply.value.alertId.value
  {
    match GenerateAlertConfig(params, stream)
    case Failure(e) => Failure(Wrapped("failed to generate alert config", e))
    case Success(_) =>
      match reply
      case Failure(e) => Failure(e)
      case Success(CreateReply(status, alertId)) =>
        if !CreateAccepted(status) then Failure(StatusError(status))
        else if alertId.Some? && alertId.value != "" then Success(alertId.value)
        else Success("")
  }

  /**
   * `DeleteAlert`: the name lookup first; when it fails, no delete request is
   * issued and its error is wrapped. Otherwise a delete request for the
   * looked-up ID, whose outcome is `deleteStatus` (a status code or a
   * transport error); `issued` records the ID the request was issued for.
   */
  method DeleteAlert(listing: Result<seq<AlertSummary>, Error>, name: string, deleteStatus: Result<int, Error>)
    returns (r: Result<string, Error>, issued: Option<string>)
    ensures AlertLookup(listing, name).Failure? ==>
      issued == None && r == Failure(Wrapped("failed to find alert", AlertLookup(listing, name).error))
    ensures AlertLookup(listing, name).Success? ==> issued == Some(AlertLookup(listing, name).value)
    ensures r.Success? ==> issued == Some(r.value) && deleteStatus.Success? && DeleteAccepted(deleteStatus.value)
    ensures issued.Some? && deleteStatus.Success? && DeleteAccepted(deleteStatus.value) ==> r == Success(issued.value)
    ensures issued.Some? && deleteStatus.Success? && !DeleteAccepted(deleteStatus.value) ==> r == Failure(StatusError(deleteStatus.value))
    ensures issued.Some? && deleteStatus.Failure? ==> r == Failure(deleteStatus.error)
  {
    var lookup := GetAlertIdByName(listing, name);
    if lookup.Failure? {
      return Failure(Wrapped("failed to find alert", lookup.error)), None;
    }
    var alertId := lookup.value;
    issued := Some(alertId);
    if deleteStatus.Failure? {
      return Failure(deleteStatus.error), issued;
    }
    if !DeleteAccepted(deleteStatus.value) {
      return Failure(StatusError(deleteStatus.value)), issued;
    }
    r := Success(alertId);
  }
}
