/** Log events as the transport buffers them, and the Cloud Logging
    `LogEntry` records a batch write carries. */
module Entries {
  import opened Wrappers
  import opened JsValues
  import opened Severities
  import opened HostMetadata

  /** A point in time (a JavaScript `Date`), kept opaque. */
  datatype Timestamp = Timestamp(millis: int)

  /** One buffered `log` call: `{level, msg, meta, date}`. */
  datatype LogEvent = LogEvent(level: string, msg: string, meta: Json, date: Timestamp)

  /** The labels of a `gce_instance` monitored resource. */
  datatype ResourceLabels = ResourceLabels(instanceId: string, zone: string)

  /** The monitored resource an entry is attributed to. */
  datatype MonitoredResource = MonitoredResource(resourceType: string, labels: ResourceLabels)

  /** A Cloud Logging entry. */
  datatype LogEntry = LogEntry(
    logName: string,
    resource: MonitoredResource,
    timestamp: Timestamp,
    severity: Severity,
    jsonPayload: Json)

  const LogNamePrefix: string := "projects/"

  /** Every entry goes to the log `nodeserver`. */
  const LogNameSuffix: string := "/logs/nodeserver"

  /** The log name entries of a project are written to. */
  function LogName(projectId: string): (name: string)
    ensures ProjectOfLogName(name) == Some(projectId)
  {
    var name := LogNamePrefix + projectId + LogNameSuffix;
    assert name[..|LogNamePrefix|] == LogNamePrefix;
    assert name[|name| - |LogNameSuffix|..] == LogNameSuffix;
    assert name[|LogNamePrefix|..|name| - |LogNameSuffix|] == projectId;
    name
  }

  /** The project a log name `projects/<project>/logs/nodeserver` belongs
      to, if it has that form. */
  function ProjectOfLogName(name: string): Option<string> {
    if |name| >= |LogNamePrefix| + |LogNameSuffix|
      && name[..|LogNamePrefix|] == LogNamePrefix
      && name[|name| - |LogNameSuffix|..] == LogNameSuffix
    then Some(name[|LogNamePrefix|..|name| - |LogNameSuffix|])
    else None
  }

  /** A log name is determined by its project: parsing it back and rebuilding
      it gives the same name. */
  lemma LogNameOfProject(name: string, projectId: string)
    requires ProjectOfLogName(name) == Some(projectId)
    ensures LogName(projectId) == name
  {
  }

  /** The entry for one event: attributed to the instance, severity from the
      level table, the event's metadata as JSON payload; the message text is
      not sent. */
  function BuildEntry(projectId: string, host: HostContext, event: LogEvent): (e: LogEntry)
    ensures ProjectOfLogName(e.logName) == Some(projectId)
    ensures e.resource.resourceType == "gce_instance"
    ensures e.resource.labels.instanceId == host.id && e.resource.labels.zone == host.zone
    ensures e.severity == SeverityOf(event.level)
    ensures e.severity == Default <==> event.level !in NpmLevels
    ensures e.jsonPayload == event.meta && e.timestamp == event.date
  {
    LogEntry(
      LogName(projectId),
      MonitoredResource("gce_instance", ResourceLabels(host.id, host.zone)),
      event.date,
      SeverityOf(event.level),
      event.meta)
  }

  /** An entry depends on the event's level, metadata and date and on the
      host's id and zone only: not on the message, nor on the region. */
  lemma BuildEntryIgnoresMessageAndRegion(
    projectId: string, h1: HostContext, h2: HostContext, e1: LogEvent, e2: LogEvent)
    requires h1.id == h2.id && h1.zone == h2.zone
    requires e1.level == e2.level && e1.meta == e2.meta && e1.date == e2.date
    ensures BuildEntry(projectId, h1, e1) == BuildEntry(projectId, h2, e2)
  {
  }

  /** `logs.map(...)`: one entry per event, in the same order, entry `i`
      built from event `i` alone. */
  function BuildEntries(projectId: string, host: HostContext, events: seq<LogEvent>): (entries: seq<LogEntry>)
    ensures |entries| == |events|
    ensures forall i :: 0 <= i < |events| ==> entries[i] == BuildEntry(projectId, host, events[i])
  {
    if |events| == 0 then []
    else [BuildEntry(projectId, host, events[0])] + BuildEntries(projectId, host, events[1..])
  }

  /** Building the entries of two consecutive runs of events separately or
      together gives the same entries in the same order. */
  lemma {:induction false} BuildEntriesAppend(
    projectId: string, host: HostContext, a: seq<LogEvent>, b: seq<LogEvent>)
    ensures BuildEntries(projectId, host, a + b)
      == BuildEntries(projectId, host, a) + BuildEntries(projectId, host, b)
  {
    if |a| > 0 {
      assert (a + b)[1..] == a[1..] + b;
      BuildEntriesAppend(projectId, host, a[1..], b);
    } else {
      assert a + b == b;
    }
  }
}
