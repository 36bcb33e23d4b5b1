/** The Google Cloud Logging transport for winston: configuration checks,
    the asynchronous initialisation callbacks, the `log` entry point that
    buffers events, and the batch write request built from a buffer. */
module Gcl {
  import opened Wrappers
  import opened JsValues
  import opened Severities
  import opened HostMetadata
  import opened Entries

  /** An authorised API client, kept opaque. */
  datatype Credential = Credential(handle: string)

  /** The errors the transport throws or reports. */
  datatype GclError =
    | ProjectIdRequired
    | LogIdRequired
    | MetadataMalformed
    | AuthNotInitialized
    | MetadataNotInitialized
  {
    /** The message of the `Error` the source creates. */
    function Message(): string {
      match this
      case ProjectIdRequired => "Google ProjectId is required"
      case LogIdRequired => "LogId is required."
      case MetadataMalformed => "googleMetadata malformed"
      case AuthNotInitialized => "Auth not initialized"
      case MetadataNotInitialized => "googleMetadata not inicialized"
    }
  }

  /** The constructor's options object. */
  datatype Options = Options(
    projectId: Option<string>,
    logId: Option<string>,
    auth: Option<Credential>,
    googleMetadata: Option<map<string, string>>,
    silent: bool)

  /** JavaScript truthiness of an optional string option. */
  predicate Present(v: Option<string>) {
    v.Some? && v.value != ""
  }

  /** The error construction throws, if any: a missing project id first, then
      a missing log id, then explicit metadata lacking `id`, `zone` or
      `region`. */
  function Validate(options: Options): (err: Option<GclError>)
    ensures err.None? <==>
      Present(options.projectId) && Present(options.logId)
      && (options.googleMetadata.Some? ==> WellFormed(options.googleMetadata.value))
    ensures !Present(options.projectId) ==> err == Some(ProjectIdRequired)
    ensures Present(options.projectId) && !Present(options.logId) ==> err == Some(LogIdRequired)
    ensures Present(options.projectId) && Present(options.logId)
      && options.googleMetadata.Some? && !WellFormed(options.googleMetadata.value)
      ==> err == Some(MetadataMalformed)
  {
    if !Present(options.projectId) then Some(ProjectIdRequired)
    else if !Present(options.logId) then Some(LogIdRequired)
    else if options.googleMetadata.Some? && !WellFormed(options.googleMetadata.value) then
      Some(MetadataMalformed)
    else None
  }

  /** The parameters of one `entries.write` call. */
  datatype WriteRequest = WriteRequest(auth: Credential, entries: seq<LogEntry>)

  class Transport {
    const projectId: string
    const logId: string
    /** Whether construction started the metadata server lookup (no explicit
        metadata was given). */
    const discoversMetadata: bool
    /** `_auth`: the client used for writes, once there is one. */
    var auth: Option<Credential>
    /** `_googleMetadata`: the instance identity, once known. */
    var metadata: Option<HostContext>
    /** winston's `silent` flag. */
    var silent: bool
    /** The limiter's buffer of events not yet handed to a write. */
    var pending: seq<LogEvent>

    /** Identifiers are set, and explicit metadata is never lost. */
    ghost predicate Valid()
      reads this
    {
      projectId != "" && logId != "" && (!discoversMetadata ==> metadata.Some?)
    }

    /** Construction from options that pass validation. */
    constructor (options: Options)
      requires Validate(options).None?
      ensures Valid()
      ensures projectId == options.projectId.value && logId == options.logId.value
      ensures auth == options.auth && silent == options.silent && pending == []
      ensures discoversMetadata == options.googleMetadata.None?
      ensures metadata ==
        if options.googleMetadata.Some? then Some(FromExplicit(options.googleMetadata.value))
        else None
    {
      projectId := options.projectId.value;
      logId := options.logId.value;
      auth := options.auth;
      silent := options.silent;
      if options.googleMetadata.Some? {
        discoversMetadata := false;
        metadata := Some(FromExplicit(options.googleMetadata.value));
      } else {
        discoversMetadata := true;
        metadata := None;
      }
      pending := [];
    }

    /** `new GCL(options)`: the validation error, or a new transport. */
    static method Create(options: Options) returns (r: Result<Transport, GclError>)
      ensures r.Err? <==> Validate(options).Some?
      ensures r.Err? ==> r.error == Validate(options).value
      ensures r.Ok? ==> fresh(r.value) && r.value.Valid() && r.value.pending == []
      ensures r.Ok? ==>
        (r.value.projectId == options.projectId.value
         && r.value.logId == options.logId.value && r.value.auth == options.auth
         && r.value.silent == options.silent
         && r.value.discoversMetadata == options.googleMetadata.None?
         && r.value.metadata ==
              if options.googleMetadata.Some? then Some(FromExplicit(options.googleMetadata.value))
              else None)
    {
      var err := Validate(options);
      if err.Some? {
        return Err(err.value);
      }
      var t := new Transport(options);
      return Ok(t);
    }

    /** The completion of `getApplicationDefault`: a client replaces `_auth`;
        an error leaves it as it was. */
    method OnApplicationDefault(outcome: Result<Credential, string>)
      requires Valid()
      modifies this`auth
      ensures Valid()
      ensures auth == if outcome.Ok? then Some(outcome.value) else old(auth)
    {
      if outcome.Ok? {
        auth := Some(outcome.value);
      }
    }

    /** The completion of the metadata server lookup: an instance record
        sets `_googleMetadata`; an error leaves it unset. */
    method OnInstanceMetadata(outcome: Result<InstanceData, string>)
      requires Valid() && discoversMetadata
      modifies this`metadata
      ensures Valid()
      ensures metadata == if outcome.Ok? then Some(Discover(outcome.value)) else old(metadata)
    {
      if outcome.Ok? {
        metadata := Some(Discover(outcome.value));
      }
    }

    /** What `bulkLog` does with a batch in the current state: an error when
        there is no client or no instance identity yet (the client is checked
        first), otherwise the write request carrying one entry per event. */
    function Request(logs: seq<LogEvent>): (r: Result<WriteRequest, GclError>)
      reads this
      ensures auth.None? ==> r == Err(AuthNotInitialized)
      ensures auth.Some? && metadata.None? ==> r == Err(MetadataNotInitialized)
      ensures r.Ok? <==> auth.Some? && metadata.Some?
      ensures r.Ok? ==> r.value.auth == auth.value && |r.value.entries| == |logs|
      ensures r.Ok? ==> forall i :: 0 <= i < |logs| ==>
        r.value.entries[i] == BuildEntry(projectId, metadata.value, logs[i])
    {
      if auth.None? then Err(AuthNotInitialized)
      else if metadata.None? then Err(MetadataNotInitialized)
      else Ok(WriteRequest(auth.value, BuildEntries(projectId, metadata.value, logs)))
    }

    /** Writing two consecutive batches carries the same entries, in the same
        order, as writing them as one batch. */
    lemma RequestOfConcatenation(a: seq<LogEvent>, b: seq<LogEvent>)
      requires auth.Some? && metadata.Some?
      ensures Request(a + b).Ok? && Request(a).Ok? && Request(b).Ok?
      ensures Request(a + b).value.entries == Request(a).value.entries + Request(b).value.entries
    {
      BuildEntriesAppend(projectId, metadata.value, a, b);
    }

    /** `bulkLog(logs)`: checks readiness and assembles the write request;
        with explicit metadata it never reports missing metadata. */
    method BulkLog(logs: seq<LogEvent>) returns (r: Result<WriteRequest, GclError>)
      ensures r == Request(logs)
      ensures Valid() && !discoversMetadata ==> r != Err(MetadataNotInitialized)
    {
      if auth.None? {
        return Err(AuthNotInitialized);
      }
      if metadata.None? {
        return Err(MetadataNotInitialized);
      }
      var entries := BuildEntries(projectId, metadata.value, logs);
      r := Ok(WriteRequest(auth.value, entries));
    }

    /** `log(level, msg, meta, callback)`: always answers `(null, true)`;
        unless silent it appends exactly one event, with `meta` defaulted to
        `{}` and the current time, to the end of the buffer. */
    method Log(level: string, msg: string, meta: Option<Json>, now: Timestamp)
      returns (err: Option<GclError>, logged: bool)
      requires Valid()
      modifies this`pending
      ensures Valid()
      ensures err == None && logged
      ensures pending == if silent then old(pending)
        else old(pending) + [LogEvent(level, msg, OrEmptyObject(meta), now)]
    {
      if silent {
        return None, true;
      }
      pending := pending + [LogEvent(level, msg, OrEmptyObject(meta), now)];
      return None, true;
    }

    /** The limiter's flush callback: the buffered events are handed to
        `bulkLog`, whose outcome is ignored, so a batch that finds the
        transport not ready is dropped. */
    method Flush() returns (r: Result<WriteRequest, GclError>)
      requires Valid()
      modifies this`pending
      ensures Valid()
      ensures pending == []
      ensures r == Request(old(pending))
    {
      var batch := pending;
      pending := [];
      r := BulkLog(batch);
    }
  }
}
