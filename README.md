# winston-gcl in Dafny

A model of `lib/winston-gcl.js`, a winston transport that ships log events to
Google Cloud Logging. The transport validates its options at construction,
learns its credentials and the Compute Engine instance identity
asynchronously, buffers each `log` call in a rate limiter, and on every flush
turns the buffered events into Cloud Logging `LogEntry` records sent in one
`entries.write` call.

Modules:

- `Wrappers`: `Option` and `Result`.
- `JsValues`: JSON-shaped metadata values, JavaScript truthiness, `meta || {}`.
- `Text`: `split('/')` with its inverse `Join`, and the decimal rendering of
  the numeric instance id (`toString`) with its inverse `DecimalValue`.
- `Severities`: the fixed winston-level to Cloud Logging severity table with
  its `DEFAULT` fallback.
- `HostMetadata`: the instance identity, explicit or derived from the
  metadata server's zone path (zone = last path segment, region = zone minus
  its last two characters).
- `Entries`: buffered events, log entries, the log name
  `projects/<projectId>/logs/nodeserver`, and the one-to-one, order-preserving
  map from events to entries.
- `Gcl`: option validation (in the source's order, with the source's error
  messages in `GclError.Message`), and the `Transport` class whose fields are
  the project id, log id, credential, instance identity, `silent` flag and the
  limiter's pending buffer. Its methods are the constructor, the two
  initialisation callbacks, `BulkLog`, `Log` and the limiter's flush callback.

## Model

| member | source | states |
|---|---|---|
| JsValues.OrEmptyObject | lib/winston-gcl.js:174 | `meta || {}`: a truthy `meta` is kept, a missing or falsy one becomes `{}`; the result is always truthy |
| Text.Split | lib/winston-gcl.js:67 | `split('/')` yields at least one piece, no piece holds the separator, and there is exactly one piece (the whole string) iff the string has no separator |
| Text.JoinSplit | lib/winston-gcl.js:67 | joining the pieces of a split with the separator gives back the string |
| Text.SplitJoin | lib/winston-gcl.js:67 | splitting a join of separator-free pieces gives back the pieces |
| Text.LastPieceIsSuffix | lib/winston-gcl.js:67-70 | the last piece is the longest separator-free suffix: a suffix without separator that is the whole string or follows a separator |
| Text.LastPieceAfterSeparator | lib/winston-gcl.js:67-70 | what precedes a separator does not change the last piece |
| Text.NatToDecimal | lib/winston-gcl.js:69 | `id.toString()` is a non-empty digit string with no leading zero (one digit iff below 10) |
| Text.DecimalRoundTrip | lib/winston-gcl.js:69 | the rendered id reads back as the same number |
| Severities.SeverityOf | lib/winston-gcl.js:93-100 | the level lookup never fails, and yields `DEFAULT` exactly for levels outside winston's six npm levels |
| Severities.SeverityOfNpmLevels | lib/winston-gcl.js:93-100 | silly and debug map to DEBUG, verbose to NOTICE, info to INFO, warn to WARNING, error to ERROR |
| Severities.SeverityDistinguishesLevels | lib/winston-gcl.js:93-100 | two known levels share a severity only if they are equal or are silly and debug |
| HostMetadata.ParseZone | lib/winston-gcl.js:67-70 | the zone is the suffix of the zone path after its last `/`, or the whole path when it has none |
| HostMetadata.Region | lib/winston-gcl.js:71 | the region is the zone's prefix two characters shorter, or empty for a zone shorter than two |
| HostMetadata.Discover | lib/winston-gcl.js:67-72 | discovered metadata holds the id as the canonical decimal numeral of the numeric id (no leading zero, never empty), the parsed zone and that zone's region |
| HostMetadata.ParseZoneAfterSlash | lib/winston-gcl.js:67-70 | whatever precedes the last `/`, the zone is the segment after it |
| HostMetadata.RegionOfZoneName | lib/winston-gcl.js:71 | a zone `<region>-<letter>` yields back its region |
| HostMetadata.DiscoverZonePath | lib/winston-gcl.js:62-72 | for a zone path `projects/<n>/zones/<region>-<letter>` the context is the decimal id, the zone name and the region |
| HostMetadata.FromExplicit | lib/winston-gcl.js:54-60 | well-formed explicit metadata is taken as given: its `id`, `zone` and `region` |
| Entries.LogName | lib/winston-gcl.js:135 | the log name parses back to the project id it was built from |
| Entries.LogNameOfProject | lib/winston-gcl.js:135 | a name of the form `projects/<p>/logs/nodeserver` is exactly the log name of project `p` |
| Entries.BuildEntry | lib/winston-gcl.js:124-146 | an entry names the project's `nodeserver` log, a `gce_instance` resource labelled with the instance id and zone, the severity `SeverityOf(level)` (DEFAULT iff the level is unknown), the event's date and its metadata as payload |
| Entries.BuildEntryIgnoresMessageAndRegion | lib/winston-gcl.js:132-146 | the entry does not depend on the message text or on the region |
| Entries.BuildEntries | lib/winston-gcl.js:124-147 | exactly one entry per event, in order, entry `i` built from event `i` alone |
| Entries.BuildEntriesAppend | lib/winston-gcl.js:124-147 | mapping a concatenation of event runs gives the concatenation of their entries |
| Gcl.Validate | lib/winston-gcl.js:25-59 | construction fails with "Google ProjectId is required" first, then "LogId is required.", then "googleMetadata malformed" for explicit metadata lacking `id`, `zone` or `region`; it succeeds exactly when none applies |
| Gcl.Transport.constructor | lib/winston-gcl.js:20-81 | a valid configuration is stored as given: ids, credential, `silent`, explicit metadata or a pending lookup, and an empty buffer |
| Gcl.Transport.Create | lib/winston-gcl.js:20-81 | `new GCL(options)` throws the validation error, or yields a fresh transport holding the given ids, credential, `silent` flag and explicit metadata (or a pending lookup), with an empty buffer |
| Gcl.Transport.OnApplicationDefault | lib/winston-gcl.js:31-51 | a client from `getApplicationDefault` replaces `_auth`; an error leaves it unchanged |
| Gcl.Transport.OnInstanceMetadata | lib/winston-gcl.js:61-74 | an instance record sets the discovered metadata; an error leaves it unset |
| Gcl.Transport.Request | lib/winston-gcl.js:111-147 | no credential gives "Auth not initialized" (checked first), no metadata "googleMetadata not inicialized"; otherwise a request with the credential and one entry per event, in order |
| Gcl.Transport.RequestOfConcatenation | lib/winston-gcl.js:124-147 | once ready, two batches carry together the entries of their concatenation, in order |
| Gcl.Transport.BulkLog | lib/winston-gcl.js:107-147 | `bulkLog` builds exactly that request or error, and with explicit metadata never reports it missing |
| Gcl.Transport.Log | lib/winston-gcl.js:166-177 | `log` always answers `(null, true)` and keeps the transport's invariant; silent leaves the buffer as it was, otherwise exactly one event `{level, msg, meta or {}, date}` is appended at its end |
| Gcl.Transport.Flush | lib/winston-gcl.js:78-80 | the limiter hands its whole buffer to `bulkLog` and its outcome is ignored: the buffer is empty afterwards, whether or not a request was built |

## Left out

- The googleapis calls (`getApplicationDefault`, `createScoped`, `entries.write`) are foreign and asynchronous: their outcomes are parameters of the callback methods, and `BulkLog` returns the request it would send instead of sending it. The write's own success or failure is not modelled, since nothing in the source acts on it (the limiter's callback ignores it).
- The metadata server request (`googleMetadata.instance`) is I/O: only the handling of its result is modelled, in `OnInstanceMetadata`.
- The slowloris `Limiter` is a library outside this model: its 500 interval, its scheduling and its buffer's internals are not modelled. Its buffer is the `pending` sequence, and `Flush` assumes that a flush hands over the whole buffer and starts a fresh one.
- Events (`emit('logged')`, `emit('error')`) and the inheritance from `winston.Transport` are framework plumbing. The `silent` flag is taken from the options, which is what winston's base class does with them.
- `self.prefix`, `self._name` and `self._initalized` are assigned but never read by the transport, so they are not modelled.
- Dates are opaque `Timestamp` values; `new Date()` is the `now` parameter of `Log`, and `toISOString` is not modelled (an entry carries the event's timestamp).
- The severity table is a finite map over its six keys; lookups of inherited object properties such as `constructor` are not modelled.
- Option values are modelled as strings, objects and booleans only: a non-string `projectId` or `logId`, a non-object `googleMetadata`, an explicit metadata value that is not a string, and a missing options object are not modelled. Falsy means missing or empty.
- JSON numbers are integers; floating point values in metadata are not modelled.
- Text.NatToDecimal: renders every natural exactly; JavaScript's rounding of ids above 2^53 and its exponent notation from 10^21 on are not modelled.
- HostMetadata.Region: strings are sequences of Unicode code points, while `slice(0, -2)` counts UTF-16 code units, so a zone ending in a character outside the Basic Multilingual Plane loses a different number of characters in the source.
- Gcl.Transport.constructor: copies the option values at construction; the source keeps the caller's options object and explicit metadata object by reference and reads `options.projectId` again on every `bulkLog`, so later changes to those objects reach later entries there but not in the model.
- HostMetadata.FromExplicit: keeps only `id`, `zone` and `region`; the source stores the whole object, whose other properties no entry uses.
- `test/winston-glc-test.js` only corroborates `Log`'s `(null, true)` answer; it constructs the transport without a project id, which validation rejects.

## Notes on the code's behaviour

The model follows the code, which is simpler than a general batching
transport would be. The code has no burst threshold, batch-size bound, retry,
requeue, drop counter or shutdown drain. A flush that finds no credential or
no metadata loses its batch rather than keeping it. Entries carry neither the
message text, a label prefix nor the region. The log name ends in the fixed
`nodeserver` rather than in the configured log id.
