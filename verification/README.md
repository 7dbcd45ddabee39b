# Ingestion job-lifecycle client, modelled in Dafny

The front end submits a batch of files to the backend's ingestion endpoint,
then follows the job over a WebSocket until it finishes. Its client keeps three
observable stores — the ingestion `status` (`IDLE`, `PENDING`, `RUNNING`,
`SUCCESS`, `FAILED`), an append-only `log` of leveled entries and the current
`jobId` — plus one `socket` variable. `startIngestion` resets the stores and
sends the request. Its continuation records the job and connects. The socket's
open, message, error and close callbacks then drive the status and the log.

This project writes that client as one immutable `Ingestion.Session` and one
tagged `Ingestion.Event`, with a pure transition `Ingestion.Step`. Each event
is handled by a function named after the source's callback. The channel
address is a pure function of the page protocol, the page host and the job id.
A parser reads the address back, and a lemma proves the round trip.
`IngestionProperties` states what holds across events and across whole runs.

A second, smaller module `Health` models the root layout's loader. It maps a
decoded health response to the `SystemHealth` display record, and it turns
every failure into a fallback record, so the loader never fails.

Modules: `Options` (optional values), `Text` (ASCII upper-casing; decimal
rendering of status codes and its parser), `JsValues` (caught values,
`String(error)` and the `instanceof Error` message), `SocketUrl`, `Ingestion`,
`IngestionProperties`, `Health`.

### Properties the client does not have

Each of these facts about the code is stated by a lemma:
- The status is not monotonic. A status message stores whatever upper-cased
  value arrives, whatever the current status. A finished job can therefore be
  reported `RUNNING` again (`IngestionProperties.StatusMessageOverridesTerminal`).
- Events do not stop mutating the session once their socket is closed. Closing
  the previous socket does not detach its handlers. That socket's close event
  arrives after the reset, turns the new job's `PENDING` into `IDLE` and writes
  into the new log (`IngestionProperties.CloseAfterRestartRevertsToIdle`). It
  does not close the new socket, though
  (`IngestionProperties.StaleCloseKeepsNewSocket`).
- A close does not override a transport error. An error followed by a close
  ends in `FAILED`, not `IDLE`: the error handler writes `FAILED` first, and the
  close handler reverts only `RUNNING` and `PENDING`
  (`IngestionProperties.ErrorThenCloseEndsFailed`).
- A failed trigger's log entry is not the bare reason. It reads
  `Échec du démarrage de l'ingestion : Error: <reason>`, because the catch block
  interpolates the thrown `Error` itself and `String(error)` puts `Error: ` in
  front of the message.

## Model

| member | source | states |
|---|---|---|
| Text.ToUpper | src/lib/services/ingestionService.ts:98-100 | `.toUpperCase()` of a level or status keeps its length and upper-cases each letter in place; `ToUpperIsUpper` and `ToUpperIdempotent` state what the result is |
| Text.ToUpperIsUpper | src/lib/services/ingestionService.ts:98-100 | an upper-cased level or status holds no lower-case letter, and an already upper-case one is left unchanged |
| Text.ToUpperIdempotent | src/lib/services/ingestionService.ts:100 | normalising an already normalised status or level changes nothing |
| Text.NatToString | src/lib/services/ingestionService.ts:49 | `${response.status}` is a non-empty string of decimal digits with no leading zero except for 0 itself; `ParseNatToString` reads it back |
| Text.ParseNatToString | src/lib/services/ingestionService.ts:49 | the decimal status code written into a message reads back as the same code |
| Text.NatToStringInjective | src/routes/+layout.server.ts:11 | different status codes give different messages |
| JsValues.ToText | src/lib/services/ingestionService.ts:61 | `${error}` of an Error is "name: message", with the empty-name and empty-message cases, and the text itself for any other value |
| JsValues.MessageOf | src/routes/+layout.server.ts:24-31 | the guard yields an Error's message and `String(value)` for anything else |
| JsValues.NewErrorText | src/lib/services/ingestionService.ts:49 | an Error built from a non-empty message renders as "Error: " followed by that message |
| JsValues.MessageOfIsSuffixOfText | src/lib/services/ingestionService.ts:84 | the guarded message is always the tail of `String(error)`, which puts at most "name: " in front of it |
| SocketUrl.Scheme | src/lib/services/ingestionService.ts:73 | the channel is secure exactly when the page protocol is `https:` |
| SocketUrl.BuildUrl | src/lib/services/ingestionService.ts:73-76 | the address starts with the scheme, "://" and the page host, and ends with "/status"; `ParseBuildUrl` states that it names exactly the scheme choice, host and job |
| SocketUrl.ParseBuildUrl | src/lib/services/ingestionService.ts:73-76 | the built address parses back to the scheme choice, the host and the job id, for every host without a slash |
| SocketUrl.BuildUrlInjective | src/lib/services/ingestionService.ts:76 | on one page, different jobs get different channel addresses |
| Ingestion.ParseStatus | src/lib/services/ingestionService.ts:100 | a received status maps to one of the five names exactly when it is one of them, and is kept otherwise |
| Ingestion.StatusNameRoundTrip | src/lib/services/ingestionService.ts:5 | the stored string and the status value determine each other |
| Ingestion.AddLog | src/lib/services/ingestionService.ts:123-126 | a log write grows the log by one, keeps every earlier entry in place and changes no other store |
| Ingestion.CloseSocket | src/lib/services/ingestionService.ts:30-31 | closing keeps the socket variable pointing at the same socket and marks it not open |
| Ingestion.StartIngestion | src/lib/services/ingestionService.ts:23-32 | an empty batch changes nothing; otherwise status `PENDING`, empty log, no job id and no open socket before any request |
| Ingestion.CatchStartError | src/lib/services/ingestionService.ts:59-63 | any failure of the submission appends one ERROR entry carrying `String(error)` and sets `FAILED`, leaving job id and socket alone |
| Ingestion.RejectionReason | src/lib/services/ingestionService.ts:47-49 | the body's message if non-empty, the unknown-error text if the body did not parse, else exactly "HTTP error! status: " and the decimal code, which reads back as the code |
| Ingestion.TriggerRejected | src/lib/services/ingestionService.ts:47-63 | a non-ok response appends exactly one ERROR entry "…Error: reason", sets `FAILED`, opens no socket and keeps the job id |
| Ingestion.ConnectToJobStatus | src/lib/services/ingestionService.ts:70-87 | success records an open socket on the built address; a constructor failure appends one ERROR entry with the error's message, sets `FAILED` and records no new socket |
| Ingestion.TriggerAccepted | src/lib/services/ingestionService.ts:52-57 | the job id becomes the returned id and one INFO entry carries the acknowledgment; the status is unchanged when the socket is constructed |
| Ingestion.OnOpen | src/lib/services/ingestionService.ts:89-92 | an open socket sets `RUNNING` and appends exactly one INFO entry naming the job |
| Ingestion.OnMessage | src/lib/services/ingestionService.ts:94-109 | a log message appends one entry with the upper-cased level; a status message stores the upper-cased status and appends the INFO summary, exactly one entry with the socket untouched unless the status is terminal, in which case the socket variable keeps the same socket, now closed; any other type changes nothing |
| Ingestion.OnError | src/lib/services/ingestionService.ts:111-115 | a transport error appends one ERROR entry and sets `FAILED` without closing the socket |
| Ingestion.OnClose | src/lib/services/ingestionService.ts:117-120 | a close appends one INFO entry, turns `RUNNING`/`PENDING` into `IDLE` and keeps every other status; the socket variable is marked closed only when the socket that closed is the one it holds |
| Ingestion.Step | src/lib/services/ingestionService.ts:23-126 | only a start may drop log entries, only a start or an accepted trigger may change the job id, and an open socket stays tied to a recorded job (`StepLog` and `StepConsistent` give the exact entries and the invariant) |
| IngestionProperties.StepLog | src/lib/services/ingestionService.ts:23-126 | every event except a non-empty start appends exactly the entries `Written(e)` lists for it, whatever the session; only a non-empty start shrinks the log, to empty |
| IngestionProperties.EmptyStartIsNoOp | src/lib/services/ingestionService.ts:24 | a start with no files leaves the session unchanged |
| IngestionProperties.JobIdChanges | src/lib/services/ingestionService.ts:29-53 | the job id changes only when a start clears it or a successful trigger sets it to the returned id |
| IngestionProperties.SocketOpensOnlyOnTriggerOk | src/lib/services/ingestionService.ts:73-80 | a socket becomes open only through a successful trigger with a constructed socket, on the address naming the page scheme, host and job |
| IngestionProperties.ErrorThenCloseEndsFailed | src/lib/services/ingestionService.ts:111-120 | an error then a close ends in `FAILED` from any session, writing one ERROR then one INFO entry |
| IngestionProperties.CloseOutcome | src/lib/services/ingestionService.ts:117-120 | a close keeps `SUCCESS`/`FAILED`, turns `RUNNING`/`PENDING` into `IDLE`, and never leaves an in-flight status |
| IngestionProperties.CloseAfterRestartRevertsToIdle | src/lib/services/ingestionService.ts:30-31 | the close of the socket a restart closed turns the new `PENDING` into `IDLE` and writes into the new log |
| IngestionProperties.StaleCloseKeepsNewSocket | src/lib/services/ingestionService.ts:80-120 | a replaced socket's late close sets `IDLE` but leaves the new socket open, and the next open event gives `RUNNING` on an open socket |
| IngestionProperties.StatusMessageOverridesTerminal | src/lib/services/ingestionService.ts:100-101 | a status message replaces even `SUCCESS`, so the status is not monotonic |
| IngestionProperties.TerminalStatusClosesSocket | src/lib/services/ingestionService.ts:104-107 | a `SUCCESS`/`FAILED` status in any ASCII case writes the summary and the closing entry and leaves no open socket |
| IngestionProperties.RunAppends | src/lib/services/ingestionService.ts:123-126 | over any run without a restart, the later log is the earlier one followed by exactly the entries the events write, in delivery order |
| IngestionProperties.RunAfterStart | src/lib/services/ingestionService.ts:28 | after a start the log holds exactly the entries written since |
| IngestionProperties.StepConsistent | src/lib/services/ingestionService.ts:29-87 | every event keeps an open socket tied to a recorded job |
| IngestionProperties.RunConsistent | src/lib/services/ingestionService.ts:17-120 | every run from a consistent session stays consistent |
| IngestionProperties.ReachableConsistent | src/lib/services/ingestionService.ts:11-17 | every session reached from page load (status `IDLE`, empty log, no job, no socket) keeps an open socket tied to a recorded job |
| IngestionProperties.RejectedSubmission | src/lib/services/ingestionService.ts:23-63 | start then a non-ok response: one ERROR entry, `FAILED`, no job id, no open socket |
| IngestionProperties.RejectedWithBodyMessage | src/lib/services/ingestionService.ts:47-49 | a 500 whose body says "disk full" leaves exactly the entry "…Error: disk full" |
| IngestionProperties.AcceptedSubmission | src/lib/services/ingestionService.ts:52-92 | start, accepted trigger, open: `RUNNING`, the acknowledgment then the connection entry, the job id, an open socket on the job's address |
| IngestionProperties.PendingUntilOpened | src/lib/services/ingestionService.ts:27-57 | the status stays `PENDING` between the accepted trigger and the open event |
| IngestionProperties.SuccessFinishesJob | src/lib/services/ingestionService.ts:100-106 | a lower-case "success" status gives `SUCCESS` and the client closes the socket |
| Health.MapHealth | src/routes/+layout.server.ts:15-20 | postgres is `CONNECTED` exactly when the input says "OK" and `DISCONNECTED` otherwise, likewise `AVAILABLE`/`NOT_FOUND` for the graph store; counts copied; no error |
| Health.FallbackHealth | src/routes/+layout.server.ts:24-41 | the fallback is `DISCONNECTED`, `NOT_FOUND`, 0, 0, with the Error's message or `String(value)` as error |
| Health.FetchInitialHealth | src/routes/+layout.server.ts:7-43 | a decoded body gives the mapped record with no error; a non-ok status or any exception gives `DISCONNECTED`, `NOT_FOUND`, 0, 0 with an error set; for a non-ok status the error is exactly "API Health Check failed with status n", and for an exception it is the caught value's guarded message |
| Health.Load | src/routes/+layout.server.ts:5-48 | the loader returns a record under `initialHealth` on every path, with an error exactly when the fetch failed and never `CONNECTING`; on success it is the mapped data unchanged, on an exception the fallback carrying the caught value's message, on a non-ok status the fallback naming the code |
| Health.FailureIsFallback | src/routes/+layout.server.ts:10-41 | every failure, a non-ok status included, ends in the record the catch block builds for some caught value |
| Health.NotOkFallback | src/routes/+layout.server.ts:10-11 | a non-ok response yields the fallback with "API Health Check failed with status n", and n reads back from it |
| Health.NotOkDistinguishesStatus | src/routes/+layout.server.ts:11 | different non-ok status codes yield different records |

## Left out

- `fetch`, `FormData`, `WebSocket` and `window.location` are foreign I/O. Their outcomes are event fields instead. `TriggerOk` carries the page location and the constructor's outcome, `Opened` carries the job id the socket's handlers captured, and `Closed` carries the address of the socket that closed.
- Timestamps of log entries are a clock read, so they are not modelled.
- Svelte `writable` stores are plain fields of the session record. `console.error` calls are dropped.
- The success body's `job_id` and `message` are taken to be strings. If `job_id` is missing, the client stores `undefined` as the job id and connects to `…/jobs/undefined/status`; that case is not distinguished.
- JSON decoding is not modelled; messages arrive already decoded. `JSON.parse` and `.toUpperCase()` on a missing field throw before any write. A malformed payload, or a log or status message without its field, therefore behaves like `OtherMsg` and changes nothing.
- Overlapping `startIngestion` calls are not modelled as interleavings. Late events from a replaced socket are ordinary events: `Step` applies them to the one session, because the handlers are never detached.
- Ingestion.OnClose: tells sockets apart by their address. In the source each socket is a distinct object with its own ready state, and the close handler itself checks no identity. A new socket on the same address as the one that closed, such as a restart of the same job id on the same page, is taken to be the socket that closed.
- Text.ToUpper: upper-cases ASCII letters only. JavaScript's full Unicode case mapping, where one character can become two, is not modelled.
- Ingestion.TriggerRejected: a body that decodes to `null`, or a `message` field that is truthy but not a string, is not distinguished. These become a `TriggerThrew` or a non-empty message.
- Health.MapHealth: the counts are modelled as integers. The source copies any JSON value verbatim.
- The levels INFO, WARN and ERROR declared for `LogEntry` are not enforced, because the code does not enforce them. Levels are strings.
- The initial constant of the health store and the build/proxy configuration are not part of this model.
