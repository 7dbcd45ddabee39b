/** What the ingestion client promises across events: the log is append-only
    between job starts, the entries each event writes, which events
    may set the job id or open or close a socket, how an error and a close combine, and
    runs of several events. */
module IngestionProperties {
  import opened Options
  import opened Text
  import opened JsValues
  import SocketUrl
  import opened Ingestion

  /** A start with at least one file: the only event that empties the log. */
  predicate Resets(e: Event) {
    e.Start? && e.fileCount > 0
  }

  /** The entries an event appends to the log, read off the event alone. */
  function Written(e: Event): seq<LogEntry> {
    match e
    case Start(_) => []
    case TriggerFailed(bodyMessage, httpStatus) =>
      [LogEntry(ERROR, StartFailurePrefix + "Error: " + RejectionReason(bodyMessage, httpStatus))]
    case TriggerThrew(error) => [LogEntry(ERROR, StartFailurePrefix + ToText(error))]
    case TriggerOk(_, ack, _, construction) =>
      [LogEntry(INFO, ack)]
      + (match construction
         case Constructed => []
         case ConstructFailed(error) => [LogEntry(ERROR, ConstructFailurePrefix + MessageOf(error))])
    case Opened(jobId) => [LogEntry(INFO, ConnectedPrefix + jobId)]
    case Message(payload) =>
      (match payload
       case LogMsg(level, message) => [LogEntry(ToUpper(level), message)]
       case StatusMsg(status, message) =>
         [LogEntry(INFO, StatusPrefix + status + StatusSeparator + message)]
         + (if IsTerminal(ParseStatus(ToUpper(status))) then [LogEntry(INFO, JobDoneMessage)] else [])
       case OtherMsg => [])
    case TransportError => [LogEntry(ERROR, TransportErrorMessage)]
    case Closed(_) => [LogEntry(INFO, ClosedMessage)]
  }

  /** Every event but a non-empty start appends exactly `Written(e)` to the log,
      whatever the session; a non-empty start empties it. So the log shrinks
      only at a start. */
  lemma StepLog(s: Session, e: Event)
    ensures !Resets(e) ==> Step(s, e).log == s.log + Written(e)
    ensures Resets(e) ==> Step(s, e).log == []
    ensures !(s.log <= Step(s, e).log) ==> Resets(e)
  {
    if e.Message? && e.payload.StatusMsg? && IsTerminal(ParseStatus(ToUpper(e.payload.status))) {
      TerminalStatusClosesSocket(s, e.payload.status, e.payload.message);
    }
  }

  /** An empty batch changes nothing. */
  lemma EmptyStartIsNoOp(s: Session)
    ensures Step(s, Start(0)) == s
  {
  }

  /** The job id changes only at a non-empty start, which clears it, and at a
      successful trigger, which sets it to the returned id. */
  lemma JobIdChanges(s: Session, e: Event)
    ensures Step(s, e).jobId != s.jobId ==>
      || (Resets(e) && Step(s, e).jobId == None)
      || (e.TriggerOk? && Step(s, e).jobId == Some(e.jobId))
  {
  }

  /** A socket becomes open only when a successful trigger constructs it, and
      its address then names the page's scheme, host and the returned job. */
  lemma SocketOpensOnlyOnTriggerOk(s: Session, e: Event)
    requires SocketOpen(Step(s, e))
    requires !SocketOpen(s) || Step(s, e).socket != s.socket
    requires e.TriggerOk? ==> forall i :: 0 <= i < |e.page.host| ==> e.page.host[i] != '/'
    ensures e.TriggerOk? && e.construction.Constructed?
    ensures SocketUrl.ParseUrl(Step(s, e).socket.value.url)
      == Some(SocketUrl.Target(e.page.protocol == "https:", e.page.host, e.jobId))
  {
    SocketUrl.ParseBuildUrl(e.page.protocol, e.page.host, e.jobId);
  }

  /** A transport error followed by a close ends in `FAILED`, whatever the status
      was: the error handler writes `FAILED` first and the close handler leaves
      it. The two handlers write one ERROR and one INFO entry. */
  lemma ErrorThenCloseEndsFailed(s: Session, url: string)
    ensures Step(Step(s, TransportError), Closed(url)).status == Failed
    ensures Step(Step(s, TransportError), Closed(url)).log
      == s.log + [LogEntry(ERROR, TransportErrorMessage), LogEntry(INFO, ClosedMessage)]
  {
  }

  /** A close keeps a terminal status, and turns an in-flight one into `IDLE`;
      no close leaves the client stuck in `PENDING` or `RUNNING`. */
  lemma CloseOutcome(s: Session, url: string)
    ensures IsTerminal(s.status) ==> Step(s, Closed(url)).status == s.status
    ensures InFlight(s.status) ==> Step(s, Closed(url)).status == Idle
    ensures !InFlight(Step(s, Closed(url)).status)
  {
  }

  /** The close handler does not know which socket closed. The socket that a
      new start closes reports its close after the reset, and that close turns
      the new job's `PENDING` into `IDLE` and writes into the new log. */
  lemma CloseAfterRestartRevertsToIdle(s: Session, fileCount: nat, url: string)
    requires fileCount > 0
    ensures Step(Step(s, Start(fileCount)), Closed(url)).status == Idle
    ensures Step(Step(s, Start(fileCount)), Closed(url)).log == [LogEntry(INFO, ClosedMessage)]
  {
  }

  /** The late close of a replaced socket does not close the new one: after a
      restart and an accepted trigger, a close reported by a socket on another
      address leaves the new socket open, and the next open event finds the
      client `RUNNING` on an open socket. */
  lemma StaleCloseKeepsNewSocket(s: Session, fileCount: nat, jobId: string, ack: string, page: Page, oldUrl: string)
    requires fileCount > 0
    requires oldUrl != SocketUrl.BuildUrl(page.protocol, page.host, jobId)
    ensures var r := Run(s, [Start(fileCount), TriggerOk(jobId, ack, page, Constructed), Closed(oldUrl)]);
      && r.socket == Some(Socket(SocketUrl.BuildUrl(page.protocol, page.host, jobId), true))
      && r.status == Idle
    ensures var r := Step(Run(s, [Start(fileCount), TriggerOk(jobId, ack, page, Constructed), Closed(oldUrl)]), Opened(jobId));
      r.status == Running && SocketOpen(r)
  {
    RunTriple(s, Start(fileCount), TriggerOk(jobId, ack, page, Constructed), Closed(oldUrl));
  }

  /** A status message stores the upper-cased value whatever the current status
      is, so a finished job can be reported running again. */
  lemma StatusMessageOverridesTerminal(s: Session, message: string)
    requires s.status == Success
    ensures Step(s, Message(StatusMsg("running", message))).status == Running
  {
  }

  /** A status message naming `SUCCESS` or `FAILED` in any ASCII case writes two
      INFO entries and closes the socket. */
  lemma TerminalStatusClosesSocket(s: Session, status: string, message: string)
    requires IsTerminal(ParseStatus(ToUpper(status)))
    ensures Step(s, Message(StatusMsg(status, message))).status == ParseStatus(ToUpper(status))
    ensures !SocketOpen(Step(s, Message(StatusMsg(status, message))))
    ensures Step(s, Message(StatusMsg(status, message))).log
      == s.log + [LogEntry(INFO, StatusPrefix + status + StatusSeparator + message), LogEntry(INFO, JobDoneMessage)]
  {
    var summary := LogEntry(INFO, StatusPrefix + status + StatusSeparator + message);
    var s1 := AddLog(s.(status := ParseStatus(ToUpper(status))), INFO, summary.message);
    var r := Step(s, Message(StatusMsg(status, message)));
    assert r == AddLog(s1, INFO, JobDoneMessage).(socket := CloseSocket(s1.socket));
    assert r.log == s.log + [summary] + [LogEntry(INFO, JobDoneMessage)];
  }

  // ---------------------------------------------------------------------------
  // Runs of events

  /** The session after a sequence of events, applied in delivery order. */
  function Run(s: Session, events: seq<Event>): Session
    decreases |events|
  {
    if events == [] then s else Run(Step(s, events[0]), events[1..])
  }

  lemma RunPair(s: Session, a: Event, b: Event)
    ensures Run(s, [a, b]) == Step(Step(s, a), b)
  {
    assert [a, b][1..] == [b];
    assert [b][1..] == [];
    assert Run(Step(Step(s, a), b), []) == Step(Step(s, a), b);
    assert Run(Step(s, a), [b]) == Run(Step(Step(s, a), b), []);
  }

  lemma RunTriple(s: Session, a: Event, b: Event, c: Event)
    ensures Run(s, [a, b, c]) == Step(Step(Step(s, a), b), c)
  {
    assert [a, b, c][1..] == [b, c];
    RunPair(Step(s, a), b, c);
  }

  /** Entries written by a sequence of events, in order. */
  function AllWritten(events: seq<Event>): seq<LogEntry>
    decreases |events|
  {
    if events == [] then [] else Written(events[0]) + AllWritten(events[1..])
  }

  predicate NoReset(events: seq<Event>) {
    forall i :: 0 <= i < |events| ==> !Resets(events[i])
  }

  /** Within one job the log only grows: the later log is the earlier one
      followed by exactly the entries the events write, in delivery order. */
  lemma {:induction false} RunAppends(s: Session, events: seq<Event>)
    requires NoReset(events)
    ensures Run(s, events).log == s.log + AllWritten(events)
    ensures s.log <= Run(s, events).log
    decreases |events|
  {
    if events != [] {
      var e, rest := events[0], events[1..];
      var next := Step(s, e);
      RunUnfold(s, events);
      StepAppends(s, e);
      RunAppends(next, rest);
      SeqAssoc(s.log, Written(e), AllWritten(rest));
    }
  }

  /** One step of a run and of the entries it writes. */
  lemma RunUnfold(s: Session, events: seq<Event>)
    requires events != []
    requires NoReset(events)
    ensures Run(s, events) == Run(Step(s, events[0]), events[1..])
    ensures AllWritten(events) == Written(events[0]) + AllWritten(events[1..])
    ensures !Resets(events[0]) && NoReset(events[1..])
  {
  }

  lemma StepAppends(s: Session, e: Event)
    requires !Resets(e)
    ensures Step(s, e).log == s.log + Written(e)
  {
    StepLog(s, e);
  }

  /** Helper for `RunAppends`: concatenation regroups. */
  lemma SeqAssoc<T>(a: seq<T>, b: seq<T>, c: seq<T>)
    ensures a + b + c == a + (b + c)
  {
  }

  /** After a non-empty start the log holds exactly the entries written since. */
  lemma RunAfterStart(s: Session, fileCount: nat, events: seq<Event>)
    requires fileCount > 0
    requires NoReset(events)
    ensures Run(s, [Start(fileCount)] + events).log == AllWritten(events)
  {
    assert ([Start(fileCount)] + events)[1..] == events;
    RunAppends(Step(s, Start(fileCount)), events);
  }

  /** The state every reachable session is in: an open socket belongs to a
      recorded job. */
  predicate Consistent(s: Session) {
    SocketOpen(s) ==> s.jobId.Some?
  }

  lemma StepConsistent(s: Session, e: Event)
    requires Consistent(s)
    ensures Consistent(Step(s, e))
  {
  }

  lemma {:induction false} RunConsistent(s: Session, events: seq<Event>)
    requires Consistent(s)
    ensures Consistent(Run(s, events))
    decreases |events|
  {
    if events != [] {
      StepConsistent(s, events[0]);
      RunConsistent(Step(s, events[0]), events[1..]);
    }
  }

  /** Every session reachable from page load is consistent. */
  lemma ReachableConsistent(events: seq<Event>)
    ensures Consistent(Run(Initial, events))
  {
    RunConsistent(Initial, events);
  }

  // ---------------------------------------------------------------------------
  // Whole submissions

  /** A rejected trigger after a start leaves one ERROR entry, `FAILED`, no job
      id and no open socket. */
  lemma RejectedSubmission(s: Session, fileCount: nat, bodyMessage: Option<string>, httpStatus: nat)
    requires fileCount > 0
    ensures var r := Run(s, [Start(fileCount), TriggerFailed(bodyMessage, httpStatus)]);
      && r.status == Failed
      && r.log == [LogEntry(ERROR, StartFailurePrefix + "Error: " + RejectionReason(bodyMessage, httpStatus))]
      && r.jobId == None
      && !SocketOpen(r)
  {
    RunPair(s, Start(fileCount), TriggerFailed(bodyMessage, httpStatus));
  }

  /** A 500 answer whose body says "disk full". */
  lemma RejectedWithBodyMessage(s: Session)
    ensures Run(s, [Start(1), TriggerFailed(Some("disk full"), 500)]).log
      == [LogEntry(ERROR, StartFailurePrefix + "Error: disk full")]
  {
    RejectedSubmission(s, 1, Some("disk full"), 500);
    assert RejectionReason(Some("disk full"), 500) == "disk full";
    assert StartFailurePrefix + "Error: " + "disk full" == StartFailurePrefix + "Error: disk full";
  }

  /** An accepted trigger and an opened channel: `RUNNING`, the acknowledgment
      and the connection notice in that order, and a socket open on the job's
      address. */
  lemma AcceptedSubmission(s: Session, fileCount: nat, jobId: string, ack: string, page: Page)
    requires fileCount > 0
    ensures var r := Run(s, [Start(fileCount), TriggerOk(jobId, ack, page, Constructed), Opened(jobId)]);
      && r.status == Running
      && r.log == [LogEntry(INFO, ack), LogEntry(INFO, ConnectedPrefix + jobId)]
      && r.jobId == Some(jobId)
      && r.socket == Some(Socket(SocketUrl.BuildUrl(page.protocol, page.host, jobId), true))
  {
    RunTriple(s, Start(fileCount), TriggerOk(jobId, ack, page, Constructed), Opened(jobId));
  }

  /** Between the accepted trigger and the open event the status stays `PENDING`. */
  lemma PendingUntilOpened(s: Session, fileCount: nat, jobId: string, ack: string, page: Page)
    requires fileCount > 0
    ensures Run(s, [Start(fileCount), TriggerOk(jobId, ack, page, Constructed)]).status == Pending
  {
    RunPair(s, Start(fileCount), TriggerOk(jobId, ack, page, Constructed));
  }

  /** A channel reporting "success" in lower case finishes the job and the
      client closes the channel itself. */
  lemma SuccessFinishesJob(s: Session, message: string)
    ensures Step(s, Message(StatusMsg("success", message))).status == Success
    ensures !SocketOpen(Step(s, Message(StatusMsg("success", message))))
  {
  }
}
