/** The ingestion job-lifecycle client as a pure state machine. The client keeps
    three observable stores (status, log, current job id) and one socket
    variable, and mutates them from `startIngestion`, from the continuation of
    its HTTP call and from the socket's open/message/error/close callbacks.
    Here the four are one immutable `Session`, and every callback is one case
    of `Event`, applied by `Step`. */
module Ingestion {
  import opened Options
  import opened Text
  import opened JsValues
  import SocketUrl

  // ---------------------------------------------------------------------------
  // Data model

  /** The status store. The message handler stores whatever upper-cased string
      the server sends, so a name outside the five is kept as `Unrecognized`. */
  datatype Status = Idle | Pending | Running | Success | Failed | Unrecognized(name: string)

  /** The five names the status type lists. */
  predicate IsStatusName(s: string) {
    s == "IDLE" || s == "PENDING" || s == "RUNNING" || s == "SUCCESS" || s == "FAILED"
  }

  /** A status value as the store can hold it: `Unrecognized` never hides one of the five names. */
  predicate WellFormedStatus(st: Status) {
    st.Unrecognized? ==> !IsStatusName(st.name)
  }

  /** The status values the store can hold. */
  type StoredStatus = st: Status | WellFormedStatus(st) witness Idle

  /** The string the store holds for `st`. */
  function StatusName(st: Status): string {
    match st
    case Idle => "IDLE"
    case Pending => "PENDING"
    case Running => "RUNNING"
    case Success => "SUCCESS"
    case Failed => "FAILED"
    case Unrecognized(name) => name
  }

  /** The status value for a stored string. */
  function ParseStatus(s: string): (st: StoredStatus)
    ensures WellFormedStatus(st)
    ensures st.Unrecognized? <==> !IsStatusName(s)
  {
    if s == "IDLE" then Idle
    else if s == "PENDING" then Pending
    else if s == "RUNNING" then Running
    else if s == "SUCCESS" then Success
    else if s == "FAILED" then Failed
    else Unrecognized(s)
  }

  /** The stored string and the status value determine each other. */
  lemma StatusNameRoundTrip(s: string, st: Status)
    ensures StatusName(ParseStatus(s)) == s
    ensures WellFormedStatus(st) ==> ParseStatus(StatusName(st)) == st
  {
  }

  /** `SUCCESS` and `FAILED`: the statuses after which the client closes the channel. */
  predicate IsTerminal(st: Status) {
    st == Success || st == Failed
  }

  /** `RUNNING` and `PENDING`: the statuses a close reverts to `IDLE`. */
  predicate InFlight(st: Status) {
    st == Running || st == Pending
  }

  const INFO: string := "INFO"
  const ERROR: string := "ERROR"

  /** One log entry. The level is a string because the log-message handler
      stores whatever upper-cased level arrives. The entry's timestamp is a clock
      read and is not modelled. */
  datatype LogEntry = LogEntry(level: string, message: string)

  /** The socket variable: the address it was opened on, and whether it is still
      open (neither closed by the client nor reported closed by its own close
      event). A socket is told apart from an earlier one by its address. */
  datatype Socket = Socket(url: string, open: bool)

  /** Everything the client holds: the three stores and the socket variable. */
  datatype Session = Session(
    status: StoredStatus,
    log: seq<LogEntry>,
    jobId: Option<string>,
    socket: Option<Socket>)

  /** The state at page load. */
  const Initial: Session := Session(Idle, [], None, None)

  /** The page location the channel address is built from. */
  datatype Page = Page(protocol: string, host: string)

  /** The outcome of `new WebSocket(url)`. */
  datatype Construction = Constructed | ConstructFailed(error: Thrown)

  /** A decoded channel message. */
  datatype Payload =
    | LogMsg(level: string, message: string)
    | StatusMsg(status: string, message: string)
    | OtherMsg

  /** Everything that can happen to the session. `TriggerFailed` is a non-ok
      response to the ingestion request; its body message is `None` when the
      body did not parse, and the empty string when it parsed without a
      (truthy) `message`. `TriggerThrew` is the request or its success body
      failing with an exception. `TriggerOk` is a successful response together
      with the page location and the socket constructor's outcome, which the
      client uses synchronously right after. `Opened` carries the job id the
      socket's handlers were created for, and `Closed` the address of the socket
      that closed, which may be an earlier socket than the one the socket
      variable now holds. */
  datatype Event =
    | Start(fileCount: nat)
    | TriggerFailed(bodyMessage: Option<string>, httpStatus: nat)
    | TriggerThrew(error: Thrown)
    | TriggerOk(jobId: string, ack: string, page: Page, construction: Construction)
    | Opened(jobId: string)
    | Message(payload: Payload)
    | TransportError
    | Closed(url: string)

  // ---------------------------------------------------------------------------
  // Log messages the client writes

  const StartFailurePrefix: string := "Échec du démarrage de l'ingestion : "
  const ConstructFailurePrefix: string := "Échec de la construction du WebSocket : "
  const UnknownError: string := "An unknown error occurred"
  const HttpErrorPrefix: string := "HTTP error! status: "
  const ConnectedPrefix: string := "Connecté au flux de logs pour le job "
  const StatusPrefix: string := "Nouveau statut : "
  const StatusSeparator: string := " - "
  const JobDoneMessage: string := "Job terminé. Fermeture de la connexion WebSocket."
  const TransportErrorMessage: string := "Erreur de connexion avec le serveur de logs."
  const ClosedMessage: string := "Connexion au flux de logs terminée."

  // ---------------------------------------------------------------------------
  // Operations

  /** Appends one entry and touches nothing else. */
  function AddLog(s: Session, level: string, message: string): (r: Session)
    ensures |r.log| == |s.log| + 1
    ensures r.log[..|s.log|] == s.log
    ensures r.log[|s.log|] == LogEntry(level, message)
    ensures r.status == s.status && r.jobId == s.jobId && r.socket == s.socket
  {
    s.(log := s.log + [LogEntry(level, message)])
  }

  /** `socket.close()` on the socket variable, if it holds one. The variable
      keeps referring to the closed socket. */
  function CloseSocket(socket: Option<Socket>): (r: Option<Socket>)
    ensures r.Some? <==> socket.Some?
    ensures r.Some? ==> r.value.url == socket.value.url && !r.value.open
  {
    match socket
    case None => None
    case Some(sock) => Some(sock.(open := false))
  }

  /** The socket variable holds a socket that is still open. */
  predicate SocketOpen(s: Session) {
    s.socket.Some? && s.socket.value.open
  }

  /** The synchronous part of `startIngestion`: an empty batch returns at once;
      otherwise the stores are reset and any socket is closed before the
      request is sent. */
  function StartIngestion(s: Session, fileCount: nat): (r: Session)
    ensures fileCount == 0 ==> r == s
    ensures fileCount > 0 ==>
      && r.status == Pending && r.log == [] && r.jobId == None
      && !SocketOpen(r)
      && (r.socket.Some? <==> s.socket.Some?)
  {
    if fileCount == 0 then s
    else Session(Pending, [], None, CloseSocket(s.socket))
  }

  /** The `catch` block of `startIngestion`: one ERROR entry carrying `String(error)`, then `FAILED`. */
  function CatchStartError(s: Session, error: Thrown): (r: Session)
    ensures r.log == s.log + [LogEntry(ERROR, StartFailurePrefix + ToText(error))]
    ensures r.status == Failed
    ensures r.jobId == s.jobId && r.socket == s.socket
  {
    AddLog(s, ERROR, StartFailurePrefix + ToText(error)).(status := Failed)
  }

  /** The message of the error thrown for a non-ok response: the body's message,
      the fixed unknown-error text when the body did not parse, and the HTTP
      status when the message is empty. */
  function RejectionReason(bodyMessage: Option<string>, httpStatus: nat): (reason: string)
    ensures reason != ""
    ensures bodyMessage == None ==> reason == UnknownError
    ensures bodyMessage.Some? && bodyMessage.value != "" ==> reason == bodyMessage.value
    ensures bodyMessage == Some("") ==> reason == HttpErrorPrefix + NatToString(httpStatus)
    ensures bodyMessage == Some("") ==>
      && HttpErrorPrefix <= reason
      && ParseNat(reason[|HttpErrorPrefix|..]) == Some(httpStatus)
  {
    var message := bodyMessage.GetOr(UnknownError);
    if message != "" then message
    else
      ParseNatToString(httpStatus);
      var reason := HttpErrorPrefix + NatToString(httpStatus);
      assert reason[|HttpErrorPrefix|..] == NatToString(httpStatus);
      reason
  }

  /** A non-ok response to the ingestion request. */
  function TriggerRejected(s: Session, bodyMessage: Option<string>, httpStatus: nat): (r: Session)
    ensures r.log == s.log + [LogEntry(ERROR, StartFailurePrefix + "Error: " + RejectionReason(bodyMessage, httpStatus))]
    ensures r.status == Failed
    ensures r.jobId == s.jobId && r.socket == s.socket
  {
    var reason := RejectionReason(bodyMessage, httpStatus);
    NewErrorText(reason);
    assert StartFailurePrefix + ToText(NewError(reason)) == StartFailurePrefix + "Error: " + reason;
    CatchStartError(s, NewError(reason))
  }

  /** `connectToJobStatus`: builds the channel address and records the new socket,
      or, when the constructor throws, logs one ERROR entry and sets `FAILED`
      leaving the socket variable as it was. */
  function ConnectToJobStatus(s: Session, jobId: string, page: Page, construction: Construction): (r: Session)
    ensures r.jobId == s.jobId
    ensures construction.Constructed? ==>
      && r.socket == Some(Socket(SocketUrl.BuildUrl(page.protocol, page.host, jobId), true))
      && r.status == s.status && r.log == s.log
    ensures construction.ConstructFailed? ==>
      && r.socket == s.socket && r.status == Failed
      && r.log == s.log + [LogEntry(ERROR, ConstructFailurePrefix + MessageOf(construction.error))]
  {
    var url := SocketUrl.BuildUrl(page.protocol, page.host, jobId);
    match construction
    case Constructed => s.(socket := Some(Socket(url, true)))
    case ConstructFailed(error) =>
      AddLog(s, ERROR, ConstructFailurePrefix + MessageOf(error)).(status := Failed)
  }

  /** A successful response: record the job id, log the acknowledgment, connect. */
  function TriggerAccepted(s: Session, jobId: string, ack: string, page: Page, construction: Construction): (r: Session)
    ensures r.jobId == Some(jobId)
    ensures construction.Constructed? ==>
      && r.log == s.log + [LogEntry(INFO, ack)]
      && r.status == s.status
      && r.socket == Some(Socket(SocketUrl.BuildUrl(page.protocol, page.host, jobId), true))
    ensures construction.ConstructFailed? ==>
      && r.log == s.log + [LogEntry(INFO, ack), LogEntry(ERROR, ConstructFailurePrefix + MessageOf(construction.error))]
      && r.status == Failed
      && r.socket == s.socket
  {
    var s1 := AddLog(s.(jobId := Some(jobId)), INFO, ack);
    ConnectToJobStatus(s1, jobId, page, construction)
  }

  /** `onopen`: `RUNNING`, and one INFO entry naming the job. */
  function OnOpen(s: Session, jobId: string): (r: Session)
    ensures r.status == Running
    ensures r.log == s.log + [LogEntry(INFO, ConnectedPrefix + jobId)]
    ensures r.jobId == s.jobId && r.socket == s.socket
  {
    AddLog(s.(status := Running), INFO, ConnectedPrefix + jobId)
  }

  /** `onmessage` on a decoded payload. */
  function OnMessage(s: Session, payload: Payload): (r: Session)
    ensures r.jobId == s.jobId
    ensures payload.LogMsg? ==>
      r == s.(log := s.log + [LogEntry(ToUpper(payload.level), payload.message)])
    ensures payload.StatusMsg? ==>
      && r.status == ParseStatus(ToUpper(payload.status))
      && |r.log| >= |s.log| + 1
      && r.log[..|s.log| + 1] == s.log + [LogEntry(INFO, StatusPrefix + payload.status + StatusSeparator + payload.message)]
    ensures payload.StatusMsg? && !IsTerminal(ParseStatus(ToUpper(payload.status))) ==>
      && r.log == s.log + [LogEntry(INFO, StatusPrefix + payload.status + StatusSeparator + payload.message)]
      && r.socket == s.socket
    ensures payload.StatusMsg? && IsTerminal(ParseStatus(ToUpper(payload.status))) ==>
      r.socket == CloseSocket(s.socket)
    ensures payload.OtherMsg? ==> r == s
  {
    match payload
    case LogMsg(level, message) => AddLog(s, ToUpper(level), message)
    case StatusMsg(status, message) =>
      var newStatus := ParseStatus(ToUpper(status));
      var s1 := AddLog(s.(status := newStatus), INFO, StatusPrefix + status + StatusSeparator + message);
      if IsTerminal(newStatus) then
        AddLog(s1, INFO, JobDoneMessage).(socket := CloseSocket(s1.socket))
      else s1
    case OtherMsg => s
  }

  /** `onerror`: one ERROR entry and `FAILED`; the socket is not closed here. */
  function OnError(s: Session): (r: Session)
    ensures r.status == Failed
    ensures r.log == s.log + [LogEntry(ERROR, TransportErrorMessage)]
    ensures r.jobId == s.jobId && r.socket == s.socket
  {
    AddLog(s, ERROR, TransportErrorMessage).(status := Failed)
  }

  /** `onclose`: one INFO entry; an in-flight status reverts to `IDLE`, any
      other stays. The handler does not touch the socket variable: it is closed
      only when the socket that reported the close is the one it holds. */
  function OnClose(s: Session, url: string): (r: Session)
    ensures r.log == s.log + [LogEntry(INFO, ClosedMessage)]
    ensures InFlight(s.status) ==> r.status == Idle
    ensures !InFlight(s.status) ==> r.status == s.status
    ensures r.jobId == s.jobId
    ensures s.socket.Some? && s.socket.value.url == url ==> !SocketOpen(r)
    ensures s.socket.Some? && s.socket.value.url == url ==> r.socket.Some? && r.socket.value.url == url
    ensures !(s.socket.Some? && s.socket.value.url == url) ==> r.socket == s.socket
  {
    var closedHeld := s.socket.Some? && s.socket.value.url == url;
    AddLog(s, INFO, ClosedMessage).(
      status := if InFlight(s.status) then Idle else s.status,
      socket := if closedHeld then CloseSocket(s.socket) else s.socket)
  }

  /** The session after one event. Only a start may drop log entries, only a
      start or an accepted trigger may change the job id, and an open socket
      stays tied to a recorded job. */
  function Step(s: Session, e: Event): (r: Session)
    ensures !e.Start? ==> s.log <= r.log
    ensures r.jobId != s.jobId ==> e.Start? || e.TriggerOk?
    ensures (SocketOpen(s) ==> s.jobId.Some?) ==> (SocketOpen(r) ==> r.jobId.Some?)
  {
    match e
    case Start(fileCount) => StartIngestion(s, fileCount)
    case TriggerFailed(bodyMessage, httpStatus) => TriggerRejected(s, bodyMessage, httpStatus)
    case TriggerThrew(error) => CatchStartError(s, error)
    case TriggerOk(jobId, ack, page, construction) => TriggerAccepted(s, jobId, ack, page, construction)
    case Opened(jobId) => OnOpen(s, jobId)
    case Message(payload) => OnMessage(s, payload)
    case TransportError => OnError(s)
    case Closed(url) => OnClose(s, url)
  }
}
