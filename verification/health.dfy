/** The initial system-health snapshot the root layout loads: a decoded health
    response mapped into the display record, and a fallback record for every
    failure, so that the loader itself never fails. */
module Health {
  import opened Options
  import opened Text
  import opened JsValues

  datatype PostgresStatus = Connected | Disconnected | Connecting
  datatype SqliteStatus = Available | NotFound

  /** The display record; `error` is set only on the fallback path. */
  datatype SystemHealth = SystemHealth(
    postgresStatus: PostgresStatus,
    sqliteStatus: SqliteStatus,
    totalDocuments: int,
    totalChunks: int,
    error: Option<string>)

  /** The fields read from the decoded health response. A field that is absent
      or not a string reads as some string other than "OK". */
  datatype HealthData = HealthData(
    postgresStatus: string,
    graphDbStatus: string,
    documentCount: int,
    chunkCount: int)

  /** What the health request produced: a non-ok status, a decoded body, or an
      exception (the request failing, or the body not decoding). */
  datatype HealthResponse =
    | NotOk(httpStatus: nat)
    | Ok(data: HealthData)
    | Threw(error: Thrown)

  /** The layout data the loader returns. */
  datatype LayoutData = LayoutData(initialHealth: SystemHealth)

  const HealthFailurePrefix: string := "API Health Check failed with status "

  /** The success mapping: a status is reported up exactly when the backend says
      "OK", and the counts are copied unchanged. */
  function MapHealth(data: HealthData): (r: SystemHealth)
    ensures r.postgresStatus == Connected <==> data.postgresStatus == "OK"
    ensures r.postgresStatus == Disconnected <==> data.postgresStatus != "OK"
    ensures r.sqliteStatus == Available <==> data.graphDbStatus == "OK"
    ensures r.sqliteStatus == NotFound <==> data.graphDbStatus != "OK"
    ensures r.totalDocuments == data.documentCount && r.totalChunks == data.chunkCount
    ensures r.error == None
  {
    SystemHealth(
      if data.postgresStatus == "OK" then Connected else Disconnected,
      if data.graphDbStatus == "OK" then Available else NotFound,
      data.documentCount,
      data.chunkCount,
      None)
  }

  /** The record for any caught failure: everything down, zero counts, and the
      error's message (its `message` for an `Error`, `String(...)` otherwise). */
  function FallbackHealth(error: Thrown): (r: SystemHealth)
    ensures r.postgresStatus == Disconnected && r.sqliteStatus == NotFound
    ensures r.totalDocuments == 0 && r.totalChunks == 0
    ensures error.ErrorObject? ==> r.error == Some(error.message)
    ensures error.NonError? ==> r.error == Some(error.text)
  {
    SystemHealth(Disconnected, NotFound, 0, 0, Some(MessageOf(error)))
  }

  /** `fetchInitialHealth`: a non-ok status is thrown as an `Error` and caught
      like every other failure. */
  function FetchInitialHealth(response: HealthResponse): (r: SystemHealth)
    ensures r.error.None? <==> response.Ok?
    ensures response.Ok? ==> r == MapHealth(response.data)
    ensures !response.Ok? ==> r.postgresStatus == Disconnected && r.sqliteStatus == NotFound
    ensures !response.Ok? ==> r.totalDocuments == 0 && r.totalChunks == 0
    ensures response.NotOk? ==> r.error == Some(HealthFailurePrefix + NatToString(response.httpStatus))
    ensures response.Threw? ==> r == FallbackHealth(response.error)
    ensures response.Threw? ==> r.error == Some(MessageOf(response.error))
  {
    match response
    case Ok(data) => MapHealth(data)
    case NotOk(httpStatus) => FallbackHealth(NewError(HealthFailurePrefix + NatToString(httpStatus)))
    case Threw(error) => FallbackHealth(error)
  }

  /** `load`: always returns the layout data, never a failure. */
  function Load(response: HealthResponse): (r: LayoutData)
    ensures r.initialHealth.error.None? <==> response.Ok?
    ensures r.initialHealth.postgresStatus != Connecting
    ensures response.Ok? ==> r.initialHealth == MapHealth(response.data)
    ensures response.Threw? ==> r.initialHealth == FallbackHealth(response.error)
    ensures response.NotOk? ==>
      r.initialHealth.error == Some(HealthFailurePrefix + NatToString(response.httpStatus))
  {
    LayoutData(FetchInitialHealth(response))
  }

  /** Every failure, whatever its kind, ends in the one fallback shape: the
      record is `FallbackHealth` of some caught value, the one `fetchInitialHealth`
      would have caught had the failure been thrown directly. */
  lemma FailureIsFallback(response: HealthResponse)
    requires !response.Ok?
    ensures exists t :: Load(response).initialHealth == FallbackHealth(t)
  {
    if response.NotOk? {
      assert Load(response).initialHealth
        == FallbackHealth(NewError(HealthFailurePrefix + NatToString(response.httpStatus)));
    } else {
      assert Load(response).initialHealth == FallbackHealth(response.error);
    }
  }

  /** A non-ok answer yields the fallback whose error names the status code, and
      the code can be read back from the message. */
  lemma NotOkFallback(httpStatus: nat)
    ensures var h := Load(NotOk(httpStatus)).initialHealth;
      && h.postgresStatus == Disconnected && h.sqliteStatus == NotFound
      && h.totalDocuments == 0 && h.totalChunks == 0
      && h.error == Some(HealthFailurePrefix + NatToString(httpStatus))
      && HealthFailurePrefix <= h.error.value
      && ParseNat(h.error.value[|HealthFailurePrefix|..]) == Some(httpStatus)
  {
    var m := HealthFailurePrefix + NatToString(httpStatus);
    assert m[|HealthFailurePrefix|..] == NatToString(httpStatus);
    ParseNatToString(httpStatus);
  }

  /** Two non-ok answers with different codes are told apart by their records. */
  lemma NotOkDistinguishesStatus(m: nat, n: nat)
    requires Load(NotOk(m)) == Load(NotOk(n))
    ensures m == n
  {
    NotOkFallback(m);
    NotOkFallback(n);
  }
}
