/**
 * The analysis endpoints: starting an analysis (with its exception mapping), reading one,
 * listing them, and deleting one, which cancels a running analysis first.
 */
module AnalysisApi {
  import opened Wrappers
  import opened JsonValue
  import opened AnalysisModel
  import opened Messages
  import opened Store
  import opened WebSocketManager
  import opened Schemas
  import opened AnalysisService
  import Query

  // ---------------------------------------------------------------------------
  // POST /start

  /** `AnalysisStartResponse`. */
  datatype StartResponse = StartResponse(
    analysisId: string,
    status: Status,
    message: string,
    estimatedCompletionTime: nat,
    websocketUrl: string)

  /** `f"/ws/analysis/{request.user_id or 'guest'}"`: an absent or empty user id reads as "guest". */
  function WebsocketUrl(userId: Option<string>): (url: string)
    ensures userId.Some? && userId.value != "" ==> url == "/ws/analysis/" + userId.value
    ensures userId.None? || userId.value == "" ==> url == "/ws/analysis/guest"
  {
    "/ws/analysis/" + (if userId.Some? && userId.value != "" then userId.value else "guest")
  }

  /** The text of the `TypeError` the endpoint's call raises: the service takes no `websocket_manager`. */
  const UnexpectedKeyword := "AnalysisService.start_analysis() got an unexpected keyword argument 'websocket_manager'"

  /**
   * The endpoint as written: it calls the service with a keyword argument the service does
   * not declare, so the call raises `TypeError` before the service runs, and the generic
   * handler answers 500. Nothing is written, sent or scheduled, whatever the request.
   */
  function StartEndpointAsWritten(q: AnalysisRequest): (r: Result<StartResponse, HttpError>)
    ensures r.Failure? && r.error.status == 500
  {
    Failure(HttpError(500, "Failed to start analysis: " + UnexpectedKeyword))
  }

  /** What the endpoint answers when the service is called as declared. */
  function StartReply(d: Tables, q: AnalysisRequest, newId: string): (r: Result<StartResponse, HttpError>)
    ensures r.Failure? <==> StartCheck(d, q.imageId, q.modelId).Some?
    ensures r.Failure? ==> r.error == HttpError(400, StartCheck(d, q.imageId, q.modelId).value)
    ensures r.Success? ==>
      r.value.analysisId == newId && r.value.status == Pending && r.value.websocketUrl == WebsocketUrl(q.userId)
  {
    match StartCheck(d, q.imageId, q.modelId)
    case Some(e) => Failure(HttpError(400, e))
    case None =>
      Success(StartResponse(newId, Pending, "Analysis started successfully", 60, WebsocketUrl(q.userId)))
  }

  /**
   * The flaw of the endpoint as written: even a request that the service would accept
   * (the image exists and the model exists and is active) is answered 500, while the
   * endpoint that calls the service as declared starts the analysis.
   */
  lemma StartAlwaysFails(d: Tables, q: AnalysisRequest, newId: string)
    requires StartCheck(d, q.imageId, q.modelId).None?
    ensures StartEndpointAsWritten(q).Failure? && StartEndpointAsWritten(q).error.status == 500
    ensures StartReply(d, q, newId).Success?
  {
  }

  /**
   * `POST /api/v1/analysis/start`, with the service called as declared: a `ValueError` of
   * the service becomes 400 with its text; otherwise the analysis is created and
   * announced, its run is scheduled (`task`), and the start response is returned.
   */
  method StartEndpoint(db: Database, mgr: ConnectionManager, q: AnalysisRequest, newId: string, now: int,
                       failing: set<string>)
    returns (r: Result<StartResponse, HttpError>, task: Option<string>)
    requires db.Valid() && mgr.Valid() && newId !in db.analyses.rows
    modifies db, mgr
    ensures db.Valid() && mgr.Valid()
    ensures r == StartReply(old(db.State()), q, newId)
    ensures task == (if r.Success? then Some(newId) else None)
    ensures r.Failure? ==> db.State() == old(db.State()) && mgr.State() == old(mgr.State())
    ensures r.Success? ==>
      var rec := NewAnalysis(newId, q.imageId, q.modelId, q.userId, now);
      && db.State() == old(db.State()).(analyses := Put(old(db.analyses), newId, rec))
      && mgr.State() == Broadcasted(old(mgr.State()), NewAnalysisStarted(rec), failing)
  {
    var started := StartAnalysis(db, mgr, q.imageId, q.modelId, q.userId, newId, now, failing);
    match started
    case Failure(e) =>
      r := Failure(HttpError(400, e));
      task := None;
    case Success(analysis) =>
      r := Success(StartResponse(analysis.id, analysis.status, "Analysis started successfully", 60,
                                 WebsocketUrl(q.userId)));
      task := Some(analysis.id);
  }

  // ---------------------------------------------------------------------------
  // GET /{analysis_id}

  /** `GET /api/v1/analysis/{analysis_id}`: 404 for an unknown id, otherwise the record through the response checks. */
  function GetAnalysis(d: Tables, id: string): (r: Result<AnalysisRecord, HttpError>)
    ensures id !in d.analyses.rows <==> r == Failure(HttpError(404, "Analysis not found"))
    ensures r.Success? <==> id in d.analyses.rows && ResponseValid(d.analyses.rows[id])
    ensures r.Success? ==> r.value == d.analyses.rows[id]
    ensures r.Failure? && id in d.analyses.rows ==> r.error.status == 500
  {
    if id !in d.analyses.rows then Failure(HttpError(404, "Analysis not found"))
    else ValidateResponse(d.analyses.rows[id])
  }

  // ---------------------------------------------------------------------------
  // GET /

  /** The WHERE clauses of `list_analyses`: a status when one is given, the requester when the user id is non-empty. */
  predicate Matches(a: AnalysisRecord, status: Option<Status>, userId: Option<string>)
  {
    && (status.Some? ==> a.status == status.value)
    && (userId.Some? && userId.value != "" ==> a.requestedBy == userId)
  }

  function CreatedAt(a: AnalysisRecord): int
  {
    a.createdAt
  }

  /** Every record passes the response checks. */
  predicate AllValid(rows: seq<AnalysisRecord>)
  {
    forall k | 0 <= k < |rows| :: ResponseValid(rows[k])
  }

  /**
   * `GET /api/v1/analysis/`: the matching analyses, newest first, one page of them; 500
   * when one of them fails the response checks.
   */
  function ListAnalyses(d: Tables, skip: int, limit: int, status: Option<Status>, userId: Option<string>)
    : Result<seq<AnalysisRecord>, HttpError>
  {
    var page := Query.Listing(Scan(d.analyses), a => Matches(a, status, userId), CreatedAt, skip, limit);
    if AllValid(page) then Success(page) else Failure(HttpError(500, "Internal Server Error"))
  }

  /**
   * A listing returns stored analyses that match the filters, newest first, at most
   * `limit` of them; without paging it returns every matching analysis.
   */
  lemma ListAnalysesCorrect(d: Tables, skip: int, limit: int, status: Option<Status>, userId: Option<string>)
    requires TableOk(d.analyses)
    ensures var r := ListAnalyses(d, skip, limit, status, userId);
      && (r.Success? ==> forall a | a in r.value ::
            Matches(a, status, userId) && ResponseValid(a) && exists id | id in d.analyses.rows :: d.analyses.rows[id] == a)
      && (r.Success? ==> Query.SortedDesc(r.value, CreatedAt))
      && (r.Success? && 0 <= limit ==> |r.value| <= limit)
      && (r.Failure? ==> r.error.status == 500)
      && (r.Success? <==>
            forall a | a in Query.Listing(Scan(d.analyses), a => Matches(a, status, userId), CreatedAt, skip, limit) ::
              ResponseValid(a))
  {
    var rows := Scan(d.analyses);
    var keep := a => Matches(a, status, userId);
    Query.ListingCorrect(rows, keep, CreatedAt, skip, limit);
    ScanMembers(d.analyses);
    var page := Query.Listing(rows, keep, CreatedAt, skip, limit);
    forall a | a in page
      ensures ResponseValid(a) || !AllValid(page)
    {
      var k :| 0 <= k < |page| && page[k] == a;
    }
  }

  /** A listing over a store whose analyses all pass the response checks always succeeds. */
  lemma ListAnalysesSucceeds(d: Tables, skip: int, limit: int, status: Option<Status>, userId: Option<string>)
    requires TableOk(d.analyses)
    requires forall id | id in d.analyses.rows :: ResponseValid(d.analyses.rows[id])
    ensures ListAnalyses(d, skip, limit, status, userId).Success?
  {
    var rows := Scan(d.analyses);
    var keep := a => Matches(a, status, userId);
    Query.ListingCorrect(rows, keep, CreatedAt, skip, limit);
    ScanMembers(d.analyses);
    var page := Query.Listing(rows, keep, CreatedAt, skip, limit);
    forall k | 0 <= k < |page|
      ensures ResponseValid(page[k])
    {
      assert page[k] in page;
    }
  }

  /** Without paging and with valid records, an analysis is listed exactly when it is stored and matches. */
  lemma ListAnalysesMembers(d: Tables, status: Option<Status>, userId: Option<string>, id: string)
    requires TableOk(d.analyses) && id in d.analyses.rows
    requires ListAnalyses(d, 0, -1, status, userId).Success?
    ensures d.analyses.rows[id] in ListAnalyses(d, 0, -1, status, userId).value <==>
      Matches(d.analyses.rows[id], status, userId)
  {
    ScanMembers(d.analyses);
    Query.ListingMembers(Scan(d.analyses), a => Matches(a, status, userId), CreatedAt, d.analyses.rows[id]);
  }

  // ---------------------------------------------------------------------------
  // DELETE /{analysis_id}

  /** A running analysis (PENDING or ANALYZING) is cancelled before it is deleted; any other is left as it is. */
  function CancelForDelete(a: AnalysisRecord): (c: AnalysisRecord)
    ensures a.status in {Pending, Analyzing} ==>
      && c.status == Cancelled && c.errorCode == Some("USER_DELETED")
      && c.errorMessage == Some("Analysis cancelled and deleted by user")
      && c.(status := a.status, errorCode := a.errorCode, errorMessage := a.errorMessage) == a
    ensures a.status !in {Pending, Analyzing} ==> c == a
  {
    if a.status == Pending || a.status == Analyzing then
      a.(status := Cancelled, errorMessage := Some("Analysis cancelled and deleted by user"),
         errorCode := Some("USER_DELETED"))
    else a
  }

  /** The update sent to the subscribers of a cancelled analysis. */
  const CancelData: Json := JObj(map["status" := JStr("CANCELLED"), "message" := JStr("Analysis cancelled and deleted"),
                                      "error_code" := JStr("USER_DELETED")])

  /** The manager after the cancellation update, when there is one. */
  function AfterCancel(r: Registry, a: AnalysisRecord, failing: set<string>): Registry
  {
    if a.status == Pending || a.status == Analyzing then Updated(r, a.id, CancelData, failing) else r
  }

  /**
   * `DELETE /api/v1/analysis/{analysis_id}`: 404 for an unknown id. Otherwise a running
   * analysis is cancelled and its subscribers told, the record is deleted, and the deleted
   * record is announced to every client; when the record fails the response checks the
   * deletion stands but the announcement is not made and the answer is 500.
   */
  method DeleteAnalysis(db: Database, mgr: ConnectionManager, id: string, failing: set<string>)
    returns (r: Result<string, HttpError>)
    requires db.Valid() && mgr.Valid()
    modifies db, mgr
    ensures db.Valid() && mgr.Valid()
    ensures id !in old(db.analyses.rows) ==>
      && r == Failure(HttpError(404, "Analysis not found"))
      && db.State() == old(db.State()) && mgr.State() == old(mgr.State())
    ensures id in old(db.analyses.rows) ==>
      var a := old(db.analyses.rows[id]);
      var c := CancelForDelete(a);
      && db.State() == old(db.State()).(analyses := Delete(old(db.analyses), id))
      && (ResponseValid(c) ==>
            r == Success("Analysis deleted successfully")
            && mgr.State() == Broadcasted(AfterCancel(old(mgr.State()), a, failing), AnalysisDeleted(c), failing))
      && (!ResponseValid(c) ==>
            r == Failure(HttpError(500, "Internal Server Error"))
            && mgr.State() == AfterCancel(old(mgr.State()), a, failing))
  {
    if id !in db.analyses.rows {
      return Failure(HttpError(404, "Analysis not found"));
    }
    var analysis := db.analyses.rows[id];
    assert analysis.id == id;
    if analysis.status == Pending || analysis.status == Analyzing {
      analysis := CancelForDelete(analysis);
      mgr.SendAnalysisUpdate(id, CancelData, failing);
    }
    DeleteAnalysisConsistent(db.State(), id);
    db.analyses := Delete(db.analyses, id);
    var checked := ValidateResponse(analysis);
    if checked.Failure? {
      return Failure(checked.error);
    }
    mgr.Broadcast(AnalysisDeleted(analysis), failing);
    r := Success("Analysis deleted successfully");
  }

  /** Deleting leaves the analysis in a terminal status in the announcement, and only a running one is changed. */
  lemma DeletedIsFinal(a: AnalysisRecord)
    ensures IsCompleted(CancelForDelete(a).status)
    ensures CancelForDelete(a).status == (if IsCompleted(a.status) then a.status else Cancelled)
    ensures SameAnalysis(CancelForDelete(a), a)
  {
    CompletedIffNotRunning(a.status);
  }

  /** Only a running analysis's subscribers hear about the deletion before the broadcast. */
  lemma CancelUpdateOnlyWhenRunning(r: Registry, a: AnalysisRecord, failing: set<string>)
    ensures IsCompleted(a.status) ==> AfterCancel(r, a, failing) == r
    ensures !IsCompleted(a.status) ==> AfterCancel(r, a, failing) == Updated(r, a.id, CancelData, failing)
  {
    CompletedIffNotRunning(a.status);
  }
}
