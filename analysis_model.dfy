/** The analysis record and its status enumeration (the `analysisresult` table). */
module AnalysisModel {
  import opened Wrappers
  import opened JsonValue

  /** `AnalysisStatus`: the five states an analysis can be in. */
  datatype Status = Pending | Analyzing | Complete | Failed | Cancelled

  /** The enumeration's string value, as stored in the database and sent to clients. */
  function StatusValue(s: Status): string
  {
    match s
    case Pending => "PENDING"
    case Analyzing => "ANALYZING"
    case Complete => "COMPLETE"
    case Failed => "FAILED"
    case Cancelled => "CANCELLED"
  }

  /** `AnalysisStatus(v)`: the member whose value is `v`, if any. */
  function ParseStatus(v: string): (r: Option<Status>)
    ensures r.Some? ==> StatusValue(r.value) == v
  {
    if v == "PENDING" then Some(Pending)
    else if v == "ANALYZING" then Some(Analyzing)
    else if v == "COMPLETE" then Some(Complete)
    else if v == "FAILED" then Some(Failed)
    else if v == "CANCELLED" then Some(Cancelled)
    else None
  }

  /** Every member is found again from its value, so no two members share a value. */
  lemma StatusValueRoundTrip(s: Status)
    ensures ParseStatus(StatusValue(s)) == Some(s)
  {
  }

  /** `is_completed`: the analysis has reached a terminal status. */
  predicate IsCompleted(s: Status)
  {
    s in {Complete, Failed, Cancelled}
  }

  /** A status is terminal exactly when it is not one of the two running states. */
  lemma CompletedIffNotRunning(s: Status)
    ensures IsCompleted(s) <==> !(s == Pending || s == Analyzing)
    ensures IsCompleted(s) <==> (StatusValue(s) == "COMPLETE" || StatusValue(s) == "FAILED" || StatusValue(s) == "CANCELLED")
  {
  }

  /** One row of the analysis table. `created_at` is a clock reading taken as a number. */
  datatype AnalysisRecord = AnalysisRecord(
    id: string,
    imageId: string,
    aiModelId: string,
    status: Status,
    progress: real,
    confidence: Option<real>,
    resultsPayload: Option<map<string, Json>>,
    errorMessage: Option<string>,
    errorCode: Option<string>,
    processingTime: Option<real>,
    requestedBy: Option<string>,
    createdAt: int)

  /** A freshly inserted row: the column defaults apply to every field not given. */
  function NewAnalysis(id: string, imageId: string, modelId: string, requestedBy: Option<string>, createdAt: int): (r: AnalysisRecord)
    ensures r.id == id && r.imageId == imageId && r.aiModelId == modelId && r.requestedBy == requestedBy
    ensures r.status == Pending && r.progress == 0.0 && !IsCompleted(r.status)
    ensures r.confidence == None && r.resultsPayload == None && r.processingTime == None
    ensures r.errorMessage == None && r.errorCode == None
  {
    AnalysisRecord(id, imageId, modelId, Pending, 0.0, None, None, None, None, None, requestedBy, createdAt)
  }

  /** `set_results`: stores the payload and touches nothing else. */
  function SetResults(r: AnalysisRecord, results: map<string, Json>): (r': AnalysisRecord)
    ensures r'.resultsPayload == Some(results)
    ensures r'.(resultsPayload := r.resultsPayload) == r
  {
    r.(resultsPayload := Some(results))
  }

  /** `get_results`: the stored payload, or an empty mapping when none (or an empty one) is stored. */
  function GetResults(r: AnalysisRecord): (d: map<string, Json>)
    ensures r.resultsPayload == None ==> d == map[]
    ensures r.resultsPayload.Some? ==> d == r.resultsPayload.value
  {
    match r.resultsPayload
    case None => map[]
    case Some(p) => if p == map[] then map[] else p
  }

  /** What `set_results` stores, `get_results` gives back. */
  lemma SetThenGet(r: AnalysisRecord, results: map<string, Json>)
    ensures GetResults(SetResults(r, results)) == results
  {
  }
}
