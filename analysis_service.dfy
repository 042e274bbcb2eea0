/**
 * `AnalysisService`: starting an analysis, the mock inference run that moves it through
 * its statuses, and the two ways a run can fail. What `random` and `asyncio.sleep` would
 * decide is given as a `Plan`; the manager a run reports to may be absent (`None`).
 */
module AnalysisService {
  import opened Wrappers
  import opened JsonValue
  import opened AnalysisModel
  import opened Messages
  import opened Store
  import opened WebSocketManager
  import Config
  import Schemas
  import opened Text

  // ---------------------------------------------------------------------------
  // Starting an analysis

  /** The validation of `start_analysis`, in its order: image, model, model active. `None` when all pass. */
  function StartCheck(d: Tables, imageId: string, modelId: string): Option<string>
  {
    if imageId !in d.images.rows then Some("Image " + imageId + " not found")
    else if modelId !in d.models then Some("AI Model " + modelId + " not found")
    else if !d.models[modelId].isActive then
      Some("AI Model " + d.models[modelId].name + " v" + d.models[modelId].version + " is not active")
    else None
  }

  /** The checks pass exactly when image and model exist and the model is active; the first failing one is reported. */
  lemma StartCheckOrder(d: Tables, imageId: string, modelId: string)
    ensures StartCheck(d, imageId, modelId).None? <==>
      imageId in d.images.rows && modelId in d.models && d.models[modelId].isActive
    ensures imageId !in d.images.rows ==> StartCheck(d, imageId, modelId) == Some("Image " + imageId + " not found")
    ensures imageId in d.images.rows && modelId !in d.models ==>
      StartCheck(d, imageId, modelId) == Some("AI Model " + modelId + " not found")
  {
  }

  /**
   * `start_analysis`: after the checks, one PENDING analysis is inserted and announced to
   * every connected client. A failed check raises `ValueError` (here `Failure(text)`)
   * before anything is written or sent. `newId` is the id the database generates.
   */
  method StartAnalysis(db: Database, mgr: ConnectionManager, imageId: string, modelId: string,
                       userId: Option<string>, newId: string, now: int, failing: set<string>)
    returns (r: Result<AnalysisRecord, string>)
    requires db.Valid() && mgr.Valid() && newId !in db.analyses.rows
    modifies db, mgr
    ensures db.Valid() && mgr.Valid()
    ensures StartCheck(old(db.State()), imageId, modelId).Some? ==>
      && r == Failure(StartCheck(old(db.State()), imageId, modelId).value)
      && db.State() == old(db.State()) && mgr.State() == old(mgr.State())
    ensures StartCheck(old(db.State()), imageId, modelId).None? ==>
      && r == Success(NewAnalysis(newId, imageId, modelId, userId, now))
      && db.State() == old(db.State()).(analyses := Put(old(db.analyses), newId, r.value))
      && mgr.State() == Broadcasted(old(mgr.State()), NewAnalysisStarted(r.value), failing)
  {
    var check := StartCheck(db.State(), imageId, modelId);
    if check.Some? {
      return Failure(check.value);
    }
    var analysis := NewAnalysis(newId, imageId, modelId, userId, now);
    PutOk(db.analyses, newId, analysis);
    db.analyses := Put(db.analyses, newId, analysis);
    mgr.Broadcast(NewAnalysisStarted(analysis), failing);
    r := Success(analysis);
  }

  // ---------------------------------------------------------------------------
  // The mock run, on values

  /** The progress values of the loop, after the initial 5. */
  const ProgressSteps: seq<nat> := [20, 40, 60, 80, 95]

  /** The confidence used when the results carry none. */
  const DefaultConfidence: real := 0.85

  /** `_simulate_analysis_failure`'s scenarios: error code and message. */
  const Scenarios: seq<(string, string)> := [
    ("MODEL_ERROR", "Model inference failed due to corrupted weights"),
    ("MEMORY_ERROR", "Insufficient GPU memory for processing"),
    ("FORMAT_ERROR", "Unsupported image format or corrupted file"),
    ("TIMEOUT_ERROR", "Analysis timed out after maximum processing time")
  ]

  /** How a run that is not interrupted ends: with these results, or with scenario `scenario`. */
  datatype Outcome = Succeeds(results: map<string, Json>) | Fails(scenario: nat)

  /** An exception raised in stage `stage` before it commits anything (after its sleep, for a progress step), with its text. */
  datatype Crash = Crash(stage: nat, text: string)

  /**
   * What the random draws and the environment decide for one run: the total time
   * (`random.randint`), whether it fails and how (`random.random`, `random.choice`),
   * the results (`_generate_mock_results`), and an exception, if one interrupts it.
   * The run has seven stages: 0 starts it, 1 to 5 are the progress steps, 6 ends it.
   */
  datatype Plan = Plan(totalTime: nat, outcome: Outcome, crash: Option<Crash>)

  /** What the random sources can produce. */
  predicate PlanOk(p: Plan)
  {
    && Config.MinProcessingTime <= p.totalTime <= Config.MaxProcessingTime
    && (p.outcome.Fails? ==> p.outcome.scenario < |Scenarios|)
    && (p.outcome.Succeeds? && "confidence_score" in p.outcome.results ==>
          p.outcome.results["confidence_score"].JNum?)
    && (p.crash.Some? ==> p.crash.value.stage <= 6)
  }

  /** `results.get("confidence_score", 0.85)`. */
  function Confidence(results: map<string, Json>): real
  {
    if "confidence_score" in results && results["confidence_score"].JNum? then results["confidence_score"].n
    else DefaultConfidence
  }

  /** The record after stage `k` changed it. */
  function StageRecord(rec: AnalysisRecord, k: nat, p: Plan): AnalysisRecord
    requires k <= 6 && PlanOk(p)
  {
    if k == 0 then rec.(status := Analyzing, progress := 5.0)
    else if k <= 5 then rec.(progress := ProgressSteps[k - 1] as real)
    else match p.outcome
      case Succeeds(res) =>
        rec.(status := Complete, progress := 100.0, confidence := Some(Confidence(res)),
             resultsPayload := Some(res), processingTime := Some(p.totalTime as real))
      case Fails(i) =>
        rec.(status := Failed, errorCode := Some(Scenarios[i].0), errorMessage := Some(Scenarios[i].1),
             progress := 0.0)
  }

  /** The data of the update stage `k` sends, given the record after it. */
  function StageData(after: AnalysisRecord, k: nat, p: Plan): Json
    requires k <= 6 && PlanOk(p)
  {
    var status := JStr(StatusValue(after.status));
    if k == 0 then
      JObj(map["status" := status, "progress" := JNum(after.progress), "message" := JStr("Starting analysis...")])
    else if k <= 5 then
      var step := ProgressSteps[k - 1];
      JObj(map["status" := status, "progress" := JNum(step as real),
               "message" := JStr("Processing... " + Decimal(step) + "%")])
    else match p.outcome
      case Succeeds(res) =>
        JObj(map["status" := status, "progress" := JNum(100.0), "message" := JStr("Analysis complete!"),
                 "results" := JObj(res), "confidence_score" := JNum(Confidence(res))])
      case Fails(i) =>
        JObj(map["status" := status, "progress" := JNum(0.0), "error" := JStr(Scenarios[i].1),
                 "error_code" := JStr(Scenarios[i].0)])
  }

  /** The progress after each of the stages 0 to 5. */
  const StageProgress: seq<real> := [5.0, 20.0, 40.0, 60.0, 80.0, 95.0]

  /** The record after the first `n` stages: ANALYZING at its stage's progress while running, then the outcome. */
  function After(rec: AnalysisRecord, n: nat, p: Plan): AnalysisRecord
    requires n <= 7 && PlanOk(p)
  {
    if n == 0 then rec
    else if n <= 6 then rec.(status := Analyzing, progress := StageProgress[n - 1])
    else StageRecord(rec.(status := Analyzing, progress := StageProgress[5]), 6, p)
  }

  /** The updates the first `n` stages send, in order. */
  function StageUpdates(rec: AnalysisRecord, n: nat, p: Plan): (ds: seq<Json>)
    requires n <= 7 && PlanOk(p)
    ensures |ds| == n
  {
    seq(n, k requires 0 <= k < n => StageData(After(rec, k + 1, p), k, p))
  }

  /** `_handle_analysis_error`'s change: FAILED with a system error, progress and results as they were. */
  function Crashed(rec: AnalysisRecord, text: string): AnalysisRecord
  {
    rec.(status := Failed, errorMessage := Some("Unexpected error: " + text), errorCode := Some("SYSTEM_ERROR"))
  }

  /** The update `_handle_analysis_error` sends. */
  function CrashData(crashed: AnalysisRecord): Json
  {
    JObj(map["status" := JStr(StatusValue(crashed.status)),
             "error" := JStr(if crashed.errorMessage.Some? then crashed.errorMessage.value else ""),
             "error_code" := JStr("SYSTEM_ERROR")])
  }

  /** How many stages complete. */
  function StagesRun(p: Plan): nat
  {
    if p.crash.Some? then p.crash.value.stage else 7
  }

  /** The record when the run is over. */
  function FinalRecord(rec: AnalysisRecord, p: Plan): AnalysisRecord
    requires PlanOk(p)
  {
    var r := After(rec, StagesRun(p), p);
    if p.crash.Some? then Crashed(r, p.crash.value.text) else r
  }

  /** Every update the run sends, in order. */
  function RunUpdates(rec: AnalysisRecord, p: Plan): seq<Json>
    requires PlanOk(p)
  {
    StageUpdates(rec, StagesRun(p), p) + (if p.crash.Some? then [CrashData(FinalRecord(rec, p))] else [])
  }

  /** `n` copies of `t`. */
  function Repeat(t: real, n: nat): (r: seq<real>)
    ensures |r| == n
  {
    if n == 0 then [] else Repeat(t, n - 1) + [t]
  }

  /** The progress steps that were entered, each of which sleeps `total_time / 5` first. */
  function Sleeps(p: Plan): seq<real>
  {
    var n := StagesRun(p);
    var steps := if n >= 5 then 5 else n;
    Repeat(p.totalTime as real / (|ProgressSteps| as real), steps)
  }

  /** `send_analysis_update` for each of the updates, in order. */
  function UpdatedAll(r: Registry, a: string, ds: seq<Json>, failing: set<string>): Registry
  {
    if ds == [] then r else Updated(UpdatedAll(r, a, ds[..|ds| - 1], failing), a, ds[|ds| - 1], failing)
  }

  // ---------------------------------------------------------------------------
  // Properties of the run

  /** The fields a run never touches. */
  predicate SameAnalysis(a: AnalysisRecord, b: AnalysisRecord)
  {
    a.id == b.id && a.imageId == b.imageId && a.aiModelId == b.aiModelId
    && a.requestedBy == b.requestedBy && a.createdAt == b.createdAt
  }

  /**
   * The record after `n + 1` stages is stage `n` applied to the record after `n`, and the
   * updates of the first `n + 1` stages are those of the first `n` and then stage `n`'s:
   * running the stages one by one gives the records and updates described above.
   */
  lemma StageStep(start: AnalysisRecord, n: nat, p: Plan)
    requires n < 7 && PlanOk(p)
    ensures After(start, n + 1, p) == StageRecord(After(start, n, p), n, p)
    ensures StageUpdates(start, n + 1, p) == StageUpdates(start, n, p) + [StageData(After(start, n + 1, p), n, p)]
  {
    if 1 <= n <= 5 {
      assert StageProgress[n] == ProgressSteps[n - 1] as real;
    }
    assert StageUpdates(start, n + 1, p)[..n] == StageUpdates(start, n, p);
  }

  lemma AfterSame(rec: AnalysisRecord, n: nat, p: Plan)
    requires n <= 7 && PlanOk(p)
    ensures SameAnalysis(After(rec, n, p), rec)
  {
  }

  /** The run changes the analysis's status and results, never which analysis it is. */
  lemma FinalSame(rec: AnalysisRecord, p: Plan)
    requires PlanOk(p)
    ensures SameAnalysis(FinalRecord(rec, p), rec)
  {
    AfterSame(rec, StagesRun(p), p);
  }

  /**
   * While it runs the analysis is ANALYZING, with progress 5, 20, 40, 60, 80 and 95
   * after the stages 0 to 5, and with no error recorded beyond what it had.
   */
  lemma RunAnalyzing(rec: AnalysisRecord, n: nat, p: Plan)
    requires 1 <= n <= 6 && PlanOk(p)
    ensures After(rec, n, p).status == Analyzing
    ensures After(rec, n, p).progress == [5.0, 20.0, 40.0, 60.0, 80.0, 95.0][n - 1]
    ensures After(rec, n, p).(status := rec.status, progress := rec.progress) == rec
  {
  }

  /** Progress only grows while the analysis runs. */
  lemma ProgressGrows(rec: AnalysisRecord, m: nat, n: nat, p: Plan)
    requires 1 <= m < n <= 6 && PlanOk(p)
    ensures After(rec, m, p).progress < After(rec, n, p).progress
  {
    RunAnalyzing(rec, m, p);
    RunAnalyzing(rec, n, p);
  }

  /**
   * A run that is not interrupted and does not fail ends COMPLETE with progress 100, the
   * processing time it drew, the results stored and their confidence (0.85 when they have none).
   */
  lemma RunCompletes(rec: AnalysisRecord, p: Plan)
    requires PlanOk(p) && p.crash.None? && p.outcome.Succeeds?
    ensures var f := FinalRecord(rec, p);
      && f.status == Complete && f.progress == 100.0
      && f.processingTime == Some(p.totalTime as real)
      && f.resultsPayload == Some(p.outcome.results)
      && GetResults(f) == p.outcome.results
      && f.confidence == Some(if "confidence_score" in p.outcome.results
                              then p.outcome.results["confidence_score"].n else 0.85)
      && f.errorCode == rec.errorCode && f.errorMessage == rec.errorMessage
  {
    RunAnalyzing(rec, 6, p);
  }

  /** A simulated failure ends FAILED with progress 0 and one of the four paired codes and messages. */
  lemma RunFails(rec: AnalysisRecord, p: Plan)
    requires PlanOk(p) && p.crash.None? && p.outcome.Fails?
    ensures var f := FinalRecord(rec, p);
      && f.status == Failed && f.progress == 0.0
      && f.errorCode.Some? && f.errorMessage.Some?
      && (f.errorCode.value, f.errorMessage.value) in Scenarios
      && f.errorCode.value in {"MODEL_ERROR", "MEMORY_ERROR", "FORMAT_ERROR", "TIMEOUT_ERROR"}
      && f.resultsPayload == rec.resultsPayload && f.confidence == rec.confidence
  {
    RunAnalyzing(rec, 6, p);
  }

  /** An interrupted run ends FAILED with a system error, its progress where the interruption left it. */
  lemma RunCrashes(rec: AnalysisRecord, p: Plan)
    requires PlanOk(p) && p.crash.Some?
    ensures var f := FinalRecord(rec, p);
      && f.status == Failed && f.errorCode == Some("SYSTEM_ERROR")
      && f.errorMessage == Some("Unexpected error: " + p.crash.value.text)
      && f.progress == After(rec, p.crash.value.stage, p).progress
  {
  }

  /** Every run of an existing analysis ends in a terminal status. */
  lemma RunEndsTerminal(rec: AnalysisRecord, p: Plan)
    requires PlanOk(p)
    ensures IsCompleted(FinalRecord(rec, p).status)
  {
    if p.crash.None? {
      RunAnalyzing(rec, 6, p);
    }
  }

  /**
   * One update per completed stage, plus one for an interruption; an uninterrupted run
   * sends seven, the last of which reports the final status.
   */
  lemma RunUpdateCount(rec: AnalysisRecord, p: Plan)
    requires PlanOk(p)
    ensures |RunUpdates(rec, p)| == StagesRun(p) + (if p.crash.Some? then 1 else 0)
    ensures p.crash.None? ==>
      RunUpdates(rec, p)[6].JObj? && RunUpdates(rec, p)[6].fields["status"] == JStr(StatusValue(FinalRecord(rec, p).status))
  {
  }

  /** The response range checks hold all along a run whose results carry a confidence within [0, 1]. */
  lemma RunKeepsResponseValid(rec: AnalysisRecord, p: Plan)
    requires PlanOk(p) && Schemas.ResponseValid(rec)
    requires p.outcome.Succeeds? ==> 0.0 <= Confidence(p.outcome.results) <= 1.0
    ensures forall n | 0 <= n <= StagesRun(p) && n <= 7 :: Schemas.ResponseValid(After(rec, n, p))
    ensures Schemas.ResponseValid(FinalRecord(rec, p))
  {
    forall n | 0 <= n <= StagesRun(p) && n <= 7
      ensures Schemas.ResponseValid(After(rec, n, p))
    {
      if 1 <= n <= 6 {
        RunAnalyzing(rec, n, p);
      } else if n == 7 {
        RunAnalyzing(rec, 6, p);
      }
    }
  }

  function Sum(xs: seq<real>): real
  {
    if xs == [] then 0.0 else Sum(xs[..|xs| - 1]) + xs[|xs| - 1]
  }

  /** The sleeps of a run that reaches its end add up to the drawn total time, itself within the configured bounds. */
  lemma SleepsAddUp(p: Plan)
    requires PlanOk(p) && StagesRun(p) >= 5
    ensures |Sleeps(p)| == 5
    ensures Sum(Sleeps(p)) == p.totalTime as real
    ensures Config.MinProcessingTime as real <= Sum(Sleeps(p)) <= Config.MaxProcessingTime as real
  {
    var t := p.totalTime as real / 5.0;
    assert |ProgressSteps| as real == 5.0;
    assert p.totalTime as real / (|ProgressSteps| as real) == t;
    assert (if StagesRun(p) >= 5 then 5 else StagesRun(p)) == 5;
    assert Sleeps(p) == Repeat(t, 5);
    SumRepeat(5, t);
    assert 5 as real * t == p.totalTime as real;
  }

  lemma {:induction false} SumRepeat(n: nat, t: real)
    ensures Sum(Repeat(t, n)) == n as real * t
  {
    if n > 0 {
      SumRepeat(n - 1, t);
      assert Repeat(t, n)[..n - 1] == Repeat(t, n - 1);
    }
  }

  // ---------------------------------------------------------------------------
  // The run, on the database and the manager

  /** `if websocket_manager: await websocket_manager.send_analysis_update(...)`. */
  method Notify(mgr: ConnectionManager?, a: string, data: Json, failing: set<string>)
    requires mgr != null ==> mgr.Valid()
    modifies mgr
    ensures mgr != null ==> mgr.Valid() && mgr.State() == Updated(old(mgr.State()), a, data, failing)
  {
    if mgr != null {
      mgr.SendAnalysisUpdate(a, data, failing);
    }
  }

  /** Writes the record back to its row (the commit). */
  method Commit(db: Database, id: string, rec: AnalysisRecord)
    requires id in db.analyses.rows
    modifies db
    ensures db.State() == old(db.State()).(analyses := Put(old(db.analyses), id, rec))
  {
    db.analyses := Put(db.analyses, id, rec);
  }

  /** Rewriting the analysis a run works on, without changing which analysis it is, keeps the database consistent. */
  lemma RunConsistent(d: Tables, id: string, rec: AnalysisRecord)
    requires Consistent(d) && id in d.analyses.rows && SameAnalysis(rec, d.analyses.rows[id])
    ensures Consistent(d.(analyses := Put(d.analyses, id, rec)))
  {
    PutAnalysisConsistent(d, rec);
  }

  /**
   * `_handle_analysis_error`: an existing analysis is marked FAILED with a system error,
   * whatever its status was, and its subscribers are told.
   */
  method HandleAnalysisError(db: Database, id: string, text: string, mgr: ConnectionManager?, failing: set<string>)
    requires db.Valid() && (mgr != null ==> mgr.Valid())
    modifies db, mgr
    ensures db.Valid() && (mgr != null ==> mgr.Valid())
    ensures id !in old(db.analyses.rows) ==>
      db.State() == old(db.State()) && (mgr != null ==> mgr.State() == old(mgr.State()))
    ensures id in old(db.analyses.rows) ==>
      var f := Crashed(old(db.analyses.rows[id]), text);
      && db.State() == old(db.State()).(analyses := Put(old(db.analyses), id, f))
      && (mgr != null ==> mgr.State() == Updated(old(mgr.State()), id, CrashData(f), failing))
  {
    if id in db.analyses.rows {
      var f := Crashed(db.analyses.rows[id], text);
      RunConsistent(db.State(), id, f);
      Commit(db, id, f);
      Notify(mgr, id, CrashData(f), failing);
    }
  }

  /** Stage 0: ANALYZING at 5%, committed, then "Starting analysis...". */
  method Begin(db: Database, id: string, p: Plan, mgr: ConnectionManager?, failing: set<string>)
    requires (mgr != null ==> mgr.Valid()) && PlanOk(p) && id in db.analyses.rows
    modifies db, mgr
    ensures mgr != null ==> mgr.Valid()
    ensures var after := StageRecord(old(db.analyses.rows[id]), 0, p);
      && db.State() == old(db.State()).(analyses := Put(old(db.analyses), id, after))
      && (mgr != null ==> mgr.State() == Updated(old(mgr.State()), id, StageData(after, 0, p), failing))
  {
    var analysis := db.analyses.rows[id];
    analysis := analysis.(status := Analyzing, progress := 5.0);
    Commit(db, id, analysis);
    Notify(mgr, id, JObj(map["status" := JStr(StatusValue(analysis.status)), "progress" := JNum(analysis.progress),
                             "message" := JStr("Starting analysis...")]), failing);
  }

  /** Progress step `i` (stage `i + 1`): the new percentage, committed, then "Processing... N%". */
  method Advance(db: Database, id: string, i: nat, p: Plan, mgr: ConnectionManager?, failing: set<string>)
    requires (mgr != null ==> mgr.Valid()) && PlanOk(p) && id in db.analyses.rows
    requires i < |ProgressSteps|
    modifies db, mgr
    ensures mgr != null ==> mgr.Valid()
    ensures var after := StageRecord(old(db.analyses.rows[id]), i + 1, p);
      && db.State() == old(db.State()).(analyses := Put(old(db.analyses), id, after))
      && (mgr != null ==> mgr.State() == Updated(old(mgr.State()), id, StageData(after, i + 1, p), failing))
  {
    var progress := ProgressSteps[i];
    var analysis := db.analyses.rows[id].(progress := progress as real);
    Commit(db, id, analysis);
    Notify(mgr, id, JObj(map["status" := JStr(StatusValue(analysis.status)), "progress" := JNum(progress as real),
                             "message" := JStr("Processing... " + Decimal(progress) + "%")]), failing);
  }

  /** Stage 6 of a successful run: COMPLETE with the results, committed, then "Analysis complete!". */
  method Finish(db: Database, id: string, results: map<string, Json>, p: Plan,
                mgr: ConnectionManager?, failing: set<string>)
    requires (mgr != null ==> mgr.Valid()) && PlanOk(p) && id in db.analyses.rows
    requires p.outcome == Succeeds(results)
    modifies db, mgr
    ensures mgr != null ==> mgr.Valid()
    ensures var after := StageRecord(old(db.analyses.rows[id]), 6, p);
      && db.State() == old(db.State()).(analyses := Put(old(db.analyses), id, after))
      && (mgr != null ==> mgr.State() == Updated(old(mgr.State()), id, StageData(after, 6, p), failing))
  {
    var analysis := db.analyses.rows[id].(status := Complete, progress := 100.0,
      confidence := Some(Confidence(results)), resultsPayload := Some(results),
      processingTime := Some(p.totalTime as real));
    Commit(db, id, analysis);
    Notify(mgr, id, JObj(map["status" := JStr(StatusValue(analysis.status)), "progress" := JNum(100.0),
                             "message" := JStr("Analysis complete!"), "results" := JObj(results),
                             "confidence_score" := JNum(analysis.confidence.value)]), failing);
  }

  /** `_simulate_analysis_failure`: FAILED with the chosen scenario and progress 0, committed, then reported. */
  method SimulateFailure(db: Database, id: string, scenario: nat, p: Plan,
                         mgr: ConnectionManager?, failing: set<string>)
    requires db.Valid() && (mgr != null ==> mgr.Valid()) && PlanOk(p) && id in db.analyses.rows
    requires p.outcome == Fails(scenario)
    modifies db, mgr
    ensures db.Valid() && (mgr != null ==> mgr.Valid())
    ensures var after := StageRecord(old(db.analyses.rows[id]), 6, p);
      && db.State() == old(db.State()).(analyses := Put(old(db.analyses), id, after))
      && (mgr != null ==> mgr.State() == Updated(old(mgr.State()), id, StageData(after, 6, p), failing))
  {
    var (code, message) := Scenarios[scenario];
    var analysis := db.analyses.rows[id].(status := Failed, errorCode := Some(code),
      errorMessage := Some(message), progress := 0.0);
    RunConsistent(db.State(), id, analysis);
    Commit(db, id, analysis);
    Notify(mgr, id, JObj(map["status" := JStr(StatusValue(analysis.status)), "progress" := JNum(0.0),
                             "error" := JStr(message), "error_code" := JStr(code)]), failing);
  }

  lemma PutTwice<R>(t: Table<R>, id: string, a: R, b: R)
    requires id in t.rows
    ensures Put(Put(t, id, a), id, b) == Put(t, id, b)
  {
  }

  lemma PutSame<R>(t: Table<R>, id: string)
    requires id in t.rows
    ensures Put(t, id, t.rows[id]) == t
  {
  }

  lemma UpdatedAllSnoc(r: Registry, a: string, ds: seq<Json>, d: Json, failing: set<string>)
    ensures UpdatedAll(r, a, ds + [d], failing) == Updated(UpdatedAll(r, a, ds, failing), a, d, failing)
  {
    assert (ds + [d])[..|ds|] == ds;
  }

  /** What an interruption at stage `s` leaves: the crash handler's record and update after the stages before it. */
  lemma InterruptedAt(start: AnalysisRecord, s: nat, p: Plan)
    requires PlanOk(p) && p.crash.Some? && p.crash.value.stage == s
    ensures FinalRecord(start, p) == Crashed(After(start, s, p), p.crash.value.text)
    ensures RunUpdates(start, p) == StageUpdates(start, s, p) + [CrashData(FinalRecord(start, p))]
    ensures Sleeps(p) == Repeat(p.totalTime as real / 5.0, if s >= 5 then 5 else s)
  {
  }

  /** What an uninterrupted run leaves: stage 6 applied after the first six. */
  lemma RanToEnd(start: AnalysisRecord, p: Plan)
    requires PlanOk(p) && p.crash.None?
    ensures FinalRecord(start, p) == StageRecord(After(start, 6, p), 6, p)
    ensures RunUpdates(start, p) == StageUpdates(start, 6, p) + [StageData(FinalRecord(start, p), 6, p)]
    ensures Sleeps(p) == Repeat(p.totalTime as real / 5.0, 5)
  {
    StageStep(start, 6, p);
  }

  /**
   * The `except` clause of `mock_ai_analysis`: the exception of stage `k` hands over to
   * `_handle_analysis_error`, which leaves the run's final state.
   */
  method Interrupt(db: Database, id: string, k: nat, p: Plan, mgr: ConnectionManager?, failing: set<string>,
                   ghost start: AnalysisRecord, ghost d0: Tables, ghost r0: Registry)
    requires (mgr != null ==> mgr.Valid()) && PlanOk(p)
    requires Consistent(d0) && id in d0.analyses.rows && start == d0.analyses.rows[id]
    requires p.crash.Some? && p.crash.value.stage == k
    requires db.State() == d0.(analyses := Put(d0.analyses, id, After(start, k, p)))
    requires mgr != null ==> mgr.State() == UpdatedAll(r0, id, StageUpdates(start, k, p), failing)
    modifies db, mgr
    ensures mgr != null ==> mgr.Valid()
    ensures db.State() == d0.(analyses := Put(d0.analyses, id, FinalRecord(start, p)))
    ensures mgr != null ==> mgr.State() == UpdatedAll(r0, id, RunUpdates(start, p), failing)
  {
    AfterSame(start, k, p);
    RunConsistent(d0, id, After(start, k, p));
    HandleAnalysisError(db, id, p.crash.value.text, mgr, failing);
    PutTwice(d0.analyses, id, After(start, k, p), FinalRecord(start, p));
    InterruptedAt(start, k, p);
    UpdatedAllSnoc(r0, id, StageUpdates(start, k, p), CrashData(FinalRecord(start, p)), failing);
  }

  /**
   * One progress step of `mock_ai_analysis`, after its sleep: stage `i + 1` from the state
   * the stages before it left (`d0` and `r0` are the database and the manager before the
   * run). When an exception interrupts it, nothing is changed and it reports that.
   */
  method ProgressStep(db: Database, id: string, i: nat, p: Plan, mgr: ConnectionManager?, failing: set<string>,
                      ghost start: AnalysisRecord, ghost d0: Tables, ghost r0: Registry)
    returns (raised: bool)
    requires (mgr != null ==> mgr.Valid()) && PlanOk(p) && id in d0.analyses.rows
    requires i < |ProgressSteps|
    requires db.State() == d0.(analyses := Put(d0.analyses, id, After(start, i + 1, p)))
    requires mgr != null ==> mgr.State() == UpdatedAll(r0, id, StageUpdates(start, i + 1, p), failing)
    modifies db, mgr
    ensures mgr != null ==> mgr.Valid()
    ensures raised <==> p.crash.Some? && p.crash.value.stage == i + 1
    ensures raised ==> db.State() == old(db.State()) && (mgr != null ==> mgr.State() == old(mgr.State()))
    ensures !raised ==>
      && db.State() == d0.(analyses := Put(d0.analyses, id, After(start, i + 2, p)))
      && (mgr != null ==> mgr.State() == UpdatedAll(r0, id, StageUpdates(start, i + 2, p), failing))
  {
    if p.crash.Some? && p.crash.value.stage == i + 1 {
      return true;
    }
    Advance(db, id, i, p, mgr, failing);
    StageStep(start, i + 1, p);
    PutTwice(d0.analyses, id, After(start, i + 1, p), After(start, i + 2, p));
    UpdatedAllSnoc(r0, id, StageUpdates(start, i + 1, p), StageData(After(start, i + 2, p), i + 1, p), failing);
    return false;
  }

  /**
   * The loop over the progress steps of `mock_ai_analysis`: sleep, then the step. An
   * exception leaves the loop at the stage it interrupted, with the state the stages
   * before it left.
   */
  method ProgressLoop(db: Database, id: string, p: Plan, mgr: ConnectionManager?, failing: set<string>,
                      ghost start: AnalysisRecord, ghost d0: Tables, ghost r0: Registry)
    returns (slept: seq<real>, raised: bool)
    requires (mgr != null ==> mgr.Valid()) && PlanOk(p) && id in d0.analyses.rows
    requires db.State() == d0.(analyses := Put(d0.analyses, id, After(start, 1, p)))
    requires mgr != null ==> mgr.State() == UpdatedAll(r0, id, StageUpdates(start, 1, p), failing)
    requires p.crash.Some? ==> p.crash.value.stage > 0
    modifies db, mgr
    ensures mgr != null ==> mgr.Valid()
    ensures slept == Sleeps(p)
    ensures raised <==> p.crash.Some? && p.crash.value.stage <= 5
    ensures var k := if raised then p.crash.value.stage else 6;
      && db.State() == d0.(analyses := Put(d0.analyses, id, After(start, k, p)))
      && (mgr != null ==> mgr.State() == UpdatedAll(r0, id, StageUpdates(start, k, p), failing))
  {
    slept := [];
    var stepTime := p.totalTime as real / (|ProgressSteps| as real);
    for i := 0 to |ProgressSteps|
      invariant mgr != null ==> mgr.Valid()
      invariant p.crash.Some? ==> p.crash.value.stage > i
      invariant db.State() == d0.(analyses := Put(d0.analyses, id, After(start, i + 1, p)))
      invariant mgr != null ==> mgr.State() == UpdatedAll(r0, id, StageUpdates(start, i + 1, p), failing)
      invariant slept == Repeat(stepTime, i)
    {
      slept := slept + [stepTime];
      raised := ProgressStep(db, id, i, p, mgr, failing, start, d0, r0);
      if raised {
        return;
      }
    }
    raised := false;
  }

  /** The end of `mock_ai_analysis` after the progress steps: the outcome, or the crash handler. */
  method Conclude(db: Database, id: string, p: Plan, mgr: ConnectionManager?, failing: set<string>,
                  ghost start: AnalysisRecord, ghost d0: Tables, ghost r0: Registry)
    requires (mgr != null ==> mgr.Valid()) && PlanOk(p)
    requires Consistent(d0) && id in d0.analyses.rows && start == d0.analyses.rows[id]
    requires db.State() == d0.(analyses := Put(d0.analyses, id, After(start, 6, p)))
    requires mgr != null ==> mgr.State() == UpdatedAll(r0, id, StageUpdates(start, 6, p), failing)
    requires p.crash.Some? ==> p.crash.value.stage == 6
    modifies db, mgr
    ensures mgr != null ==> mgr.Valid()
    ensures db.State() == d0.(analyses := Put(d0.analyses, id, FinalRecord(start, p)))
    ensures mgr != null ==> mgr.State() == UpdatedAll(r0, id, RunUpdates(start, p), failing)
  {
    if p.crash.Some? {
      Interrupt(db, id, 6, p, mgr, failing, start, d0, r0);
      return;
    }
    AfterSame(start, 6, p);
    RunConsistent(d0, id, After(start, 6, p));
    match p.outcome {
      case Fails(scenario) =>
        SimulateFailure(db, id, scenario, p, mgr, failing);
      case Succeeds(results) =>
        Finish(db, id, results, p, mgr, failing);
    }
    RanToEnd(start, p);
    PutTwice(d0.analyses, id, After(start, 6, p), FinalRecord(start, p));
    UpdatedAllSnoc(r0, id, StageUpdates(start, 6, p), StageData(FinalRecord(start, p), 6, p), failing);
  }

  /** `mock_ai_analysis` once stage 0 is reached without an exception: every stage from there on. */
  method Run(db: Database, id: string, p: Plan, mgr: ConnectionManager?, failing: set<string>,
             ghost start: AnalysisRecord, ghost d0: Tables, ghost r0: Registry)
    returns (slept: seq<real>)
    requires (mgr != null ==> mgr.Valid()) && PlanOk(p)
    requires Consistent(d0) && id in d0.analyses.rows && start == d0.analyses.rows[id]
    requires db.State() == d0 && (mgr != null ==> mgr.State() == r0)
    requires p.crash.Some? ==> p.crash.value.stage > 0
    modifies db, mgr
    ensures mgr != null ==> mgr.Valid()
    ensures db.State() == d0.(analyses := Put(d0.analyses, id, FinalRecord(start, p)))
    ensures mgr != null ==> mgr.State() == UpdatedAll(r0, id, RunUpdates(start, p), failing)
    ensures slept == Sleeps(p)
  {
    Begin(db, id, p, mgr, failing);
    StageStep(start, 0, p);
    UpdatedAllSnoc(r0, id, [], StageData(After(start, 1, p), 0, p), failing);
    var raised;
    slept, raised := ProgressLoop(db, id, p, mgr, failing, start, d0, r0);
    if raised {
      Interrupt(db, id, p.crash.value.stage, p, mgr, failing, start, d0, r0);
    } else {
      Conclude(db, id, p, mgr, failing, start, d0, r0);
    }
  }

  /**
   * `mock_ai_analysis`: for an existing analysis, the seven stages in order, each one
   * committed and reported; an exception at the start of a stage hands over to
   * `_handle_analysis_error`. An unknown id changes nothing and sends nothing. Returns
   * the sleeps taken.
   */
  method MockAiAnalysis(db: Database, id: string, p: Plan, mgr: ConnectionManager?, failing: set<string>)
    returns (slept: seq<real>)
    requires db.Valid() && (mgr != null ==> mgr.Valid()) && PlanOk(p)
    modifies db, mgr
    ensures db.Valid() && (mgr != null ==> mgr.Valid())
    ensures id !in old(db.analyses.rows) ==>
      && db.State() == old(db.State()) && slept == []
      && (mgr != null ==> mgr.State() == old(mgr.State()))
    ensures id in old(db.analyses.rows) ==>
      var rec := old(db.analyses.rows[id]);
      && db.State() == old(db.State()).(analyses := Put(old(db.analyses), id, FinalRecord(rec, p)))
      && slept == Sleeps(p)
      && (mgr != null ==> mgr.State() == UpdatedAll(old(mgr.State()), id, RunUpdates(rec, p), failing))
  {
    slept := [];
    if id !in db.analyses.rows {
      return;
    }
    ghost var d0 := db.State();
    ghost var r0 := if mgr != null then mgr.State() else Registry(map[], [], map[], []);
    ghost var start := db.analyses.rows[id];

    PutSame(d0.analyses, id);
    if p.crash.Some? && p.crash.value.stage == 0 {
      Interrupt(db, id, 0, p, mgr, failing, start, d0, r0);
    } else {
      slept := Run(db, id, p, mgr, failing, start, d0, r0);
    }
    FinalSame(start, p);
    RunConsistent(d0, id, FinalRecord(start, p));
  }
}
