/**
 * The request and response schemas of the analysis API: how a JSON body becomes an
 * `AnalysisRequest` (field by field, with every field's error reported), and which
 * records the `AnalysisResponse` range checks accept.
 */
module Schemas {
  import opened Wrappers
  import opened JsonValue
  import opened AnalysisModel

  /** One entry of the validation error list (FastAPI answers 422 with the whole list). */
  datatype FieldError =
    | NotAnObject                // the body is not a JSON object
    | Missing(field: string)     // a required field is absent
    | NotAString(field: string)  // the field holds something other than a string
    | BadPriority                // `validate_priority` refused the value

  /** A validated `AnalysisRequest`. */
  datatype AnalysisRequest = AnalysisRequest(imageId: string, modelId: string, userId: Option<string>, priority: string)

  /** The values `validate_priority` accepts. */
  const Priorities: seq<string> := ["low", "normal", "high"]

  /** A required `str` field. */
  function RequiredString(fields: map<string, Json>, name: string): (r: Result<string, FieldError>)
    ensures r.Success? <==> name in fields && fields[name].JStr?
    ensures r.Success? ==> r.value == fields[name].s
  {
    if name !in fields then Failure(Missing(name))
    else if fields[name].JStr? then Success(fields[name].s)
    else Failure(NotAString(name))
  }

  /** An `Optional[str]` field defaulting to `None`: absent and `null` both give `None`. */
  function OptionalString(fields: map<string, Json>, name: string): (r: Result<Option<string>, FieldError>)
    ensures r.Success? <==> name !in fields || fields[name].JNull? || fields[name].JStr?
    ensures r.Success? && name in fields && fields[name].JStr? ==> r.value == Some(fields[name].s)
    ensures r.Success? && (name !in fields || fields[name].JNull?) ==> r.value == None
  {
    if name !in fields then Success(None)
    else match fields[name]
      case JNull => Success(None)
      case JStr(s) => Success(Some(s))
      case _ => Failure(NotAString(name))
  }

  /**
   * The `priority` field. When it is absent the default "normal" is used without running
   * the validator; a given value, `null` included, must be one of the three priorities.
   */
  function Priority(fields: map<string, Json>): (r: Result<string, FieldError>)
    ensures r.Success? ==> r.value in Priorities
    ensures "priority" !in fields ==> r == Success("normal")
    ensures "priority" in fields ==>
      (r.Success? <==> fields["priority"].JStr? && fields["priority"].s in Priorities)
    ensures "priority" in fields && r.Success? ==> r.value == fields["priority"].s
  {
    if "priority" !in fields then Success("normal")
    else match fields["priority"]
      case JStr(s) => if s in Priorities then Success(s) else Failure(BadPriority)
      case JNull => Failure(BadPriority)
      case _ => Failure(NotAString("priority"))
  }

  /** The errors of one field's outcome, as a list. */
  function ErrorsOf<T>(r: Result<T, FieldError>): seq<FieldError>
  {
    if r.Success? then [] else [r.error]
  }

  /**
   * `AnalysisRequest(**body)`: every field is checked and all the errors are reported
   * together, in declaration order; keys the schema does not declare are ignored.
   */
  function ParseRequest(body: Json): (r: Result<AnalysisRequest, seq<FieldError>>)
  {
    if !body.JObj? then Failure([NotAnObject])
    else
      var f := body.fields;
      var image := RequiredString(f, "image_id");
      var model := RequiredString(f, "model_id");
      var user := OptionalString(f, "user_id");
      var priority := Priority(f);
      if image.Success? && model.Success? && user.Success? && priority.Success? then
        Success(AnalysisRequest(image.value, model.value, user.value, priority.value))
      else
        Failure(ErrorsOf(image) + ErrorsOf(model) + ErrorsOf(user) + ErrorsOf(priority))
  }

  /** A body is accepted exactly when every field is well typed and the priority is allowed. */
  lemma ParseRequestAccepts(body: Json)
    ensures ParseRequest(body).Success? <==>
      && body.JObj?
      && "image_id" in body.fields && body.fields["image_id"].JStr?
      && "model_id" in body.fields && body.fields["model_id"].JStr?
      && ("user_id" !in body.fields || body.fields["user_id"].JNull? || body.fields["user_id"].JStr?)
      && ("priority" !in body.fields || (body.fields["priority"].JStr? && body.fields["priority"].s in Priorities))
    ensures ParseRequest(body).Success? ==> ParseRequest(body).value.priority in Priorities
    ensures ParseRequest(body).Failure? ==> ParseRequest(body).error != []
  {
  }

  /** A missing image or model id is reported by name, whatever else is wrong. */
  lemma ParseRequestReportsMissing(body: Json, name: string)
    requires body.JObj? && name in {"image_id", "model_id"} && name !in body.fields
    ensures ParseRequest(body).Failure? && Missing(name) in ParseRequest(body).error
  {
    var f := body.fields;
    if name == "image_id" {
      assert ErrorsOf(RequiredString(f, "image_id")) == [Missing(name)];
    } else {
      assert ErrorsOf(RequiredString(f, "model_id")) == [Missing(name)];
    }
  }

  /** The JSON body a client sends for a request. */
  function RequestJson(q: AnalysisRequest): Json
  {
    var base := map["image_id" := JStr(q.imageId), "model_id" := JStr(q.modelId), "priority" := JStr(q.priority)];
    JObj(if q.userId.Some? then base["user_id" := JStr(q.userId.value)] else base)
  }

  /** Every request with an allowed priority survives being sent as JSON. */
  lemma RequestRoundTrip(q: AnalysisRequest)
    requires q.priority in Priorities
    ensures ParseRequest(RequestJson(q)) == Success(q)
  {
  }

  /** The range checks of `AnalysisResponse`: progress within [0, 100], confidence (when set) within [0, 1]. */
  predicate ResponseValid(r: AnalysisRecord)
  {
    && 0.0 <= r.progress <= 100.0
    && (r.confidence.Some? ==> 0.0 <= r.confidence.value <= 1.0)
  }

  /**
   * `AnalysisResponse.model_validate(record)`: the record is shown as it is stored when it
   * passes the range checks; otherwise validation raises, which FastAPI answers with 500.
   */
  function ValidateResponse(r: AnalysisRecord): (v: Result<AnalysisRecord, HttpError>)
    ensures v.Success? <==> ResponseValid(r)
    ensures v.Success? ==> v.value == r
    ensures v.Failure? ==> v.error.status == 500
  {
    if ResponseValid(r) then Success(r) else Failure(HttpError(500, "Internal Server Error"))
  }

  /** A freshly created analysis passes the response checks. */
  lemma NewAnalysisValid(id: string, imageId: string, modelId: string, requestedBy: Option<string>, createdAt: int)
    ensures ResponseValid(NewAnalysis(id, imageId, modelId, requestedBy, createdAt))
  {
  }
}
