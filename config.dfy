/** The application settings the core depends on, and the parsing of `CORS_ORIGINS`. */
module Config {
  import opened Text

  /** `MAX_FILE_SIZE`: 50 MiB. */
  const MaxFileSize: nat := 50 * 1024 * 1024

  /** `ALLOWED_EXTENSIONS`, compared against the lower-cased extension of an upload. */
  const AllowedExtensions: seq<string> := [".jpg", ".jpeg", ".png", ".dcm", ".nii"]

  /** `UPLOAD_DIR`: the directory uploads are stored under. */
  const UploadDir: string := "uploads"

  /** `MIN_PROCESSING_TIME` and `MAX_PROCESSING_TIME`, in seconds. */
  const MinProcessingTime: nat := 10
  const MaxProcessingTime: nat := 45

  /** `WS_HEARTBEAT_INTERVAL`, in seconds. */
  const HeartbeatInterval: nat := 30

  /** The default `CORS_ORIGINS`. */
  const DefaultCorsOrigins: seq<string> :=
    ["http://localhost:3000", "http://localhost:3001", "https://*.netlify.app", "https://your-app.netlify.app"]

  /** The fixed values, as the settings class declares them. */
  lemma ConstantsAgree()
    ensures MaxFileSize == 52428800
    ensures MinProcessingTime < MaxProcessingTime
    ensures |AllowedExtensions| == 5
    ensures forall k | 0 <= k < |AllowedExtensions| :: |AllowedExtensions[k]| >= 2 && AllowedExtensions[k][0] == '.'
    ensures forall k | 0 <= k < |AllowedExtensions| :: Lower(AllowedExtensions[k]) == AllowedExtensions[k]
  {
    forall k | 0 <= k < |AllowedExtensions|
      ensures Lower(AllowedExtensions[k]) == AllowedExtensions[k]
    {
      var e := AllowedExtensions[k];
      assert forall i | 0 <= i < |e| :: !IsUpper(e[i]);
    }
  }

  /** What the environment may supply for `CORS_ORIGINS`: a list, or one comma-separated string. */
  datatype CorsValue = CorsList(origins: seq<string>) | CorsText(text: string)

  /** Each piece stripped of surrounding whitespace. */
  function StripEach(parts: seq<string>): (r: seq<string>)
    ensures |r| == |parts|
    ensures forall k | 0 <= k < |parts| :: r[k] == Strip(parts[k])
  {
    seq(|parts|, k requires 0 <= k < |parts| => Strip(parts[k]))
  }

  /** `parse_cors_origins`: a string is split at every comma and each piece stripped; a list passes through. */
  function ParseCorsOrigins(v: CorsValue): (origins: seq<string>)
  {
    match v
    case CorsList(o) => o
    case CorsText(t) => StripEach(Split(t, ','))
  }

  /** An origin as the settings hold it after parsing: no comma inside, no surrounding whitespace. */
  predicate CleanOrigin(o: string)
  {
    ',' !in o && Strip(o) == o
  }

  /**
   * A string gives one origin per comma-separated field, in order: one more than it has
   * commas, and each the stripped field. A list is kept as given.
   */
  lemma CorsFields(v: CorsValue)
    ensures v.CorsList? ==> ParseCorsOrigins(v) == v.origins
    ensures v.CorsText? ==>
      var fields := Split(v.text, ',');
      && Join(fields, ',') == v.text
      && |ParseCorsOrigins(v)| == Count(v.text, ',') + 1
      && forall k | 0 <= k < |fields| :: ',' !in fields[k] && ParseCorsOrigins(v)[k] == Strip(fields[k])
  {
    if v.CorsText? {
      SplitJoin(v.text, ',');
      SplitCount(v.text, ',');
      SplitPieces(v.text, ',');
    }
  }

  /** A string without a comma is a single origin, stripped. */
  lemma CorsSingle(t: string)
    requires ',' !in t
    ensures ParseCorsOrigins(CorsText(t)) == [Strip(t)]
  {
    CountNone(t, ',');
    SplitCount(t, ',');
    SplitJoin(t, ',');
  }

  /** Stripping a piece without a comma gives a clean origin. */
  lemma StripClean(p: string)
    requires ',' !in p
    ensures CleanOrigin(Strip(p))
  {
    StripShape(p);
    StripIdempotent(p);
  }

  /** Every origin parsed from a string is clean. */
  lemma CorsClean(t: string)
    ensures forall k | 0 <= k < |ParseCorsOrigins(CorsText(t))| :: CleanOrigin(ParseCorsOrigins(CorsText(t))[k])
  {
    var fields := Split(t, ',');
    SplitPieces(t, ',');
    forall k | 0 <= k < |fields|
      ensures CleanOrigin(Strip(fields[k]))
    {
      StripClean(fields[k]);
    }
  }

  /** Clean origins joined with commas parse back to themselves. */
  lemma CorsRoundTrip(origins: seq<string>)
    requires origins != []
    requires forall k | 0 <= k < |origins| :: CleanOrigin(origins[k])
    ensures ParseCorsOrigins(CorsText(Join(origins, ','))) == origins
  {
    JoinSplit(origins, ',');
  }

  /** Parsing is stable: writing the parsed origins back as one string and parsing again changes nothing. */
  lemma CorsParseStable(t: string)
    ensures var o := ParseCorsOrigins(CorsText(t)); ParseCorsOrigins(CorsText(Join(o, ','))) == o
  {
    CorsClean(t);
    CorsRoundTrip(ParseCorsOrigins(CorsText(t)));
  }

  /** The usual way of writing the list: spaces after the commas do not end up in the origins. */
  lemma CorsExample()
    ensures ParseCorsOrigins(CorsText("a, b")) == ["a", "b"]
  {
    var t := "a, b";
    assert t[0] != ',' && t[1] == ',';
    assert Find(t, ',') == 1;
    var rest := t[2..];
    assert rest == " b";
    assert Find(rest, ',') == -1 by { assert Find(rest[1..], ',') == -1; }
    SplitStep(t, ',');
    assert t[..1] == "a";
    assert Split(rest, ',') == [rest];
    assert Split(t, ',') == ["a", rest];
    assert StripLeft(rest) == "b";
  }
}
