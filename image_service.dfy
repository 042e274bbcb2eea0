/**
 * `ImageService._detect_modality`: the imaging modality guessed from a file's name, by
 * substring search over the lower-cased basename, with a fixed priority among the
 * keyword groups and a fallback on the decoded image format.
 */
module ImageService {
  import opened Wrappers
  import opened Text
  import Config

  /** One keyword group of the detection chain and the modality it stands for. */
  datatype Rule = Rule(terms: seq<string>, modality: string)

  /** The keyword groups, in the order the chain tries them. */
  const Rules: seq<Rule> := [
    Rule(["ct", "computed"], "CT"),
    Rule(["mri", "magnetic"], "MRI"),
    Rule(["xray", "x-ray", "radiograph"], "X-Ray"),
    Rule(["ultrasound", "us", "echo"], "Ultrasound"),
    Rule(["pet", "positron"], "PET"),
    Rule(["mammogram", "mammo"], "Mammography")
  ]

  /** Everything detection can answer besides `None`. */
  const Modalities: set<string> := {"CT", "MRI", "X-Ray", "Ultrasound", "PET", "Mammography", "DICOM"}

  /** `any(term in name for term in terms)`. */
  predicate AnyTerm(terms: seq<string>, name: string)
  {
    terms != [] && (Contains(name, terms[0]) || AnyTerm(terms[1..], name))
  }

  lemma {:induction false} AnyTermIs(terms: seq<string>, name: string)
    ensures AnyTerm(terms, name) <==> exists i | 0 <= i < |terms| :: Contains(name, terms[i])
  {
    if terms != [] {
      AnyTermIs(terms[1..], name);
      if Contains(name, terms[0]) {
        assert Contains(name, terms[0]);
      } else {
        forall i | 1 <= i < |terms| ensures terms[i] == terms[1..][i - 1] { }
      }
    }
  }

  /** Whether the keyword group at index `k` matches the name. */
  predicate Hits(k: nat, name: string)
    requires k < |Rules|
  {
    AnyTerm(Rules[k].terms, name)
  }

  /** No keyword group matches the name. */
  predicate NoKeyword(name: string)
  {
    forall j | 0 <= j < |Rules| :: !Hits(j, name)
  }

  /** The first keyword group, from index `from` on, that matches the name. */
  function FirstHit(name: string, from: nat): (k: Option<nat>)
    requires from <= |Rules|
    ensures k.Some? ==> from <= k.value < |Rules| && Hits(k.value, name)
    ensures k.Some? ==> forall j | from <= j < k.value :: !Hits(j, name)
    ensures k.None? ==> forall j | from <= j < |Rules| :: !Hits(j, name)
    decreases |Rules| - from
  {
    if from == |Rules| then None
    else if Hits(from, name) then Some(from)
    else FirstHit(name, from + 1)
  }

  /**
   * `_detect_modality(file_path, metadata)`: the modality of the first keyword group
   * found in the lower-cased basename; failing that "DICOM" when the decoded format is
   * DICOM; otherwise nothing. `format` is `metadata.get("format")`.
   */
  function DetectModality(path: string, format: Option<string>): (m: Option<string>)
    ensures m.None? || m.value in Modalities
  {
    match FirstHit(Lower(Basename(path)), 0)
    case Some(k) => Some(Rules[k].modality)
    case None => if format == Some("DICOM") then Some("DICOM") else None
  }

  /**
   * The chain is a priority list: group `k` decides the answer exactly when it matches
   * and no group before it does.
   */
  lemma FirstMatchWins(path: string, format: Option<string>, k: nat)
    requires k < |Rules|
    ensures var name := Lower(Basename(path));
      DetectModality(path, format) == Some(Rules[k].modality) <==>
        Hits(k, name) && forall j | 0 <= j < k :: !Hits(j, name)
  {
    var name := Lower(Basename(path));
    var h := FirstHit(name, 0);
    RuleModalities();
    if h.Some? && h.value != k {
      assert Rules[h.value].modality != Rules[k].modality;
    }
  }

  /** The modalities of the groups: all different, and none of them "DICOM". */
  lemma RuleModalities()
    ensures forall k | 0 <= k < |Rules| :: Rules[k].modality in Modalities - {"DICOM"}
    ensures forall j, k | 0 <= j < k < |Rules| :: Rules[j].modality != Rules[k].modality
  {
  }

  /** "DICOM" comes only from the format, and only when no keyword matched. */
  lemma DicomOnlyAsFallback(path: string, format: Option<string>)
    ensures DetectModality(path, format) == Some("DICOM") <==> NoKeyword(Lower(Basename(path))) && format == Some("DICOM")
    ensures DetectModality(path, format) == None <==> NoKeyword(Lower(Basename(path))) && format != Some("DICOM")
  {
    var name := Lower(Basename(path));
    var h := FirstHit(name, 0);
    RuleModalities();
    if h.Some? {
      assert Hits(h.value, name);
      assert !NoKeyword(name);
    }
  }

  /** A name containing "ct" is CT, whatever else it contains ("ct" and "mri" together give CT). */
  lemma CtFirst(path: string, format: Option<string>)
    requires Contains(Lower(Basename(path)), "ct")
    ensures DetectModality(path, format) == Some("CT")
  {
    FirstMatchWins(path, format, 0);
  }

  /** A name containing "us" that matched none of the first three groups is Ultrasound. */
  lemma UsMeansUltrasound(path: string, format: Option<string>)
    requires Contains(Lower(Basename(path)), "us")
    requires forall j | 0 <= j < 3 :: !Hits(j, Lower(Basename(path)))
    ensures DetectModality(path, format) == Some("Ultrasound")
  {
    var name := Lower(Basename(path));
    assert Rules[3].terms[1] == "us";
    AnyTermIs(Rules[3].terms, name);
    FirstMatchWins(path, format, 3);
  }

  /** Only the basename is inspected: the directory part never changes the answer. */
  lemma DirectoryIgnored(dir: string, name: string, format: Option<string>)
    requires '/' !in name
    ensures DetectModality(dir + "/" + name, format) == DetectModality(name, format)
  {
    BasenameOfJoin(dir, name);
    RFindIs(name, '/', -1);
  }

  // ---------------------------------------------------------------------------
  // The name detection is given during an upload

  /** The characters of `str(uuid.uuid4())`. */
  predicate UuidText(u: string)
  {
    forall k | 0 <= k < |u| :: HexChar(u[k])
  }

  predicate HexChar(ch: char)
  {
    ('0' <= ch <= '9') || ('a' <= ch <= 'f') || ch == '-'
  }

  /** Every character a stored upload name can hold, once lower-cased. */
  predicate StoredChar(ch: char)
  {
    HexChar(ch) || ch == '.' || ch == 'g' || ch == 'i' || ch == 'j' || ch == 'm' || ch == 'n' || ch == 'p'
  }

  /** The name has a character that no stored name has. */
  predicate Foreign(t: string)
  {
    exists w | 0 <= w < |t| :: !StoredChar(t[w])
  }

  predicate AllForeign(terms: seq<string>)
  {
    forall i | 0 <= i < |terms| :: Foreign(terms[i])
  }

  /** Every keyword of every group has a character that no stored name has. */
  lemma KeywordsForeign()
    ensures forall j | 0 <= j < |Rules| :: AllForeign(Rules[j].terms)
  {
    assert "ct"[1] == 't' && "computed"[1] == 'o';
    assert AllForeign(Rules[0].terms);
    assert "mri"[1] == 'r' && "magnetic"[7] == 'c' && "magnetic"[6] == 'i' && "magnetic"[5] == 't';
    assert AllForeign(Rules[1].terms);
    assert "xray"[0] == 'x' && "x-ray"[0] == 'x' && "radiograph"[0] == 'r';
    assert AllForeign(Rules[2].terms);
    assert "ultrasound"[0] == 'u' && "us"[0] == 'u' && "echo"[2] == 'h';
    assert AllForeign(Rules[3].terms);
    assert "pet"[2] == 't' && "positron"[1] == 'o';
    assert AllForeign(Rules[4].terms);
    assert "mammogram"[4] == 'o' && "mammo"[4] == 'o';
    assert AllForeign(Rules[5].terms);
  }

  /** The allowed extensions are made of stored-name characters. */
  lemma ExtensionsStored()
    ensures forall e, k | e in Config.AllowedExtensions && 0 <= k < |e| :: StoredChar(e[k])
  {
  }

  /** A name made of stored-name characters contains no keyword. */
  lemma NoKeywordIn(name: string)
    requires forall k | 0 <= k < |name| :: StoredChar(name[k])
    ensures NoKeyword(name)
  {
    KeywordsForeign();
    forall j, i | 0 <= j < |Rules| && 0 <= i < |Rules[j].terms|
      ensures !Contains(name, Rules[j].terms[i])
    {
      assert AllForeign(Rules[j].terms);
      var t := Rules[j].terms[i];
      var w :| 0 <= w < |t| && !StoredChar(t[w]);
      ContainsChars(name, t, w);
    }
    forall j | 0 <= j < |Rules|
      ensures !Hits(j, name)
    {
      AnyTermIs(Rules[j].terms, name);
    }
  }

  /**
   * Detection as the upload calls it, on the stored path `uploads/<uuid4><ext>`: no
   * keyword can occur in such a name, so the answer is "DICOM" or nothing.
   */
  lemma StoredPathNeverMatches(u: string, ext: string, format: Option<string>)
    requires UuidText(u) && ext in Config.AllowedExtensions
    ensures DetectModality(Config.UploadDir + "/" + u + ext, format) ==
      (if format == Some("DICOM") then Some("DICOM") else None)
  {
    var name := u + ext;
    assert Config.UploadDir + "/" + u + ext == Config.UploadDir + "/" + name;
    StoredNameChars(u, ext);
    BasenameOfJoin(Config.UploadDir, name);
    LowerStored(name);
    NoKeywordIn(Lower(name));
    DicomOnlyAsFallback(Config.UploadDir + "/" + name, format);
  }

  /** A stored name is made of stored-name characters and has no '/'. */
  lemma StoredNameChars(u: string, ext: string)
    requires UuidText(u) && ext in Config.AllowedExtensions
    ensures forall k | 0 <= k < |u + ext| :: StoredChar((u + ext)[k])
    ensures '/' !in u + ext
  {
    var name := u + ext;
    ExtensionsStored();
    forall k | 0 <= k < |name|
      ensures StoredChar(name[k])
    {
      if k < |u| {
        assert name[k] == u[k];
      } else {
        assert name[k] == ext[k - |u|];
      }
    }
  }

  /** Lower-casing leaves stored-name characters alone. */
  lemma LowerStored(name: string)
    requires forall k | 0 <= k < |name| :: StoredChar(name[k])
    ensures forall k | 0 <= k < |Lower(name)| :: StoredChar(Lower(name)[k])
  {
    forall k | 0 <= k < |name|
      ensures StoredChar(Lower(name)[k])
    {
      assert !IsUpper(name[k]);
    }
  }

  /**
   * An example of the above: a CT scan uploaded as "ct.png" is recognised by its own
   * name, but the stored name it is detected from is not.
   */
  lemma StoredCtScanUnrecognised(u: string)
    requires UuidText(u)
    ensures DetectModality("ct.png", None) == Some("CT")
    ensures Lower(Ext("ct.png")) == ".png"
    ensures DetectModality(Config.UploadDir + "/" + u + Lower(Ext("ct.png")), None) == None
  {
    var f := "ct.png";
    RFindIs(f, '/', -1);
    assert Basename(f) == f;
    forall k | 0 <= k < |f|
      ensures Lower(f)[k] == f[k]
    {
      assert !IsUpper(f[k]);
    }
    assert Lower(f) == f;
    assert "ct" <= f;
    CtFirst(f, None);
    RFindIs(f, '.', 2);
    assert !AllDots(f[0..2]) by { assert f[0..2][0] == 'c'; }
    assert Ext(f) == ".png";
    var e := ".png";
    forall k | 0 <= k < |e|
      ensures Lower(e)[k] == e[k]
    {
      assert !IsUpper(e[k]);
    }
    assert Lower(e) == e;
    StoredPathNeverMatches(u, e, None);
  }

  /**
   * Detection as it was evidently meant during an upload: on the name the client gave.
   * PIL failing to decode the content (`info == None`) leaves no modality at all.
   */
  function UploadModality(filename: string, format: Option<string>, decoded: bool): (m: Option<string>)
    ensures !decoded ==> m == None
    ensures m.None? || m.value in Modalities
  {
    if decoded then DetectModality(filename, format) else None
  }

  /** The same, as the upload actually calls it: on the stored path. */
  function UploadModalityAsWritten(storedPath: string, format: Option<string>, decoded: bool): (m: Option<string>)
    ensures !decoded ==> m == None
  {
    if decoded then DetectModality(storedPath, format) else None
  }
}
