/**
 * The image endpoints under `/api/v1/images`: the upload with its validation and stored
 * name, the guarded delete, and the filtered listing. What the metadata extraction reads
 * from the file (PIL, python-magic), the fresh uuid and the clock are parameters.
 */
module ImagesApi {
  import opened Wrappers
  import opened Text
  import Config
  import opened Store
  import ImageService
  import Query

  // ---------------------------------------------------------------------------
  // Validation of an upload

  /** `str(ALLOWED_EXTENSIONS)`, as the message about a rejected extension prints the list. */
  const SupportedTypes: string := "['.jpg', '.jpeg', '.png', '.dcm', '.nii']"

  /** The message an extension that is not allowed gets. */
  function TypeNotAllowed(ext: string): string
  {
    "File type " + ext + " not allowed. Supported types: " + SupportedTypes
  }

  /** The message an upload that reports too large a size gets. */
  const TooLarge: string := "File too large. Maximum size: " + Decimal(Config.MaxFileSize) + " bytes"

  /** `file.size and file.size > MAX_FILE_SIZE`: an absent or zero size passes. */
  predicate Oversized(size: Option<int>)
  {
    size.Some? && size.value != 0 && size.value > Config.MaxFileSize
  }

  /**
   * The checks `upload_image` makes before touching the disk, in their order: a filename
   * is given, its lower-cased extension is allowed, the reported size is not too large.
   * On success, the lower-cased extension.
   */
  function ValidateUpload(filename: Option<string>, size: Option<int>): (r: Result<string, HttpError>)
    ensures filename.None? || filename.value == "" ==> r == Failure(HttpError(400, "No filename provided"))
    ensures r.Success? <==>
      && filename.Some? && filename.value != ""
      && Lower(Ext(filename.value)) in Config.AllowedExtensions
      && !Oversized(size)
    ensures r.Success? ==> r.value == Lower(Ext(filename.value))
    ensures r.Failure? ==> r.error.status == 400 || (r.error.status == 413 && r.error.detail == TooLarge)
  {
    if filename.None? || filename.value == "" then Failure(HttpError(400, "No filename provided"))
    else
      var ext := Lower(Ext(filename.value));
      if ext !in Config.AllowedExtensions then Failure(HttpError(400, TypeNotAllowed(ext)))
      else if Oversized(size) then Failure(HttpError(413, TooLarge))
      else Success(ext)
  }

  /**
   * The order of the checks: a missing filename is reported whatever the size, a wrong
   * extension before a size, and a size is 413 only for an allowed extension.
   */
  lemma ValidationOrder(filename: Option<string>, size: Option<int>)
    ensures filename.Some? && filename.value != "" && Lower(Ext(filename.value)) !in Config.AllowedExtensions ==>
      ValidateUpload(filename, size) == Failure(HttpError(400, TypeNotAllowed(Lower(Ext(filename.value)))))
    ensures ValidateUpload(filename, size).Failure? && ValidateUpload(filename, size).error.status == 413 ==>
      Oversized(size) && filename.Some? && Lower(Ext(filename.value)) in Config.AllowedExtensions
    ensures !Oversized(size) ==> ValidateUpload(filename, size) == ValidateUpload(filename, None)
  {
  }

  /** The extension check ignores case: "SCAN.PNG" is accepted as ".png", with or without a size of 0. */
  lemma ScanPngAccepted()
    ensures ValidateUpload(Some("SCAN.PNG"), None) == Success(".png")
    ensures ValidateUpload(Some("SCAN.PNG"), Some(0)) == Success(".png")
    ensures ValidateUpload(Some("SCAN.PNG"), Some(Config.MaxFileSize + 1)) == Failure(HttpError(413, TooLarge))
  {
    SplitExtExamples();
    var e := ".PNG";
    assert Lower(e) == ['.', 'p', 'n', 'g'] by {
      assert Lower(e)[1] == LowerChar(e[1]);
      assert Lower(e)[2] == LowerChar(e[2]);
      assert Lower(e)[3] == LowerChar(e[3]);
    }
  }

  /** An extension outside the list is refused with 400. */
  lemma GifRejected()
    ensures ValidateUpload(Some("scan.gif"), None).Failure?
    ensures ValidateUpload(Some("scan.gif"), None).error.status == 400
  {
    var g := "scan.gif";
    RFindIs(g, '/', -1);
    RFindIs(g, '.', 4);
    assert !AllDots(g[0..4]) by { assert g[0] == 's'; }
    assert Ext(g) == g[4..];
    assert Lower(Ext(g))[1] == 'g';
  }

  /** The size limit is spelt out as `str(MAX_FILE_SIZE)`. */
  lemma TooLargeText()
    ensures TooLarge == "File too large. Maximum size: 52428800 bytes"
  {
    var n := Config.MaxFileSize;
    DecimalStep(5, 2);
    DecimalStep(52, 4);
    DecimalStep(524, 2);
    DecimalStep(5242, 8);
    DecimalStep(52428, 8);
    DecimalStep(524288, 0);
    DecimalStep(5242880, 0);
    assert Decimal(n) == ['5', '2', '4', '2', '8', '8', '0', '0'];
  }

  // ---------------------------------------------------------------------------
  // The upload

  /** What the client sends: the multipart file and the optional query fields. */
  datatype Upload = Upload(
    filename: Option<string>,
    size: Option<int>,
    contentType: Option<string>,
    content: seq<bv8>,
    description: Option<string>,
    patientId: Option<string>,
    userId: Option<string>)

  /** What metadata extraction reports about the saved file: PIL's size and format, and whether it decoded at all. */
  datatype Metadata = Metadata(width: Option<int>, height: Option<int>, format: Option<string>, decoded: bool)

  /** `ImageUploadResponse`. */
  datatype UploadResponse = UploadResponse(
    id: string,
    filename: string,
    fileSize: nat,
    mimeType: string,
    width: Option<int>,
    height: Option<int>,
    modality: Option<string>,
    uploadUrl: string,
    createdAt: int,
    message: string)

  /** `os.path.join(UPLOAD_DIR, f"{uuid}{ext}")`. */
  function StoredPath(uuid: string, ext: string): string
  {
    Config.UploadDir + "/" + uuid + ext
  }

  /** A fresh uuid gives a path that holds no file and belongs to no image. */
  predicate FreshPath(d: Tables, path: string)
  {
    path !in d.files && forall j | j in d.images.rows :: d.images.rows[j].filepath != path
  }

  /** `file.content_type or "application/octet-stream"`. */
  function MimeType(contentType: Option<string>): (m: string)
    ensures m != ""
    ensures contentType.Some? && contentType.value != "" ==> m == contentType.value
  {
    if contentType.Some? && contentType.value != "" then contentType.value else "application/octet-stream"
  }

  /**
   * The record an accepted upload creates: the client's filename, the stored path, the
   * length of the content actually received, and the modality detected from the
   * client's filename (see the findings: the code detects it from the stored path).
   */
  function NewImage(u: Upload, id: string, path: string, meta: Metadata, now: int): (im: ImageRecord)
    requires u.filename.Some?
    ensures im.id == id && im.filename == u.filename.value && im.filepath == path
    ensures im.fileSize == |u.content| && im.mimeType == MimeType(u.contentType)
    ensures im.uploadedBy == u.userId && im.createdAt == now
    ensures im.modality == ImageService.UploadModality(u.filename.value, meta.format, meta.decoded)
  {
    ImageRecord(id, u.filename.value, path, |u.content|, MimeType(u.contentType), meta.width, meta.height,
                ImageService.UploadModality(u.filename.value, meta.format, meta.decoded),
                u.patientId, u.description, u.userId, now)
  }

  /** The response to an accepted upload. */
  function UploadReply(im: ImageRecord): (r: UploadResponse)
    ensures r.id == im.id && r.uploadUrl == "/api/v1/images/" + im.id + "/download"
  {
    UploadResponse(im.id, im.filename, im.fileSize, im.mimeType, im.width, im.height, im.modality,
                   "/api/v1/images/" + im.id + "/download", im.createdAt, "Image uploaded successfully.")
  }

  /** An upload adds one image at a path no other image has; the database stays consistent. */
  lemma UploadConsistent(d: Tables, id: string, im: ImageRecord, files: map<string, seq<bv8>>)
    requires Consistent(d) && id !in d.images.rows && im.id == id
    requires FreshPath(d, im.filepath)
    ensures Consistent(d.(images := Put(d.images, id, im), files := files))
  {
    PutOk(d.images, id, im);
  }

  /**
   * `POST /api/v1/images/upload`. `uuid` is the fresh `uuid4()` text and `id` the new
   * row's id; `fault` is an exception raised after validation (writing the file or
   * committing the row), which removes the file again and answers 500.
   */
  method UploadImage(db: Database, u: Upload, uuid: string, id: string, meta: Metadata, now: int, fault: Option<string>)
    returns (r: Result<UploadResponse, HttpError>)
    requires db.Valid()
    requires id !in db.images.rows
    requires ValidateUpload(u.filename, u.size).Success? ==>
      FreshPath(db.State(), StoredPath(uuid, ValidateUpload(u.filename, u.size).value))
    modifies db
    ensures db.Valid()
    ensures ValidateUpload(u.filename, u.size).Failure? ==>
      r == Failure(ValidateUpload(u.filename, u.size).error) && db.State() == old(db.State())
    ensures ValidateUpload(u.filename, u.size).Success? && fault.Some? ==>
      r == Failure(HttpError(500, "Failed to upload image: " + fault.value)) && db.State() == old(db.State())
    ensures ValidateUpload(u.filename, u.size).Success? && fault.None? ==>
      var path := StoredPath(uuid, ValidateUpload(u.filename, u.size).value);
      var im := NewImage(u, id, path, meta, now);
      && r == Success(UploadReply(im))
      && db.State() == old(db.State()).(images := Put(old(db.images), id, im), files := old(db.files)[path := u.content])
  {
    var v := ValidateUpload(u.filename, u.size);
    if v.Failure? {
      return Failure(v.error);
    }
    var path := StoredPath(uuid, v.value);
    ghost var d0 := db.State();
    db.files := db.files[path := u.content];
    if fault.Some? {
      // the cleanup: the file saved above is removed before answering
      db.files := db.files - {path};
      assert db.State() == d0;
      return Failure(HttpError(500, "Failed to upload image: " + fault.value));
    }
    var im := NewImage(u, id, path, meta, now);
    UploadConsistent(d0, id, im, db.files);
    db.images := Put(db.images, id, im);
    assert db.State() == d0.(images := Put(d0.images, id, im), files := db.files);
    r := Success(UploadReply(im));
  }

  // ---------------------------------------------------------------------------
  // DELETE /{image_id}

  /** Removing an image no analysis refers to keeps the database consistent, whatever happens to the files. */
  lemma DeleteImageConsistent(d: Tables, id: string, files: map<string, seq<bv8>>)
    requires Consistent(d) && AnalysesOf(d, id) == {}
    ensures Consistent(d.(images := Delete(d.images, id), files := files))
  {
    DeleteOk(d.images, id);
    forall a | a in d.analyses.rows
      ensures d.analyses.rows[a].imageId != id
    {
      AnalysesOfIs(d, id, a);
    }
  }

  /**
   * `DELETE /api/v1/images/{image_id}`: 404 for an unknown image, 400 while any analysis
   * refers to it (nothing is removed), otherwise its row goes. Its file goes too, unless
   * removing it raises `OSError` (`removeFails`): the error is only printed, the file
   * stays on disk and the reply is the same.
   */
  method DeleteImage(db: Database, id: string, removeFails: bool) returns (r: Result<string, HttpError>)
    requires db.Valid()
    modifies db
    ensures db.Valid()
    ensures id !in old(db.images.rows) ==>
      r == Failure(HttpError(404, "Image not found")) && db.State() == old(db.State())
    ensures id in old(db.images.rows) && AnalysesOf(old(db.State()), id) != {} ==>
      r == Failure(HttpError(400, "Cannot delete image with existing analysis results")) && db.State() == old(db.State())
    ensures id in old(db.images.rows) && AnalysesOf(old(db.State()), id) == {} ==>
      && r == Success("Image deleted successfully")
      && db.State() == old(db.State()).(images := Delete(old(db.images), id),
                                        files := if removeFails then old(db.files)
                                                 else old(db.files) - {old(db.images.rows[id].filepath)})
  {
    if id !in db.images.rows {
      return Failure(HttpError(404, "Image not found"));
    }
    if AnalysesOf(db.State(), id) != {} {
      return Failure(HttpError(400, "Cannot delete image with existing analysis results"));
    }
    var path := db.images.rows[id].filepath;
    var files := if removeFails then db.files else db.files - {path};
    DeleteImageConsistent(db.State(), id, files);
    // a missing file is not an error: removing it changes nothing
    db.files := files;
    db.images := Delete(db.images, id);
    r := Success("Image deleted successfully");
  }

  /**
   * The guard is what keeps analyses pointing at stored images: it lets an image go exactly
   * when no analysis refers to it, every analysis then still finds its image, and deleting
   * an image the guard refuses would leave an analysis without one.
   */
  lemma DeleteGuard(d: Tables, id: string)
    requires Consistent(d) && id in d.images.rows
    ensures AnalysesOf(d, id) == {} <==> forall a | a in d.analyses.rows :: d.analyses.rows[a].imageId != id
    ensures AnalysesOf(d, id) == {} ==>
      forall a | a in d.analyses.rows :: d.analyses.rows[a].imageId in Delete(d.images, id).rows
    ensures AnalysesOf(d, id) != {} ==>
      exists a | a in d.analyses.rows :: d.analyses.rows[a].imageId !in Delete(d.images, id).rows
  {
    if AnalysesOf(d, id) != {} {
      var a :| a in AnalysesOf(d, id);
      AnalysesOfIs(d, id, a);
      assert d.analyses.rows[a].imageId !in Delete(d.images, id).rows;
    } else {
      forall a | a in d.analyses.rows
        ensures d.analyses.rows[a].imageId != id
      {
        AnalysesOfIs(d, id, a);
      }
    }
  }

  // ---------------------------------------------------------------------------
  // GET /

  /** The WHERE clauses of `list_images`; an absent or empty filter is not applied. */
  predicate ImageMatches(im: ImageRecord, userId: Option<string>, modality: Option<string>)
  {
    && (userId.None? || userId.value == "" || im.uploadedBy == userId)
    && (modality.None? || modality.value == "" || im.modality == modality)
  }

  function ImageCreatedAt(im: ImageRecord): int
  {
    im.createdAt
  }

  /** `GET /api/v1/images/`: the matching images, newest first, one page of them (by default skip 0, limit 50). */
  function ListImages(d: Tables, skip: int, limit: int, userId: Option<string>, modality: Option<string>): seq<ImageRecord>
  {
    Query.Listing(Scan(d.images), im => ImageMatches(im, userId, modality), ImageCreatedAt, skip, limit)
  }

  /** A listing returns stored images that match the filters, newest first, at most `limit` of them. */
  lemma ListImagesCorrect(d: Tables, skip: int, limit: int, userId: Option<string>, modality: Option<string>)
    requires TableOk(d.images)
    ensures var r := ListImages(d, skip, limit, userId, modality);
      && (forall im | im in r :: ImageMatches(im, userId, modality) && exists id | id in d.images.rows :: d.images.rows[id] == im)
      && Query.SortedDesc(r, ImageCreatedAt)
      && (0 <= limit ==> |r| <= limit)
  {
    var rows := Scan(d.images);
    var keep := im => ImageMatches(im, userId, modality);
    Query.ListingCorrect(rows, keep, ImageCreatedAt, skip, limit);
    ScanMembers(d.images);
  }

  /** Without paging, a stored image is listed exactly when it matches the filters. */
  lemma ListImagesMembers(d: Tables, userId: Option<string>, modality: Option<string>, id: string)
    requires TableOk(d.images) && id in d.images.rows
    ensures d.images.rows[id] in ListImages(d, 0, -1, userId, modality) <==> ImageMatches(d.images.rows[id], userId, modality)
  {
    ScanMembers(d.images);
    Query.ListingMembers(Scan(d.images), im => ImageMatches(im, userId, modality), ImageCreatedAt, d.images.rows[id]);
  }
}
