/**
 * The database the endpoints work on: the image, AI model and analysis tables, and
 * the directory of uploaded files. A table maps ids to rows and remembers the order
 * rows were inserted in, which is the order a scan of the table returns them.
 */
module Store {
  import opened Wrappers
  import opened Seqs
  import opened AnalysisModel

  /** One row of the image table. */
  datatype ImageRecord = ImageRecord(
    id: string,
    filename: string,
    filepath: string,
    fileSize: nat,
    mimeType: string,
    width: Option<int>,
    height: Option<int>,
    modality: Option<string>,
    patientId: Option<string>,
    description: Option<string>,
    uploadedBy: Option<string>,
    createdAt: int)

  /** The columns of an AI model the core reads. */
  datatype AiModel = AiModel(id: string, name: string, version: string, isActive: bool)

  /** A table: rows by id, and the ids in insertion order. */
  datatype Table<R> = Table(rows: map<string, R>, order: seq<string>)

  /** The order lists every row once. */
  predicate TableOk<R>(t: Table<R>)
  {
    Distinct(t.order) && Elems(t.order) == t.rows.Keys
  }

  /** Inserts a new row, or replaces the row that has this id. */
  function Put<R>(t: Table<R>, id: string, r: R): Table<R>
  {
    Table(t.rows[id := r], if id in t.rows then t.order else t.order + [id])
  }

  /** Deletes the row with this id, if any. */
  function Delete<R>(t: Table<R>, id: string): Table<R>
  {
    Table(t.rows - {id}, Without(t.order, {id}))
  }

  /** The rows of the ids, in their order, skipping ids without a row. */
  function RowsOf<R>(ids: seq<string>, rows: map<string, R>): (r: seq<R>)
    ensures |r| <= |ids|
  {
    if ids == [] then []
    else (if ids[0] in rows then [rows[ids[0]]] else []) + RowsOf(ids[1..], rows)
  }

  /** A full scan of the table. */
  function Scan<R>(t: Table<R>): seq<R>
  {
    RowsOf(t.order, t.rows)
  }

  lemma PutOk<R>(t: Table<R>, id: string, r: R)
    requires TableOk(t)
    ensures TableOk(Put(t, id, r))
    ensures Put(t, id, r).rows.Keys == t.rows.Keys + {id}
  {
    if id !in t.rows {
      DistinctAppend(t.order, id);
    }
  }

  lemma DeleteOk<R>(t: Table<R>, id: string)
    requires TableOk(t)
    ensures TableOk(Delete(t, id))
    ensures Delete(t, id).rows.Keys == t.rows.Keys - {id}
  {
    WithoutMembers(t.order, {id});
    WithoutDistinct(t.order, {id});
  }

  lemma {:induction false} RowsOfMembers<R>(ids: seq<string>, rows: map<string, R>)
    ensures forall x | x in RowsOf(ids, rows) :: exists id | id in ids && id in rows :: rows[id] == x
    ensures forall id | id in ids && id in rows :: rows[id] in RowsOf(ids, rows)
  {
    if ids != [] {
      RowsOfMembers(ids[1..], rows);
      forall id | id in ids && id in rows
        ensures rows[id] in RowsOf(ids, rows)
      {
        if id != ids[0] {
          assert id in ids[1..];
        }
      }
    }
  }

  /** A scan returns exactly the rows of the table. */
  lemma ScanMembers<R>(t: Table<R>)
    requires TableOk(t)
    ensures forall x | x in Scan(t) :: exists id | id in t.rows :: t.rows[id] == x
    ensures forall id | id in t.rows :: t.rows[id] in Scan(t)
  {
    RowsOfMembers(t.order, t.rows);
  }

  /** The whole database. `files` maps a stored path to its content. */
  datatype Tables = Tables(
    images: Table<ImageRecord>,
    models: map<string, AiModel>,
    analyses: Table<AnalysisRecord>,
    files: map<string, seq<bv8>>)

  /**
   * The database's invariant: each row is stored under its own id, no two images share
   * a stored path, and every analysis refers to an existing image and model.
   */
  ghost predicate Consistent(d: Tables)
  {
    && TableOk(d.images)
    && TableOk(d.analyses)
    && (forall id | id in d.images.rows :: d.images.rows[id].id == id)
    && (forall i, j | i in d.images.rows && j in d.images.rows && i != j ::
          d.images.rows[i].filepath != d.images.rows[j].filepath)
    && (forall id | id in d.analyses.rows ::
          && d.analyses.rows[id].id == id
          && d.analyses.rows[id].imageId in d.images.rows
          && d.analyses.rows[id].aiModelId in d.models)
  }

  /** `image.analysis_results`: the analyses made of this image. */
  function AnalysesOf(d: Tables, imageId: string): set<string>
  {
    set id | id in d.analyses.rows && d.analyses.rows[id].imageId == imageId
  }

  /** `AnalysesOf` finds every analysis of the image and nothing else. */
  lemma AnalysesOfIs(d: Tables, imageId: string, id: string)
    ensures id in AnalysesOf(d, imageId) <==> id in d.analyses.rows && d.analyses.rows[id].imageId == imageId
  {
  }

  /** Replacing an analysis by a row with the same id, image and model keeps the database consistent. */
  lemma PutAnalysisConsistent(d: Tables, r: AnalysisRecord)
    requires Consistent(d) && r.id in d.analyses.rows
    requires r.imageId == d.analyses.rows[r.id].imageId && r.aiModelId == d.analyses.rows[r.id].aiModelId
    ensures Consistent(d.(analyses := Put(d.analyses, r.id, r)))
  {
    PutOk(d.analyses, r.id, r);
  }

  /** Deleting an analysis keeps the database consistent. */
  lemma DeleteAnalysisConsistent(d: Tables, id: string)
    requires Consistent(d)
    ensures Consistent(d.(analyses := Delete(d.analyses, id)))
  {
    DeleteOk(d.analyses, id);
  }

  /** The database as the endpoints change it. */
  class Database {
    var images: Table<ImageRecord>
    var models: map<string, AiModel>
    var analyses: Table<AnalysisRecord>
    var files: map<string, seq<bv8>>

    function State(): Tables
      reads this
    {
      Tables(images, models, analyses, files)
    }

    ghost predicate Valid()
      reads this
    {
      Consistent(State())
    }

    /** An empty database with the given (seeded) models. */
    constructor (seeded: map<string, AiModel>)
      ensures Valid()
      ensures State() == Tables(Table(map[], []), seeded, Table(map[], []), map[])
    {
      images := Table(map[], []);
      models := seeded;
      analyses := Table(map[], []);
      files := map[];
    }
  }
}
