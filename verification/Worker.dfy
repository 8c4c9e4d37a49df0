/** One run of `worker.execute_once` as the table and vector-store updates it makes, each proved to be a
    step of the state machine of both queues. A transaction's row changes appear together, at its commit. */
module Worker {
  import opened Tables
  import opened Ingestion
  import opened IngestionInvariant
  import opened Backend
  import opened Evidence
  import Knowledge
  import Whole = System

  /** The tables of the knowledge side, which the commits of the first queue change as well, and what their
      transactions have decided. */
  class Annex {
    var kjobs: map<DocId, Whole.KJob>
    var kworkers: map<WorkerId, Whole.KWorker>
    var pending: map<WorkerId, Verdict>
    const tables: KnowledgeTables

    constructor (s: Whole.System)
      ensures kjobs == s.kjobs && kworkers == s.kworkers && pending == s.pending
      ensures fresh(tables) && tables.Contents() == s.graph
    {
      kjobs, kworkers, pending := s.kjobs, s.kworkers, s.pending;
      tables := new KnowledgeTables(s.graph);
    }
  }

  /** All tables together. */
  function Joined(db: Store, kb: Annex): Whole.System
    reads db, kb, kb.tables
  {
    Whole.System(db.Contents(), kb.kjobs, kb.kworkers, kb.tables.Contents(), kb.pending)
  }

  // ---------------------------------------------------------------- the steps, table by table

  function Standing(c: Core, w: WorkerId, phase: Phase): Core
    requires w in c.workers
  {
    c.(workers := c.workers[w := c.workers[w].(phase := phase)])
  }

  function LeftAfter(c: Core, w: WorkerId): Core
    requires w in c.workers
  {
    c.(workers := c.workers - {w}, locks := c.locks - {c.workers[w].doc})
  }

  function WithoutPoints(points: map<PointId, Payload>, org: OrgId, d: DocId): map<PointId, Payload> {
    points - set p | p in points && points[p].org == org && points[p].document == d
  }

  lemma SameRecords(c: Core, d: DocId)
    ensures Set(c.docs, d, At(c.docs, d)) == c.docs
    ensures Set(c.jobs, d, At(c.jobs, d)) == c.jobs
    ensures Set(c.sources, d, At(c.sources, d)) == c.sources
  {
  }

  lemma SameRows(c: Core, d: DocId)
    ensures WithoutRows(c.chunks, d) + RowsOf(c.chunks, d) == c.chunks
  {
  }

  lemma SamePoints(c: Core, d: DocId)
    ensures WithoutPointsOf(c.points, d) + PointsOf(c.points, d) == c.points
  {
  }

  lemma SameFile(c: Core, d: DocId)
    ensures (if View(c, d).file then c.files + {d} else c.files - {d}) == c.files
  {
  }

  /** A document's points all belong to its tenant, so filtering by tenant as well loses nothing. */
  lemma TenantPoints(c: Core, d: DocId)
    requires Inv(c) && d in c.docs
    ensures WithoutPoints(c.points, c.docs[d].org, d) == WithoutPointsOf(c.points, d)
  {
    assert SliceOk(c.cfg, d, View(c, d));
    forall p | p in c.points && c.points[p].document == d ensures c.points[p].org == c.docs[d].org {
      assert p in View(c, d).points;
    }
  }

  /** A worker's step that only touches its document's points. */
  lemma PointStep(c: Core, a: Action)
    requires Enabled(c, a) && Actor(a).Some?
    requires After(c, a) == View(c, Subject(c, a)).(points := After(c, a).points)
    ensures Apply(c, a) == c.(points := WithoutPointsOf(c.points, Subject(c, a)) + After(c, a).points,
                              locks := Locked(c, a), workers := Crew(c, a))
  {
    var d := Subject(c, a);
    SameRecords(c, d);
    SameRows(c, d);
    SameFile(c, d);
  }

  /** A worker's step that only touches its document's records and rows. */
  lemma RecordStep(c: Core, a: Action)
    requires Enabled(c, a) && Actor(a).Some?
    requires After(c, a).points == View(c, Subject(c, a)).points && After(c, a).file == View(c, Subject(c, a)).file
    ensures var d, s := Subject(c, a), After(c, a);
            Apply(c, a) == c.(docs := Set(c.docs, d, s.doc), jobs := Set(c.jobs, d, s.job),
                              sources := Set(c.sources, d, s.source),
                              chunks := WithoutRows(c.chunks, d) + s.rows, locks := Locked(c, a), workers := Crew(c, a))
  {
    var d := Subject(c, a);
    SamePoints(c, d);
    SameFile(c, d);
  }

  // ---------------------------------------------------------------- inside the transaction

  function AfterFence(c: Core, w: WorkerId): Core
    requires w in c.workers
  {
    Standing(c, w, Fenced).(locks := c.locks[c.workers[w].doc := w])
  }

  lemma FenceResult(c: Core, w: WorkerId)
    requires Enabled(c, Fence(w)) && TokenCurrent(ShareOf(c, w), c.workers[w].attempt)
    ensures Apply(c, Fence(w)) == AfterFence(c, w)
  {
    PointStep(c, Fence(w));
    SamePoints(c, c.workers[w].doc);
  }

  /** The lookups at the head of the transaction: lock document and job, compare the token. */
  method LockJob(db: Store, w: WorkerId) returns (passes: bool)
    requires w in db.workers
    modifies db
    ensures passes <==> TokenCurrent(ShareOf(old(db.Contents()), w), old(db.workers)[w].attempt)
    ensures passes ==> db.Contents() == AfterFence(old(db.Contents()), w)
    ensures !passes ==> db.Contents() == old(db.Contents()).(workers := old(db.workers) - {w})
  {
    var d, attempt := db.workers[w].doc, db.workers[w].attempt;
    if d !in db.docs || d !in db.jobs || db.jobs[d].status != Processing || db.jobs[d].attempts != attempt {
      db.workers := db.workers - {w};
      return false;
    }
    db.locks := db.locks[d := w];
    db.workers := db.workers[w := db.workers[w].(phase := Fenced)];
    passes := true;
  }

  function AfterClear(c: Core, w: WorkerId): Core
    requires w in c.workers && c.workers[w].doc in c.docs
  {
    Standing(c, w, Cleared).(points := WithoutPoints(c.points, c.docs[c.workers[w].doc].org, c.workers[w].doc))
  }

  lemma ClearResult(c: Core, w: WorkerId)
    requires Inv(c) && Enabled(c, ClearVectors(w)) && c.workers[w].doc in c.docs
    ensures Apply(c, ClearVectors(w)) == AfterClear(c, w)
  {
    var a, d := ClearVectors(w), c.workers[w].doc;
    PointStep(c, a);
    TenantPoints(c, d);
    assert LockTaken(c, w);
    assert Locked(c, a) == c.locks && After(c, a).points == map[];
    assert WithoutPointsOf(c.points, d) + map[] == WithoutPointsOf(c.points, d);
  }

  /** `store.delete_document`: by tenant and document. */
  method DeletePoints(db: Store, w: WorkerId)
    requires w in db.workers && db.workers[w].doc in db.docs
    modifies db`points, db`workers
    ensures db.Contents() == AfterClear(old(db.Contents()), w)
  {
    var d := db.workers[w].doc;
    var org := db.docs[d].org;
    db.points := db.points - set p | p in db.points && db.points[p].org == org && db.points[p].document == d;
    db.workers := db.workers[w := db.workers[w].(phase := Cleared)];
  }

  /** All points but some of this document. */
  function WithoutSome(points: map<PointId, Payload>, org: OrgId, d: DocId, removed: set<PointId>): map<PointId, Payload> {
    points - set p | p in points && points[p].org == org && points[p].document == d && p in removed
  }

  function AfterClearPart(c: Core, w: WorkerId, removed: set<PointId>): Core
    requires w in c.workers && c.workers[w].doc in c.docs
  {
    Standing(c, w, Clearing).(points := WithoutSome(c.points, c.docs[c.workers[w].doc].org, c.workers[w].doc, removed))
  }

  lemma TenantPointsBut(c: Core, d: DocId, removed: set<PointId>)
    requires Inv(c) && d in c.docs
    ensures WithoutPointsOf(c.points, d) + (PointsOf(c.points, d) - removed) == WithoutSome(c.points, c.docs[d].org, d, removed)
  {
    assert SliceOk(c.cfg, d, View(c, d));
    forall p | p in c.points && c.points[p].document == d ensures c.points[p].org == c.docs[d].org {
      assert p in View(c, d).points;
    }
  }

  lemma ClearPartResult(c: Core, w: WorkerId, removed: set<PointId>)
    requires Inv(c) && Enabled(c, ClearPart(w, removed)) && c.workers[w].doc in c.docs
    ensures Apply(c, ClearPart(w, removed)) == AfterClearPart(c, w, removed)
  {
    PointStep(c, ClearPart(w, removed));
    TenantPointsBut(c, c.workers[w].doc, removed);
    assert LockTaken(c, w);
  }

  /** A `delete_document` that breaks off. */
  method DeleteSomePoints(db: Store, w: WorkerId, removed: set<PointId>)
    requires w in db.workers && db.workers[w].doc in db.docs
    modifies db`points, db`workers
    ensures db.Contents() == AfterClearPart(old(db.Contents()), w, removed)
  {
    var d := db.workers[w].doc;
    var org := db.docs[d].org;
    db.points := db.points - set p | p in db.points && db.points[p].org == org && db.points[p].document == d && p in removed;
    db.workers := db.workers[w := db.workers[w].(phase := Clearing)];
  }

  // ---------------------------------------------------------------- ingest_document

  /** The loop that makes a row of every piece, numbered as they come. */
  method BuildRows(d: DocId, generation: nat, pieces: seq<Piece>) returns (rows: map<ChunkId, ChunkRow>)
    ensures rows == NewRows(d, generation, pieces)
  {
    rows := map[];
    for i := 0 to |pieces|
      invariant rows == NewRows(d, generation, pieces[..i])
    {
      rows := rows[ChunkId(d, generation, i) := ChunkRow(d, i, pieces[i].content, pieces[i].page)];
    }
    assert pieces[..|pieces|] == pieces;
  }

  /** The rows of the first i pieces that are stored when only `part` of them are. */
  function Stored(d: DocId, generation: nat, pieces: seq<Piece>, part: Option<set<nat>>, i: nat): map<ChunkId, ChunkRow> {
    var rows := NewRows(d, generation, pieces);
    rows - set k | k in rows && (k.index >= i || (part.Some? && k.index !in part.value))
  }

  /** The points of those rows. */
  ghost function StoredPoints(d: DocId, doc: Document, pieces: seq<Piece>, part: Option<set<nat>>, i: nat): map<PointId, Payload> {
    IndexOf(d, doc, Stored(d, doc.generation, pieces, part, i))
  }

  lemma StoredGrows(d: DocId, generation: nat, pieces: seq<Piece>, part: Option<set<nat>>, i: nat)
    requires i < |pieces|
    ensures Stored(d, generation, pieces, part, i + 1) ==
              if part.None? || i in part.value
              then Stored(d, generation, pieces, part, i)[ChunkId(d, generation, i) :=
                     ChunkRow(d, i, pieces[i].content, pieces[i].page)]
              else Stored(d, generation, pieces, part, i)
  {
  }

  /** One more piece, where it is stored. */
  function WithPiece(points: map<PointId, Payload>, d: DocId, doc: Document, i: nat, piece: Piece, stored: bool)
    : map<PointId, Payload>
  {
    var k, row := ChunkId(d, doc.generation, i), ChunkRow(d, i, piece.content, piece.page);
    if stored then points[PointFor(d, doc, k, row) := PayloadFor(d, doc, k, row)] else points
  }

  lemma PointsGrow(d: DocId, doc: Document, pieces: seq<Piece>, part: Option<set<nat>>, i: nat)
    requires i < |pieces|
    ensures StoredPoints(d, doc, pieces, part, i + 1) ==
              WithPiece(StoredPoints(d, doc, pieces, part, i), d, doc, i, pieces[i], part.None? || i in part.value)
  {
    var k, row := ChunkId(d, doc.generation, i), ChunkRow(d, i, pieces[i].content, pieces[i].page);
    StoredGrows(d, doc.generation, pieces, part, i);
    IndexGrows(d, doc, Stored(d, doc.generation, pieces, part, i), k, row);
  }

  /** The points an upsert of the pieces stores: all of them, or a part when it breaks off. */
  ghost function Batch(d: DocId, doc: Document, pieces: seq<Piece>, part: Option<set<nat>>): map<PointId, Payload> {
    if part.Some? then Partial(d, doc, pieces, part.value) else IndexOf(d, doc, NewRows(d, doc.generation, pieces))
  }

  lemma StoredAll(d: DocId, doc: Document, pieces: seq<Piece>, part: Option<set<nat>>)
    ensures StoredPoints(d, doc, pieces, part, |pieces|) == Batch(d, doc, pieces, part)
  {
    var rows := NewRows(d, doc.generation, pieces);
    if part.Some? {
      assert Stored(d, doc.generation, pieces, part, |pieces|) == RowsIn(rows, part.value);
    } else {
      assert Stored(d, doc.generation, pieces, part, |pieces|) == rows;
    }
  }

  lemma StoredNone(d: DocId, doc: Document, pieces: seq<Piece>, part: Option<set<nat>>)
    ensures StoredPoints(d, doc, pieces, part, 0) == map[]
  {
    assert Stored(d, doc.generation, pieces, part, 0) == map[];
  }

  /** The loop that makes a payload of every piece; `part` are the ones an interrupted upsert stored. */
  method BuildPoints(d: DocId, doc: Document, pieces: seq<Piece>, part: Option<set<nat>>)
    returns (points: map<PointId, Payload>)
    ensures points == Batch(d, doc, pieces, part)
  {
    points := map[];
    StoredNone(d, doc, pieces, part);
    for i := 0 to |pieces|
      invariant points == StoredPoints(d, doc, pieces, part, i)
    {
      PointsGrow(d, doc, pieces, part, i);
      points := WithPiece(points, d, doc, i, pieces[i], part.None? || i in part.value);
    }
    StoredAll(d, doc, pieces, part);
  }

  ghost function AfterUpsert(c: Core, w: WorkerId, pieces: seq<Piece>, part: Option<set<nat>>): Core
    requires w in c.workers && c.workers[w].doc in c.docs
  {
    Standing(c, w, if part.Some? then Writing(pieces, part.value) else Written(pieces)).(
      points := c.points + Batch(c.workers[w].doc, c.docs[c.workers[w].doc], pieces, part))
  }

  function UpsertAction(w: WorkerId, part: Option<set<nat>>): Action {
    if part.Some? then UpsertPart(w, part.value) else UpsertAll(w)
  }

  lemma UpsertShare(c: Core, w: WorkerId, part: Option<set<nat>>)
    requires Enabled(c, UpsertAction(w, part)) && c.workers[w].doc in c.docs
    ensures var d := c.workers[w].doc;
            After(c, UpsertAction(w, part)) ==
              View(c, d).(points := PointsOf(c.points, d) + Batch(d, c.docs[d], c.workers[w].phase.pieces, part))
  {
  }

  lemma AddedPoints(c: Core, d: DocId, batch: map<PointId, Payload>)
    ensures WithoutPointsOf(c.points, d) + (PointsOf(c.points, d) + batch) == c.points + batch
  {
  }

  lemma UpsertCrew(c: Core, w: WorkerId, part: Option<set<nat>>)
    requires Enabled(c, UpsertAction(w, part)) && LocksOk(c)
    ensures var a, pieces := UpsertAction(w, part), c.workers[w].phase.pieces;
            Locked(c, a) == c.locks &&
            Crew(c, a) == Standing(c, w, if part.Some? then Writing(pieces, part.value) else Written(pieces)).workers
  {
    assert LockTaken(c, w);
  }

  lemma UpsertResult(c: Core, w: WorkerId, part: Option<set<nat>>)
    requires Enabled(c, UpsertAction(w, part)) && LocksOk(c) && c.workers[w].doc in c.docs
    ensures Apply(c, UpsertAction(w, part)) == AfterUpsert(c, w, c.workers[w].phase.pieces, part)
  {
    var a, d := UpsertAction(w, part), c.workers[w].doc;
    UpsertShare(c, w, part);
    UpsertCrew(c, w, part);
    PointStep(c, a);
    AddedPoints(c, d, Batch(d, c.docs[d], c.workers[w].phase.pieces, part));
  }

  /** `vector_store.upsert`, acknowledged (`part` is None) or broken off part-way. */
  method Upsert(db: Store, w: WorkerId, pieces: seq<Piece>, part: Option<set<nat>>)
    requires w in db.workers && db.workers[w].doc in db.docs
    modifies db`points, db`workers
    ensures db.Contents() == AfterUpsert(old(db.Contents()), w, pieces, part)
  {
    var d := db.workers[w].doc;
    var batch := BuildPoints(d, db.docs[d], pieces, part);
    db.points := db.points + batch;
    var reached := if part.Some? then Writing(pieces, part.value) else Written(pieces);
    db.workers := db.workers[w := db.workers[w].(phase := reached)];
  }

  // ---------------------------------------------------------------- the commits

  function AfterIndex(c: Core, w: WorkerId, pieces: seq<Piece>): Core
    requires w in c.workers && c.workers[w].doc in c.docs && c.workers[w].doc in c.jobs && c.workers[w].doc in c.sources
  {
    var d := c.workers[w].doc;
    LeftAfter(c, w).(
      docs := c.docs[d := c.docs[d].(status := DocReady, error := NoError)],
      jobs := c.jobs[d := c.jobs[d].(status := Succeeded, error := NoError, lease := None)],
      sources := c.sources[d := WithSync(c.sources[d], SyncSynced, NoError)],
      chunks := WithoutRows(c.chunks, d) + NewRows(d, c.docs[d].generation, pieces))
  }

  lemma IndexResult(c: Core, w: WorkerId, now: Time)
    requires Enabled(c, CommitIndex(w, now)) && LocksOk(c)
    ensures Apply(c, CommitIndex(w, now)) == AfterIndex(c, w, c.workers[w].phase.pieces)
  {
    RecordStep(c, CommitIndex(w, now));
    assert LockTaken(c, w);
  }

  method ReplaceRows(db: Store, d: DocId, pieces: seq<Piece>)
    requires d in db.docs
    modifies db`chunks
    ensures db.chunks == WithoutRows(old(db.chunks), d) + NewRows(d, db.docs[d].generation, pieces)
  {
    db.chunks := db.chunks - set k | k in db.chunks && db.chunks[k].document == d;
    var rows := BuildRows(d, db.docs[d].generation, pieces);
    db.chunks := db.chunks + rows;
  }

  /** The document's chunks as the withdrawal sees them. */
  function ChunksOf(chunks: map<ChunkId, ChunkRow>, d: DocId): set<ChunkId> {
    RowsOf(chunks, d).Keys
  }

  /** The decision part of `withdraw_document_knowledge`: what is committed now, less the document's own chunks. */
  method WeighEvidence(db: Store, kb: Annex, w: WorkerId)
    requires w in db.workers
    modifies db`workers, kb`pending
    ensures db.Contents() == Standing(old(db.Contents()), w, Weighed)
    ensures kb.pending == old(kb.pending)[w := VerdictOn(kb.tables.Contents(), ChunksOf(db.chunks, db.workers[w].doc))]
  {
    var d := db.workers[w].doc;
    var gone := set k | k in db.chunks && db.chunks[k].document == d;
    assert gone == ChunksOf(db.chunks, d);
    var verdict := kb.tables.Decide(gone);
    kb.pending := kb.pending[w := verdict];
    db.workers := db.workers[w := db.workers[w].(phase := Weighed)];
  }

  lemma WeighResult(c: Core, w: WorkerId)
    requires Enabled(c, Action.Weigh(w)) && LocksOk(c)
    ensures Apply(c, Action.Weigh(w)) == Standing(c, w, Weighed)
  {
    PointStep(c, Action.Weigh(w));
    SamePoints(c, c.workers[w].doc);
    assert LockTaken(c, w);
  }

  /** The commit part: the decision of this transaction is written. */
  method WriteVerdict(db: Store, kb: Annex, w: WorkerId)
    requires w in db.workers && w in kb.pending
    modifies kb`pending, kb.tables
    ensures kb.tables.Contents() ==
              CarryOut(old(kb.tables.Contents()), ChunksOf(db.chunks, db.workers[w].doc), old(kb.pending)[w])
    ensures kb.pending == old(kb.pending) - {w}
  {
    var d := db.workers[w].doc;
    var gone := set k | k in db.chunks && db.chunks[k].document == d;
    assert gone == ChunksOf(db.chunks, d);
    kb.tables.CommitVerdict(gone, kb.pending[w]);
    kb.pending := kb.pending - {w};
  }

  /** What the knowledge side is after a commit of an index: the decision carried out, and an extraction enqueued. */
  ghost function AfterIndexBeside(s: Whole.System, w: WorkerId, d: DocId, now: Time): Whole.System
    requires d in s.core.docs
  {
    var doc := s.core.docs[d];
    s.(graph := CarryOut(s.graph, ChunksOf(s.core.chunks, d), Whole.Decided(s, w)), pending := s.pending - {w},
       kjobs := s.kjobs[d := Whole.Enqueued(s.kjobs, d, doc.org, doc.generation, now)])
  }

  ghost function AfterDeleteBeside(s: Whole.System, w: WorkerId, d: DocId): Whole.System {
    s.(graph := CarryOut(s.graph, ChunksOf(s.core.chunks, d), Whole.Decided(s, w)), pending := s.pending - {w},
       kjobs := s.kjobs - {d})
  }

  /** The document's old chunk rows go, the new ones come, and everything says READY. */
  method PublishRows(db: Store, w: WorkerId, pieces: seq<Piece>)
    requires w in db.workers && db.workers[w].doc in db.docs && db.workers[w].doc in db.jobs
    requires db.workers[w].doc in db.sources && db.sources[db.workers[w].doc].org == db.docs[db.workers[w].doc].org
    modifies db
    ensures db.Contents() == AfterIndex(old(db.Contents()), w, pieces)
  {
    var d := db.workers[w].doc;
    ReplaceRows(db, d, pieces);
    db.docs := db.docs[d := db.docs[d].(status := DocReady, error := NoError)];
    db.jobs := db.jobs[d := db.jobs[d].(status := Succeeded, error := NoError, lease := None)];
    var ok := db.SetSyncState(d, SyncSynced, NoError);
    db.workers, db.locks := db.workers - {w}, db.locks - {d};
  }

  /** What the transaction decided is withdrawn, the new rows are published, and an extraction is enqueued. */
  method FinishIndex(db: Store, kb: Annex, w: WorkerId, pieces: seq<Piece>, now: Time)
    requires w in db.workers && db.workers[w].doc in db.docs && db.workers[w].doc in db.jobs
    requires db.workers[w].doc in db.sources && db.sources[db.workers[w].doc].org == db.docs[db.workers[w].doc].org
    requires w in kb.pending
    modifies db, kb`kjobs, kb`pending, kb.tables
    ensures Joined(db, kb) == AfterIndexBeside(old(Joined(db, kb)), w, old(db.workers)[w].doc, now).(
                                core := AfterIndex(old(db.Contents()), w, pieces))
  {
    var d := db.workers[w].doc;
    var document := db.docs[d];
    WriteVerdict(db, kb, w);
    PublishRows(db, w, pieces);
    var job := Knowledge.StartOver(kb.kjobs, d, document.org, document.generation, now);
    kb.kjobs := kb.kjobs[d := job];
  }

  function AfterDelete(c: Core, w: WorkerId): Core
    requires w in c.workers && c.workers[w].doc in c.sources
  {
    var d := c.workers[w].doc;
    LeftAfter(c, w).(docs := c.docs - {d}, jobs := c.jobs - {d}, chunks := WithoutRows(c.chunks, d),
                     sources := c.sources[d := WithSync(c.sources[d], SyncDeleted, NoError)])
  }

  lemma DeleteResult(c: Core, w: WorkerId)
    requires Enabled(c, CommitDelete(w)) && LocksOk(c)
    ensures Apply(c, CommitDelete(w)) == AfterDelete(c, w)
  {
    RecordStep(c, CommitDelete(w));
    assert LockTaken(c, w);
    assert WithoutRows(c.chunks, c.workers[w].doc) + map[] == WithoutRows(c.chunks, c.workers[w].doc);
  }

  /** Rows, job and document go; the source says DELETED. */
  method DropRows(db: Store, w: WorkerId)
    requires w in db.workers && db.workers[w].doc in db.docs
    requires db.workers[w].doc in db.sources && db.sources[db.workers[w].doc].org == db.docs[db.workers[w].doc].org
    modifies db
    ensures db.Contents() == AfterDelete(old(db.Contents()), w)
  {
    var d := db.workers[w].doc;
    db.chunks := db.chunks - set k | k in db.chunks && db.chunks[k].document == d;
    db.jobs := db.jobs - {d};
    var ok := db.SetSyncState(d, SyncDeleted, NoError);
    db.docs := db.docs - {d};
    db.workers, db.locks := db.workers - {w}, db.locks - {d};
  }

  /** What the transaction decided is withdrawn, and the rows and the knowledge job go. */
  method FinishDelete(db: Store, kb: Annex, w: WorkerId)
    requires w in db.workers && db.workers[w].doc in db.docs
    requires db.workers[w].doc in db.sources && db.sources[db.workers[w].doc].org == db.docs[db.workers[w].doc].org
    requires w in kb.pending
    modifies db, kb`kjobs, kb`pending, kb.tables
    ensures Joined(db, kb) == AfterDeleteBeside(old(Joined(db, kb)), w, old(db.workers)[w].doc).(
                                core := AfterDelete(old(db.Contents()), w))
  {
    var d := db.workers[w].doc;
    WriteVerdict(db, kb, w);
    kb.kjobs := kb.kjobs - {d};
    DropRows(db, w);
  }

  // ---------------------------------------------------------------- the exception handler

  function AfterFailure(c: Core, w: WorkerId, failure: Failure, now: Time): Core
    requires w in c.workers && c.workers[w].attempt > 0
    requires c.workers[w].doc in c.docs && c.workers[w].doc in c.jobs && c.workers[w].doc in c.sources
  {
    var d := c.workers[w].doc;
    var s := FailedSlice(c.cfg, Slice(Some(c.docs[d]), Some(c.jobs[d]), Some(c.sources[d]), map[], map[], false),
                         c.workers[w].attempt, failure, now);
    c.(workers := c.workers - {w}, docs := c.docs[d := s.doc.value], jobs := c.jobs[d := s.job.value],
       sources := c.sources[d := s.source.value])
  }

  lemma FailureResult(c: Core, w: WorkerId, now: Time)
    requires Enabled(c, CommitFailure(w, now)) && TokenCurrent(ShareOf(c, w), c.workers[w].attempt)
    ensures Apply(c, CommitFailure(w, now)) == AfterFailure(c, w, c.workers[w].phase.failure, now)
  {
    var a, d := CommitFailure(w, now), c.workers[w].doc;
    RecordStep(c, a);
    SameRows(c, d);
    assert After(c, a).rows == RowsOf(c.chunks, d);
  }

  /** The retry or the end of the job, with its exponential backoff. */
  method RecordFailure(db: Store, w: WorkerId, failure: Failure, now: Time)
    requires w in db.workers && db.workers[w].attempt > 0
    requires db.workers[w].doc in db.docs && db.workers[w].doc in db.jobs
    requires db.workers[w].doc in db.sources && db.sources[db.workers[w].doc].org == db.docs[db.workers[w].doc].org
    modifies db
    ensures db.Contents() == AfterFailure(old(db.Contents()), w, failure, now)
  {
    var d, attempt := db.workers[w].doc, db.workers[w].attempt;
    var code := CodeOf(failure);
    var retry := failure == Transient && attempt < db.cfg.maxAttempts;
    var job, document := db.jobs[d], db.docs[d];
    job := job.(status := if retry then Queued else Failed);
    job := job.(error := code, lease := None);
    job := job.(availableAt := now + db.cfg.retrySeconds * Power2(attempt - 1));
    var waiting := if job.operation == Delete then DocDeleting else DocQueued;
    document := document.(status := if retry then waiting else DocFailed);
    document := document.(error := code);
    db.jobs, db.docs := db.jobs[d := job], db.docs[d := document];
    var state := if job.operation == Delete then SyncDeleting else SyncPending;
    var ok := db.SetSyncState(d, if retry then state else SyncFailed, code);
    db.workers := db.workers - {w};
  }

  // ---------------------------------------------------------------- execute_once

  /** Where a list of steps of the first queue leads, if each is possible in its turn. */
  ghost function Replay(s: Whole.System, actions: seq<Action>): Option<Whole.System>
    decreases |actions|
  {
    if actions == [] then Some(s)
    else
      var before := Replay(s, actions[..|actions| - 1]);
      var t := Whole.Ingestion(actions[|actions| - 1]);
      if before.Some? && Whole.CanStep(before.value, t) then Some(Whole.Next(before.value, t)) else None
  }

  ghost predicate Leads(s: Whole.System, s': Whole.System) {
    exists actions :: Replay(s, actions) == Some(s')
  }

  lemma LeadsNowhere(s: Whole.System)
    ensures Leads(s, s)
  {
    assert Replay(s, []) == Some(s);
  }

  /** One more step on the way. */
  lemma LeadsOn(s0: Whole.System, s: Whole.System, a: Action, s': Whole.System)
    requires Leads(s0, s) && Enabled(s.core, a) && s' == Whole.Next(s, Whole.Ingestion(a))
    ensures Leads(s0, s')
  {
    var actions :| Replay(s0, actions) == Some(s);
    assert (actions + [a])[..|actions|] == actions;
    assert Replay(s0, actions + [a]) == Some(s');
  }

  /** A step that neither decides nor ends a transaction leaves the knowledge side alone. */
  lemma Advance(s0: Whole.System, s: Whole.System, a: Action, s': Whole.System)
    requires Leads(s0, s) && Inv(s.core) && Enabled(s.core, a)
    requires !a.Weigh? && !a.CommitIndex? && !a.CommitDelete? && !a.Raise? && !a.Crash?
    requires s' == s.(core := Apply(s.core, a))
    ensures Leads(s0, s') && Inv(s'.core)
  {
    LeadsOn(s0, s, a, s');
    StepKeepsInv(s.core, a);
  }

  lemma AdvanceWeigh(s0: Whole.System, s: Whole.System, w: WorkerId, s': Whole.System)
    requires Leads(s0, s) && Inv(s.core) && Enabled(s.core, Action.Weigh(w))
    requires s' == s.(core := Apply(s.core, Action.Weigh(w)),
                      pending := s.pending[w := VerdictOn(s.graph, ChunksOf(s.core.chunks, s.core.workers[w].doc))])
    ensures Leads(s0, s') && Inv(s'.core)
  {
    LeadsOn(s0, s, Action.Weigh(w), s');
    StepKeepsInv(s.core, Action.Weigh(w));
  }

  lemma AdvanceRaise(s0: Whole.System, s: Whole.System, w: WorkerId, failure: Failure, s': Whole.System)
    requires Leads(s0, s) && Inv(s.core) && Enabled(s.core, Raise(w, failure))
    requires s' == s.(core := Apply(s.core, Raise(w, failure)), pending := s.pending - {w})
    ensures Leads(s0, s') && Inv(s'.core)
  {
    LeadsOn(s0, s, Raise(w, failure), s');
    StepKeepsInv(s.core, Raise(w, failure));
  }

  lemma AdvanceIndex(s0: Whole.System, s: Whole.System, w: WorkerId, now: Time, s': Whole.System)
    requires Leads(s0, s) && Inv(s.core) && Enabled(s.core, CommitIndex(w, now))
    requires s' == AfterIndexBeside(s, w, s.core.workers[w].doc, now).(core := Apply(s.core, CommitIndex(w, now)))
    ensures Leads(s0, s') && Inv(s'.core)
  {
    LeadsOn(s0, s, CommitIndex(w, now), s');
    StepKeepsInv(s.core, CommitIndex(w, now));
  }

  lemma AdvanceDelete(s0: Whole.System, s: Whole.System, w: WorkerId, s': Whole.System)
    requires Leads(s0, s) && Inv(s.core) && Enabled(s.core, CommitDelete(w))
    requires s' == AfterDeleteBeside(s, w, s.core.workers[w].doc).(core := Apply(s.core, CommitDelete(w)))
    ensures Leads(s0, s') && Inv(s'.core)
  {
    LeadsOn(s0, s, CommitDelete(w), s');
    StepKeepsInv(s.core, CommitDelete(w));
  }

  /** How a run goes: where, if anywhere, an exception is raised. `FailsLate` is between the unlinking of the file or
      the acknowledged upsert and the commit. */
  datatype Outcome =
    | Works(pieces: seq<Piece>)
    | FailsEarly(failure: Failure)
    | FailsClearing(removed: set<PointId>, failure: Failure)
    | FailsCleared(failure: Failure)
    | FailsWriting(pieces: seq<Piece>, part: set<nat>)
    | FailsLate(pieces: seq<Piece>, failure: Failure)

  predicate Plausible(cfg: Config, outcome: Outcome) {
    outcome.Works? || outcome.FailsWriting? || outcome.FailsLate? ==> 1 <= |outcome.pieces| <= cfg.maxChunks
  }

  /** It goes wrong before anything is unlinked or sent. */
  predicate FailsBefore(outcome: Outcome) {
    outcome.FailsEarly? || outcome.FailsClearing? || outcome.FailsCleared?
  }

  /** Worker w is inside its transaction, in this phase, and everything it needs is there. */
  ghost predicate InPhase(c: Core, w: WorkerId, phase: Phase) {
    && Inv(c) && w in c.workers && c.workers[w].phase == phase
    && var d := c.workers[w].doc;
       && d in c.docs && d in c.jobs && d in c.sources && c.sources[d].org == c.docs[d].org
       && c.workers[w].attempt > 0 && TokenCurrent(View(c, d), c.workers[w].attempt)
       && (HoldsLock(phase) ==> d in c.locks && c.locks[d] == w)
  }

  lemma HolderIsAt(c: Core, w: WorkerId)
    requires Inv(c) && w in c.workers && (HoldsLock(c.workers[w].phase) || TokenCurrent(ShareOf(c, w), c.workers[w].attempt))
    ensures InPhase(c, w, c.workers[w].phase)
  {
    assert WorkerOk(c.cfg, c.workers[w], ShareOf(c, w));
    assert SliceOk(c.cfg, c.workers[w].doc, ShareOf(c, w));
    assert LockTaken(c, w);
  }

  /** The failure a run ends with, if any. A delete has nothing to read, chunk or send. */
  function FailureOf(outcome: Outcome, operation: Operation, stored: bool): Option<Failure> {
    if FailsBefore(outcome) then Some(outcome.failure)
    else if operation == Ingest && !stored then Some(Poison("SOURCE_MISSING"))
    else if outcome.FailsLate? then Some(outcome.failure)
    else if operation == Ingest && outcome.FailsWriting? then Some(Transient)
    else None
  }

  /** The points that are there after such a failure, which no rollback brings back or takes away. */
  ghost function PointsLeft(outcome: Outcome, indexes: bool, points: map<PointId, Payload>, d: DocId, doc: Document)
    : map<PointId, Payload>
  {
    if outcome.FailsEarly? then points
    else if outcome.FailsClearing? then WithoutSome(points, doc.org, d, outcome.removed)
    else if outcome.FailsWriting? && indexes
    then WithoutPoints(points, doc.org, d) + Batch(d, doc, outcome.pieces, Some(outcome.part))
    else if outcome.FailsLate? && indexes
    then WithoutPoints(points, doc.org, d) + Batch(d, doc, outcome.pieces, None)
    else WithoutPoints(points, doc.org, d)
  }

  /** And the files. */
  function FilesLeft(outcome: Outcome, operation: Operation, files: set<DocId>, d: DocId): set<DocId> {
    if outcome.FailsLate? && operation == Delete then files - {d} else files
  }

  /** What a failed attempt leaves outside the database. */
  ghost predicate LeftOutside(s: Whole.System, d: DocId, outcome: Outcome, s': Whole.System)
    requires d in s.core.docs && d in s.core.jobs
  {
    var operation := s.core.jobs[d].operation;
    && s'.core.points == PointsLeft(outcome, operation == Ingest && d in s.core.files, s.core.points, d, s.core.docs[d])
    && s'.core.files == FilesLeft(outcome, operation, s.core.files, d)
  }

  /** What a run that went well, with nobody in between, has made of the tables s. */
  ghost predicate Completed(s: Whole.System, d: DocId, outcome: Outcome, later: Time, s': Whole.System)
    requires d in s.core.docs && d in s.core.jobs
  {
    && s'.graph == WithdrawDocument(s.graph, ChunksOf(s.core.chunks, d)) && s'.kworkers == s.kworkers
    && var doc := s.core.docs[d];
       if s.core.jobs[d].operation == Delete then
         && d !in s'.core.docs && d !in s'.core.jobs && d !in s'.core.files && s'.kjobs == s.kjobs - {d}
         && s'.core.chunks == WithoutRows(s.core.chunks, d) && s'.core.points == WithoutPoints(s.core.points, doc.org, d)
       else
         && outcome.Works? && d in s'.core.docs && s'.core.docs[d].status == DocReady
         && s'.core.chunks == WithoutRows(s.core.chunks, d) + NewRows(d, doc.generation, outcome.pieces)
         && s'.kjobs == s.kjobs[d := Whole.Enqueued(s.kjobs, d, doc.org, doc.generation, later)]
  }

  /** What a run that failed in this attempt has made of them: rows, evidence and knowledge job are as they were, and
      the job waits again or has failed. */
  ghost predicate RolledBack(s: Whole.System, d: DocId, attempt: nat, outcome: Outcome, failure: Failure, later: Time,
                       s': Whole.System)
    requires d in s.core.docs && d in s.core.jobs && attempt > 0
  {
    && s'.graph == s.graph && s'.kjobs == s.kjobs && s'.kworkers == s.kworkers && s'.core.chunks == s.core.chunks
    && LeftOutside(s, d, outcome, s')
    && d in s'.core.jobs
    && var job, cfg := s'.core.jobs[d], s.core.cfg;
       && job.attempts == attempt && job.operation == s.core.jobs[d].operation
       && job.status == (if failure == Transient && attempt < cfg.maxAttempts then Queued else JobStatus.Failed)
       && job.availableAt == later + cfg.retrySeconds * Power2(attempt - 1)
  }

  /** The outcome of a run, failed or not; no decision is left open. */
  ghost predicate Ended(s: Whole.System, w: WorkerId, d: DocId, attempt: nat, outcome: Outcome, later: Time, s': Whole.System)
    requires d in s.core.docs && d in s.core.jobs && attempt > 0
  {
    var failure := FailureOf(outcome, s.core.jobs[d].operation, d in s.core.files);
    && s'.pending == s.pending - {w}
    && if failure.None? then Completed(s, d, outcome, later, s')
       else RolledBack(s, d, attempt, outcome, failure.value, later, s')
  }

  /** Records, rows and the knowledge side are as they were, whatever worker w has decided. */
  predicate Kept(s: Whole.System, w: WorkerId, s': Whole.System) {
    && s'.core.docs == s.core.docs && s'.core.jobs == s.core.jobs && s'.core.chunks == s.core.chunks
    && s'.core.cfg == s.core.cfg
    && s'.graph == s.graph && s'.kjobs == s.kjobs && s'.kworkers == s.kworkers && s'.pending - {w} == s.pending - {w}
  }

  /** What the try block leaves, having failed or not, before a failure is recorded. */
  ghost predicate Left(s: Whole.System, w: WorkerId, d: DocId, outcome: Outcome, failure: Option<Failure>, later: Time,
                 s': Whole.System)
    requires d in s.core.docs && d in s.core.jobs
  {
    && failure == FailureOf(outcome, s.core.jobs[d].operation, d in s.core.files)
    && if failure.None? then Completed(s, d, outcome, later, s') && s'.pending == s.pending - {w}
       else Kept(s, w, s') && LeftOutside(s, d, outcome, s')
  }

  /** Only the points and the file of a document, and who is at work, differ. */
  predicate OnlyOutside(s: Whole.System, w: WorkerId, points: map<PointId, Payload>, files: set<DocId>, s': Whole.System) {
    Kept(s, w, s') && s'.pending == s.pending && s'.core.points == points && s'.core.files == files
  }

  /** The token w had it still has, and it can go on in the phase it is in. */
  ghost predicate StillAt(c: Core, wk: Worker, w: WorkerId) {
    w in c.workers && HoldsLock(c.workers[w].phase) && SameToken(c.workers[w], wk) && InPhase(c, w, c.workers[w].phase)
  }

  /** The points are gone, and the transaction has decided by what is there. */
  predicate JustWeighed(s: Whole.System, w: WorkerId, d: DocId, s': Whole.System)
    requires d in s.core.docs
  {
    && Kept(s, w, s') && s'.core.files == s.core.files && Judged(s', w, d)
    && s'.core.points == WithoutPoints(s.core.points, s.core.docs[d].org, d)
  }

  /** The decision of w is still right. */
  predicate Judged(s: Whole.System, w: WorkerId, d: DocId) {
    w in s.pending && s.pending[w] == VerdictOn(s.graph, ChunksOf(s.core.chunks, d))
  }

  lemma LeftFromWeighed(s: Whole.System, s1: Whole.System, w: WorkerId, d: DocId, outcome: Outcome,
                        failure: Option<Failure>, later: Time, s': Whole.System)
    requires d in s.core.docs && d in s.core.jobs && !outcome.FailsEarly? && !outcome.FailsClearing?
    requires JustWeighed(s, w, d, s1) && Left(s1, w, d, outcome, failure, later, s')
    ensures Left(s, w, d, outcome, failure, later, s')
  {
    NoneLeft(s, w, d, s1);
  }

  /** The store has no points of d left to delete. */
  predicate NoPoints(c: Core, d: DocId)
    requires d in c.docs
  {
    WithoutPoints(c.points, c.docs[d].org, d) == c.points
  }

  lemma NoneLeft(s: Whole.System, w: WorkerId, d: DocId, s1: Whole.System)
    requires d in s.core.docs && JustWeighed(s, w, d, s1)
    ensures NoPoints(s1.core, d)
  {
    var org := s.core.docs[d].org;
    assert WithoutPoints(WithoutPoints(s.core.points, org, d), org, d) == WithoutPoints(s.core.points, org, d);
  }

  method BreakOffClearing(db: Store, kb: Annex, w: WorkerId, removed: set<PointId>, ghost s0: Whole.System)
    requires InPhase(db.Contents(), w, Fenced) && Leads(s0, Joined(db, kb))
    modifies db`points, db`workers
    ensures Leads(s0, Joined(db, kb)) && StillAt(db.Contents(), old(db.workers)[w], w)
    ensures Joined(db, kb) == old(Joined(db, kb)).(core := AfterClearPart(old(db.Contents()), w, removed))
  {
    ghost var s := Joined(db, kb);
    ClearPartResult(s.core, w, removed);
    DeleteSomePoints(db, w, removed);
    Advance(s0, s, ClearPart(w, removed), Joined(db, kb));
    HolderIsAt(db.Contents(), w);
  }

  lemma ClearStep(s0: Whole.System, s: Whole.System, w: WorkerId, s': Whole.System)
    requires InPhase(s.core, w, Fenced) && Leads(s0, s) && s' == s.(core := AfterClear(s.core, w))
    ensures Leads(s0, s') && InPhase(s'.core, w, Cleared)
  {
    ClearResult(s.core, w);
    Advance(s0, s, ClearVectors(w), s');
    HolderIsAt(s'.core, w);
  }

  lemma WeighStep(s0: Whole.System, s: Whole.System, w: WorkerId, s': Whole.System)
    requires InPhase(s.core, w, Cleared) && Leads(s0, s)
    requires s' == s.(core := Standing(s.core, w, Weighed),
                      pending := s.pending[w := VerdictOn(s.graph, ChunksOf(s.core.chunks, s.core.workers[w].doc))])
    ensures Leads(s0, s') && InPhase(s'.core, w, Weighed)
  {
    WeighResult(s.core, w);
    AdvanceWeigh(s0, s, w, s');
    HolderIsAt(s'.core, w);
  }

  /** The body of the try block once the document is locked: None when it committed. */
  method Attempt(db: Store, kb: Annex, w: WorkerId, outcome: Outcome, later: Time, ghost s0: Whole.System)
    returns (failure: Option<Failure>)
    requires InPhase(db.Contents(), w, Fenced) && Leads(s0, Joined(db, kb)) && Plausible(db.cfg, outcome)
    modifies db, kb`kjobs, kb`pending, kb.tables
    ensures Inv(db.Contents()) && Leads(s0, Joined(db, kb))
    ensures Left(old(Joined(db, kb)), w, old(db.workers)[w].doc, outcome, failure, later, Joined(db, kb))
    ensures if failure.None? then w !in db.workers else StillAt(db.Contents(), old(db.workers)[w], w)
  {
    if outcome.FailsEarly? {
      failure := Some(outcome.failure);
    } else if outcome.FailsClearing? {
      ghost var s := Joined(db, kb);
      BreakOffClearing(db, kb, w, outcome.removed, s0);
      failure := Some(outcome.failure);
      BrokenOffIsLeft(s, w, outcome, later);
    } else {
      failure := AttemptCleared(db, kb, w, outcome, later, s0);
    }
  }

  lemma BrokenOffIsLeft(s: Whole.System, w: WorkerId, outcome: Outcome, later: Time)
    requires w in s.core.workers && s.core.workers[w].doc in s.core.docs && s.core.workers[w].doc in s.core.jobs
    requires outcome.FailsClearing?
    ensures Left(s, w, s.core.workers[w].doc, outcome, Some(outcome.failure), later,
                 s.(core := AfterClearPart(s.core, w, outcome.removed)))
  {
  }

  /** When the points can be deleted. */
  method AttemptCleared(db: Store, kb: Annex, w: WorkerId, outcome: Outcome, later: Time, ghost s0: Whole.System)
    returns (failure: Option<Failure>)
    requires InPhase(db.Contents(), w, Fenced) && Leads(s0, Joined(db, kb)) && Plausible(db.cfg, outcome)
    requires !outcome.FailsEarly? && !outcome.FailsClearing?
    modifies db, kb`kjobs, kb`pending, kb.tables
    ensures Inv(db.Contents()) && Leads(s0, Joined(db, kb))
    ensures Left(old(Joined(db, kb)), w, old(db.workers)[w].doc, outcome, failure, later, Joined(db, kb))
    ensures if failure.None? then w !in db.workers else StillAt(db.Contents(), old(db.workers)[w], w)
  {
    ghost var s, d := Joined(db, kb), db.workers[w].doc;
    Prepare(db, kb, w, s0);
    ghost var s1 := Joined(db, kb);
    NoneLeft(s, w, d, s1);
    failure := AttemptWeighed(db, kb, w, outcome, later, s0);
    LeftFromWeighed(s, s1, w, d, outcome, failure, later, Joined(db, kb));
  }

  /** Points deleted, evidence weighed. */
  method Prepare(db: Store, kb: Annex, w: WorkerId, ghost s0: Whole.System)
    requires InPhase(db.Contents(), w, Fenced) && Leads(s0, Joined(db, kb))
    modifies db`points, db`workers, kb`pending
    ensures Leads(s0, Joined(db, kb)) && w in db.workers && SameToken(db.workers[w], old(db.workers)[w])
    ensures InPhase(db.Contents(), w, Weighed)
    ensures JustWeighed(old(Joined(db, kb)), w, old(db.workers)[w].doc, Joined(db, kb))
  {
    ghost var s := Joined(db, kb);
    DeletePoints(db, w);
    WeighEvidence(db, kb, w);
    PrepareStep(s0, s, w, Joined(db, kb));
    PreparedIs(s, w);
  }

  lemma PrepareStep(s0: Whole.System, s: Whole.System, w: WorkerId, s': Whole.System)
    requires InPhase(s.core, w, Fenced) && Leads(s0, s) && s' == Prepared(s, w)
    ensures Leads(s0, s') && InPhase(s'.core, w, Weighed)
  {
    var s1 := s.(core := AfterClear(s.core, w));
    ClearStep(s0, s, w, s1);
    WeighStep(s0, s1, w, s');
  }

  ghost function Prepared(s: Whole.System, w: WorkerId): Whole.System
    requires w in s.core.workers && s.core.workers[w].doc in s.core.docs
  {
    s.(core := Standing(AfterClear(s.core, w), w, Weighed),
       pending := s.pending[w := VerdictOn(s.graph, ChunksOf(s.core.chunks, s.core.workers[w].doc))])
  }

  lemma PreparedIs(s: Whole.System, w: WorkerId)
    requires w in s.core.workers && s.core.workers[w].doc in s.core.docs
    ensures var s' := Prepared(s, w);
            && w in s'.core.workers && SameToken(s'.core.workers[w], s.core.workers[w])
            && JustWeighed(s, w, s.core.workers[w].doc, s')
  {
  }

  /** The rest of it. */
  method AttemptWeighed(db: Store, kb: Annex, w: WorkerId, outcome: Outcome, later: Time, ghost s0: Whole.System)
    returns (failure: Option<Failure>)
    requires InPhase(db.Contents(), w, Weighed) && Leads(s0, Joined(db, kb)) && Plausible(db.cfg, outcome)
    requires !outcome.FailsEarly? && !outcome.FailsClearing? && NoPoints(db.Contents(), db.workers[w].doc)
    requires Judged(Joined(db, kb), w, db.workers[w].doc)
    modifies db, kb`kjobs, kb`pending, kb.tables
    ensures Inv(db.Contents()) && Leads(s0, Joined(db, kb))
    ensures Left(old(Joined(db, kb)), w, old(db.workers)[w].doc, outcome, failure, later, Joined(db, kb))
    ensures if failure.None? then w !in db.workers else StillAt(db.Contents(), old(db.workers)[w], w)
  {
    if outcome.FailsCleared? { return Some(outcome.failure); }
    var d := db.workers[w].doc;
    if db.jobs[d].operation == Delete {
      failure := AttemptDelete(db, kb, w, outcome, later, s0);
    } else if d !in db.files {
      failure := Some(Poison("SOURCE_MISSING"));
    } else {
      failure := AttemptIndex(db, kb, w, outcome, later, s0);
    }
  }

  method AttemptDelete(db: Store, kb: Annex, w: WorkerId, outcome: Outcome, later: Time, ghost s0: Whole.System)
    returns (failure: Option<Failure>)
    requires InPhase(db.Contents(), w, Weighed) && Leads(s0, Joined(db, kb))
    requires db.jobs[db.workers[w].doc].operation == Delete && !FailsBefore(outcome)
    requires NoPoints(db.Contents(), db.workers[w].doc) && Judged(Joined(db, kb), w, db.workers[w].doc)
    modifies db, kb`kjobs, kb`pending, kb.tables
    ensures Inv(db.Contents()) && Leads(s0, Joined(db, kb))
    ensures Left(old(Joined(db, kb)), w, old(db.workers)[w].doc, outcome, failure, later, Joined(db, kb))
    ensures if failure.None? then w !in db.workers else StillAt(db.Contents(), old(db.workers)[w], w)
  {
    ghost var s, d := Joined(db, kb), db.workers[w].doc;
    UnlinkFile(db, kb, w, s0);
    ghost var s1 := Joined(db, kb);
    failure := FailureOf(outcome, Delete, true);
    if failure.None? {
      CommitUnlinked(db, kb, w, s0);
    }
    UnlinkedIsLeft(s, s1, w, d, outcome, failure, later, Joined(db, kb));
  }

  method CommitUnlinked(db: Store, kb: Annex, w: WorkerId, ghost s0: Whole.System)
    requires InPhase(db.Contents(), w, Unlinked) && Leads(s0, Joined(db, kb))
    requires Judged(Joined(db, kb), w, db.workers[w].doc)
    modifies db, kb`kjobs, kb`pending, kb.tables
    ensures Inv(db.Contents()) && Leads(s0, Joined(db, kb)) && w !in db.workers
    ensures Dropped(old(Joined(db, kb)), w, old(db.workers)[w].doc, Joined(db, kb))
  {
    ghost var s := Joined(db, kb);
    DeleteResult(s.core, w);
    WithdrawAtOnce(s.graph, ChunksOf(s.core.chunks, s.core.workers[w].doc));
    FinishDelete(db, kb, w);
    AdvanceDelete(s0, s, w, Joined(db, kb));
  }

  /** Nothing of document d is left in the database but its source. */
  ghost predicate Dropped(s: Whole.System, w: WorkerId, d: DocId, s': Whole.System) {
    && d !in s'.core.docs && d !in s'.core.jobs && s'.kjobs == s.kjobs - {d} && s'.core.files == s.core.files
    && s'.core.chunks == WithoutRows(s.core.chunks, d) && s'.core.points == s.core.points
    && s'.graph == WithdrawDocument(s.graph, ChunksOf(s.core.chunks, d)) && s'.kworkers == s.kworkers
    && s'.pending == s.pending - {w}
  }

  lemma UnlinkedIsLeft(s: Whole.System, s1: Whole.System, w: WorkerId, d: DocId, outcome: Outcome,
                       failure: Option<Failure>, later: Time, s': Whole.System)
    requires d in s.core.docs && d in s.core.jobs && s.core.jobs[d].operation == Delete && NoPoints(s.core, d)
    requires !FailsBefore(outcome) && failure == FailureOf(outcome, Delete, true)
    requires OnlyOutside(s, w, s.core.points, s.core.files - {d}, s1)
    requires if failure.None? then Dropped(s1, w, d, s') else s' == s1
    ensures Left(s, w, d, outcome, failure, later, s')
  {
  }

  /** `storage.delete` */
  method UnlinkFile(db: Store, kb: Annex, w: WorkerId, ghost s0: Whole.System)
    requires InPhase(db.Contents(), w, Weighed) && Leads(s0, Joined(db, kb))
    requires db.jobs[db.workers[w].doc].operation == Delete
    modifies db`files, db`workers
    ensures Leads(s0, Joined(db, kb)) && w in db.workers && SameToken(db.workers[w], old(db.workers)[w])
    ensures InPhase(db.Contents(), w, Unlinked)
    ensures OnlyOutside(old(Joined(db, kb)), w, old(db.points), old(db.files) - {old(db.workers)[w].doc}, Joined(db, kb))
  {
    ghost var s := Joined(db, kb);
    var d := db.workers[w].doc;
    UnlinkResult(s.core, w);
    db.files := db.files - {d};
    db.workers := db.workers[w := db.workers[w].(phase := Unlinked)];
    Advance(s0, s, Action.Unlink(w), Joined(db, kb));
    HolderIsAt(db.Contents(), w);
  }

  lemma UnlinkResult(c: Core, w: WorkerId)
    requires InPhase(c, w, Weighed) && c.jobs[c.workers[w].doc].operation == Delete
    ensures Enabled(c, Action.Unlink(w))
    ensures Apply(c, Action.Unlink(w)) == Standing(c, w, Unlinked).(files := c.files - {c.workers[w].doc})
  {
    var d := c.workers[w].doc;
    SameRecords(c, d);
    SameRows(c, d);
    SamePoints(c, d);
  }

  lemma PlanResult(c: Core, w: WorkerId, pieces: seq<Piece>)
    requires InPhase(c, w, Weighed) && Enabled(c, Plan(w, pieces))
    ensures Apply(c, Plan(w, pieces)) == Standing(c, w, Planned(pieces))
  {
    PointStep(c, Plan(w, pieces));
    SamePoints(c, c.workers[w].doc);
  }

  lemma SendStep(s0: Whole.System, s: Whole.System, w: WorkerId, pieces: seq<Piece>, part: Option<set<nat>>,
                 s': Whole.System)
    requires InPhase(s.core, w, Planned(pieces)) && Leads(s0, s)
    requires s' == s.(core := AfterUpsert(s.core, w, pieces, part))
    ensures Leads(s0, s') && InPhase(s'.core, w, if part.Some? then Writing(pieces, part.value) else Written(pieces))
  {
    UpsertResult(s.core, w, part);
    Advance(s0, s, UpsertAction(w, part), s');
    HolderIsAt(s'.core, w);
  }

  /** Read, chunk and embed, when nothing is stored yet; then send the points off. */
  method WritePoints(db: Store, kb: Annex, w: WorkerId, pieces: seq<Piece>, part: Option<set<nat>>,
                     ghost s0: Whole.System)
    requires InPhase(db.Contents(), w, Weighed) && Leads(s0, Joined(db, kb)) && 1 <= |pieces| <= db.cfg.maxChunks
    requires db.jobs[db.workers[w].doc].operation == Ingest && db.workers[w].doc in db.files
    requires Judged(Joined(db, kb), w, db.workers[w].doc)
    modifies db`points, db`workers
    ensures Leads(s0, Joined(db, kb)) && w in db.workers && SameToken(db.workers[w], old(db.workers)[w])
    ensures InPhase(db.Contents(), w, if part.Some? then Writing(pieces, part.value) else Written(pieces))
    ensures var d := old(db.workers)[w].doc;
            OnlyOutside(old(Joined(db, kb)), w, old(db.points) + Batch(d, old(db.docs)[d], pieces, part), old(db.files),
                        Joined(db, kb))
    ensures Judged(Joined(db, kb), w, db.workers[w].doc)
  {
    ghost var s := Joined(db, kb);
    db.workers := db.workers[w := db.workers[w].(phase := Planned(pieces))];
    Upsert(db, w, pieces, part);
    WriteStep(s0, s, w, pieces, part, Joined(db, kb));
  }

  lemma WriteStep(s0: Whole.System, s: Whole.System, w: WorkerId, pieces: seq<Piece>, part: Option<set<nat>>,
                  s': Whole.System)
    requires InPhase(s.core, w, Weighed) && Leads(s0, s) && 1 <= |pieces| <= s.core.cfg.maxChunks
    requires s.core.jobs[s.core.workers[w].doc].operation == Ingest && s.core.workers[w].doc in s.core.files
    requires s' == s.(core := AfterUpsert(Standing(s.core, w, Planned(pieces)), w, pieces, part))
    ensures Leads(s0, s') && InPhase(s'.core, w, if part.Some? then Writing(pieces, part.value) else Written(pieces))
  {
    var s1 := s.(core := Standing(s.core, w, Planned(pieces)));
    CanPlan(s.core, w, pieces);
    PlanResult(s.core, w, pieces);
    Advance(s0, s, Plan(w, pieces), s1);
    HolderIsAt(s1.core, w);
    SendStep(s0, s1, w, pieces, part, s');
  }

  method AttemptIndex(db: Store, kb: Annex, w: WorkerId, outcome: Outcome, later: Time, ghost s0: Whole.System)
    returns (failure: Option<Failure>)
    requires InPhase(db.Contents(), w, Weighed) && Leads(s0, Joined(db, kb)) && Plausible(db.cfg, outcome)
    requires db.jobs[db.workers[w].doc].operation == Ingest && db.workers[w].doc in db.files
    requires !FailsBefore(outcome) && NoPoints(db.Contents(), db.workers[w].doc)
    requires Judged(Joined(db, kb), w, db.workers[w].doc)
    modifies db, kb`kjobs, kb`pending, kb.tables
    ensures Inv(db.Contents()) && Leads(s0, Joined(db, kb))
    ensures Left(old(Joined(db, kb)), w, old(db.workers)[w].doc, outcome, failure, later, Joined(db, kb))
    ensures if failure.None? then w !in db.workers else StillAt(db.Contents(), old(db.workers)[w], w)
  {
    ghost var s, d := Joined(db, kb), db.workers[w].doc;
    var part := if outcome.FailsWriting? then Some(outcome.part) else None;
    WritePoints(db, kb, w, outcome.pieces, part, s0);
    ghost var s1 := Joined(db, kb);
    failure := FailureOf(outcome, Ingest, true);
    CommitUnlessFailed(db, kb, w, outcome.pieces, failure, later, s0);
    SentIsLeft(s, s1, w, d, outcome, failure, later, Joined(db, kb));
  }

  /** The commit, unless something has gone wrong since the upsert, or in it. */
  method CommitUnlessFailed(db: Store, kb: Annex, w: WorkerId, pieces: seq<Piece>, failure: Option<Failure>,
                            later: Time, ghost s0: Whole.System)
    requires w in db.workers && InPhase(db.Contents(), w, db.workers[w].phase) && HoldsLock(db.workers[w].phase)
    requires failure.None? ==> db.workers[w].phase == Written(pieces)
    requires Leads(s0, Joined(db, kb)) && db.jobs[db.workers[w].doc].operation == Ingest
    requires Judged(Joined(db, kb), w, db.workers[w].doc)
    modifies db, kb`kjobs, kb`pending, kb.tables
    ensures Inv(db.Contents()) && Leads(s0, Joined(db, kb))
    ensures failure.Some? ==> Joined(db, kb) == old(Joined(db, kb))
    ensures failure.None? ==>
              && w !in db.workers && kb.pending == old(kb.pending) - {w}
              && Completed(old(Joined(db, kb)), old(db.workers)[w].doc, Works(pieces), later, Joined(db, kb))
  {
    if failure.None? {
      CommitWritten(db, kb, w, pieces, later, s0);
    }
  }

  lemma CanPlan(c: Core, w: WorkerId, pieces: seq<Piece>)
    requires InPhase(c, w, Weighed) && c.jobs[c.workers[w].doc].operation == Ingest && c.workers[w].doc in c.files
    requires 1 <= |pieces| <= c.cfg.maxChunks
    ensures Enabled(c, Plan(w, pieces))
  {
  }

  lemma SentIsLeft(s: Whole.System, s1: Whole.System, w: WorkerId, d: DocId, outcome: Outcome,
                   failure: Option<Failure>, later: Time, s': Whole.System)
    requires d in s.core.docs && d in s.core.jobs && s.core.jobs[d].operation == Ingest && d in s.core.files
    requires NoPoints(s.core, d) && !FailsBefore(outcome) && failure == FailureOf(outcome, Ingest, true)
    requires OnlyOutside(s, w, s.core.points + Batch(d, s.core.docs[d], outcome.pieces,
                                                     if outcome.FailsWriting? then Some(outcome.part) else None),
                         s.core.files, s1)
    requires if failure.None? then Completed(s1, d, Works(outcome.pieces), later, s') && s'.pending == s.pending - {w}
             else s' == s1
    ensures Left(s, w, d, outcome, failure, later, s')
  {
  }

  method CommitWritten(db: Store, kb: Annex, w: WorkerId, pieces: seq<Piece>, later: Time, ghost s0: Whole.System)
    requires InPhase(db.Contents(), w, Written(pieces)) && Leads(s0, Joined(db, kb))
    requires db.jobs[db.workers[w].doc].operation == Ingest && Judged(Joined(db, kb), w, db.workers[w].doc)
    modifies db, kb`kjobs, kb`pending, kb.tables
    ensures Inv(db.Contents()) && Leads(s0, Joined(db, kb)) && w !in db.workers
    ensures Completed(old(Joined(db, kb)), old(db.workers)[w].doc, Works(pieces), later, Joined(db, kb))
    ensures kb.pending == old(kb.pending) - {w}
  {
    ghost var s := Joined(db, kb);
    IndexResult(s.core, w, later);
    WithdrawAtOnce(s.graph, ChunksOf(s.core.chunks, s.core.workers[w].doc));
    FinishIndex(db, kb, w, pieces, later);
    AdvanceIndex(s0, s, w, later, Joined(db, kb));
  }

  /** The transaction is rolled back and the lock is free. */
  method Rollback(db: Store, kb: Annex, w: WorkerId, failure: Failure, ghost s0: Whole.System)
    requires w in db.workers && HoldsLock(db.workers[w].phase)
    requires InPhase(db.Contents(), w, db.workers[w].phase) && Leads(s0, Joined(db, kb))
    modifies db`locks, db`workers, kb`pending
    ensures Leads(s0, Joined(db, kb)) && w in db.workers && SameToken(db.workers[w], old(db.workers)[w])
    ensures InPhase(db.Contents(), w, Caught(failure)) && db.workers[w].doc !in db.locks
    ensures kb.pending == old(kb.pending) - {w}
  {
    ghost var s := Joined(db, kb);
    RaiseResult(s.core, w, failure);
    var d := db.workers[w].doc;
    db.locks := db.locks - {d};
    db.workers := db.workers[w := db.workers[w].(phase := Caught(failure))];
    kb.pending := kb.pending - {w};
    AdvanceRaise(s0, s, w, failure, Joined(db, kb));
    HolderIsAt(db.Contents(), w);
  }

  /** The failure of this attempt is recorded, and nothing else has changed. */
  predicate Recorded(s: Whole.System, w: WorkerId, d: DocId, attempt: nat, failure: Failure, later: Time,
                     s': Whole.System)
    requires d in s.core.jobs && attempt > 0
  {
    && s'.core.chunks == s.core.chunks && s'.core.points == s.core.points && s'.core.files == s.core.files
    && s'.pending == s.pending - {w}
    && s'.graph == s.graph && s'.kjobs == s.kjobs && s'.kworkers == s.kworkers
    && d in s'.core.jobs
    && var job, cfg := s'.core.jobs[d], s.core.cfg;
       && job.attempts == attempt && job.operation == s.core.jobs[d].operation
       && job.status == (if failure == Transient && attempt < cfg.maxAttempts then Queued else JobStatus.Failed)
       && job.availableAt == later + cfg.retrySeconds * Power2(attempt - 1)
  }

  /** The exception handler. */
  method Recover(db: Store, kb: Annex, w: WorkerId, failure: Failure, later: Time, ghost s0: Whole.System)
    requires w in db.workers && HoldsLock(db.workers[w].phase)
    requires InPhase(db.Contents(), w, db.workers[w].phase) && Leads(s0, Joined(db, kb))
    modifies db, kb`pending
    ensures Inv(db.Contents()) && Leads(s0, Joined(db, kb)) && w !in db.workers
    ensures Recorded(old(Joined(db, kb)), w, old(db.workers)[w].doc, old(db.workers)[w].attempt, failure, later, Joined(db, kb))
  {
    Rollback(db, kb, w, failure, s0);
    ghost var s := Joined(db, kb);
    FailureResult(s.core, w, later);
    RecordFailure(db, w, failure, later);
    Advance(s0, s, CommitFailure(w, later), Joined(db, kb));
  }

  lemma RaiseResult(c: Core, w: WorkerId, failure: Failure)
    requires w in c.workers && HoldsLock(c.workers[w].phase)
    ensures Enabled(c, Raise(w, failure))
    ensures Apply(c, Raise(w, failure)) == Standing(c, w, Caught(failure)).(locks := c.locks - {c.workers[w].doc})
  {
    PointStep(c, Raise(w, failure));
    SamePoints(c, c.workers[w].doc);
  }

  /** `execute_once`: whatever goes right or wrong, the tables of both sides end up where steps of the state machine
      lead, and the worker is done. A run that goes well leaves its document READY with exactly the new rows and an
      extraction waiting, or gone; either way what rested on the old rows is withdrawn. A run that fails leaves rows,
      evidence and knowledge job as they were, the points as it left them, and its job queued again or failed for
      good. */
  method ExecuteOnce(db: Store, kb: Annex, w: WorkerId, now: Time, outcome: Outcome, later: Time)
    returns (worked: bool, done: Option<DocId>)
    requires Inv(db.Contents()) && w !in db.workers && Plausible(db.cfg, outcome)
    modifies db, kb`kjobs, kb`pending, kb.tables
    ensures Inv(db.Contents()) && Leads(old(Joined(db, kb)), Joined(db, kb)) && w !in db.workers
    ensures worked <==> done.Some?
    ensures !worked ==>
              && db.chunks == old(db.chunks) && db.points == old(db.points)
              && kb.kjobs == old(kb.kjobs) && kb.tables.Contents() == old(kb.tables.Contents())
              && kb.pending == old(kb.pending)
    ensures worked ==>
              && done.value in old(db.jobs) && done.value in old(db.docs)
              && Ended(old(Joined(db, kb)), w, done.value, old(db.jobs)[done.value].attempts + 1, outcome, later, Joined(db, kb))
  {
    ghost var s0 := Joined(db, kb);
    var selected := ClaimStep(db, kb, w, now);
    if selected.None? {
      return false, None;
    }
    ghost var s := Joined(db, kb);
    RunClaimed(db, kb, w, outcome, later, s0);
    EndedFromClaim(s0, s, w, selected.value.0, selected.value.1, outcome, later, Joined(db, kb));
    return true, Some(selected.value.0);
  }

  /** The token is still current: the document is locked and the transaction open. */
  method OpenTransaction(db: Store, kb: Annex, w: WorkerId, ghost s0: Whole.System)
    requires Inv(db.Contents()) && Leads(s0, Joined(db, kb))
    requires w in db.workers && db.workers[w].phase == Claimed && db.workers[w].doc !in db.locks
    requires TokenCurrent(View(db.Contents(), db.workers[w].doc), db.workers[w].attempt)
    modifies db
    ensures w in db.workers && SameToken(db.workers[w], old(db.workers)[w])
    ensures InPhase(db.Contents(), w, Fenced) && Leads(s0, Joined(db, kb))
    ensures Kept(old(Joined(db, kb)), w, Joined(db, kb)) && db.points == old(db.points) && db.files == old(db.files)
  {
    ghost var s := Joined(db, kb);
    FenceResult(s.core, w);
    var passes := LockJob(db, w);
    Advance(s0, s, Fence(w), Joined(db, kb));
    HolderIsAt(db.Contents(), w);
  }

  /** The run of a job just claimed. */
  method RunClaimed(db: Store, kb: Annex, w: WorkerId, outcome: Outcome, later: Time, ghost s0: Whole.System)
    requires Inv(db.Contents()) && Leads(s0, Joined(db, kb)) && Plausible(db.cfg, outcome)
    requires w in db.workers && db.workers[w].phase == Claimed && db.workers[w].doc !in db.locks
    requires TokenCurrent(View(db.Contents(), db.workers[w].doc), db.workers[w].attempt) && db.workers[w].attempt > 0
    modifies db, kb`kjobs, kb`pending, kb.tables
    ensures Inv(db.Contents()) && Leads(s0, Joined(db, kb)) && w !in db.workers
    ensures Ended(old(Joined(db, kb)), w, old(db.workers)[w].doc, old(db.workers)[w].attempt, outcome, later, Joined(db, kb))
  {
    ghost var s, d, attempt := Joined(db, kb), db.workers[w].doc, db.workers[w].attempt;
    OpenTransaction(db, kb, w, s0);
    ghost var s1 := Joined(db, kb);
    var failure := Attempt(db, kb, w, outcome, later, s0);
    ghost var s2 := Joined(db, kb);
    if failure.Some? {
      Recover(db, kb, w, failure.value, later, s0);
    }
    EndedIf(s, s1, w, d, attempt, outcome, failure, later, s2, Joined(db, kb));
  }

  /** The parts of a run put together. */
  lemma EndedIf(s: Whole.System, s1: Whole.System, w: WorkerId, d: DocId, attempt: nat, outcome: Outcome,
                failure: Option<Failure>, later: Time, s2: Whole.System, s': Whole.System)
    requires d in s.core.docs && d in s.core.jobs && attempt > 0
    requires Kept(s, w, s1) && s1.core.points == s.core.points && s1.core.files == s.core.files
    requires Left(s1, w, d, outcome, failure, later, s2)
    requires if failure.None? then s' == s2 else Recorded(s2, w, d, attempt, failure.value, later, s')
    ensures Ended(s, w, d, attempt, outcome, later, s')
  {
  }

  /** `claim`, as a step of the run. */
  method ClaimStep(db: Store, kb: Annex, w: WorkerId, now: Time) returns (r: Option<(DocId, nat)>)
    requires Inv(db.Contents()) && w !in db.workers
    modifies db
    ensures Inv(db.Contents()) && Leads(old(Joined(db, kb)), Joined(db, kb))
    ensures db.chunks == old(db.chunks) && db.points == old(db.points)
    ensures r.None? ==> w !in db.workers
    ensures r.Some? ==>
              && var d := r.value.0;
                 && w in db.workers && db.workers[w] == Worker(d, r.value.1, db.workers[w].round, Claimed)
                 && d !in db.locks && TokenCurrent(View(db.Contents(), d), r.value.1)
                 && JustClaimed(old(Joined(db, kb)), Joined(db, kb), d, r.value.1)
  {
    ghost var s := Joined(db, kb);
    LeadsNowhere(s);
    ghost var row;
    r, row := db.Claim(w, now);
    if row.Some? {
      ClaimFacts(s.core, w, row.value, now);
      Advance(s, s, Action.Claim(w, row.value, now), Joined(db, kb));
    }
  }

  /** s' differs from s by the claim of an attempt at document d. */
  predicate JustClaimed(s: Whole.System, s': Whole.System, d: DocId, attempt: nat) {
    && s'.core.chunks == s.core.chunks && s'.core.points == s.core.points && s'.core.files == s.core.files
    && s'.core.cfg == s.core.cfg && s'.graph == s.graph && s'.kjobs == s.kjobs && s'.kworkers == s.kworkers
    && s'.pending == s.pending && d in s.core.docs && d in s.core.jobs && d in s'.core.docs && d in s'.core.jobs
    && s'.core.jobs[d].operation == s.core.jobs[d].operation
    && s'.core.jobs[d].attempts == attempt == s.core.jobs[d].attempts + 1
    && s'.core.docs[d] == s.core.docs[d].(status := s'.core.docs[d].status)
  }

  /** So the run may be told from the tables before its claim. */
  lemma EndedFromClaim(s: Whole.System, s1: Whole.System, w: WorkerId, d: DocId, attempt: nat, outcome: Outcome,
                       later: Time, s': Whole.System)
    requires JustClaimed(s, s1, d, attempt) && Ended(s1, w, d, attempt, outcome, later, s')
    ensures Ended(s, w, d, attempt, outcome, later, s')
  {
    if outcome.FailsWriting? || outcome.FailsLate? {
      SameBatch(d, s.core.docs[d], s1.core.docs[d], outcome.pieces,
                if outcome.FailsWriting? then Some(outcome.part) else None);
    }
  }

  lemma SameBatch(d: DocId, doc: Document, doc': Document, pieces: seq<Piece>, part: Option<set<nat>>)
    requires doc' == doc.(status := doc'.status)
    ensures Batch(d, doc', pieces, part) == Batch(d, doc, pieces, part)
  {
    var rows := NewRows(d, doc.generation, pieces);
    if part.Some? {
      IndexSurvives(d, doc, doc', RowsIn(rows, part.value));
    } else {
      IndexSurvives(d, doc, doc', rows);
    }
  }

  /** What a claim leaves alone, and the token it hands out. */
  lemma ClaimFacts(c: Core, w: WorkerId, e: DocId, now: Time)
    requires Enabled(c, Action.Claim(w, e, now))
    ensures var c' := Apply(c, Action.Claim(w, e, now));
            && c'.chunks == c.chunks && c'.points == c.points && c'.files == c.files && c'.locks == c.locks
            && c'.cfg == c.cfg && e in c'.docs && e in c'.jobs && c'.jobs[e].operation == c.jobs[e].operation
            && (c.jobs[e].attempts >= c.cfg.maxAttempts ==> c'.workers == c.workers)
            && (c.jobs[e].attempts < c.cfg.maxAttempts ==>
                  && c'.workers == c.workers[w := Worker(e, c.jobs[e].attempts + 1, c.jobs[e].round, Claimed)]
                  && c'.jobs[e].status == Processing && c'.jobs[e].attempts == c.jobs[e].attempts + 1
                  && c'.docs[e] == c.docs[e].(status := c'.docs[e].status))
  {
    ClaimResult(c, w, e, now);
  }
}
