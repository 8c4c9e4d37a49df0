/** What every step of the ingestion queue keeps, and so what holds in every reachable state. */
module IngestionInvariant {
  import opened Tables
  import opened RateLimit
  import opened Ingestion
  import Sums

  // ---------------------------------------------------------------- the invariant, one document at a time

  /** The one table by which (job status, operation) fixes document status and source state. */
  predicate Agree(job: Job, doc: Document, source: Source) {
    match (job.status, job.operation)
    case (Queued, Ingest) => doc.status == DocQueued && source.state == SyncPending
    case (Queued, Delete) => doc.status == DocDeleting && source.state == SyncDeleting
    case (Processing, Ingest) => doc.status == DocProcessing && source.state == SyncProcessing
    case (Processing, Delete) => doc.status == DocDeleting && source.state == SyncDeleting
    case (Succeeded, Ingest) =>
      && doc.status == DocReady && source.state == SyncSynced
      && doc.error == job.error == source.error == NoError
    case (Succeeded, Delete) => false
    case (Failed, _) =>
      && doc.status == DocFailed && source.state == SyncFailed
      && doc.error == job.error == source.error != NoError
  }

  predicate JobOk(cfg: Config, job: Job) {
    && job.attempts <= cfg.maxAttempts
    && (job.status == Processing ==> job.lease.Some? && job.attempts > 0)
  }

  /** Every row is keyed by its own document, index and a generation the document has had. */
  predicate RowsOk(d: DocId, doc: Document, rows: map<ChunkId, ChunkRow>) {
    forall c :: c in rows ==>
      c.doc == d && rows[c].document == d && rows[c].index == c.index && c.generation <= doc.generation
  }

  /** The rows are chunks 0, 1, ..., n-1 of the current generation, and there is at least one. */
  ghost predicate CurrentRows(d: DocId, doc: Document, rows: map<ChunkId, ChunkRow>) {
    && rows != map[]
    && forall c :: c in rows <==> c.doc == d && c.generation == doc.generation && c.index < |rows|
  }

  predicate PointsOk(d: DocId, doc: Document, points: map<PointId, Payload>) {
    forall p :: p in points ==> points[p].document == d && points[p].org == doc.org && p.doc == d
  }

  ghost predicate SliceOk(cfg: Config, d: DocId, s: Slice) {
    && (s.doc.Some? <==> s.job.Some?)
    && (s.doc.Some? ==>
          && s.source.Some? && s.source.value.org == s.doc.value.org && !s.source.value.deleted
          && JobOk(cfg, s.job.value) && Agree(s.job.value, s.doc.value, s.source.value)
          && RowsOk(d, s.doc.value, s.rows) && PointsOk(d, s.doc.value, s.points)
          && (s.doc.value.status == DocReady ==>
                && CurrentRows(d, s.doc.value, s.rows)
                && s.points == IndexOf(d, s.doc.value, s.rows)))
    && (s.doc.None? ==>
          && s.rows == map[] && s.points == map[]
          && (s.source.Some? ==> s.source.value.deleted && s.source.value.state == SyncDeleted && !s.file))
  }

  /** A worker's token never runs ahead of the job; a worker that holds the lock holds the current token
      and knows what the vector store has. */
  ghost predicate WorkerOk(cfg: Config, wk: Worker, s: Slice) {
    && 0 < wk.attempt <= cfg.maxAttempts
    && (s.doc.None? ==> s.source.Some?)
    && (s.job.Some? ==>
          && wk.round <= s.job.value.round
          && (wk.round == s.job.value.round ==> wk.attempt <= s.job.value.attempts))
    && (HoldsLock(wk.phase) ==> TokenCurrent(s, wk.attempt) && HolderOk(wk, s))
  }

  ghost predicate HolderOk(wk: Worker, s: Slice)
    requires s.doc.Some? && s.job.Some?
  {
    var op := s.job.value.operation;
    match wk.phase
    case Cleared => s.points == map[]
    case Weighed => s.points == map[]
    case Planned(pieces) => op == Ingest && s.points == map[] && pieces != []
    case Writing(pieces, part) => op == Ingest && s.points == Partial(wk.doc, s.doc.value, pieces, part)
    case Written(pieces) =>
      && op == Ingest && pieces != []
      && s.points == IndexOf(wk.doc, s.doc.value, NewRows(wk.doc, s.doc.value.generation, pieces))
    case Unlinked => op == Delete && s.points == map[] && !s.file
    case _ => true
  }

  // ---------------------------------------------------------------- the invariant of the whole state

  ghost predicate SlicesOk(c: Core) {
    forall d: DocId :: SliceOk(c.cfg, d, View(c, d))
  }

  ghost predicate WorkersOk(c: Core) {
    forall w :: w in c.workers ==> WorkerOk(c.cfg, c.workers[w], ShareOf(c, w))
  }

  /** A held lock belongs to a worker that is inside a transaction on that document. */
  predicate LockOwned(c: Core, d: DocId) {
    d in c.locks ==>
      c.locks[d] in c.workers && c.workers[c.locks[d]].doc == d && HoldsLock(c.workers[c.locks[d]].phase)
  }

  /** A worker inside a transaction has the lock of its document. */
  predicate LockTaken(c: Core, w: WorkerId) {
    w in c.workers && HoldsLock(c.workers[w].phase) ==>
      c.workers[w].doc in c.locks && c.locks[c.workers[w].doc] == w
  }

  ghost predicate LocksOk(c: Core) {
    (forall d: DocId :: LockOwned(c, d)) && (forall w: WorkerId :: LockTaken(c, w))
  }

  predicate SameToken(v: Worker, w: Worker) {
    v.doc == w.doc && v.round == w.round && v.attempt == w.attempt
  }

  /** Within one admission round no two workers hold the same token. */
  predicate TokensUnique(c: Core) {
    forall v, w :: v in c.workers && w in c.workers && SameToken(c.workers[v], c.workers[w]) ==> v == w
  }

  ghost predicate Inv(c: Core) {
    c.cfg.Valid() && SlicesOk(c) && WorkersOk(c) && LocksOk(c) && TokensUnique(c)
  }

  // ---------------------------------------------------------------- tables and shares

  predicate Fits(d: DocId, s: Slice) {
    && (forall k :: k in s.rows ==> s.rows[k].document == d)
    && (forall p :: p in s.points ==> s.points[p].document == d)
  }

  /** Keys of rows and points name the document they belong to, so shares cannot collide. */
  predicate Keyed(c: Core) {
    && (forall k :: k in c.chunks ==> c.chunks[k].document == k.doc)
    && (forall p :: p in c.points ==> c.points[p].document == p.doc)
  }

  lemma InvKeyed(c: Core)
    requires SlicesOk(c)
    ensures Keyed(c)
  {
    forall k | k in c.chunks ensures c.chunks[k].document == k.doc {
      assert SliceOk(c.cfg, c.chunks[k].document, View(c, c.chunks[k].document));
      assert k in RowsOf(c.chunks, c.chunks[k].document);
    }
    forall p | p in c.points ensures c.points[p].document == p.doc {
      assert SliceOk(c.cfg, c.points[p].document, View(c, c.points[p].document));
      assert p in PointsOf(c.points, c.points[p].document);
    }
  }

  /** Rewriting one document's share gives that document the new share and leaves every other alone. */
  lemma ViewWrite(c: Core, d: DocId, s: Slice, e: DocId)
    requires Fits(d, s) && Keyed(c)
    requires (forall k :: k in s.rows ==> k.doc == d) && (forall p :: p in s.points ==> p.doc == d)
    ensures View(Write(c, d, s), e) == if e == d then s else View(c, e)
  {
    RowsWrite(c, d, s, e);
    PointsWrite(c, d, s, e);
    RecordsWrite(c, d, s, e);
  }

  lemma RecordsWrite(c: Core, d: DocId, s: Slice, e: DocId)
    ensures var c' := Write(c, d, s);
            && At(c'.docs, e) == (if e == d then s.doc else At(c.docs, e))
            && At(c'.jobs, e) == (if e == d then s.job else At(c.jobs, e))
            && At(c'.sources, e) == (if e == d then s.source else At(c.sources, e))
            && (e in c'.files <==> if e == d then s.file else e in c.files)
  {
  }

  lemma RowsWrite(c: Core, d: DocId, s: Slice, e: DocId)
    requires Fits(d, s) && Keyed(c) && forall k :: k in s.rows ==> k.doc == d
    ensures RowsOf(Write(c, d, s).chunks, e) == if e == d then s.rows else RowsOf(c.chunks, e)
  {
  }

  lemma PointsWrite(c: Core, d: DocId, s: Slice, e: DocId)
    requires Fits(d, s) && Keyed(c) && forall p :: p in s.points ==> p.doc == d
    ensures PointsOf(Write(c, d, s).points, e) == if e == d then s.points else PointsOf(c.points, e)
  {
  }

  /** c' has the tables of c with document d's share rewritten to s. */
  ghost predicate Rewrites(c: Core, d: DocId, s: Slice, c': Core) {
    var m := Write(c, d, s);
    && c'.cfg == c.cfg && c'.docs == m.docs && c'.jobs == m.jobs && c'.sources == m.sources
    && c'.chunks == m.chunks && c'.points == m.points && c'.files == m.files
  }

  lemma SlicesAfter(c: Core, d: DocId, s: Slice, c': Core)
    requires SlicesOk(c) && SliceOk(c.cfg, d, s) && Rewrites(c, d, s, c')
    ensures SlicesOk(c')
    ensures forall e: DocId :: View(c', e) == if e == d then s else View(c, e)
  {
    InvKeyed(c);
    forall e: DocId ensures View(c', e) == if e == d then s else View(c, e) {
      ViewWrite(c, d, s, e);
      assert View(c', e) == View(Write(c, d, s), e);
    }
    forall e: DocId ensures SliceOk(c'.cfg, e, View(c', e)) {
      assert SliceOk(c.cfg, e, View(c, e));
    }
  }

  // ---------------------------------------------------------------- what a step does to its own share

  /** A job only ever moves to a later round, or to a later attempt of its round, or goes away. */
  predicate JobAdvances(s: Slice, t: Slice) {
    && (t.job.Some? && s.job.Some? ==>
          || s.job.value.round < t.job.value.round
          || (s.job.value.round == t.job.value.round && s.job.value.attempts <= t.job.value.attempts))
    && (t.job.Some? && s.job.None? ==> s.source.None?)
    && (s.source.Some? ==> t.source.Some?)
  }

  /** The step's own share is in order afterwards, and so is the worker that stays on it. */
  ghost predicate OwnShareOk(c: Core, a: Action)
    requires Enabled(c, a)
  {
    var d, t := Subject(c, a), After(c, a);
    && SliceOk(c.cfg, d, t) && JobAdvances(View(c, d), t)
    && (Actor(a).Some? && NextPhase(c, a).Some? ==>
          WorkerOk(c.cfg, c.workers[a.worker].(phase := NextPhase(c, a).value), t))
  }

  lemma ClaimShare(cfg: Config, d: DocId, s: Slice, now: Time)
    requires cfg.Valid() && SliceOk(cfg, d, s) && s.doc.Some? && s.source.Some?
    requires s.job.value.status == Queued || s.job.value.status == Processing
    ensures SliceOk(cfg, d, ClaimSlice(cfg, s, now)) && JobAdvances(s, ClaimSlice(cfg, s, now))
  {
  }

  lemma RequeueShare(cfg: Config, d: DocId, s: Slice, operation: Operation, now: Time)
    requires SliceOk(cfg, d, s) && s.doc.Some? && s.source.Some?
    ensures SliceOk(cfg, d, RequeueSlice(s, operation, now)) && JobAdvances(s, RequeueSlice(s, operation, now))
  {
  }

  lemma RowCount(d: DocId, generation: nat, pieces: seq<Piece>)
    ensures |NewRows(d, generation, pieces)| == |pieces|
  {
    var rows := NewRows(d, generation, pieces);
    if pieces != [] {
      var last := |pieces| - 1;
      RowCount(d, generation, pieces[..last]);
      assert rows == NewRows(d, generation, pieces[..last])[ChunkId(d, generation, last) :=
        ChunkRow(d, last, pieces[last].content, pieces[last].page)];
    }
  }

  /** The rows written for the pieces are the chunks of the current generation, and their points fit. */
  lemma NewRowsOk(d: DocId, doc: Document, pieces: seq<Piece>)
    requires pieces != []
    ensures RowsOk(d, doc, NewRows(d, doc.generation, pieces))
    ensures CurrentRows(d, doc, NewRows(d, doc.generation, pieces))
    ensures PointsOk(d, doc, IndexOf(d, doc, NewRows(d, doc.generation, pieces)))
  {
    RowCount(d, doc.generation, pieces);
    assert ChunkId(d, doc.generation, 0) in NewRows(d, doc.generation, pieces);
  }

  /** One more row, one more point. */
  lemma IndexGrows(d: DocId, doc: Document, rows: map<ChunkId, ChunkRow>, k: ChunkId, row: ChunkRow)
    requires k !in rows
    ensures PointFor(d, doc, k, row) !in IndexOf(d, doc, rows)
    ensures IndexOf(d, doc, rows[k := row]) == IndexOf(d, doc, rows)[PointFor(d, doc, k, row) := PayloadFor(d, doc, k, row)]
  {
    var more := IndexOf(d, doc, rows)[PointFor(d, doc, k, row) := PayloadFor(d, doc, k, row)];
    forall p: PointId ensures p in IndexOf(d, doc, rows[k := row]) <==> p in more {
      if p.chunk in rows { assert rows[k := row][p.chunk] == rows[p.chunk]; }
    }
    forall p | p in more ensures IndexOf(d, doc, rows[k := row])[p] == more[p] {
      if p.chunk in rows { assert rows[k := row][p.chunk] == rows[p.chunk]; }
    }
  }

  /** An upsert into a document whose points were deleted leaves just what it wrote. */
  lemma UpsertShare(cfg: Config, wk: Worker, s: Slice, points: map<PointId, Payload>)
    requires SliceOk(cfg, wk.doc, s) && WorkerOk(cfg, wk, s) && wk.phase.Planned?
    requires PointsOk(wk.doc, s.doc.value, points)
    ensures s.points + points == points
    ensures SliceOk(cfg, wk.doc, s.(points := points))
  {
  }

  /** What a row's point says depends on the document's tenant and filename, not on its status. */
  lemma IndexSurvives(d: DocId, doc: Document, doc': Document, rows: map<ChunkId, ChunkRow>)
    requires doc'.org == doc.org && doc'.filename == doc.filename
    ensures IndexOf(d, doc', rows) == IndexOf(d, doc, rows)
  {
  }

  lemma IndexedShare(cfg: Config, wk: Worker, s: Slice)
    requires SliceOk(cfg, wk.doc, s) && WorkerOk(cfg, wk, s) && wk.phase.Written?
    ensures SliceOk(cfg, wk.doc, IndexedSlice(wk.doc, s, wk.phase.pieces))
    ensures JobAdvances(s, IndexedSlice(wk.doc, s, wk.phase.pieces))
  {
    var d, doc, pieces := wk.doc, s.doc.value, wk.phase.pieces;
    var t := IndexedSlice(d, s, pieces);
    NewRowsOk(d, doc, pieces);
    IndexSurvives(d, doc, t.doc.value, t.rows);
    assert RowsOk(d, t.doc.value, t.rows) && CurrentRows(d, t.doc.value, t.rows);
    assert PointsOk(d, t.doc.value, t.points);
  }

  lemma DeletedShare(cfg: Config, wk: Worker, s: Slice)
    requires SliceOk(cfg, wk.doc, s) && WorkerOk(cfg, wk, s) && wk.phase == Unlinked
    ensures SliceOk(cfg, wk.doc, DeletedSlice(s)) && JobAdvances(s, DeletedSlice(s))
  {
  }

  lemma FailedShare(cfg: Config, wk: Worker, s: Slice, failure: Failure, now: Time)
    requires SliceOk(cfg, wk.doc, s) && WorkerOk(cfg, wk, s) && TokenCurrent(s, wk.attempt)
    ensures SliceOk(cfg, wk.doc, FailedSlice(cfg, s, wk.attempt, failure, now))
    ensures JobAdvances(s, FailedSlice(cfg, s, wk.attempt, failure, now))
  {
  }

  lemma OwnShare(c: Core, a: Action)
    requires Inv(c) && Enabled(c, a)
    ensures OwnShareOk(c, a)
  {
    var d := Subject(c, a);
    var s := View(c, d);
    assert SliceOk(c.cfg, d, s);
    if Actor(a).Some? {
      OwnShareOfWorker(c, a);
    } else if a.Requeue? {
      RequeueShare(c.cfg, d, s, a.operation, a.now);
    } else if a.Claim? {
      ClaimShare(c.cfg, d, s, a.now);
    }
  }

  lemma OwnShareOfCommit(c: Core, a: Action)
    requires Enabled(c, a) && (a.CommitIndex? || a.CommitDelete? || a.CommitFailure?)
    requires var wk, s := c.workers[a.worker], ShareOf(c, a.worker);
             SliceOk(c.cfg, wk.doc, s) && WorkerOk(c.cfg, wk, s)
    ensures OwnShareOk(c, a)
  {
    var wk, s := c.workers[a.worker], ShareOf(c, a.worker);
    if a.CommitIndex? {
      IndexedShare(c.cfg, wk, s);
    } else if a.CommitDelete? {
      DeletedShare(c.cfg, wk, s);
    } else if TokenCurrent(s, wk.attempt) {
      FailedShare(c.cfg, wk, s, wk.phase.failure, a.now);
    }
  }

  lemma OwnShareOfWorker(c: Core, a: Action)
    requires Inv(c) && Enabled(c, a) && Actor(a).Some?
    ensures OwnShareOk(c, a)
  {
    var wk, s := c.workers[a.worker], ShareOf(c, a.worker);
    assert SliceOk(c.cfg, wk.doc, s) && WorkerOk(c.cfg, wk, s);
    if a.UpsertPart? || a.UpsertAll? {
      OwnShareOfUpsert(c, a);
    } else if a.CommitIndex? || a.CommitDelete? || a.CommitFailure? {
      OwnShareOfCommit(c, a);
    } else if a.ClearPart? || a.ClearVectors? || a.Weigh? || a.Plan? || a.Unlink? {
      OwnShareInside(c, a);
    }
  }

  /** What an upsert sends. */
  lemma Sent(c: Core, a: Action) returns (points: map<PointId, Payload>)
    requires Enabled(c, a) && (a.UpsertPart? || a.UpsertAll?)
    ensures var wk, s := c.workers[a.worker], ShareOf(c, a.worker);
            && Subject(c, a) == wk.doc && wk.phase.Planned? && s.doc.Some?
            && After(c, a) == s.(points := s.points + points)
            && points == (if a.UpsertPart? then Partial(wk.doc, s.doc.value, wk.phase.pieces, a.part)
                          else IndexOf(wk.doc, s.doc.value, NewRows(wk.doc, s.doc.value.generation, wk.phase.pieces)))
            && NextPhase(c, a) == Some(if a.UpsertPart? then Writing(wk.phase.pieces, a.part) else Written(wk.phase.pieces))
  {
    var wk, s := c.workers[a.worker], ShareOf(c, a.worker);
    points := if a.UpsertPart? then Partial(wk.doc, s.doc.value, wk.phase.pieces, a.part)
              else IndexOf(wk.doc, s.doc.value, NewRows(wk.doc, s.doc.value.generation, wk.phase.pieces));
  }

  lemma PartOk(d: DocId, doc: Document, pieces: seq<Piece>, part: set<nat>)
    ensures PointsOk(d, doc, Partial(d, doc, pieces, part))
  {
  }

  lemma SenderOk(cfg: Config, wk: Worker, s: Slice, points: map<PointId, Payload>, next: Phase)
    requires WorkerOk(cfg, wk, s) && wk.phase.Planned? && SliceOk(cfg, wk.doc, s)
    requires next.Written? || next.Writing?
    requires next.Written? ==>
               && next.pieces == wk.phase.pieces
               && points == IndexOf(wk.doc, s.doc.value, NewRows(wk.doc, s.doc.value.generation, next.pieces))
    requires next.Writing? ==> points == Partial(wk.doc, s.doc.value, next.pieces, next.part)
    ensures WorkerOk(cfg, wk.(phase := next), s.(points := points)) && JobAdvances(s, s.(points := points))
  {
  }

  lemma OwnShareOfUpsert(c: Core, a: Action)
    requires Inv(c) && Enabled(c, a) && (a.UpsertPart? || a.UpsertAll?)
    ensures OwnShareOk(c, a)
  {
    var wk, s := c.workers[a.worker], ShareOf(c, a.worker);
    assert SliceOk(c.cfg, wk.doc, s) && WorkerOk(c.cfg, wk, s);
    var points := Sent(c, a);
    NewRowsOk(wk.doc, s.doc.value, wk.phase.pieces);
    if a.UpsertPart? { PartOk(wk.doc, s.doc.value, wk.phase.pieces, a.part); }
    UpsertShare(c.cfg, wk, s, points);
    SenderOk(c.cfg, wk, s, points, NextPhase(c, a).value);
  }

  /** A lock holder that only takes points or the file away, and knows what it has done. */
  lemma InsideShare(cfg: Config, wk: Worker, s: Slice, t: Slice, next: Phase)
    requires SliceOk(cfg, wk.doc, s) && WorkerOk(cfg, wk, s) && HoldsLock(wk.phase) && HoldsLock(next)
    requires t == s.(points := t.points, file := t.file)
    requires forall p :: p in t.points ==> p in s.points && t.points[p] == s.points[p]
    requires HolderOk(wk.(phase := next), t)
    ensures SliceOk(cfg, wk.doc, t) && JobAdvances(s, t) && WorkerOk(cfg, wk.(phase := next), t)
  {
  }

  lemma OwnShareInside(c: Core, a: Action)
    requires Inv(c) && Enabled(c, a) && (a.ClearPart? || a.ClearVectors? || a.Weigh? || a.Plan? || a.Unlink?)
    ensures OwnShareOk(c, a)
  {
    var wk, s := c.workers[a.worker], ShareOf(c, a.worker);
    assert SliceOk(c.cfg, wk.doc, s) && WorkerOk(c.cfg, wk, s);
    if a.ClearPart? || a.ClearVectors? {
      CleanerMoves(c, a);
    } else {
      OthersMove(c, a);
    }
    InsideShare(c.cfg, wk, s, After(c, a), NextPhase(c, a).value);
  }

  lemma CleanerMoves(c: Core, a: Action)
    requires Enabled(c, a) && (a.ClearPart? || a.ClearVectors?)
    requires ShareOf(c, a.worker).doc.Some? && ShareOf(c, a.worker).job.Some?
    ensures var wk, s, t := c.workers[a.worker], ShareOf(c, a.worker), After(c, a);
            && t == s.(points := t.points) && (forall p :: p in t.points ==> p in s.points && t.points[p] == s.points[p])
            && HoldsLock(wk.phase) && NextPhase(c, a).Some? && HoldsLock(NextPhase(c, a).value)
            && HolderOk(wk.(phase := NextPhase(c, a).value), t)
  {
  }

  lemma OthersMove(c: Core, a: Action)
    requires Enabled(c, a) && (a.Weigh? || a.Plan? || a.Unlink?)
    requires ShareOf(c, a.worker).doc.Some? && ShareOf(c, a.worker).job.Some?
    requires HolderOk(c.workers[a.worker], ShareOf(c, a.worker))
    ensures var wk, s, t := c.workers[a.worker], ShareOf(c, a.worker), After(c, a);
            && t == s.(file := t.file) && HoldsLock(wk.phase) && NextPhase(c, a).Some?
            && HoldsLock(NextPhase(c, a).value) && HolderOk(wk.(phase := NextPhase(c, a).value), t)
  {
  }

  // ---------------------------------------------------------------- workers, tokens and locks

  /** A worker acts on its document inside its transaction, or is about to open or leave one. */
  lemma ActorHasDocument(c: Core, a: Action, v: WorkerId)
    requires Inv(c) && Enabled(c, a) && v in c.workers && HoldsLock(c.workers[v].phase)
    requires c.workers[v].doc == Subject(c, a) && Actor(a) != Some(v)
    ensures Actor(a).Some? && After(c, a) == View(c, Subject(c, a))
    ensures NextPhase(c, a).None? || !HoldsLock(NextPhase(c, a).value)
    ensures !HoldsLock(c.workers[a.worker].phase)
  {
    assert LockTaken(c, v);
    assert WorkerOk(c.cfg, c.workers[v], ShareOf(c, v));
    if Actor(a).Some? { assert LockTaken(c, a.worker); }
  }

  /** Worker w turns to its next phase: it takes the free lock, keeps its own, or drops it. */
  lemma TurnKeepsLocks(c: Core, w: WorkerId, next: Option<Phase>, c': Core)
    requires LocksOk(c) && w in c.workers
    requires next.Some? && HoldsLock(next.value) ==> HoldsLock(c.workers[w].phase) || c.workers[w].doc !in c.locks
    requires c'.workers == Set(c.workers, w, if next.Some? then Some(c.workers[w].(phase := next.value)) else None)
    requires c'.locks ==
               if next.Some? && HoldsLock(next.value) then c.locks[c.workers[w].doc := w]
               else if HoldsLock(c.workers[w].phase) then c.locks - {c.workers[w].doc} else c.locks
    ensures LocksOk(c')
  {
    assert LockTaken(c, w);
    forall d: DocId ensures LockOwned(c', d) { assert LockOwned(c, d); }
    forall v: WorkerId ensures LockTaken(c', v) { assert LockTaken(c, v); }
  }

  /** No lock and no holder changes, whoever else comes or goes. */
  lemma SameHolders(c: Core, c': Core)
    requires LocksOk(c) && c'.locks == c.locks
    requires forall v :: v in c.workers && HoldsLock(c.workers[v].phase) ==>
               v in c'.workers && c'.workers[v] == c.workers[v]
    requires forall v :: v in c'.workers && HoldsLock(c'.workers[v].phase) ==>
               v in c.workers && c'.workers[v] == c.workers[v]
    ensures LocksOk(c')
  {
    forall d: DocId ensures LockOwned(c', d) { assert LockOwned(c, d); }
    forall v: WorkerId ensures LockTaken(c', v) { assert LockTaken(c, v); }
  }

  lemma LocksAfter(c: Core, a: Action)
    requires LocksOk(c) && Enabled(c, a)
    ensures LocksOk(Apply(c, a))
  {
    var c' := Apply(c, a);
    assert c'.workers == Crew(c, a) && c'.locks == Locked(c, a);
    if Actor(a).Some? {
      TurnKeepsLocks(c, a.worker, NextPhase(c, a), c');
    } else {
      SameHolders(c, c');
    }
  }

  /** A claim's token is new: its attempt is higher than any other of the round. */
  lemma TokensAfter(c: Core, a: Action)
    requires Inv(c) && Enabled(c, a)
    ensures TokensUnique(Apply(c, a))
  {
    var c' := Apply(c, a);
    forall u, v | u in c'.workers && v in c'.workers && SameToken(c'.workers[u], c'.workers[v]) ensures u == v {
      CrewTokens(c, a, u);
      CrewTokens(c, a, v);
      if u in c.workers && v in c.workers { assert SameToken(c.workers[u], c.workers[v]); }
    }
  }

  /** Whoever was there keeps its token, and a newcomer's is like nobody's. */
  lemma CrewTokens(c: Core, a: Action, u: WorkerId)
    requires Inv(c) && Enabled(c, a) && u in Crew(c, a)
    ensures u in c.workers ==> SameToken(Crew(c, a)[u], c.workers[u])
    ensures u !in c.workers ==>
              a.Claim? && a.worker == u && forall v :: v in c.workers ==> !SameToken(Crew(c, a)[u], c.workers[v])
  {
    if u !in c.workers {
      forall v | v in c.workers ensures !SameToken(Crew(c, a)[u], c.workers[v]) {
        assert WorkerOk(c.cfg, c.workers[v], ShareOf(c, v));
      }
    }
  }

  lemma BystanderOk(cfg: Config, d: DocId, wk: Worker, s: Slice, t: Slice)
    requires WorkerOk(cfg, wk, s) && !HoldsLock(wk.phase) && JobAdvances(s, t)
    requires SliceOk(cfg, d, s) && SliceOk(cfg, d, t)
    ensures WorkerOk(cfg, wk, t)
  {
  }

  lemma NewcomerOk(c: Core, a: Action)
    requires Inv(c) && Enabled(c, a) && a.Claim? && c.jobs[a.doc].attempts < c.cfg.maxAttempts
    ensures WorkerOk(c.cfg, Worker(a.doc, c.jobs[a.doc].attempts + 1, c.jobs[a.doc].round, Claimed), After(c, a))
  {
  }

  lemma WorkersAfter(c: Core, a: Action, v: WorkerId)
    requires Inv(c) && Enabled(c, a) && v in Crew(c, a) && OwnShareOk(c, a)
    ensures var wk := Crew(c, a)[v];
            WorkerOk(c.cfg, wk, if wk.doc == Subject(c, a) then After(c, a) else View(c, wk.doc))
  {
    if v in c.workers && Actor(a) != Some(v) {
      var wk, d := c.workers[v], Subject(c, a);
      assert WorkerOk(c.cfg, wk, ShareOf(c, v));
      if wk.doc == d {
        if HoldsLock(wk.phase) {
          ActorHasDocument(c, a, v);
        } else {
          assert SliceOk(c.cfg, d, View(c, d));
          BystanderOk(c.cfg, d, wk, View(c, d), After(c, a));
        }
      }
    } else if a.Claim? {
      NewcomerOk(c, a);
    }
  }

  // ---------------------------------------------------------------- every step keeps the invariant

  /** A step changes its own document's share as said, and no other's. */
  lemma StepShares(c: Core, a: Action, e: DocId)
    requires Inv(c) && Enabled(c, a)
    ensures View(Apply(c, a), e) == if e == Subject(c, a) then After(c, a) else View(c, e)
  {
    OwnShare(c, a);
    SlicesAfter(c, Subject(c, a), After(c, a), Apply(c, a));
  }

  lemma StepKeepsInv(c: Core, a: Action)
    requires Inv(c) && Enabled(c, a)
    ensures Inv(Apply(c, a))
  {
    var c' := Apply(c, a);
    OwnShare(c, a);
    SlicesAfter(c, Subject(c, a), After(c, a), c');
    LocksAfter(c, a);
    TokensAfter(c, a);
    forall v | v in c'.workers ensures WorkerOk(c'.cfg, c'.workers[v], ShareOf(c', v)) {
      WorkersAfter(c, a, v);
    }
  }

  // ---------------------------------------------------------------- there is always a next row

  /** When a row can be claimed, one of them is the one the query returns. */
  lemma SomethingIsNext(c: Core, d: DocId, now: Time) returns (first: DocId)
    requires Claimable(c, d, now)
    ensures IsNext(c, first, now)
  {
    var ds := set e | e in c.jobs && Claimable(c, e, now);
    var when := e => if e in c.jobs then c.jobs[e].availableAt else 0;
    assert d in ds;
    first := Sums.Earliest(when, ds);
    forall e | e in c.jobs && Claimable(c, e, now) ensures Before(c.jobs[first], first, c.jobs[e], e) {
      assert e in ds;
    }
  }
}
