/** The ingestion queue as a state machine over its atomic steps.

    A short SQL transaction that holds the row locks of what it reads and writes is one step. The transaction of
    `execute_once` is many: it holds its document and job, but it waits for the vector store, for files and for the
    embeddings in between, and it decides what evidence to withdraw by rows that others may change before its
    commit. So its token check, each vector store and file operation, that decision and the commit are steps of
    their own. A worker can die between any two steps. */
module Ingestion {
  import Sums
  import opened Tables
  import opened RateLimit

  /** Where a worker is inside `execute_once`. From `Fenced` on it holds the document's row lock. */
  datatype Phase =
    | Claimed                                        // claim committed, nothing locked yet
    | Fenced                                         // document locked, token checked
    | Clearing                                       // a deletion of its points that failed part-way
    | Cleared                                        // the document's points were deleted
    | Weighed                                        // decided which facts lose their last evidence
    | Planned(pieces: seq<Piece>)                    // file read, chunked and embedded
    | Writing(pieces: seq<Piece>, part: set<nat>)    // an upsert that failed part-way
    | Written(pieces: seq<Piece>)                    // the upsert was acknowledged
    | Unlinked                                       // delete: the stored file is gone
    | Caught(failure: Failure)                       // transaction rolled back, failure not recorded yet

  predicate HoldsLock(p: Phase) {
    !p.Claimed? && !p.Caught?
  }

  /** An in-flight run. (doc, attempt) is the token `claim` returned; `round` is bookkeeping. */
  datatype Worker = Worker(doc: DocId, attempt: nat, round: nat, phase: Phase)

  datatype Core = Core(
    cfg: Config, orgs: set<OrgId>,
    docs: map<DocId, Document>, jobs: map<DocId, Job>, sources: map<DocId, Source>,
    chunks: map<ChunkId, ChunkRow>, points: map<PointId, Payload>, files: set<DocId>,
    rates: map<OrgId, Window>,
    locks: map<DocId, WorkerId>, workers: map<WorkerId, Worker>)

  // ---------------------------------------------------------------- one document's share of it all

  /** Everything the stores hold about one document. */
  datatype Slice = Slice(
    doc: Option<Document>, job: Option<Job>, source: Option<Source>,
    rows: map<ChunkId, ChunkRow>, points: map<PointId, Payload>, file: bool)

  function RowsOf(chunks: map<ChunkId, ChunkRow>, d: DocId): map<ChunkId, ChunkRow> {
    chunks - set c | c in chunks && chunks[c].document != d
  }

  function PointsOf(points: map<PointId, Payload>, d: DocId): map<PointId, Payload> {
    points - set p | p in points && points[p].document != d
  }

  function WithoutRows(chunks: map<ChunkId, ChunkRow>, d: DocId): map<ChunkId, ChunkRow> {
    chunks - set c | c in chunks && chunks[c].document == d
  }

  function WithoutPointsOf(points: map<PointId, Payload>, d: DocId): map<PointId, Payload> {
    points - set p | p in points && points[p].document == d
  }

  function At<K, V>(m: map<K, V>, k: K): Option<V> {
    if k in m then Some(m[k]) else None
  }

  function Set<K, V>(m: map<K, V>, k: K, v: Option<V>): map<K, V> {
    if v.Some? then m[k := v.value] else m - {k}
  }

  function View(c: Core, d: DocId): Slice {
    Slice(At(c.docs, d), At(c.jobs, d), At(c.sources, d), RowsOf(c.chunks, d), PointsOf(c.points, d), d in c.files)
  }

  /** The stores after a step that rewrote document d's share to s. */
  function Write(c: Core, d: DocId, s: Slice): Core {
    c.(docs := Set(c.docs, d, s.doc),
       jobs := Set(c.jobs, d, s.job),
       sources := Set(c.sources, d, s.source),
       chunks := WithoutRows(c.chunks, d) + s.rows,
       points := WithoutPointsOf(c.points, d) + s.points,
       files := if s.file then c.files + {d} else c.files - {d})
  }

  // ---------------------------------------------------------------- what the pieces become

  function NewRows(d: DocId, generation: nat, pieces: seq<Piece>): (rows: map<ChunkId, ChunkRow>)
    ensures forall k :: k in rows <==> k.doc == d && k.generation == generation && k.index < |pieces|
    ensures forall k :: k in rows ==> rows[k] == ChunkRow(d, k.index, pieces[k.index].content, pieces[k.index].page)
  {
    if pieces == [] then map[]
    else
      var last := |pieces| - 1;
      NewRows(d, generation, pieces[..last])[ChunkId(d, generation, last) :=
        ChunkRow(d, last, pieces[last].content, pieces[last].page)]
  }

  function PointFor(d: DocId, doc: Document, c: ChunkId, row: ChunkRow): PointId {
    PointId(doc.org, d, c, row.index)
  }

  function PayloadFor(d: DocId, doc: Document, c: ChunkId, row: ChunkRow): Payload {
    Payload(doc.org, d, d, c, row.index, row.page, row.content, doc.filename)
  }

  /** The index a set of chunk rows ought to have: one point per row, carrying that row. */
  ghost function IndexOf(d: DocId, doc: Document, rows: map<ChunkId, ChunkRow>): (points: map<PointId, Payload>)
    ensures forall p :: p in points <==> p.chunk in rows && p == PointFor(d, doc, p.chunk, rows[p.chunk])
    ensures forall p :: p in points ==> points[p] == PayloadFor(d, doc, p.chunk, rows[p.chunk])
    decreases |rows|
  {
    if rows == map[] then map[]
    else
      var c :| c in rows;
      Sums.Shrinks(rows, c);
      IndexOf(d, doc, rows - {c})[PointFor(d, doc, c, rows[c]) := PayloadFor(d, doc, c, rows[c])]
  }

  function RowsIn(rows: map<ChunkId, ChunkRow>, part: set<nat>): map<ChunkId, ChunkRow> {
    rows - set c | c in rows && c.index !in part
  }

  /** The points of the pieces an interrupted upsert got to. */
  ghost function Partial(d: DocId, doc: Document, pieces: seq<Piece>, part: set<nat>): map<PointId, Payload> {
    IndexOf(d, doc, RowsIn(NewRows(d, doc.generation, pieces), part))
  }

  // ---------------------------------------------------------------- steps

  datatype Action =
    | Upload(doc: DocId, org: OrgId, filename: string, size: nat, now: Time)
    | Orphan(doc: DocId)                                             // upload dies after writing the file
    | Requeue(doc: DocId, org: OrgId, operation: Operation, now: Time)
    | Claim(worker: WorkerId, doc: DocId, now: Time)
    | Fence(worker: WorkerId)
    | ClearPart(worker: WorkerId, removed: set<PointId>)
    | ClearVectors(worker: WorkerId)
    | Weigh(worker: WorkerId)
    | Plan(worker: WorkerId, pieces: seq<Piece>)
    | UpsertPart(worker: WorkerId, part: set<nat>)
    | UpsertAll(worker: WorkerId)
    | Unlink(worker: WorkerId)
    | CommitIndex(worker: WorkerId, now: Time)
    | CommitDelete(worker: WorkerId)
    | Raise(worker: WorkerId, failure: Failure)
    | CommitFailure(worker: WorkerId, now: Time)
    | Crash(worker: WorkerId)

  // --- admission

  function DocsIn(docs: map<DocId, Document>, org: OrgId): set<DocId> {
    set d | d in docs && docs[d].org == org
  }

  function PendingIn(docs: map<DocId, Document>, org: OrgId): set<DocId> {
    set d | d in docs && docs[d].org == org && IsPending(docs[d].status)
  }

  ghost function SizesIn(docs: map<DocId, Document>, org: OrgId): (sizes: map<DocId, nat>)
    ensures forall d :: d in sizes <==> d in docs && docs[d].org == org
    ensures forall d :: d in sizes ==> sizes[d] == docs[d].size
    decreases |docs|
  {
    if docs == map[] then map[]
    else
      var d :| d in docs;
      Sums.Shrinks(docs, d);
      var rest := SizesIn(docs - {d}, org);
      if docs[d].org == org then rest[d := docs[d].size] else rest
  }

  function Min(a: int, b: int): int { if a < b then a else b }

  ghost predicate CanUpload(c: Core, a: Action)
    requires a.Upload?
  {
    var stored := Sums.Total(SizesIn(c.docs, a.org));
    && a.org in c.orgs
    && a.doc !in c.sources && a.doc !in c.docs && a.doc !in c.jobs && a.doc !in c.files
    && Consume(At(c.rates, a.org), a.now, c.cfg.uploadsPerMinute).Some?
    && |PendingIn(c.docs, a.org)| < c.cfg.maxPending
    && |DocsIn(c.docs, a.org)| < c.cfg.maxDocuments
    && stored < c.cfg.maxStorageBytes
    && 0 < a.size <= Min(c.cfg.maxUploadBytes, c.cfg.maxStorageBytes - stored)
  }

  function UploadSlice(org: OrgId, filename: string, size: nat, now: Time): Slice {
    Slice(Some(Document(org, filename, size, DocQueued, 1, NoError)),
          Some(Job(Ingest, Queued, 0, now, None, NoError, 0)),
          Some(Source(org, SyncPending, NoError, false)),
          map[], map[], true)
  }

  ghost predicate CanRequeue(c: Core, a: Action)
    requires a.Requeue?
  {
    && a.org in c.orgs
    && a.doc in c.docs && c.docs[a.doc].org == a.org && a.doc in c.sources
    && c.sources[a.doc].org == c.docs[a.doc].org
    && a.doc !in c.locks
    && (a.doc in c.jobs ==> c.jobs[a.doc].status != Processing)
    && (a.operation == Ingest ==>
          && !IsPending(c.docs[a.doc].status)
          && Consume(At(c.rates, a.org), a.now, c.cfg.uploadsPerMinute).Some?)
    && (!IsPending(c.docs[a.doc].status) ==> |PendingIn(c.docs, a.org)| < c.cfg.maxPending)
  }

  function RequeueSlice(s: Slice, operation: Operation, now: Time): Slice
    requires s.doc.Some? && s.source.Some?
  {
    var round := if s.job.Some? then s.job.value.round + 1 else 0;
    var doc := s.doc.value.(
      status := if operation == Delete then DocDeleting else DocQueued,
      generation := s.doc.value.generation + (if operation == Ingest then 1 else 0),
      error := NoError);
    s.(doc := Some(doc),
       job := Some(Job(operation, Queued, 0, now, None, NoError, round)),
       source := Some(WithSync(s.source.value, if operation == Delete then SyncDeleting else SyncPending, NoError)))
  }

  // --- claiming

  predicate Eligible(j: Job, now: Time) {
    || (j.status == Queued && j.availableAt <= now)
    || (j.status == Processing && j.lease.Some? && j.lease.value <= now)
  }

  /** `ORDER BY available_at, id`. */
  predicate Before(j: Job, d: DocId, k: Job, e: DocId) {
    j.availableAt < k.availableAt || (j.availableAt == k.availableAt && d <= e)
  }

  predicate Claimable(c: Core, d: DocId, now: Time) {
    d in c.docs && d in c.jobs && d !in c.locks && Eligible(c.jobs[d], now)
  }

  /** The row that `... LIMIT 1 FOR UPDATE SKIP LOCKED` returns when nobody else holds a row lock. A step may claim
      any claimable row: the rows before it may be locked by a review or an extraction going on. */
  predicate IsNext(c: Core, d: DocId, now: Time) {
    && Claimable(c, d, now)
    && forall e :: e in c.jobs && Claimable(c, e, now) ==> Before(c.jobs[d], d, c.jobs[e], e)
  }

  function ClaimSlice(cfg: Config, s: Slice, now: Time): Slice
    requires s.doc.Some? && s.job.Some? && s.source.Some?
  {
    var job := s.job.value;
    if job.attempts >= cfg.maxAttempts then
      s.(doc := Some(s.doc.value.(status := DocFailed, error := RetriesExhausted)),
         job := Some(job.(status := Failed, error := RetriesExhausted, lease := None)),
         source := Some(WithSync(s.source.value, SyncFailed, RetriesExhausted)))
    else
      s.(doc := Some(s.doc.value.(status := if job.operation == Delete then DocDeleting else DocProcessing)),
         job := Some(job.(status := Processing, attempts := job.attempts + 1, lease := Some(now + cfg.leaseSeconds))),
         source := Some(WithSync(s.source.value,
                                 if job.operation == Delete then SyncDeleting else SyncProcessing, NoError)))
  }

  // --- finishing

  predicate TokenCurrent(s: Slice, attempt: nat) {
    s.doc.Some? && s.job.Some? && s.job.value.status == Processing && s.job.value.attempts == attempt
  }

  function IndexedSlice(d: DocId, s: Slice, pieces: seq<Piece>): Slice
    requires s.doc.Some? && s.job.Some? && s.source.Some?
  {
    s.(doc := Some(s.doc.value.(status := DocReady, error := NoError)),
       job := Some(s.job.value.(status := Succeeded, error := NoError, lease := None)),
       source := Some(WithSync(s.source.value, SyncSynced, NoError)),
       rows := NewRows(d, s.doc.value.generation, pieces))
  }

  function DeletedSlice(s: Slice): Slice
    requires s.source.Some?
  {
    s.(doc := None, job := None, source := Some(WithSync(s.source.value, SyncDeleted, NoError)), rows := map[])
  }

  function FailedSlice(cfg: Config, s: Slice, attempt: nat, failure: Failure, now: Time): Slice
    requires attempt > 0 && s.doc.Some? && s.job.Some? && s.source.Some?
  {
    var retry := failure == Transient && attempt < cfg.maxAttempts;
    var job, code := s.job.value, CodeOf(failure);
    var deleting := job.operation == Delete;
    s.(doc := Some(s.doc.value.(
         status := if !retry then DocFailed else if deleting then DocDeleting else DocQueued, error := code)),
       job := Some(job.(status := if retry then Queued else Failed, error := code, lease := None,
                        availableAt := now + cfg.retrySeconds * Power2(attempt - 1))),
       source := Some(WithSync(s.source.value,
         if !retry then SyncFailed else if deleting then SyncDeleting else SyncPending, code)))
  }

  // --- enabledness and effect

  function ShareOf(c: Core, w: WorkerId): Slice
    requires w in c.workers
  {
    View(c, c.workers[w].doc)
  }

  ghost predicate Enabled(c: Core, a: Action) {
    match a
    case Upload(_, _, _, _, _) => CanUpload(c, a)
    case Orphan(d) => d !in c.sources && d !in c.docs && d !in c.jobs && d !in c.files
    case Requeue(_, _, _, _) => CanRequeue(c, a)
    case Claim(w, d, now) => w !in c.workers && Claimable(c, d, now) && d in c.sources
    case Fence(w) => w in c.workers && c.workers[w].phase == Claimed && c.workers[w].doc !in c.locks
    case ClearPart(w, _) => w in c.workers && c.workers[w].phase == Fenced
    case ClearVectors(w) => w in c.workers && c.workers[w].phase == Fenced
    case Weigh(w) => w in c.workers && c.workers[w].phase == Cleared
    case Plan(w, pieces) =>
      && w in c.workers && c.workers[w].phase == Weighed
      && ShareOf(c, w).job.Some? && ShareOf(c, w).job.value.operation == Ingest
      && ShareOf(c, w).file && 1 <= |pieces| <= c.cfg.maxChunks
    case UpsertPart(w, _) => w in c.workers && c.workers[w].phase.Planned? && ShareOf(c, w).doc.Some?
    case UpsertAll(w) => w in c.workers && c.workers[w].phase.Planned? && ShareOf(c, w).doc.Some?
    case Unlink(w) =>
      && w in c.workers && c.workers[w].phase == Weighed
      && ShareOf(c, w).job.Some? && ShareOf(c, w).job.value.operation == Delete
    case CommitIndex(w, _) =>
      && w in c.workers && c.workers[w].phase.Written?
      && ShareOf(c, w).doc.Some? && ShareOf(c, w).job.Some? && ShareOf(c, w).source.Some?
    case CommitDelete(w) => w in c.workers && c.workers[w].phase == Unlinked && ShareOf(c, w).source.Some?
    case Raise(w, failure) =>
      w in c.workers && !c.workers[w].phase.Caught? && (c.workers[w].phase == Claimed ==> failure == Transient)
    case CommitFailure(w, now) =>
      && w in c.workers && c.workers[w].phase.Caught? && c.workers[w].doc !in c.locks
      && c.workers[w].attempt > 0 && (ShareOf(c, w).doc.Some? ==> ShareOf(c, w).source.Some?)
    case Crash(w) => w in c.workers
  }

  /** The worker that takes step a, if one already in flight does. */
  function Actor(a: Action): Option<WorkerId> {
    if a.Upload? || a.Orphan? || a.Requeue? || a.Claim? then None else Some(a.worker)
  }

  /** The document a step is about. */
  function Subject(c: Core, a: Action): DocId
    requires Actor(a).Some? ==> Actor(a).value in c.workers
  {
    if Actor(a).None? then a.doc else c.workers[a.worker].doc
  }

  /** What the step leaves in the stores of that document's share. */
  ghost function After(c: Core, a: Action): Slice
    requires Enabled(c, a)
  {
    var d := Subject(c, a);
    var s := View(c, d);
    match a
    case Upload(_, org, filename, size, now) => UploadSlice(org, filename, size, now)
    case Orphan(_) => s.(file := true)
    case Requeue(_, _, operation, now) => RequeueSlice(s, operation, now)
    case Claim(_, _, now) => ClaimSlice(c.cfg, s, now)
    case ClearPart(_, removed) => s.(points := s.points - removed)
    case ClearVectors(_) => s.(points := map[])
    case UpsertPart(w, part) => s.(points := s.points + Partial(d, s.doc.value, c.workers[w].phase.pieces, part))
    case UpsertAll(w) =>
      s.(points := s.points + IndexOf(d, s.doc.value, NewRows(d, s.doc.value.generation, c.workers[w].phase.pieces)))
    case Unlink(_) => s.(file := false)
    case CommitIndex(w, _) => IndexedSlice(d, s, c.workers[w].phase.pieces)
    case CommitDelete(_) => DeletedSlice(s)
    case CommitFailure(w, now) =>
      if TokenCurrent(s, c.workers[w].attempt)
      then FailedSlice(c.cfg, s, c.workers[w].attempt, c.workers[w].phase.failure, now)
      else s
    case _ => s
  }

  /** The phase the acting worker goes to; None when it is done with the job, or dead. */
  ghost function NextPhase(c: Core, a: Action): Option<Phase>
    requires Enabled(c, a) && Actor(a).Some?
  {
    match a
    case Fence(w) => if TokenCurrent(ShareOf(c, w), c.workers[w].attempt) then Some(Fenced) else None
    case ClearPart(_, _) => Some(Clearing)
    case ClearVectors(_) => Some(Cleared)
    case Weigh(_) => Some(Weighed)
    case Plan(_, pieces) => Some(Planned(pieces))
    case UpsertPart(w, part) => Some(Writing(c.workers[w].phase.pieces, part))
    case UpsertAll(w) => Some(Written(c.workers[w].phase.pieces))
    case Unlink(_) => Some(Unlinked)
    case Raise(_, failure) => Some(Caught(failure))
    case _ => None
  }

  ghost function Crew(c: Core, a: Action): map<WorkerId, Worker>
    requires Enabled(c, a)
  {
    if Actor(a).Some? then
      Set(c.workers, a.worker,
          if NextPhase(c, a).Some? then Some(c.workers[a.worker].(phase := NextPhase(c, a).value)) else None)
    else if a.Claim? && c.jobs[a.doc].attempts < c.cfg.maxAttempts then
      c.workers[a.worker := Worker(a.doc, c.jobs[a.doc].attempts + 1, c.jobs[a.doc].round, Claimed)]
    else c.workers
  }

  /** A lock is taken by passing the fence and dropped when the transaction ends, however it ends. */
  ghost function Locked(c: Core, a: Action): map<DocId, WorkerId>
    requires Enabled(c, a)
  {
    if Actor(a).None? then c.locks
    else if NextPhase(c, a).Some? && HoldsLock(NextPhase(c, a).value) then c.locks[Subject(c, a) := a.worker]
    else if HoldsLock(c.workers[a.worker].phase) then c.locks - {Subject(c, a)}
    else c.locks
  }

  ghost function Rated(c: Core, a: Action): map<OrgId, Window>
    requires Enabled(c, a)
  {
    if a.Upload? || (a.Requeue? && a.operation == Ingest)
    then c.rates[a.org := Consume(At(c.rates, a.org), a.now, c.cfg.uploadsPerMinute).value]
    else c.rates
  }

  /** The state after the step. */
  ghost function Apply(c: Core, a: Action): Core
    requires Enabled(c, a)
  {
    Write(c, Subject(c, a), After(c, a)).(rates := Rated(c, a), workers := Crew(c, a), locks := Locked(c, a))
  }
}
