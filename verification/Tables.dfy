/** The rows of the document queue, the payloads of the vector store, and the process limits.

    uuid4 keys are naturals that are never handed out twice; the uuid5 keys of chunks and
    points, which hash a text built from their parts, are the parts themselves. */
module Tables {

  type OrgId = nat
  type DocId = nat
  type WorkerId = nat
  type Time = int

  datatype Option<+T> = None | Some(value: T)
  datatype Result<+T, +E> = Ok(value: T) | Err(error: E)

  /** The settings the queue reads (`Settings`); pydantic enforces the bounds in `Valid`. */
  datatype Config = Config(
    maxAttempts: nat, leaseSeconds: nat, retrySeconds: nat,
    maxDocuments: nat, maxStorageBytes: nat, maxPending: nat,
    maxUploadBytes: nat, uploadsPerMinute: nat, maxChunks: nat, maxProposals: nat)
  {
    predicate Valid() {
      && maxAttempts > 0 && leaseSeconds > 0 && retrySeconds > 0
      && maxDocuments > 0 && maxStorageBytes > 0 && maxPending > 0
      && maxUploadBytes > 0 && uploadsPerMinute > 0 && maxChunks > 0 && maxProposals > 0
    }
  }

  /** How a request ends; the numbers are HTTP status codes. */
  datatype Reply = Done | Refused(code: nat)

  datatype Operation = Ingest | Delete
  datatype JobStatus = Queued | Processing | Succeeded | Failed
  datatype DocStatus = DocQueued | DocProcessing | DocReady | DocDeleting | DocFailed
  datatype SyncState = SyncPending | SyncProcessing | SyncSynced | SyncFailed | SyncDeleting | SyncDeleted
  datatype ErrorCode = NoError | RetriesExhausted | ProviderUnavailable | StaleDocument
                     | ExtractionFailed | Permanent(code: string)

  datatype Document = Document(
    org: OrgId, filename: string, size: nat, status: DocStatus, generation: nat, error: ErrorCode)

  /** `round` is bookkeeping of this model: how often HTTP admission has put the job in the queue. */
  datatype Job = Job(
    operation: Operation, status: JobStatus, attempts: nat, availableAt: Time,
    lease: Option<Time>, error: ErrorCode, round: nat)

  datatype Source = Source(org: OrgId, state: SyncState, error: ErrorCode, deleted: bool)

  /** What the chunker produced, before it becomes a row and a point. */
  datatype Piece = Piece(content: string, page: nat)

  datatype ChunkId = ChunkId(doc: DocId, generation: nat, index: nat)
  datatype ChunkRow = ChunkRow(document: DocId, index: nat, content: string, page: nat)

  datatype PointId = PointId(org: OrgId, doc: DocId, chunk: ChunkId, index: nat)
  datatype Payload = Payload(
    org: OrgId, source: DocId, document: DocId, chunk: ChunkId,
    index: nat, page: nat, content: string, filename: string)

  /** How a run of a job can go wrong: `Transient` is an error worth retrying
      (`ProviderUnavailable`, or anything that is not a `DocumentProcessingError`). */
  datatype Failure = Transient | Poison(code: string)

  function CodeOf(f: Failure): ErrorCode {
    match f
    case Transient => ProviderUnavailable
    case Poison(code) => Permanent(code)
  }

  /** The statuses that count against the pending quota (`PENDING`). */
  predicate IsPending(s: DocStatus) {
    s == DocQueued || s == DocProcessing || s == DocDeleting
  }

  /** `set_sync_state`: the new state, its error code, and the tombstone mark. */
  function WithSync(s: Source, state: SyncState, error: ErrorCode): Source {
    s.(state := state, error := error, deleted := s.deleted || state == SyncDeleted)
  }

  function Power2(n: nat): (r: nat)
    ensures r > 0
  {
    if n == 0 then 1 else 2 * Power2(n - 1)
  }
}
