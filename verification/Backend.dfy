/** The worker and the admission endpoints as they change the tables, proved against the state machine. */
module Backend {
  import opened Tables
  import opened RateLimit
  import opened Ingestion
  import opened IngestionInvariant
  import Storage
  import Sums

  /** Why a request is turned away: 415, 404, 409, 429, 413 and 422. */
  datatype Refusal = UnsupportedMedia | NotFound | Busy | QuotaExceeded | TooLarge | Empty

  class Store {
    const cfg: Config
    var orgs: set<OrgId>
    var docs: map<DocId, Document>
    var jobs: map<DocId, Job>
    var sources: map<DocId, Source>
    var chunks: map<ChunkId, ChunkRow>
    var points: map<PointId, Payload>
    var files: set<DocId>
    var rates: map<OrgId, Window>
    var locks: map<DocId, WorkerId>
    var workers: map<WorkerId, Worker>

    constructor (cfg: Config, orgs: set<OrgId>)
      ensures Contents() == Core(cfg, orgs, map[], map[], map[], map[], map[], {}, map[], map[], map[])
    {
      this.cfg, this.orgs := cfg, orgs;
      docs, jobs, sources, chunks, points := map[], map[], map[], map[], map[];
      files, rates, locks, workers := {}, map[], map[], map[];
    }

    function Contents(): Core
      reads this
    {
      Core(cfg, orgs, docs, jobs, sources, chunks, points, files, rates, locks, workers)
    }

    // -------------------------------------------------------------- source_service, document_service

    /** `set_sync_state`; `ok` is false where the source raises RuntimeError. */
    method SetSyncState(d: DocId, state: SyncState, error: ErrorCode) returns (ok: bool)
      requires d in docs
      modifies this`sources
      ensures ok <==> d in old(sources) && old(sources)[d].org == docs[d].org
      ensures sources == if ok then old(sources)[d := WithSync(old(sources)[d], state, error)] else old(sources)
    {
      if d !in sources || sources[d].org != docs[d].org {
        return false;
      }
      var source := sources[d].(state := state, error := error);
      if state == SyncDeleted {
        source := source.(deleted := true);
      }
      sources := sources[d := source];
      ok := true;
    }

    /** `consume_rate`; a refused request leaves the row to the caller's rollback, which restores it. */
    method ConsumeRate(org: OrgId, now: Time, limit: nat) returns (ok: bool)
      modifies this`rates
      ensures var r := Consume(At(old(rates), org), now, limit);
              ok == r.Some? && rates == if ok then old(rates)[org := r.value] else old(rates)
    {
      var row := if org in rates then rates[org] else Window(now, 0);
      if now >= row.start + MINUTE {
        row := Window(now, 0);
      }
      if row.requests >= limit {
        return false;
      }
      row := row.(requests := row.requests + 1);
      rates := rates[org := row];
      ok := true;
    }

    /** `SELECT coalesce(sum(file_size), 0)` over a tenant's documents. */
    method StoredBytes(org: OrgId) returns (n: nat)
      ensures n == Sums.Total(SizesIn(docs, org))
    {
      var left := DocsIn(docs, org);
      ghost var sizes := SizesIn(docs, org);
      n := 0;
      while left != {}
        invariant left <= DocsIn(docs, org) && sizes.Keys == left
        invariant forall d :: d in left ==> sizes[d] == docs[d].size
        invariant n + Sums.Total(sizes) == Sums.Total(SizesIn(docs, org))
        decreases |left|
      {
        var d :| d in left;
        Sums.TotalRemove(sizes, d);
        n := n + docs[d].size;
        left, sizes := left - {d}, sizes - {d};
      }
    }

    /** The limiter, or one of the three quotas, has no room left whatever the file. */
    static ghost predicate OverQuota(c: Core, org: OrgId, now: Time) {
      || (org in c.rates && now < c.rates[org].start + 60 && c.rates[org].requests >= c.cfg.uploadsPerMinute)
      || c.cfg.uploadsPerMinute == 0
      || |PendingIn(c.docs, org)| >= c.cfg.maxPending || |DocsIn(c.docs, org)| >= c.cfg.maxDocuments
      || Sums.Total(SizesIn(c.docs, org)) >= c.cfg.maxStorageBytes
    }

    /** The checks of `queue_document`, in its order, for a file of `bytes` bytes; a request that passes
        has paid its rate. */
    method AdmitUpload(org: OrgId, pdf: bool, bytes: nat, now: Time) returns (r: Option<Refusal>)
      modifies this`rates
      ensures var c, stored := old(Contents()), Sums.Total(SizesIn(docs, org));
              r.None? <==>
                && pdf && org in orgs && Consume(At(c.rates, org), now, cfg.uploadsPerMinute).Some?
                && |PendingIn(docs, org)| < cfg.maxPending && |DocsIn(docs, org)| < cfg.maxDocuments
                && stored < cfg.maxStorageBytes
                && 0 < bytes <= Min(cfg.maxUploadBytes, cfg.maxStorageBytes - stored)
      ensures rates == if r.None? then old(rates)[org := Consume(At(old(rates), org), now, cfg.uploadsPerMinute).value]
                       else old(rates)
      ensures r.Some? ==>
                r.value == if !pdf then UnsupportedMedia else if org !in orgs then NotFound
                           else if OverQuota(old(Contents()), org, now) then QuotaExceeded
                           else if bytes == 0 then Empty else TooLarge
    {
      if !pdf { return Some(UnsupportedMedia); }
      if org !in orgs { return Some(NotFound); }
      var before := rates;
      var admitted := ConsumeRate(org, now, cfg.uploadsPerMinute);
      if !admitted { return Some(QuotaExceeded); }
      var pending, count := |PendingIn(docs, org)|, |DocsIn(docs, org)|;
      var size := StoredBytes(org);
      if pending >= cfg.maxPending || count >= cfg.maxDocuments || size >= cfg.maxStorageBytes {
        rates := before;
        return Some(QuotaExceeded);
      }
      var verdict := Storage.Verdict(bytes, Min(cfg.maxUploadBytes, cfg.maxStorageBytes - size));
      if verdict.Some? {
        rates := before;
        return Some(if verdict.value == Storage.Empty then Empty else TooLarge);
      }
      r := None;
    }

    /** `queue_document` for the fresh id d. It admits a file exactly when every limit leaves room for it,
        and a request it turns away changes nothing. */
    method QueueDocument(d: DocId, org: OrgId, filename: string, pdf: bool, blocks: seq<seq<Storage.byte>>, now: Time)
      returns (r: Result<DocId, Refusal>)
      requires d !in sources && d !in docs && d !in jobs && d !in files
      modifies this
      ensures r.Ok? <==> pdf && CanUpload(old(Contents()), Upload(d, org, filename, |Storage.Content(blocks)|, now))
      ensures r.Ok? ==> r.value == d
      ensures r.Ok? ==> Contents() == AfterUpload(old(Contents()), d, org, filename, |Storage.Content(blocks)|, now,
                                                  Consume(At(old(rates), org), now, cfg.uploadsPerMinute).value)
      ensures r.Ok? ==> d in docs && docs[d].size == |Storage.Content(blocks)| && docs[d].org == org
      ensures r.Err? ==> Contents() == old(Contents())
      ensures r.Err? ==>
                r.error == if !pdf then UnsupportedMedia else if org !in old(orgs) then NotFound
                           else if OverQuota(old(Contents()), org, now) then QuotaExceeded
                           else if Storage.Content(blocks) == [] then Empty else TooLarge
    {
      var bytes := |Storage.Content(blocks)|;
      var refusal := AdmitUpload(org, pdf, bytes, now);
      if refusal.Some? { return Err(refusal.value); }
      files := files + {d};
      sources := sources[d := Source(org, SyncPending, NoError, false)];
      docs := docs[d := Document(org, filename, bytes, DocQueued, 1, NoError)];
      jobs := jobs[d := Job(Ingest, Queued, 0, now, None, NoError, 0)];
      r := Ok(d);
    }

    /** The checks of `queue_existing`, in its order; a request that passes has paid its rate. */
    method AdmitExisting(d: DocId, org: OrgId, operation: Operation, now: Time) returns (r: Option<Refusal>)
      requires forall e :: e in docs ==> e in sources && sources[e].org == docs[e].org
      modifies this`rates
      ensures r.None? <==> CanRequeue(old(Contents()), Requeue(d, org, operation, now))
      ensures rates == if r.None? && operation == Ingest
                       then old(rates)[org := Consume(At(old(rates), org), now, cfg.uploadsPerMinute).value]
                       else old(rates)
      ensures r.Some? ==>
                r.value == if org !in old(orgs) || d !in old(docs) || old(docs)[d].org != org then NotFound
                           else if d in old(locks) || (d in old(jobs) && old(jobs)[d].status == Processing)
                                   || (operation == Ingest && old(docs)[d].status in {DocQueued, DocProcessing, DocDeleting})
                           then Busy
                           else QuotaExceeded
    {
      if org !in orgs || d !in docs || docs[d].org != org { return Some(NotFound); }
      if d in locks { return Some(Busy); }
      if d in jobs && jobs[d].status == Processing { return Some(Busy); }
      var before := rates;
      if operation == Ingest {
        if IsPending(docs[d].status) { return Some(Busy); }
        var admitted := ConsumeRate(org, now, cfg.uploadsPerMinute);
        if !admitted { return Some(QuotaExceeded); }
        if |PendingIn(docs, org)| >= cfg.maxPending { rates := before; return Some(QuotaExceeded); }
      } else if !IsPending(docs[d].status) {
        if |PendingIn(docs, org)| >= cfg.maxPending { return Some(QuotaExceeded); }
      }
      r := None;
    }

    /** `queue_existing`: a reindex or a delete request. */
    method QueueExisting(d: DocId, org: OrgId, operation: Operation, now: Time) returns (r: Result<DocId, Refusal>)
      requires forall e :: e in docs ==> e in sources && sources[e].org == docs[e].org
      modifies this
      ensures r.Ok? <==> CanRequeue(old(Contents()), Requeue(d, org, operation, now))
      ensures r.Ok? ==> r.value == d
      ensures r.Ok? ==> Contents() == AfterRequeue(old(Contents()), d, operation, now,
                                                   Rated(old(Contents()), Requeue(d, org, operation, now)))
      ensures r.Err? ==> Contents() == old(Contents())
      ensures r.Err? ==>
                r.error == if org !in old(orgs) || d !in old(docs) || old(docs)[d].org != org then NotFound
                           else if d in old(locks) || (d in old(jobs) && old(jobs)[d].status == Processing)
                                   || (operation == Ingest && old(docs)[d].status in {DocQueued, DocProcessing, DocDeleting})
                           then Busy
                           else QuotaExceeded
    {
      var refusal := AdmitExisting(d, org, operation, now);
      if refusal.Some? { return Err(refusal.value); }
      Readmit(d, operation, now);
      r := Ok(d);
    }

    /** The rows of an admitted reindex or delete request. */
    method Readmit(d: DocId, operation: Operation, now: Time)
      requires d in docs && d in sources && sources[d].org == docs[d].org
      modifies this
      ensures Contents() == AfterRequeue(old(Contents()), d, operation, now, old(rates))
    {
      var document := docs[d];
      if operation == Ingest {
        document := document.(generation := document.generation + 1);
      }
      var round := if d in jobs then jobs[d].round + 1 else 0;
      jobs := jobs[d := Job(operation, Queued, 0, now, None, NoError, round)];
      document := document.(status := if operation == Delete then DocDeleting else DocQueued, error := NoError);
      docs := docs[d := document];
      var ok := SetSyncState(d, if operation == Delete then SyncDeleting else SyncPending, NoError);
    }

    // -------------------------------------------------------------- worker.claim

    /** `claim`: the first claimable row by (available_at, id) that nobody has locked, if there is one;
        `row` names it. The answer is empty also when that row's attempts are used up. */
    method Claim(w: WorkerId, now: Time) returns (r: Option<(DocId, nat)>, ghost row: Option<DocId>)
      requires Inv(Contents()) && w !in workers
      modifies this
      ensures row.None? <==> forall d: DocId :: !Claimable(old(Contents()), d, now)
      ensures row.None? ==> r.None? && Contents() == old(Contents())
      ensures row.Some? ==>
                && IsNext(old(Contents()), row.value, now)
                && (forall e :: e in old(jobs) && Claimable(old(Contents()), e, now) ==>
                      || old(jobs)[row.value].availableAt < old(jobs)[e].availableAt
                      || (old(jobs)[row.value].availableAt == old(jobs)[e].availableAt && row.value <= e))
                && Enabled(old(Contents()), Action.Claim(w, row.value, now))
                && Contents() == Apply(old(Contents()), Action.Claim(w, row.value, now))
                && var attempts := old(jobs)[row.value].attempts;
                   r == if attempts >= cfg.maxAttempts then None else Some((row.value, attempts + 1))
    {
      ghost var c := Contents();
      if forall d :: d in jobs ==> !Claimable(Contents(), d, now) {
        return None, None;
      }
      ghost var some :| some in jobs && Claimable(c, some, now);
      ghost var first := SomethingIsNext(c, some, now);
      assert first in jobs;
      var d :| d in jobs && IsNext(Contents(), d, now);
      assert SliceOk(c.cfg, d, View(c, d));
      assert IsNext(c, d, now);
      ClaimResult(c, w, d, now);
      r := ClaimRow(w, d, now);
      row := Some(d);
    }

    method ClaimRow(w: WorkerId, d: DocId, now: Time) returns (r: Option<(DocId, nat)>)
      requires d in docs && d in jobs && d in sources && sources[d].org == docs[d].org
      modifies this
      ensures Contents() == AfterClaim(old(Contents()), w, d, now)
      ensures r == if old(jobs)[d].attempts >= cfg.maxAttempts then None else Some((d, old(jobs)[d].attempts + 1))
    {
      var document, job := docs[d], jobs[d];
      if job.attempts >= cfg.maxAttempts {
        job := job.(status := Failed, error := RetriesExhausted);
        document := document.(status := DocFailed, error := RetriesExhausted);
        job := job.(lease := None);
        docs, jobs := docs[d := document], jobs[d := job];
        var ok := SetSyncState(d, SyncFailed, RetriesExhausted);
        r := None;
      } else {
        job := job.(attempts := job.attempts + 1);
        job := job.(status := Processing, lease := Some(now + cfg.leaseSeconds));
        document := document.(status := if job.operation == Delete then DocDeleting else DocProcessing);
        docs, jobs := docs[d := document], jobs[d := job];
        var ok := SetSyncState(d, if job.operation == Delete then SyncDeleting else SyncProcessing, NoError);
        workers := workers[w := Worker(d, job.attempts, job.round, Claimed)];
        r := Some((d, job.attempts));
      }
    }
  }

  // ---------------------------------------------------------------- tables and the state machine's Write

  /** A step that touches only a document's records leaves rows, points and file tables alone. */
  lemma WriteRecords(c: Core, d: DocId, s: Slice)
    requires s.rows == RowsOf(c.chunks, d) && s.points == PointsOf(c.points, d) && s.file == (d in c.files)
    ensures Write(c, d, s) ==
              c.(docs := Set(c.docs, d, s.doc), jobs := Set(c.jobs, d, s.job), sources := Set(c.sources, d, s.source))
  {
    var m := Write(c, d, s);
    assert m.chunks == c.chunks;
    assert m.points == c.points;
    assert m.files == c.files;
  }

  lemma WriteFresh(c: Core, d: DocId, s: Slice)
    requires forall k :: k in c.chunks ==> c.chunks[k].document != d
    requires forall p :: p in c.points ==> c.points[p].document != d
    requires s.rows == map[] && s.points == map[] && s.file
    ensures Write(c, d, s) ==
              c.(docs := Set(c.docs, d, s.doc), jobs := Set(c.jobs, d, s.job), sources := Set(c.sources, d, s.source),
                 files := c.files + {d})
  {
    var m := Write(c, d, s);
    assert m.chunks == c.chunks;
    assert m.points == c.points;
  }

  // The same three steps with the records they leave written out table by table.

  function AfterUpload(c: Core, d: DocId, org: OrgId, filename: string, size: nat, now: Time, rate: Window): Core {
    c.(docs := c.docs[d := Document(org, filename, size, DocQueued, 1, NoError)],
       jobs := c.jobs[d := Job(Ingest, Queued, 0, now, None, NoError, 0)],
       sources := c.sources[d := Source(org, SyncPending, NoError, false)],
       files := c.files + {d}, rates := c.rates[org := rate])
  }

  function AfterRequeue(c: Core, d: DocId, operation: Operation, now: Time, rates: map<OrgId, Window>): Core
    requires d in c.docs && d in c.sources
  {
    var s := RequeueSlice(Slice(Some(c.docs[d]), At(c.jobs, d), Some(c.sources[d]), map[], map[], false), operation, now);
    c.(docs := c.docs[d := s.doc.value], jobs := c.jobs[d := s.job.value],
       sources := c.sources[d := s.source.value], rates := rates)
  }

  function AfterClaim(c: Core, w: WorkerId, d: DocId, now: Time): Core
    requires d in c.docs && d in c.sources && d in c.jobs
  {
    var s := ClaimSlice(c.cfg, Slice(Some(c.docs[d]), Some(c.jobs[d]), Some(c.sources[d]), map[], map[], false), now);
    c.(docs := c.docs[d := s.doc.value], jobs := c.jobs[d := s.job.value], sources := c.sources[d := s.source.value],
       workers := if c.jobs[d].attempts >= c.cfg.maxAttempts then c.workers
                  else c.workers[w := Worker(d, c.jobs[d].attempts + 1, c.jobs[d].round, Claimed)])
  }

  lemma ClaimResult(c: Core, w: WorkerId, d: DocId, now: Time)
    requires Enabled(c, Claim(w, d, now))
    ensures Apply(c, Claim(w, d, now)) == AfterClaim(c, w, d, now)
  {
    var a, s := Claim(w, d, now), ClaimSlice(c.cfg, View(c, d), now);
    var c' := AfterClaim(c, w, d, now);
    assert s.doc == Some(c'.docs[d]) && s.job == Some(c'.jobs[d]) && s.source == Some(c'.sources[d]);
    assert s.rows == View(c, d).rows && s.points == View(c, d).points && s.file == View(c, d).file;
    WriteRecords(c, d, s);
    assert Crew(c, a) == c'.workers && Locked(c, a) == c'.locks && Rated(c, a) == c'.rates;
  }

  lemma RequeueResult(c: Core, a: Action)
    requires Enabled(c, a) && a.Requeue?
    ensures Apply(c, a) == AfterRequeue(c, a.doc, a.operation, a.now, Rated(c, a))
  {
    WriteRecords(c, a.doc, RequeueSlice(View(c, a.doc), a.operation, a.now));
  }

  lemma UploadResult(c: Core, a: Action)
    requires Enabled(c, a) && a.Upload?
    requires forall k :: k in c.chunks ==> c.chunks[k].document != a.doc
    requires forall p :: p in c.points ==> c.points[p].document != a.doc
    ensures Apply(c, a) == AfterUpload(c, a.doc, a.org, a.filename, a.size, a.now,
                                    Consume(At(c.rates, a.org), a.now, c.cfg.uploadsPerMinute).value)
  {
    WriteFresh(c, a.doc, UploadSlice(a.org, a.filename, a.size, a.now));
  }
}
