/** What the invariant of the ingestion queue means to a caller: an exact index, fenced writes, quotas. */
module IngestionTheorems {
  import opened Tables
  import opened Ingestion
  import opened IngestionInvariant
  import Sums

  // ---------------------------------------------------------------- index exactness

  /** `ready_documents`: the documents of a tenant that a search starting now will look at. */
  ghost function ReadyDocuments(c: Core, org: OrgId): set<DocId> {
    set d | d in c.docs && d in c.sources && c.docs[d].org == org && c.docs[d].status == DocReady && !c.sources[d].deleted
  }

  /** A READY document's points are its chunk rows, one each, and nothing else: every row has a point
      that carries it, and every point is some current row's. */
  lemma IndexExact(c: Core, d: DocId)
    requires Inv(c) && d in c.docs && c.docs[d].status == DocReady
    ensures PointsOf(c.points, d) == IndexOf(d, c.docs[d], RowsOf(c.chunks, d))
    ensures |PointsOf(c.points, d)| == |RowsOf(c.chunks, d)| > 0
    ensures forall k :: k in RowsOf(c.chunks, d) <==>
              k.doc == d && k.generation == c.docs[d].generation && k.index < |RowsOf(c.chunks, d)|
  {
    assert SliceOk(c.cfg, d, View(c, d));
    OnePointPerRow(d, c.docs[d], RowsOf(c.chunks, d));
  }

  lemma {:induction false} OnePointPerRow(d: DocId, doc: Document, rows: map<ChunkId, ChunkRow>)
    ensures |IndexOf(d, doc, rows)| == |rows|
    decreases |rows|
  {
    if rows != map[] {
      var k :| k in rows;
      var rest := rows - {k};
      assert rows.Keys == rest.Keys + {k} && rest[k := rows[k]] == rows;
      OnePointPerRow(d, doc, rest);
      IndexGrows(d, doc, rest, k, rows[k]);
    }
  }

  /** A point of a document that is READY for the tenant carries, at that moment, a stored row of the current
      generation, word for word, of that tenant. A search reads the documents earlier than the points; what it returns
      is the subject of `Search`. */
  lemma SearchReturnsCurrentChunks(c: Core, org: OrgId, p: PointId)
    requires Inv(c) && p in c.points && c.points[p].document in ReadyDocuments(c, org)
    ensures var hit := c.points[p];
            && hit.org == org
            && hit.chunk in c.chunks && c.chunks[hit.chunk].document == hit.document
            && hit.chunk.generation == c.docs[hit.document].generation
            && c.chunks[hit.chunk].content == hit.content && c.chunks[hit.chunk].page == hit.page
  {
    var d := c.points[p].document;
    IndexExact(c, d);
    var rows := RowsOf(c.chunks, d);
    assert p in PointsOf(c.points, d) && p in IndexOf(d, c.docs[d], rows);
    assert c.points[p] == PayloadFor(d, c.docs[d], p.chunk, rows[p.chunk]);
  }

  /** No tenant's search reaches a point of another tenant's document. */
  lemma PointsStayWithTenant(c: Core, p: PointId)
    requires Inv(c) && p in c.points
    ensures c.points[p].document in c.docs && c.docs[c.points[p].document].org == c.points[p].org
  {
    var d := c.points[p].document;
    assert SliceOk(c.cfg, d, View(c, d));
    assert p in PointsOf(c.points, d);
  }

  // ---------------------------------------------------------------- status agreement

  /** Each document has exactly one job and one live source, and the job alone says what both show. */
  lemma StatusAgreement(c: Core, d: DocId)
    requires Inv(c)
    ensures d in c.docs <==> d in c.jobs
    ensures d in c.docs ==> d in c.sources && !c.sources[d].deleted && Agree(c.jobs[d], c.docs[d], c.sources[d])
    ensures d in c.docs ==> (IsPending(c.docs[d].status) <==> c.jobs[d].status == Queued || c.jobs[d].status == Processing)
    ensures d in c.jobs ==> !(c.jobs[d].status == Succeeded && c.jobs[d].operation == Delete)
    ensures d in c.sources && d !in c.docs ==> c.sources[d].deleted && c.sources[d].state == SyncDeleted
  {
    assert SliceOk(c.cfg, d, View(c, d));
  }

  /** `set_sync_state` never finds the source missing or of another tenant. */
  lemma SourceAlwaysMatches(c: Core, d: DocId)
    requires Inv(c) && d in c.docs
    ensures d in c.sources && c.sources[d].org == c.docs[d].org
  {
    assert SliceOk(c.cfg, d, View(c, d));
  }

  // ---------------------------------------------------------------- fencing

  /** Worker w is the one the job is currently being attempted by, token for token. */
  ghost predicate HasCurrentToken(c: Core, w: WorkerId, d: DocId) {
    w in c.workers && c.workers[w].doc == d && TokenCurrent(View(c, d), c.workers[w].attempt)
  }

  lemma ChangesAreFenced(c: Core, a: Action)
    requires Enabled(c, a) && Actor(a).Some? && WorkerOk(c.cfg, c.workers[a.worker], ShareOf(c, a.worker))
    requires After(c, a) != ShareOf(c, a.worker)
    ensures TokenCurrent(ShareOf(c, a.worker), c.workers[a.worker].attempt)
    ensures HoldsLock(c.workers[a.worker].phase) || c.workers[a.worker].doc !in c.locks
    ensures After(c, a).points != ShareOf(c, a.worker).points || After(c, a).rows != ShareOf(c, a.worker).rows ==>
              HoldsLock(c.workers[a.worker].phase)
  {
  }

  /** Every vector delete and upsert, and every outcome commit, is the work of the worker that holds the
      document's lock (or, recording a failure, takes it) with the job's current attempt while the job
      is PROCESSING. Whoever has lost the token changes nothing. */
  lemma WritesAreFenced(c: Core, a: Action, w: WorkerId, d: DocId)
    requires Inv(c) && Enabled(c, a) && Actor(a) == Some(w) && View(Apply(c, a), d) != View(c, d)
    ensures HasCurrentToken(c, w, d) && c.jobs[d].status == Processing
    ensures d in c.locks ==> c.locks[d] == w
    ensures View(Apply(c, a), d).points != View(c, d).points ==> d in c.locks
    ensures View(Apply(c, a), d).rows != View(c, d).rows ==> d in c.locks
  {
    StepShares(c, a, d);
    assert WorkerOk(c.cfg, c.workers[w], ShareOf(c, w));
    ChangesAreFenced(c, a);
    assert LockTaken(c, w);
  }

  /** A later claim of the job has been made, or its document is gone. */
  predicate Overtaken(c: Core, w: WorkerId)
    requires w in c.workers
  {
    var wk := c.workers[w];
    wk.doc !in c.jobs || c.jobs[wk.doc].round != wk.round || c.jobs[wk.doc].attempts != wk.attempt
  }

  /** Whether `execute_once` goes past its token check. */
  predicate PassesFence(c: Core, w: WorkerId)
    requires w in c.workers
  {
    TokenCurrent(ShareOf(c, w), c.workers[w].attempt)
  }

  /** Whoever passes, two workers never write for one document at once: the lock has one holder. */
  lemma OneWriterPerDocument(c: Core, v: WorkerId, w: WorkerId)
    requires Inv(c) && v in c.workers && w in c.workers && c.workers[v].doc == c.workers[w].doc
    requires HoldsLock(c.workers[v].phase) && HoldsLock(c.workers[w].phase)
    ensures v == w
  {
    assert LockTaken(c, v) && LockTaken(c, w);
  }

  // ---------------------------------------------------------------- quotas

  ghost predicate QuotaOk(c: Core, org: OrgId) {
    && |DocsIn(c.docs, org)| <= c.cfg.maxDocuments
    && Sums.Total(SizesIn(c.docs, org)) <= c.cfg.maxStorageBytes
    && |PendingIn(c.docs, org)| <= c.cfg.maxPending
  }

  ghost predicate QuotasOk(c: Core) {
    forall org: OrgId :: QuotaOk(c, org)
  }

  /** Nothing joins a tenant, grows, or starts waiting. */
  ghost predicate Shrinks(docs: map<DocId, Document>, docs': map<DocId, Document>) {
    forall d :: d in docs' ==>
      && d in docs && docs'[d].org == docs[d].org && docs'[d].size == docs[d].size
      && (IsPending(docs'[d].status) ==> IsPending(docs[d].status))
  }

  lemma QuotaWhenShrinking(c: Core, c': Core, org: OrgId)
    requires QuotaOk(c, org) && c'.cfg == c.cfg && Shrinks(c.docs, c'.docs)
    ensures QuotaOk(c', org)
  {
    Sums.SubsetSize(DocsIn(c'.docs, org), DocsIn(c.docs, org));
    Sums.SubsetSize(PendingIn(c'.docs, org), PendingIn(c.docs, org));
    Sums.TotalMonotone(SizesIn(c'.docs, org), SizesIn(c.docs, org));
  }

  lemma JoinTenant(docs: map<DocId, Document>, d: DocId, doc: Document, org: OrgId)
    requires d !in docs
    ensures DocsIn(docs[d := doc], org) == if doc.org == org then DocsIn(docs, org) + {d} else DocsIn(docs, org)
    ensures SizesIn(docs[d := doc], org) ==
              if doc.org == org then SizesIn(docs, org)[d := doc.size] else SizesIn(docs, org)
    ensures PendingIn(docs[d := doc], org) ==
              if doc.org == org && IsPending(doc.status) then PendingIn(docs, org) + {d} else PendingIn(docs, org)
  {
  }

  lemma QuotaUpload(c: Core, a: Action, org: OrgId)
    requires QuotaOk(c, org) && Enabled(c, a) && a.Upload?
    ensures QuotaOk(Apply(c, a), org)
  {
    var doc := UploadSlice(a.org, a.filename, a.size, a.now).doc.value;
    assert Apply(c, a).docs == c.docs[a.doc := doc];
    JoinTenant(c.docs, a.doc, doc, org);
    Sums.TotalUpdate(SizesIn(c.docs, org), a.doc, a.size);
  }

  lemma QuotaRequeue(c: Core, a: Action, org: OrgId)
    requires QuotaOk(c, org) && Enabled(c, a) && a.Requeue?
    ensures QuotaOk(Apply(c, a), org)
  {
    var doc := RequeueSlice(View(c, a.doc), a.operation, a.now).doc.value;
    assert Apply(c, a).docs == c.docs[a.doc := doc];
    WaitsAgain(c.docs, a.doc, doc, org);
  }

  lemma WaitsAgain(docs: map<DocId, Document>, d: DocId, doc: Document, org: OrgId)
    requires d in docs && doc.org == docs[d].org && doc.size == docs[d].size && IsPending(doc.status)
    ensures DocsIn(docs[d := doc], org) == DocsIn(docs, org) && SizesIn(docs[d := doc], org) == SizesIn(docs, org)
    ensures PendingIn(docs[d := doc], org) == if doc.org == org then PendingIn(docs, org) + {d} else PendingIn(docs, org)
  {
  }

  lemma StepShrinks(c: Core, a: Action)
    requires Inv(c) && Enabled(c, a) && !a.Upload? && !a.Requeue?
    ensures Shrinks(c.docs, Apply(c, a).docs)
  {
    var c' := Apply(c, a);
    OwnShrinks(c, a);
    forall e | e in c'.docs
      ensures e in c.docs && c'.docs[e].org == c.docs[e].org && c'.docs[e].size == c.docs[e].size
      ensures IsPending(c'.docs[e].status) ==> IsPending(c.docs[e].status)
    {
      StepShares(c, a, e);
      assert View(c', e).doc == Some(c'.docs[e]);
      assert e != Subject(c, a) ==> View(c, e).doc == Some(c'.docs[e]);
    }
  }

  predicate ShareShrinks(s: Slice, t: Slice) {
    t.doc.Some? ==>
      && s.doc.Some? && t.doc.value.org == s.doc.value.org && t.doc.value.size == s.doc.value.size
      && (IsPending(t.doc.value.status) ==> IsPending(s.doc.value.status))
  }

  lemma WorkerShrinks(c: Core, a: Action)
    requires Enabled(c, a) && Actor(a).Some?
    requires SliceOk(c.cfg, Subject(c, a), ShareOf(c, a.worker))
    requires WorkerOk(c.cfg, c.workers[a.worker], ShareOf(c, a.worker))
    ensures ShareShrinks(ShareOf(c, a.worker), After(c, a))
  {
  }

  lemma ClaimShrinks(cfg: Config, d: DocId, s: Slice, now: Time)
    requires SliceOk(cfg, d, s) && s.doc.Some? && (s.job.value.status == Queued || s.job.value.status == Processing)
    ensures ShareShrinks(s, ClaimSlice(cfg, s, now))
  {
  }

  lemma OwnShrinks(c: Core, a: Action)
    requires Inv(c) && Enabled(c, a) && !a.Upload? && !a.Requeue?
    ensures ShareShrinks(View(c, Subject(c, a)), After(c, a))
  {
    var d := Subject(c, a);
    assert SliceOk(c.cfg, d, View(c, d));
    if Actor(a).Some? {
      assert WorkerOk(c.cfg, c.workers[a.worker], ShareOf(c, a.worker));
      WorkerShrinks(c, a);
    } else if a.Claim? {
      ClaimShrinks(c.cfg, d, View(c, d), a.now);
    }
  }

  /** Every step keeps every tenant within its document count, storage and pending limits. */
  lemma StepKeepsQuotas(c: Core, a: Action)
    requires Inv(c) && QuotasOk(c) && Enabled(c, a)
    ensures QuotasOk(Apply(c, a))
  {
    forall org: OrgId ensures QuotaOk(Apply(c, a), org) {
      if a.Upload? {
        QuotaUpload(c, a, org);
      } else if a.Requeue? {
        QuotaRequeue(c, a, org);
      } else {
        StepShrinks(c, a);
        QuotaWhenShrinking(c, Apply(c, a), org);
      }
    }
  }
}
