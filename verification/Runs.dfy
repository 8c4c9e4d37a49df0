/** The guarantees of the backend, stated over all its runs. */
module Runs {
  import opened Tables
  import opened RateLimit
  import opened Ingestion
  import opened IngestionInvariant
  import opened IngestionTheorems
  import opened Evidence
  import opened System
  import opened SystemInvariant

  /** The states a deployment can be in. */
  ghost predicate Reachable(s: System) {
    exists cfg: Config, orgs, states, steps ::
      cfg.Valid() && IsRun(cfg, orgs, states, steps) && s == states[|states| - 1]
  }

  lemma ReachableInv(s: System)
    requires Reachable(s)
    ensures SysInv(s)
  {
    var cfg: Config, orgs, states, steps :|
      cfg.Valid() && IsRun(cfg, orgs, states, steps) && s == states[|states| - 1];
    RunKeepsSysInv(cfg, orgs, states, steps, |states| - 1);
  }

  // ---------------------------------------------------------------- the index

  /** In every reachable state the points of a document that is READY in that state are exactly its chunk rows, all of
      its current generation, and each carries the content of such a row, of the same tenant. */
  lemma IndexExactAlways(s: System, d: DocId)
    requires Reachable(s) && d in s.core.docs && s.core.docs[d].status == DocReady
    ensures PointsOf(s.core.points, d) == IndexOf(d, s.core.docs[d], RowsOf(s.core.chunks, d))
    ensures |PointsOf(s.core.points, d)| == |RowsOf(s.core.chunks, d)| > 0
    ensures forall k :: k in RowsOf(s.core.chunks, d) ==> k.generation == s.core.docs[d].generation
    ensures forall p :: p in s.core.points && s.core.points[p].document == d ==>
              && s.core.points[p].org == s.core.docs[d].org
              && s.core.points[p].chunk in s.core.chunks
              && s.core.chunks[s.core.points[p].chunk].content == s.core.points[p].content
  {
    ReachableInv(s);
    IndexExact(s.core, d);
    forall p | p in s.core.points && s.core.points[p].document == d
      ensures s.core.points[p].org == s.core.docs[d].org && s.core.points[p].chunk in s.core.chunks
      ensures s.core.chunks[s.core.points[p].chunk].content == s.core.points[p].content
    {
      assert SliceOk(s.core.cfg, d, View(s.core, d));
      assert d in ReadyDocuments(s.core, s.core.docs[d].org);
      SearchReturnsCurrentChunks(s.core, s.core.docs[d].org, p);
    }
  }

  // ---------------------------------------------------------------- reviews

  /** No proposal is ever REJECTED: a reject request, too, leaves it ACCEPTED. */
  lemma NothingIsRejected(s: System, p: ProposalId)
    requires Reachable(s) && p in s.graph.proposals
    ensures s.graph.proposals[p].status != Rejected
  {
    ReachableInv(s);
    assert ProposalOk(s.core, s.graph.proposals[p]);
  }

  /** The input that shows it: any reviewable proposal, rejected. */
  lemma RejectAccepts(s: System, org: OrgId, p: ProposalId)
    requires CanStep(s, Reject(org, p))
    ensures Next(s, Reject(org, p)).graph.proposals[p].status == Accepted
    ensures Next(s, Reject(org, p)).graph.entities == s.graph.entities
    ensures Next(s, Reject(org, p)).graph.relations == s.graph.relations
    ensures s.graph.proposals[p].isEntity ==>
              forall m :: m in s.graph.mentions && s.graph.mentions[m].chunk == s.graph.proposals[p].chunk
                && s.graph.mentions[m].document == s.graph.proposals[p].document
                && s.graph.mentions[m].name == s.graph.proposals[p].name && s.graph.mentions[m].status == Proposed
                ==> Next(s, Reject(org, p)).graph.mentions[m].status == Rejected
  {
  }

  // ---------------------------------------------------------------- deletion

  predicate Cites(b: Ledger, d: DocId) {
    exists l :: l in b.links && l.chunk.doc == d
  }

  /** Nothing of the document is left in any store; its source is a tombstone. */
  ghost predicate Gone(s: System, d: DocId) {
    && d !in s.core.docs && d !in s.core.jobs && d !in s.kjobs && d !in s.core.files
    && (forall k :: k in s.core.chunks ==> k.doc != d && s.core.chunks[k].document != d)
    && (forall p :: p in s.core.points ==> s.core.points[p].document != d)
    && !Cites(s.graph.entities, d) && !Cites(s.graph.relations, d)
    && (forall p :: p in s.graph.proposals ==> s.graph.proposals[p].document != d && s.graph.proposals[p].chunk.doc != d)
    && (forall m :: m in s.graph.mentions ==> s.graph.mentions[m].document != d && s.graph.mentions[m].chunk.doc != d)
    && d in s.core.sources && s.core.sources[d].state == SyncDeleted && s.core.sources[d].deleted
  }

  lemma LinksNameDocuments(c: Core, b: Ledger)
    requires LedgerOk(c, b)
    ensures forall l :: l in b.links ==> l.chunk.doc in c.docs
  {
    forall l | l in b.links ensures l.chunk.doc in c.docs { assert LinkOk(c, b, l); }
  }

  /** A document without a row but with a source is gone everywhere else too. */
  lemma NoRowNothingLeft(s: System, d: DocId)
    requires SysInv(s) && d !in s.core.docs && d in s.core.sources
    ensures Gone(s, d)
  {
    var c := s.core;
    assert SliceOk(c.cfg, d, View(c, d));
    forall k | k in c.chunks ensures k.doc != d && c.chunks[k].document != d { ChunkHasDocument(c, k); }
    forall p | p in c.points ensures c.points[p].document != d { PointsStayWithTenant(c, p); }
    forall e | e in s.kjobs ensures e in c.docs { assert KJobOk(c.cfg, c.docs, e, s.kjobs[e]); }
    LinksNameDocuments(c, s.graph.entities);
    LinksNameDocuments(c, s.graph.relations);
    forall p | p in s.graph.proposals
      ensures s.graph.proposals[p].document != d && s.graph.proposals[p].chunk.doc != d
    {
      assert ProposalOk(c, s.graph.proposals[p]);
    }
    forall m | m in s.graph.mentions
      ensures s.graph.mentions[m].document != d && s.graph.mentions[m].chunk.doc != d
    {
      assert MentionOk(c, s.graph.mentions[m]);
      ChunkHasDocument(c, s.graph.mentions[m].chunk);
    }
  }

  /** A document that has gone stays gone. */
  lemma {:induction false} GoneStays(states: seq<System>, steps: seq<Step>, i: nat, j: nat, d: DocId)
    requires IsPath(states, steps) && SysInv(states[0]) && i <= j < |states|
    requires d !in states[i].core.docs && d in states[i].core.sources
    ensures Gone(states[j], d)
    decreases j - i
  {
    PathKeepsSysInv(states, steps, i);
    if i == j {
      NoRowNothingLeft(states[i], d);
    } else {
      if steps[i].Ingestion? { DocumentMoves(states[i].core, steps[i].a, d); }
      GoneStays(states, steps, i + 1, j, d);
    }
  }

  /** Once a delete is committed, whatever failed or crashed before it, nothing of the document is left
      in any later state, and its source is a DELETED tombstone in every one of them. */
  lemma DeleteIsComplete(cfg: Config, orgs: set<OrgId>, states: seq<System>, steps: seq<Step>, i: nat, j: nat)
    requires cfg.Valid() && IsRun(cfg, orgs, states, steps) && i < j < |states|
    requires steps[i].Ingestion? && steps[i].a.CommitDelete?
    ensures steps[i].a.worker in states[i].core.workers
    ensures Gone(states[j], states[i].core.workers[steps[i].a.worker].doc)
  {
    InitOk(cfg, orgs);
    PathKeepsSysInv(states, steps, i);
    var c, a := states[i].core, steps[i].a;
    assert CanStep(states[i], steps[i]);
    var d := c.workers[a.worker].doc;
    assert SliceOk(c.cfg, d, View(c, d)) && WorkerOk(c.cfg, c.workers[a.worker], ShareOf(c, a.worker));
    DocumentMoves(c, a, d);
    GoneStays(states, steps, i + 1, j, d);
  }

  // ---------------------------------------------------------------- fencing of the knowledge queue

  predicate KOvertaken(s: System, w: WorkerId)
    requires w in s.kworkers
  {
    var k := s.kworkers[w];
    k.doc !in s.kjobs || s.kjobs[k.doc].round != k.round || s.kjobs[k.doc].attempts != k.attempt
  }

  /** A step of a knowledge worker changes the graph or its job only with the current token. */
  lemma KWritesAreFenced(s: System, t: Step)
    requires SysInv(s) && CanStep(s, t) && (t.KFinish? || t.KRaise? || t.KFail? || t.KCrash?)
    requires Next(s, t).graph != s.graph || Next(s, t).kjobs != s.kjobs
    ensures t.worker in s.kworkers && KTokenCurrent(s, s.kworkers[t.worker])
    ensures Next(s, t).graph != s.graph ==> KPasses(s, s.kworkers[t.worker])
    ensures Next(s, t).core == s.core
  {
    if t.KFail? {
      var d := s.kworkers[t.worker].doc;
      if d in s.kjobs { assert KJobOk(s.core.cfg, s.core.docs, d, s.kjobs[d]); }
    }
  }

  // ---------------------------------------------------------------- an overtaken worker that passes

  /** Action a is possible in c and leads to c'. */
  ghost predicate Leads(c: Core, a: Action, c': Core) {
    Enabled(c, a) && Apply(c, a) == c'
  }

  const LIMITS := Config(3, 300, 5, 1000, 1000000, 10, 1000, 10, 5000, 1000)

  /** The stores with the one document 0, its job and its source in these states, and these workers. */
  ghost function With(job: Job, doc: Document, source: Source, workers: map<WorkerId, Worker>): Core {
    Core(LIMITS, {0}, map[0 := doc], map[0 := job], map[0 := source], map[], map[], {0},
         map[0 := Window(0, 1)], map[], workers)
  }

  ghost function Doc(status: DocStatus, generation: nat, error: ErrorCode): Document {
    Document(0, "a.pdf", 1, status, generation, error)
  }

  const UNREADABLE := Permanent("EXTRACTION_FAILED")

  ghost function Uploaded(): Core {
    With(Job(Ingest, Queued, 0, 0, None, NoError, 0), Doc(DocQueued, 1, NoError),
         Source(0, SyncPending, NoError, false), map[])
  }

  lemma StepUpload()
    ensures Leads(Init(LIMITS, {0}).core, Upload(0, 0, "a.pdf", 1, 0), Uploaded())
  {
    var c := Init(LIMITS, {0}).core;
    assert PendingIn(c.docs, 0) == {} && DocsIn(c.docs, 0) == {} && SizesIn(c.docs, 0) == map[];
  }

  ghost function Claimed0(): Core {
    With(Job(Ingest, Processing, 1, 0, Some(300), NoError, 0), Doc(DocProcessing, 1, NoError),
         Source(0, SyncProcessing, NoError, false), map[0 := Worker(0, 1, 0, Claimed)])
  }

  lemma StepClaim()
    ensures Leads(Uploaded(), Claim(0, 0, 0), Claimed0())
  {
  }

  /** Worker 0 stalls past its lease, and worker 1 claims again. */
  ghost function Reclaimed(): Core {
    With(Job(Ingest, Processing, 2, 0, Some(600), NoError, 0), Doc(DocProcessing, 1, NoError),
         Source(0, SyncProcessing, NoError, false),
         map[0 := Worker(0, 1, 0, Claimed), 1 := Worker(0, 2, 0, Claimed)])
  }

  lemma StepReclaim()
    ensures Leads(Claimed0(), Claim(1, 0, 300), Reclaimed())
  {
  }

  ghost function Inside(): Core {
    Reclaimed().(workers := map[0 := Worker(0, 1, 0, Claimed), 1 := Worker(0, 2, 0, Fenced)], locks := map[0 := 1])
  }

  lemma StepFence()
    ensures Leads(Reclaimed(), Fence(1), Inside())
  {
    assert TokenCurrent(ShareOf(Reclaimed(), 1), 2);
  }

  ghost function Raised(): Core {
    Reclaimed().(workers := map[0 := Worker(0, 1, 0, Claimed),
                                1 := Worker(0, 2, 0, Caught(Poison("EXTRACTION_FAILED")))])
  }

  lemma StepRaise()
    ensures Leads(Inside(), Raise(1, Poison("EXTRACTION_FAILED")), Raised())
  {
  }

  /** Worker 1 found the file unreadable: the job has failed for good. */
  ghost function GivenUp(): Core {
    With(Job(Ingest, Failed, 2, 311, None, UNREADABLE, 0), Doc(DocFailed, 1, UNREADABLE),
         Source(0, SyncFailed, UNREADABLE, false), map[0 := Worker(0, 1, 0, Claimed)])
  }

  lemma StepGiveUp()
    ensures Leads(Raised(), CommitFailure(1, 301), GivenUp())
  {
    assert TokenCurrent(ShareOf(Raised(), 1), 2);
    assert Power2(1) == 2;
  }

  /** The user asks for a reindex. */
  ghost function Asked(): Core {
    With(Job(Ingest, Queued, 0, 302, None, NoError, 1), Doc(DocQueued, 2, NoError),
         Source(0, SyncPending, NoError, false),
         map[0 := Worker(0, 1, 0, Claimed)]).(rates := map[0 := Window(302, 1)])
  }

  lemma StepAsk()
    ensures Leads(GivenUp(), Requeue(0, 0, Ingest, 302), Asked())
  {
    assert PendingIn(GivenUp().docs, 0) == {};
  }

  /** Worker 2 claims the new round; worker 0 is still there. */
  ghost function Readmitted(): Core {
    With(Job(Ingest, Processing, 1, 302, Some(602), NoError, 1), Doc(DocProcessing, 2, NoError),
         Source(0, SyncProcessing, NoError, false),
         map[0 := Worker(0, 1, 0, Claimed), 2 := Worker(0, 1, 1, Claimed)]).(rates := map[0 := Window(302, 1)])
  }

  lemma StepReadmit()
    ensures Leads(Asked(), Claim(2, 0, 302), Readmitted())
  {
  }

  lemma ReachableStep(s: System, t: Step)
    requires Reachable(s) && CanStep(s, t)
    ensures Reachable(Next(s, t))
  {
    var cfg: Config, orgs, states, steps :|
      cfg.Valid() && IsRun(cfg, orgs, states, steps) && s == states[|states| - 1];
    PathGrows(states, steps, t);
    assert IsRun(cfg, orgs, states + [Next(s, t)], steps + [t]);
  }

  lemma Extend(s: System, a: Action, c: Core) returns (s': System)
    requires Reachable(s) && Leads(s.core, a, c)
    ensures Reachable(s') && s'.core == c
  {
    s' := Next(s, Ingestion(a));
    ReachableStep(s, Ingestion(a));
  }

  lemma Start() returns (s: System)
    ensures Reachable(s) && s == Init(LIMITS, {0})
  {
    s := Init(LIMITS, {0});
    assert IsRun(LIMITS, {0}, [s], []);
    assert [s][|[s]| - 1] == s;
  }

  lemma GiveUpRun() returns (s: System)
    ensures Reachable(s) && s.core == GivenUp()
  {
    s := Start();
    StepUpload();
    s := Extend(s, Upload(0, 0, "a.pdf", 1, 0), Uploaded());
    StepClaim();
    s := Extend(s, Claim(0, 0, 0), Claimed0());
    StepReclaim();
    s := Extend(s, Claim(1, 0, 300), Reclaimed());
    s := GiveUp(s);
  }

  lemma GiveUp(s: System) returns (s': System)
    requires Reachable(s) && s.core == Reclaimed()
    ensures Reachable(s') && s'.core == GivenUp()
  {
    StepFence();
    s' := Extend(s, Fence(1), Inside());
    StepRaise();
    s' := Extend(s', Raise(1, Poison("EXTRACTION_FAILED")), Raised());
    StepGiveUp();
    s' := Extend(s', CommitFailure(1, 301), GivenUp());
  }

  lemma BothPass()
    ensures 0 in Readmitted().workers && 2 in Readmitted().workers
    ensures Overtaken(Readmitted(), 0) && PassesFence(Readmitted(), 0)
    ensures !Overtaken(Readmitted(), 2) && PassesFence(Readmitted(), 2)
  {
  }

  /** Fencing has a hole, and this run goes through it: two claims were made after worker 0's, and its
      token is accepted all the same, because the reindex request set `attempts` back to zero. */
  lemma AnOvertakenWorkerPasses() returns (s: System)
    ensures Reachable(s) && s.core == Readmitted()
    ensures Overtaken(s.core, 0) && PassesFence(s.core, 0)
    ensures !Overtaken(s.core, 2) && PassesFence(s.core, 2)
  {
    s := GiveUpRun();
    StepAsk();
    s := Extend(s, Requeue(0, 0, Ingest, 302), Asked());
    StepReadmit();
    s := Extend(s, Claim(2, 0, 302), Readmitted());
    BothPass();
  }
}
