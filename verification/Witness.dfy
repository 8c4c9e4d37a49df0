/** Concrete runs from the empty database that show what the proofs found. */
module Witness {
  import opened Tables
  import opened Ingestion
  import opened IngestionInvariant
  import opened IngestionTheorems
  import opened Evidence
  import opened System
  import opened SystemInvariant
  import opened Runs
  import opened Search
  import opened Traces
  import Knowledge
  import KnowledgeRace
  import Support

  const OLD := [Piece("old", 1)]
  const NEW := [Piece("new", 1)]

  lemma RowsOfOne(d: DocId, generation: nat, piece: Piece)
    ensures NewRows(d, generation, [piece]) ==
              map[ChunkId(d, generation, 0) := ChunkRow(d, 0, piece.content, piece.page)]
  {
  }

  /** The point of the one piece. */
  function PointOfOne(d: DocId, generation: nat): PointId {
    PointId(0, d, ChunkId(d, generation, 0), 0)
  }

  lemma IndexOfOne(d: DocId, doc: Document, generation: nat, piece: Piece)
    requires doc.org == 0
    ensures IndexOf(d, doc, NewRows(d, generation, [piece])) ==
              map[PointOfOne(d, generation) :=
                    Payload(0, d, d, ChunkId(d, generation, 0), 0, piece.page, piece.content, doc.filename)]
  {
    RowsOfOne(d, generation, piece);
  }

  lemma EmptyViews()
    ensures Small(Init(LIMITS, {0})) && Quiet(RestOf(Init(LIMITS, {0})))
    ensures forall d: DocId :: View(Init(LIMITS, {0}).core, d) == Slice(None, None, None, map[], map[], false)
  {
  }

  /** Document 0 is indexed once, and its extraction waits. */
  lemma IndexOnce() returns (r: Trace, v: Slice)
    ensures IsTrace(r) && Small(End(r)) && View(End(r).core, 0) == v && Ready(v, 0, 1, OLD)
    ensures Quiet(RestOf(End(r))) && End(r).kworkers == map[] && End(r).graph == Init(LIMITS, {0}).graph
    ensures End(r).kjobs == map[0 := KJob(0, 1, Queued, 0, 0, None, NoError, 0)]
    ensures forall d: DocId :: d != 0 ==> View(End(r).core, d) == Slice(None, None, None, map[], map[], false)
  {
    EmptyViews();
    r := FromNothing();
    r, v := IndexNew(r, 0, 0, OLD);
  }

  lemma ReadyIsFound(s: System, v: Slice, generation: nat, piece: Piece)
    requires View(s.core, 0) == v && Ready(v, 0, generation, [piece])
    ensures 0 in ReadyDocuments(s.core, 0)
    ensures PointOfOne(0, generation) in s.core.points
    ensures s.core.points[PointOfOne(0, generation)] ==
              Payload(0, 0, 0, ChunkId(0, generation, 0), 0, piece.page, piece.content, "a.pdf")
    ensures forall k :: k in RowsOf(s.core.chunks, 0) ==> k.generation == generation
  {
    Looks(s.core, 0, v);
    IndexOfOne(0, v.doc.value, generation, piece);
    assert PointOfOne(0, generation) in PointsOf(s.core.points, 0);
  }

  // ---------------------------------------------------------------- searches

  /** A reindex of document 0 is asked for, and its points are deleted. */
  lemma StartReindex(r: Trace, v: Slice) returns (r': Trace, asked: Trace, v': Slice)
    requires IsTrace(r) && Small(End(r)) && Quiet(RestOf(End(r)))
    requires View(End(r).core, 0) == v && Ready(v, 0, 1, OLD)
    ensures GoesOn(r, asked) && View(End(asked).core, 0) == v'
    ensures v'.points == v.points && v'.rows == v.rows && v'.doc == Some(v.doc.value.(status := DocQueued, generation := 2))
    ensures Waits(v') && v'.job.value.operation == Ingest && v'.file && v'.source.value.org == 0 && !v'.source.value.deleted
    ensures GoesOn(asked, r') && Small(End(asked)) && Quiet(RestOf(End(asked)))
    ensures On(End(r'), 1, 0, Weighed, Opened(v'))
  {
    var now;
    asked, now := Ask(r, 0, v, Ingest);
    v' := RequeueSlice(v, Ingest, now);
    r' := Begin(asked, 1, 0, v');
  }

  /** A search reads that the document is READY at state i. While it waits for its embedding a reindex is admitted,
      sends one point and fails for good. The search then returns text that is stored nowhere, of a generation that
      never will be. */
  lemma SearchReturnsFailedText() returns (r: Trace, i: nat)
    ensures IsTrace(r) && i <= |r.steps|
    ensures IsHit(End(r).core, 0, ReadyDocuments(r.states[i].core, 0), PointOfOne(0, 2))
    ensures !Stored(End(r).core, End(r).core.points[PointOfOne(0, 2)])
    ensures 0 in End(r).core.docs && End(r).core.docs[0].status == DocFailed
  {
    var v;
    r, v := IndexOnce();
    i := |r.steps|;
    ReadyIsFound(End(r), v, 1, OLD[0]);
    var r1, asked, v' := StartReindex(r, v);
    var r2 := FailSending(r1, 1, 0, Opened(v'), NEW, {0}, Poison("EXTRACTION_FAILED"), 0);
    LeftBehind(End(r1), v', End(r2));
    RowsOfOne(0, 1, OLD[0]);
    assert r2.states[i] == r.states[i];
    r := r2;
  }

  lemma PartOfOne(doc: Document)
    requires doc.org == 0 && doc.generation == 2
    ensures PointOfOne(0, 2) in Partial(0, doc, NEW, {0})
    ensures var hit := Partial(0, doc, NEW, {0})[PointOfOne(0, 2)];
            hit.org == 0 && hit.document == 0 && hit.chunk == ChunkId(0, 2, 0)
  {
    var rows := NewRows(0, 2, NEW);
    RowsOfOne(0, 2, NEW[0]);
    assert RowsIn(rows, {0}) == rows;
    IndexOfOne(0, doc, 2, NEW[0]);
  }

  lemma FailedForGood(v: Slice)
    requires v.doc.Some? && v.job.Some? && v.source.Some?
    ensures var v' := FailedSlice(LIMITS, v, 1, Poison("EXTRACTION_FAILED"), 0);
            v'.doc.Some? && v'.doc.value.status == DocFailed && v'.rows == v.rows && v'.points == v.points
  {
  }

  /** What the failed attempt has sent stays in the store, and its rows are nowhere. */
  lemma LeftBehind(s: System, v: Slice, s': System)
    requires Waits(v) && v.job.value.operation == Ingest && v.doc.value.org == 0 && v.doc.value.generation == 2
    requires var sent := Opened(v).(points := Partial(0, Opened(v).doc.value, NEW, {0}));
             Moves(s, 0, FailedSlice(LIMITS, sent, 1, Poison("EXTRACTION_FAILED"), 0), s')
    ensures PointOfOne(0, 2) in s'.core.points
    ensures var hit := s'.core.points[PointOfOne(0, 2)];
            hit.org == 0 && hit.document == 0 && hit.chunk == ChunkId(0, 2, 0)
    ensures 0 in s'.core.docs && s'.core.docs[0].status == DocFailed && RowsOf(s'.core.chunks, 0) == v.rows
  {
    var doc := Opened(v).doc.value;
    var sent := Opened(v).(points := Partial(0, doc, NEW, {0}));
    FailedForGood(sent);
    PartOfOne(doc);
    ShareIs(s'.core, FailedSlice(LIMITS, sent, 1, Poison("EXTRACTION_FAILED"), 0), sent.points, v.rows);
  }

  lemma ShareIs(c: Core, v: Slice, points: map<PointId, Payload>, rows: map<ChunkId, ChunkRow>)
    requires View(c, 0) == v && v.doc.Some? && v.doc.value.status == DocFailed && v.points == points && v.rows == rows
    ensures 0 in c.docs && c.docs[0].status == DocFailed && RowsOf(c.chunks, 0) == rows
    ensures forall p :: p in points ==> p in c.points && c.points[p] == points[p]
  {
    Looks(c, 0, v);
    forall p | p in points ensures p in c.points && c.points[p] == points[p] { assert p in PointsOf(c.points, 0); }
  }

  /** Looking only at READY once more is not enough. A search reads that the document is READY at state i and finds a
      point of it at j, after a reindex was asked for; the reindex goes through, and at k the document is READY
      again. The text found is not of the current generation at j, and is stored nowhere at k. */
  lemma ReadyAgainIsNotEnough() returns (r: Trace, i: nat, j: nat)
    ensures IsTrace(r) && i <= j <= |r.steps|
    ensures IsHit(r.states[j].core, 0, ReadyDocuments(r.states[i].core, 0), PointOfOne(0, 1))
    ensures r.states[j].core.points[PointOfOne(0, 1)].document == 0 && 0 in ReadyDocuments(End(r).core, 0)
    ensures !Current(r.states[j].core, r.states[j].core.points[PointOfOne(0, 1)])
    ensures !Stored(End(r).core, r.states[j].core.points[PointOfOne(0, 1)])
  {
    var v;
    r, v := IndexOnce();
    i := |r.steps|;
    ReadyIsFound(End(r), v, 1, OLD[0]);
    var begun, asked, v' := StartReindex(r, v);
    j := |asked.steps|;
    StillFound(End(asked), v, v');
    var r2 := RunIndex(asked, 1, 0, v', NEW);
    ReadyIsFound(End(r2), Finished(0, Opened(v'), NEW), 2, NEW[0]);
    assert r2.states[i] == r.states[i] && r2.states[j] == asked.states[j];
    OldTextIsGone(End(r2), End(asked).core.points[PointOfOne(0, 1)]);
    r := r2;
  }

  /** The old point is still there while the reindex waits, but its generation is over. */
  lemma StillFound(s: System, v: Slice, v': Slice)
    requires Ready(v, 0, 1, OLD) && View(s.core, 0) == v' && v'.points == v.points
    requires v'.doc == Some(v.doc.value.(status := DocQueued, generation := 2))
    ensures PointOfOne(0, 1) in s.core.points
    ensures var hit := s.core.points[PointOfOne(0, 1)];
            hit.org == 0 && hit.document == 0 && hit.chunk == ChunkId(0, 1, 0) && !Current(s.core, hit)
  {
    Looks(s.core, 0, v');
    IndexOfOne(0, v.doc.value, 1, OLD[0]);
    assert PointOfOne(0, 1) in PointsOf(s.core.points, 0);
  }

  lemma OldTextIsGone(s: System, hit: Payload)
    requires forall k :: k in RowsOf(s.core.chunks, 0) ==> k.generation == 2
    requires hit.document == 0 && hit.chunk.generation == 1
    ensures !Stored(s.core, hit)
  {
  }

  // ---------------------------------------------------------------- the knowledge queue

  /** Once indexed, the document waits for its extraction. */
  lemma WaitsForExtraction() returns (r: Trace, v: Slice)
    ensures IsTrace(r) && Reachable(End(r)) && View(End(r).core, 0) == v && Ready(v, 0, 1, OLD)
    ensures End(r).core.cfg == LIMITS && End(r).core.locks == map[]
    ensures KnowledgeRace.Waiting(End(r), 0) && End(r).kworkers == map[] && End(r).graph == Init(LIMITS, {0}).graph
    ensures End(r).kjobs == map[0 := KJob(0, 1, Queued, 0, 0, None, NoError, 0)]
  {
    r, v := IndexOnce();
    InOrder(r);
    Looks(End(r).core, 0, v);
  }

  /** From the empty database a knowledge worker that was overtaken twice passes the token check. */
  lemma OvertakenExtractorRun() returns (t: System)
    ensures Reachable(t) && 0 in t.kworkers && 2 in t.kworkers
    ensures KOvertaken(t, 0) && KPasses(t, t.kworkers[0])
    ensures !KOvertaken(t, 2) && KPasses(t, t.kworkers[2])
  {
    var r, v := WaitsForExtraction();
    t := KnowledgeRace.AnOvertakenExtractorPasses(End(r), 0, 0, 1, 2);
  }

  function Draft(d: DocId): Proposal {
    Proposal(0, d, ChunkId(d, 1, 0), true, "Ada", "person", Proposed)
  }

  function Note(d: DocId): Mention {
    Mention(d, ChunkId(d, 1, 0), "Ada", Proposed)
  }

  /** The extraction of document d is claimed, for the first time. */
  lemma ClaimExtraction(r: Trace, d: DocId, v: Slice) returns (r': Trace)
    requires IsTrace(r) && End(r).core.cfg == LIMITS && View(End(r).core, d) == v && Ready(v, d, 1, OLD)
    requires d !in End(r).core.locks && End(r).kworkers == map[]
    requires d in End(r).kjobs && End(r).kjobs[d] == KJob(0, 1, Queued, 0, 0, None, NoError, 0)
    ensures GoesOn(r, r')
    ensures var s := End(r);
            End(r') == s.(kjobs := s.kjobs[d := KJob(0, 1, Processing, 1, 0, Some(300), NoError, 0)],
                          kworkers := map[0 := KWorker(d, 1, 0, false)])
  {
    Looks(End(r).core, d, v);
    KnowledgeRace.JobCanBeClaimed(End(r), 0, d, 0);
    r' := Grow(r, KClaim(0, d, 0));
    Knowledge.KClaimResult(End(r), 0, d, 0);
    KnowledgeRace.AfterJobClaim(End(r), 0, d, 0);
  }

  lemma FinishExtraction(r: Trace, d: DocId, v: Slice) returns (r': Trace)
    requires IsTrace(r) && End(r).core.cfg == LIMITS && View(End(r).core, d) == v && Ready(v, d, 1, OLD)
    requires d !in End(r).core.locks && End(r).kworkers == map[0 := KWorker(d, 1, 0, false)]
    requires d in End(r).kjobs && End(r).kjobs[d] == KJob(0, 1, Processing, 1, 0, Some(300), NoError, 0)
    requires End(r).graph.proposals == map[] && End(r).graph.mentions == map[]
    ensures GoesOn(r, r') && End(r').core == End(r).core && End(r').pending == End(r).pending
    ensures d in End(r').kjobs && End(r').kjobs[d].generation == 1
    ensures End(r').graph == End(r).graph.(proposals := map[0 := Draft(d)], mentions := map[0 := Note(d)])
  {
    Drafted(End(r), d, v);
    r' := Grow(r, KFinish(0, map[0 := Draft(d)], map[0 := Note(d)]));
  }

  lemma Drafted(s: System, d: DocId, v: Slice)
    requires s.core.cfg == LIMITS && View(s.core, d) == v && Ready(v, d, 1, OLD)
    requires d !in s.core.locks && s.kworkers == map[0 := KWorker(d, 1, 0, false)]
    requires d in s.kjobs && s.kjobs[d] == KJob(0, 1, Processing, 1, 0, Some(300), NoError, 0)
    requires s.graph.proposals == map[] && s.graph.mentions == map[]
    ensures CanStep(s, KFinish(0, map[0 := Draft(d)], map[0 := Note(d)]))
    ensures var s' := Next(s, KFinish(0, map[0 := Draft(d)], map[0 := Note(d)]));
            && s'.core == s.core && s'.pending == s.pending && d in s'.kjobs && s'.kjobs[d].generation == 1
            && s'.graph == s.graph.(proposals := map[0 := Draft(d)], mentions := map[0 := Note(d)])
  {
    Looks(s.core, d, v);
    DraftFits(s, d);
    Knowledge.KFinishResult(s, 0, map[0 := Draft(d)], map[0 := Note(d)]);
    DraftsReplaceNothing(s.graph, d);
  }

  lemma DraftsReplaceNothing(g: Graph, d: DocId)
    requires g.proposals == map[] && g.mentions == map[]
    ensures WithDrafts(g, d, map[0 := Draft(d)], map[0 := Note(d)]) ==
              g.(proposals := map[0 := Draft(d)], mentions := map[0 := Note(d)])
  {
  }

  /** And proposes one entity. */
  lemma Propose(r: Trace, d: DocId, v: Slice) returns (r': Trace)
    requires IsTrace(r) && End(r).core.cfg == LIMITS && View(End(r).core, d) == v && Ready(v, d, 1, OLD)
    requires d !in End(r).core.locks && End(r).kworkers == map[]
    requires d in End(r).kjobs && End(r).kjobs[d] == KJob(0, 1, Queued, 0, 0, None, NoError, 0)
    requires End(r).graph.proposals == map[] && End(r).graph.mentions == map[]
    ensures GoesOn(r, r') && End(r').core == End(r).core && End(r').pending == End(r).pending
    ensures d in End(r').kjobs && End(r').kjobs[d].generation == 1
    ensures End(r').graph == End(r).graph.(proposals := map[0 := Draft(d)], mentions := map[0 := Note(d)])
  {
    r' := ClaimExtraction(r, d, v);
    r' := FinishExtraction(r', d, v);
  }

  lemma DraftFits(s: System, d: DocId)
    requires s.core.cfg == LIMITS && RowsOf(s.core.chunks, d) == NewRows(d, 1, OLD)
    requires d in s.kjobs && s.kjobs[d].org == 0 && s.graph.proposals == map[] && s.graph.mentions == map[]
    ensures DraftsFit(s, d, map[0 := Draft(d)], map[0 := Note(d)])
  {
    RowsOfOne(d, 1, OLD[0]);
    assert ChunkId(d, 1, 0) in RowsOf(s.core.chunks, d);
    assert |map[0 := Draft(d)]| == 1;
  }

  /** The proposal of document d can be reviewed. */
  lemma ReadyForReview(s: System, d: DocId, v: Slice)
    requires View(s.core, d) == v && Ready(v, d, 1, OLD) && d !in s.core.locks
    requires d in s.kjobs && s.kjobs[d].generation == 1 && s.graph.proposals == map[0 := Draft(d)]
    ensures Reviewable(s, 0, 0)
  {
    Looks(s.core, d, v);
  }

  /** From the empty database a proposal is rejected, and is ACCEPTED. */
  lemma RejectionRun() returns (t: System)
    ensures Reachable(t) && CanStep(t, Reject(0, 0)) && Reachable(Next(t, Reject(0, 0)))
    ensures Next(t, Reject(0, 0)).graph.proposals[0].status == Accepted
    ensures 0 in Next(t, Reject(0, 0)).graph.mentions
            && Next(t, Reject(0, 0)).graph.mentions[0].status == Rejected
  {
    t := ProposedRun();
    ReachableStep(t, Reject(0, 0));
    RejectAccepts(t, 0, 0);
  }

  lemma ProposedRun() returns (t: System)
    ensures Reachable(t) && Reviewable(t, 0, 0)
    ensures t.graph.proposals == map[0 := Draft(0)] && t.graph.mentions == map[0 := Note(0)]
  {
    var r, v := WaitsForExtraction();
    r := Propose(r, 0, v);
    InOrder(r);
    t := End(r);
    ReadyForReview(t, 0, v);
  }
}
