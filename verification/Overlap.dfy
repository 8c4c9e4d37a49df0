/** Two runs from the empty database in which the evidence of a fact and its status part company, because the
    transaction of an ingestion worker decides long before it commits. */
module Overlap {
  import opened Tables
  import opened Ingestion
  import opened Evidence
  import opened System
  import opened SystemInvariant
  import opened Runs
  import opened Traces
  import opened Witness
  import opened Support
  import Knowledge

  /** The one chunk of document d. */
  function ChunkOf(d: DocId): ChunkId {
    ChunkId(d, 1, 0)
  }

  const ADA := FactRef(true, 0)

  /** Entity 0 with this evidence, and nothing else reviewed. */
  function AdaIn(chunks: set<ChunkId>): Ledger {
    Ledger(map[0 := Fact(0, Confirmed, EntityOf("person"))], set k | k in chunks :: Link(0, k), Archived)
  }

  /** Both documents are READY, nobody is at work, and both extractions wait. */
  ghost predicate BothReady(s: System, v0: Slice, v1: Slice) {
    && Small(s) && Quiet(RestOf(s)) && s.kworkers == map[]
    && View(s.core, 0) == v0 && Ready(v0, 0, 1, OLD) && View(s.core, 1) == v1 && Ready(v1, 1, 1, OLD)
    && s.graph.proposals == map[] && s.graph.mentions == map[]
    && 1 in s.kjobs && s.kjobs[1] == KJob(0, 1, Queued, 0, 0, None, NoError, 0)
  }

  lemma TwoDocuments() returns (r: Trace, v0: Slice, v1: Slice)
    ensures IsTrace(r) && BothReady(End(r), v0, v1) && End(r).graph == Init(LIMITS, {0}).graph
  {
    r, v0 := IndexOnce();
    r, v1 := IndexNew(r, 0, 1, OLD);
  }

  lemma GivesEvidence(s: System, v0: Slice, v1: Slice, chunks: set<ChunkId>)
    requires BothReady(s, v0, v1) && chunks != {} && chunks <= {ChunkOf(0), ChunkOf(1)}
    ensures EvidenceGiven(s, 0, chunks)
  {
    Looks(s.core, 0, v0);
    Looks(s.core, 1, v1);
    RowsOfOne(0, 1, OLD[0]);
    RowsOfOne(1, 1, OLD[0]);
    assert ChunkOf(0) in RowsOf(s.core.chunks, 0) && ChunkOf(1) in RowsOf(s.core.chunks, 1);
  }

  /** A member creates entity 0 with these chunks. */
  lemma CreateAda(r: Trace, v0: Slice, v1: Slice, chunks: set<ChunkId>) returns (r': Trace)
    requires IsTrace(r) && BothReady(End(r), v0, v1) && End(r).graph == Init(LIMITS, {0}).graph
    requires chunks != {} && chunks <= {ChunkOf(0), ChunkOf(1)}
    ensures GoesOn(r, r') && BothReady(End(r'), v0, v1)
    ensures End(r').graph == End(r).graph.(entities := AdaIn(chunks))
  {
    GivesEvidence(End(r), v0, v1, chunks);
    r' := Grow(r, CreateEntity(0, 0, "person", chunks));
    assert End(r').graph.entities == AdaIn(chunks);
  }

  // ---------------------------------------------------------------- deleting both documents

  /** A delete request is waiting, or has been turned into an open transaction. */
  lemma AskedToDelete(d: DocId, v: Slice, now: Time)
    requires Ready(v, d, 1, OLD)
    ensures var v' := RequeueSlice(v, Delete, now);
            && Waits(v') && v'.job.value.operation == Delete && v'.rows.Keys == {ChunkOf(d)} && v'.source.value.org == 0
    ensures var v' := Opened(RequeueSlice(v, Delete, now));
            v'.job.value.operation == Delete && v'.rows.Keys == {ChunkOf(d)}
  {
    RowsOfOne(d, 1, OLD[0]);
  }

  /** The other document's transaction is not touched. */
  lemma OnStays(s: System, w: WorkerId, d: DocId, phase: Phase, v: Slice, s': System)
    requires On(s, w, d, phase, v) && s'.core.cfg == s.core.cfg && View(s'.core, d) == v && HoldsLock(phase)
    requires w in s'.core.workers && s'.core.workers[w] == s.core.workers[w]
    requires d in s'.core.locks && s'.core.locks[d] == w
    ensures On(s', w, d, phase, v)
  {
  }

  /** Worker w deletes document d, up to its decision. */
  lemma OpenDelete(r: Trace, w: WorkerId, d: DocId, v: Slice, now: Time) returns (r': Trace)
    requires IsTrace(r) && Ready(v, d, 1, OLD) && End(r).core.cfg == LIMITS
    requires View(End(r).core, d) == RequeueSlice(v, Delete, now)
    requires w !in End(r).core.workers && d !in End(r).core.locks
    ensures GoesOn(r, r') && Moves(End(r), d, Opened(RequeueSlice(v, Delete, now)), End(r'))
    ensures On(End(r'), w, d, Weighed, Opened(RequeueSlice(v, Delete, now)))
    ensures RestOf(End(r')) == Joins(RestOf(End(r)), w, d, RequeueSlice(v, Delete, now))
    ensures w in End(r').pending && End(r').pending[w] == VerdictOn(End(r).graph, {ChunkOf(d)})
  {
    AskedToDelete(d, v, now);
    r' := Begin(r, w, d, RequeueSlice(v, Delete, now));
  }

  /** And commits. */
  lemma CloseDelete(r: Trace, w: WorkerId, d: DocId, v: Slice, now: Time) returns (r': Trace)
    requires IsTrace(r) && Ready(v, d, 1, OLD) && w in End(r).pending
    requires On(End(r), w, d, Weighed, Opened(RequeueSlice(v, Delete, now)))
    ensures GoesOn(r, r') && End(r').core.cfg == End(r).core.cfg
    ensures forall e: DocId :: e != d ==> View(End(r').core, e) == View(End(r).core, e)
    ensures RestOf(End(r')) == Traces.Commits(RestOf(End(r)), w, d, {ChunkOf(d)}, End(r).kjobs - {d})
  {
    AskedToDelete(d, v, now);
    r' := Traces.FinishDelete(r, w, d, Opened(RequeueSlice(v, Delete, now)));
  }

  /** Both requests are admitted. */
  lemma AskBoth(r: Trace, v0: Slice, v1: Slice) returns (r': Trace, t0: Time, t1: Time)
    requires IsTrace(r) && BothReady(End(r), v0, v1)
    ensures GoesOn(r, r') && End(r').core.cfg == LIMITS && Quiet(RestOf(End(r'))) && End(r').graph == End(r).graph
    ensures View(End(r').core, 0) == RequeueSlice(v0, Delete, t0) && View(End(r').core, 1) == RequeueSlice(v1, Delete, t1)
  {
    r', t0 := Ask(r, 0, v0, Delete);
    r', t1 := Ask(r', 1, v1, Delete);
  }

  /** Both transactions have decided. */
  lemma OpenBoth(r: Trace, v0: Slice, v1: Slice, t0: Time, t1: Time) returns (r': Trace)
    requires IsTrace(r) && End(r).core.cfg == LIMITS && Quiet(RestOf(End(r)))
    requires Ready(v0, 0, 1, OLD) && View(End(r).core, 0) == RequeueSlice(v0, Delete, t0)
    requires Ready(v1, 1, 1, OLD) && View(End(r).core, 1) == RequeueSlice(v1, Delete, t1)
    ensures GoesOn(r, r') && End(r').graph == End(r).graph
    ensures On(End(r'), 0, 0, Weighed, Opened(RequeueSlice(v0, Delete, t0)))
    ensures On(End(r'), 1, 1, Weighed, Opened(RequeueSlice(v1, Delete, t1)))
    ensures End(r').pending == map[0 := VerdictOn(End(r).graph, {ChunkOf(0)}), 1 := VerdictOn(End(r).graph, {ChunkOf(1)})]
  {
    var r1 := OpenDelete(r, 0, 0, v0, t0);
    r' := OpenDelete(r1, 1, 1, v1, t1);
    OnStays(End(r1), 0, 0, Weighed, Opened(RequeueSlice(v0, Delete, t0)), End(r'));
  }

  lemma CloseFirst(r: Trace, v0: Slice, t0: Time, u: Slice) returns (r': Trace)
    requires IsTrace(r) && Ready(v0, 0, 1, OLD) && On(End(r), 0, 0, Weighed, Opened(RequeueSlice(v0, Delete, t0)))
    requires On(End(r), 1, 1, Weighed, u) && End(r).pending.Keys == {0, 1}
    ensures GoesOn(r, r') && On(End(r'), 1, 1, Weighed, u)
    ensures End(r').graph == CarryOut(End(r).graph, {ChunkOf(0)}, End(r).pending[0])
    ensures 1 in End(r').pending && End(r').pending[1] == End(r).pending[1]
  {
    r' := CloseDelete(r, 0, 0, v0, t0);
    assert View(End(r').core, 1) == View(End(r).core, 1);
    OnStays(End(r), 1, 1, Weighed, u, End(r'));
  }

  lemma CloseBoth(r: Trace, v0: Slice, v1: Slice, t0: Time, t1: Time) returns (r': Trace)
    requires IsTrace(r) && Ready(v0, 0, 1, OLD) && On(End(r), 0, 0, Weighed, Opened(RequeueSlice(v0, Delete, t0)))
    requires Ready(v1, 1, 1, OLD) && On(End(r), 1, 1, Weighed, Opened(RequeueSlice(v1, Delete, t1)))
    requires End(r).pending.Keys == {0, 1}
    ensures IsTrace(r')
    ensures End(r').graph ==
              CarryOut(CarryOut(End(r).graph, {ChunkOf(0)}, End(r).pending[0]), {ChunkOf(1)}, End(r).pending[1])
  {
    r' := CloseFirst(r, v0, t0, Opened(RequeueSlice(v1, Delete, t1)));
    r' := CloseDelete(r', 1, 1, v1, t1);
  }

  /** Each transaction sees the evidence the other is about to delete, and neither names the entity. */
  lemma NeitherNames(g: Graph, d: DocId)
    requires g.entities == AdaIn({ChunkOf(0), ChunkOf(1)}) && d <= 1
    ensures VerdictOn(g, {ChunkOf(d)}).entities == {}
  {
    var b := g.entities;
    assert Link(0, ChunkOf(1 - d)) in Remaining(b.links, {ChunkOf(d)});
    assert Supported(Remaining(b.links, {ChunkOf(d)}), 0);
  }

  lemma NothingLeft(g: Graph, x: Verdict, y: Verdict)
    requires g.entities == AdaIn({ChunkOf(0), ChunkOf(1)}) && x.entities == {} && y.entities == {}
    ensures var g' := CarryOut(CarryOut(g, {ChunkOf(0)}, x), {ChunkOf(1)}, y);
            IsConfirmed(g', ADA) && g'.entities.links == {}
  {
  }

  /** Two READY documents, an entity that rests on one chunk of each, and both delete requests admitted. */
  lemma BothAsked() returns (r: Trace, v0: Slice, v1: Slice, t0: Time, t1: Time)
    ensures IsTrace(r) && End(r).core.cfg == LIMITS && Quiet(RestOf(End(r)))
    ensures Ready(v0, 0, 1, OLD) && View(End(r).core, 0) == RequeueSlice(v0, Delete, t0)
    ensures Ready(v1, 1, 1, OLD) && View(End(r).core, 1) == RequeueSlice(v1, Delete, t1)
    ensures End(r).graph.entities == AdaIn({ChunkOf(0), ChunkOf(1)})
  {
    r, v0, v1 := TwoDocuments();
    r := CreateAda(r, v0, v1, {ChunkOf(0), ChunkOf(1)});
    r, t0, t1 := AskBoth(r, v0, v1);
  }

  /** An entity rests on one chunk of each of two READY documents. Both are deleted by two workers at once; each
      decides before the other commits. The entity stays CONFIRMED, and nothing supports it. */
  lemma FactWithoutEvidence() returns (r: Trace)
    ensures IsTrace(r) && Unsupported(End(r), ADA)
  {
    var v0, v1, t0, t1;
    r, v0, v1, t0, t1 := BothAsked();
    NeitherNames(End(r).graph, 0);
    NeitherNames(End(r).graph, 1);
    r := OpenBoth(r, v0, v1, t0, t1);
    NothingLeft(End(r).graph, End(r).pending[0], End(r).pending[1]);
    r := CloseBoth(r, v0, v1, t0, t1);
  }

  // ---------------------------------------------------------------- evidence accepted meanwhile

  /** The only evidence lies in the document to be deleted, so the transaction names the entity. */
  lemma Names(g: Graph)
    requires g.entities == AdaIn({ChunkOf(0)})
    ensures VerdictOn(g, {ChunkOf(0)}).entities == {0}
  {
    assert Link(0, ChunkOf(0)) in g.entities.links;
    assert Remaining(g.entities.links, {ChunkOf(0)}) == {};
  }

  /** The member links the proposal of document 1 to the entity. */
  lemma LinkToAda(r: Trace, v1: Slice) returns (r': Trace)
    requires IsTrace(r) && View(End(r).core, 1) == v1 && Ready(v1, 1, 1, OLD) && 1 !in End(r).core.locks
    requires 1 in End(r).kjobs && End(r).kjobs[1].generation == 1 && End(r).graph.proposals == map[0 := Draft(1)]
    requires End(r).graph.entities == AdaIn({ChunkOf(0)})
    ensures GoesOn(r, r') && End(r').core == End(r).core && End(r').pending == End(r).pending
    ensures End(r').graph.entities == AdaIn({ChunkOf(0), ChunkOf(1)})
  {
    ReadyForReview(End(r), 1, v1);
    LinkStep(End(r));
    r' := Grow(r, AcceptExisting(0, 0, 0));
  }

  lemma LinkStep(s: System)
    requires Reviewable(s, 0, 0) && s.graph.proposals == map[0 := Draft(1)] && s.graph.entities == AdaIn({ChunkOf(0)})
    ensures CanStep(s, AcceptExisting(0, 0, 0))
    ensures var s' := Next(s, AcceptExisting(0, 0, 0));
            && s'.core == s.core && s'.pending == s.pending
            && s'.graph.entities == AdaIn({ChunkOf(0), ChunkOf(1)})
  {
    Knowledge.ReviewResult(s, AcceptExisting(0, 0, 0));
    AdaGains();
  }

  lemma AdaGains()
    ensures Insert(AdaIn({ChunkOf(0)}), 0, Fact(0, Confirmed, EntityOf("person")), {ChunkOf(1)}) ==
              AdaIn({ChunkOf(0), ChunkOf(1)})
  {
    assert (set k | k in {ChunkOf(1)} :: Link(0, k)) == {Link(0, ChunkOf(1))};
    assert (set k | k in {ChunkOf(0)} :: Link(0, k)) == {Link(0, ChunkOf(0))};
    assert (set k | k in {ChunkOf(0), ChunkOf(1)} :: Link(0, k)) == {Link(0, ChunkOf(0)), Link(0, ChunkOf(1))};
  }

  lemma ArchivedAllTheSame(g: Graph, x: Verdict)
    requires g.entities == AdaIn({ChunkOf(0), ChunkOf(1)}) && x.entities == {0}
    ensures var b := CarryOut(g, {ChunkOf(0)}, x).entities;
            0 in b.facts && b.facts[0].status == Archived && Supported(b.links, 0)
  {
    assert Link(0, ChunkOf(1)) in CarryOut(g, {ChunkOf(0)}, x).entities.links;
  }

  /** The entity rests on document 0, whose delete is asked for; document 1 has a proposal. */
  lemma OneAsked() returns (r: Trace, v0: Slice, v1: Slice, t0: Time)
    ensures IsTrace(r) && End(r).core.cfg == LIMITS && End(r).core.workers == map[] && End(r).core.locks == map[]
    ensures Ready(v0, 0, 1, OLD) && View(End(r).core, 0) == RequeueSlice(v0, Delete, t0)
    ensures Ready(v1, 1, 1, OLD) && View(End(r).core, 1) == v1
    ensures 1 in End(r).kjobs && End(r).kjobs[1].generation == 1 && End(r).graph.proposals == map[0 := Draft(1)]
    ensures End(r).graph.entities == AdaIn({ChunkOf(0)})
  {
    r, v0, v1 := TwoDocuments();
    r := CreateAda(r, v0, v1, {ChunkOf(0)});
    r := ProposeSecond(r, v0, v1);
    r, t0 := Ask(r, 0, v0, Delete);
  }

  /** An entity rests on a chunk of document 0 alone. While a worker that deletes that document waits for its commit,
      a member accepts evidence for it in document 1. The commit archives the entity all the same. */
  lemma ArchivedWithEvidence() returns (r: Trace)
    ensures IsTrace(r) && 0 in End(r).graph.entities.facts && End(r).graph.entities.facts[0].status == Archived
    ensures Supported(End(r).graph.entities.links, 0)
  {
    var v0, v1, t0;
    r, v0, v1, t0 := OneAsked();
    Names(End(r).graph);
    r := OpenDelete(r, 0, 0, v0, t0);
    r := LinkToAda(r, v1);
    ArchivedAllTheSame(End(r).graph, End(r).pending[0]);
    r := CloseDelete(r, 0, 0, v0, t0);
  }

  lemma ProposeSecond(r: Trace, v0: Slice, v1: Slice) returns (r': Trace)
    requires IsTrace(r) && BothReady(End(r), v0, v1)
    ensures GoesOn(r, r') && End(r').core == End(r).core && End(r').pending == End(r).pending
    ensures 1 in End(r').kjobs && End(r').kjobs[1].generation == 1
    ensures End(r').graph.proposals == map[0 := Draft(1)] && End(r').graph.entities == End(r).graph.entities
  {
    r' := Propose(r, 1, v1);
  }
}
