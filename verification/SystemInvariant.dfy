/** What every run of the whole backend keeps: the ingestion invariant, the knowledge queue's tokens, and evidence
    that cites what exists. That a confirmed fact has evidence at all is not among it: see `Support`. */
module SystemInvariant {
  import opened Tables
  import opened Ingestion
  import opened IngestionInvariant
  import opened IngestionTheorems
  import opened Evidence
  import opened System

  // ---------------------------------------------------------------- the knowledge queue

  predicate KJobOk(cfg: Config, docs: map<DocId, Document>, d: DocId, j: KJob) {
    && d in docs && j.org == docs[d].org && j.generation <= docs[d].generation
    && j.attempts <= cfg.maxAttempts
    && (j.status == Processing ==> j.lease.Some? && j.attempts > 0)
  }

  ghost predicate KJobsOk(s: System) {
    forall d :: d in s.kjobs ==> KJobOk(s.core.cfg, s.core.docs, d, s.kjobs[d])
  }

  /** A worker's token never runs ahead of its job; a job goes only when its document goes. */
  predicate KWorkerOk(s: System, w: KWorker) {
    && 0 < w.attempt <= s.core.cfg.maxAttempts
    && w.doc in s.core.sources && (w.doc in s.core.docs ==> w.doc in s.kjobs)
    && (w.doc in s.kjobs ==>
          && w.round <= s.kjobs[w.doc].round
          && (w.round == s.kjobs[w.doc].round ==> w.attempt <= s.kjobs[w.doc].attempts))
  }

  ghost predicate KWorkersOk(s: System) {
    forall w :: w in s.kworkers ==> KWorkerOk(s, s.kworkers[w])
  }

  predicate SameKToken(v: KWorker, w: KWorker) {
    v.doc == w.doc && v.round == w.round && v.attempt == w.attempt
  }

  predicate KTokensUnique(s: System) {
    forall v, w :: v in s.kworkers && w in s.kworkers && SameKToken(s.kworkers[v], s.kworkers[w]) ==> v == w
  }

  // ---------------------------------------------------------------- evidence

  /** The chunk exists, in an existing document of the organization. */
  predicate Anchored(c: Core, k: ChunkId, org: OrgId) {
    k in c.chunks && k.doc in c.docs && c.docs[k.doc].org == org
  }

  predicate LinkOk(c: Core, b: Ledger, l: Link) {
    l.fact in b.facts && Anchored(c, l.chunk, b.facts[l.fact].org)
  }

  predicate FactOk(b: Ledger, f: FactId) {
    f in b.facts && b.facts[f].status == Confirmed ==> Supported(b.links, f)
  }

  /** Evidence cites existing chunks of the fact's own organization. */
  ghost predicate LedgerOk(c: Core, b: Ledger) {
    b.lapsed != Confirmed && forall l :: l in b.links ==> LinkOk(c, b, l)
  }

  /** No confirmed fact is without evidence. */
  ghost predicate AllSupported(b: Ledger) {
    forall f: FactId :: FactOk(b, f)
  }

  ghost predicate GraphSupported(g: Graph) {
    AllSupported(g.entities) && AllSupported(g.relations)
  }

  predicate ProposalOk(c: Core, p: Proposal) {
    Anchored(c, p.chunk, p.org) && p.chunk.doc == p.document && p.status != Rejected
  }

  predicate MentionOk(c: Core, m: Mention) {
    m.chunk in c.chunks && m.chunk.doc == m.document
  }

  ghost predicate GraphOk(c: Core, g: Graph) {
    && LedgerOk(c, g.entities) && LedgerOk(c, g.relations)
    && (forall p :: p in g.proposals ==> ProposalOk(c, g.proposals[p]))
    && (forall m :: m in g.mentions ==> MentionOk(c, g.mentions[m]))
  }

  /** The transaction has decided what to withdraw. */
  predicate HasWeighed(p: Phase) {
    p.Weighed? || p.Planned? || p.Writing? || p.Written? || p.Unlinked?
  }

  /** Exactly the open transactions that have come so far have a decision. */
  predicate PendingOf(s: System, w: WorkerId) {
    w in s.pending <==> w in s.core.workers && HasWeighed(s.core.workers[w].phase)
  }

  ghost predicate PendingOk(s: System) {
    forall w: WorkerId :: PendingOf(s, w)
  }

  ghost predicate SysInv(s: System) {
    && Inv(s.core) && QuotasOk(s.core)
    && KJobsOk(s) && KWorkersOk(s) && KTokensUnique(s) && PendingOk(s)
    && GraphOk(s.core, s.graph)
  }

  // ---------------------------------------------------------------- chunks under a step of the queue

  /** Steps other than the two commits leave every chunk row and every document's tenant alone. */
  lemma AnchorsStay(c: Core, a: Action, k: ChunkId, org: OrgId)
    requires Inv(c) && Enabled(c, a) && Anchored(c, k, org)
    requires (a.CommitIndex? || a.CommitDelete?) ==> k.doc != Subject(c, a)
    ensures Anchored(Apply(c, a), k, org)
  {
    var c', d := Apply(c, a), k.doc;
    StepShares(c, a, d);
    InvKeyed(c);
    assert SliceOk(c.cfg, d, View(c, d));
    assert k in View(c, d).rows && View(c, d).doc == Some(c.docs[d]);
    if d == Subject(c, a) && Actor(a).Some? {
      assert WorkerOk(c.cfg, c.workers[a.worker], ShareOf(c, a.worker));
    }
    assert View(c', d).doc.Some? && View(c', d).doc.value.org == org;
    assert k in View(c', d).rows;
  }

  lemma LedgerStays(c: Core, a: Action, b: Ledger)
    requires Inv(c) && Enabled(c, a) && LedgerOk(c, b) && !a.CommitIndex? && !a.CommitDelete?
    ensures LedgerOk(Apply(c, a), b)
  {
    forall l | l in b.links ensures LinkOk(Apply(c, a), b, l) {
      assert LinkOk(c, b, l);
      AnchorsStay(c, a, l.chunk, b.facts[l.fact].org);
    }
  }

  lemma MentionStays(c: Core, a: Action, m: Mention)
    requires Inv(c) && Enabled(c, a) && MentionOk(c, m)
    requires (a.CommitIndex? || a.CommitDelete?) ==> m.chunk.doc != Subject(c, a)
    ensures MentionOk(Apply(c, a), m)
  {
    ChunkHasDocument(c, m.chunk);
    AnchorsStay(c, a, m.chunk, c.docs[m.chunk.doc].org);
  }

  lemma ChunkHasDocument(c: Core, k: ChunkId)
    requires Inv(c) && k in c.chunks
    ensures k.doc in c.docs && c.chunks[k].document == k.doc && k in RowsOf(c.chunks, k.doc)
  {
    InvKeyed(c);
    assert SliceOk(c.cfg, k.doc, View(c, k.doc));
    assert k in View(c, k.doc).rows;
  }

  /** After the commit nothing cites a chunk of the document, so its rows may go. If the decision was still right at
      the commit, no confirmed fact is without evidence afterwards. */
  lemma LedgerWithdrawn(c: Core, a: Action, b: Ledger, named: set<FactId>)
    requires Inv(c) && Enabled(c, a) && LedgerOk(c, b) && (a.CommitIndex? || a.CommitDelete?)
    ensures var gone := RowsOf(c.chunks, Subject(c, a)).Keys;
            && LedgerOk(Apply(c, a), Carry(b, gone, named))
            && (AllSupported(b) && named == Lapsing(b, gone) ==> AllSupported(Carry(b, gone, named)))
  {
    var d := Subject(c, a);
    var gone := RowsOf(c.chunks, d).Keys;
    var b' := Carry(b, gone, named);
    forall l | l in b'.links ensures LinkOk(Apply(c, a), b', l) {
      assert l in b.links && LinkOk(c, b, l);
      ChunkHasDocument(c, l.chunk);
      AnchorsStay(c, a, l.chunk, b.facts[l.fact].org);
    }
    if AllSupported(b) && named == Lapsing(b, gone) {
      forall f: FactId ensures FactOk(b', f) {
        assert FactOk(b, f);
      }
    }
  }

  lemma GraphUnderIngestion(s: System, t: Step)
    requires SysInv(s) && CanStep(s, t) && t.Ingestion?
    ensures GraphOk(Apply(s.core, t.a), GraphAfter(s, t))
  {
    var c, a, g := s.core, t.a, s.graph;
    var g' := GraphAfter(s, t);
    if a.CommitIndex? || a.CommitDelete? {
      LedgerWithdrawn(c, a, g.entities, Decided(s, a.worker).entities);
      LedgerWithdrawn(c, a, g.relations, Decided(s, a.worker).relations);
    } else {
      LedgerStays(c, a, g.entities);
      LedgerStays(c, a, g.relations);
    }
    forall p | p in g'.proposals ensures ProposalOk(Apply(c, a), g'.proposals[p]) {
      assert p in g.proposals && ProposalOk(c, g.proposals[p]);
      ChunkHasDocument(c, g.proposals[p].chunk);
      AnchorsStay(c, a, g.proposals[p].chunk, g.proposals[p].org);
    }
    forall m | m in g'.mentions ensures MentionOk(Apply(c, a), g'.mentions[m]) {
      assert m in g.mentions && MentionOk(c, g.mentions[m]);
      ChunkHasDocument(c, g.mentions[m].chunk);
      MentionStays(c, a, g.mentions[m]);
    }
  }

  // ---------------------------------------------------------------- reviews and extractions

  lemma LedgerInsert(c: Core, b: Ledger, f: FactId, fact: Fact, chunks: set<ChunkId>)
    requires LedgerOk(c, b)
    requires f in b.facts ==> b.facts[f].org == fact.org
    requires forall k :: k in chunks ==> Anchored(c, k, fact.org)
    ensures LedgerOk(c, Insert(b, f, fact, chunks))
  {
    var b' := Insert(b, f, fact, chunks);
    forall l | l in b'.links ensures LinkOk(c, b', l) {
      if l in b.links { assert LinkOk(c, b, l); }
    }
  }

  lemma InsertSupports(b: Ledger, f: FactId, fact: Fact, chunks: set<ChunkId>)
    requires AllSupported(b) && chunks != {}
    ensures AllSupported(Insert(b, f, fact, chunks))
  {
    var b' := Insert(b, f, fact, chunks);
    forall g: FactId ensures FactOk(b', g) {
      assert FactOk(b, g);
      if g == f {
        var k :| k in chunks;
        assert Link(f, k) in b'.links;
      } else if Supported(b.links, g) {
        var l :| l in b.links && l.fact == g;
        assert l in b'.links;
      }
    }
  }

  lemma EvidenceIsAnchored(s: System, org: OrgId, chunks: set<ChunkId>)
    requires Inv(s.core) && EvidenceGiven(s, org, chunks)
    ensures forall k :: k in chunks ==> Anchored(s.core, k, org)
  {
    forall k | k in chunks ensures Anchored(s.core, k, org) { ChunkHasDocument(s.core, k); }
  }

  lemma ResolveOk(c: Core, mentions: map<ProposalId, Mention>, p: Proposal, to: ReviewStatus)
    requires forall m :: m in mentions ==> MentionOk(c, mentions[m])
    ensures forall m :: m in Resolve(mentions, p, to) ==> MentionOk(c, Resolve(mentions, p, to)[m])
  {
    forall m | m in Resolve(mentions, p, to) ensures MentionOk(c, Resolve(mentions, p, to)[m]) {
      assert MentionOk(c, mentions[m]);
    }
  }

  predicate IsReview(t: Step) {
    t.AcceptNew? || t.AcceptExisting? || t.AcceptRelationship? || t.Reject?
  }

  lemma ReviewKeepsReferences(s: System, t: Step)
    requires SysInv(s) && CanStep(s, t) && IsReview(t)
    ensures GraphOk(s.core, GraphAfter(s, t))
  {
    var g, it := s.graph, s.graph.proposals[t.proposal];
    assert ProposalOk(s.core, it);
    ResolveOk(s.core, g.mentions, it, Linked);
    ResolveOk(s.core, g.mentions, it, Rejected);
    match t
    case AcceptNew(org, p, f) =>
      LedgerInsert(s.core, g.entities, f, Fact(org, Confirmed, EntityOf(it.kind)), {it.chunk});
    case AcceptExisting(org, p, f) =>
      LedgerInsert(s.core, g.entities, f, g.entities.facts[f].(status := Confirmed), {it.chunk});
    case AcceptRelationship(org, p, f, subject, target) =>
      LedgerInsert(s.core, g.relations, f, Fact(org, Confirmed, Edge(subject, target)), {it.chunk});
    case Reject(_, _) =>
  }

  lemma GraphUnderReview(s: System, t: Step)
    requires SysInv(s) && CanStep(s, t) && IsReview(t)
    ensures GraphOk(s.core, GraphAfter(s, t))
    ensures GraphSupported(s.graph) ==> GraphSupported(GraphAfter(s, t))
  {
    ReviewKeepsReferences(s, t);
    if GraphSupported(s.graph) { ReviewSupports(s, t); }
  }

  lemma ReviewSupports(s: System, t: Step)
    requires CanStep(s, t) && IsReview(t) && GraphSupported(s.graph)
    ensures GraphSupported(GraphAfter(s, t))
  {
    var g, it := s.graph, s.graph.proposals[t.proposal];
    match t
    case AcceptNew(org, p, f) => InsertSupports(g.entities, f, Fact(org, Confirmed, EntityOf(it.kind)), {it.chunk});
    case AcceptExisting(org, p, f) =>
      InsertSupports(g.entities, f, g.entities.facts[f].(status := Confirmed), {it.chunk});
    case AcceptRelationship(org, p, f, subject, target) =>
      InsertSupports(g.relations, f, Fact(org, Confirmed, Edge(subject, target)), {it.chunk});
    case Reject(_, _) =>
  }

  lemma GraphUnderDrafts(s: System, t: Step)
    requires SysInv(s) && CanStep(s, t) && t.KFinish?
    ensures GraphOk(s.core, GraphAfter(s, t))
  {
    if KPasses(s, s.kworkers[t.worker]) {
      var d, g' := s.kworkers[t.worker].doc, GraphAfter(s, t);
      assert KJobOk(s.core.cfg, s.core.docs, d, s.kjobs[d]);
      forall p | p in g'.proposals ensures ProposalOk(s.core, g'.proposals[p]) {
        if p in t.proposals { ChunkHasDocument(s.core, t.proposals[p].chunk); }
        else { assert ProposalOk(s.core, s.graph.proposals[p]); }
      }
      forall m | m in g'.mentions ensures MentionOk(s.core, g'.mentions[m]) {
        if m in t.mentions { ChunkHasDocument(s.core, t.mentions[m].chunk); }
        else { assert MentionOk(s.core, s.graph.mentions[m]); }
      }
    }
  }

  lemma GraphUnderStep(s: System, t: Step)
    requires SysInv(s) && CanStep(s, t)
    ensures GraphOk(Next(s, t).core, GraphAfter(s, t))
  {
    match t
    case Ingestion(_) => GraphUnderIngestion(s, t);
    case KFinish(_, _, _) => GraphUnderDrafts(s, t);
    case CreateEntity(org, f, kind, chunks) =>
      EvidenceIsAnchored(s, org, chunks);
      LedgerInsert(s.core, s.graph.entities, f, Fact(org, Confirmed, EntityOf(kind)), chunks);
    case CreateRelationship(org, f, subject, target, chunks) =>
      EvidenceIsAnchored(s, org, chunks);
      LedgerInsert(s.core, s.graph.relations, f, Fact(org, Confirmed, Edge(subject, target)), chunks);
    case AcceptNew(_, _, _) => GraphUnderReview(s, t);
    case AcceptExisting(_, _, _) => GraphUnderReview(s, t);
    case AcceptRelationship(_, _, _, _, _) => GraphUnderReview(s, t);
    case Reject(_, _) => GraphUnderReview(s, t);
    case _ =>
  }

  // ---------------------------------------------------------------- the knowledge queue under a step

  /** What a step may do to its own document: it keeps its tenant, never goes back a generation, and goes away only
      by a committed delete. Its source never does. */
  predicate ShareMoves(s: Slice, t: Slice, indexes: bool, deletes: bool) {
    && (s.doc.Some? && t.doc.None? ==> deletes)
    && (s.doc.Some? && t.doc.Some? ==>
          t.doc.value.org == s.doc.value.org && t.doc.value.generation >= s.doc.value.generation)
    && (s.source.Some? ==> t.source.Some? && (s.doc.None? ==> t.doc.None?))
    && (deletes ==> t.doc.None?)
    && (indexes ==> s.doc.Some? && t.doc.Some?)
  }

  lemma WorkerMovesDocument(c: Core, a: Action)
    requires Enabled(c, a) && Actor(a).Some?
    requires SliceOk(c.cfg, Subject(c, a), ShareOf(c, a.worker))
    requires WorkerOk(c.cfg, c.workers[a.worker], ShareOf(c, a.worker))
    ensures ShareMoves(ShareOf(c, a.worker), After(c, a), a.CommitIndex?, a.CommitDelete?)
  {
  }

  lemma OwnDocumentMoves(c: Core, a: Action)
    requires Inv(c) && Enabled(c, a)
    ensures ShareMoves(View(c, Subject(c, a)), After(c, a), a.CommitIndex?, a.CommitDelete?)
  {
    var d := Subject(c, a);
    assert SliceOk(c.cfg, d, View(c, d));
    if Actor(a).Some? {
      assert WorkerOk(c.cfg, c.workers[a.worker], ShareOf(c, a.worker));
      WorkerMovesDocument(c, a);
    }
  }

  lemma TablesInView(c: Core, a: Action, d: DocId)
    requires Inv(c) && Enabled(c, a)
    ensures At(Apply(c, a).docs, d) == if d == Subject(c, a) then After(c, a).doc else At(c.docs, d)
    ensures At(Apply(c, a).sources, d) == if d == Subject(c, a) then After(c, a).source else At(c.sources, d)
  {
    StepShares(c, a, d);
    assert View(Apply(c, a), d).doc == At(Apply(c, a).docs, d);
    assert View(Apply(c, a), d).source == At(Apply(c, a).sources, d);
  }

  /** The same for any document: only the step's own can move. */
  lemma DocumentMoves(c: Core, a: Action, d: DocId)
    requires Inv(c) && Enabled(c, a)
    ensures var c' := Apply(c, a);
            && (d in c.docs && d !in c'.docs ==> a.CommitDelete? && d == Subject(c, a))
            && (d in c.docs && d in c'.docs ==>
                  c'.docs[d].org == c.docs[d].org && c'.docs[d].generation >= c.docs[d].generation)
            && (d in c.sources ==> d in c'.sources && (d !in c.docs ==> d !in c'.docs))
            && (a.CommitDelete? && d == Subject(c, a) ==> d !in c'.docs)
            && (a.CommitIndex? && d == Subject(c, a) ==> d in c.docs && d in c'.docs)
  {
    OwnDocumentMoves(c, a);
    TablesInView(c, a, d);
  }

  lemma KJobsUnderIngestion(s: System, t: Step)
    requires SysInv(s) && CanStep(s, t) && t.Ingestion?
    ensures KJobsOk(Next(s, t)) && KWorkersOk(Next(s, t))
  {
    var s' := Next(s, t);
    forall d | d in s'.kjobs ensures KJobOk(s'.core.cfg, s'.core.docs, d, s'.kjobs[d]) {
      DocumentMoves(s.core, t.a, d);
      DocumentMoves(s.core, t.a, Subject(s.core, t.a));
      if d in s.kjobs { assert KJobOk(s.core.cfg, s.core.docs, d, s.kjobs[d]); }
    }
    forall w | w in s'.kworkers ensures KWorkerOk(s', s'.kworkers[w]) {
      DocumentMoves(s.core, t.a, s.kworkers[w].doc);
      assert KWorkerOk(s, s.kworkers[w]);
    }
  }

  lemma KJobsUnderOthers(s: System, t: Step)
    requires SysInv(s) && CanStep(s, t) && !t.Ingestion?
    ensures KJobsOk(Next(s, t))
  {
    var s' := Next(s, t);
    forall d | d in s'.kjobs ensures KJobOk(s'.core.cfg, s'.core.docs, d, s'.kjobs[d]) {
      if d in s.kjobs { assert KJobOk(s.core.cfg, s.core.docs, d, s.kjobs[d]); }
    }
  }

  lemma KWorkersUnderOthers(s: System, t: Step)
    requires SysInv(s) && CanStep(s, t) && !t.Ingestion?
    ensures KWorkersOk(Next(s, t))
  {
    var s' := Next(s, t);
    forall w | w in s'.kworkers ensures KWorkerOk(s', s'.kworkers[w]) {
      if w in s.kworkers {
        assert KWorkerOk(s, s.kworkers[w]);
        KTokenKept(s, t, w);
        if s.kworkers[w].doc in s.kjobs { KJobAdvances(s, t, s.kworkers[w].doc); }
        DocsKept(s, t);
      } else {
        NewKWorkerOk(s, t, w);
      }
    }
  }

  lemma DocsKept(s: System, t: Step)
    requires CanStep(s, t) && !t.Ingestion?
    ensures Next(s, t).core == s.core && s.kjobs.Keys <= KJobsAfter(s, t).Keys
    ensures forall d :: d in KJobsAfter(s, t) ==> d in s.kjobs || d in s.core.docs
  {
  }

  lemma KTokenKept(s: System, t: Step, w: WorkerId)
    requires CanStep(s, t) && !t.Ingestion? && w in s.kworkers && w in KWorkersAfter(s, t)
    ensures KWorkersAfter(s, t)[w] == s.kworkers[w].(failed := KWorkersAfter(s, t)[w].failed)
  {
  }

  lemma KJobAdvances(s: System, t: Step, d: DocId)
    requires CanStep(s, t) && !t.Ingestion? && d in s.kjobs
    ensures var j, js := s.kjobs[d], KJobsAfter(s, t);
            && d in js && j.round <= js[d].round && (j.round == js[d].round ==> j.attempts <= js[d].attempts)
  {
  }

  lemma NewKWorkerOk(s: System, t: Step, w: WorkerId)
    requires SysInv(s) && CanStep(s, t) && !t.Ingestion? && w !in s.kworkers && w in Next(s, t).kworkers
    ensures KWorkerOk(Next(s, t), Next(s, t).kworkers[w])
  {
    assert SliceOk(s.core.cfg, t.doc, View(s.core, t.doc));
  }

  lemma KTokensUnderStep(s: System, t: Step)
    requires SysInv(s) && CanStep(s, t)
    ensures KTokensUnique(Next(s, t))
  {
    var s' := Next(s, t);
    forall u, v | u in s'.kworkers && v in s'.kworkers && SameKToken(s'.kworkers[u], s'.kworkers[v]) ensures u == v {
      if u in s.kworkers { assert KWorkerOk(s, s.kworkers[u]); }
      if v in s.kworkers { assert KWorkerOk(s, s.kworkers[v]); }
      if u in s.kworkers && v in s.kworkers { assert SameKToken(s.kworkers[u], s.kworkers[v]); }
    }
  }

  lemma PendingUnderStep(s: System, t: Step)
    requires SysInv(s) && CanStep(s, t)
    ensures PendingOk(Next(s, t))
  {
    forall w: WorkerId ensures PendingOf(Next(s, t), w) {
      assert PendingOf(s, w);
      if t.Ingestion? { PendingUnderAction(s, t.a, w); }
    }
  }

  lemma PendingUnderAction(s: System, a: Action, w: WorkerId)
    requires Enabled(s.core, a) && PendingOf(s, w)
    ensures w in PendingAfter(s, Ingestion(a)) <==> w in Crew(s.core, a) && HasWeighed(Crew(s.core, a)[w].phase)
  {
  }

  // ---------------------------------------------------------------- every run

  lemma StepKeepsSysInv(s: System, t: Step)
    requires SysInv(s) && CanStep(s, t)
    ensures SysInv(Next(s, t))
  {
    if t.Ingestion? {
      StepKeepsInv(s.core, t.a);
      StepKeepsQuotas(s.core, t.a);
      KJobsUnderIngestion(s, t);
    } else {
      KJobsUnderOthers(s, t);
      KWorkersUnderOthers(s, t);
    }
    KTokensUnderStep(s, t);
    GraphUnderStep(s, t);
    PendingUnderStep(s, t);
  }

  lemma InitOk(cfg: Config, orgs: set<OrgId>)
    requires cfg.Valid()
    ensures SysInv(Init(cfg, orgs))
  {
    var s := Init(cfg, orgs);
    forall org: OrgId ensures QuotaOk(s.core, org) {
      assert DocsIn(s.core.docs, org) == {} && PendingIn(s.core.docs, org) == {};
      assert SizesIn(s.core.docs, org) == map[];
    }
  }

  lemma {:induction false} PathKeepsSysInv(states: seq<System>, steps: seq<Step>, i: nat)
    requires IsPath(states, steps) && SysInv(states[0]) && i < |states|
    ensures SysInv(states[i])
  {
    if i > 0 {
      PathKeepsSysInv(states, steps, i - 1);
      StepKeepsSysInv(states[i - 1], steps[i - 1]);
    }
  }

  /** In every state of every run, whatever interleaves with whatever, the invariant holds. */
  lemma RunKeepsSysInv(cfg: Config, orgs: set<OrgId>, states: seq<System>, steps: seq<Step>, i: nat)
    requires cfg.Valid() && IsRun(cfg, orgs, states, steps) && i < |states|
    ensures SysInv(states[i])
  {
    InitOk(cfg, orgs);
    PathKeepsSysInv(states, steps, i);
  }
}
