/** What reviewing and extracting do to the graph over whole runs: a review is final, a repeated extraction replaces what
    is unreviewed and nothing else, evidence is of the current generation, and relationships join entities. */
module Reviews {
  import opened Tables
  import opened Ingestion
  import opened IngestionInvariant
  import opened IngestionTheorems
  import opened Evidence
  import opened System
  import opened SystemInvariant
  import opened Runs
  import opened Support
  import Sums

  // ---------------------------------------------------------------- proposals

  /** The proposals of a document that nobody has reviewed. */
  ghost function Unreviewed(g: Graph, d: DocId): set<ProposalId> {
    set p | p in g.proposals && g.proposals[p].document == d && g.proposals[p].status == Proposed
  }

  /** The step commits an index or a delete of this document. */
  predicate DropsChunks(s: System, t: Step, d: DocId) {
    && t.Ingestion? && (t.a.CommitIndex? || t.a.CommitDelete?)
    && t.a.worker in s.core.workers && s.core.workers[t.a.worker].doc == d
  }

  predicate Reviews(t: Step, p: ProposalId) {
    IsReview(t) && t.proposal == p
  }

  lemma ReviewedRowStays(s: System, t: Step, p: ProposalId)
    requires CanStep(s, t) && p in s.graph.proposals && s.graph.proposals[p].status != Proposed
    ensures !Reviews(t, p)
    ensures p in GraphAfter(s, t).proposals ==> GraphAfter(s, t).proposals[p] == s.graph.proposals[p]
    ensures p !in GraphAfter(s, t).proposals ==>
              && t.Ingestion? && (t.a.CommitIndex? || t.a.CommitDelete?)
              && s.graph.proposals[p].chunk in RowsOf(s.core.chunks, Subject(s.core, t.a)).Keys
  {
  }

  /** A proposal that was reviewed stays as it is, and goes only with the chunks of its document. */
  lemma ReviewedStays(s: System, t: Step, p: ProposalId)
    requires SysInv(s) && CanStep(s, t) && p in s.graph.proposals && s.graph.proposals[p].status != Proposed
    ensures !Reviews(t, p)
    ensures p in Next(s, t).graph.proposals ==> Next(s, t).graph.proposals[p] == s.graph.proposals[p]
    ensures p !in Next(s, t).graph.proposals ==> DropsChunks(s, t, s.graph.proposals[p].document)
  {
    ReviewedRowStays(s, t, p);
    assert ProposalOk(s.core, s.graph.proposals[p]);
    if p !in Next(s, t).graph.proposals { KeysTell(s.core, t.a, s.graph.proposals[p].chunk); }
  }

  lemma KeysTell(c: Core, a: Action, k: ChunkId)
    requires Inv(c) && Enabled(c, a) && k in c.chunks
    ensures k in RowsOf(c.chunks, Subject(c, a)).Keys <==> k.doc == Subject(c, a)
  {
    ChunkHasDocument(c, k);
  }

  lemma ReviewIsFirst(s: System, t: Step, p: ProposalId)
    requires CanStep(s, t) && Reviews(t, p)
    ensures p in s.graph.proposals && s.graph.proposals[p].status == Proposed
    ensures p in Next(s, t).graph.proposals
    ensures Next(s, t).graph.proposals[p] == s.graph.proposals[p].(status := Accepted)
  {
  }

  /** The proposal is there from state i to state j. */
  ghost predicate Lasts(states: seq<System>, p: ProposalId, i: nat, j: nat)
    requires j < |states|
  {
    forall k :: i <= k <= j ==> p in states[k].graph.proposals
  }

  predicate Settled(s: System, p: ProposalId) {
    p in s.graph.proposals && s.graph.proposals[p].status == Accepted
  }

  lemma SettledStays(states: seq<System>, steps: seq<Step>, p: ProposalId, k: nat)
    requires IsPath(states, steps) && Reachable(states[0]) && k < |steps|
    requires Settled(states[k], p) && p in states[k + 1].graph.proposals
    ensures Settled(states[k + 1], p)
  {
    ReachableInv(states[0]);
    PathKeepsSysInv(states, steps, k);
    assert CanStep(states[k], steps[k]) && states[k + 1] == Next(states[k], steps[k]);
    ReviewedStays(states[k], steps[k], p);
  }

  lemma {:induction false} SettledAlong(states: seq<System>, p: ProposalId, i: nat, j: nat)
    requires i <= j < |states| && Settled(states[i], p)
    requires forall k :: i <= k < j && Settled(states[k], p) ==> Settled(states[k + 1], p)
    ensures Settled(states[j], p)
  {
    if i < j { SettledAlong(states, p, i, j - 1); }
  }

  /** A proposal is reviewed at most once as long as it is there. */
  lemma ReviewedOnce(states: seq<System>, steps: seq<Step>, p: ProposalId, i: nat, j: nat)
    requires IsPath(states, steps) && Reachable(states[0]) && i < j < |steps| && Lasts(states, p, i, j)
    requires Reviews(steps[i], p)
    ensures !Reviews(steps[j], p)
  {
    assert CanStep(states[i], steps[i]) && states[i + 1] == Next(states[i], steps[i]);
    ReviewIsFirst(states[i], steps[i], p);
    forall k | i + 1 <= k < j && Settled(states[k], p) ensures Settled(states[k + 1], p) {
      SettledStays(states, steps, p, k);
    }
    SettledAlong(states, p, i + 1, j);
    assert CanStep(states[j], steps[j]);
  }

  lemma DraftsReplace(g: Graph, d: DocId, ps: map<ProposalId, Proposal>, ms: map<ProposalId, Mention>)
    requires forall p :: p in ps ==> ps[p].document == d && ps[p].status == Proposed
    ensures var g' := WithDrafts(g, d, ps, ms);
            && (forall p :: p in g'.proposals <==>
                  p in ps || (p in g.proposals && (g.proposals[p].document != d || g.proposals[p].status != Proposed)))
            && (forall p :: p in g'.proposals ==> g'.proposals[p] == if p in ps then ps[p] else g.proposals[p])
            && (forall m :: m in g'.mentions <==>
                  m in ms || (m in g.mentions && (g.mentions[m].document != d || g.mentions[m].status != Proposed)))
            && (forall m :: m in g'.mentions ==> g'.mentions[m] == if m in ms then ms[m] else g.mentions[m])
            && Unreviewed(g', d) == ps.Keys && g'.entities == g.entities && g'.relations == g.relations
  {
  }

  /** An extraction that commits leaves its own drafts, and of the rows there were those of other documents and those
      that have been reviewed, unchanged. */
  lemma ExtractionReplaces(s: System, w: WorkerId, ps: map<ProposalId, Proposal>, ms: map<ProposalId, Mention>)
    requires CanStep(s, KFinish(w, ps, ms)) && KPasses(s, s.kworkers[w])
    ensures var d, g, g' := s.kworkers[w].doc, s.graph, Next(s, KFinish(w, ps, ms)).graph;
            && (forall p :: p in g'.proposals <==>
                  p in ps || (p in g.proposals && (g.proposals[p].document != d || g.proposals[p].status != Proposed)))
            && (forall p :: p in g'.proposals ==> g'.proposals[p] == if p in ps then ps[p] else g.proposals[p])
            && (forall m :: m in g'.mentions <==>
                  m in ms || (m in g.mentions && (g.mentions[m].document != d || g.mentions[m].status != Proposed)))
            && (forall m :: m in g'.mentions ==> g'.mentions[m] == if m in ms then ms[m] else g.mentions[m])
            && Unreviewed(g', d) == ps.Keys && g'.entities == g.entities && g'.relations == g.relations
  {
    DraftsReplace(s.graph, s.kworkers[w].doc, ps, ms);
  }

  /** An extraction may commit these drafts exactly when the document has chunks, the proposals are no more than the limit,
      and all rows are new, unreviewed, for this document and cite a chunk of it; proposals are the organization's. */
  lemma DraftsKeptIff(s: System, w: WorkerId, ps: map<ProposalId, Proposal>, ms: map<ProposalId, Mention>)
    requires SysInv(s) && w in s.kworkers && !s.kworkers[w].failed && KPasses(s, s.kworkers[w])
    requires s.kworkers[w].doc !in s.core.locks
    ensures var d := s.kworkers[w].doc;
            CanStep(s, KFinish(w, ps, ms)) <==>
              && (exists k :: k in s.core.chunks && k.doc == d) && |ps| <= s.core.cfg.maxProposals
              && (forall p :: p in ps ==>
                    && p !in s.graph.proposals && ps[p].status == Proposed && ps[p].org == s.core.docs[d].org
                    && ps[p].document == d && ps[p].chunk in s.core.chunks && ps[p].chunk.doc == d)
              && (forall m :: m in ms ==>
                    && m !in s.graph.mentions && ms[m].status == Proposed
                    && ms[m].document == d && ms[m].chunk in s.core.chunks && ms[m].chunk.doc == d)
  {
    var d := s.kworkers[w].doc;
    assert KJobOk(s.core.cfg, s.core.docs, d, s.kjobs[d]);
    OwnRows(s.core, d);
  }

  lemma OwnRows(c: Core, d: DocId)
    requires Inv(c)
    ensures forall k :: k in RowsOf(c.chunks, d) <==> k in c.chunks && k.doc == d
    ensures RowsOf(c.chunks, d) != map[] <==> exists k :: k in c.chunks && k.doc == d
  {
    forall k | k in c.chunks ensures k in RowsOf(c.chunks, d) <==> k.doc == d { ChunkHasDocument(c, k); }
    if RowsOf(c.chunks, d) != map[] {
      var k :| k in RowsOf(c.chunks, d);
      assert k in c.chunks && k.doc == d;
    }
  }

  // ---------------------------------------------------------------- mentions

  /** A mention the proposal stands for: of the same document, chunk and name, and not reviewed. */
  predicate StandsFor(p: Proposal, m: Mention) {
    m.document == p.document && m.chunk == p.chunk && m.name == p.name && m.status == Proposed
  }

  /** A review of an entity proposal resolves the mentions it stands for and no others: LINKED when it is accepted,
      REJECTED when it is rejected. A review of a relationship resolves none. */
  lemma MentionsResolved(s: System, t: Step, m: ProposalId)
    requires CanStep(s, t) && IsReview(t) && m in s.graph.mentions
    ensures var it, was, g' := s.graph.proposals[t.proposal], s.graph.mentions[m], Next(s, t).graph;
            && g'.mentions.Keys == s.graph.mentions.Keys
            && g'.mentions[m] ==
                 if it.isEntity && StandsFor(it, was) then was.(status := if t.Reject? then Rejected else Linked) else was
  {
  }

  // ---------------------------------------------------------------- evidence

  /** Evidence is given only by chunks of the current generation of READY documents of the fact's organization, which
      nobody is working on. */
  lemma EvidenceIsCurrent(s: System, t: Step, k: ChunkId)
    requires SysInv(s) && CanStep(s, t) && GiftOf(s, t).Some? && k in GiftOf(s, t).value.chunks
    ensures k in s.core.chunks && k.doc in s.core.docs && k.doc !in s.core.locks
    ensures s.core.docs[k.doc].status == DocReady && k.generation == s.core.docs[k.doc].generation
    ensures s.core.docs[k.doc].org == GiftOf(s, t).value.fact.org
  {
    if t.CreateEntity? || t.CreateRelationship? {
      ChunkHasDocument(s.core, k);
    } else {
      assert ProposalOk(s.core, s.graph.proposals[t.proposal]);
      ChunkHasDocument(s.core, k);
    }
    IndexExact(s.core, k.doc);
  }

  // ---------------------------------------------------------------- what every reachable graph is like

  /** A relationship joins two entities of its organization. */
  predicate Joins(g: Graph, f: FactId)
    requires f in g.relations.facts
  {
    var fact := g.relations.facts[f];
    && fact.detail.Edge? && fact.detail.subject != fact.detail.target
    && fact.detail.subject in g.entities.facts && g.entities.facts[fact.detail.subject].org == fact.org
    && fact.detail.target in g.entities.facts && g.entities.facts[fact.detail.target].org == fact.org
  }

  /** The knowledge job of a READY document is for its current generation. */
  predicate JobIsFresh(s: System, d: DocId) {
    d in s.core.docs && s.core.docs[d].status == DocReady ==>
      d in s.kjobs && s.kjobs[d].generation == s.core.docs[d].generation
  }

  ghost predicate ReviewInv(s: System) {
    && (forall f :: f in s.graph.relations.facts ==> Joins(s.graph, f))
    && (forall f :: f in s.graph.entities.facts ==> s.graph.entities.facts[f].detail.EntityOf?)
    && (forall d: DocId :: |Unreviewed(s.graph, d)| <= s.core.cfg.maxProposals)
    && (forall d: DocId :: JobIsFresh(s, d))
  }

  /** No step takes an entity away or moves it to another organization, and no step makes it anything but an entity. */
  lemma EntitiesStay(s: System, t: Step)
    requires CanStep(s, t)
    ensures var was, now := s.graph.entities.facts, GraphAfter(s, t).entities.facts;
            && was.Keys <= now.Keys
            && (forall f :: f in was ==> now[f].org == was[f].org && now[f].detail == was[f].detail)
            && (forall f :: f in now && f !in was ==> now[f].detail.EntityOf?)
  {
  }

  lemma StepKeepsJoins(s: System, t: Step, f: FactId)
    requires CanStep(s, t) && f in GraphAfter(s, t).relations.facts
    requires f in s.graph.relations.facts ==> Joins(s.graph, f)
    ensures Joins(GraphAfter(s, t), f)
  {
    EntitiesStay(s, t);
  }

  lemma StepKeepsFew(s: System, t: Step, d: DocId)
    requires CanStep(s, t) && |Unreviewed(s.graph, d)| <= s.core.cfg.maxProposals
    ensures |Unreviewed(GraphAfter(s, t), d)| <= s.core.cfg.maxProposals
  {
    if t.KFinish? && KPasses(s, s.kworkers[t.worker]) && s.kworkers[t.worker].doc == d {
      ExtractionReplaces(s, t.worker, t.proposals, t.mentions);
      assert |t.proposals.Keys| == |t.proposals|;
    } else {
      FewerUnreviewed(s, t, d);
      Sums.SubsetSize(Unreviewed(GraphAfter(s, t), d), Unreviewed(s.graph, d));
    }
  }

  lemma FewerUnreviewed(s: System, t: Step, d: DocId)
    requires CanStep(s, t) && !(t.KFinish? && KPasses(s, s.kworkers[t.worker]) && s.kworkers[t.worker].doc == d)
    ensures Unreviewed(GraphAfter(s, t), d) <= Unreviewed(s.graph, d)
  {
  }

  /** A document becomes READY only by the commit that starts its knowledge job over, and keeps its generation while
      it is READY. */
  lemma BecomesReady(c: Core, a: Action)
    requires Enabled(c, a) && SliceOk(c.cfg, Subject(c, a), View(c, Subject(c, a)))
    requires After(c, a).doc.Some? && After(c, a).doc.value.status == DocReady && !a.CommitIndex?
    ensures View(c, Subject(c, a)).doc == After(c, a).doc
  {
  }

  /** Of the knowledge jobs, a step of the first queue touches that of its own document, when it commits. */
  lemma JobUnderAction(s: System, a: Action, d: DocId)
    requires Enabled(s.core, a)
    ensures var kjobs := KJobsAfter(s, Ingestion(a));
            if d == Subject(s.core, a) && a.CommitIndex? then
              d in kjobs && d in s.core.docs && kjobs[d].generation == s.core.docs[d].generation
              && After(s.core, a).doc == Some(s.core.docs[d].(status := DocReady, error := NoError))
            else if d == Subject(s.core, a) && a.CommitDelete? then After(s.core, a).doc == None
            else At(kjobs, d) == At(s.kjobs, d)
  {
  }

  lemma FreshUnderAction(s: System, a: Action, d: DocId)
    requires Enabled(s.core, a) && JobIsFresh(s, d) && SliceOk(s.core.cfg, d, View(s.core, d))
    requires At(Apply(s.core, a).docs, d) == if d == Subject(s.core, a) then After(s.core, a).doc else At(s.core.docs, d)
    ensures JobIsFresh(Next(s, Ingestion(a)), d)
  {
    JobUnderAction(s, a, d);
    var after := if d == Subject(s.core, a) then After(s.core, a).doc else At(s.core.docs, d);
    if d == Subject(s.core, a) && !a.CommitIndex? && after.Some? && after.value.status == DocReady {
      BecomesReady(s.core, a);
    }
  }

  lemma FreshUnderOthers(s: System, t: Step, d: DocId)
    requires CanStep(s, t) && !t.Ingestion? && JobIsFresh(s, d)
    ensures JobIsFresh(Next(s, t), d)
  {
  }

  lemma StepKeepsFresh(s: System, t: Step, d: DocId)
    requires SysInv(s) && CanStep(s, t) && JobIsFresh(s, d)
    ensures JobIsFresh(Next(s, t), d)
  {
    if t.Ingestion? {
      TablesInView(s.core, t.a, d);
      assert SliceOk(s.core.cfg, d, View(s.core, d));
      FreshUnderAction(s, t.a, d);
    } else {
      FreshUnderOthers(s, t, d);
    }
  }

  lemma StepKeepsReviewInv(s: System, t: Step)
    requires SysInv(s) && ReviewInv(s) && CanStep(s, t)
    ensures ReviewInv(Next(s, t))
  {
    var s' := Next(s, t);
    forall f | f in s'.graph.relations.facts ensures Joins(s'.graph, f) { StepKeepsJoins(s, t, f); }
    EntitiesStay(s, t);
    forall d: DocId ensures |Unreviewed(s'.graph, d)| <= s'.core.cfg.maxProposals { StepKeepsFew(s, t, d); }
    forall d: DocId ensures JobIsFresh(s', d) { StepKeepsFresh(s, t, d); }
  }

  lemma {:induction false} RunKeepsReviewInv(cfg: Config, orgs: set<OrgId>, states: seq<System>, steps: seq<Step>, i: nat)
    requires cfg.Valid() && IsRun(cfg, orgs, states, steps) && i <= |steps|
    ensures ReviewInv(states[i])
  {
    if i == 0 {
      assert forall d: DocId :: Unreviewed(states[0].graph, d) == {};
    } else {
      RunKeepsReviewInv(cfg, orgs, states, steps, i - 1);
      RunKeepsSysInv(cfg, orgs, states, steps, i - 1);
      assert CanStep(states[i - 1], steps[i - 1]) && states[i] == Next(states[i - 1], steps[i - 1]);
      StepKeepsReviewInv(states[i - 1], steps[i - 1]);
    }
  }

  lemma ReachableReviewInv(s: System)
    requires Reachable(s)
    ensures ReviewInv(s)
  {
    var cfg: Config, orgs, states, steps :|
      cfg.Valid() && IsRun(cfg, orgs, states, steps) && s == states[|states| - 1];
    RunKeepsReviewInv(cfg, orgs, states, steps, |steps|);
  }

  /** Every relationship joins two different entities of its own organization. */
  lemma RelationshipsJoinEntities(s: System, f: FactId)
    requires Reachable(s) && f in s.graph.relations.facts
    ensures Joins(s.graph, f)
  {
    ReachableReviewInv(s);
  }

  /** A document never has more unreviewed proposals than one extraction may make. */
  lemma UnreviewedIsBounded(s: System, d: DocId)
    requires Reachable(s)
    ensures |Unreviewed(s.graph, d)| <= s.core.cfg.maxProposals
  {
    ReachableReviewInv(s);
  }

  /** While a document is READY its knowledge job is for its current generation. So of the two checks that a claim and a
      review make, READY and the generation, the second never decides. */
  lemma ReadyMeansFresh(s: System, d: DocId)
    requires Reachable(s) && d in s.core.docs && d in s.kjobs
    ensures Stale(s.core.docs[d], s.kjobs[d]) <==> s.core.docs[d].status != DocReady
  {
    ReachableReviewInv(s);
    assert JobIsFresh(s, d);
  }
}
