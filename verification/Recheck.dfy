/** A search that looks its documents up once more before it answers. */
module Recheck {
  import opened Tables
  import opened Ingestion
  import opened IngestionInvariant
  import opened IngestionTheorems
  import opened System
  import opened SystemInvariant
  import opened Runs
  import opened Search
  import opened Fencing

  predicate SameRows(s: System, s': System, d: DocId) {
    RowsOf(s'.core.chunks, d) == RowsOf(s.core.chunks, d)
  }

  lemma OnlyCommitsChangeRows(c: Core, a: Action)
    requires Enabled(c, a) && Subject(c, a) in c.docs && !a.CommitIndex? && !a.CommitDelete?
    ensures After(c, a).rows == RowsOf(c.chunks, Subject(c, a))
  {
  }

  /** While no reindex of the document is open, its rows stay as they are until it goes. */
  lemma RowsStay(c: Core, a: Action, org: OrgId)
    requires Enabled(c, a) && SliceOk(c.cfg, Subject(c, a), View(c, Subject(c, a)))
    requires Actor(a).Some? ==> WorkerOk(c.cfg, c.workers[a.worker], ShareOf(c, a.worker))
    requires Serves(Subject(c, a), org, View(c, Subject(c, a)), false, false) && Subject(c, a) in c.docs
    requires After(c, a).doc.Some?
    ensures After(c, a).rows == RowsOf(c.chunks, Subject(c, a))
  {
    if a.CommitIndex? {
      WrittenMeansReindex(c.cfg, c.workers[a.worker], ShareOf(c, a.worker), org);
    } else if !a.CommitDelete? {
      OnlyCommitsChangeRows(c, a);
    }
  }

  /** Points about to be committed are those of an ingest job at work. */
  lemma WrittenMeansReindex(cfg: Config, wk: Worker, s: Slice, org: OrgId)
    requires WorkerOk(cfg, wk, s) && wk.phase.Written?
    ensures !Serves(wk.doc, org, s, false, false)
  {
  }

  lemma StepKeepsRows(s: System, t: Step, d: DocId, org: OrgId)
    requires SysInv(s) && CanStep(s, t) && Serves(d, org, View(s.core, d), false, false)
    requires d in s.core.docs && d in Next(s, t).core.docs
    ensures SameRows(s, Next(s, t), d)
  {
    if t.Ingestion? {
      StepShares(s.core, t.a, d);
      assert View(Next(s, t).core, d).rows == RowsOf(Next(s, t).core.chunks, d);
      assert View(Next(s, t).core, d).doc.Some?;
      if Subject(s.core, t.a) == d {
        assert SliceOk(s.core.cfg, d, View(s.core, d));
        if Actor(t.a).Some? { assert WorkerOk(s.core.cfg, s.core.workers[t.a.worker], ShareOf(s.core, t.a.worker)); }
        RowsStay(s.core, t.a, org);
      }
    }
  }

  lemma {:induction false} SameRowsAlong(states: seq<System>, d: DocId, i: nat, j: nat)
    requires i <= j < |states| && forall k :: i <= k < j ==> SameRows(states[k], states[k + 1], d)
    ensures SameRows(states[i], states[j], d)
  {
    if i < j { SameRowsAlong(states, d, i, j - 1); }
  }

  /** What is there at the end was there all the time: a document that goes does not come back. */
  lemma PresentThroughout(states: seq<System>, steps: seq<Step>, i: nat, m: nat, k: nat, d: DocId, org: OrgId)
    requires IsPath(states, steps) && SysInv(states[0]) && i <= m <= k <= |steps|
    requires d in ReadyDocuments(states[i].core, org) && d in states[k].core.docs
    ensures d in states[m].core.docs && ServesAt(states, steps, i, m, d, org)
  {
    forall n | i <= n < m ensures Sound(states, steps, n) { PathIsSound(states, steps, n); }
    PathKeepsSysInv(states, steps, i);
    ServesWhenReady(states[i].core, d, org);
    ServesAlong(states, steps, i, m, d, org);
    if d !in states[m].core.docs {
      assert View(states[m].core, d).source.Some?;
      GoneStays(states, steps, m, k, d);
    }
  }

  /** The same generation at both ends means that nobody asked for a reindex in between. */
  lemma GenerationTells(states: seq<System>, steps: seq<Step>, i: nat, k: nat, d: DocId, org: OrgId)
    requires IsPath(states, steps) && SysInv(states[0]) && i <= k <= |steps|
    requires d in ReadyDocuments(states[i].core, org) && d in states[k].core.docs
    ensures states[k].core.docs[d].generation == states[i].core.docs[d].generation <==> NoReindex(steps, d, i, k)
  {
    forall m | i <= m <= k ensures d in states[m].core.docs { PresentThroughout(states, steps, i, m, k, d, org); }
    forall m | i <= m < k ensures MovesGeneration(states[m], steps[m], states[m + 1], d) {
      PathIsSound(states, steps, m);
      assert d in states[m].core.docs && d in states[m + 1].core.docs;
      StepMovesGeneration(states[m], steps[m], d);
    }
    GenerationAlong(states, steps, d, i, k);
  }

  lemma RowsThroughout(states: seq<System>, steps: seq<Step>, i: nat, j: nat, k: nat, d: DocId, org: OrgId)
    requires IsPath(states, steps) && SysInv(states[0]) && i <= j <= k <= |steps|
    requires d in ReadyDocuments(states[i].core, org) && d in states[k].core.docs && NoReindex(steps, d, i, k)
    ensures SameRows(states[j], states[k], d)
  {
    forall m | j <= m < k ensures SameRows(states[m], states[m + 1], d) {
      PresentThroughout(states, steps, i, m, k, d, org);
      PresentThroughout(states, steps, i, m + 1, k, d, org);
      PathIsSound(states, steps, m);
      NothingOpen(states, steps, i, m, d, org);
      StepKeepsRows(states[m], steps[m], d, org);
    }
    SameRowsAlong(states, d, j, k);
  }

  lemma NothingOpen(states: seq<System>, steps: seq<Step>, i: nat, m: nat, d: DocId, org: OrgId)
    requires |states| == |steps| + 1 && i <= m <= |steps| && NoReindex(steps, d, i, m)
    requires d in states[m].core.docs && ServesAt(states, steps, i, m, d, org)
    ensures Serves(d, org, View(states[m].core, d), false, false)
  {
    assert !ReindexOpen(states, steps, i, m, d);
  }

  /** Ids and generations are read at state i, the points at j, and ids and generations again at k. A hit whose
      document is READY at k with the generation it had at i is a stored row of that generation, word for word, when
      it is found and when the search answers, whatever happens in between. */
  lemma RecheckIsEnough(states: seq<System>, steps: seq<Step>, i: nat, j: nat, k: nat, org: OrgId, p: PointId)
    requires IsPath(states, steps) && Reachable(states[0]) && i <= j <= k <= |steps|
    requires IsHit(states[j].core, org, ReadyDocuments(states[i].core, org), p)
    requires var d := states[j].core.points[p].document;
             && d in ReadyDocuments(states[k].core, org)
             && states[k].core.docs[d].generation == states[i].core.docs[d].generation
    ensures Current(states[j].core, states[j].core.points[p])
    ensures Current(states[k].core, states[j].core.points[p])
  {
    var hit := states[j].core.points[p];
    var d := hit.document;
    ReachableInv(states[0]);
    GenerationTells(states, steps, i, k, d, org);
    UndisturbedSearchIsCurrent(states, steps, i, j, org, p);
    RowsThroughout(states, steps, i, j, k, d, org);
    StillCurrent(states, steps, i, j, k, d, org, hit);
  }

  lemma StillCurrent(states: seq<System>, steps: seq<Step>, i: nat, j: nat, k: nat, d: DocId, org: OrgId, hit: Payload)
    requires IsPath(states, steps) && SysInv(states[0]) && i <= j <= k <= |steps|
    requires d in ReadyDocuments(states[i].core, org) && d in states[k].core.docs
    requires states[k].core.docs[d].generation == states[i].core.docs[d].generation
    requires hit.document == d && Current(states[j].core, hit) && SameRows(states[j], states[k], d)
    ensures Current(states[k].core, hit)
  {
    GenerationTells(states, steps, i, k, d, org);
    PresentThroughout(states, steps, i, j, k, d, org);
    GenerationTells(states, steps, i, j, d, org);
    assert hit.chunk in RowsOf(states[j].core.chunks, d);
    assert hit.chunk in RowsOf(states[k].core.chunks, d);
  }
}
