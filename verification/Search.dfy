/** A search reads the READY documents first and the vector store later, and everything may happen in between.

    `ready_documents` reads SQL at one moment of a run; then the query is embedded over the network; then the
    vectors of these documents are searched, with no lock held and nothing looked up again. */
module Search {
  import opened Tables
  import opened Ingestion
  import opened IngestionInvariant
  import opened IngestionTheorems
  import opened System
  import opened SystemInvariant
  import opened Runs

  // ---------------------------------------------------------------- what a search may return

  /** Point p is among the answers of a search of `org` limited to `ids`. */
  ghost predicate IsHit(c: Core, org: OrgId, ids: set<DocId>, p: PointId) {
    p in c.points && c.points[p].org == org && c.points[p].document in ids
  }

  /** The text of the hit is a stored row. */
  ghost predicate Stored(c: Core, hit: Payload) {
    hit.chunk in c.chunks && c.chunks[hit.chunk] == ChunkRow(hit.document, hit.index, hit.content, hit.page)
  }

  /** It is a stored row of its document's current generation. */
  ghost predicate Current(c: Core, hit: Payload) {
    Stored(c, hit) && hit.document in c.docs && hit.chunk.generation == c.docs[hit.document].generation
  }

  // ---------------------------------------------------------------- what may happen in between

  /** A reindex of d is admitted. */
  predicate AsksReindex(t: Step, d: DocId) {
    t.Ingestion? && t.a.Requeue? && t.a.operation == Ingest && t.a.doc == d
  }

  /** A worker sends points of d to the vector store, all or some. */
  predicate Upserts(s: System, t: Step, d: DocId) {
    t.Ingestion? && (t.a.UpsertPart? || t.a.UpsertAll?)
    && t.a.worker in s.core.workers && s.core.workers[t.a.worker].doc == d
  }

  /** A worker commits an index of d. */
  predicate CommitsIndex(s: System, t: Step, d: DocId) {
    t.Ingestion? && t.a.CommitIndex? && t.a.worker in s.core.workers && s.core.workers[t.a.worker].doc == d
  }

  /** A reindex was admitted in the steps `i .. j`, and no index of d was committed after it. */
  ghost predicate ReindexOpen(states: seq<System>, steps: seq<Step>, i: nat, j: nat, d: DocId)
    requires |states| == |steps| + 1 && i <= j <= |steps|
  {
    exists k :: i <= k < j && AsksReindex(steps[k], d)
                && forall m :: k < m < j ==> !CommitsIndex(states[m], steps[m], d)
  }

  /** Points of d were sent in the steps `i .. j`, and no index of d was committed after that. */
  ghost predicate UpsertOpen(states: seq<System>, steps: seq<Step>, i: nat, j: nat, d: DocId)
    requires |states| == |steps| + 1 && i <= j <= |steps|
  {
    exists k :: i <= k < j && Upserts(states[k], steps[k], d)
                && forall m :: k < m < j ==> !CommitsIndex(states[m], steps[m], d)
  }

  lemma ReindexOneMore(states: seq<System>, steps: seq<Step>, i: nat, j: nat, d: DocId)
    requires |states| == |steps| + 1 && i <= j < |steps|
    ensures ReindexOpen(states, steps, i, j + 1, d) <==>
              || AsksReindex(steps[j], d)
              || (ReindexOpen(states, steps, i, j, d) && !CommitsIndex(states[j], steps[j], d))
  {
    if ReindexOpen(states, steps, i, j, d) && !CommitsIndex(states[j], steps[j], d) {
      var k :| i <= k < j && AsksReindex(steps[k], d)
               && forall m :: k < m < j ==> !CommitsIndex(states[m], steps[m], d);
      assert forall m :: k < m < j + 1 ==> !CommitsIndex(states[m], steps[m], d);
    }
    if ReindexOpen(states, steps, i, j + 1, d) && !AsksReindex(steps[j], d) {
      var k :| i <= k < j + 1 && AsksReindex(steps[k], d)
               && forall m :: k < m < j + 1 ==> !CommitsIndex(states[m], steps[m], d);
      assert k < j;
    }
  }

  lemma UpsertOneMore(states: seq<System>, steps: seq<Step>, i: nat, j: nat, d: DocId)
    requires |states| == |steps| + 1 && i <= j < |steps|
    ensures UpsertOpen(states, steps, i, j + 1, d) <==>
              || Upserts(states[j], steps[j], d)
              || (UpsertOpen(states, steps, i, j, d) && !CommitsIndex(states[j], steps[j], d))
  {
    if UpsertOpen(states, steps, i, j, d) && !CommitsIndex(states[j], steps[j], d) {
      var k :| i <= k < j && Upserts(states[k], steps[k], d)
               && forall m :: k < m < j ==> !CommitsIndex(states[m], steps[m], d);
      assert forall m :: k < m < j + 1 ==> !CommitsIndex(states[m], steps[m], d);
    }
    if UpsertOpen(states, steps, i, j + 1, d) && !Upserts(states[j], steps[j], d) {
      var k :| i <= k < j + 1 && Upserts(states[k], steps[k], d)
               && forall m :: k < m < j + 1 ==> !CommitsIndex(states[m], steps[m], d);
      assert k < j;
    }
  }

  // ---------------------------------------------------------------- a document that was READY

  /** What is known of a document that was READY, by whether a reindex is open and points have been sent since. */
  ghost predicate Serves(d: DocId, org: OrgId, s: Slice, reindex: bool, upsert: bool) {
    && s.source.Some?
    && (s.doc.Some? ==>
          && s.job.Some? && s.doc.value.org == org && s.rows != map[] && (upsert ==> reindex)
          && (if reindex then OldRows(s.doc.value, s.rows)
              else CurrentRows(d, s.doc.value, s.rows) && (s.job.value.operation == Delete || s.job.value.status == Succeeded))
          && (if upsert then ForeignPoints(d, s.points, s.rows)
              else Within(s.points, IndexOf(d, s.doc.value, s.rows))))
  }

  /** All that is left of an index, after whatever was deleted. */
  predicate Within(points: map<PointId, Payload>, index: map<PointId, Payload>) {
    forall p :: p in points ==> p in index && points[p] == index[p]
  }

  predicate OldRows(doc: Document, rows: map<ChunkId, ChunkRow>) {
    forall k :: k in rows ==> k.generation < doc.generation
  }

  predicate ForeignPoints(d: DocId, points: map<PointId, Payload>, rows: map<ChunkId, ChunkRow>) {
    forall p :: p in points ==> points[p].chunk.doc == d && points[p].chunk !in rows
  }

  lemma ServesWhenReady(c: Core, d: DocId, org: OrgId)
    requires Inv(c) && d in ReadyDocuments(c, org)
    ensures Serves(d, org, View(c, d), false, false)
  {
    assert SliceOk(c.cfg, d, View(c, d));
  }

  predicate AsksReindexOf(a: Action) {
    a.Requeue? && a.operation == Ingest
  }

  predicate Sends(a: Action) {
    a.UpsertPart? || a.UpsertAll?
  }

  /** One step on the document itself. */
  lemma ServesAfter(c: Core, a: Action, org: OrgId, reindex: bool, upsert: bool)
    requires Inv(c) && Enabled(c, a) && Serves(Subject(c, a), org, View(c, Subject(c, a)), reindex, upsert)
    ensures Serves(Subject(c, a), org, After(c, a),
                   AsksReindexOf(a) || (reindex && !a.CommitIndex?), Sends(a) || (upsert && !a.CommitIndex?))
  {
    if Actor(a).Some? {
      if Sends(a) {
        SentPointsAreForeign(c, a, org, reindex, upsert);
      } else if a.CommitIndex? {
        CommittedServes(c, a, org, reindex, upsert);
      } else {
        ServesInside(c, a, org, reindex, upsert);
      }
    } else {
      ServesOutside(c, a, org, reindex, upsert);
    }
  }

  /** A request leaves rows and points alone, and a reindex makes the rows old. */
  lemma ServesRequeued(d: DocId, org: OrgId, s: Slice, operation: Operation, now: Time, reindex: bool, upsert: bool)
    requires Serves(d, org, s, reindex, upsert) && s.doc.Some?
    ensures Serves(d, org, RequeueSlice(s, operation, now), operation == Ingest || reindex, upsert)
  {
    IndexSurvives(d, s.doc.value, RequeueSlice(s, operation, now).doc.value, s.rows);
  }

  /** So does a claim. */
  lemma ServesClaimed(cfg: Config, d: DocId, org: OrgId, s: Slice, now: Time, reindex: bool, upsert: bool)
    requires Serves(d, org, s, reindex, upsert) && s.doc.Some? && s.job.value.status != Succeeded
    ensures Serves(d, org, ClaimSlice(cfg, s, now), reindex, upsert)
  {
    IndexSurvives(d, s.doc.value, ClaimSlice(cfg, s, now).doc.value, s.rows);
  }

  lemma ServesOutside(c: Core, a: Action, org: OrgId, reindex: bool, upsert: bool)
    requires Inv(c) && Enabled(c, a) && Actor(a).None?
    requires Serves(Subject(c, a), org, View(c, Subject(c, a)), reindex, upsert)
    ensures Serves(Subject(c, a), org, After(c, a), AsksReindexOf(a) || reindex, upsert)
  {
    var d := Subject(c, a);
    if a.Requeue? {
      ServesRequeued(d, org, View(c, d), a.operation, a.now, reindex, upsert);
    } else {
      ServesClaimed(c.cfg, d, org, View(c, d), a.now, reindex, upsert);
    }
  }

  /** The share has lost points, or moved to another status, or its document is gone. */
  predicate Dwindles(s: Slice, t: Slice) {
    && t.source.Some?
    && (t.doc.Some? ==>
          && s.doc.Some? && s.job.Some? && t.job.Some? && t.rows == s.rows && Within(t.points, s.points)
          && t.doc.value == s.doc.value.(status := t.doc.value.status, error := t.doc.value.error)
          && t.job.value.operation == s.job.value.operation
          && (s.job.value.status == Succeeded ==> t.job.value.status == Succeeded))
  }

  lemma ServesDwindled(d: DocId, org: OrgId, s: Slice, t: Slice, reindex: bool, upsert: bool)
    requires Serves(d, org, s, reindex, upsert) && Dwindles(s, t)
    ensures Serves(d, org, t, reindex, upsert)
  {
    if t.doc.Some? { IndexSurvives(d, s.doc.value, t.doc.value, s.rows); }
  }

  lemma WorkerDwindles(c: Core, a: Action)
    requires Enabled(c, a) && Actor(a).Some? && !Sends(a) && !a.CommitIndex?
    requires SliceOk(c.cfg, c.workers[a.worker].doc, ShareOf(c, a.worker))
    requires WorkerOk(c.cfg, c.workers[a.worker], ShareOf(c, a.worker))
    ensures Dwindles(ShareOf(c, a.worker), After(c, a))
  {
  }

  /** Worker steps that neither send points nor commit an index. */
  lemma ServesInside(c: Core, a: Action, org: OrgId, reindex: bool, upsert: bool)
    requires Inv(c) && Enabled(c, a) && Actor(a).Some? && !Sends(a) && !a.CommitIndex?
    requires Serves(Subject(c, a), org, View(c, Subject(c, a)), reindex, upsert)
    ensures Serves(Subject(c, a), org, After(c, a), reindex, upsert)
  {
    WorkerInOrder(c, a.worker);
    WorkerDwindles(c, a);
    ServesDwindled(Subject(c, a), org, ShareOf(c, a.worker), After(c, a), reindex, upsert);
  }

  /** Points are sent only while a reindex is open, and under its generation. */
  lemma SentServes(cfg: Config, wk: Worker, s: Slice, org: OrgId, reindex: bool, upsert: bool,
                   points: map<PointId, Payload>, t: Slice)
    requires t == s.(points := s.points + points)
    requires SliceOk(cfg, wk.doc, s) && WorkerOk(cfg, wk, s) && wk.phase.Planned?
    requires Serves(wk.doc, org, s, reindex, upsert)
    requires forall p :: p in points ==> points[p].chunk.doc == wk.doc && points[p].chunk.generation == s.doc.value.generation
    ensures Serves(wk.doc, org, t, reindex, true)
  {
    assert reindex && s.points == map[];
    assert map[] + points == points;
  }

  lemma WorkerInOrder(c: Core, w: WorkerId)
    requires Inv(c) && w in c.workers
    ensures SliceOk(c.cfg, c.workers[w].doc, ShareOf(c, w)) && WorkerOk(c.cfg, c.workers[w], ShareOf(c, w))
  {
  }

  lemma SentAre(c: Core, a: Action) returns (points: map<PointId, Payload>)
    requires Enabled(c, a) && Sends(a)
    ensures Subject(c, a) == c.workers[a.worker].doc && c.workers[a.worker].phase.Planned?
    ensures After(c, a) == ShareOf(c, a.worker).(points := ShareOf(c, a.worker).points + points)
    ensures var wk, doc := c.workers[a.worker], ShareOf(c, a.worker).doc.value;
            forall p :: p in points ==> points[p].chunk.doc == wk.doc && points[p].chunk.generation == doc.generation
  {
    var wk, doc := c.workers[a.worker], ShareOf(c, a.worker).doc.value;
    points := if a.UpsertPart? then Partial(wk.doc, doc, wk.phase.pieces, a.part)
              else IndexOf(wk.doc, doc, NewRows(wk.doc, doc.generation, wk.phase.pieces));
  }

  lemma SentPointsAreForeign(c: Core, a: Action, org: OrgId, reindex: bool, upsert: bool)
    requires Inv(c) && Enabled(c, a) && Sends(a)
    requires Serves(Subject(c, a), org, View(c, Subject(c, a)), reindex, upsert)
    ensures Serves(Subject(c, a), org, After(c, a), reindex, true)
  {
    var points := SentAre(c, a);
    WorkerInOrder(c, a.worker);
    SentServes(c.cfg, c.workers[a.worker], ShareOf(c, a.worker), org, reindex, upsert, points, After(c, a));
  }

  /** A commit leaves exactly the index of the new rows. */
  lemma IndexedServes(cfg: Config, wk: Worker, s: Slice, org: OrgId)
    requires SliceOk(cfg, wk.doc, s) && WorkerOk(cfg, wk, s) && wk.phase.Written? && s.doc.value.org == org
    ensures Serves(wk.doc, org, IndexedSlice(wk.doc, s, wk.phase.pieces), false, false)
  {
    var t := IndexedSlice(wk.doc, s, wk.phase.pieces);
    NewRowsOk(wk.doc, s.doc.value, wk.phase.pieces);
    IndexSurvives(wk.doc, s.doc.value, t.doc.value, t.rows);
  }

  lemma CommittedServes(c: Core, a: Action, org: OrgId, reindex: bool, upsert: bool)
    requires Inv(c) && Enabled(c, a) && a.CommitIndex?
    requires Serves(Subject(c, a), org, View(c, Subject(c, a)), reindex, upsert)
    ensures Serves(Subject(c, a), org, After(c, a), false, false)
  {
    WorkerInOrder(c, a.worker);
    IndexedServes(c.cfg, c.workers[a.worker], ShareOf(c, a.worker), org);
  }

  /** One step of the first queue, on whatever document. */
  lemma ServesAfterAction(c: Core, a: Action, d: DocId, org: OrgId, reindex: bool, upsert: bool)
    requires Inv(c) && Enabled(c, a) && Serves(d, org, View(c, d), reindex, upsert)
    ensures var own := Subject(c, a) == d;
            Serves(d, org, View(Apply(c, a), d), (own && AsksReindexOf(a)) || (reindex && !(own && a.CommitIndex?)),
                   (own && Sends(a)) || (upsert && !(own && a.CommitIndex?)))
  {
    StepShares(c, a, d);
    if Subject(c, a) == d {
      ServesAfter(c, a, org, reindex, upsert);
    }
  }

  /** The events of a step, as its action has them. */
  lemma Events(s: System, t: Step, d: DocId)
    requires CanStep(s, t)
    ensures AsksReindex(t, d) <==> t.Ingestion? && AsksReindexOf(t.a) && Subject(s.core, t.a) == d
    ensures Upserts(s, t, d) <==> t.Ingestion? && Sends(t.a) && Subject(s.core, t.a) == d
    ensures CommitsIndex(s, t, d) <==> t.Ingestion? && t.a.CommitIndex? && Subject(s.core, t.a) == d
    ensures Next(s, t).core == if t.Ingestion? then Apply(s.core, t.a) else s.core
  {
  }

  /** One step of the whole system. */
  lemma ServesAfterStep(s: System, t: Step, d: DocId, org: OrgId, reindex: bool, upsert: bool)
    requires SysInv(s) && CanStep(s, t) && Serves(d, org, View(s.core, d), reindex, upsert)
    ensures Serves(d, org, View(Next(s, t).core, d), AsksReindex(t, d) || (reindex && !CommitsIndex(s, t, d)),
                   Upserts(s, t, d) || (upsert && !CommitsIndex(s, t, d)))
  {
    Events(s, t, d);
    if t.Ingestion? {
      ServesAfterAction(s.core, t.a, d, org, reindex, upsert);
    }
  }

  /** Step k of a path, from a state in order. */
  ghost predicate Sound(states: seq<System>, steps: seq<Step>, k: nat)
    requires |states| == |steps| + 1 && k < |steps|
  {
    SysInv(states[k]) && CanStep(states[k], steps[k]) && states[k + 1] == Next(states[k], steps[k])
  }

  lemma PathIsSound(states: seq<System>, steps: seq<Step>, k: nat)
    requires IsPath(states, steps) && SysInv(states[0]) && k < |steps|
    ensures Sound(states, steps, k)
  {
    PathKeepsSysInv(states, steps, k);
  }

  /** What is known of d at state j, by what happened to it in the steps `i .. j`. */
  ghost predicate ServesAt(states: seq<System>, steps: seq<Step>, i: nat, j: nat, d: DocId, org: OrgId)
    requires |states| == |steps| + 1 && i <= j <= |steps|
  {
    Serves(d, org, View(states[j].core, d), ReindexOpen(states, steps, i, j, d), UpsertOpen(states, steps, i, j, d))
  }

  lemma ServesOneMore(states: seq<System>, steps: seq<Step>, i: nat, j: nat, d: DocId, org: OrgId)
    requires |states| == |steps| + 1 && i <= j < |steps| && Sound(states, steps, j)
    requires ServesAt(states, steps, i, j, d, org)
    ensures ServesAt(states, steps, i, j + 1, d, org)
  {
    ReindexOneMore(states, steps, i, j, d);
    UpsertOneMore(states, steps, i, j, d);
    ServesAfterStep(states[j], steps[j], d, org, ReindexOpen(states, steps, i, j, d), UpsertOpen(states, steps, i, j, d));
  }

  /** Once it holds at the first state and each step carries it on, it holds throughout. */
  lemma {:induction false} Along(holds: nat -> bool, i: nat, j: nat)
    requires i <= j && holds(i) && forall k: nat :: i <= k < j && holds(k) ==> holds(k + 1)
    ensures holds(j)
  {
    if i < j { Along(holds, i, j - 1); }
  }

  lemma ServesAlong(states: seq<System>, steps: seq<Step>, i: nat, j: nat, d: DocId, org: OrgId)
    requires |states| == |steps| + 1 && i <= j <= |steps|
    requires forall k :: i <= k < j ==> Sound(states, steps, k)
    requires Serves(d, org, View(states[i].core, d), false, false)
    ensures ServesAt(states, steps, i, j, d, org)
  {
    var holds: nat -> bool := k => i <= k <= |steps| && ServesAt(states, steps, i, k, d, org);
    forall k: nat | i <= k < j && holds(k) ensures holds(k + 1) {
      ServesOneMore(states, steps, i, k, d, org);
    }
    Along(holds, i, j);
  }

  // ---------------------------------------------------------------- exactly when a hit is good

  lemma HitOfServed(c: Core, d: DocId, org: OrgId, reindex: bool, upsert: bool, p: PointId)
    requires Inv(c) && Serves(d, org, View(c, d), reindex, upsert)
    requires p in c.points && c.points[p].document == d
    ensures d in c.docs && c.docs[d].org == org
    ensures Stored(c, c.points[p]) <==> !upsert
    ensures Current(c, c.points[p]) <==> !reindex
  {
    assert SliceOk(c.cfg, d, View(c, d));
    InvKeyed(c);
    assert p in PointsOf(c.points, d);
    var hit, rows := c.points[p], RowsOf(c.chunks, d);
    assert hit.chunk in c.chunks && c.chunks[hit.chunk].document == d ==> hit.chunk in rows;
    if !upsert {
      assert p in IndexOf(d, c.docs[d], rows);
      assert hit == PayloadFor(d, c.docs[d], p.chunk, rows[p.chunk]);
    }
  }

  /** A hit of a search whose ids were read at state i and whose points at state j, on any path. Its text is a
      stored row if and only if no points of its document were sent in between without the commit that stores
      their rows. It is moreover of the document's current generation if and only if no reindex was admitted in
      between without being committed. It is of the searching tenant in any case. */
  lemma SearchHitExact(states: seq<System>, steps: seq<Step>, i: nat, j: nat, org: OrgId, p: PointId)
    requires IsPath(states, steps) && Reachable(states[0]) && i <= j <= |steps|
    requires IsHit(states[j].core, org, ReadyDocuments(states[i].core, org), p)
    ensures var c := states[j].core;
            && var d := c.points[p].document;
            && d in c.docs && c.docs[d].org == org
            && (Stored(c, c.points[p]) <==> !UpsertOpen(states, steps, i, j, d))
            && (Current(c, c.points[p]) <==> !ReindexOpen(states, steps, i, j, d))
  {
    ReachableInv(states[0]);
    var d := states[j].core.points[p].document;
    PathKeepsSysInv(states, steps, i);
    ServesWhenReady(states[i].core, d, org);
    forall k | i <= k < j ensures Sound(states, steps, k) {
      PathIsSound(states, steps, k);
    }
    ServesAlong(states, steps, i, j, d, org);
    PathKeepsSysInv(states, steps, j);
    HitOfServed(states[j].core, d, org, ReindexOpen(states, steps, i, j, d), UpsertOpen(states, steps, i, j, d), p);
  }

  /** So as long as nobody asks for a reindex of the document while the search is under way, every hit is a stored
      row of the current generation, word for word; delete requests and workers do no harm. */
  lemma UndisturbedSearchIsCurrent(states: seq<System>, steps: seq<Step>, i: nat, j: nat, org: OrgId, p: PointId)
    requires IsPath(states, steps) && Reachable(states[0]) && i <= j <= |steps|
    requires IsHit(states[j].core, org, ReadyDocuments(states[i].core, org), p)
    requires forall k :: i <= k < j ==> !AsksReindex(steps[k], states[j].core.points[p].document)
    ensures Current(states[j].core, states[j].core.points[p])
  {
    SearchHitExact(states, steps, i, j, org, p);
  }
}
