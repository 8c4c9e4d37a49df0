/** The whole backend: the ingestion queue, the knowledge queue bound to document generations, and the
    reviewed graph, under any interleaving of HTTP requests, workers of both kinds and crashes. */
module System {
  import opened Tables
  import opened Ingestion
  import opened Evidence
  import Sums

  datatype KJob = KJob(
    org: OrgId, generation: nat, status: JobStatus, attempts: nat, availableAt: Time,
    lease: Option<Time>, error: ErrorCode, round: nat)

  /** A run of `knowledge_worker.run_once` after its claim; `failed` once its transaction was rolled back. */
  datatype KWorker = KWorker(doc: DocId, attempt: nat, round: nat, failed: bool)

  /** `pending` is what the open transactions of the ingestion workers have decided to withdraw. */
  datatype System = System(core: Core, kjobs: map<DocId, KJob>, kworkers: map<WorkerId, KWorker>, graph: Graph,
                           pending: map<WorkerId, Verdict>)

  datatype Step =
    | Ingestion(a: Action)
    | KClaim(worker: WorkerId, doc: DocId, now: Time)
    | KFinish(worker: WorkerId, proposals: map<ProposalId, Proposal>, mentions: map<ProposalId, Mention>)
    | KRaise(worker: WorkerId)
    | KFail(worker: WorkerId, now: Time)
    | KCrash(worker: WorkerId)
    | Extract(doc: DocId, org: OrgId, now: Time)
    | CreateEntity(org: OrgId, fact: FactId, kind: string, chunks: set<ChunkId>)
    | CreateRelationship(org: OrgId, fact: FactId, subject: FactId, target: FactId, chunks: set<ChunkId>)
    | AcceptNew(org: OrgId, proposal: ProposalId, fact: FactId)
    | AcceptExisting(org: OrgId, proposal: ProposalId, fact: FactId)
    | AcceptRelationship(org: OrgId, proposal: ProposalId, fact: FactId, subject: FactId, target: FactId)
    | Reject(org: OrgId, proposal: ProposalId)

  // ---------------------------------------------------------------- the knowledge queue

  /** `enqueue_knowledge`: create the document's job or start it over for the current generation. */
  function Enqueued(kjobs: map<DocId, KJob>, d: DocId, org: OrgId, generation: nat, now: Time): KJob {
    KJob(if d in kjobs then kjobs[d].org else org, generation, Queued, 0, now, None, NoError,
         if d in kjobs then kjobs[d].round + 1 else 0)
  }

  predicate KEligible(j: KJob, now: Time) {
    || (j.status == Queued && j.availableAt <= now)
    || (j.status == Processing && j.lease.Some? && j.lease.value <= now)
  }

  predicate KClaimable(s: System, d: DocId, now: Time) {
    d in s.core.docs && d in s.kjobs && d !in s.core.locks && KEligible(s.kjobs[d], now)
  }

  /** The row the query returns when nobody else holds a row lock; a step may claim any claimable one. */
  predicate KIsNext(s: System, d: DocId, now: Time) {
    && KClaimable(s, d, now)
    && forall e :: e in s.kjobs && KClaimable(s, e, now) ==>
         || s.kjobs[d].availableAt < s.kjobs[e].availableAt
         || (s.kjobs[d].availableAt == s.kjobs[e].availableAt && d <= e)
  }

  /** The document has moved on from the generation the job was made for. */
  predicate Stale(doc: Document, j: KJob) {
    doc.status != DocReady || doc.generation != j.generation
  }

  function KClaimed(cfg: Config, doc: Document, j: KJob, now: Time): KJob {
    if Stale(doc, j) then j.(status := Failed, error := StaleDocument, lease := None)
    else if j.attempts >= cfg.maxAttempts then j.(status := Failed, error := RetriesExhausted, lease := None)
    else j.(status := Processing, attempts := j.attempts + 1, lease := Some(now + cfg.leaseSeconds))
  }

  predicate KTokenCurrent(s: System, w: KWorker) {
    && w.doc in s.core.docs && w.doc in s.kjobs
    && s.kjobs[w.doc].status == Processing && s.kjobs[w.doc].attempts == w.attempt
  }

  predicate KPasses(s: System, w: KWorker) {
    KTokenCurrent(s, w) && s.kjobs[w.doc].generation == s.core.docs[w.doc].generation
  }

  /** `parse_extraction`: every item cites a chunk of the input, and the job's limit holds. */
  predicate DraftsFit(s: System, d: DocId, proposals: map<ProposalId, Proposal>, mentions: map<ProposalId, Mention>)
    requires d in s.kjobs
  {
    var rows := RowsOf(s.core.chunks, d);
    && rows != map[] && |proposals| <= s.core.cfg.maxProposals
    && (forall p :: p in proposals ==>
          && p !in s.graph.proposals
          && proposals[p].document == d && proposals[p].org == s.kjobs[d].org
          && proposals[p].chunk in rows && proposals[p].status == Proposed)
    && (forall m :: m in mentions ==>
          && m !in s.graph.mentions
          && mentions[m].document == d && mentions[m].chunk in rows && mentions[m].status == Proposed)
  }

  /** The proposals that are not unreviewed ones of d. */
  function OtherProposals(proposals: map<ProposalId, Proposal>, d: DocId): map<ProposalId, Proposal> {
    proposals - set p | p in proposals && proposals[p].document == d && proposals[p].status == Proposed
  }

  function OtherMentions(mentions: map<ProposalId, Mention>, d: DocId): map<ProposalId, Mention> {
    mentions - set m | m in mentions && mentions[m].document == d && mentions[m].status == Proposed
  }

  /** A repeated extraction replaces what is still unreviewed, never a part of it. */
  function WithDrafts(g: Graph, d: DocId, proposals: map<ProposalId, Proposal>, mentions: map<ProposalId, Mention>)
    : Graph
  {
    g.(proposals := OtherProposals(g.proposals, d) + proposals, mentions := OtherMentions(g.mentions, d) + mentions)
  }

  function KFailedJob(cfg: Config, j: KJob, attempt: nat, now: Time): KJob
    requires attempt > 0
  {
    var retry := attempt < cfg.maxAttempts;
    j.(status := if retry then Queued else Failed,
       error := if retry then ProviderUnavailable else ExtractionFailed, lease := None,
       availableAt := now + cfg.retrySeconds * Power2(attempt - 1))
  }

  // ---------------------------------------------------------------- review

  /** `require_evidence`: every chunk exists, in a READY, unlocked document of the organization. */
  predicate EvidenceGiven(s: System, org: OrgId, chunks: set<ChunkId>) {
    && chunks != {}
    && forall k :: k in chunks ==>
         && k in s.core.chunks && s.core.chunks[k].document in s.core.docs
         && s.core.docs[s.core.chunks[k].document].org == org
         && s.core.docs[s.core.chunks[k].document].status == DocReady
         && s.core.chunks[k].document !in s.core.locks
  }

  predicate IsEntityOf(s: System, org: OrgId, f: FactId) {
    f in s.graph.entities.facts && s.graph.entities.facts[f].org == org
  }

  predicate IsConfirmedEntity(s: System, org: OrgId, f: FactId) {
    IsEntityOf(s, org, f) && s.graph.entities.facts[f].status == Confirmed
  }

  /** The proposal is unreviewed and its job's generation is the READY one of an unlocked document. */
  predicate Reviewable(s: System, org: OrgId, p: ProposalId) {
    && p in s.graph.proposals && s.graph.proposals[p].org == org && s.graph.proposals[p].status == Proposed
    && var d := s.graph.proposals[p].document;
       && d in s.kjobs && d in s.core.docs && s.core.docs[d].org == org && d !in s.core.locks
       && !Stale(s.core.docs[d], s.kjobs[d])
  }

  function Insert(b: Ledger, f: FactId, fact: Fact, chunks: set<ChunkId>): Ledger {
    b.(facts := b.facts[f := fact], links := b.links + set k | k in chunks :: Link(f, k))
  }

  /** The mentions an entity proposal stands for, those of the same job, chunk and name, are resolved. */
  ghost function Resolve(mentions: map<ProposalId, Mention>, p: Proposal, to: ReviewStatus): (r: map<ProposalId, Mention>)
    ensures r.Keys == mentions.Keys
    ensures forall m :: m in mentions ==>
              r[m] == if IsFor(mentions[m], p) then mentions[m].(status := to) else mentions[m]
    decreases |mentions|
  {
    if mentions == map[] then map[]
    else
      var m :| m in mentions;
      Sums.Shrinks(mentions, m);
      Resolve(mentions - {m}, p, to)[m := if IsFor(mentions[m], p) then mentions[m].(status := to) else mentions[m]]
  }

  /** An unreviewed mention that the proposal stands for. */
  predicate IsFor(it: Mention, p: Proposal) {
    it.document == p.document && it.chunk == p.chunk && it.name == p.name && it.status == Proposed
  }

  /** Every review ends in ACCEPTED: the source assigns it after the accept and the reject branch alike. */
  function Reviewed(g: Graph, p: ProposalId): Graph
    requires p in g.proposals
  {
    g.(proposals := g.proposals[p := g.proposals[p].(status := Accepted)])
  }

  // ---------------------------------------------------------------- enabledness and effect

  ghost predicate CanStep(s: System, t: Step) {
    match t
    case Ingestion(a) => Enabled(s.core, a)
    case KClaim(w, d, now) => w !in s.kworkers && KClaimable(s, d, now)
    case KFinish(w, proposals, mentions) =>
      && w in s.kworkers && !s.kworkers[w].failed && s.kworkers[w].doc !in s.core.locks
      && (KPasses(s, s.kworkers[w]) ==> DraftsFit(s, s.kworkers[w].doc, proposals, mentions))
    case KRaise(w) => w in s.kworkers && !s.kworkers[w].failed
    case KFail(w, now) => w in s.kworkers && s.kworkers[w].failed && s.kworkers[w].attempt > 0
    case KCrash(w) => w in s.kworkers
    case Extract(d, org, now) =>
      d in s.core.docs && s.core.docs[d].org == org && d !in s.core.locks && s.core.docs[d].status == DocReady
    case CreateEntity(org, f, _, chunks) => f !in s.graph.entities.facts && EvidenceGiven(s, org, chunks)
    case CreateRelationship(org, f, subject, target, chunks) =>
      && f !in s.graph.relations.facts && subject != target && EvidenceGiven(s, org, chunks)
      && IsConfirmedEntity(s, org, subject) && IsConfirmedEntity(s, org, target)
    case AcceptNew(org, p, f) =>
      && Reviewable(s, org, p) && s.graph.proposals[p].isEntity && f !in s.graph.entities.facts
      && EvidenceGiven(s, org, {s.graph.proposals[p].chunk})
    case AcceptExisting(org, p, f) =>
      && Reviewable(s, org, p) && s.graph.proposals[p].isEntity && IsEntityOf(s, org, f)
      && s.graph.entities.facts[f].detail == EntityOf(s.graph.proposals[p].kind)
    case AcceptRelationship(org, p, f, subject, target) =>
      && Reviewable(s, org, p) && !s.graph.proposals[p].isEntity && f !in s.graph.relations.facts
      && subject != target && EvidenceGiven(s, org, {s.graph.proposals[p].chunk})
      && IsConfirmedEntity(s, org, subject) && IsConfirmedEntity(s, org, target)
    case Reject(org, p) => Reviewable(s, org, p)
  }

  /** What worker w has decided to withdraw; nothing before it has looked. */
  function Decided(s: System, w: WorkerId): Verdict {
    if w in s.pending then s.pending[w] else Verdict({}, {})
  }

  /** Decisions are made by what is committed at the time, and end with their transaction. */
  ghost function PendingAfter(s: System, t: Step): map<WorkerId, Verdict>
    requires CanStep(s, t)
  {
    if !t.Ingestion? then s.pending
    else if t.a.Weigh? then
      s.pending[t.a.worker := VerdictOn(s.graph, RowsOf(s.core.chunks, Subject(s.core, t.a)).Keys)]
    else if t.a.CommitIndex? || t.a.CommitDelete? || t.a.Raise? || t.a.Crash? then s.pending - {t.a.worker}
    else s.pending
  }

  /** What a step does to the reviewed graph. A commit withdraws what its transaction had decided to. */
  ghost function GraphAfter(s: System, t: Step): Graph
    requires CanStep(s, t)
  {
    var g := s.graph;
    match t
    case Ingestion(a) =>
      if a.CommitIndex? || a.CommitDelete?
      then CarryOut(g, RowsOf(s.core.chunks, Subject(s.core, a)).Keys, Decided(s, a.worker)) else g
    case KFinish(w, proposals, mentions) =>
      if KPasses(s, s.kworkers[w]) then WithDrafts(g, s.kworkers[w].doc, proposals, mentions) else g
    case CreateEntity(org, f, kind, chunks) =>
      g.(entities := Insert(g.entities, f, Fact(org, Confirmed, EntityOf(kind)), chunks))
    case CreateRelationship(org, f, subject, target, chunks) =>
      g.(relations := Insert(g.relations, f, Fact(org, Confirmed, Edge(subject, target)), chunks))
    case AcceptNew(org, p, f) =>
      var it := g.proposals[p];
      Reviewed(g.(entities := Insert(g.entities, f, Fact(org, Confirmed, EntityOf(it.kind)), {it.chunk}),
                  mentions := Resolve(g.mentions, it, Linked)), p)
    case AcceptExisting(org, p, f) =>
      var it := g.proposals[p];
      Reviewed(g.(entities := Insert(g.entities, f, g.entities.facts[f].(status := Confirmed), {it.chunk}),
                  mentions := Resolve(g.mentions, it, Linked)), p)
    case AcceptRelationship(org, p, f, subject, target) =>
      var fact := Fact(org, Confirmed, Edge(subject, target));
      Reviewed(g.(relations := Insert(g.relations, f, fact, {g.proposals[p].chunk})), p)
    case Reject(org, p) =>
      Reviewed(if g.proposals[p].isEntity then g.(mentions := Resolve(g.mentions, g.proposals[p], Rejected)) else g, p)
    case _ => g
  }

  ghost function KJobsAfter(s: System, t: Step): map<DocId, KJob>
    requires CanStep(s, t)
  {
    match t
    case Ingestion(a) =>
      var d := Subject(s.core, a);
      if a.CommitIndex? then
        var doc := s.core.docs[d];
        s.kjobs[d := Enqueued(s.kjobs, d, doc.org, doc.generation, a.now)]
      else if a.CommitDelete? then s.kjobs - {d} else s.kjobs
    case KClaim(w, d, now) => s.kjobs[d := KClaimed(s.core.cfg, s.core.docs[d], s.kjobs[d], now)]
    case KFinish(w, _, _) =>
      var d := s.kworkers[w].doc;
      if KPasses(s, s.kworkers[w])
      then s.kjobs[d := s.kjobs[d].(status := Succeeded, error := NoError, lease := None)] else s.kjobs
    case KFail(w, now) =>
      var d := s.kworkers[w].doc;
      if KRecords(s, w)
      then s.kjobs[d := KFailedJob(s.core.cfg, s.kjobs[d], s.kworkers[w].attempt, now)] else s.kjobs
    case Extract(d, org, now) =>
      s.kjobs[d := Enqueued(s.kjobs, d, org, s.core.docs[d].generation, now)]
    case _ => s.kjobs
  }

  /** The failure handler's own check: it looks at the job alone. */
  predicate KRecords(s: System, w: WorkerId)
    requires w in s.kworkers
  {
    var k := s.kworkers[w];
    k.doc in s.kjobs && s.kjobs[k.doc].status == Processing && s.kjobs[k.doc].attempts == k.attempt
  }

  ghost function KWorkersAfter(s: System, t: Step): map<WorkerId, KWorker>
    requires CanStep(s, t)
  {
    match t
    case KClaim(w, d, now) =>
      var j := KClaimed(s.core.cfg, s.core.docs[d], s.kjobs[d], now);
      if j.status == Processing then s.kworkers[w := KWorker(d, j.attempts, j.round, false)] else s.kworkers
    case KFinish(w, _, _) => s.kworkers - {w}
    case KRaise(w) => s.kworkers[w := s.kworkers[w].(failed := true)]
    case KFail(w, _) => s.kworkers - {w}
    case KCrash(w) => s.kworkers - {w}
    case _ => s.kworkers
  }

  ghost function Next(s: System, t: Step): System
    requires CanStep(s, t)
  {
    System(if t.Ingestion? then Apply(s.core, t.a) else s.core, KJobsAfter(s, t), KWorkersAfter(s, t), GraphAfter(s, t),
           PendingAfter(s, t))
  }

  // ---------------------------------------------------------------- runs

  /** A fresh deployment: organizations, and nothing else yet. */
  function Init(cfg: Config, orgs: set<OrgId>): System {
    System(Core(cfg, orgs, map[], map[], map[], map[], map[], {}, map[], map[], map[]), map[], map[],
           Graph(Ledger(map[], {}, Archived), Ledger(map[], {}, Withdrawn), map[], map[]), map[])
  }

  /** states[i+1] is what steps[i] makes of states[i]. */
  ghost predicate IsPath(states: seq<System>, steps: seq<Step>) {
    && |states| == |steps| + 1
    && forall i :: 0 <= i < |steps| ==> CanStep(states[i], steps[i]) && states[i + 1] == Next(states[i], steps[i])
  }

  lemma PathGrows(states: seq<System>, steps: seq<Step>, t: Step)
    requires IsPath(states, steps) && CanStep(states[|steps|], t)
    ensures IsPath(states + [Next(states[|steps|], t)], steps + [t])
  {
  }

  ghost predicate IsRun(cfg: Config, orgs: set<OrgId>, states: seq<System>, steps: seq<Step>) {
    IsPath(states, steps) && states[0] == Init(cfg, orgs)
  }
}
