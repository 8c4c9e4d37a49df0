/** The knowledge worker and the review endpoints as they change rows. Each method is one transaction that has
    been granted the row locks it asks for; what it leaves is what a step of the state machine leads to, and an
    error leaves every row as it was. */
module Knowledge {
  import opened Tables
  import opened Ingestion
  import opened Evidence
  import opened Whole = System
  import Sums

  /** What an extraction proposes: proposals and mentions under their new keys. */
  datatype Drafts = Drafts(proposals: map<ProposalId, Proposal>, mentions: map<ProposalId, Mention>)

  const NO_DRAFTS := Drafts(map[], map[])

  /** The body of a review request. */
  datatype Decision = Decline | Approve(entity: Option<FactId>, subject: Option<FactId>, target: Option<FactId>)

  /** The step a review asks for, if the body fits the kind of the proposal. */
  function Asked(org: OrgId, p: ProposalId, isEntity: bool, decision: Decision, unused: FactId): Option<Step> {
    match decision
    case Decline => Some(Reject(org, p))
    case Approve(entity, subject, target) =>
      if isEntity then
        if subject.Some? || target.Some? then None
        else Some(if entity.Some? then AcceptExisting(org, p, entity.value) else AcceptNew(org, p, unused))
      else
        if subject.None? || target.None? || entity.Some? then None
        else Some(AcceptRelationship(org, p, unused, subject.value, target.value))
  }

  ghost predicate Granted(s: System, org: OrgId, p: ProposalId, decision: Decision, unused: FactId) {
    && p in s.graph.proposals
    && var t := Asked(org, p, s.graph.proposals[p].isEntity, decision, unused);
       t.Some? && CanStep(s, t.value)
  }

  /** No other transaction holds the documents of these chunks. */
  predicate Unlocked(c: Core, chunks: set<ChunkId>) {
    forall k :: k in chunks && k in c.chunks ==> c.chunks[k].document !in c.locks
  }

  /** The end of an extraction; without drafts only an overtaken worker gets there. */
  function Finish(w: WorkerId, drafts: Option<Drafts>): (t: Step)
    ensures t.KFinish?
  {
    var kept := if drafts.Some? then drafts.value else NO_DRAFTS;
    KFinish(w, kept.proposals, kept.mentions)
  }

  /** The document's job for a fresh start: the one there is, or a new one. */
  method StartOver(kjobs: map<DocId, KJob>, d: DocId, org: OrgId, generation: nat, now: Time) returns (job: KJob)
    ensures job == Enqueued(kjobs, d, org, generation, now)
  {
    if d in kjobs {
      job := kjobs[d].(round := kjobs[d].round + 1);
    } else {
      job := KJob(org, generation, Queued, 0, now, None, NoError, 0);
    }
    job := job.(generation := generation, status := Queued, attempts := 0);
    job := job.(availableAt := now, lease := None, error := NoError);
  }

  /** The mentions are resolved except those that are left. */
  ghost predicate ResolvedBut(was: map<ProposalId, Mention>, it: Proposal, to: ReviewStatus, left: set<ProposalId>,
                              rows: map<ProposalId, Mention>)
  {
    && rows.Keys == was.Keys
    && forall m :: m in was ==> rows[m] == if m !in left && IsFor(was[m], it) then was[m].(status := to) else was[m]
  }

  lemma ResolvesOne(was: map<ProposalId, Mention>, it: Proposal, to: ReviewStatus, left: set<ProposalId>,
                    rows: map<ProposalId, Mention>, m: ProposalId)
    requires ResolvedBut(was, it, to, left, rows) && m in left && m in rows
    ensures rows[m] == was[m]
    ensures ResolvedBut(was, it, to, left - {m}, if IsFor(rows[m], it) then rows[m := rows[m].(status := to)] else rows)
  {
  }

  lemma ResolvesAll(was: map<ProposalId, Mention>, it: Proposal, to: ReviewStatus, rows: map<ProposalId, Mention>)
    requires ResolvedBut(was, it, to, {}, rows)
    ensures rows == Resolve(was, it, to)
  {
  }

  class Desk {
    const core: Core
    const pending: map<WorkerId, Verdict>
    var kjobs: map<DocId, KJob>
    var kworkers: map<WorkerId, KWorker>
    var entities: Ledger
    var relations: Ledger
    var proposals: map<ProposalId, Proposal>
    var mentions: map<ProposalId, Mention>

    ghost function Graph(): Graph
      reads this
    {
      Evidence.Graph(entities, relations, proposals, mentions)
    }

    ghost function Contents(): System
      reads this
    {
      System(core, kjobs, kworkers, Graph(), pending)
    }

    constructor (s: System)
      ensures Contents() == s
    {
      core, kjobs, kworkers, pending := s.core, s.kjobs, s.kworkers, s.pending;
      entities, relations := s.graph.entities, s.graph.relations;
      proposals, mentions := s.graph.proposals, s.graph.mentions;
    }

    // -------------------------------------------------------------- the queue

    /** `enqueue_knowledge` */
    method EnqueueKnowledge(d: DocId, org: OrgId, generation: nat, now: Time)
      modifies this`kjobs
      ensures kjobs == old(kjobs)[d := Enqueued(old(kjobs), d, org, generation, now)]
    {
      var job := StartOver(kjobs, d, org, generation, now);
      kjobs := kjobs[d := job];
    }

    /** `retry_extraction` */
    method RetryExtraction(org: OrgId, d: DocId, now: Time) returns (reply: Reply)
      requires d !in core.locks
      modifies this`kjobs
      ensures reply == Done <==> CanStep(old(Contents()), Extract(d, org, now))
      ensures Contents() == if reply == Done then Next(old(Contents()), Extract(d, org, now)) else old(Contents())
      ensures reply == if d !in core.docs || core.docs[d].org != org then Refused(404)
                       else if core.docs[d].status != DocReady then Refused(409) else Done
    {
      if d !in core.docs || core.docs[d].org != org { return Refused(404); }
      if core.docs[d].status != DocReady { return Refused(409); }
      EnqueueKnowledge(d, org, core.docs[d].generation, now);
      reply := Done;
    }

    /** `claim`: the first claimable job, if there is one; `row` names it. The answer is empty also when that job
        is stale or out of attempts, and is failed on the spot. */
    method Claim(w: WorkerId, now: Time) returns (r: Option<(DocId, nat)>, ghost row: Option<DocId>)
      requires w !in kworkers
      modifies this`kjobs, this`kworkers
      ensures row.None? <==> forall d: DocId :: !KClaimable(old(Contents()), d, now)
      ensures row.None? ==> r.None? && Contents() == old(Contents())
      ensures row.Some? ==>
                && KIsNext(old(Contents()), row.value, now)
                && (forall e :: e in old(kjobs) && KClaimable(old(Contents()), e, now) ==>
                      || old(kjobs)[row.value].availableAt < old(kjobs)[e].availableAt
                      || (old(kjobs)[row.value].availableAt == old(kjobs)[e].availableAt && row.value <= e))
                && CanStep(old(Contents()), KClaim(w, row.value, now))
                && Contents() == Next(old(Contents()), KClaim(w, row.value, now))
                && (r.Some? <==> kjobs[row.value].status == Processing)
                && (r.Some? ==> r.value == (row.value, old(kjobs)[row.value].attempts + 1))
    {
      ghost var s := Contents();
      var ready := set d | d in kjobs && d in core.docs && d !in core.locks && KEligible(kjobs[d], now);
      if ready == {} {
        assert forall d: DocId :: KClaimable(s, d, now) ==> d in ready;
        return None, None;
      }
      KFirstExists(kjobs, ready);
      var d :| d in ready && KFirst(kjobs, ready, d);
      KFirstIsNext(s, ready, d, now);
      KClaimResult(s, w, d, now);
      row := Some(d);
      r := ClaimRow(w, d, now);
    }

    /** The job is looked at again, then claimed or failed. */
    method ClaimRow(w: WorkerId, d: DocId, now: Time) returns (r: Option<(DocId, nat)>)
      requires d in kjobs && d in core.docs
      modifies this`kjobs, this`kworkers
      ensures Contents() == AfterKClaim(old(Contents()), w, d, now)
      ensures r.Some? <==> KClaimed(core.cfg, core.docs[d], old(kjobs)[d], now).status == Processing
      ensures r.Some? ==> r.value == (d, old(kjobs)[d].attempts + 1)
    {
      var document, job := core.docs[d], kjobs[d];
      if document.status != DocReady || document.generation != job.generation {
        kjobs := kjobs[d := job.(status := Failed, error := StaleDocument, lease := None)];
        return None;
      }
      if job.attempts >= core.cfg.maxAttempts {
        kjobs := kjobs[d := job.(status := Failed, error := RetriesExhausted, lease := None)];
        return None;
      }
      job := job.(attempts := job.attempts + 1);
      job := job.(status := Processing, lease := Some(now + core.cfg.leaseSeconds));
      kjobs := kjobs[d := job];
      kworkers := kworkers[w := KWorker(d, job.attempts, job.round, false)];
      r := Some((d, job.attempts));
    }

    /** The extraction transaction of `run_once`. `drafts` is what the model proposes, or nothing when it cannot
        be asked or answers badly; then, or when the drafts do not fit, the transaction is rolled back. */
    method ExtractOnce(w: WorkerId, drafts: Option<Drafts>)
      returns (raised: bool)
      requires w in kworkers && !kworkers[w].failed && kworkers[w].doc !in core.locks
      modifies this`kjobs, this`kworkers, this`proposals, this`mentions
      ensures raised <==> KPasses(old(Contents()), old(kworkers)[w])
                          && (drafts.None? || !DraftsFit(old(Contents()), old(kworkers)[w].doc,
                                                         drafts.value.proposals, drafts.value.mentions))
      ensures raised ==> CanStep(old(Contents()), KRaise(w)) && Contents() == Next(old(Contents()), KRaise(w))
      ensures !raised ==>
                var t := Finish(w, drafts);
                CanStep(old(Contents()), t) && Contents() == Next(old(Contents()), t)
    {
      ghost var s := Contents();
      var d, attempt := kworkers[w].doc, kworkers[w].attempt;
      if d !in kjobs || d !in core.docs || kjobs[d].status != Processing || kjobs[d].attempts != attempt
         || kjobs[d].generation != core.docs[d].generation {
        KFinishResult(s, w, Finish(w, drafts).proposals, Finish(w, drafts).mentions);
        kworkers := kworkers - {w};
        return false;
      }
      var rows := System(core, kjobs, kworkers, Evidence.Graph(entities, relations, proposals, mentions), pending);
      if drafts.None? || !DraftsFit(rows, d, drafts.value.proposals, drafts.value.mentions) {
        KRaiseResult(s, w);
        kworkers := kworkers[w := kworkers[w].(failed := true)];
        return true;
      }
      KFinishResult(s, w, drafts.value.proposals, drafts.value.mentions);
      KeepDrafts(w, drafts.value.proposals, drafts.value.mentions);
      raised := false;
    }

    /** What is still unreviewed gives way to the new drafts, and the job is done. */
    method KeepDrafts(w: WorkerId, newProposals: map<ProposalId, Proposal>, newMentions: map<ProposalId, Mention>)
      requires w in kworkers && kworkers[w].doc in kjobs
      modifies this`kjobs, this`kworkers, this`proposals, this`mentions
      ensures Graph() == WithDrafts(old(Graph()), old(kworkers)[w].doc, newProposals, newMentions)
      ensures kworkers == old(kworkers) - {w}
      ensures var d := old(kworkers)[w].doc;
              kjobs == old(kjobs)[d := old(kjobs)[d].(status := Succeeded, error := NoError, lease := None)]
    {
      var d := kworkers[w].doc;
      proposals := proposals - set p | p in proposals && proposals[p].document == d && proposals[p].status == Proposed;
      mentions := mentions - set m | m in mentions && mentions[m].document == d && mentions[m].status == Proposed;
      proposals := proposals + newProposals;
      mentions := mentions + newMentions;
      kjobs := kjobs[d := kjobs[d].(status := Succeeded, error := NoError, lease := None)];
      kworkers := kworkers - {w};
    }

    /** The exception handler of `run_once`. */
    method RecordFailure(w: WorkerId, now: Time)
      requires w in kworkers && kworkers[w].failed && kworkers[w].attempt > 0
      modifies this`kjobs, this`kworkers
      ensures CanStep(old(Contents()), KFail(w, now)) && Contents() == Next(old(Contents()), KFail(w, now))
    {
      var d, attempt := kworkers[w].doc, kworkers[w].attempt;
      kworkers := kworkers - {w};
      if d !in kjobs || kjobs[d].status != Processing || kjobs[d].attempts != attempt { return; }
      var retry := attempt < core.cfg.maxAttempts;
      var job := kjobs[d].(status := if retry then Queued else Failed);
      job := job.(error := if retry then ProviderUnavailable else ExtractionFailed);
      job := job.(lease := None, availableAt := now + core.cfg.retrySeconds * Power2(attempt - 1));
      kjobs := kjobs[d := job];
    }

    /** `run_once`: claim, extract, and record what went wrong, as a path of the state machine. */
    method RunOnce(w: WorkerId, now: Time, drafts: Option<Drafts>, later: Time)
      returns (worked: bool, ghost states: seq<System>, ghost steps: seq<Step>)
      requires w !in kworkers
      modifies this`kjobs, this`kworkers, this`proposals, this`mentions
      ensures IsPath(states, steps) && states[0] == old(Contents()) && states[|steps|] == Contents()
      ensures w !in kworkers
      ensures worked <==> |steps| > 1
      ensures |steps| == 0 <==> forall d: DocId :: !KClaimable(old(Contents()), d, now)
    {
      states, steps := [Contents()], [];
      ghost var row;
      var selected;
      selected, row := Claim(w, now);
      if row.Some? {
        PathGrows(states, steps, KClaim(w, row.value, now));
        states, steps := states + [Contents()], steps + [KClaim(w, row.value, now)];
      }
      if selected.None? { return false, states, steps; }
      states, steps := RunClaimed(w, drafts, later, states, steps);
      worked := true;
    }

    /** The rest of `run_once`. */
    method RunClaimed(w: WorkerId, drafts: Option<Drafts>, later: Time, ghost states0: seq<System>, ghost steps0: seq<Step>)
      returns (ghost states: seq<System>, ghost steps: seq<Step>)
      requires w in kworkers && !kworkers[w].failed && kworkers[w].doc !in core.locks && kworkers[w].attempt > 0
      requires IsPath(states0, steps0) && states0[|steps0|] == Contents()
      modifies this`kjobs, this`kworkers, this`proposals, this`mentions
      ensures IsPath(states, steps) && states[0] == states0[0] && states[|steps|] == Contents()
      ensures w !in kworkers && |steps| > |steps0|
    {
      var raised := ExtractOnce(w, drafts);
      ghost var t := if raised then KRaise(w) else Finish(w, drafts);
      PathGrows(states0, steps0, t);
      states, steps := states0 + [Contents()], steps0 + [t];
      if raised {
        RecordFailure(w, later);
        PathGrows(states, steps, KFail(w, later));
        states, steps := states + [Contents()], steps + [KFail(w, later)];
      }
    }

    // -------------------------------------------------------------- review

    /** A READY document of the organization. */
    predicate Usable(d: DocId, org: OrgId) {
      d in core.docs && core.docs[d].org == org && core.docs[d].status == DocReady
    }

    /** `require_evidence` */
    method RequireEvidence(org: OrgId, chunks: set<ChunkId>) returns (reply: Reply)
      requires Unlocked(core, chunks) && chunks != {}
      ensures reply == Done <==> EvidenceGiven(Contents(), org, chunks)
      ensures reply == if exists k :: k in chunks && k in core.chunks && !Usable(core.chunks[k].document, org) then Refused(409)
                       else if chunks <= core.chunks.Keys then Done else Refused(400)
    {
      var documents := set k | k in chunks && k in core.chunks :: core.chunks[k].document;
      if !(forall d :: d in documents ==> Usable(d, org)) {
        var d :| d in documents && !Usable(d, org);
        return Refused(409);
      }
      if !(chunks <= core.chunks.Keys) {
        return Refused(400);
      }
      reply := Done;
    }

    /** `create_entity_record` */
    method CreateEntityRecord(org: OrgId, unused: FactId, kind: string, chunks: set<ChunkId>) returns (reply: Reply)
      requires Unlocked(core, chunks) && chunks != {} && unused !in entities.facts
      modifies this`entities
      ensures reply == Done <==> CanStep(old(Contents()), CreateEntity(org, unused, kind, chunks))
      ensures Contents() == if reply == Done then Next(old(Contents()), CreateEntity(org, unused, kind, chunks))
                            else old(Contents())
      ensures entities == if reply == Done
                          then Insert(old(entities), unused, Fact(org, Confirmed, EntityOf(kind)), chunks)
                          else old(entities)
    {
      reply := RequireEvidence(org, chunks);
      if reply != Done { return; }
      entities := entities.(facts := entities.facts[unused := Fact(org, Confirmed, EntityOf(kind))]);
      entities := entities.(links := entities.links + set k | k in chunks :: Link(unused, k));
    }

    predicate OfOrg(f: FactId, org: OrgId)
      reads this`entities
    {
      f in entities.facts && entities.facts[f].org == org
    }

    /** `create_relationship_record`, after the schema has checked that the ends differ. */
    method CreateRelationshipRecord(org: OrgId, unused: FactId, subject: FactId, target: FactId, chunks: set<ChunkId>)
      returns (reply: Reply)
      requires Unlocked(core, chunks) && chunks != {} && unused !in relations.facts
      modifies this`relations
      ensures reply == Done <==> CanStep(old(Contents()), CreateRelationship(org, unused, subject, target, chunks))
      ensures Contents() == if reply == Done
                            then Next(old(Contents()), CreateRelationship(org, unused, subject, target, chunks))
                            else old(Contents())
      ensures relations == if reply == Done
                           then Insert(old(relations), unused, Fact(org, Confirmed, Edge(subject, target)), chunks)
                           else old(relations)
      ensures subject == target ==> reply == Refused(422)
      ensures subject != target && !(OfOrg(subject, org) && OfOrg(target, org)) ==> reply == Refused(404)
      ensures subject != target && OfOrg(subject, org) && OfOrg(target, org) ==>
                !(entities.facts[subject].status == Confirmed == entities.facts[target].status) ==> reply == Refused(409)
    {
      if subject == target { return Refused(422); }
      if subject !in entities.facts || entities.facts[subject].org != org { return Refused(404); }
      if target !in entities.facts || entities.facts[target].org != org { return Refused(404); }
      if entities.facts[subject].status != Confirmed || entities.facts[target].status != Confirmed {
        return Refused(409);
      }
      reply := RequireEvidence(org, chunks);
      if reply != Done { return; }
      relations := relations.(facts := relations.facts[unused := Fact(org, Confirmed, Edge(subject, target))]);
      relations := relations.(links := relations.links + set k | k in chunks :: Link(unused, k));
    }

    /** The loops of `review_proposal` over the mentions of an entity proposal. */
    method ResolveMentions(it: Proposal, to: ReviewStatus)
      modifies this`mentions
      ensures mentions == Resolve(old(mentions), it, to)
    {
      var rows, left := mentions, mentions.Keys;
      while left != {}
        invariant mentions == old(mentions) && left <= rows.Keys && ResolvedBut(mentions, it, to, left, rows)
        decreases |left|
      {
        var m :| m in left;
        var x := rows[m];
        ResolvesOne(mentions, it, to, left, rows, m);
        if x.document == it.document && x.chunk == it.chunk && x.name == it.name && x.status == Proposed {
          rows := rows[m := x.(status := to)];
        }
        left := left - {m};
      }
      ResolvesAll(mentions, it, to, rows);
      mentions := rows;
    }

    /** The knowledge job of a READY document of the organization, for its current generation. */
    predicate InForce(d: DocId, org: OrgId)
      reads this`kjobs
    {
      Usable(d, org) && d in kjobs && kjobs[d].generation == core.docs[d].generation
    }

    /** The first checks of `review_proposal`. */
    method LockProposal(org: OrgId, p: ProposalId) returns (reply: Reply)
      requires p in proposals ==> proposals[p].document !in core.locks
      ensures reply == if p !in proposals || proposals[p].org != org then Refused(404)
                       else if !Reviewable(Contents(), org, p) then Refused(409) else Done
    {
      if p !in proposals || proposals[p].org != org { return Refused(404); }
      var d := proposals[p].document;
      if d !in kjobs || d !in core.docs || core.docs[d].org != org || core.docs[d].status != DocReady
         || kjobs[d].generation != core.docs[d].generation { return Refused(409); }
      if proposals[p].status != Proposed { return Refused(409); }
      reply := Done;
    }

    /** `review_proposal`. The last assignment runs after the reject branch too. */
    method ReviewProposal(org: OrgId, p: ProposalId, decision: Decision, unused: FactId) returns (reply: Reply)
      requires unused !in entities.facts && unused !in relations.facts
      requires p in proposals ==> proposals[p].document !in core.locks && Unlocked(core, {proposals[p].chunk})
      modifies this`entities, this`relations, this`proposals, this`mentions
      ensures reply == Done <==> Granted(old(Contents()), org, p, decision, unused)
      ensures reply == Done ==>
                Contents() == Next(old(Contents()), Asked(org, p, old(proposals)[p].isEntity, decision, unused).value)
      ensures reply != Done ==> Contents() == old(Contents())
      ensures p !in old(proposals) || old(proposals)[p].org != org ==> reply == Refused(404)
      ensures p in old(proposals) && old(proposals)[p].org == org ==>
                !(old(proposals)[p].status == Proposed && InForce(old(proposals)[p].document, org)) ==> reply == Refused(409)
      ensures reply == Done ==> p in old(proposals) && old(proposals)[p].org == org
                                && old(proposals)[p].status == Proposed && InForce(old(proposals)[p].document, org)
    {
      OnlyReviewable(Contents(), org, p, decision, unused);
      reply := LockProposal(org, p);
      if reply == Done {
        reply := Conclude(org, p, decision, unused);
      }
    }

    /** The rest of `review_proposal`, for a proposal that may be reviewed. */
    method Conclude(org: OrgId, p: ProposalId, decision: Decision, unused: FactId) returns (reply: Reply)
      requires p in proposals && Reviewable(Contents(), org, p) && Unlocked(core, {proposals[p].chunk})
      requires unused !in entities.facts && unused !in relations.facts
      modifies this`entities, this`relations, this`proposals, this`mentions
      ensures reply == Done <==> Granted(old(Contents()), org, p, decision, unused)
      ensures reply == Done ==>
                Contents() == Next(old(Contents()), Asked(org, p, old(proposals)[p].isEntity, decision, unused).value)
      ensures reply != Done ==> Contents() == old(Contents())
    {
      ghost var s := Contents();
      var it := proposals[p];
      match decision {
        case Decline =>
          Refuse(org, p);
        case Approve(entity, subject, target) =>
          reply := Accept(org, p, entity, subject, target, unused);
          if reply != Done { return; }
      }
      ReviewResult(s, Asked(org, p, it.isEntity, decision, unused).value);
      proposals := proposals[p := it.(status := Accepted)];
      reply := Done;
    }

    /** The rejecting branch. */
    method Refuse(org: OrgId, p: ProposalId)
      requires p in proposals && Reviewable(Contents(), org, p)
      modifies this`proposals, this`mentions
      ensures p in proposals && proposals[p] == old(proposals)[p].(status := Rejected)
      ensures Reviewed(Graph(), p) == GraphAfter(old(Contents()), Reject(org, p))
    {
      var it := proposals[p];
      proposals := proposals[p := it.(status := Rejected)];
      if it.isEntity { ResolveMentions(it, Rejected); }
    }

    /** The accepting branches of `review_proposal`. */
    method Accept(org: OrgId, p: ProposalId, entity: Option<FactId>, subject: Option<FactId>, target: Option<FactId>,
                  unused: FactId) returns (reply: Reply)
      requires p in proposals && Reviewable(Contents(), org, p) && Unlocked(core, {proposals[p].chunk})
      requires unused !in entities.facts && unused !in relations.facts
      modifies this`entities, this`relations, this`mentions
      ensures reply == Done <==> Granted(old(Contents()), org, p, Approve(entity, subject, target), unused)
      ensures reply == Done ==>
                var t := Asked(org, p, proposals[p].isEntity, Approve(entity, subject, target), unused).value;
                Reviewed(Graph(), p) == GraphAfter(old(Contents()), t)
      ensures reply != Done ==> Graph() == old(Graph())
    {
      if proposals[p].isEntity {
        reply := AcceptEntity(org, p, entity, subject, target, unused);
      } else {
        reply := AcceptRelation(org, p, entity, subject, target, unused);
      }
    }

    /** The entity branch of `review_proposal`. */
    method AcceptEntity(org: OrgId, p: ProposalId, entity: Option<FactId>, subject: Option<FactId>,
                        target: Option<FactId>, unused: FactId) returns (reply: Reply)
      requires p in proposals && Unlocked(core, {proposals[p].chunk}) && unused !in entities.facts
      modifies this`entities, this`mentions
      ensures reply == Done <==>
                && subject.None? && target.None?
                && (entity.Some? ==> IsEntityOf(old(Contents()), org, entity.value)
                                     && old(entities).facts[entity.value].detail == EntityOf(proposals[p].kind))
                && (entity.None? ==> EvidenceGiven(old(Contents()), org, {proposals[p].chunk}))
      ensures reply != Done ==> entities == old(entities) && mentions == old(mentions)
      ensures reply == Done ==>
                && mentions == Resolve(old(mentions), proposals[p], Linked)
                && var it := proposals[p];
                   entities == if entity.None?
                               then Insert(old(entities), unused, Fact(org, Confirmed, EntityOf(it.kind)), {it.chunk})
                               else Insert(old(entities), entity.value,
                                           old(entities).facts[entity.value].(status := Confirmed), {it.chunk})
    {
      var it := proposals[p];
      if subject.Some? || target.Some? { return Refused(400); }
      var f := unused;
      if entity.Some? {
        f := entity.value;
        if f !in entities.facts || entities.facts[f].org != org { return Refused(404); }
        if entities.facts[f].detail != EntityOf(it.kind) { return Refused(409); }
        entities := entities.(links := entities.links + {Link(f, it.chunk)});
      } else {
        reply := CreateEntityRecord(org, unused, it.kind, {it.chunk});
        if reply != Done { return; }
      }
      entities := entities.(facts := entities.facts[f := entities.facts[f].(status := Confirmed)]);
      assert (set k | k in {it.chunk} :: Link(f, k)) == {Link(f, it.chunk)};
      ResolveMentions(it, Linked);
      reply := Done;
    }

    /** The relationship branch of `review_proposal`. */
    method AcceptRelation(org: OrgId, p: ProposalId, entity: Option<FactId>, subject: Option<FactId>,
                          target: Option<FactId>, unused: FactId) returns (reply: Reply)
      requires p in proposals && Unlocked(core, {proposals[p].chunk}) && unused !in relations.facts
      modifies this`relations
      ensures reply == Done <==>
                && subject.Some? && target.Some? && entity.None?
                && CanStep(old(Contents()),
                           CreateRelationship(org, unused, subject.value, target.value, {proposals[p].chunk}))
      ensures relations == if reply == Done
                           then Insert(old(relations), unused, Fact(org, Confirmed, Edge(subject.value, target.value)),
                                       {proposals[p].chunk})
                           else old(relations)
    {
      if subject.None? || target.None? || entity.Some? { return Refused(400); }
      reply := CreateRelationshipRecord(org, unused, subject.value, target.value, {proposals[p].chunk});
    }
  }

  lemma OnlyReviewable(s: System, org: OrgId, p: ProposalId, decision: Decision, unused: FactId)
    ensures Granted(s, org, p, decision, unused) ==> Reviewable(s, org, p)
  {
  }

  // ---------------------------------------------------------------- what a decision means

  /** Fact f is in the table, CONFIRMED, with this chunk as evidence besides what it had. */
  ghost predicate Gains(was: Ledger, now: Ledger, f: FactId, org: OrgId, chunk: ChunkId) {
    && f in now.facts && now.facts[f].status == Confirmed && now.facts[f].org == org
    && (forall g :: g != f ==> (g in now.facts <==> g in was.facts) && (g in was.facts ==> now.facts[g] == was.facts[g]))
    && (forall l :: l in now.links <==> l in was.links || l == Link(f, chunk))
  }

  /** What a granted review does. A rejection touches no fact. Accepting an entity proposal names no ends; it makes a new
      entity of the proposed kind, or adds the chunk to the evidence of the entity it names, which is of that kind.
      Accepting a relationship proposal names both ends, and makes a relationship from the one to the other. */
  lemma DecisionMeans(s: System, org: OrgId, p: ProposalId, decision: Decision, unused: FactId)
    requires Granted(s, org, p, decision, unused)
    ensures var it := s.graph.proposals[p];
            var t := Asked(org, p, it.isEntity, decision, unused).value;
            var was, now := s.graph, Next(s, t).graph;
            && p in now.proposals && now.proposals[p] == it.(status := Accepted)
            && match decision
               case Decline => now.entities == was.entities && now.relations == was.relations
               case Approve(entity, subject, target) =>
                 if it.isEntity then
                   && subject.None? && target.None? && now.relations == was.relations
                   && var f := if entity.Some? then entity.value else unused;
                   && (f in was.entities.facts <==> entity.Some?)
                   && Gains(was.entities, now.entities, f, org, it.chunk) && now.entities.facts[f].detail == EntityOf(it.kind)
                 else
                   && entity.None? && subject.Some? && target.Some? && now.entities == was.entities
                   && unused !in was.relations.facts
                   && Gains(was.relations, now.relations, unused, org, it.chunk)
                   && now.relations.facts[unused].detail == Edge(subject.value, target.value)
  {
    assert (set k | k in {s.graph.proposals[p].chunk} :: Link(unused, k)) == {Link(unused, s.graph.proposals[p].chunk)};
    if decision.Approve? && decision.entity.Some? {
      var f := decision.entity.value;
      assert (set k | k in {s.graph.proposals[p].chunk} :: Link(f, k)) == {Link(f, s.graph.proposals[p].chunk)};
    }
  }

  // ---------------------------------------------------------------- steps with their effect written out

  function AfterKClaim(s: System, w: WorkerId, d: DocId, now: Time): System
    requires d in s.kjobs && d in s.core.docs
  {
    var j := KClaimed(s.core.cfg, s.core.docs[d], s.kjobs[d], now);
    s.(kjobs := s.kjobs[d := j],
       kworkers := if !Stale(s.core.docs[d], s.kjobs[d]) && s.kjobs[d].attempts < s.core.cfg.maxAttempts
                   then s.kworkers[w := KWorker(d, j.attempts, j.round, false)] else s.kworkers)
  }

  lemma KClaimResult(s: System, w: WorkerId, d: DocId, now: Time)
    requires CanStep(s, KClaim(w, d, now))
    ensures Next(s, KClaim(w, d, now)) == AfterKClaim(s, w, d, now)
  {
  }

  lemma KFinishResult(s: System, w: WorkerId, ps: map<ProposalId, Proposal>, ms: map<ProposalId, Mention>)
    requires CanStep(s, KFinish(w, ps, ms))
    ensures var d := s.kworkers[w].doc;
            Next(s, KFinish(w, ps, ms)) ==
              if KPasses(s, s.kworkers[w])
              then s.(kjobs := s.kjobs[d := s.kjobs[d].(status := Succeeded, error := NoError, lease := None)],
                      kworkers := s.kworkers - {w}, graph := WithDrafts(s.graph, d, ps, ms))
              else s.(kworkers := s.kworkers - {w})
  {
  }

  lemma KRaiseResult(s: System, w: WorkerId)
    requires CanStep(s, KRaise(w))
    ensures Next(s, KRaise(w)) == s.(kworkers := s.kworkers[w := s.kworkers[w].(failed := true)])
  {
  }

  lemma ReviewResult(s: System, t: Step)
    requires CanStep(s, t) && (t.Reject? || t.AcceptNew? || t.AcceptExisting? || t.AcceptRelationship?)
    ensures Next(s, t) == s.(graph := GraphAfter(s, t))
  {
  }

  // ---------------------------------------------------------------- the next job

  lemma KFirstIsNext(s: System, ds: set<DocId>, d: DocId, now: Time)
    requires ds <= s.kjobs.Keys && KFirst(s.kjobs, ds, d)
    requires forall e :: e in ds <==> e in s.kjobs && KClaimable(s, e, now)
    ensures KIsNext(s, d, now)
  {
  }

  predicate KFirst(kjobs: map<DocId, KJob>, ds: set<DocId>, d: DocId)
    requires ds <= kjobs.Keys
  {
    d in ds && forall e :: e in ds ==>
      || kjobs[d].availableAt < kjobs[e].availableAt
      || (kjobs[d].availableAt == kjobs[e].availableAt && d <= e)
  }

  lemma KFirstExists(kjobs: map<DocId, KJob>, ds: set<DocId>)
    requires ds != {} && ds <= kjobs.Keys
    ensures exists d :: d in ds && KFirst(kjobs, ds, d)
  {
    var when := e => if e in kjobs then kjobs[e].availableAt else 0;
    var first := Sums.Earliest(when, ds);
    assert KFirst(kjobs, ds, first);
  }
}
