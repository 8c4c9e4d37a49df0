/** Which requests the document endpoints admit, said by the jobs, the limits and the clock, and what becomes of a
    document that was admitted. */
module Admissions {
  import opened Tables
  import opened RateLimit
  import opened Ingestion
  import opened IngestionInvariant
  import opened IngestionTheorems
  import opened System
  import opened SystemInvariant
  import opened Runs
  import Sums

  // ---------------------------------------------------------------- who is let in

  predicate Open(s: JobStatus) {
    s == Queued || s == Processing
  }

  /** The documents of an organization whose job waits or is at work. */
  ghost function Waiting(c: Core, org: OrgId): set<DocId> {
    set d | d in c.docs && d in c.jobs && c.docs[d].org == org && Open(c.jobs[d].status)
  }

  /** The limiter has room: no window is open, or the one that is has not been used up. */
  predicate RateLeft(c: Core, org: OrgId, now: Time) {
    org in c.rates ==> now >= c.rates[org].start + 60 || c.rates[org].requests < c.cfg.uploadsPerMinute
  }

  lemma PendingIsWaiting(c: Core, org: OrgId)
    requires Inv(c)
    ensures PendingIn(c.docs, org) == Waiting(c, org)
  {
    forall d | d in c.docs ensures d in PendingIn(c.docs, org) <==> d in Waiting(c, org) {
      assert SliceOk(c.cfg, d, View(c, d));
    }
  }

  lemma RateIsLeft(c: Core, org: OrgId, now: Time)
    requires c.cfg.Valid()
    ensures Consume(At(c.rates, org), now, c.cfg.uploadsPerMinute).Some? <==> RateLeft(c, org, now)
  {
  }

  /** The request finds the document: of this organization, and nobody is working on it. */
  predicate Finds(c: Core, d: DocId, org: OrgId) {
    org in c.orgs && d in c.docs && c.docs[d].org == org && d !in c.locks && d in c.jobs
  }

  /** A reindex is admitted exactly when the document's job has ended, one way or the other, so that the document is
      READY or FAILED, and the organization has room for one more waiting document and one more request. */
  lemma ReindexAdmittedIff(c: Core, d: DocId, org: OrgId, now: Time)
    requires Inv(c)
    ensures Enabled(c, Requeue(d, org, Ingest, now)) <==>
              && Finds(c, d, org)
              && (c.jobs[d].status == Succeeded || c.jobs[d].status == Failed)
              && |Waiting(c, org)| < c.cfg.maxPending && RateLeft(c, org, now)
    ensures Finds(c, d, org) ==>
              (c.jobs[d].status == Succeeded || c.jobs[d].status == Failed <==>
                 c.docs[d].status == DocReady || c.docs[d].status == DocFailed)
  {
    assert SliceOk(c.cfg, d, View(c, d));
    PendingIsWaiting(c, org);
    RateIsLeft(c, org, now);
  }

  /** A delete is admitted unless a worker has claimed the job. It needs room only where the document is not waiting
      already, and is never held up by the limiter. */
  lemma DeleteAdmittedIff(c: Core, d: DocId, org: OrgId, now: Time)
    requires Inv(c)
    ensures Enabled(c, Requeue(d, org, Delete, now)) <==>
              && Finds(c, d, org) && c.jobs[d].status != Processing
              && (c.jobs[d].status == Queued || |Waiting(c, org)| < c.cfg.maxPending)
  {
    assert SliceOk(c.cfg, d, View(c, d));
    PendingIsWaiting(c, org);
  }

  /** A file is admitted exactly when it is neither empty nor too large and with it every quota still holds. */
  lemma UploadAdmittedIff(c: Core, d: DocId, org: OrgId, filename: string, size: nat, now: Time)
    requires Inv(c) && QuotasOk(c) && d !in c.sources && d !in c.files
    ensures Enabled(c, Upload(d, org, filename, size, now)) <==>
              && org in c.orgs && RateLeft(c, org, now)
              && 0 < size <= c.cfg.maxUploadBytes
              && |Waiting(c, org)| + 1 <= c.cfg.maxPending
              && |set e | e in c.docs && c.docs[e].org == org| + 1 <= c.cfg.maxDocuments
              && Sums.Total(SizesIn(c.docs, org)) + size <= c.cfg.maxStorageBytes
  {
    assert SliceOk(c.cfg, d, View(c, d));
    assert View(c, d).doc == At(c.docs, d) && View(c, d).job == At(c.jobs, d);
    assert DocsIn(c.docs, org) == set e | e in c.docs && c.docs[e].org == org;
    PendingIsWaiting(c, org);
    RateIsLeft(c, org, now);
  }

  /** What an admitted request leaves: the job waits, for what was asked and for its first attempt. A reindex is for
      the next generation, a delete for none. Nothing else of the document changes. */
  lemma AdmittedRequest(c: Core, d: DocId, org: OrgId, operation: Operation, now: Time)
    requires Enabled(c, Requeue(d, org, operation, now))
    ensures var c' := Apply(c, Requeue(d, org, operation, now));
            && d in c'.docs && d in c'.jobs
            && c'.jobs[d].operation == operation && c'.jobs[d].status == Queued && c'.jobs[d].attempts == 0
            && c'.jobs[d].error == NoError && c'.docs[d].error == NoError
            && c'.docs[d].generation == c.docs[d].generation + (if operation == Ingest then 1 else 0)
            && c'.docs[d].size == c.docs[d].size && c'.docs[d].org == c.docs[d].org
            && c'.docs[d].filename == c.docs[d].filename
            && RowsOf(c'.chunks, d) == RowsOf(c.chunks, d) && PointsOf(c'.points, d) == PointsOf(c.points, d)
            && c'.files == c.files
  {
  }

  // ---------------------------------------------------------------- a delete that was asked for

  /** The delete of d waits or is at work. */
  predicate Deleting(s: System, d: DocId) {
    d in s.core.docs && d in s.core.jobs && s.core.jobs[d].operation == Delete && Open(s.core.jobs[d].status)
  }

  /** In this step a worker gives the delete of d up. */
  predicate GivesUp(s: System, t: Step, s': System, d: DocId) {
    && Deleting(s, d) && t.Ingestion? && (t.a.Claim? || t.a.CommitFailure?)
    && d in s'.core.jobs && s'.core.jobs[d].status == Failed
  }

  lemma DeleteGoesOnHere(c: Core, a: Action)
    requires Enabled(c, a) && Subject(c, a) in c.docs && Subject(c, a) in c.jobs
    requires SliceOk(c.cfg, Subject(c, a), View(c, Subject(c, a)))
    requires Actor(a).Some? ==> WorkerOk(c.cfg, c.workers[a.worker], ShareOf(c, a.worker))
    requires c.jobs[Subject(c, a)].operation == Delete && Open(c.jobs[Subject(c, a)].status)
    ensures var t := After(c, a);
            || (a.CommitDelete? && t.doc.None?)
            || (t.doc.Some? && t.job.Some? && t.job.value.operation == Delete
                && (Open(t.job.value.status) || ((a.Claim? || a.CommitFailure?) && t.job.value.status == Failed)))
  {
  }

  lemma DeleteGoesOn(s: System, t: Step, d: DocId)
    requires SysInv(s) && CanStep(s, t) && Deleting(s, d)
    ensures d !in Next(s, t).core.docs || Deleting(Next(s, t), d) || GivesUp(s, t, Next(s, t), d)
  {
    if t.Ingestion? {
      StepShares(s.core, t.a, d);
      assert View(Next(s, t).core, d).doc == At(Next(s, t).core.docs, d);
      assert View(Next(s, t).core, d).job == At(Next(s, t).core.jobs, d);
      if Subject(s.core, t.a) == d {
        assert SliceOk(s.core.cfg, d, View(s.core, d));
        if Actor(t.a).Some? { assert WorkerOk(s.core.cfg, s.core.workers[t.a.worker], ShareOf(s.core, t.a.worker)); }
        DeleteGoesOnHere(s.core, t.a);
      }
    }
  }

  /** What a step may do to a document: its source stays, it does not come back, and a delete of it goes on or ends. */
  predicate Moves(s: System, t: Step, s': System, d: DocId) {
    && (d in s.core.docs ==> d in s'.core.sources)
    && (d in s.core.sources ==> d in s'.core.sources && (d !in s.core.docs ==> d !in s'.core.docs))
    && (Deleting(s, d) ==> d !in s'.core.docs || Deleting(s', d) || GivesUp(s, t, s', d))
  }

  lemma StepMoves(s: System, t: Step, d: DocId)
    requires SysInv(s) && CanStep(s, t)
    ensures Moves(s, t, Next(s, t), d)
  {
    assert SliceOk(s.core.cfg, d, View(s.core, d));
    if t.Ingestion? { DocumentMoves(s.core, t.a, d); }
    if Deleting(s, d) { DeleteGoesOn(s, t, d); }
  }

  lemma PathMoves(states: seq<System>, steps: seq<Step>, k: nat, d: DocId)
    requires IsPath(states, steps) && Reachable(states[0]) && k < |steps|
    ensures Moves(states[k], steps[k], states[k + 1], d)
  {
    ReachableInv(states[0]);
    PathKeepsSysInv(states, steps, k);
    assert CanStep(states[k], steps[k]) && states[k + 1] == Next(states[k], steps[k]);
    StepMoves(states[k], steps[k], d);
  }

  /** Between the states i and j a worker has given the delete up. */
  ghost predicate GivenUpBetween(states: seq<System>, steps: seq<Step>, i: nat, j: nat, d: DocId)
    requires |states| == |steps| + 1 && j <= |steps|
  {
    exists k :: i <= k < j && GivesUp(states[k], steps[k], states[k + 1], d)
  }

  lemma {:induction false} SourceAlong(states: seq<System>, steps: seq<Step>, i: nat, j: nat, d: DocId)
    requires |states| == |steps| + 1 && i <= j <= |steps| && d in states[i].core.sources
    requires forall k :: i <= k < j ==> Moves(states[k], steps[k], states[k + 1], d)
    ensures d in states[j].core.sources
  {
    if i < j {
      SourceAlong(states, steps, i, j - 1, d);
      assert Moves(states[j - 1], steps[j - 1], states[j], d);
    }
  }

  lemma {:induction false} DeleteAlong(states: seq<System>, steps: seq<Step>, i: nat, j: nat, d: DocId)
    requires |states| == |steps| + 1 && i <= j <= |steps| && Deleting(states[i], d) && d in states[i].core.sources
    requires forall k :: i <= k < j ==> Moves(states[k], steps[k], states[k + 1], d)
    ensures d !in states[j].core.docs || Deleting(states[j], d) || GivenUpBetween(states, steps, i, j, d)
  {
    if i < j {
      DeleteAlong(states, steps, i, j - 1, d);
      SourceAlong(states, steps, i, j - 1, d);
      assert Moves(states[j - 1], steps[j - 1], states[j], d);
    }
  }

  /** A delete that was admitted is never forgotten: at any later time the document is gone, or the delete still waits
      or is at work, or a worker has given it up in between. */
  lemma DeleteIsCarriedThrough(states: seq<System>, steps: seq<Step>, i: nat, j: nat, d: DocId, org: OrgId, now: Time)
    requires IsPath(states, steps) && Reachable(states[0]) && i < j <= |steps|
    requires steps[i] == Ingestion(Requeue(d, org, Delete, now))
    ensures d !in states[j].core.docs || Deleting(states[j], d) || GivenUpBetween(states, steps, i + 1, j, d)
  {
    assert CanStep(states[i], steps[i]) && states[i + 1] == Next(states[i], steps[i]);
    AdmittedRequest(states[i].core, d, org, Delete, now);
    forall k | i <= k < j ensures Moves(states[k], steps[k], states[k + 1], d) { PathMoves(states, steps, k, d); }
    DeleteAlong(states, steps, i + 1, j, d);
  }

  /** So no reindex takes its place: one that is admitted later was asked for after the delete had failed for good. */
  lemma NoReindexInstead(states: seq<System>, steps: seq<Step>, i: nat, j: nat, d: DocId,
                         org: OrgId, now: Time, org': OrgId, now': Time)
    requires IsPath(states, steps) && Reachable(states[0]) && i < j < |steps|
    requires steps[i] == Ingestion(Requeue(d, org, Delete, now)) && steps[j] == Ingestion(Requeue(d, org', Ingest, now'))
    ensures GivenUpBetween(states, steps, i + 1, j, d)
  {
    DeleteIsCarriedThrough(states, steps, i, j, d, org, now);
    ReachableInv(states[0]);
    PathKeepsSysInv(states, steps, j);
    assert CanStep(states[j], steps[j]);
    ReindexAdmittedIff(states[j].core, d, org', now');
  }

  // ---------------------------------------------------------------- what a document is

  /** The step is the upload that made this document. */
  predicate Made(t: Step, d: DocId, doc: Document) {
    && t.Ingestion? && t.a.Upload? && t.a.doc == d
    && t.a.org == doc.org && t.a.filename == doc.filename && t.a.size == doc.size
  }

  predicate SameFile(x: Document, y: Document) {
    x.org == y.org && x.filename == y.filename && x.size == y.size
  }

  lemma FileStays(s: System, t: Step, d: DocId)
    requires CanStep(s, t) && d in Next(s, t).core.docs
    ensures if t.Ingestion? && t.a.Upload? && t.a.doc == d then Made(t, d, Next(s, t).core.docs[d])
            else d in s.core.docs && SameFile(s.core.docs[d], Next(s, t).core.docs[d])
  {
    if t.Ingestion? {
      assert Next(s, t).core.docs == Set(s.core.docs, Subject(s.core, t.a), After(s.core, t.a).doc);
    }
  }

  predicate Uploads(t: Step, d: DocId) {
    t.Ingestion? && t.a.Upload? && t.a.doc == d
  }

  /** An upload takes a free id and uses it up; otherwise a document keeps its file. */
  predicate Carries(s: System, t: Step, s': System, d: DocId) {
    && (Uploads(t, d) ==> d !in s.core.sources && d in s'.core.sources)
    && (d in s.core.sources ==> d in s'.core.sources)
    && (d in s'.core.docs ==>
          if Uploads(t, d) then Made(t, d, s'.core.docs[d])
          else d in s.core.docs && SameFile(s.core.docs[d], s'.core.docs[d]))
  }

  lemma StepCarries(s: System, t: Step, d: DocId)
    requires CanStep(s, t) && Moves(s, t, Next(s, t), d)
    ensures Carries(s, t, Next(s, t), d)
  {
    if d in Next(s, t).core.docs { FileStays(s, t, d); }
  }

  lemma RunCarries(cfg: Config, orgs: set<OrgId>, states: seq<System>, steps: seq<Step>, k: nat, d: DocId)
    requires cfg.Valid() && IsRun(cfg, orgs, states, steps) && k < |steps|
    ensures Carries(states[k], steps[k], states[k + 1], d)
  {
    InitOk(cfg, orgs);
    PathKeepsSysInv(states, steps, k);
    assert CanStep(states[k], steps[k]) && states[k + 1] == Next(states[k], steps[k]);
    StepMoves(states[k], steps[k], d);
    StepCarries(states[k], steps[k], d);
  }

  lemma {:induction false} UploadAlong(states: seq<System>, steps: seq<Step>, j: nat, d: DocId) returns (k: nat)
    requires |states| == |steps| + 1 && j <= |steps| && d in states[j].core.docs && d !in states[0].core.docs
    requires forall k :: 0 <= k < j ==> Carries(states[k], steps[k], states[k + 1], d)
    ensures k < j && Made(steps[k], d, states[j].core.docs[d])
  {
    assert Carries(states[j - 1], steps[j - 1], states[j], d);
    k := j - 1;
    if !Uploads(steps[k], d) { k := UploadAlong(states, steps, j - 1, d); }
  }

  lemma {:induction false} TakenAlong(states: seq<System>, steps: seq<Step>, i: nat, j: nat, d: DocId)
    requires |states| == |steps| + 1 && i < j <= |steps| && Uploads(steps[i], d)
    requires forall k :: 0 <= k < j ==> Carries(states[k], steps[k], states[k + 1], d)
    ensures d in states[j].core.sources
  {
    assert Carries(states[j - 1], steps[j - 1], states[j], d);
    if i < j - 1 { TakenAlong(states, steps, i, j - 1, d); }
  }

  /** Every document of a run is one that was uploaded in it, under this name, for this organization and with this many
      bytes, which is what the byte quota adds up; and it was uploaded once. */
  lemma DocumentsAreUploads(cfg: Config, orgs: set<OrgId>, states: seq<System>, steps: seq<Step>, j: nat, d: DocId)
    returns (k: nat)
    requires cfg.Valid() && IsRun(cfg, orgs, states, steps) && j <= |steps| && d in states[j].core.docs
    ensures k < j && Made(steps[k], d, states[j].core.docs[d])
    ensures forall m :: 0 <= m < j && Uploads(steps[m], d) ==> m == k
  {
    forall m | 0 <= m < j ensures Carries(states[m], steps[m], states[m + 1], d) {
      RunCarries(cfg, orgs, states, steps, m, d);
    }
    k := UploadAlong(states, steps, j, d);
    forall m | 0 <= m < j && Uploads(steps[m], d) ensures m == k {
      if m < k { TakenAlong(states, steps, m, k, d); }
      if k < m { TakenAlong(states, steps, k, m, d); }
    }
  }
}
