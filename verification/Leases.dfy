/** Leases and backoff over runs: nobody claims a job before its lease or its delay is over, and from then on anybody
    may. */
module Leases {
  import opened Tables
  import opened Ingestion
  import opened IngestionInvariant
  import opened System
  import opened SystemInvariant
  import opened Runs

  /** When a job may be claimed next. */
  function DueAt(j: Job): Option<Time> {
    match j.status
    case Queued => Some(j.availableAt)
    case Processing => j.lease
    case _ => None
  }

  /** A claim, an admission, or the end of an attempt; a failure whose token has been overtaken writes nothing. */
  ghost predicate WritesJob(c: Core, a: Action)
    requires Enabled(c, a)
  {
    || a.Claim? || a.Upload? || a.Requeue? || a.CommitIndex? || a.CommitDelete?
    || (a.CommitFailure? && TokenCurrent(ShareOf(c, a.worker), c.workers[a.worker].attempt))
  }

  /** The step writes the job of document d. */
  ghost predicate Rewrites(s: System, t: Step, d: DocId)
    requires CanStep(s, t)
  {
    t.Ingestion? && Subject(s.core, t.a) == d && WritesJob(s.core, t.a)
  }

  lemma OtherActionsKeepJob(c: Core, a: Action)
    requires Enabled(c, a) && !WritesJob(c, a)
    ensures After(c, a).job == At(c.jobs, Subject(c, a))
  {
  }

  lemma JobStays(s: System, t: Step, d: DocId)
    requires CanStep(s, t) && !Rewrites(s, t, d)
    ensures At(Next(s, t).core.jobs, d) == At(s.core.jobs, d)
  {
    if t.Ingestion? {
      assert Next(s, t).core.jobs == Set(s.core.jobs, Subject(s.core, t.a), After(s.core, t.a).job);
      if !WritesJob(s.core, t.a) { OtherActionsKeepJob(s.core, t.a); }
    }
  }

  lemma ClaimIsDue(s: System, w: WorkerId, d: DocId, now: Time)
    requires CanStep(s, Ingestion(Claim(w, d, now)))
    ensures d in s.core.jobs && DueAt(s.core.jobs[d]).Some? && DueAt(s.core.jobs[d]).value <= now
  {
  }

  /** Nothing writes the job of d in the steps `i .. j`. */
  ghost predicate Untouched(states: seq<System>, steps: seq<Step>, i: nat, j: nat, d: DocId)
    requires IsPath(states, steps) && j <= |steps|
  {
    forall k :: i <= k < j ==> CanStep(states[k], steps[k]) && !Rewrites(states[k], steps[k], d)
  }

  lemma {:induction false} JobWaits(states: seq<System>, steps: seq<Step>, i: nat, j: nat, d: DocId)
    requires IsPath(states, steps) && i <= j <= |steps| && Untouched(states, steps, i, j, d)
    ensures At(states[j].core.jobs, d) == At(states[i].core.jobs, d)
  {
    if i < j {
      JobWaits(states, steps, i, j - 1, d);
      assert CanStep(states[j - 1], steps[j - 1]) && !Rewrites(states[j - 1], steps[j - 1], d);
      JobStays(states[j - 1], steps[j - 1], d);
    }
  }

  lemma ClaimSetsLease(s: System, w: WorkerId, d: DocId, now: Time)
    requires CanStep(s, Ingestion(Claim(w, d, now)))
    ensures var jobs := Next(s, Ingestion(Claim(w, d, now))).core.jobs;
            && d in jobs
            && (jobs[d].status == Processing ==> DueAt(jobs[d]) == Some(now + s.core.cfg.leaseSeconds))
  {
  }

  lemma FailureSetsDelay(s: System, w: WorkerId, now: Time)
    requires CanStep(s, Ingestion(CommitFailure(w, now)))
    requires TokenCurrent(ShareOf(s.core, w), s.core.workers[w].attempt)
    ensures var d, jobs := s.core.workers[w].doc, Next(s, Ingestion(CommitFailure(w, now))).core.jobs;
            && d in jobs
            && (jobs[d].status == Queued ==>
                  DueAt(jobs[d]) == Some(now + s.core.cfg.retrySeconds * Power2(s.core.workers[w].attempt - 1)))
  {
  }

  lemma ClaimWaits(states: seq<System>, steps: seq<Step>, i: nat, j: nat, d: DocId, due: Time, v: WorkerId, now: Time)
    requires IsPath(states, steps) && i <= j < |steps| && Untouched(states, steps, i, j, d)
    requires d in states[i].core.jobs && DueAt(states[i].core.jobs[d]) == Some(due)
    requires steps[j] == Ingestion(Claim(v, d, now))
    ensures now >= due
  {
    JobWaits(states, steps, i, j, d);
    ClaimIsDue(states[j], v, d, now);
  }

  /** A job is claimed again without having been finished only after its lease. */
  lemma LeaseIsRespected(states: seq<System>, steps: seq<Step>, i: nat, j: nat, d: DocId,
                         w: WorkerId, t: Time, v: WorkerId, t': Time)
    requires IsPath(states, steps) && i < j < |steps| && Untouched(states, steps, i + 1, j, d)
    requires steps[i] == Ingestion(Claim(w, d, t)) && steps[j] == Ingestion(Claim(v, d, t'))
    requires d in states[i + 1].core.jobs && states[i + 1].core.jobs[d].status == Processing
    ensures t' >= t + states[i].core.cfg.leaseSeconds
  {
    ClaimSetsLease(states[i], w, d, t);
    ClaimWaits(states, steps, i + 1, j, d, t + states[i].core.cfg.leaseSeconds, v, t');
  }

  /** A failed attempt is followed by the next only after a delay that doubles from attempt to attempt. */
  lemma BackoffIsRespected(states: seq<System>, steps: seq<Step>, i: nat, j: nat, d: DocId,
                           w: WorkerId, t: Time, v: WorkerId, t': Time)
    requires IsPath(states, steps) && i < j < |steps| && Untouched(states, steps, i + 1, j, d)
    requires steps[i] == Ingestion(CommitFailure(w, t)) && steps[j] == Ingestion(Claim(v, d, t'))
    requires w in states[i].core.workers && states[i].core.workers[w].doc == d
    requires TokenCurrent(ShareOf(states[i].core, w), states[i].core.workers[w].attempt)
    requires d in states[i + 1].core.jobs && states[i + 1].core.jobs[d].status == Queued
    ensures states[i].core.workers[w].attempt > 0
    ensures t' >= t + states[i].core.cfg.retrySeconds * Power2(states[i].core.workers[w].attempt - 1)
  {
    FailureSetsDelay(states[i], w, t);
    ClaimWaits(states, steps, i + 1, j, d, DueAt(states[i + 1].core.jobs[d]).value, v, t');
  }

  // ---------------------------------------------------------------- exactly when it is due

  /** v can claim d from `due` on, and not before. */
  ghost predicate ClaimableFrom(s: System, d: DocId, v: WorkerId, due: Time) {
    forall now: Time :: CanStep(s, Ingestion(Claim(v, d, now))) <==> now >= due
  }

  /** The document is not locked, and v is not at work. */
  predicate Free(s: System, d: DocId, v: WorkerId) {
    d !in s.core.locks && v !in s.core.workers
  }

  lemma ClaimIffDue(s: System, d: DocId, due: Time, v: WorkerId, now: Time)
    requires SysInv(s) && d in s.core.jobs && DueAt(s.core.jobs[d]) == Some(due) && Free(s, d, v)
    ensures CanStep(s, Ingestion(Claim(v, d, now))) <==> now >= due
  {
    assert SliceOk(s.core.cfg, d, View(s.core, d));
  }

  lemma WaitsUntil(states: seq<System>, steps: seq<Step>, i: nat, j: nat, d: DocId, due: Time, v: WorkerId)
    requires IsPath(states, steps) && Reachable(states[0]) && i <= j <= |steps| && Untouched(states, steps, i, j, d)
    requires d in states[i].core.jobs && DueAt(states[i].core.jobs[d]) == Some(due) && Free(states[j], d, v)
    ensures ClaimableFrom(states[j], d, v, due)
  {
    JobWaits(states, steps, i, j, d);
    ReachableInv(states[0]);
    PathKeepsSysInv(states, steps, j);
    forall now ensures CanStep(states[j], Ingestion(Claim(v, d, now))) <==> now >= due {
      ClaimIffDue(states[j], d, due, v, now);
    }
  }

  /** A job that was claimed at t, and not written since, can be claimed again from the end of its lease on, and not
      before. */
  lemma ClaimedAgainIff(states: seq<System>, steps: seq<Step>, i: nat, j: nat, d: DocId,
                        w: WorkerId, t: Time, v: WorkerId)
    requires IsPath(states, steps) && Reachable(states[0]) && i < j <= |steps| && Untouched(states, steps, i + 1, j, d)
    requires steps[i] == Ingestion(Claim(w, d, t)) && Free(states[j], d, v)
    requires d in states[i + 1].core.jobs && states[i + 1].core.jobs[d].status == Processing
    ensures ClaimableFrom(states[j], d, v, t + states[i].core.cfg.leaseSeconds)
  {
    ClaimSetsLease(states[i], w, d, t);
    WaitsUntil(states, steps, i + 1, j, d, DueAt(states[i + 1].core.jobs[d]).value, v);
  }

  /** A job whose attempt failed at t and that waits for another can be claimed from the end of its delay on, and not
      before. */
  lemma RetriedIff(states: seq<System>, steps: seq<Step>, i: nat, j: nat, d: DocId,
                   w: WorkerId, t: Time, v: WorkerId)
    requires IsPath(states, steps) && Reachable(states[0]) && i < j <= |steps| && Untouched(states, steps, i + 1, j, d)
    requires steps[i] == Ingestion(CommitFailure(w, t)) && Free(states[j], d, v)
    requires w in states[i].core.workers && states[i].core.workers[w].doc == d
    requires TokenCurrent(ShareOf(states[i].core, w), states[i].core.workers[w].attempt)
    requires d in states[i + 1].core.jobs && states[i + 1].core.jobs[d].status == Queued
    ensures states[i].core.workers[w].attempt > 0
    ensures ClaimableFrom(states[j], d, v, t + states[i].core.cfg.retrySeconds * Power2(states[i].core.workers[w].attempt - 1))
  {
    FailureSetsDelay(states[i], w, t);
    WaitsUntil(states, steps, i + 1, j, d, DueAt(states[i + 1].core.jobs[d]).value, v);
  }

  /** The step is an upload of d, or a request to reindex or delete it, admitted at t. */
  predicate Requests(step: Step, d: DocId, t: Time) {
    step.Ingestion? && (step.a.Upload? || step.a.Requeue?) && step.a.doc == d && step.a.now == t
  }

  lemma RequestSetsDue(s: System, t: Step, d: DocId, now: Time)
    requires CanStep(s, t) && Requests(t, d, now)
    ensures d in Next(s, t).core.jobs && DueAt(Next(s, t).core.jobs[d]) == Some(now)
  {
  }

  /** A job that was admitted at t can be claimed from t on. */
  lemma AdmittedIsClaimable(states: seq<System>, steps: seq<Step>, i: nat, j: nat, d: DocId,
                            t: Time, v: WorkerId)
    requires IsPath(states, steps) && Reachable(states[0]) && i < j <= |steps| && Untouched(states, steps, i + 1, j, d)
    requires Requests(steps[i], d, t) && Free(states[j], d, v)
    ensures ClaimableFrom(states[j], d, v, t)
  {
    RequestSetsDue(states[i], steps[i], d, t);
    WaitsUntil(states, steps, i + 1, j, d, t, v);
  }
}
