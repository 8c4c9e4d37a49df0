/** The same for the knowledge queue: a job is claimed again after its lease or its delay, and not before, unless it was
    written in between. */
module KnowledgeLeases {
  import opened Tables
  import opened Ingestion
  import opened System
  import opened SystemInvariant
  import opened Runs
  import opened Fencing

  /** When a knowledge job may be claimed next. */
  function KDueAt(j: KJob): Option<Time> {
    match j.status
    case Queued => Some(j.availableAt)
    case Processing => j.lease
    case _ => None
  }

  /** Nothing happens to the knowledge job of d in the steps `i .. j`: no claim, no admission, no end of an attempt. */
  ghost predicate KUntouched(states: seq<System>, steps: seq<Step>, i: nat, j: nat, d: DocId)
    requires IsPath(states, steps) && j <= |steps|
  {
    Quiet(KHistory(states, steps, d), i, j)
  }

  /** v can claim d from `due` on, and not before. */
  ghost predicate KClaimableFrom(s: System, d: DocId, v: WorkerId, due: Time) {
    forall now: Time :: CanStep(s, KClaim(v, d, now)) <==> now >= due
  }

  /** The document is not locked, and v is not at work. */
  predicate KFree(s: System, d: DocId, v: WorkerId) {
    d !in s.core.locks && v !in s.kworkers
  }

  lemma KClaimIsDue(s: System, w: WorkerId, d: DocId, now: Time)
    requires CanStep(s, KClaim(w, d, now))
    ensures d in s.kjobs && KDueAt(s.kjobs[d]).Some? && KDueAt(s.kjobs[d]).value <= now
  {
  }

  lemma KClaimIffDue(s: System, d: DocId, due: Time, v: WorkerId, now: Time)
    requires SysInv(s) && d in s.kjobs && KDueAt(s.kjobs[d]) == Some(due) && KFree(s, d, v)
    ensures CanStep(s, KClaim(v, d, now)) <==> now >= due
  {
    assert KJobOk(s.core.cfg, s.core.docs, d, s.kjobs[d]);
  }

  lemma KWaits(states: seq<System>, steps: seq<Step>, i: nat, j: nat, d: DocId, due: Time, v: WorkerId, now: Time)
    requires IsPath(states, steps) && i <= j < |steps| && KUntouched(states, steps, i, j, d)
    requires d in states[i].kjobs && KDueAt(states[i].kjobs[d]) == Some(due)
    requires steps[j] == KClaim(v, d, now)
    ensures now >= due
  {
    KJobKept(states, steps, d, i, j);
    KClaimIsDue(states[j], v, d, now);
  }

  lemma KWaitsUntil(states: seq<System>, steps: seq<Step>, i: nat, j: nat, d: DocId, due: Time, v: WorkerId)
    requires IsPath(states, steps) && Reachable(states[0]) && i <= j <= |steps| && KUntouched(states, steps, i, j, d)
    requires d in states[i].kjobs && KDueAt(states[i].kjobs[d]) == Some(due) && KFree(states[j], d, v)
    ensures KClaimableFrom(states[j], d, v, due)
  {
    KJobKept(states, steps, d, i, j);
    ReachableInv(states[0]);
    PathKeepsSysInv(states, steps, j);
    forall now ensures CanStep(states[j], KClaim(v, d, now)) <==> now >= due {
      KClaimIffDue(states[j], d, due, v, now);
    }
  }

  // ---------------------------------------------------------------- what sets the time

  lemma KClaimSetsLease(s: System, w: WorkerId, d: DocId, now: Time)
    requires CanStep(s, KClaim(w, d, now))
    ensures var kjobs := Next(s, KClaim(w, d, now)).kjobs;
            && d in kjobs
            && (kjobs[d].status == Processing ==> KDueAt(kjobs[d]) == Some(now + s.core.cfg.leaseSeconds))
  {
  }

  lemma KFailureSetsDelay(s: System, w: WorkerId, now: Time)
    requires CanStep(s, KFail(w, now)) && KTokenCurrent(s, s.kworkers[w])
    ensures var d, kjobs := s.kworkers[w].doc, Next(s, KFail(w, now)).kjobs;
            && d in kjobs
            && (kjobs[d].status == Queued ==>
                  KDueAt(kjobs[d]) == Some(now + s.core.cfg.retrySeconds * Power2(s.kworkers[w].attempt - 1)))
  {
  }

  /** The step admits the knowledge job of d at t: the commit of its index, or a retry request. */
  predicate KRequests(s: System, step: Step, d: DocId, t: Time) {
    || (step.Extract? && step.doc == d && step.now == t)
    || (step.Ingestion? && step.a.CommitIndex? && step.a.now == t
        && step.a.worker in s.core.workers && s.core.workers[step.a.worker].doc == d)
  }

  lemma KRequestSetsDue(s: System, t: Step, d: DocId, now: Time)
    requires CanStep(s, t) && KRequests(s, t, d, now)
    ensures d in Next(s, t).kjobs && KDueAt(Next(s, t).kjobs[d]) == Some(now)
  {
  }

  // ---------------------------------------------------------------- over runs

  /** An extraction that was claimed is claimed again, without having ended, only after its lease. */
  lemma KLeaseIsRespected(states: seq<System>, steps: seq<Step>, i: nat, j: nat, d: DocId,
                          w: WorkerId, t: Time, v: WorkerId, t': Time)
    requires IsPath(states, steps) && i < j < |steps| && KUntouched(states, steps, i + 1, j, d)
    requires steps[i] == KClaim(w, d, t) && steps[j] == KClaim(v, d, t')
    requires d in states[i + 1].kjobs && states[i + 1].kjobs[d].status == Processing
    ensures t' >= t + states[i].core.cfg.leaseSeconds
  {
    LeasedUntil(states, steps, i, d, w, t);
    KWaits(states, steps, i + 1, j, d, t + states[i].core.cfg.leaseSeconds, v, t');
  }

  /** A failed extraction is followed by the next attempt only after a delay that doubles from attempt to attempt. */
  lemma KBackoffIsRespected(states: seq<System>, steps: seq<Step>, i: nat, j: nat, d: DocId,
                            w: WorkerId, t: Time, v: WorkerId, t': Time)
    requires IsPath(states, steps) && i < j < |steps| && KUntouched(states, steps, i + 1, j, d)
    requires steps[i] == KFail(w, t) && steps[j] == KClaim(v, d, t')
    requires w in states[i].kworkers && states[i].kworkers[w].doc == d && KTokenCurrent(states[i], states[i].kworkers[w])
    requires d in states[i + 1].kjobs && states[i + 1].kjobs[d].status == Queued
    ensures states[i].kworkers[w].attempt > 0
    ensures t' >= t + states[i].core.cfg.retrySeconds * Power2(states[i].kworkers[w].attempt - 1)
  {
    assert CanStep(states[i], steps[i]);
    KFailureSetsDelay(states[i], w, t);
    KWaits(states, steps, i + 1, j, d, KDueAt(states[i + 1].kjobs[d]).value, v, t');
  }

  lemma LeasedUntil(states: seq<System>, steps: seq<Step>, i: nat, d: DocId, w: WorkerId, t: Time)
    requires IsPath(states, steps) && i < |steps| && steps[i] == KClaim(w, d, t)
    requires d in states[i + 1].kjobs && states[i + 1].kjobs[d].status == Processing
    ensures KDueAt(states[i + 1].kjobs[d]) == Some(t + states[i].core.cfg.leaseSeconds)
  {
    assert states[i + 1] == Next(states[i], steps[i]);
    KClaimSetsLease(states[i], w, d, t);
  }

  /** It can be claimed again from the end of the lease on, and not before. */
  lemma KClaimedAgainIff(states: seq<System>, steps: seq<Step>, i: nat, j: nat, d: DocId, v: WorkerId)
    requires IsPath(states, steps) && Reachable(states[0]) && i < j <= |steps| && KUntouched(states, steps, i + 1, j, d)
    requires steps[i].KClaim? && steps[i].doc == d && KFree(states[j], d, v)
    requires d in states[i + 1].kjobs && states[i + 1].kjobs[d].status == Processing
    ensures KClaimableFrom(states[j], d, v, steps[i].now + states[i].core.cfg.leaseSeconds)
  {
    LeasedUntil(states, steps, i, d, steps[i].worker, steps[i].now);
    KWaitsUntil(states, steps, i + 1, j, d, KDueAt(states[i + 1].kjobs[d]).value, v);
  }

  /** After a failure it can be claimed from the end of the delay on, and not before. */
  lemma KRetriedIff(states: seq<System>, steps: seq<Step>, i: nat, j: nat, d: DocId,
                    w: WorkerId, t: Time, v: WorkerId)
    requires IsPath(states, steps) && Reachable(states[0]) && i < j <= |steps| && KUntouched(states, steps, i + 1, j, d)
    requires steps[i] == KFail(w, t) && KFree(states[j], d, v)
    requires w in states[i].kworkers && states[i].kworkers[w].doc == d && KTokenCurrent(states[i], states[i].kworkers[w])
    requires d in states[i + 1].kjobs && states[i + 1].kjobs[d].status == Queued
    ensures states[i].kworkers[w].attempt > 0
    ensures KClaimableFrom(states[j], d, v, t + states[i].core.cfg.retrySeconds * Power2(states[i].kworkers[w].attempt - 1))
  {
    assert CanStep(states[i], steps[i]);
    KFailureSetsDelay(states[i], w, t);
    KWaitsUntil(states, steps, i + 1, j, d, KDueAt(states[i + 1].kjobs[d]).value, v);
  }

  /** An extraction that was admitted at t can be claimed from t on. */
  lemma KAdmittedIsClaimable(states: seq<System>, steps: seq<Step>, i: nat, j: nat, d: DocId,
                             t: Time, v: WorkerId)
    requires IsPath(states, steps) && Reachable(states[0]) && i < j <= |steps| && KUntouched(states, steps, i + 1, j, d)
    requires KRequests(states[i], steps[i], d, t) && KFree(states[j], d, v)
    ensures KClaimableFrom(states[j], d, v, t)
  {
    assert CanStep(states[i], steps[i]);
    KRequestSetsDue(states[i], steps[i], d, t);
    KWaitsUntil(states, steps, i + 1, j, d, t, v);
  }
}
