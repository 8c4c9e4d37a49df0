/** How often a job is tried, and how each try ends, told by the claims of the run: a job is given up exactly when it has
    had all its attempts or has failed in a way that no further attempt would mend. */
module Retries {
  import opened Tables
  import opened Ingestion
  import opened IngestionInvariant
  import opened System
  import opened SystemInvariant
  import opened Runs
  import opened Fencing

  // ---------------------------------------------------------------- the ingestion queue

  /** The tokens handed out for d since its last admission, before step i. */
  ghost function ClaimsBefore(states: seq<System>, steps: seq<Step>, d: DocId, i: nat): nat
    requires IsPath(states, steps) && i <= |steps|
  {
    Claims(History(states, steps, d)[..i])
  }

  lemma AttemptsSoFar(cfg: Config, orgs: set<OrgId>, states: seq<System>, steps: seq<Step>, d: DocId, i: nat)
    requires cfg.Valid() && IsRun(cfg, orgs, states, steps) && i <= |steps| && d in states[i].core.jobs
    ensures states[i].core.jobs[d].attempts == ClaimsBefore(states, steps, d, i) <= states[i].core.cfg.maxAttempts
  {
    RunIsHistory(cfg, orgs, states, steps, d);
    AttemptsAreClaims(Tickets(states, d), History(states, steps, d), i);
    RunKeepsSysInv(cfg, orgs, states, steps, i);
    assert SliceOk(states[i].core.cfg, d, View(states[i].core, d));
  }

  /** Worker w has taken the n-th attempt at d. */
  predicate Took(s: System, w: WorkerId, d: DocId, n: nat) {
    && w in s.core.workers && s.core.workers[w].doc == d && s.core.workers[w].attempt == n
    && d in s.core.jobs && s.core.jobs[d].status == Processing && s.core.jobs[d].attempts == n
  }

  /** The job of d has failed for good, for this reason, and so has the document. */
  predicate GivenUpFor(s: System, d: DocId, error: ErrorCode) {
    && d in s.core.jobs && s.core.jobs[d].status == Failed && s.core.jobs[d].error == error
    && d in s.core.docs && s.core.docs[d].status == DocFailed && s.core.docs[d].error == error
  }

  lemma ClaimOutcome(s: System, w: WorkerId, d: DocId, now: Time)
    requires CanStep(s, Ingestion(Claim(w, d, now))) && s.core.jobs[d].attempts <= s.core.cfg.maxAttempts
    ensures var n, s' := s.core.jobs[d].attempts, Next(s, Ingestion(Claim(w, d, now)));
            if n < s.core.cfg.maxAttempts then Took(s', w, d, n + 1)
            else GivenUpFor(s', d, RetriesExhausted) && s'.core.workers == s.core.workers
  {
  }

  /** A claim hands out a token, the next number since the admission, exactly while fewer than the configured number
      have been handed out since then; else it fails the job with RETRIES_EXHAUSTED. */
  lemma TokenHandedIff(cfg: Config, orgs: set<OrgId>, states: seq<System>, steps: seq<Step>, i: nat,
                       w: WorkerId, d: DocId, now: Time)
    requires cfg.Valid() && IsRun(cfg, orgs, states, steps) && i < |steps|
    requires steps[i] == Ingestion(Claim(w, d, now))
    ensures var n, s' := ClaimsBefore(states, steps, d, i), states[i + 1];
            if n < states[i].core.cfg.maxAttempts then Took(s', w, d, n + 1)
            else GivenUpFor(s', d, RetriesExhausted) && s'.core.workers == states[i].core.workers
  {
    assert CanStep(states[i], steps[i]) && states[i + 1] == Next(states[i], steps[i]);
    AttemptsSoFar(cfg, orgs, states, steps, d, i);
    ClaimOutcome(states[i], w, d, now);
  }

  /** The job of d waits for another attempt. */
  predicate WaitsAgain(s: System, d: DocId) {
    d in s.core.jobs && s.core.jobs[d].status == Queued && s.core.jobs[d].error == ProviderUnavailable
  }

  lemma FailureOutcome(s: System, w: WorkerId, now: Time)
    requires CanStep(s, Ingestion(CommitFailure(w, now)))
    requires TokenCurrent(ShareOf(s.core, w), s.core.workers[w].attempt)
    ensures var d, n, s' := s.core.workers[w].doc, s.core.workers[w].attempt, Next(s, Ingestion(CommitFailure(w, now)));
            match s.core.workers[w].phase.failure
            case Transient => if n < s.core.cfg.maxAttempts then WaitsAgain(s', d) else GivenUpFor(s', d, ProviderUnavailable)
            case Poison(code) => GivenUpFor(s', d, Permanent(code))
  {
  }

  /** A recorded failure puts the job back in the queue exactly when it may pass and attempts are left, counted by the
      claims since the admission; else the job has failed for good, with the code of the failure. */
  lemma RetriedWhen(cfg: Config, orgs: set<OrgId>, states: seq<System>, steps: seq<Step>, i: nat, w: WorkerId, now: Time)
    requires cfg.Valid() && IsRun(cfg, orgs, states, steps) && i < |steps|
    requires steps[i] == Ingestion(CommitFailure(w, now)) && w in states[i].core.workers
    requires TokenCurrent(ShareOf(states[i].core, w), states[i].core.workers[w].attempt)
    ensures states[i].core.workers[w].phase.Caught?
    ensures var d, s' := states[i].core.workers[w].doc, states[i + 1];
            match states[i].core.workers[w].phase.failure
            case Transient =>
              if ClaimsBefore(states, steps, d, i) < states[i].core.cfg.maxAttempts then WaitsAgain(s', d)
              else GivenUpFor(s', d, ProviderUnavailable)
            case Poison(code) => GivenUpFor(s', d, Permanent(code))
  {
    assert CanStep(states[i], steps[i]) && states[i + 1] == Next(states[i], steps[i]);
    AttemptsSoFar(cfg, orgs, states, steps, states[i].core.workers[w].doc, i);
    FailureOutcome(states[i], w, now);
  }

  // ---------------------------------------------------------------- the knowledge queue

  ghost function KClaimsBefore(states: seq<System>, steps: seq<Step>, d: DocId, i: nat): nat
    requires IsPath(states, steps) && i <= |steps|
  {
    Claims(KHistory(states, steps, d)[..i])
  }

  lemma KAttemptsSoFar(cfg: Config, orgs: set<OrgId>, states: seq<System>, steps: seq<Step>, d: DocId, i: nat)
    requires cfg.Valid() && IsRun(cfg, orgs, states, steps) && i <= |steps| && d in states[i].kjobs
    ensures states[i].kjobs[d].attempts == KClaimsBefore(states, steps, d, i) <= states[i].core.cfg.maxAttempts
  {
    KRunIsHistory(cfg, orgs, states, steps, d);
    AttemptsAreClaims(KTickets(states, d), KHistory(states, steps, d), i);
    RunKeepsSysInv(cfg, orgs, states, steps, i);
    assert KJobOk(states[i].core.cfg, states[i].core.docs, d, states[i].kjobs[d]);
  }

  predicate KTook(s: System, w: WorkerId, d: DocId, n: nat) {
    && w in s.kworkers && s.kworkers[w].doc == d && s.kworkers[w].attempt == n
    && d in s.kjobs && s.kjobs[d].status == Processing && s.kjobs[d].attempts == n
  }

  predicate KGivenUpFor(s: System, d: DocId, error: ErrorCode) {
    d in s.kjobs && s.kjobs[d].status == Failed && s.kjobs[d].error == error
  }

  lemma KClaimOutcome(s: System, w: WorkerId, d: DocId, now: Time)
    requires CanStep(s, KClaim(w, d, now)) && s.kjobs[d].attempts <= s.core.cfg.maxAttempts
    ensures var n, s', doc := s.kjobs[d].attempts, Next(s, KClaim(w, d, now)), s.core.docs[d];
            if doc.status != DocReady || doc.generation != s.kjobs[d].generation then
              KGivenUpFor(s', d, StaleDocument) && s'.kworkers == s.kworkers
            else if n < s.core.cfg.maxAttempts then KTook(s', w, d, n + 1)
            else KGivenUpFor(s', d, RetriesExhausted) && s'.kworkers == s.kworkers
  {
  }

  /** A claim hands out a token exactly when the document is READY, at the generation the job was made for, and
      attempts are left; else it fails the job, and the reason says which it was. */
  lemma KTokenHandedIff(cfg: Config, orgs: set<OrgId>, states: seq<System>, steps: seq<Step>, i: nat,
                        w: WorkerId, d: DocId, now: Time)
    requires cfg.Valid() && IsRun(cfg, orgs, states, steps) && i < |steps| && steps[i] == KClaim(w, d, now)
    ensures d in states[i].core.docs && d in states[i].kjobs
    ensures var n, s', doc := KClaimsBefore(states, steps, d, i), states[i + 1], states[i].core.docs[d];
            if doc.status != DocReady || doc.generation != states[i].kjobs[d].generation then
              KGivenUpFor(s', d, StaleDocument) && s'.kworkers == states[i].kworkers
            else if n < states[i].core.cfg.maxAttempts then KTook(s', w, d, n + 1)
            else KGivenUpFor(s', d, RetriesExhausted) && s'.kworkers == states[i].kworkers
  {
    assert CanStep(states[i], steps[i]) && states[i + 1] == Next(states[i], steps[i]);
    KAttemptsSoFar(cfg, orgs, states, steps, d, i);
    KClaimOutcome(states[i], w, d, now);
  }

  predicate KWaitsAgain(s: System, d: DocId) {
    d in s.kjobs && s.kjobs[d].status == Queued && s.kjobs[d].error == ProviderUnavailable
  }

  lemma KFailureOutcome(s: System, w: WorkerId, now: Time)
    requires CanStep(s, KFail(w, now)) && KTokenCurrent(s, s.kworkers[w])
    ensures var d, n, s' := s.kworkers[w].doc, s.kworkers[w].attempt, Next(s, KFail(w, now));
            if n < s.core.cfg.maxAttempts then KWaitsAgain(s', d) else KGivenUpFor(s', d, ExtractionFailed)
  {
  }

  /** A failed extraction waits for another attempt exactly while attempts are left, and has failed for good with
      EXTRACTION_FAILED otherwise: whatever went wrong, it is tried as often as any other. */
  lemma KRetriedWhen(cfg: Config, orgs: set<OrgId>, states: seq<System>, steps: seq<Step>, i: nat, w: WorkerId, now: Time)
    requires cfg.Valid() && IsRun(cfg, orgs, states, steps) && i < |steps|
    requires steps[i] == KFail(w, now) && w in states[i].kworkers && KTokenCurrent(states[i], states[i].kworkers[w])
    ensures var d, s' := states[i].kworkers[w].doc, states[i + 1];
            if KClaimsBefore(states, steps, d, i) < states[i].core.cfg.maxAttempts then KWaitsAgain(s', d)
            else KGivenUpFor(s', d, ExtractionFailed)
  {
    assert CanStep(states[i], steps[i]) && states[i + 1] == Next(states[i], steps[i]);
    KAttemptsSoFar(cfg, orgs, states, steps, states[i].kworkers[w].doc, i);
    KFailureOutcome(states[i], w, now);
  }
}
