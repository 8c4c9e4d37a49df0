/** What a caller may rely on in every state the backend can reach. */
module Guarantees {
  import opened Tables
  import opened RateLimit
  import opened Ingestion
  import opened IngestionInvariant
  import opened IngestionTheorems
  import opened System
  import opened SystemInvariant
  import opened Quiescence
  import opened Runs
  import Sums

  // ---------------------------------------------------------------- state by state

  /** One fixed table relates job, document and source. */
  lemma StatusAlwaysAgrees(s: System, d: DocId)
    requires Reachable(s)
    ensures d in s.core.docs <==> d in s.core.jobs
    ensures d in s.core.docs ==>
              && d in s.core.sources && !s.core.sources[d].deleted
              && Agree(s.core.jobs[d], s.core.docs[d], s.core.sources[d])
              && !(s.core.jobs[d].status == Succeeded && s.core.jobs[d].operation == Delete)
    ensures d in s.core.sources && d !in s.core.docs ==>
              s.core.sources[d].deleted && s.core.sources[d].state == SyncDeleted
  {
    ReachableInv(s);
    StatusAgreement(s.core, d);
  }

  /** No job of either queue is ever attempted more often than the limit. */
  lemma AttemptsAreBounded(s: System, d: DocId)
    requires Reachable(s)
    ensures d in s.core.jobs ==> s.core.jobs[d].attempts <= s.core.cfg.maxAttempts
    ensures d in s.kjobs ==> s.kjobs[d].attempts <= s.core.cfg.maxAttempts
  {
    ReachableInv(s);
    assert SliceOk(s.core.cfg, d, View(s.core, d));
    if d in s.kjobs { assert KJobOk(s.core.cfg, s.core.docs, d, s.kjobs[d]); }
  }

  /** Whatever a worker changes of a document, it changes with the current token and under the lock. */
  lemma EveryWriteIsFenced(s: System, a: Action, w: WorkerId, d: DocId)
    requires Reachable(s) && Enabled(s.core, a) && Actor(a) == Some(w)
    requires View(Apply(s.core, a), d) != View(s.core, d)
    ensures HasCurrentToken(s.core, w, d) && (d in s.core.locks ==> s.core.locks[d] == w)
  {
    ReachableInv(s);
    WritesAreFenced(s.core, a, w, d);
  }

  // ---------------------------------------------------------------- quotas

  /** Each organization is within its quota of documents, of bytes and of pending documents. */
  lemma QuotasAlwaysHold(s: System, org: OrgId)
    requires Reachable(s)
    ensures |DocsIn(s.core.docs, org)| <= s.core.cfg.maxDocuments
    ensures Sums.Total(SizesIn(s.core.docs, org)) <= s.core.cfg.maxStorageBytes
    ensures |PendingIn(s.core.docs, org)| <= s.core.cfg.maxPending
  {
    ReachableInv(s);
    assert QuotaOk(s.core, org);
  }

  // ---------------------------------------------------------------- the rate of admissions

  predicate Admits(t: Step, org: OrgId) {
    t.Ingestion? && (t.a.Upload? || (t.a.Requeue? && t.a.operation == Ingest)) && t.a.org == org
  }

  /** What the limiter wrote down for `org` in the first `n` steps. */
  ghost function LogOf(states: seq<System>, steps: seq<Step>, org: OrgId, n: nat): seq<Entry>
    requires |states| == |steps| + 1 && n <= |steps|
  {
    if n == 0 then []
    else
      LogOf(states, steps, org, n - 1) +
      (if Admits(steps[n - 1], org) && org in states[n].core.rates
       then [Entry(steps[n - 1].a.now, states[n].core.rates[org])] else [])
  }

  /** The clock as the steps read it, one reading a step, never going back. */
  ghost predicate IsClock(clock: seq<Time>, steps: seq<Step>, org: OrgId) {
    && |clock| == |steps|
    && (forall i, j :: 0 <= i <= j < |clock| ==> clock[i] <= clock[j])
    && (forall i :: 0 <= i < |steps| && Admits(steps[i], org) ==> steps[i].a.now == clock[i])
  }

  ghost predicate Recorded(log: seq<Entry>, rates: map<OrgId, Window>, org: OrgId, limit: nat) {
    && IsLog(log, limit)
    && (if log == [] then org !in rates else org in rates && rates[org] == log[|log| - 1].row)
  }

  lemma RateAfter(s: System, t: Step, org: OrgId)
    requires CanStep(s, t)
    ensures Next(s, t).core.cfg == s.core.cfg
    ensures !Admits(t, org) ==> At(Next(s, t).core.rates, org) == At(s.core.rates, org)
    ensures Admits(t, org) ==>
              && org in Next(s, t).core.rates
              && Consume(At(s.core.rates, org), t.a.now, s.core.cfg.uploadsPerMinute) == Some(Next(s, t).core.rates[org])
  {
  }

  lemma LogGrows(log: seq<Entry>, limit: nat, e: Entry)
    requires IsLog(log, limit)
    requires Consume(if log == [] then None else Some(log[|log| - 1].row), e.time, limit) == Some(e.row)
    requires log != [] ==> log[|log| - 1].time <= e.time
    ensures IsLog(log + [e], limit)
  {
    forall i: nat | i < |log + [e]| ensures Follows(log + [e], limit, i) {
      if i < |log| { assert Follows(log, limit, i); }
    }
  }

  lemma StepIsLogged(log: seq<Entry>, s: System, t: Step, s': System, org: OrgId)
    requires Recorded(log, s.core.rates, org, s.core.cfg.uploadsPerMinute) && CanStep(s, t) && s' == Next(s, t)
    requires Admits(t, org) && log != [] ==> log[|log| - 1].time <= t.a.now
    ensures s'.core.cfg == s.core.cfg && (Admits(t, org) ==> org in s'.core.rates)
    ensures var log' := if Admits(t, org) then log + [Entry(t.a.now, s'.core.rates[org])] else log;
            Recorded(log', s'.core.rates, org, s.core.cfg.uploadsPerMinute)
  {
    RateAfter(s, t, org);
    if Admits(t, org) {
      LogGrows(log, s.core.cfg.uploadsPerMinute, Entry(t.a.now, s'.core.rates[org]));
    }
  }

  /** What the log says so far, and that it is not ahead of the clock. */
  ghost predicate LoggedTo(states: seq<System>, steps: seq<Step>, clock: seq<Time>, org: OrgId, limit: nat, n: nat)
    requires |states| == |steps| + 1 && |clock| == |steps| && n <= |steps|
  {
    var log := LogOf(states, steps, org, n);
    && states[n].core.cfg.uploadsPerMinute == limit
    && Recorded(log, states[n].core.rates, org, limit)
    && (log != [] ==> n > 0 && log[|log| - 1].time <= clock[n - 1])
  }

  lemma LogsOneMore(states: seq<System>, steps: seq<Step>, clock: seq<Time>, org: OrgId, limit: nat, n: nat)
    requires |states| == |steps| + 1 && IsClock(clock, steps, org) && n < |steps|
    requires CanStep(states[n], steps[n]) && states[n + 1] == Next(states[n], steps[n])
    requires LoggedTo(states, steps, clock, org, limit, n)
    ensures LoggedTo(states, steps, clock, org, limit, n + 1)
  {
    var log := LogOf(states, steps, org, n);
    StepIsLogged(log, states[n], steps[n], states[n + 1], org);
    assert LogOf(states, steps, org, n + 1)
        == if Admits(steps[n], org) then log + [Entry(steps[n].a.now, states[n + 1].core.rates[org])] else log;
  }

  lemma {:induction false} RunIsLogged(states: seq<System>, steps: seq<Step>, clock: seq<Time>, org: OrgId,
                                       limit: nat, n: nat)
    requires IsPath(states, steps) && IsClock(clock, steps, org) && n <= |steps|
    requires LoggedTo(states, steps, clock, org, limit, 0)
    ensures LoggedTo(states, steps, clock, org, limit, n)
  {
    if n > 0 {
      RunIsLogged(states, steps, clock, org, limit, n - 1);
      LogsOneMore(states, steps, clock, org, limit, n - 1);
    }
  }

  /** Under a clock that does not go back, no sixty seconds of any run see more than 2 * limit - 1 admissions of
      one organization. */
  lemma AdmissionsPerMinute(cfg: Config, orgs: set<OrgId>, states: seq<System>, steps: seq<Step>,
                            clock: seq<Time>, org: OrgId, t: Time)
    requires cfg.Valid() && IsRun(cfg, orgs, states, steps) && IsClock(clock, steps, org)
    ensures |InMinute(LogOf(states, steps, org, |steps|), t)| <= 2 * cfg.uploadsPerMinute - 1
  {
    RunIsLogged(states, steps, clock, org, cfg.uploadsPerMinute, |steps|);
    SlidingBound(LogOf(states, steps, org, |steps|), cfg.uploadsPerMinute, t);
  }

  // ---------------------------------------------------------------- the queues drain

  /** Without new requests a run from any reachable state is no longer than its measure, and where it cannot go
      on every job of both queues has SUCCEEDED or FAILED. */
  lemma QueuesDrain(states: seq<System>, steps: seq<Step>)
    requires IsPath(states, steps) && Reachable(states[0])
    requires forall i :: 0 <= i < |steps| ==> IsWork(steps[i])
    ensures |steps| <= Measure(states[0])
    ensures Stuck(states[|steps|]) <==> Settled(states[|steps|])
  {
    ReachableInv(states[0]);
    WorkIsFinite(states, steps);
    PathKeepsSysInv(states, steps, |steps|);
    StuckIffSettled(states[|steps|]);
  }
}
