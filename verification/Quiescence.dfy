/** Left alone, the two queues drain: every worker step makes a measure smaller, and when no worker step
    is left every job has SUCCEEDED or FAILED. */
module Quiescence {
  import opened Tables
  import opened Ingestion
  import opened IngestionInvariant
  import opened Evidence
  import opened System
  import opened SystemInvariant
  import Sums

  /** A step of a worker of either queue, or its death; not an HTTP request. */
  predicate IsWork(t: Step) {
    || (t.Ingestion? && (t.a.Claim? || Actor(t.a).Some?))
    || t.KClaim? || t.KFinish? || t.KRaise? || t.KFail? || t.KCrash?
  }

  predicate Terminal(s: JobStatus) {
    s == Succeeded || s == Failed
  }

  // ---------------------------------------------------------------- the measure

  /** What a knowledge job can still cost: three for each attempt left, one for giving up. */
  function KJobWeight(cfg: Config, j: KJob): nat {
    if Terminal(j.status) || j.attempts > cfg.maxAttempts then 0 else 3 * (cfg.maxAttempts - j.attempts) + 1
  }

  function KWorkerWeight(w: KWorker): nat {
    if w.failed then 1 else 2
  }

  /** An ingestion job also has to pay for the knowledge job its success spawns. */
  function JobWeight(cfg: Config, j: Job): nat {
    if Terminal(j.status) || j.attempts > cfg.maxAttempts then 0
    else 10 * (cfg.maxAttempts - j.attempts) + 3 * cfg.maxAttempts + 2
  }

  function WorkerWeight(w: Worker): nat {
    match w.phase
    case Claimed => 9
    case Fenced => 8
    case Clearing => 7
    case Cleared => 7
    case Weighed => 6
    case Planned(_) => 5
    case Writing(_, _) => 4
    case Written(_) => 4
    case Unlinked => 4
    case Caught(_) => 2
  }

  ghost function IngestionMeasure(c: Core): nat {
    Sums.Weigh(c.jobs, j => JobWeight(c.cfg, j)) + Sums.Weigh(c.workers, w => WorkerWeight(w))
  }

  ghost function KnowledgeMeasure(s: System): nat {
    Sums.Weigh(s.kjobs, j => KJobWeight(s.core.cfg, j)) + Sums.Weigh(s.kworkers, w => KWorkerWeight(w))
  }

  ghost function Measure(s: System): nat {
    IngestionMeasure(s.core) + KnowledgeMeasure(s)
  }

  // ---------------------------------------------------------------- the ingestion queue

  function Worth(cfg: Config, j: Option<Job>): nat {
    if j.Some? then JobWeight(cfg, j.value) else 0
  }

  function Effort(w: Option<Worker>): nat {
    if w.Some? then WorkerWeight(w.value) else 0
  }

  lemma WeighSet<K(!new), V>(m: map<K, V>, k: K, v: Option<V>, f: V -> nat)
    ensures Sums.Weigh(Set(m, k, v), f) + (if k in m then f(m[k]) else 0) ==
            Sums.Weigh(m, f) + (if v.Some? then f(v.value) else 0)
  {
    if v.Some? { Sums.WeighPut(m, k, v.value, f); } else { Sums.WeighDrop(m, k, f); }
  }

  /** Only the subject's job and the acting worker change weight. */
  lemma IngestionChange(c: Core, a: Action)
    requires Enabled(c, a) && (a.Claim? || Actor(a).Some?)
    ensures IngestionMeasure(Apply(c, a)) + Worth(c.cfg, At(c.jobs, Subject(c, a))) + Effort(At(c.workers, a.worker))
         == IngestionMeasure(c) + Worth(c.cfg, After(c, a).job) + Effort(At(Crew(c, a), a.worker))
  {
    JobsChange(c, a);
    CrewChange(c, a);
  }

  lemma JobsChange(c: Core, a: Action)
    requires Enabled(c, a) && (a.Claim? || Actor(a).Some?)
    ensures Sums.Weigh(Apply(c, a).jobs, j => JobWeight(Apply(c, a).cfg, j)) + Worth(c.cfg, At(c.jobs, Subject(c, a)))
         == Sums.Weigh(c.jobs, j => JobWeight(c.cfg, j)) + Worth(c.cfg, After(c, a).job)
  {
    var c', d := Apply(c, a), Subject(c, a);
    assert c'.jobs == Set(c.jobs, d, After(c, a).job) && c'.cfg == c.cfg;
    WeighSet(c.jobs, d, After(c, a).job, j => JobWeight(c.cfg, j));
  }

  lemma CrewChange(c: Core, a: Action)
    requires Enabled(c, a) && (a.Claim? || Actor(a).Some?)
    ensures Sums.Weigh(Apply(c, a).workers, w => WorkerWeight(w)) + Effort(At(c.workers, a.worker))
         == Sums.Weigh(c.workers, w => WorkerWeight(w)) + Effort(At(Crew(c, a), a.worker))
  {
    var c', w := Apply(c, a), a.worker;
    assert c'.workers == Crew(c, a) == Set(c.workers, w, At(Crew(c, a), w));
    WeighSet(c.workers, w, At(Crew(c, a), w), w => WorkerWeight(w));
  }

  /** Every step of an ingestion worker loses weight; a success loses enough for a knowledge job. */
  lemma IngestionDecreases(c: Core, a: Action)
    requires Inv(c) && Enabled(c, a) && (a.Claim? || Actor(a).Some?)
    ensures IngestionMeasure(Apply(c, a)) < IngestionMeasure(c)
    ensures a.CommitIndex? ==> IngestionMeasure(Apply(c, a)) + 3 * c.cfg.maxAttempts + 2 <= IngestionMeasure(c)
  {
    IngestionChange(c, a);
    if Actor(a).Some? { WorkerStepWeight(c, a); } else { ClaimWeight(c, a); }
  }

  /** A claim costs the job an attempt, and the worker it sends out weighs less than that. */
  lemma ClaimWeight(c: Core, a: Action)
    requires Inv(c) && Enabled(c, a) && a.Claim?
    ensures Worth(c.cfg, After(c, a).job) + Effort(At(Crew(c, a), a.worker))
          < Worth(c.cfg, At(c.jobs, Subject(c, a))) + Effort(At(c.workers, a.worker))
  {
    assert SliceOk(c.cfg, a.doc, View(c, a.doc));
  }

  lemma WorkerStepWeight(c: Core, a: Action)
    requires Inv(c) && Enabled(c, a) && Actor(a).Some?
    ensures Worth(c.cfg, After(c, a).job) <= Worth(c.cfg, View(c, Subject(c, a)).job)
    ensures Effort(At(Crew(c, a), a.worker)) < Effort(At(c.workers, a.worker))
    ensures a.CommitIndex? ==>
              Worth(c.cfg, After(c, a).job) == 0 && Worth(c.cfg, View(c, Subject(c, a)).job) >= 3 * c.cfg.maxAttempts + 2
  {
    WorkerJobWeight(c, a);
    WorkerEffort(c, a);
  }

  lemma WorkerJobWeight(c: Core, a: Action)
    requires Inv(c) && Enabled(c, a) && Actor(a).Some?
    ensures Worth(c.cfg, After(c, a).job) <= Worth(c.cfg, View(c, Subject(c, a)).job)
    ensures a.CommitIndex? ==>
              Worth(c.cfg, After(c, a).job) == 0 && Worth(c.cfg, View(c, Subject(c, a)).job) >= 3 * c.cfg.maxAttempts + 2
  {
    SettledOrSame(c, a);
    WorthDrops(c.cfg, ShareOf(c, a.worker).job, After(c, a).job);
    if a.CommitIndex? { CommitterIsWorth(c, a.worker); }
  }

  lemma WorthDrops(cfg: Config, j: Option<Job>, j': Option<Job>)
    requires || j' == j || j'.None?
             || (j.Some? && j'.Some? && j'.value.attempts == j.value.attempts
                 && (Terminal(j'.value.status) || j.value.status == Processing))
    ensures Worth(cfg, j') <= Worth(cfg, j)
  {
  }

  lemma CommitterIsWorth(c: Core, w: WorkerId)
    requires Inv(c) && w in c.workers && c.workers[w].phase.Written?
    ensures Worth(c.cfg, ShareOf(c, w).job) >= 3 * c.cfg.maxAttempts + 2
  {
    assert SliceOk(c.cfg, c.workers[w].doc, ShareOf(c, w)) && WorkerOk(c.cfg, c.workers[w], ShareOf(c, w));
  }

  /** A worker leaves the job alone, settles it or puts it back for another attempt, or it goes. */
  lemma SettledOrSame(c: Core, a: Action)
    requires Enabled(c, a) && Actor(a).Some?
    ensures var j, j' := ShareOf(c, a.worker).job, After(c, a).job;
            || j' == j || j'.None?
            || (j.Some? && j'.Some? && j'.value.attempts == j.value.attempts
                && (Terminal(j'.value.status) || (a.CommitFailure? && j.value.status == Processing)))
    ensures a.CommitIndex? ==> After(c, a).job.Some? && After(c, a).job.value.status == Succeeded
  {
  }

  lemma WorkerEffort(c: Core, a: Action)
    requires Enabled(c, a) && Actor(a).Some?
    ensures Effort(At(Crew(c, a), a.worker)) < Effort(At(c.workers, a.worker))
  {
  }

  // ---------------------------------------------------------------- the knowledge queue

  /** An ingestion commit can add at most one knowledge job's whole weight. */
  lemma KnowledgeUnderIngestion(s: System, t: Step)
    requires SysInv(s) && CanStep(s, t) && t.Ingestion?
    ensures KnowledgeMeasure(Next(s, t)) <=
              KnowledgeMeasure(s) + if t.a.CommitIndex? then 3 * s.core.cfg.maxAttempts + 1 else 0
  {
    var f := j => KJobWeight(s.core.cfg, j);
    if t.a.CommitIndex? {
      var d := Subject(s.core, t.a);
      Sums.WeighPut(s.kjobs, d, Next(s, t).kjobs[d], f);
    } else if t.a.CommitDelete? {
      Sums.WeighDrop(s.kjobs, Subject(s.core, t.a), f);
    }
  }

  function KDoc(s: System, t: Step): DocId
    requires CanStep(s, t) && IsWork(t) && !t.Ingestion?
  {
    if t.KClaim? then t.doc else s.kworkers[t.worker].doc
  }

  lemma KJobLoses(s: System, t: Step)
    requires SysInv(s) && CanStep(s, t) && IsWork(t) && !t.Ingestion?
    ensures var f, d, js := j => KJobWeight(s.core.cfg, j), KDoc(s, t), KJobsAfter(s, t);
            Sums.Weigh(js, f) + (if d in s.kjobs then f(s.kjobs[d]) else 0) ==
            Sums.Weigh(s.kjobs, f) + (if d in js then f(js[d]) else 0)
  {
    var f, d, js := j => KJobWeight(s.core.cfg, j), KDoc(s, t), KJobsAfter(s, t);
    if d in s.kjobs {
      assert js == s.kjobs[d := js[d]];
      Sums.WeighPut(s.kjobs, d, js[d], f);
    }
  }

  lemma KWorkerLoses(s: System, t: Step)
    requires SysInv(s) && CanStep(s, t) && IsWork(t) && !t.Ingestion?
    ensures var g, ws := w => KWorkerWeight(w), KWorkersAfter(s, t);
            Sums.Weigh(ws, g) + (if t.worker in s.kworkers then g(s.kworkers[t.worker]) else 0) ==
            Sums.Weigh(s.kworkers, g) + (if t.worker in ws then g(ws[t.worker]) else 0)
  {
    var g, ws := w => KWorkerWeight(w), KWorkersAfter(s, t);
    if t.worker in ws {
      assert ws == s.kworkers[t.worker := ws[t.worker]];
      Sums.WeighPut(s.kworkers, t.worker, ws[t.worker], g);
    } else {
      assert ws == s.kworkers - {t.worker};
      Sums.WeighDrop(s.kworkers, t.worker, g);
    }
  }

  /** The job and the worker of a step lose weight together. */
  lemma KPairLoses(s: System, t: Step)
    requires SysInv(s) && CanStep(s, t) && IsWork(t) && !t.Ingestion?
    ensures var d, js, ws := KDoc(s, t), KJobsAfter(s, t), KWorkersAfter(s, t);
            && (d in s.kjobs <==> d in js)
            && (if d in js then KJobWeight(s.core.cfg, js[d]) else 0) +
               (if t.worker in ws then KWorkerWeight(ws[t.worker]) else 0)
             < (if d in s.kjobs then KJobWeight(s.core.cfg, s.kjobs[d]) else 0) +
               (if t.worker in s.kworkers then KWorkerWeight(s.kworkers[t.worker]) else 0)
  {
    var d := KDoc(s, t);
    if d in s.kjobs {
      assert KJobOk(s.core.cfg, s.core.docs, d, s.kjobs[d]);
    }
  }

  lemma KnowledgeDecreases(s: System, t: Step)
    requires SysInv(s) && CanStep(s, t) && IsWork(t) && !t.Ingestion?
    ensures KnowledgeMeasure(Next(s, t)) < KnowledgeMeasure(s)
  {
    KJobLoses(s, t);
    KWorkerLoses(s, t);
    KPairLoses(s, t);
  }

  /** Every step of a worker of either queue, crashes included, makes the measure smaller. */
  lemma WorkDecreases(s: System, t: Step)
    requires SysInv(s) && CanStep(s, t) && IsWork(t)
    ensures Measure(Next(s, t)) < Measure(s)
  {
    if t.Ingestion? {
      IngestionDecreases(s.core, t.a);
      KnowledgeUnderIngestion(s, t);
    } else {
      KnowledgeDecreases(s, t);
    }
  }

  /** So with no new HTTP requests a run has at most as many steps as the measure it starts from. */
  lemma {:induction false} WorkIsFinite(states: seq<System>, steps: seq<Step>)
    requires IsPath(states, steps) && SysInv(states[0])
    requires forall i :: 0 <= i < |steps| ==> IsWork(steps[i])
    ensures |steps| + Measure(states[|steps|]) <= Measure(states[0])
    decreases |steps|
  {
    if steps != [] {
      var n := |steps| - 1;
      WorkIsFinite(states[..n + 1], steps[..n]);
      PathKeepsSysInv(states, steps, n);
      WorkDecreases(states[n], steps[n]);
    }
  }

  // ---------------------------------------------------------------- where it ends

  /** Nobody is at work and every job of both queues has SUCCEEDED or FAILED. */
  ghost predicate Settled(s: System) {
    && s.core.workers == map[] && s.kworkers == map[]
    && (forall d :: d in s.core.jobs ==> Terminal(s.core.jobs[d].status))
    && (forall d :: d in s.kjobs ==> Terminal(s.kjobs[d].status))
  }

  ghost predicate Stuck(s: System) {
    forall t :: IsWork(t) ==> !CanStep(s, t)
  }

  lemma OpenJobCanBeClaimed(s: System, d: DocId) returns (t: Step)
    requires SysInv(s) && s.core.workers == map[] && d in s.core.jobs && !Terminal(s.core.jobs[d].status)
    ensures IsWork(t) && CanStep(s, t)
  {
    var c := s.core;
    assert SliceOk(c.cfg, d, View(c, d));
    forall e: DocId ensures e !in c.locks { assert LockOwned(c, e); }
    var now := if c.jobs[d].status == Queued then c.jobs[d].availableAt else c.jobs[d].lease.value;
    assert Claimable(c, d, now);
    t := Ingestion(Claim(0, d, now));
  }

  lemma OpenKJobCanBeClaimed(s: System, d: DocId) returns (t: Step)
    requires SysInv(s) && s.core.workers == map[] && s.kworkers == map[]
    requires d in s.kjobs && !Terminal(s.kjobs[d].status)
    ensures IsWork(t) && CanStep(s, t)
  {
    assert KJobOk(s.core.cfg, s.core.docs, d, s.kjobs[d]);
    forall e: DocId ensures e !in s.core.locks { assert LockOwned(s.core, e); }
    var now := if s.kjobs[d].status == Queued then s.kjobs[d].availableAt else s.kjobs[d].lease.value;
    t := KClaim(0, d, now);
  }

  /** The queues can only stop in a settled state, and a settled state is where they stop. */
  lemma StuckIffSettled(s: System)
    requires SysInv(s)
    ensures Stuck(s) <==> Settled(s)
  {
    if Stuck(s) {
      if w :| w in s.core.workers { assert CanStep(s, Ingestion(Crash(w))); }
      if w :| w in s.kworkers { assert CanStep(s, KCrash(w)); }
      forall d | d in s.core.jobs ensures Terminal(s.core.jobs[d].status) {
        if !Terminal(s.core.jobs[d].status) { var t := OpenJobCanBeClaimed(s, d); }
      }
      forall d | d in s.kjobs ensures Terminal(s.kjobs[d].status) {
        if !Terminal(s.kjobs[d].status) { var t := OpenKJobCanBeClaimed(s, d); }
      }
    }
  }
}
