/** The hole in the fencing of the knowledge queue: a retry request sets `attempts` back to zero, so a worker that
    was overtaken twice can hold the number of a later claim. */
module KnowledgeRace {
  import opened Tables
  import opened Ingestion
  import opened Evidence
  import opened System
  import opened Runs
  import Knowledge

  /** A READY document whose extraction waits, untried. */
  ghost predicate Waiting(s: System, d: DocId) {
    && d in s.core.docs && s.core.docs[d].status == DocReady && d !in s.core.locks
    && d in s.kjobs && s.kjobs[d].status == Queued && s.kjobs[d].attempts == 0
    && s.kjobs[d].generation == s.core.docs[d].generation
    && s.core.cfg.maxAttempts >= 2
  }

  lemma StepReaches(s: System, step: Step, t: System)
    requires Reachable(s) && CanStep(s, step) && Next(s, step) == t
    ensures Reachable(t)
  {
    ReachableStep(s, step);
  }

  lemma JobCanBeClaimed(s: System, w: WorkerId, d: DocId, now: Time)
    requires d in s.core.docs && d !in s.core.locks && d in s.kjobs && w !in s.kworkers
    requires KEligible(s.kjobs[d], now)
    ensures CanStep(s, KClaim(w, d, now))
  {
  }

  lemma ClaimReaches(s: System, w: WorkerId, d: DocId, now: Time, t: System)
    requires Reachable(s) && d in s.core.docs && d !in s.core.locks && d in s.kjobs && w !in s.kworkers
    requires KEligible(s.kjobs[d], now) && t == Knowledge.AfterKClaim(s, w, d, now)
    ensures Reachable(t)
  {
    JobCanBeClaimed(s, w, d, now);
    Knowledge.KClaimResult(s, w, d, now);
    StepReaches(s, KClaim(w, d, now), t);
  }

  lemma AfterJobClaim(s: System, w: WorkerId, d: DocId, now: Time)
    requires d in s.core.docs && d in s.kjobs && !Stale(s.core.docs[d], s.kjobs[d])
    requires s.kjobs[d].attempts < s.core.cfg.maxAttempts
    ensures var j := s.kjobs[d];
            Knowledge.AfterKClaim(s, w, d, now) ==
              s.(kjobs := s.kjobs[d := j.(status := Processing, attempts := j.attempts + 1,
                                          lease := Some(now + s.core.cfg.leaseSeconds))],
                 kworkers := s.kworkers[w := KWorker(d, j.attempts + 1, j.round, false)])
  {
  }

  /** A job that can be claimed, is. */
  lemma ClaimJob(s: System, w: WorkerId, d: DocId, now: Time) returns (t: System)
    requires Reachable(s)
    requires d in s.core.docs && d !in s.core.locks && d in s.kjobs && w !in s.kworkers
    requires KEligible(s.kjobs[d], now) && !Stale(s.core.docs[d], s.kjobs[d])
    requires s.kjobs[d].attempts < s.core.cfg.maxAttempts
    ensures Reachable(t)
    ensures var j := s.kjobs[d];
            t == s.(kjobs := s.kjobs[d := j.(status := Processing, attempts := j.attempts + 1,
                                             lease := Some(now + s.core.cfg.leaseSeconds))],
                    kworkers := s.kworkers[w := KWorker(d, j.attempts + 1, j.round, false)])
  {
    t := Knowledge.AfterKClaim(s, w, d, now);
    AfterJobClaim(s, w, d, now);
    ClaimReaches(s, w, d, now, t);
  }

  /** An extraction that finds nothing succeeds. */
  lemma EmptyExtraction(s: System, w: WorkerId, d: DocId) returns (t: System)
    requires Reachable(s)
    requires w in s.kworkers && !s.kworkers[w].failed && s.kworkers[w].doc == d && d !in s.core.locks
    requires KPasses(s, s.kworkers[w]) && RowsOf(s.core.chunks, d) != map[]
    ensures Reachable(t) && t.core == s.core && t.kworkers == s.kworkers - {w}
    ensures t.kjobs == s.kjobs[d := s.kjobs[d].(status := Succeeded, error := NoError, lease := None)]
  {
    Knowledge.KFinishResult(s, w, map[], map[]);
    ReachableStep(s, KFinish(w, map[], map[]));
    t := Next(s, KFinish(w, map[], map[]));
  }

  lemma RetryRequest(s: System, d: DocId, now: Time) returns (t: System)
    requires Reachable(s)
    requires d in s.core.docs && d !in s.core.locks && s.core.docs[d].status == DocReady
    ensures Reachable(t)
    ensures t == s.(kjobs := s.kjobs[d := Enqueued(s.kjobs, d, s.core.docs[d].org, s.core.docs[d].generation, now)])
  {
    var step := Extract(d, s.core.docs[d].org, now);
    ReachableStep(s, step);
    t := Next(s, step);
  }

  lemma ReadyHasRows(s: System, d: DocId)
    requires Reachable(s) && d in s.core.docs && s.core.docs[d].status == DocReady
    ensures RowsOf(s.core.chunks, d) != map[]
  {
    IndexExactAlways(s, d);
  }

  /** Worker u claims and stalls; after its lease v claims, extracts and is done; a member asks for another
      extraction, and w claims it. The token u holds is accepted again, two claims too late. */
  lemma AnOvertakenExtractorPasses(s: System, d: DocId, u: WorkerId, v: WorkerId, w: WorkerId) returns (t: System)
    requires Reachable(s) && Waiting(s, d)
    requires u !in s.kworkers && v !in s.kworkers && w !in s.kworkers && u != v && v != w && u != w
    ensures Reachable(t) && u in t.kworkers && w in t.kworkers
    ensures KOvertaken(t, u) && KPasses(t, t.kworkers[u])
    ensures !KOvertaken(t, w) && KPasses(t, t.kworkers[w])
  {
    t := ClaimFirst(s, d, u);
    var expiry := t.kjobs[d].lease.value;
    t := Overtake(t, d, u, v, expiry);
    t := ClaimAnew(t, d, u, w, expiry);
  }

  lemma ClaimFirst(s: System, d: DocId, u: WorkerId) returns (t: System)
    requires Reachable(s) && Waiting(s, d) && u !in s.kworkers
    ensures Reachable(t) && Stalled(t, d, u) && t.kworkers.Keys == s.kworkers.Keys + {u}
    ensures t.kjobs[d].status == Processing && t.kjobs[d].attempts == 1 && t.kjobs[d].lease.Some?
  {
    ReadyHasRows(s, d);
    t := ClaimJob(s, u, d, s.kjobs[d].availableAt);
  }

  ghost predicate Stalled(s: System, d: DocId, u: WorkerId) {
    && d in s.core.docs && s.core.docs[d].status == DocReady && d !in s.core.locks
    && d in s.kjobs && s.kjobs[d].generation == s.core.docs[d].generation
    && s.core.cfg.maxAttempts >= 2 && RowsOf(s.core.chunks, d) != map[]
    && u in s.kworkers && s.kworkers[u] == KWorker(d, 1, s.kjobs[d].round, false)
  }

  lemma Overtake(s: System, d: DocId, u: WorkerId, v: WorkerId, now: Time) returns (t: System)
    requires Reachable(s) && Stalled(s, d, u) && v !in s.kworkers
    requires s.kjobs[d].status == Processing && s.kjobs[d].attempts == 1 && s.kjobs[d].lease == Some(now)
    ensures Reachable(t) && Stalled(t, d, u) && t.kworkers == s.kworkers
  {
    t := ClaimJob(s, v, d, now);
    t := EmptyExtraction(t, v, d);
  }

  lemma ClaimAnew(s: System, d: DocId, u: WorkerId, w: WorkerId, now: Time) returns (t: System)
    requires Reachable(s) && Stalled(s, d, u) && w !in s.kworkers
    ensures Reachable(t) && u in t.kworkers && w in t.kworkers
    ensures KOvertaken(t, u) && KPasses(t, t.kworkers[u])
    ensures !KOvertaken(t, w) && KPasses(t, t.kworkers[w])
  {
    t := RetryRequest(s, d, now);
    t := ClaimJob(t, w, d, now);
  }
}
