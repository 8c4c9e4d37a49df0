/** Concrete runs from the empty database, put together from stretches of steps. What is known of a state on the way
    is each document's share and the rest of the tables. */
module Traces {
  import opened Tables
  import opened RateLimit
  import opened Ingestion
  import opened IngestionInvariant
  import opened Evidence
  import opened System
  import opened SystemInvariant
  import opened Runs
  import Sums

  datatype Trace = Trace(states: seq<System>, steps: seq<Step>)

  ghost predicate IsTrace(r: Trace) {
    IsRun(LIMITS, {0}, r.states, r.steps)
  }

  ghost function End(r: Trace): System
    requires IsTrace(r)
  {
    r.states[|r.steps|]
  }

  /** r' goes on where r ends. */
  ghost predicate GoesOn(r: Trace, r': Trace) {
    IsTrace(r') && r.states <= r'.states
  }

  lemma FromNothing() returns (r: Trace)
    ensures IsTrace(r) && End(r) == Init(LIMITS, {0})
  {
    r := Trace([Init(LIMITS, {0})], []);
  }

  lemma Grow(r: Trace, t: Step) returns (r': Trace)
    requires IsTrace(r) && CanStep(End(r), t)
    ensures GoesOn(r, r') && End(r') == Next(End(r), t)
  {
    PathGrows(r.states, r.steps, t);
    r' := Trace(r.states + [Next(End(r), t)], r.steps + [t]);
  }

  lemma InOrder(r: Trace)
    requires IsTrace(r)
    ensures SysInv(End(r)) && Reachable(End(r))
  {
    RunKeepsSysInv(LIMITS, {0}, r.states, r.steps, |r.steps|);
    assert End(r) == r.states[|r.states| - 1];
  }

  // ---------------------------------------------------------------- a step of the first queue

  /** Everything but the documents' shares. */
  datatype Rest = Rest(
    workers: map<WorkerId, Worker>, locks: map<DocId, WorkerId>, rates: map<OrgId, Window>,
    kjobs: map<DocId, KJob>, kworkers: map<WorkerId, KWorker>, graph: Graph, pending: map<WorkerId, Verdict>)

  function RestOf(s: System): Rest {
    Rest(s.core.workers, s.core.locks, s.core.rates, s.kjobs, s.kworkers, s.graph, s.pending)
  }

  /** From s to s' document d has come to v, the others are as they were. */
  ghost predicate Moves(s: System, d: DocId, v: Slice, s': System) {
    && s'.core.cfg == s.core.cfg && s'.core.orgs == s.core.orgs
    && forall e: DocId :: View(s'.core, e) == if e == d then v else View(s.core, e)
  }

  lemma Act(r: Trace, a: Action) returns (r': Trace)
    requires IsTrace(r) && Enabled(End(r).core, a)
    ensures GoesOn(r, r') && Moves(End(r), Subject(End(r).core, a), After(End(r).core, a), End(r'))
    ensures var s, t := End(r), Ingestion(a);
            RestOf(End(r')) == Rest(Crew(s.core, a), Locked(s.core, a), Rated(s.core, a), KJobsAfter(s, t), s.kworkers,
                                    GraphAfter(s, t), PendingAfter(s, t))
  {
    InOrder(r);
    r' := Grow(r, Ingestion(a));
    var c := End(r).core;
    assert Apply(c, a).cfg == c.cfg && Apply(c, a).orgs == c.orgs;
    forall e: DocId ensures View(Apply(c, a), e) == if e == Subject(c, a) then After(c, a) else View(c, e) {
      StepShares(c, a, e);
    }
  }

  /** What the share says of the tables. */
  lemma Looks(c: Core, d: DocId, v: Slice)
    requires View(c, d) == v
    ensures v.doc.Some? ==> d in c.docs && c.docs[d] == v.doc.value
    ensures v.job.Some? ==> d in c.jobs && c.jobs[d] == v.job.value
    ensures v.source.Some? ==> d in c.sources && c.sources[d] == v.source.value
    ensures v.doc.None? ==> d !in c.docs
    ensures v.job.None? ==> d !in c.jobs
    ensures v.source.None? ==> d !in c.sources
    ensures v.file <==> d in c.files
    ensures RowsOf(c.chunks, d) == v.rows && PointsOf(c.points, d) == v.points
  {
    assert At(c.docs, d) == v.doc && At(c.jobs, d) == v.job && At(c.sources, d) == v.source;
  }

  // ---------------------------------------------------------------- into the transaction

  /** There is a fresh job to claim. */
  predicate Waits(v: Slice) {
    v.doc.Some? && v.job.Some? && v.source.Some? && v.job.value.status == Queued && v.job.value.attempts == 0
  }

  function Claim0(v: Slice): Slice
    requires Waits(v)
  {
    ClaimSlice(LIMITS, v, v.job.value.availableAt)
  }

  /** Worker w is on document d in its first attempt of this round. */
  ghost predicate On(s: System, w: WorkerId, d: DocId, phase: Phase, v: Slice) {
    && s.core.cfg == LIMITS && View(s.core, d) == v && v.doc.Some? && v.job.Some? && v.source.Some?
    && v.job.value.status == Processing && v.job.value.attempts == 1
    && w in s.core.workers && s.core.workers[w] == Worker(d, 1, v.job.value.round, phase)
    && (if HoldsLock(phase) then d in s.core.locks && s.core.locks[d] == w else d !in s.core.locks)
  }

  /** The rest after worker w has gone on to a phase, or left. */
  function Turned(r: Rest, w: WorkerId, next: Option<Phase>): Rest
    requires w in r.workers
  {
    var d := r.workers[w].doc;
    r.(workers := if next.Some? then r.workers[w := r.workers[w].(phase := next.value)] else r.workers - {w},
       locks := if next.Some? && HoldsLock(next.value) then r.locks[d := w] else r.locks - {d})
  }

  lemma TakeJob(r: Trace, w: WorkerId, d: DocId, v: Slice) returns (r': Trace)
    requires IsTrace(r) && End(r).core.cfg == LIMITS && View(End(r).core, d) == v && Waits(v)
    requires w !in End(r).core.workers && d !in End(r).core.locks
    ensures GoesOn(r, r') && Moves(End(r), d, Claim0(v), End(r')) && On(End(r'), w, d, Claimed, Claim0(v))
    ensures var rest := RestOf(End(r));
            RestOf(End(r')) == rest.(workers := rest.workers[w := Worker(d, 1, v.job.value.round, Claimed)])
  {
    var a := Claim(w, d, v.job.value.availableAt);
    Looks(End(r).core, d, v);
    r' := Act(r, a);
  }

  /** A step of worker w that leaves the knowledge side alone. */
  lemma Turn(r: Trace, w: WorkerId, d: DocId, phase: Phase, v: Slice, a: Action, next: Phase, v': Slice)
    returns (r': Trace)
    requires IsTrace(r) && On(End(r), w, d, phase, v) && Enabled(End(r).core, a) && Actor(a) == Some(w)
    requires !a.Weigh? && !a.CommitIndex? && !a.CommitDelete? && !a.Raise? && !a.Crash?
    requires After(End(r).core, a) == v' && v'.doc == v.doc && v'.job == v.job && v'.source == v.source
    requires NextPhase(End(r).core, a) == Some(next) && HoldsLock(next)
    ensures GoesOn(r, r') && Moves(End(r), d, v', End(r')) && On(End(r'), w, d, next, v')
    ensures RestOf(End(r')) == Turned(RestOf(End(r)), w, Some(next))
  {
    r' := Act(r, a);
  }

  lemma OnMeans(s: System, w: WorkerId, d: DocId, phase: Phase, v: Slice)
    requires On(s, w, d, phase, v)
    ensures ShareOf(s.core, w) == v && s.core.workers[w].doc == d && s.core.workers[w].phase == phase
    ensures TokenCurrent(ShareOf(s.core, w), s.core.workers[w].attempt)
    ensures d in s.core.docs && s.core.docs[d] == v.doc.value && d in s.core.jobs && s.core.jobs[d] == v.job.value
    ensures RowsOf(s.core.chunks, d) == v.rows
  {
    Looks(s.core, d, v);
  }

  lemma MovesTwice(s: System, d: DocId, v: Slice, s1: System, v': Slice, s': System)
    requires Moves(s, d, v, s1) && Moves(s1, d, v', s')
    ensures Moves(s, d, v', s')
  {
  }

  lemma Enter(r: Trace, w: WorkerId, d: DocId, v: Slice) returns (r': Trace)
    requires IsTrace(r) && On(End(r), w, d, Claimed, v)
    ensures GoesOn(r, r') && Moves(End(r), d, v, End(r')) && On(End(r'), w, d, Fenced, v)
    ensures RestOf(End(r')) == Turned(RestOf(End(r)), w, Some(Fenced))
  {
    OnMeans(End(r), w, d, Claimed, v);
    r' := Turn(r, w, d, Claimed, v, Fence(w), Fenced, v);
  }

  lemma Clear(r: Trace, w: WorkerId, d: DocId, v: Slice) returns (r': Trace)
    requires IsTrace(r) && On(End(r), w, d, Fenced, v)
    ensures GoesOn(r, r') && Moves(End(r), d, v.(points := map[]), End(r'))
    ensures On(End(r'), w, d, Cleared, v.(points := map[]))
    ensures RestOf(End(r')) == Turned(RestOf(End(r)), w, Some(Cleared))
  {
    OnMeans(End(r), w, d, Fenced, v);
    r' := Turn(r, w, d, Fenced, v, ClearVectors(w), Cleared, v.(points := map[]));
  }

  lemma Decide(r: Trace, w: WorkerId, d: DocId, v: Slice) returns (r': Trace)
    requires IsTrace(r) && On(End(r), w, d, Cleared, v)
    ensures GoesOn(r, r') && Moves(End(r), d, v, End(r')) && On(End(r'), w, d, Weighed, v)
    ensures var rest := RestOf(End(r));
            RestOf(End(r')) == Turned(rest, w, Some(Weighed)).(
                                 pending := rest.pending[w := VerdictOn(rest.graph, v.rows.Keys)])
  {
    OnMeans(End(r), w, d, Cleared, v);
    r' := Act(r, Action.Weigh(w));
  }

  /** The share as the transaction has it once it has decided. */
  function Opened(v: Slice): Slice
    requires Waits(v)
  {
    Claim0(v).(points := map[])
  }

  /** The rest then. */
  function Joins(r: Rest, w: WorkerId, d: DocId, v: Slice): Rest
    requires v.job.Some?
  {
    r.(workers := r.workers[w := Worker(d, 1, v.job.value.round, Weighed)], locks := r.locks[d := w],
       pending := r.pending[w := VerdictOn(r.graph, v.rows.Keys)])
  }

  function Entered(r: Rest, w: WorkerId, d: DocId, v: Slice): Rest
    requires v.job.Some?
  {
    r.(workers := r.workers[w := Worker(d, 1, v.job.value.round, Fenced)], locks := r.locks[d := w])
  }

  function WithDecision(r: Rest, w: WorkerId, v: Slice): Rest
    requires w in r.workers
  {
    Turned(r, w, Some(Weighed)).(pending := r.pending[w := VerdictOn(r.graph, v.rows.Keys)])
  }

  lemma EnteredAndDecided(r: Rest, w: WorkerId, d: DocId, v: Slice)
    requires Waits(v)
    ensures WithDecision(Entered(r, w, d, v), w, Claim0(v)) == Joins(r, w, d, v)
  {
  }

  lemma TakeAndEnter(r: Trace, w: WorkerId, d: DocId, v: Slice) returns (r': Trace)
    requires IsTrace(r) && End(r).core.cfg == LIMITS && View(End(r).core, d) == v && Waits(v)
    requires w !in End(r).core.workers && d !in End(r).core.locks
    ensures GoesOn(r, r') && Moves(End(r), d, Claim0(v), End(r')) && On(End(r'), w, d, Fenced, Claim0(v))
    ensures RestOf(End(r')) == Entered(RestOf(End(r)), w, d, v)
  {
    var r1 := TakeJob(r, w, d, v);
    r' := Enter(r1, w, d, Claim0(v));
    MovesTwice(End(r), d, Claim0(v), End(r1), Claim0(v), End(r'));
  }

  lemma ClearAndDecide(r: Trace, w: WorkerId, d: DocId, v: Slice) returns (r': Trace)
    requires IsTrace(r) && On(End(r), w, d, Fenced, v)
    ensures var v' := v.(points := map[]);
            GoesOn(r, r') && Moves(End(r), d, v', End(r')) && On(End(r'), w, d, Weighed, v')
    ensures w in RestOf(End(r)).workers && RestOf(End(r')) == WithDecision(RestOf(End(r)), w, v)
  {
    var v' := v.(points := map[]);
    var r1 := Clear(r, w, d, v);
    r' := Decide(r1, w, d, v');
    MovesTwice(End(r), d, v', End(r1), v', End(r'));
  }

  /** Claim, Fence, ClearVectors, Weigh. */
  lemma Begin(r: Trace, w: WorkerId, d: DocId, v: Slice) returns (r': Trace)
    requires IsTrace(r) && End(r).core.cfg == LIMITS && View(End(r).core, d) == v && Waits(v)
    requires w !in End(r).core.workers && d !in End(r).core.locks
    ensures GoesOn(r, r') && Moves(End(r), d, Opened(v), End(r')) && On(End(r'), w, d, Weighed, Opened(v))
    ensures RestOf(End(r')) == Joins(RestOf(End(r)), w, d, v)
  {
    var r1 := TakeAndEnter(r, w, d, v);
    r' := ClearAndDecide(r1, w, d, Claim0(v));
    EnteredAndDecided(RestOf(End(r)), w, d, v);
    MovesTwice(End(r), d, Claim0(v), End(r1), Opened(v), End(r'));
  }

  // ---------------------------------------------------------------- out of it

  /** The share with the points of these pieces. */
  ghost function Indexed(d: DocId, v: Slice, pieces: seq<Piece>): Slice
    requires v.doc.Some?
  {
    v.(points := IndexOf(d, v.doc.value, NewRows(d, v.doc.value.generation, pieces)))
  }

  lemma PlanThem(r: Trace, w: WorkerId, d: DocId, v: Slice, pieces: seq<Piece>) returns (r': Trace)
    requires IsTrace(r) && On(End(r), w, d, Weighed, v) && v.job.value.operation == Ingest && v.file
    requires 1 <= |pieces| <= LIMITS.maxChunks
    ensures GoesOn(r, r') && Moves(End(r), d, v, End(r')) && On(End(r'), w, d, Planned(pieces), v)
    ensures RestOf(End(r')) == Turned(RestOf(End(r)), w, Some(Planned(pieces)))
  {
    OnMeans(End(r), w, d, Weighed, v);
    r' := Turn(r, w, d, Weighed, v, Plan(w, pieces), Planned(pieces), v);
  }

  lemma SendAll(r: Trace, w: WorkerId, d: DocId, v: Slice, pieces: seq<Piece>) returns (r': Trace)
    requires IsTrace(r) && On(End(r), w, d, Planned(pieces), v) && v.points == map[]
    ensures GoesOn(r, r') && Moves(End(r), d, Indexed(d, v, pieces), End(r'))
    ensures On(End(r'), w, d, Written(pieces), Indexed(d, v, pieces))
    ensures RestOf(End(r')) == Turned(RestOf(End(r)), w, Some(Written(pieces)))
  {
    OnMeans(End(r), w, d, Planned(pieces), v);
    var points := Indexed(d, v, pieces).points;
    assert map[] + points == points;
    r' := Turn(r, w, d, Planned(pieces), v, UpsertAll(w), Written(pieces), Indexed(d, v, pieces));
  }

  /** The rest after the commit of worker w on document d. */
  ghost function Commits(r: Rest, w: WorkerId, d: DocId, gone: set<ChunkId>, kjobs: map<DocId, KJob>): Rest
    requires w in r.workers && w in r.pending
  {
    Turned(r, w, None).(graph := CarryOut(r.graph, gone, r.pending[w]), pending := r.pending - {w}, kjobs := kjobs)
  }

  lemma CommitThem(r: Trace, w: WorkerId, d: DocId, v: Slice, pieces: seq<Piece>, now: Time) returns (r': Trace)
    requires IsTrace(r) && On(End(r), w, d, Written(pieces), v) && w in End(r).pending
    ensures GoesOn(r, r') && Moves(End(r), d, IndexedSlice(d, v, pieces), End(r'))
    ensures var rest, doc := RestOf(End(r)), v.doc.value;
            RestOf(End(r')) == Commits(rest, w, d, v.rows.Keys,
                                       rest.kjobs[d := Enqueued(rest.kjobs, d, doc.org, doc.generation, now)])
  {
    OnMeans(End(r), w, d, Written(pieces), v);
    r' := Act(r, CommitIndex(w, now));
  }

  /** What an indexed share looks like. */
  ghost function Finished(d: DocId, v: Slice, pieces: seq<Piece>): Slice
    requires v.doc.Some? && v.job.Some? && v.source.Some?
  {
    IndexedSlice(d, Indexed(d, v, pieces), pieces)
  }

  lemma TurnedTwice(r: Rest, w: WorkerId, first: Phase, second: Phase)
    requires w in r.workers && HoldsLock(first) && HoldsLock(second)
    ensures Turned(Turned(r, w, Some(first)), w, Some(second)) == Turned(r, w, Some(second))
  {
  }

  lemma PlanAndSend(r: Trace, w: WorkerId, d: DocId, v: Slice, pieces: seq<Piece>) returns (r': Trace)
    requires IsTrace(r) && On(End(r), w, d, Weighed, v) && v.job.value.operation == Ingest && v.file
    requires v.points == map[] && 1 <= |pieces| <= LIMITS.maxChunks
    ensures GoesOn(r, r') && Moves(End(r), d, Indexed(d, v, pieces), End(r'))
    ensures On(End(r'), w, d, Written(pieces), Indexed(d, v, pieces))
    ensures RestOf(End(r')) == Turned(RestOf(End(r)), w, Some(Written(pieces)))
  {
    var r1 := PlanThem(r, w, d, v, pieces);
    r' := SendAll(r1, w, d, v, pieces);
    TurnedTwice(RestOf(End(r)), w, Planned(pieces), Written(pieces));
    MovesTwice(End(r), d, v, End(r1), Indexed(d, v, pieces), End(r'));
  }

  lemma CommitsAfterTurn(r: Rest, w: WorkerId, next: Phase, d: DocId, gone: set<ChunkId>, kjobs: map<DocId, KJob>)
    requires w in r.workers && w in r.pending && r.workers[w].doc == d
    ensures Commits(Turned(r, w, Some(next)), w, d, gone, kjobs) == Commits(r, w, d, gone, kjobs)
  {
  }

  /** Plan, UpsertAll, CommitIndex. */
  lemma FinishIndex(r: Trace, w: WorkerId, d: DocId, v: Slice, pieces: seq<Piece>, now: Time) returns (r': Trace)
    requires IsTrace(r) && On(End(r), w, d, Weighed, v) && v.job.value.operation == Ingest && v.file
    requires v.points == map[] && w in End(r).pending && 1 <= |pieces| <= LIMITS.maxChunks
    ensures GoesOn(r, r') && Moves(End(r), d, Finished(d, v, pieces), End(r'))
    ensures var rest, doc := RestOf(End(r)), v.doc.value;
            RestOf(End(r')) == Commits(rest, w, d, v.rows.Keys,
                                       rest.kjobs[d := Enqueued(rest.kjobs, d, doc.org, doc.generation, now)])
  {
    var r1 := PlanAndSend(r, w, d, v, pieces);
    r' := CommitThem(r1, w, d, Indexed(d, v, pieces), pieces, now);
    CommitsAfterTurn(RestOf(End(r)), w, Written(pieces), d, v.rows.Keys, End(r').kjobs);
    MovesTwice(End(r), d, Indexed(d, v, pieces), End(r1), Finished(d, v, pieces), End(r'));
  }

  lemma UnlinkIt(r: Trace, w: WorkerId, d: DocId, v: Slice) returns (r': Trace)
    requires IsTrace(r) && On(End(r), w, d, Weighed, v) && v.job.value.operation == Delete
    ensures GoesOn(r, r') && Moves(End(r), d, v.(file := false), End(r'))
    ensures On(End(r'), w, d, Unlinked, v.(file := false))
    ensures RestOf(End(r')) == Turned(RestOf(End(r)), w, Some(Unlinked))
  {
    OnMeans(End(r), w, d, Weighed, v);
    r' := Turn(r, w, d, Weighed, v, Action.Unlink(w), Unlinked, v.(file := false));
  }

  lemma DropIt(r: Trace, w: WorkerId, d: DocId, v: Slice) returns (r': Trace)
    requires IsTrace(r) && On(End(r), w, d, Unlinked, v) && w in End(r).pending
    ensures GoesOn(r, r') && Moves(End(r), d, DeletedSlice(v), End(r'))
    ensures var rest := RestOf(End(r)); RestOf(End(r')) == Commits(rest, w, d, v.rows.Keys, rest.kjobs - {d})
  {
    OnMeans(End(r), w, d, Unlinked, v);
    r' := Act(r, CommitDelete(w));
  }

  /** Unlink, CommitDelete. */
  lemma FinishDelete(r: Trace, w: WorkerId, d: DocId, v: Slice) returns (r': Trace)
    requires IsTrace(r) && On(End(r), w, d, Weighed, v) && v.job.value.operation == Delete && w in End(r).pending
    ensures GoesOn(r, r') && Moves(End(r), d, DeletedSlice(v.(file := false)), End(r'))
    ensures var rest := RestOf(End(r)); RestOf(End(r')) == Commits(rest, w, d, v.rows.Keys, rest.kjobs - {d})
  {
    var r1 := UnlinkIt(r, w, d, v);
    r' := DropIt(r1, w, d, v.(file := false));
    MovesTwice(End(r), d, v.(file := false), End(r1), DeletedSlice(v.(file := false)), End(r'));
  }

  /** An upsert that breaks off. */
  lemma SendSome(r: Trace, w: WorkerId, d: DocId, v: Slice, pieces: seq<Piece>, part: set<nat>) returns (r': Trace)
    requires IsTrace(r) && On(End(r), w, d, Planned(pieces), v) && v.points == map[]
    ensures var v' := v.(points := Partial(d, v.doc.value, pieces, part));
            GoesOn(r, r') && Moves(End(r), d, v', End(r')) && On(End(r'), w, d, Writing(pieces, part), v')
    ensures RestOf(End(r')) == Turned(RestOf(End(r)), w, Some(Writing(pieces, part)))
  {
    OnMeans(End(r), w, d, Planned(pieces), v);
    var points := Partial(d, v.doc.value, pieces, part);
    assert map[] + points == points;
    r' := Turn(r, w, d, Planned(pieces), v, UpsertPart(w, part), Writing(pieces, part), v.(points := points));
  }

  lemma RaiseIt(r: Trace, w: WorkerId, d: DocId, phase: Phase, v: Slice, failure: Failure) returns (r': Trace)
    requires IsTrace(r) && On(End(r), w, d, phase, v) && HoldsLock(phase)
    ensures GoesOn(r, r') && Moves(End(r), d, v, End(r')) && On(End(r'), w, d, Caught(failure), v)
    ensures var rest := RestOf(End(r));
            RestOf(End(r')) == Turned(rest, w, Some(Caught(failure))).(pending := rest.pending - {w})
  {
    OnMeans(End(r), w, d, phase, v);
    r' := Act(r, Raise(w, failure));
  }

  lemma RecordIt(r: Trace, w: WorkerId, d: DocId, v: Slice, failure: Failure, now: Time) returns (r': Trace)
    requires IsTrace(r) && On(End(r), w, d, Caught(failure), v)
    ensures GoesOn(r, r') && Moves(End(r), d, FailedSlice(LIMITS, v, 1, failure, now), End(r'))
  {
    OnMeans(End(r), w, d, Caught(failure), v);
    r' := Act(r, CommitFailure(w, now));
  }

  /** Plan, UpsertPart, Raise, CommitFailure. */
  lemma FailSending(r: Trace, w: WorkerId, d: DocId, v: Slice, pieces: seq<Piece>, part: set<nat>, failure: Failure,
                    now: Time) returns (r': Trace)
    requires IsTrace(r) && On(End(r), w, d, Weighed, v) && v.job.value.operation == Ingest && v.file
    requires v.points == map[] && 1 <= |pieces| <= LIMITS.maxChunks
    ensures var v' := v.(points := Partial(d, v.doc.value, pieces, part));
            GoesOn(r, r') && Moves(End(r), d, FailedSlice(LIMITS, v', 1, failure, now), End(r'))
  {
    var v' := v.(points := Partial(d, v.doc.value, pieces, part));
    var r1 := PlanThem(r, w, d, v, pieces);
    var r2 := SendSome(r1, w, d, v, pieces, part);
    MovesTwice(End(r), d, v, End(r1), v', End(r2));
    var r3 := RaiseIt(r2, w, d, Writing(pieces, part), v', failure);
    MovesTwice(End(r), d, v', End(r2), v', End(r3));
    r' := RecordIt(r3, w, d, v', failure, now);
    MovesTwice(End(r), d, v', End(r3), FailedSlice(LIMITS, v', 1, failure, now), End(r'));
  }

  // ---------------------------------------------------------------- requests

  /** At most documents 0 and 1, of one byte each. */
  ghost predicate Small(s: System) {
    && s.core.cfg == LIMITS && s.core.orgs == {0}
    && forall d :: d in s.core.docs ==> d <= 1 && s.core.docs[d].org == 0 && s.core.docs[d].size == 1
  }

  lemma SmallStays(s: System, d: DocId, v: Slice, s': System)
    requires Small(s) && Moves(s, d, v, s') && d <= 1
    requires v.doc.Some? ==> v.doc.value.org == 0 && v.doc.value.size == 1
    ensures Small(s')
  {
    forall e | e in s'.core.docs ensures e <= 1 && s'.core.docs[e].org == 0 && s'.core.docs[e].size == 1 {
      assert View(s'.core, e).doc == Some(s'.core.docs[e]);
      if e != d { assert View(s.core, e).doc == Some(s'.core.docs[e]) && e in s.core.docs; }
    }
  }

  lemma FewPending(s: System)
    requires Small(s)
    ensures |PendingIn(s.core.docs, 0)| <= 2 && |DocsIn(s.core.docs, 0)| <= 2
  {
    Sums.SubsetSize(PendingIn(s.core.docs, 0), {0, 1});
    Sums.SubsetSize(DocsIn(s.core.docs, 0), {0, 1});
  }

  lemma FewBytes(s: System, d: DocId)
    requires Small(s) && d <= 1 && d !in s.core.docs
    ensures Sums.Total(SizesIn(s.core.docs, 0)) <= 1
  {
    var e: DocId := 1 - d;
    var sizes := SizesIn(s.core.docs, 0);
    Sums.TotalRemove(sizes, e);
    assert sizes - {e} == map[];
  }

  /** A minute after the last admission there is always room. */
  function Later(rates: map<OrgId, Window>): Time {
    if 0 in rates then rates[0].start + MINUTE else 0
  }

  lemma Arrive(r: Trace, d: DocId) returns (r': Trace, now: Time)
    requires IsTrace(r) && Small(End(r)) && d <= 1
    requires View(End(r).core, d) == Slice(None, None, None, map[], map[], false)
    ensures GoesOn(r, r') && Small(End(r')) && Moves(End(r), d, UploadSlice(0, "a.pdf", 1, now), End(r'))
    ensures RestOf(End(r')) == RestOf(End(r)).(rates := End(r').core.rates)
  {
    now := Later(End(r).core.rates);
    Looks(End(r).core, d, View(End(r).core, d));
    FewPending(End(r));
    FewBytes(End(r), d);
    r' := Act(r, Upload(d, 0, "a.pdf", 1, now));
    SmallStays(End(r), d, UploadSlice(0, "a.pdf", 1, now), End(r'));
  }

  /** A reindex or a delete of a document whose job is done. */
  lemma Ask(r: Trace, d: DocId, v: Slice, operation: Operation) returns (r': Trace, now: Time)
    requires IsTrace(r) && Small(End(r)) && d <= 1 && View(End(r).core, d) == v && d !in End(r).core.locks
    requires v.doc.Some? && v.job.Some? && v.source.Some? && v.source.value.org == v.doc.value.org
    requires v.job.value.status != Processing && !IsPending(v.doc.value.status)
    ensures GoesOn(r, r') && Small(End(r')) && Moves(End(r), d, RequeueSlice(v, operation, now), End(r'))
    ensures RestOf(End(r')) == RestOf(End(r)).(rates := End(r').core.rates)
  {
    now := Later(End(r).core.rates);
    Looks(End(r).core, d, v);
    FewPending(End(r));
    r' := Act(r, Requeue(d, 0, operation, now));
    SmallStays(End(r), d, RequeueSlice(v, operation, now), End(r'));
  }

  // ---------------------------------------------------------------- whole jobs

  /** Nobody is at work on the first queue. */
  predicate Quiet(r: Rest) {
    r.workers == map[] && r.locks == map[] && r.pending == map[]
  }

  /** The share of a READY document of these pieces. */
  ghost predicate Ready(v: Slice, d: DocId, generation: nat, pieces: seq<Piece>) {
    && v.doc == Some(Document(0, "a.pdf", 1, DocReady, generation, NoError))
    && v.job.Some? && v.job.value.status == Succeeded && v.source == Some(Source(0, SyncSynced, NoError, false))
    && v.rows == NewRows(d, generation, pieces) && v.points == IndexOf(d, v.doc.value, v.rows) && v.file
  }

  lemma FinishedIsReady(d: DocId, v: Slice, pieces: seq<Piece>)
    requires Waits(v) && v.job.value.operation == Ingest && v.file
    requires v.doc.value.org == 0 && v.doc.value.filename == "a.pdf" && v.doc.value.size == 1
    requires v.source.value.org == 0 && !v.source.value.deleted
    ensures Ready(Finished(d, Opened(v), pieces), d, v.doc.value.generation, pieces)
  {
    var doc, doc' := Opened(v).doc.value, Finished(d, Opened(v), pieces).doc.value;
    IndexSurvives(d, doc, doc', NewRows(d, doc.generation, pieces));
  }

  /** What is left of the rest after a job of worker w that withdraws nothing. */
  lemma NothingWithdrawn(r: Rest, w: WorkerId, d: DocId, v: Slice, kjobs: map<DocId, KJob>)
    requires Quiet(r) && v.job.Some? && v.rows == map[]
    ensures Commits(Joins(r, w, d, v), w, d, {}, kjobs) == r.(kjobs := kjobs)
  {
    WithdrawAtOnce(r.graph, {});
    WithdrawNothing(r.graph.entities);
    WithdrawNothing(r.graph.relations);
    var r' := Commits(Joins(r, w, d, v), w, d, {}, kjobs);
    assert r'.graph == r.graph;
    assert r'.workers == map[] && r'.locks == map[] && r'.pending == map[];
  }

  /** A new document, uploaded and indexed. */
  lemma IndexNew(r: Trace, w: WorkerId, d: DocId, pieces: seq<Piece>) returns (r': Trace, v: Slice)
    requires IsTrace(r) && Small(End(r)) && d <= 1 && Quiet(RestOf(End(r))) && d !in End(r).kjobs
    requires View(End(r).core, d) == Slice(None, None, None, map[], map[], false)
    requires 1 <= |pieces| <= LIMITS.maxChunks
    ensures GoesOn(r, r') && Small(End(r')) && Moves(End(r), d, v, End(r')) && Ready(v, d, 1, pieces)
    ensures RestOf(End(r')) == RestOf(End(r)).(rates := End(r').core.rates, kjobs := End(r').kjobs)
    ensures End(r').kjobs == End(r).kjobs[d := KJob(0, 1, Queued, 0, 0, None, NoError, 0)]
  {
    var r1, now := Arrive(r, d);
    var waits := UploadSlice(0, "a.pdf", 1, now);
    r' := RunIndex(r1, w, d, waits, pieces);
    v := Finished(d, Opened(waits), pieces);
    MovesTwice(End(r), d, waits, End(r1), v, End(r'));
    IndexNewRest(RestOf(End(r)), RestOf(End(r1)), w, d, waits, RestOf(End(r')));
  }

  lemma IndexNewRest(r: Rest, r1: Rest, w: WorkerId, d: DocId, v: Slice, r': Rest)
    requires Quiet(r) && r1 == r.(rates := r1.rates) && v.job.Some? && v.rows == map[] && d !in r.kjobs
    requires r' == Commits(Joins(r1, w, d, v), w, d, v.rows.Keys, r1.kjobs[d := Enqueued(r1.kjobs, d, 0, 1, 0)])
    ensures r' == r.(rates := r'.rates, kjobs := r.kjobs[d := KJob(0, 1, Queued, 0, 0, None, NoError, 0)])
  {
    NothingWithdrawn(r1, w, d, v, r'.kjobs);
  }

  lemma RunIndex(r: Trace, w: WorkerId, d: DocId, v: Slice, pieces: seq<Piece>) returns (r': Trace)
    requires IsTrace(r) && Small(End(r)) && d <= 1 && Quiet(RestOf(End(r)))
    requires View(End(r).core, d) == v && Waits(v) && v.job.value.operation == Ingest && v.file
    requires v.doc.value.org == 0 && v.doc.value.filename == "a.pdf" && v.doc.value.size == 1
    requires v.source.value.org == 0 && !v.source.value.deleted && 1 <= |pieces| <= LIMITS.maxChunks
    ensures GoesOn(r, r') && Small(End(r')) && Moves(End(r), d, Finished(d, Opened(v), pieces), End(r'))
    ensures Ready(Finished(d, Opened(v), pieces), d, v.doc.value.generation, pieces)
    ensures var rest := RestOf(End(r));
            RestOf(End(r')) == Commits(Joins(rest, w, d, v), w, d, v.rows.Keys,
                                       rest.kjobs[d := Enqueued(rest.kjobs, d, 0, v.doc.value.generation, 0)])
  {
    FinishedIsReady(d, v, pieces);
    var r1 := Begin(r, w, d, v);
    r' := FinishIndex(r1, w, d, Opened(v), pieces, 0);
    MovesTwice(End(r), d, Opened(v), End(r1), Finished(d, Opened(v), pieces), End(r'));
    SmallStays(End(r), d, Finished(d, Opened(v), pieces), End(r'));
  }
}
