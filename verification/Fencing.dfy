/** When a token is accepted, told from what happened in the run: the admissions, claims and outcomes of a job.

    Both queues hand out `(job, attempts)` as the token, and both set `attempts` back to zero when a job is admitted
    again. The first part is about any job kept that way, the other two about the two queues. */
module Fencing {
  import opened Tables
  import opened Ingestion
  import opened IngestionInvariant
  import opened IngestionTheorems
  import opened System
  import opened SystemInvariant
  import opened Runs
  import opened Search

  // ---------------------------------------------------------------- a job and what happens to it

  /** What a step does to a job: admits it anew, hands out a token for it, ends an attempt, or none of these. */
  datatype Event = Admit | Hand | Settle | Idle

  /** What the token check looks at. */
  datatype Ticket = Ticket(live: bool, attempts: nat)

  predicate Follows(t: Option<Ticket>, e: Event, t': Option<Ticket>) {
    match e
    case Admit => t' == Some(Ticket(false, 0))
    case Hand => t.Some? && t' == Some(Ticket(true, t.value.attempts + 1))
    case Settle => t'.Some? ==> t.Some? && t' == Some(Ticket(false, t.value.attempts))
    case Idle => t' == t
  }

  predicate IsHistory(tickets: seq<Option<Ticket>>, events: seq<Event>) {
    && |tickets| == |events| + 1 && tickets[0] == None
    && forall k :: 0 <= k < |events| ==> Follows(tickets[k], events[k], tickets[k + 1])
  }

  /** The tokens handed out since the last admission. */
  function Claims(events: seq<Event>): nat {
    if events == [] then 0
    else
      var last := |events| - 1;
      if events[last] == Admit then 0
      else Claims(events[..last]) + (if events[last] == Hand then 1 else 0)
  }

  predicate Quiet(events: seq<Event>, i: nat, j: nat)
    requires j <= |events|
  {
    forall k :: i <= k < j ==> events[k] == Idle
  }

  predicate NotAdmitted(events: seq<Event>, i: nat, j: nat)
    requires j <= |events|
  {
    forall k :: i <= k < j ==> events[k] != Admit
  }

  lemma ClaimsOneMore(events: seq<Event>, j: nat)
    requires j < |events|
    ensures Claims(events[..j + 1]) ==
              if events[j] == Admit then 0 else Claims(events[..j]) + (if events[j] == Hand then 1 else 0)
  {
    assert events[..j + 1][..j] == events[..j];
  }

  /** `attempts` counts the tokens handed out since the last admission. */
  lemma {:induction false} AttemptsAreClaims(tickets: seq<Option<Ticket>>, events: seq<Event>, j: nat)
    requires IsHistory(tickets, events) && j <= |events| && tickets[j].Some?
    ensures tickets[j].value.attempts == Claims(events[..j])
  {
    if j > 0 {
      assert Follows(tickets[j - 1], events[j - 1], tickets[j]);
      ClaimsOneMore(events, j - 1);
      if events[j - 1] != Admit { AttemptsAreClaims(tickets, events, j - 1); }
    }
  }

  lemma {:induction false} TicketKept(tickets: seq<Option<Ticket>>, events: seq<Event>, i: nat, j: nat)
    requires IsHistory(tickets, events) && i <= j <= |events| && Quiet(events, i, j)
    ensures tickets[j] == tickets[i]
  {
    if i < j {
      TicketKept(tickets, events, i, j - 1);
      assert Follows(tickets[j - 1], events[j - 1], tickets[j]);
    }
  }

  /** A job is being processed because a token was handed out, and nothing has happened to it since. */
  lemma {:induction false} LiveSince(tickets: seq<Option<Ticket>>, events: seq<Event>, j: nat) returns (k: nat)
    requires IsHistory(tickets, events) && j <= |events| && tickets[j].Some? && tickets[j].value.live
    ensures k < j && events[k] == Hand && Quiet(events, k + 1, j)
  {
    assert Follows(tickets[j - 1], events[j - 1], tickets[j]);
    k := j - 1;
    if events[k] == Idle {
      k := LiveSince(tickets, events, j - 1);
    }
  }

  lemma {:induction false} ClaimsGrow(events: seq<Event>, i: nat, j: nat)
    requires i <= j <= |events| && NotAdmitted(events, i, j)
    ensures Claims(events[..j]) >= Claims(events[..i])
  {
    if i < j {
      ClaimsGrow(events, i, j - 1);
      ClaimsOneMore(events, j - 1);
    }
  }

  /** The last thing that happened before j was that a token was handed out, and it has the number of the one
      handed out at i. */
  ghost predicate SameNumber(events: seq<Event>, i: nat, j: nat, k: int)
    requires i < j <= |events|
  {
    i <= k < j && events[k] == Hand && Quiet(events, k + 1, j) && Claims(events[..k + 1]) == Claims(events[..i + 1])
  }

  /** The token handed out at i is accepted at j if and only if the last event is the handing out of a token that is
      as many-th since its admission as this one since its own. */
  lemma AcceptedIff(tickets: seq<Option<Ticket>>, events: seq<Event>, i: nat, j: nat)
    requires IsHistory(tickets, events) && i < j <= |events| && events[i] == Hand
    ensures tickets[i + 1] == Some(Ticket(true, Claims(events[..i + 1])))
    ensures tickets[j] == tickets[i + 1] <==> exists k :: SameNumber(events, i, j, k)
  {
    assert Follows(tickets[i], events[i], tickets[i + 1]);
    AttemptsAreClaims(tickets, events, i + 1);
    if tickets[j] == tickets[i + 1] {
      var k := LiveSince(tickets, events, j);
      TicketKept(tickets, events, k + 1, j);
      AttemptsAreClaims(tickets, events, k + 1);
      assert SameNumber(events, i, j, k);
    }
    if k :| SameNumber(events, i, j, k) {
      assert Follows(tickets[k], events[k], tickets[k + 1]);
      AttemptsAreClaims(tickets, events, k + 1);
      TicketKept(tickets, events, k + 1, j);
    }
  }

  /** Without an admission in between that can only be the token itself. */
  lemma OwnNumber(events: seq<Event>, i: nat, j: nat)
    requires i < j <= |events| && events[i] == Hand && NotAdmitted(events, i + 1, j)
    ensures (exists k :: SameNumber(events, i, j, k)) <==> Quiet(events, i + 1, j)
  {
    if k :| SameNumber(events, i, j, k) && i < k {
      ClaimsGrow(events, i + 1, k);
      ClaimsOneMore(events, k);
    }
    if Quiet(events, i + 1, j) { assert SameNumber(events, i, j, i); }
  }

  // ---------------------------------------------------------------- the ingestion queue

  /** What an action does to the job of its document. */
  ghost function EventOfAction(c: Core, a: Action): Event
    requires Enabled(c, a)
  {
    match a
    case Upload(_, _, _, _, _) => Admit
    case Requeue(_, _, _, _) => Admit
    case Claim(_, d, _) => if c.jobs[d].attempts < c.cfg.maxAttempts then Hand else Settle
    case CommitIndex(_, _) => Settle
    case CommitDelete(_) => Settle
    case CommitFailure(w, _) => if TokenCurrent(ShareOf(c, w), c.workers[w].attempt) then Settle else Idle
    case _ => Idle
  }

  ghost function EventOf(s: System, t: Step, d: DocId): Event
    requires CanStep(s, t)
  {
    if t.Ingestion? && Subject(s.core, t.a) == d then EventOfAction(s.core, t.a) else Idle
  }

  ghost function History(states: seq<System>, steps: seq<Step>, d: DocId): (events: seq<Event>)
    requires IsPath(states, steps)
    ensures |events| == |steps| && forall k :: 0 <= k < |steps| ==> events[k] == EventOf(states[k], steps[k], d)
  {
    seq(|steps|, k requires 0 <= k < |steps| && CanStep(states[k], steps[k]) => EventOf(states[k], steps[k], d))
  }

  function TicketOf(job: Option<Job>): Option<Ticket> {
    if job.Some? then Some(Ticket(job.value.status == Processing, job.value.attempts)) else None
  }

  lemma ActionFollows(c: Core, a: Action)
    requires Enabled(c, a)
    ensures Follows(TicketOf(At(c.jobs, Subject(c, a))), EventOfAction(c, a), TicketOf(After(c, a).job))
  {
  }

  lemma JobsAfter(c: Core, a: Action, d: DocId)
    requires Enabled(c, a)
    ensures At(Apply(c, a).jobs, d) == if d == Subject(c, a) then After(c, a).job else At(c.jobs, d)
  {
  }

  lemma StepFollows(s: System, t: Step, d: DocId)
    requires CanStep(s, t)
    ensures Follows(TicketOf(At(s.core.jobs, d)), EventOf(s, t, d), TicketOf(At(Next(s, t).core.jobs, d)))
  {
    if t.Ingestion? {
      JobsAfter(s.core, t.a, d);
      if d == Subject(s.core, t.a) { ActionFollows(s.core, t.a); }
    }
  }

  ghost function Tickets(states: seq<System>, d: DocId): seq<Option<Ticket>> {
    seq(|states|, k requires 0 <= k < |states| => TicketOf(At(states[k].core.jobs, d)))
  }

  lemma RunIsHistory(cfg: Config, orgs: set<OrgId>, states: seq<System>, steps: seq<Step>, d: DocId)
    requires IsRun(cfg, orgs, states, steps)
    ensures IsHistory(Tickets(states, d), History(states, steps, d))
  {
    var tickets, events := Tickets(states, d), History(states, steps, d);
    forall k | 0 <= k < |events| ensures Follows(tickets[k], events[k], tickets[k + 1]) {
      assert CanStep(states[k], steps[k]) && states[k + 1] == Next(states[k], steps[k]);
      StepFollows(states[k], steps[k], d);
    }
  }

  /** Worker w has been in flight from state i to state j. */
  ghost predicate InFlight(states: seq<System>, w: WorkerId, i: nat, j: nat)
    requires i <= j < |states|
  {
    forall k :: i <= k <= j ==> w in states[k].core.workers
  }

  lemma CrewKeepsToken(c: Core, a: Action, w: WorkerId)
    requires Enabled(c, a) && w in c.workers && w in Crew(c, a)
    ensures Crew(c, a)[w].doc == c.workers[w].doc && Crew(c, a)[w].attempt == c.workers[w].attempt
  {
  }

  predicate TokenStays(s: System, s': System, w: WorkerId)
    requires w in s.core.workers && w in s'.core.workers
  {
    s'.core.workers[w].doc == s.core.workers[w].doc && s'.core.workers[w].attempt == s.core.workers[w].attempt
  }

  lemma StepKeepsToken(s: System, t: Step, w: WorkerId)
    requires CanStep(s, t) && w in s.core.workers && w in Next(s, t).core.workers
    ensures TokenStays(s, Next(s, t), w)
  {
    if t.Ingestion? { CrewKeepsToken(s.core, t.a, w); }
  }

  lemma {:induction false} SameAlong(states: seq<System>, w: WorkerId, i: nat, j: nat)
    requires i <= j < |states| && InFlight(states, w, i, j)
    requires forall k :: i <= k < j ==> TokenStays(states[k], states[k + 1], w)
    ensures TokenStays(states[i], states[j], w)
  {
    if i < j { SameAlong(states, w, i, j - 1); }
  }

  lemma TokenKept(states: seq<System>, steps: seq<Step>, w: WorkerId, i: nat, j: nat)
    requires IsPath(states, steps) && i <= j < |states| && InFlight(states, w, i, j)
    ensures TokenStays(states[i], states[j], w)
  {
    forall k | i <= k < j ensures TokenStays(states[k], states[k + 1], w) {
      assert w in states[k].core.workers && w in states[k + 1].core.workers;
      assert states[k + 1] == Next(states[k], steps[k]);
      StepKeepsToken(states[k], steps[k], w);
    }
    SameAlong(states, w, i, j);
  }

  /** Worker w claims d at step i, gets a token, and is in flight until state j. */
  ghost predicate Claimant(states: seq<System>, steps: seq<Step>, w: WorkerId, d: DocId, i: nat, j: nat)
    requires |states| == |steps| + 1
  {
    && i < j <= |steps| && steps[i].Ingestion? && steps[i].a.Claim? && steps[i].a.worker == w && steps[i].a.doc == d
    && InFlight(states, w, i + 1, j)
  }

  lemma ClaimHandsToken(s: System, t: Step, w: WorkerId, d: DocId)
    requires CanStep(s, t) && t.Ingestion? && t.a.Claim? && t.a.worker == w && t.a.doc == d
    requires w in Next(s, t).core.workers
    ensures EventOf(s, t, d) == Hand
    ensures var wk := Next(s, t).core.workers[w];
            wk.doc == d && TicketOf(At(Next(s, t).core.jobs, d)) == Some(Ticket(true, wk.attempt))
  {
  }

  /** The token a worker holds is the ticket of its claim, and the check compares it with the ticket of the moment. */
  lemma CheckComparesTickets(cfg: Config, orgs: set<OrgId>, states: seq<System>, steps: seq<Step>,
                             w: WorkerId, d: DocId, i: nat, j: nat)
    requires cfg.Valid() && IsRun(cfg, orgs, states, steps) && Claimant(states, steps, w, d, i, j)
    ensures History(states, steps, d)[i] == Hand
    ensures PassesFence(states[j].core, w) <==> Tickets(states, d)[j] == Tickets(states, d)[i + 1]
  {
    assert CanStep(states[i], steps[i]) && states[i + 1] == Next(states[i], steps[i]);
    ClaimHandsToken(states[i], steps[i], w, d);
    TokenKept(states, steps, w, i + 1, j);
    InitOk(cfg, orgs);
    PathKeepsSysInv(states, steps, j);
    assert SliceOk(states[j].core.cfg, d, View(states[j].core, d));
  }

  /** A worker that claimed at i passes the token check at j if and only if the last thing that happened to the job is
      the claim that is as many-th since its admission as the worker's own was since its admission: its own claim,
      or one of the same number of a later admission. */
  lemma FenceExact(cfg: Config, orgs: set<OrgId>, states: seq<System>, steps: seq<Step>,
                   w: WorkerId, d: DocId, i: nat, j: nat)
    requires cfg.Valid() && IsRun(cfg, orgs, states, steps) && Claimant(states, steps, w, d, i, j)
    ensures PassesFence(states[j].core, w) <==> exists k :: SameNumber(History(states, steps, d), i, j, k)
  {
    RunIsHistory(cfg, orgs, states, steps, d);
    CheckComparesTickets(cfg, orgs, states, steps, w, d, i, j);
    AcceptedIff(Tickets(states, d), History(states, steps, d), i, j);
  }

  /** Unless the job was admitted again since the claim: then it passes if and only if nothing has happened to the job. */
  lemma FenceHolds(cfg: Config, orgs: set<OrgId>, states: seq<System>, steps: seq<Step>,
                   w: WorkerId, d: DocId, i: nat, j: nat)
    requires cfg.Valid() && IsRun(cfg, orgs, states, steps) && Claimant(states, steps, w, d, i, j)
    requires NotAdmitted(History(states, steps, d), i + 1, j)
    ensures PassesFence(states[j].core, w) <==> Quiet(History(states, steps, d), i + 1, j)
  {
    FenceExact(cfg, orgs, states, steps, w, d, i, j);
    CheckComparesTickets(cfg, orgs, states, steps, w, d, i, j);
    OwnNumber(History(states, steps, d), i, j);
  }

  /** So a worker whose job was claimed again, given up or finished, and not admitted again, changes nothing of any
      document, whatever it does next. */
  lemma StaleWorkerIsHarmless(cfg: Config, orgs: set<OrgId>, states: seq<System>, steps: seq<Step>,
                              w: WorkerId, d: DocId, i: nat, j: nat, k: nat, a: Action, e: DocId)
    requires cfg.Valid() && IsRun(cfg, orgs, states, steps) && Claimant(states, steps, w, d, i, j)
    requires NotAdmitted(History(states, steps, d), i + 1, j)
    requires i < k < j && History(states, steps, d)[k] != Idle
    requires Enabled(states[j].core, a) && Actor(a) == Some(w)
    ensures View(Apply(states[j].core, a), e) == View(states[j].core, e)
  {
    FenceHolds(cfg, orgs, states, steps, w, d, i, j);
    InitOk(cfg, orgs);
    PathKeepsSysInv(states, steps, j);
    if View(Apply(states[j].core, a), e) != View(states[j].core, e) {
      WritesAreFenced(states[j].core, a, w, e);
    }
  }

  // ---------------------------------------------------------------- the knowledge queue

  /** What a step does to the knowledge job of d: a commit of its index and a retry request admit it. */
  ghost function KEventOf(s: System, t: Step, d: DocId): Event
    requires CanStep(s, t)
  {
    match t
    case Ingestion(a) =>
      if Subject(s.core, a) != d then Idle else if a.CommitIndex? then Admit else if a.CommitDelete? then Settle else Idle
    case Extract(e, _, _) => if e == d then Admit else Idle
    case KClaim(_, e, now) =>
      if e != d then Idle
      else if KClaimed(s.core.cfg, s.core.docs[d], s.kjobs[d], now).status == Processing then Hand else Settle
    case KFinish(w, _, _) => if s.kworkers[w].doc == d && KPasses(s, s.kworkers[w]) then Settle else Idle
    case KFail(w, _) => if s.kworkers[w].doc == d && KRecords(s, w) then Settle else Idle
    case _ => Idle
  }

  ghost function KHistory(states: seq<System>, steps: seq<Step>, d: DocId): (events: seq<Event>)
    requires IsPath(states, steps)
    ensures |events| == |steps| && forall k :: 0 <= k < |steps| ==> events[k] == KEventOf(states[k], steps[k], d)
  {
    seq(|steps|, k requires 0 <= k < |steps| && CanStep(states[k], steps[k]) => KEventOf(states[k], steps[k], d))
  }

  function KTicketOf(job: Option<KJob>): Option<Ticket> {
    if job.Some? then Some(Ticket(job.value.status == Processing, job.value.attempts)) else None
  }

  ghost function KTickets(states: seq<System>, d: DocId): seq<Option<Ticket>> {
    seq(|states|, k requires 0 <= k < |states| => KTicketOf(At(states[k].kjobs, d)))
  }

  lemma KStepFollows(s: System, t: Step, d: DocId)
    requires CanStep(s, t)
    ensures Follows(KTicketOf(At(s.kjobs, d)), KEventOf(s, t, d), KTicketOf(At(KJobsAfter(s, t), d)))
  {
  }

  lemma KRunIsHistory(cfg: Config, orgs: set<OrgId>, states: seq<System>, steps: seq<Step>, d: DocId)
    requires IsRun(cfg, orgs, states, steps)
    ensures IsHistory(KTickets(states, d), KHistory(states, steps, d))
  {
    var tickets, events := KTickets(states, d), KHistory(states, steps, d);
    forall k | 0 <= k < |events| ensures Follows(tickets[k], events[k], tickets[k + 1]) {
      assert CanStep(states[k], steps[k]) && states[k + 1] == Next(states[k], steps[k]);
      KStepFollows(states[k], steps[k], d);
    }
  }

  ghost predicate KInFlight(states: seq<System>, w: WorkerId, i: nat, j: nat)
    requires i <= j < |states|
  {
    forall k :: i <= k <= j ==> w in states[k].kworkers
  }

  predicate KTokenStays(s: System, s': System, w: WorkerId)
    requires w in s.kworkers && w in s'.kworkers
  {
    s'.kworkers[w].doc == s.kworkers[w].doc && s'.kworkers[w].attempt == s.kworkers[w].attempt
  }

  lemma StepKeepsKToken(s: System, t: Step, w: WorkerId)
    requires CanStep(s, t) && w in s.kworkers && w in Next(s, t).kworkers
    ensures KTokenStays(s, Next(s, t), w)
  {
  }

  lemma {:induction false} KSameAlong(states: seq<System>, w: WorkerId, i: nat, j: nat)
    requires i <= j < |states| && KInFlight(states, w, i, j)
    requires forall k :: i <= k < j ==> KTokenStays(states[k], states[k + 1], w)
    ensures KTokenStays(states[i], states[j], w)
  {
    if i < j { KSameAlong(states, w, i, j - 1); }
  }

  lemma KTokenKept(states: seq<System>, steps: seq<Step>, w: WorkerId, i: nat, j: nat)
    requires IsPath(states, steps) && i <= j < |states| && KInFlight(states, w, i, j)
    ensures KTokenStays(states[i], states[j], w)
  {
    forall k | i <= k < j ensures KTokenStays(states[k], states[k + 1], w) {
      assert w in states[k].kworkers && w in states[k + 1].kworkers;
      assert states[k + 1] == Next(states[k], steps[k]);
      StepKeepsKToken(states[k], steps[k], w);
    }
    KSameAlong(states, w, i, j);
  }

  /** Knowledge worker w claims d at step i, gets a token, and is in flight until state j. */
  ghost predicate KClaimant(states: seq<System>, steps: seq<Step>, w: WorkerId, d: DocId, i: nat, j: nat)
    requires |states| == |steps| + 1
  {
    i < j <= |steps| && steps[i].KClaim? && steps[i].worker == w && steps[i].doc == d && KInFlight(states, w, i + 1, j)
  }

  lemma KClaimHandsToken(s: System, t: Step, w: WorkerId, d: DocId)
    requires CanStep(s, t) && t.KClaim? && t.worker == w && t.doc == d && w in Next(s, t).kworkers
    ensures KEventOf(s, t, d) == Hand
    ensures var k := Next(s, t).kworkers[w];
            k.doc == d && KTicketOf(At(Next(s, t).kjobs, d)) == Some(Ticket(true, k.attempt))
  {
  }

  lemma KTokenIsTicket(s: System, w: WorkerId)
    requires SysInv(s) && w in s.kworkers
    ensures var k := s.kworkers[w];
            KTokenCurrent(s, k) <==> KTicketOf(At(s.kjobs, k.doc)) == Some(Ticket(true, k.attempt))
  {
    var d := s.kworkers[w].doc;
    if d in s.kjobs { assert KJobOk(s.core.cfg, s.core.docs, d, s.kjobs[d]); }
  }

  lemma KCheckComparesTickets(cfg: Config, orgs: set<OrgId>, states: seq<System>, steps: seq<Step>,
                              w: WorkerId, d: DocId, i: nat, j: nat)
    requires cfg.Valid() && IsRun(cfg, orgs, states, steps) && KClaimant(states, steps, w, d, i, j)
    ensures states[j].kworkers[w].doc == d && KHistory(states, steps, d)[i] == Hand
    ensures KTokenCurrent(states[j], states[j].kworkers[w]) <==> KTickets(states, d)[j] == KTickets(states, d)[i + 1]
  {
    assert CanStep(states[i], steps[i]) && states[i + 1] == Next(states[i], steps[i]);
    KClaimHandsToken(states[i], steps[i], w, d);
    KTokenKept(states, steps, w, i + 1, j);
    InitOk(cfg, orgs);
    PathKeepsSysInv(states, steps, j);
    KTokenIsTicket(states[j], w);
  }

  /** The same for an extraction: its token is accepted if and only if the last thing that happened to the knowledge
      job is the claim that is as many-th since its admission as the worker's own was. */
  lemma KFenceExact(cfg: Config, orgs: set<OrgId>, states: seq<System>, steps: seq<Step>,
                    w: WorkerId, d: DocId, i: nat, j: nat)
    requires cfg.Valid() && IsRun(cfg, orgs, states, steps) && KClaimant(states, steps, w, d, i, j)
    ensures KTokenCurrent(states[j], states[j].kworkers[w]) <==> exists k :: SameNumber(KHistory(states, steps, d), i, j, k)
  {
    KRunIsHistory(cfg, orgs, states, steps, d);
    KCheckComparesTickets(cfg, orgs, states, steps, w, d, i, j);
    AcceptedIff(KTickets(states, d), KHistory(states, steps, d), i, j);
  }

  lemma KFenceHolds(cfg: Config, orgs: set<OrgId>, states: seq<System>, steps: seq<Step>,
                    w: WorkerId, d: DocId, i: nat, j: nat)
    requires cfg.Valid() && IsRun(cfg, orgs, states, steps) && KClaimant(states, steps, w, d, i, j)
    requires NotAdmitted(KHistory(states, steps, d), i + 1, j)
    ensures KTokenCurrent(states[j], states[j].kworkers[w]) <==> Quiet(KHistory(states, steps, d), i + 1, j)
  {
    KFenceExact(cfg, orgs, states, steps, w, d, i, j);
    KCheckComparesTickets(cfg, orgs, states, steps, w, d, i, j);
    OwnNumber(KHistory(states, steps, d), i, j);
  }

  /** A knowledge worker whose job was claimed again, finished or failed, and not enqueued again, changes nothing. */
  lemma StaleKWorkerIsHarmless(cfg: Config, orgs: set<OrgId>, states: seq<System>, steps: seq<Step>,
                               w: WorkerId, d: DocId, i: nat, j: nat, k: nat, t: Step)
    requires cfg.Valid() && IsRun(cfg, orgs, states, steps) && KClaimant(states, steps, w, d, i, j)
    requires NotAdmitted(KHistory(states, steps, d), i + 1, j)
    requires i < k < j && KHistory(states, steps, d)[k] != Idle
    requires CanStep(states[j], t) && (t.KFinish? || t.KRaise? || t.KFail? || t.KCrash?) && t.worker == w
    ensures var s, s' := states[j], Next(states[j], t);
            s'.core == s.core && s'.kjobs == s.kjobs && s'.graph == s.graph
  {
    KFenceHolds(cfg, orgs, states, steps, w, d, i, j);
    InitOk(cfg, orgs);
    PathKeepsSysInv(states, steps, j);
    if Next(states[j], t).graph != states[j].graph || Next(states[j], t).kjobs != states[j].kjobs {
      KWritesAreFenced(states[j], t);
    }
  }

  // ---------------------------------------------------------------- the generation an extraction commits for

  lemma IdleKeepsKJob(s: System, t: Step, d: DocId)
    requires CanStep(s, t) && KEventOf(s, t, d) == Idle
    ensures At(KJobsAfter(s, t), d) == At(s.kjobs, d)
  {
  }

  predicate SameKJob(s: System, s': System, d: DocId) {
    At(s'.kjobs, d) == At(s.kjobs, d)
  }

  lemma {:induction false} SameKJobAlong(states: seq<System>, d: DocId, i: nat, j: nat)
    requires i <= j < |states| && forall k :: i <= k < j ==> SameKJob(states[k], states[k + 1], d)
    ensures SameKJob(states[i], states[j], d)
  {
    if i < j { SameKJobAlong(states, d, i, j - 1); }
  }

  lemma KJobKept(states: seq<System>, steps: seq<Step>, d: DocId, i: nat, j: nat)
    requires IsPath(states, steps) && i <= j <= |steps| && Quiet(KHistory(states, steps, d), i, j)
    ensures SameKJob(states[i], states[j], d)
  {
    forall k | i <= k < j ensures SameKJob(states[k], states[k + 1], d) {
      assert KHistory(states, steps, d)[k] == Idle;
      assert CanStep(states[k], steps[k]) && states[k + 1] == Next(states[k], steps[k]);
      IdleKeepsKJob(states[k], steps[k], d);
    }
    SameKJobAlong(states, d, i, j);
  }

  lemma DocAfter(c: Core, a: Action, d: DocId)
    requires Enabled(c, a)
    ensures At(Apply(c, a).docs, d) == if d == Subject(c, a) then After(c, a).doc else At(c.docs, d)
  {
  }

  lemma OwnGeneration(c: Core, a: Action)
    requires Enabled(c, a) && Subject(c, a) in c.docs && After(c, a).doc.Some?
    ensures After(c, a).doc.value.generation ==
              c.docs[Subject(c, a)].generation + (if AsksReindexOf(a) then 1 else 0)
  {
  }

  /** The step moves the generation of d by one, or not at all, as it is a reindex request or not. */
  predicate MovesGeneration(s: System, t: Step, s': System, d: DocId)
    requires d in s.core.docs && d in s'.core.docs
  {
    s'.core.docs[d].generation == s.core.docs[d].generation + (if AsksReindex(t, d) then 1 else 0)
  }

  lemma StepMovesGeneration(s: System, t: Step, d: DocId)
    requires CanStep(s, t) && d in s.core.docs && d in Next(s, t).core.docs
    ensures MovesGeneration(s, t, Next(s, t), d)
  {
    if t.Ingestion? {
      DocAfter(s.core, t.a, d);
      if d == Subject(s.core, t.a) { OwnGeneration(s.core, t.a); }
    }
  }

  /** The generation stays as it is as long as nobody asks for a reindex, and is never the same again after that. */
  lemma {:induction false} GenerationAlong(states: seq<System>, steps: seq<Step>, d: DocId, i: nat, j: nat)
    requires |states| == |steps| + 1 && i <= j <= |steps|
    requires forall k :: i <= k <= j ==> d in states[k].core.docs
    requires forall k :: i <= k < j ==> MovesGeneration(states[k], steps[k], states[k + 1], d)
    ensures states[j].core.docs[d].generation >= states[i].core.docs[d].generation
    ensures states[j].core.docs[d].generation == states[i].core.docs[d].generation <==> NoReindex(steps, d, i, j)
  {
    if i < j {
      GenerationAlong(states, steps, d, i, j - 1);
      assert MovesGeneration(states[j - 1], steps[j - 1], states[j], d);
      assert NoReindex(steps, d, i, j) <==> NoReindex(steps, d, i, j - 1) && !AsksReindex(steps[j - 1], d);
    }
  }

  predicate NoReindex(steps: seq<Step>, d: DocId, i: nat, j: nat)
    requires j <= |steps|
  {
    forall k :: i <= k < j ==> !AsksReindex(steps[k], d)
  }

  /** A token is handed out only for the document's generation, so the job's generation is the document's as long as
      nobody asks for a reindex. */
  lemma GenerationSince(states: seq<System>, steps: seq<Step>, d: DocId, k: nat, j: nat)
    requires IsPath(states, steps) && SysInv(states[0]) && k < j <= |steps|
    requires KHistory(states, steps, d)[k] == Hand && Quiet(KHistory(states, steps, d), k + 1, j)
    ensures d in states[j].kjobs && d in states[j].core.docs
    ensures states[j].kjobs[d].generation == states[j].core.docs[d].generation <==> NoReindex(steps, d, k + 1, j)
  {
    HandedForGeneration(states, steps, d, k);
    forall m | k + 1 <= m <= j ensures At(states[m].kjobs, d) == At(states[k + 1].kjobs, d) && d in states[m].core.docs {
      KJobKept(states, steps, d, k + 1, m);
      PathKeepsSysInv(states, steps, m);
      assert KJobOk(states[m].core.cfg, states[m].core.docs, d, states[m].kjobs[d]);
    }
    forall m | k + 1 <= m < j ensures MovesGeneration(states[m], steps[m], states[m + 1], d) {
      assert CanStep(states[m], steps[m]) && states[m + 1] == Next(states[m], steps[m]);
      StepMovesGeneration(states[m], steps[m], d);
    }
    GenerationAlong(states, steps, d, k + 1, j);
  }

  lemma HandedForGeneration(states: seq<System>, steps: seq<Step>, d: DocId, k: nat)
    requires IsPath(states, steps) && k < |steps| && KHistory(states, steps, d)[k] == Hand
    ensures d in states[k + 1].kjobs && d in states[k + 1].core.docs
    ensures states[k + 1].kjobs[d].generation == states[k + 1].core.docs[d].generation
  {
    assert CanStep(states[k], steps[k]) && states[k + 1] == Next(states[k], steps[k]);
  }

  /** An extraction commits its drafts if and only if the last thing that happened to the knowledge job is the claim
      of the worker's own number, and no reindex of the document was asked for since that claim. */
  lemma ExtractionCommitsIff(cfg: Config, orgs: set<OrgId>, states: seq<System>, steps: seq<Step>,
                             w: WorkerId, d: DocId, i: nat, j: nat)
    requires cfg.Valid() && IsRun(cfg, orgs, states, steps) && KClaimant(states, steps, w, d, i, j)
    ensures KPasses(states[j], states[j].kworkers[w]) <==>
              exists k :: SameNumber(KHistory(states, steps, d), i, j, k) && NoReindex(steps, d, k + 1, j)
  {
    InitOk(cfg, orgs);
    KFenceExact(cfg, orgs, states, steps, w, d, i, j);
    KCheckComparesTickets(cfg, orgs, states, steps, w, d, i, j);
    forall k | SameNumber(KHistory(states, steps, d), i, j, k)
      ensures KPasses(states[j], states[j].kworkers[w]) <==> NoReindex(steps, d, k + 1, j)
    {
      GenerationSince(states, steps, d, k, j);
    }
  }
}
