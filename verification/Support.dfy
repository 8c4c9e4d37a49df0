/** When a confirmed fact is left without evidence, told from what happened in the run.

    The transaction of an ingestion worker decides which facts to withdraw by the evidence that is committed when it
    looks, less that of its own document; it writes its decision at its commit, after the embeddings have come. Two
    such transactions do not see what the other deletes. The first part is about one fact and the transactions on the
    documents it rests on, the second about the runs of the backend. */
module Support {
  import opened Tables
  import opened Ingestion
  import opened IngestionInvariant
  import opened Evidence
  import opened System
  import opened SystemInvariant
  import opened Runs
  import Sums

  // ---------------------------------------------------------------- one fact

  /** An open transaction past its decision: its document, and whether it will withdraw the fact. */
  datatype Holding = Holding(doc: DocId, named: bool)

  /** How the fact stands: CONFIRMED or not, the documents its evidence lies in, and the open transactions. */
  datatype Stand = Stand(confirmed: bool, docs: set<DocId>, open: map<WorkerId, Holding>)

  /** What a step does to it: a transaction decides, commits or ends otherwise, or the fact is given evidence. */
  datatype Event = Weighs(w: WorkerId, d: DocId) | Commits(w: WorkerId) | Ends(w: WorkerId) | Gives(docs: set<DocId>) | Idle

  /** No open transaction is on one of these documents. */
  predicate Free(x: Stand, docs: set<DocId>) {
    forall v :: v in x.open ==> x.open[v].doc !in docs
  }

  predicate Follows(x: Stand, e: Event, x': Stand) {
    match e
    case Weighs(w, d) =>
      w !in x.open && Free(x, {d}) && x' == x.(open := x.open[w := Holding(d, x.confirmed && x.docs == {d})])
    case Commits(w) =>
      w in x.open && x' == Stand(x.confirmed && !x.open[w].named, x.docs - {x.open[w].doc}, x.open - {w})
    case Ends(w) => x' == x.(open := x.open - {w})
    case Gives(docs) => docs != {} && Free(x, docs) && x' == x.(confirmed := true, docs := x.docs + docs)
    case Idle => x' == x
  }

  predicate IsHistory(xs: seq<Stand>, events: seq<Event>) {
    && |xs| == |events| + 1 && xs[0] == Stand(false, {}, map[])
    && forall k :: 0 <= k < |events| ==> Follows(xs[k], events[k], xs[k + 1])
  }

  /** No two transactions are on one document, and a fact to be withdrawn still rests on the document of the
      transaction that will. */
  predicate Sane(x: Stand) {
    && (forall v, w :: v in x.open && w in x.open && x.open[v].doc == x.open[w].doc ==> v == w)
    && (forall w :: w in x.open && x.open[w].named ==> x.open[w].doc in x.docs)
  }

  lemma {:induction false} HistoryIsSane(xs: seq<Stand>, events: seq<Event>, j: nat)
    requires IsHistory(xs, events) && j <= |events|
    ensures Sane(xs[j])
  {
    if j > 0 {
      HistoryIsSane(xs, events, j - 1);
      assert Follows(xs[j - 1], events[j - 1], xs[j]);
    }
  }

  /** CONFIRMED, and nothing to show for it. */
  predicate Bare(x: Stand) {
    x.confirmed && x.docs == {}
  }

  /** All that is left rests on the document of transaction w, which will not withdraw the fact. */
  predicate Cornered(x: Stand, w: WorkerId) {
    w in x.open && !x.open[w].named && x.confirmed && x.docs == {x.open[w].doc}
  }

  /** Another transaction commits and leaves the fact in that position: it rested on the documents of these two and
      on no other, and neither has decided to withdraw it. */
  predicate Strips(x: Stand, e: Event, w: WorkerId) {
    && e.Commits? && e.w != w && e.w in x.open && w in x.open && !x.open[e.w].named && !x.open[w].named
    && x.confirmed && x.docs == {x.open[e.w].doc, x.open[w].doc}
  }

  lemma BareOneMore(x: Stand, e: Event, x': Stand)
    requires Sane(x) && Follows(x, e, x')
    ensures Bare(x') <==> (Bare(x) && !e.Gives?) || (e.Commits? && Cornered(x, e.w))
  {
    if e.Commits? && Bare(x') && !Bare(x) {
      assert x.open[e.w].doc in x.docs;
    }
  }

  predicate EndsOf(e: Event, w: WorkerId) {
    (e.Commits? || e.Ends?) && e.w == w
  }

  lemma CorneredOneMore(x: Stand, e: Event, x': Stand, w: WorkerId)
    requires Sane(x) && Follows(x, e, x')
    ensures Cornered(x', w) <==> (Cornered(x, w) && !EndsOf(e, w) && !e.Gives?) || Strips(x, e, w)
  {
    if e.Commits? && e.w != w && w in x.open {
      var d, d' := x.open[w].doc, x.open[e.w].doc;
      assert d != d';
      if x.docs - {d'} == {d} { assert x.docs == {d} || x.docs == {d, d'}; }
    } else if e.Gives? && w in x.open {
      var given :| given in e.docs;
      assert given in x'.docs && given != x.open[w].doc;
    }
  }

  // ---------------------------------------------------------------- over a history

  predicate NothingGiven(events: seq<Event>, i: nat, j: nat)
    requires j <= |events|
  {
    forall k :: i <= k < j ==> !events[k].Gives?
  }

  predicate StaysOpen(events: seq<Event>, w: WorkerId, i: nat, j: nat)
    requires j <= |events|
  {
    forall k :: i <= k < j ==> !EndsOf(events[k], w)
  }

  /** At step m a transaction leaves the fact resting on the document of w alone, and w is open until k. */
  predicate CorneredAt(xs: seq<Stand>, events: seq<Event>, m: int, k: nat, w: WorkerId)
    requires |xs| == |events| + 1 && k <= |events|
  {
    0 <= m < k && Strips(xs[m], events[m], w) && StaysOpen(events, w, m, k) && NothingGiven(events, m, k)
  }

  lemma {:induction false} CorneredIff(xs: seq<Stand>, events: seq<Event>, k: nat, w: WorkerId)
    requires IsHistory(xs, events) && k <= |events|
    ensures Cornered(xs[k], w) <==> exists m :: CorneredAt(xs, events, m, k, w)
  {
    if k > 0 {
      var n := k - 1;
      CorneredIff(xs, events, n, w);
      HistoryIsSane(xs, events, n);
      assert Follows(xs[n], events[n], xs[k]);
      CorneredOneMore(xs[n], events[n], xs[k], w);
      if Cornered(xs[n], w) && !EndsOf(events[n], w) && !events[n].Gives? {
        var m :| CorneredAt(xs, events, m, n, w);
        assert CorneredAt(xs, events, m, k, w);
      }
      if Strips(xs[n], events[n], w) { assert CorneredAt(xs, events, n, k, w); }
      if m :| CorneredAt(xs, events, m, k, w) {
        if m < n { assert CorneredAt(xs, events, m, n, w); }
      }
    }
  }

  /** Two transactions overlapped on the fact: at step m the one commits, at step k the other, and since m nobody has
      given the fact evidence. */
  predicate Robbed(xs: seq<Stand>, events: seq<Event>, j: nat, m: int, k: int)
    requires |xs| == |events| + 1 && j <= |events|
  {
    && 0 <= k < j && events[k].Commits? && CorneredAt(xs, events, m, k, events[k].w)
    && NothingGiven(events, k, j)
  }

  lemma {:induction false} BareIff(xs: seq<Stand>, events: seq<Event>, j: nat)
    requires IsHistory(xs, events) && j <= |events|
    ensures Bare(xs[j]) <==> exists m, k :: Robbed(xs, events, j, m, k)
  {
    if j > 0 {
      var n := j - 1;
      BareIff(xs, events, n);
      HistoryIsSane(xs, events, n);
      assert Follows(xs[n], events[n], xs[j]);
      BareOneMore(xs[n], events[n], xs[j]);
      if Bare(xs[n]) && !events[n].Gives? {
        var m, k :| Robbed(xs, events, n, m, k);
        assert Robbed(xs, events, j, m, k);
      }
      if events[n].Commits? && Cornered(xs[n], events[n].w) {
        CorneredIff(xs, events, n, events[n].w);
        var m :| CorneredAt(xs, events, m, n, events[n].w);
        assert Robbed(xs, events, j, m, n);
      }
      if m, k :| Robbed(xs, events, j, m, k) {
        if k < n {
          assert Robbed(xs, events, n, m, k);
        } else {
          CorneredIff(xs, events, n, events[n].w);
        }
      }
    }
  }

  /** No two open transactions are on documents the fact rests on. */
  predicate NoClash(x: Stand) {
    forall v, w :: v in x.open && w in x.open && x.open[v].doc in x.docs && x.open[w].doc in x.docs ==> v == w
  }

  lemma NeverBare(xs: seq<Stand>, events: seq<Event>, j: nat)
    requires IsHistory(xs, events) && j <= |events|
    requires forall k :: 0 <= k < j ==> NoClash(xs[k])
    ensures !Bare(xs[j])
  {
    BareIff(xs, events, j);
  }

  // ---------------------------------------------------------------- withdrawn with evidence

  /** Not CONFIRMED, although there is evidence. */
  predicate Slighted(x: Stand) {
    !x.confirmed && x.docs != {}
  }

  /** At step m the fact was given evidence in document d while w, which will withdraw it, was open, and w is open
      until k. */
  predicate GivenMeanwhile(xs: seq<Stand>, events: seq<Event>, d: DocId, m: int, k: nat, w: WorkerId)
    requires |xs| == |events| + 1 && k <= |events|
  {
    && 0 <= m < k && events[m].Gives? && d in events[m].docs && w in xs[m].open && xs[m].open[w].named
    && StaysOpen(events, w, m, k)
  }

  /** Whoever will withdraw a fact that rests on another document as well was overtaken by a gift of evidence. */
  lemma {:induction false} NamedMeanwhile(xs: seq<Stand>, events: seq<Event>, d: DocId, k: nat, w: WorkerId)
    requires IsHistory(xs, events) && k <= |events|
    requires w in xs[k].open && xs[k].open[w].named && d in xs[k].docs && d != xs[k].open[w].doc
    ensures exists m :: GivenMeanwhile(xs, events, d, m, k, w)
    decreases k
  {
    assert k > 0;
    var n := k - 1;
    assert Follows(xs[n], events[n], xs[k]);
    if w in xs[n].open && d in xs[n].docs {
      NamedMeanwhile(xs, events, d, n, w);
      var m :| GivenMeanwhile(xs, events, d, m, n, w);
      assert GivenMeanwhile(xs, events, d, m, k, w);
    } else {
      assert GivenMeanwhile(xs, events, d, n, k, w);
    }
  }

  lemma {:induction false} StillNamed(xs: seq<Stand>, events: seq<Event>, m: nat, k: nat, w: WorkerId)
    requires IsHistory(xs, events) && m <= k <= |events| && StaysOpen(events, w, m, k) && w in xs[m].open
    ensures w in xs[k].open && xs[k].open[w] == xs[m].open[w]
    decreases k
  {
    if m < k {
      StillNamed(xs, events, m, k - 1, w);
      assert Follows(xs[k - 1], events[k - 1], xs[k]);
    }
  }

  /** A fact is withdrawn although evidence of it in document d has been committed and is there. */
  predicate WithdrawnOver(xs: seq<Stand>, events: seq<Event>, j: nat, d: DocId, m: int, k: int)
    requires |xs| == |events| + 1 && j <= |events|
  {
    && 0 <= k < j && events[k].Commits? && GivenMeanwhile(xs, events, d, m, k, events[k].w)
    && NothingGiven(events, k, j) && d in xs[j].docs
  }

  lemma {:induction false} StaysUnconfirmed(xs: seq<Stand>, events: seq<Event>, k: nat, j: nat)
    requires IsHistory(xs, events) && k <= j <= |events| && NothingGiven(events, k, j) && !xs[k].confirmed
    ensures !xs[j].confirmed && xs[j].docs <= xs[k].docs
    decreases j
  {
    if k < j {
      StaysUnconfirmed(xs, events, k, j - 1);
      assert Follows(xs[j - 1], events[j - 1], xs[j]);
    }
  }

  /** It lost its status in a commit, or never had it; since then nobody has given it evidence. */
  lemma {:induction false} LostAt(xs: seq<Stand>, events: seq<Event>, j: nat) returns (k: nat)
    requires IsHistory(xs, events) && j <= |events| && Slighted(xs[j])
    ensures k < j && events[k].Commits? && events[k].w in xs[k].open && xs[k].open[events[k].w].named
    ensures NothingGiven(events, k, j) && xs[j].docs <= xs[k].docs - {xs[k].open[events[k].w].doc}
    decreases j
  {
    assert Follows(xs[j - 1], events[j - 1], xs[j]);
    k := j - 1;
    if !xs[k].confirmed {
      k := LostAt(xs, events, k);
    }
  }

  lemma SlightedIff(xs: seq<Stand>, events: seq<Event>, j: nat)
    requires IsHistory(xs, events) && j <= |events|
    ensures Slighted(xs[j]) <==> exists d, m, k :: WithdrawnOver(xs, events, j, d, m, k)
  {
    if Slighted(xs[j]) {
      var k := LostAt(xs, events, j);
      var d :| d in xs[j].docs;
      NamedMeanwhile(xs, events, d, k, events[k].w);
      var m :| GivenMeanwhile(xs, events, d, m, k, events[k].w);
      assert WithdrawnOver(xs, events, j, d, m, k);
    }
    if d, m, k :| WithdrawnOver(xs, events, j, d, m, k) {
      StillNamed(xs, events, m, k, events[k].w);
      assert Follows(xs[k], events[k], xs[k + 1]);
      StaysUnconfirmed(xs, events, k + 1, j);
    }
  }

  // ---------------------------------------------------------------- the facts of the backend

  /** An entity or a relationship. */
  datatype FactRef = FactRef(entity: bool, id: FactId)

  function LedgerOf(g: Graph, f: FactRef): Ledger {
    if f.entity then g.entities else g.relations
  }

  function NamedBy(v: Verdict, f: FactRef): bool {
    f.id in if f.entity then v.entities else v.relations
  }

  predicate IsConfirmed(g: Graph, f: FactRef) {
    f.id in LedgerOf(g, f).facts && LedgerOf(g, f).facts[f.id].status == Confirmed
  }

  /** The documents the evidence of f lies in. */
  function RestsOn(links: set<Link>, f: FactId): set<DocId> {
    set l | l in links && l.fact == f :: l.chunk.doc
  }

  ghost function Holdings(pending: map<WorkerId, Verdict>, workers: map<WorkerId, Worker>, f: FactRef)
    : (r: map<WorkerId, Holding>)
    ensures forall w :: w in r <==> w in pending && w in workers
    ensures forall w :: w in r ==> r[w] == Holding(workers[w].doc, NamedBy(pending[w], f))
    decreases |pending|
  {
    if pending == map[] then map[]
    else
      var w :| w in pending;
      Sums.Shrinks(pending, w);
      var rest := Holdings(pending - {w}, workers, f);
      if w in workers then rest[w := Holding(workers[w].doc, NamedBy(pending[w], f))] else rest
  }

  ghost function OpenOn(s: System, f: FactRef): map<WorkerId, Holding> {
    Holdings(s.pending, s.core.workers, f)
  }

  ghost function StandOf(s: System, f: FactRef): Stand {
    Stand(IsConfirmed(s.graph, f), RestsOn(LedgerOf(s.graph, f).links, f.id), OpenOn(s, f))
  }

  function DocsOf(chunks: set<ChunkId>): set<DocId> {
    set k | k in chunks :: k.doc
  }

  ghost function EventOf(s: System, t: Step, f: FactRef): Event
    requires CanStep(s, t)
  {
    match t
    case Ingestion(a) =>
      if a.Weigh? then Weighs(a.worker, Subject(s.core, a))
      else if a.CommitIndex? || a.CommitDelete? then Commits(a.worker)
      else if a.Raise? || a.Crash? then Ends(a.worker)
      else Idle
    case CreateEntity(_, id, _, chunks) => if f == FactRef(true, id) then Gives(DocsOf(chunks)) else Idle
    case CreateRelationship(_, id, _, _, chunks) => if f == FactRef(false, id) then Gives(DocsOf(chunks)) else Idle
    case AcceptNew(_, p, id) => if f == FactRef(true, id) then Gives({s.graph.proposals[p].chunk.doc}) else Idle
    case AcceptExisting(_, p, id) => if f == FactRef(true, id) then Gives({s.graph.proposals[p].chunk.doc}) else Idle
    case AcceptRelationship(_, p, id, _, _) =>
      if f == FactRef(false, id) then Gives({s.graph.proposals[p].chunk.doc}) else Idle
    case _ => Idle
  }

  ghost function Events(states: seq<System>, steps: seq<Step>, f: FactRef): (events: seq<Event>)
    requires IsPath(states, steps)
    ensures |events| == |steps| && forall k :: 0 <= k < |steps| ==> events[k] == EventOf(states[k], steps[k], f)
  {
    seq(|steps|, k requires 0 <= k < |steps| && CanStep(states[k], steps[k]) => EventOf(states[k], steps[k], f))
  }

  ghost function Stands(states: seq<System>, f: FactRef): seq<Stand> {
    seq(|states|, k requires 0 <= k < |states| => StandOf(states[k], f))
  }

  // --- evidence by documents

  /** The rows of a document are what evidence with its key cites. */
  lemma CitesRows(c: Core, b: Ledger, l: Link, d: DocId)
    requires Inv(c) && LedgerOk(c, b) && l in b.links
    ensures l.chunk in RowsOf(c.chunks, d).Keys <==> l.chunk.doc == d
  {
    assert LinkOk(c, b, l);
    ChunkHasDocument(c, l.chunk);
  }

  lemma RemainsOn(c: Core, b: Ledger, d: DocId, f: FactId)
    requires Inv(c) && LedgerOk(c, b)
    ensures RestsOn(Remaining(b.links, RowsOf(c.chunks, d).Keys), f) == RestsOn(b.links, f) - {d}
  {
    var gone := RowsOf(c.chunks, d).Keys;
    forall l | l in b.links ensures l.chunk in gone <==> l.chunk.doc == d { CitesRows(c, b, l, d); }
    forall e | e in RestsOn(b.links, f) - {d} ensures e in RestsOn(Remaining(b.links, gone), f) {
      var l :| l in b.links && l.fact == f && l.chunk.doc == e;
      assert l in Remaining(b.links, gone);
    }
  }

  lemma SupportedIs(links: set<Link>, f: FactId)
    ensures Supported(links, f) <==> RestsOn(links, f) != {}
  {
    if l :| l in links && l.fact == f { assert l.chunk.doc in RestsOn(links, f); }
  }

  /** A decision names the confirmed facts that rest on its document alone. */
  lemma LapsesIff(c: Core, b: Ledger, d: DocId, f: FactId)
    requires Inv(c) && LedgerOk(c, b)
    ensures Lapses(b, RowsOf(c.chunks, d).Keys, f) <==>
              f in b.facts && b.facts[f].status == Confirmed && RestsOn(b.links, f) == {d}
  {
    RemainsOn(c, b, d, f);
    SupportedIs(b.links, f);
    SupportedIs(Remaining(b.links, RowsOf(c.chunks, d).Keys), f);
  }

  lemma CarriedStand(c: Core, b: Ledger, d: DocId, named: set<FactId>, f: FactId)
    requires Inv(c) && LedgerOk(c, b)
    ensures var b' := Carry(b, RowsOf(c.chunks, d).Keys, named);
            && RestsOn(b'.links, f) == RestsOn(b.links, f) - {d}
            && (f in b'.facts && b'.facts[f].status == Confirmed <==>
                  f in b.facts && b.facts[f].status == Confirmed && f !in named)
  {
    RemainsOn(c, b, d, f);
  }

  lemma InsertedStand(b: Ledger, f: FactId, fact: Fact, chunks: set<ChunkId>, g: FactId)
    ensures RestsOn(Insert(b, f, fact, chunks).links, g) == RestsOn(b.links, g) + if g == f then DocsOf(chunks) else {}
  {
    var links := Insert(b, f, fact, chunks).links;
    forall d | d in RestsOn(b.links, g) ensures d in RestsOn(links, g) {
      var l :| l in b.links && l.fact == g && l.chunk.doc == d;
      assert l in links;
    }
    if g == f {
      forall d | d in DocsOf(chunks) ensures d in RestsOn(links, g) {
        var k :| k in chunks && k.doc == d;
        assert Link(f, k) in links;
      }
    }
  }

  // --- open transactions

  /** The document of an open transaction is locked. */
  lemma OpenIsLocked(s: System, w: WorkerId)
    requires SysInv(s) && w in s.pending
    ensures w in s.core.workers && HasWeighed(s.core.workers[w].phase)
    ensures s.core.workers[w].doc in s.core.locks && s.core.locks[s.core.workers[w].doc] == w
  {
    assert PendingOf(s, w) && LockTaken(s.core, w);
  }

  lemma UnlockedIsFree(s: System, f: FactRef, docs: set<DocId>)
    requires SysInv(s) && forall d :: d in docs ==> d !in s.core.locks
    ensures Free(StandOf(s, f), docs)
  {
    forall w | w in OpenOn(s, f) ensures OpenOn(s, f)[w].doc !in docs { OpenIsLocked(s, w); }
  }

  lemma CrewKeepsDoc(c: Core, a: Action, w: WorkerId)
    requires Enabled(c, a) && w in c.workers && w in Crew(c, a)
    ensures Crew(c, a)[w].doc == c.workers[w].doc
  {
  }

  predicate EndsTransaction(a: Action) {
    a.CommitIndex? || a.CommitDelete? || a.Raise? || a.Crash?
  }

  predicate SameDocs(workers: map<WorkerId, Worker>, workers': map<WorkerId, Worker>) {
    forall w :: w in workers && w in workers' ==> workers'[w].doc == workers[w].doc
  }

  lemma HoldingsKept(pending: map<WorkerId, Verdict>, workers: map<WorkerId, Worker>, workers': map<WorkerId, Worker>,
                     f: FactRef)
    requires pending.Keys <= workers.Keys && pending.Keys <= workers'.Keys && SameDocs(workers, workers')
    ensures Holdings(pending, workers', f) == Holdings(pending, workers, f)
  {
  }

  lemma HoldingsSet(pending: map<WorkerId, Verdict>, workers: map<WorkerId, Worker>, workers': map<WorkerId, Worker>,
                    f: FactRef, w: WorkerId, v: Option<Verdict>)
    requires pending.Keys <= workers.Keys && Set(pending, w, v).Keys <= workers'.Keys && SameDocs(workers, workers')
    requires v.Some? ==> w in workers
    ensures Holdings(Set(pending, w, v), workers', f) ==
              Set(Holdings(pending, workers, f), w,
                  if v.Some? then Some(Holding(workers[w].doc, NamedBy(v.value, f))) else None)
  {
  }

  lemma AtWork(s: System)
    requires SysInv(s)
    ensures s.pending.Keys <= s.core.workers.Keys
  {
    forall w | w in s.pending ensures w in s.core.workers { assert PendingOf(s, w); }
  }

  lemma CrewKeepsDocs(c: Core, a: Action)
    requires Enabled(c, a)
    ensures SameDocs(c.workers, Crew(c, a))
  {
    forall w | w in c.workers && w in Crew(c, a) ensures Crew(c, a)[w].doc == c.workers[w].doc {
      CrewKeepsDoc(c, a, w);
    }
  }

  ghost function Sentence(s: System, a: Action): Option<Verdict>
    requires Enabled(s.core, a) && a.Weigh?
  {
    Some(VerdictOn(s.graph, RowsOf(s.core.chunks, Subject(s.core, a)).Keys))
  }

  /** The open transactions after a step of the first queue. */
  lemma OpenAfter(s: System, a: Action, f: FactRef)
    requires SysInv(s) && Enabled(s.core, a)
    ensures OpenOn(Next(s, Ingestion(a)), f) ==
              if a.Weigh? then
                OpenOn(s, f)[a.worker := Holding(Subject(s.core, a), NamedBy(Sentence(s, a).value, f))]
              else if EndsTransaction(a) then OpenOn(s, f) - {a.worker}
              else OpenOn(s, f)
  {
    AtWork(s);
    StepKeepsSysInv(s, Ingestion(a));
    AtWork(Next(s, Ingestion(a)));
    CrewKeepsDocs(s.core, a);
    OpenChanges(s, a, f);
  }

  lemma OpenChanges(s: System, a: Action, f: FactRef)
    requires Enabled(s.core, a) && SameDocs(s.core.workers, Crew(s.core, a))
    requires s.pending.Keys <= s.core.workers.Keys && PendingAfter(s, Ingestion(a)).Keys <= Crew(s.core, a).Keys
    ensures Holdings(PendingAfter(s, Ingestion(a)), Crew(s.core, a), f) ==
              if a.Weigh? then
                OpenOn(s, f)[a.worker := Holding(Subject(s.core, a), NamedBy(Sentence(s, a).value, f))]
              else if EndsTransaction(a) then OpenOn(s, f) - {a.worker}
              else OpenOn(s, f)
  {
    if a.Weigh? {
      HoldingsSet(s.pending, s.core.workers, Crew(s.core, a), f, a.worker, Sentence(s, a));
    } else if EndsTransaction(a) {
      HoldingsSet(s.pending, s.core.workers, Crew(s.core, a), f, a.worker, None);
    } else {
      HoldingsKept(s.pending, s.core.workers, Crew(s.core, a), f);
    }
  }

  lemma WeigherIsAlone(s: System, a: Action, f: FactRef)
    requires SysInv(s) && Enabled(s.core, a) && a.Weigh?
    ensures a.worker !in OpenOn(s, f) && Free(StandOf(s, f), {Subject(s.core, a)})
  {
    var w, d := a.worker, Subject(s.core, a);
    assert PendingOf(s, w) && LockTaken(s.core, w);
    forall v | v in OpenOn(s, f) ensures OpenOn(s, f)[v].doc != d { OpenIsLocked(s, v); }
  }

  /** A decision names the fact exactly when it is CONFIRMED and rests on this document alone. */
  lemma SentenceIs(s: System, a: Action, f: FactRef)
    requires SysInv(s) && Enabled(s.core, a) && a.Weigh?
    ensures NamedBy(Sentence(s, a).value, f) <==>
              IsConfirmed(s.graph, f) && RestsOn(LedgerOf(s.graph, f).links, f.id) == {Subject(s.core, a)}
  {
    var gone := RowsOf(s.core.chunks, Subject(s.core, a)).Keys;
    LapsesIff(s.core, LedgerOf(s.graph, f), Subject(s.core, a), f.id);
    assert f.id in Lapsing(LedgerOf(s.graph, f), gone) <==> Lapses(LedgerOf(s.graph, f), gone, f.id);
  }

  lemma WeighFollows(s: System, a: Action, f: FactRef)
    requires SysInv(s) && Enabled(s.core, a) && a.Weigh?
    ensures Follows(StandOf(s, f), EventOf(s, Ingestion(a), f), StandOf(Next(s, Ingestion(a)), f))
  {
    OpenAfter(s, a, f);
    WeigherIsAlone(s, a, f);
    SentenceIs(s, a, f);
  }

  lemma CommitFollows(s: System, a: Action, f: FactRef)
    requires SysInv(s) && Enabled(s.core, a) && (a.CommitIndex? || a.CommitDelete?)
    ensures Follows(StandOf(s, f), EventOf(s, Ingestion(a), f), StandOf(Next(s, Ingestion(a)), f))
  {
    var w, d := a.worker, Subject(s.core, a);
    OpenAfter(s, a, f);
    assert PendingOf(s, w);
    var v := s.pending[w];
    CarriedStand(s.core, LedgerOf(s.graph, f), d, if f.entity then v.entities else v.relations, f.id);
  }

  lemma OtherActionFollows(s: System, a: Action, f: FactRef)
    requires SysInv(s) && Enabled(s.core, a) && !a.Weigh? && !a.CommitIndex? && !a.CommitDelete?
    ensures Follows(StandOf(s, f), EventOf(s, Ingestion(a), f), StandOf(Next(s, Ingestion(a)), f))
  {
    OpenAfter(s, a, f);
  }

  /** Only the graph may differ. */
  predicate SameTransactions(s: System, s': System) {
    s'.core == s.core && s'.pending == s.pending
  }

  /** This fact is given evidence. */
  lemma GiftFollows(s: System, s': System, f: FactRef, fact: Fact, chunks: set<ChunkId>)
    requires SysInv(s) && SameTransactions(s, s') && chunks != {} && fact.status == Confirmed
    requires LedgerOf(s'.graph, f) == Insert(LedgerOf(s.graph, f), f.id, fact, chunks)
    requires forall k :: k in chunks ==> k.doc !in s.core.locks
    ensures Follows(StandOf(s, f), Gives(DocsOf(chunks)), StandOf(s', f))
  {
    InsertedStand(LedgerOf(s.graph, f), f.id, fact, chunks, f.id);
    UnlockedIsFree(s, f, DocsOf(chunks));
    var k :| k in chunks;
    assert k.doc in DocsOf(chunks);
  }

  /** Another fact is given evidence. */
  lemma OtherFactStands(s: System, s': System, f: FactRef, g: FactId, fact: Fact, chunks: set<ChunkId>)
    requires SameTransactions(s, s') && g != f.id
    requires LedgerOf(s'.graph, f) == Insert(LedgerOf(s.graph, f), g, fact, chunks)
    ensures StandOf(s', f) == StandOf(s, f)
  {
    InsertedStand(LedgerOf(s.graph, f), g, fact, chunks, f.id);
  }

  lemma SameLedgerStands(s: System, s': System, f: FactRef)
    requires SameTransactions(s, s')
    requires LedgerOf(s'.graph, f).facts == LedgerOf(s.graph, f).facts
    requires LedgerOf(s'.graph, f).links == LedgerOf(s.graph, f).links
    ensures StandOf(s', f) == StandOf(s, f)
  {
  }

  lemma GraphStepKeepsOpen(s: System, t: Step)
    requires CanStep(s, t) && !t.Ingestion?
    ensures SameTransactions(s, Next(s, t)) && Next(s, t).graph == GraphAfter(s, t)
  {
  }

  /** What a step inserts into the ledgers. */
  datatype Gift = Gift(f: FactRef, fact: Fact, chunks: set<ChunkId>)

  ghost function GiftOf(s: System, t: Step): Option<Gift>
    requires CanStep(s, t)
  {
    match t
    case CreateEntity(org, f, kind, chunks) => Some(Gift(FactRef(true, f), Fact(org, Confirmed, EntityOf(kind)), chunks))
    case CreateRelationship(org, f, subject, target, chunks) =>
      Some(Gift(FactRef(false, f), Fact(org, Confirmed, Edge(subject, target)), chunks))
    case AcceptNew(org, p, f) =>
      Some(Gift(FactRef(true, f), Fact(org, Confirmed, EntityOf(s.graph.proposals[p].kind)), {s.graph.proposals[p].chunk}))
    case AcceptExisting(_, p, f) =>
      Some(Gift(FactRef(true, f), s.graph.entities.facts[f].(status := Confirmed), {s.graph.proposals[p].chunk}))
    case AcceptRelationship(org, p, f, subject, target) =>
      Some(Gift(FactRef(false, f), Fact(org, Confirmed, Edge(subject, target)), {s.graph.proposals[p].chunk}))
    case _ => None
  }

  lemma GiftInserts(s: System, t: Step, f: FactRef)
    requires CanStep(s, t) && !t.Ingestion?
    ensures var gift, b, b' := GiftOf(s, t), LedgerOf(s.graph, f), LedgerOf(GraphAfter(s, t), f);
            && (gift.Some? && gift.value.f.entity == f.entity ==>
                  b' == Insert(b, gift.value.f.id, gift.value.fact, gift.value.chunks))
            && (gift.None? || gift.value.f.entity != f.entity ==> b'.facts == b.facts && b'.links == b.links)
    ensures GiftOf(s, t).Some? ==> GiftOf(s, t).value.fact.status == Confirmed
  {
  }

  lemma GiftIsEvent(s: System, t: Step, f: FactRef)
    requires CanStep(s, t) && !t.Ingestion?
    ensures EventOf(s, t, f) ==
              if GiftOf(s, t).Some? && GiftOf(s, t).value.f == f then Gives(DocsOf(GiftOf(s, t).value.chunks)) else Idle
  {
    if GiftOf(s, t).Some? && !t.CreateEntity? && !t.CreateRelationship? {
      var k := s.graph.proposals[t.proposal].chunk;
      assert DocsOf({k}) == {k.doc};
    }
  }

  /** Evidence is given from unlocked documents only. */
  lemma GiftIsUnlocked(s: System, t: Step)
    requires SysInv(s) && CanStep(s, t) && GiftOf(s, t).Some?
    ensures GiftOf(s, t).value.chunks != {}
    ensures forall k :: k in GiftOf(s, t).value.chunks ==> k.doc !in s.core.locks
  {
    if t.CreateEntity? || t.CreateRelationship? {
      forall k | k in t.chunks ensures k.doc !in s.core.locks { ChunkHasDocument(s.core, k); }
    } else {
      assert ProposalOk(s.core, s.graph.proposals[t.proposal]);
    }
  }

  lemma GraphStepFollows(s: System, t: Step, f: FactRef)
    requires SysInv(s) && CanStep(s, t) && !t.Ingestion?
    ensures Follows(StandOf(s, f), EventOf(s, t, f), StandOf(Next(s, t), f))
  {
    GiftInserts(s, t, f);
    GiftIsEvent(s, t, f);
    GraphStepKeepsOpen(s, t);
    var gift, s' := GiftOf(s, t), Next(s, t);
    if gift.None? || gift.value.f.entity != f.entity {
      SameLedgerStands(s, s', f);
    } else if gift.value.f.id == f.id {
      GiftIsUnlocked(s, t);
      GiftFollows(s, s', f, gift.value.fact, gift.value.chunks);
    } else {
      OtherFactStands(s, s', f, gift.value.f.id, gift.value.fact, gift.value.chunks);
    }
  }

  lemma StepFollows(s: System, t: Step, f: FactRef)
    requires SysInv(s) && CanStep(s, t)
    ensures Follows(StandOf(s, f), EventOf(s, t, f), StandOf(Next(s, t), f))
  {
    if !t.Ingestion? {
      GraphStepFollows(s, t, f);
    } else if t.a.Weigh? {
      WeighFollows(s, t.a, f);
    } else if t.a.CommitIndex? || t.a.CommitDelete? {
      CommitFollows(s, t.a, f);
    } else {
      OtherActionFollows(s, t.a, f);
    }
  }

  lemma RunIsHistory(cfg: Config, orgs: set<OrgId>, states: seq<System>, steps: seq<Step>, f: FactRef)
    requires cfg.Valid() && IsRun(cfg, orgs, states, steps)
    ensures IsHistory(Stands(states, f), Events(states, steps, f))
  {
    var xs, events := Stands(states, f), Events(states, steps, f);
    forall k | 0 <= k < |events| ensures Follows(xs[k], events[k], xs[k + 1]) {
      RunKeepsSysInv(cfg, orgs, states, steps, k);
      assert CanStep(states[k], steps[k]) && states[k + 1] == Next(states[k], steps[k]);
      StepFollows(states[k], steps[k], f);
    }
    assert RestsOn({}, f.id) == {};
    assert OpenOn(Init(cfg, orgs), f) == map[];
  }

  // ---------------------------------------------------------------- what holds in every run

  /** CONFIRMED without any evidence. */
  predicate Unsupported(s: System, f: FactRef) {
    IsConfirmed(s.graph, f) && !Supported(LedgerOf(s.graph, f).links, f.id)
  }

  /** On every run: a CONFIRMED fact is without evidence if and only if two transactions have overlapped on it. At
      step m the one committed while the other had already decided too; the fact rested on their two documents and no
      other, and neither was going to withdraw it, since each saw the evidence the other was about to delete. At step k
      the other committed, and since m nobody has given the fact evidence. */
  lemma UnsupportedIff(cfg: Config, orgs: set<OrgId>, states: seq<System>, steps: seq<Step>, j: nat, f: FactRef)
    requires cfg.Valid() && IsRun(cfg, orgs, states, steps) && j <= |steps|
    ensures Unsupported(states[j], f) <==> exists m, k :: Robbed(Stands(states, f), Events(states, steps, f), j, m, k)
  {
    RunIsHistory(cfg, orgs, states, steps, f);
    SupportedIs(LedgerOf(states[j].graph, f).links, f.id);
    BareIff(Stands(states, f), Events(states, steps, f), j);
  }

  /** Worker w has decided, and its document is one f rests on. */
  predicate Holds(s: System, w: WorkerId, f: FactRef) {
    && w in s.pending && w in s.core.workers
    && exists l :: l in LedgerOf(s.graph, f).links && l.fact == f.id && l.chunk.doc == s.core.workers[w].doc
  }

  /** No two workers hold f at once. */
  ghost predicate HeldByOne(s: System, f: FactRef) {
    forall v, w :: Holds(s, v, f) && Holds(s, w, f) ==> v == w
  }

  lemma HeldByOneIs(s: System, f: FactRef)
    requires HeldByOne(s, f)
    ensures NoClash(StandOf(s, f))
  {
    var x := StandOf(s, f);
    forall v, w | v in x.open && w in x.open && x.open[v].doc in x.docs && x.open[w].doc in x.docs ensures v == w {
      assert Holds(s, v, f) && Holds(s, w, f);
    }
  }

  /** As long as no two transactions past their decision share the fact, a CONFIRMED fact has evidence: a chunk that
      exists, in a document of the fact's own organization. */
  lemma ConfirmedHasEvidence(cfg: Config, orgs: set<OrgId>, states: seq<System>, steps: seq<Step>, j: nat, f: FactRef)
    returns (l: Link)
    requires cfg.Valid() && IsRun(cfg, orgs, states, steps) && j <= |steps|
    requires forall i :: 0 <= i < j ==> HeldByOne(states[i], f)
    requires IsConfirmed(states[j].graph, f)
    ensures var b, c := LedgerOf(states[j].graph, f), states[j].core;
            && l in b.links && l.fact == f.id && l.chunk in c.chunks
            && c.chunks[l.chunk].document in c.docs
            && c.docs[c.chunks[l.chunk].document].org == b.facts[f.id].org
  {
    RunIsHistory(cfg, orgs, states, steps, f);
    forall i | 0 <= i < j ensures NoClash(Stands(states, f)[i]) { HeldByOneIs(states[i], f); }
    NeverBare(Stands(states, f), Events(states, steps, f), j);
    var b := LedgerOf(states[j].graph, f);
    SupportedIs(b.links, f.id);
    l :| l in b.links && l.fact == f.id;
    RunKeepsSysInv(cfg, orgs, states, steps, j);
    assert LinkOk(states[j].core, b, l);
    ChunkHasDocument(states[j].core, l.chunk);
  }

  /** With one ingestion worker at a time that is every fact. */
  lemma OneWorkerSuffices(cfg: Config, orgs: set<OrgId>, states: seq<System>, steps: seq<Step>, j: nat, f: FactRef)
    requires cfg.Valid() && IsRun(cfg, orgs, states, steps) && j <= |steps|
    requires forall i, v, w :: 0 <= i < j && v in states[i].core.workers && w in states[i].core.workers ==> v == w
    ensures !Unsupported(states[j], f)
  {
    if IsConfirmed(states[j].graph, f) {
      forall i | 0 <= i < j ensures HeldByOne(states[i], f) {
        forall v, w | Holds(states[i], v, f) && Holds(states[i], w, f) ensures v == w {
          assert v in states[i].core.workers && w in states[i].core.workers;
        }
      }
      var l := ConfirmedHasEvidence(cfg, orgs, states, steps, j, f);
    }
  }

  /** What a transaction will withdraw is fixed when it decides: the facts then CONFIRMED that rest on its document
      alone. Whatever is committed until it ends does not change it. */
  lemma DecisionIs(cfg: Config, orgs: set<OrgId>, states: seq<System>, steps: seq<Step>, i: nat, k: nat,
                   w: WorkerId, f: FactRef)
    requires cfg.Valid() && IsRun(cfg, orgs, states, steps) && i < k <= |steps|
    requires steps[i] == Ingestion(Weigh(w)) && StaysOpen(Events(states, steps, f), w, i + 1, k)
    ensures w in states[i].core.workers && w in states[k].pending
    ensures NamedBy(states[k].pending[w], f) <==>
              IsConfirmed(states[i].graph, f)
              && RestsOn(LedgerOf(states[i].graph, f).links, f.id) == {states[i].core.workers[w].doc}
  {
    RunIsHistory(cfg, orgs, states, steps, f);
    assert CanStep(states[i], steps[i]);
    assert Follows(Stands(states, f)[i], Events(states, steps, f)[i], Stands(states, f)[i + 1]);
    StillNamed(Stands(states, f), Events(states, steps, f), i + 1, k, w);
  }

  /** On every run: a fact is not CONFIRMED although it has evidence if and only if, between the decision of a
      transaction to withdraw it and its commit at step k, evidence from another document was accepted at step m, is
      still there, and nothing has been accepted since k. */
  lemma WithdrawnWithEvidenceIff(cfg: Config, orgs: set<OrgId>, states: seq<System>, steps: seq<Step>, j: nat, f: FactRef)
    requires cfg.Valid() && IsRun(cfg, orgs, states, steps) && j <= |steps|
    ensures !IsConfirmed(states[j].graph, f) && Supported(LedgerOf(states[j].graph, f).links, f.id) <==>
              exists d, m, k :: WithdrawnOver(Stands(states, f), Events(states, steps, f), j, d, m, k)
  {
    RunIsHistory(cfg, orgs, states, steps, f);
    SupportedIs(LedgerOf(states[j].graph, f).links, f.id);
    SlightedIff(Stands(states, f), Events(states, steps, f), j);
  }

  /** Only entities are given evidence after they exist, so this never happens to a relationship. */
  lemma RelationshipsAreWithdrawnWhole(cfg: Config, orgs: set<OrgId>, states: seq<System>, steps: seq<Step>, j: nat,
                                       f: FactId)
    requires cfg.Valid() && IsRun(cfg, orgs, states, steps) && j <= |steps|
    requires !IsConfirmed(states[j].graph, FactRef(false, f))
    ensures !Supported(states[j].graph.relations.links, f)
  {
    var r := FactRef(false, f);
    WithdrawnWithEvidenceIff(cfg, orgs, states, steps, j, r);
    if d, m, k :| WithdrawnOver(Stands(states, r), Events(states, steps, r), j, d, m, k) {
      RunIsHistory(cfg, orgs, states, steps, r);
      HistoryIsSane(Stands(states, r), Events(states, steps, r), m);
      RunKeepsSysInv(cfg, orgs, states, steps, m);
      RestsMeansKnown(states[m], r);
      GivenAtBirth(states[m], steps[m], f);
    }
  }

  lemma RestsMeansKnown(s: System, f: FactRef)
    requires SysInv(s) && RestsOn(LedgerOf(s.graph, f).links, f.id) != {}
    ensures f.id in LedgerOf(s.graph, f).facts
  {
    SupportedIs(LedgerOf(s.graph, f).links, f.id);
    var l :| l in LedgerOf(s.graph, f).links && l.fact == f.id;
    assert LinkOk(s.core, LedgerOf(s.graph, f), l);
  }

  lemma GivenAtBirth(s: System, t: Step, f: FactId)
    requires CanStep(s, t) && EventOf(s, t, FactRef(false, f)).Gives?
    ensures f !in s.graph.relations.facts
  {
  }
}
