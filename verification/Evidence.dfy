/** Reviewed facts and the chunks that support them; what withdrawing a document's chunks does to them. */
module Evidence {
  import opened Tables

  type FactId = nat

  datatype FactStatus = Confirmed | Archived | Withdrawn

  /** An entity (its type) or a relationship (its ends). */
  datatype Detail = EntityOf(kind: string) | Edge(subject: FactId, target: FactId)
  datatype Fact = Fact(org: OrgId, status: FactStatus, detail: Detail)

  /** A row of `entity_evidence` or `relationship_evidence`. */
  datatype Link = Link(fact: FactId, chunk: ChunkId)

  /** A table of facts with its evidence table. A confirmed fact that loses its last support goes to
      `lapsed`: ARCHIVED for an entity, WITHDRAWN for a relationship. */
  datatype Ledger = Ledger(facts: map<FactId, Fact>, links: set<Link>, lapsed: FactStatus)

  predicate Supported(links: set<Link>, f: FactId) {
    exists l :: l in links && l.fact == f
  }

  function Remaining(links: set<Link>, gone: set<ChunkId>): set<Link> {
    set l | l in links && l.chunk !in gone
  }

  /** The confirmed fact f had evidence, and all of it is in the chunks that go. */
  predicate Lapses(b: Ledger, gone: set<ChunkId>, f: FactId) {
    && f in b.facts && b.facts[f].status == Confirmed
    && Supported(b.links, f) && !Supported(Remaining(b.links, gone), f)
  }

  /** The facts to be withdrawn when the chunks `gone` disappear. */
  function Lapsing(b: Ledger, gone: set<ChunkId>): set<FactId> {
    set f | f in b.facts && Lapses(b, gone, f)
  }

  /** These facts get this status. */
  ghost function Marked(facts: map<FactId, Fact>, named: set<FactId>, status: FactStatus): (r: map<FactId, Fact>)
    ensures r.Keys == facts.Keys
    ensures forall f :: f in facts ==> r[f] == if f in named then facts[f].(status := status) else facts[f]
    decreases |named|
  {
    if named == {} then facts
    else
      var f :| f in named;
      var rest := Marked(facts, named - {f}, status);
      if f in facts then rest[f := facts[f].(status := status)] else rest
  }

  /** The evidence in the chunks `gone` disappears, and these facts are withdrawn, whatever has become of them. */
  ghost function Carry(b: Ledger, gone: set<ChunkId>, named: set<FactId>): Ledger {
    b.(links := Remaining(b.links, gone), facts := Marked(b.facts, named, b.lapsed))
  }

  /** The facts and evidence left when the chunks `gone` disappear at once. */
  ghost function Withdraw(b: Ledger, gone: set<ChunkId>): Ledger {
    Carry(b, gone, Lapsing(b, gone))
  }

  /** Exactly the confirmed facts whose whole, non-empty evidence went are withdrawn; nothing else moves,
      and the evidence that stays is the evidence that did not cite a vanished chunk. */
  lemma WithdrawExact(b: Ledger, gone: set<ChunkId>, f: FactId)
    requires f in b.facts
    ensures f in Withdraw(b, gone).facts
    ensures b.facts[f].status == Confirmed && b.lapsed != Confirmed ==>
              (Withdraw(b, gone).facts[f].status != Confirmed <==>
                 && (exists l :: l in b.links && l.fact == f)
                 && (forall l :: l in b.links && l.fact == f ==> l.chunk in gone))
    ensures b.facts[f].status != Confirmed ==> Withdraw(b, gone).facts[f] == b.facts[f]
    ensures forall l :: l in Withdraw(b, gone).links <==> l in b.links && l.chunk !in gone
  {
    if exists l :: l in b.links && l.fact == f && l.chunk !in gone {
      var l :| l in b.links && l.fact == f && l.chunk !in gone;
      assert l in Remaining(b.links, gone);
    }
  }

  lemma RemainingTwice(links: set<Link>, x: set<ChunkId>, y: set<ChunkId>)
    ensures Remaining(Remaining(links, x), y) == Remaining(links, x + y)
  {
  }

  /** Withdrawing two documents one after the other is withdrawing both at once. */
  lemma WithdrawUnion(b: Ledger, x: set<ChunkId>, y: set<ChunkId>)
    requires b.lapsed != Confirmed
    ensures Withdraw(Withdraw(b, x), y) == Withdraw(b, x + y)
  {
    var once, both := Withdraw(b, x), Withdraw(b, x + y);
    var twice := Withdraw(once, y);
    RemainingTwice(b.links, x, y);
    forall f | f in b.facts ensures twice.facts[f] == both.facts[f] {
      if Supported(both.links, f) {
        var l :| l in both.links && l.fact == f;
        assert l in once.links;
      }
      if Supported(once.links, f) {
        var l :| l in once.links && l.fact == f;
        assert l in b.links;
      }
    }
  }

  /** So the order of withdrawals does not matter, and doing one again changes nothing. */
  lemma WithdrawCommutes(b: Ledger, x: set<ChunkId>, y: set<ChunkId>)
    requires b.lapsed != Confirmed
    ensures Withdraw(Withdraw(b, x), y) == Withdraw(Withdraw(b, y), x)
    ensures Withdraw(Withdraw(b, x), x) == Withdraw(b, x)
  {
    WithdrawUnion(b, x, y);
    WithdrawUnion(b, y, x);
    WithdrawUnion(b, x, x);
    assert x + y == y + x && x + x == x;
  }

  /** A whole sequence of withdrawals is the withdrawal of everything in it. */
  ghost function WithdrawAll(b: Ledger, gone: seq<set<ChunkId>>): Ledger
    decreases |gone|
  {
    if gone == [] then b else WithdrawAll(Withdraw(b, gone[0]), gone[1..])
  }

  ghost function UnionOf(gone: seq<set<ChunkId>>): set<ChunkId> {
    if gone == [] then {} else gone[0] + UnionOf(gone[1..])
  }

  lemma {:induction false} WithdrawAllIsUnion(b: Ledger, gone: seq<set<ChunkId>>)
    requires b.lapsed != Confirmed
    ensures WithdrawAll(b, gone) == Withdraw(b, UnionOf(gone))
    decreases |gone|
  {
    if gone == [] {
      WithdrawNothing(b);
    } else {
      WithdrawAllIsUnion(Withdraw(b, gone[0]), gone[1..]);
      WithdrawUnion(b, gone[0], UnionOf(gone[1..]));
    }
  }

  /** A document without chunks withdraws nothing: the early return of the source is the same state. */
  lemma WithdrawNothing(b: Ledger)
    ensures Withdraw(b, {}) == b
  {
    assert Remaining(b.links, {}) == b.links;
  }

  // ---------------------------------------------------------------- proposals and mentions

  type ProposalId = nat
  datatype ReviewStatus = Proposed | Accepted | Rejected | Linked

  /** `document` is the document of the knowledge job the row belongs to. */
  datatype Proposal = Proposal(
    org: OrgId, document: DocId, chunk: ChunkId, isEntity: bool, name: string, kind: string, status: ReviewStatus)
  datatype Mention = Mention(document: DocId, chunk: ChunkId, name: string, status: ReviewStatus)

  datatype Graph = Graph(
    entities: Ledger, relations: Ledger,
    proposals: map<ProposalId, Proposal>, mentions: map<ProposalId, Mention>)

  function ProposalsBut(proposals: map<ProposalId, Proposal>, gone: set<ChunkId>): map<ProposalId, Proposal> {
    proposals - set p | p in proposals && proposals[p].chunk in gone
  }

  function MentionsBut(mentions: map<ProposalId, Mention>, gone: set<ChunkId>): map<ProposalId, Mention> {
    mentions - set m | m in mentions && mentions[m].chunk in gone
  }

  /** `withdraw_document_knowledge` for a document whose chunk ids are `gone`. */
  ghost function WithdrawDocument(g: Graph, gone: set<ChunkId>): Graph {
    Graph(Withdraw(g.entities, gone), Withdraw(g.relations, gone),
          ProposalsBut(g.proposals, gone), MentionsBut(g.mentions, gone))
  }

  /** What a transaction has decided to withdraw, entities and relationships, and will withdraw at its commit. */
  datatype Verdict = Verdict(entities: set<FactId>, relations: set<FactId>)

  function VerdictOn(g: Graph, gone: set<ChunkId>): Verdict {
    Verdict(Lapsing(g.entities, gone), Lapsing(g.relations, gone))
  }

  /** The graph after the commit of a transaction that decided so, for a document whose chunk ids are `gone`. */
  ghost function CarryOut(g: Graph, gone: set<ChunkId>, v: Verdict): Graph {
    Graph(Carry(g.entities, gone, v.entities), Carry(g.relations, gone, v.relations),
          ProposalsBut(g.proposals, gone), MentionsBut(g.mentions, gone))
  }

  /** Deciding and committing with nobody in between is the withdrawal. */
  lemma WithdrawAtOnce(g: Graph, gone: set<ChunkId>)
    ensures CarryOut(g, gone, VerdictOn(g, gone)) == WithdrawDocument(g, gone)
  {
  }

  /** The tables `withdraw_document_knowledge` changes in place. */
  class KnowledgeTables {
    var entities: Ledger
    var relations: Ledger
    var proposals: map<ProposalId, Proposal>
    var mentions: map<ProposalId, Mention>

    constructor (g: Graph)
      ensures Contents() == g
    {
      entities, relations := g.entities, g.relations;
      proposals, mentions := g.proposals, g.mentions;
    }

    function Contents(): Graph
      reads this
    {
      Graph(entities, relations, proposals, mentions)
    }

    /** With nobody in between: evidence rows go first, then each fact that lost some is looked at again. */
    method WithdrawDocumentKnowledge(gone: set<ChunkId>)
      modifies this
      ensures Contents() == WithdrawDocument(old(Contents()), gone)
    {
      if gone == {} {
        WithdrawNothing(entities);
        WithdrawNothing(relations);
        return;
      }
      WithdrawAtOnce(Contents(), gone);
      var verdict := Decide(gone);
      CommitVerdict(gone, verdict);
    }

    /** What the transaction makes of the facts, seeing what is committed less its own chunks. */
    method Decide(gone: set<ChunkId>) returns (verdict: Verdict)
      ensures verdict == VerdictOn(Contents(), gone)
    {
      var lostRelations := LookAgain(relations, gone);
      var lostEntities := LookAgain(entities, gone);
      verdict := Verdict(lostEntities, lostRelations);
    }

    /** What its commit writes. */
    method CommitVerdict(gone: set<ChunkId>, verdict: Verdict)
      modifies this
      ensures Contents() == CarryOut(old(Contents()), gone, verdict)
    {
      relations := Written(relations, gone, verdict.relations);
      proposals := proposals - set p | p in proposals && proposals[p].chunk in gone;
      mentions := mentions - set m | m in mentions && mentions[m].chunk in gone;
      entities := Written(entities, gone, verdict.entities);
    }

    /** Each fact that lost evidence is looked at again, in any order. */
    static method LookAgain(b: Ledger, gone: set<ChunkId>) returns (named: set<FactId>)
      ensures named == Lapsing(b, gone)
    {
      var touched := set l | l in b.links && l.chunk in gone :: l.fact;
      var links := set l | l in b.links && l.chunk !in gone;
      assert links == Remaining(b.links, gone);
      var rest := touched;
      named := {};
      while rest != {}
        invariant rest <= touched
        invariant forall f :: f in named <==> f !in rest && f in Lapsing(b, gone)
        decreases |rest|
      {
        var f :| f in rest;
        if !Supported(links, f) && f in b.facts && b.facts[f].status == Confirmed {
          named := named + {f};
        }
        rest := rest - {f};
      }
    }

    /** The named facts change their status one by one. */
    static method Written(b: Ledger, gone: set<ChunkId>, named: set<FactId>) returns (r: Ledger)
      ensures r == Carry(b, gone, named)
    {
      var facts, rest := b.facts, named;
      while rest != {}
        invariant rest <= named && facts.Keys == b.facts.Keys
        invariant forall f :: f in facts ==>
                    facts[f] == if f in named && f !in rest then b.facts[f].(status := b.lapsed) else b.facts[f]
        decreases |rest|
      {
        var f :| f in rest;
        if f in facts {
          facts := facts[f := facts[f].(status := b.lapsed)];
        }
        rest := rest - {f};
      }
      r := b.(facts := facts, links := set l | l in b.links && l.chunk !in gone);
    }
  }
}
