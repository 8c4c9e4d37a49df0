/** The two-hop graph search: a truncated breadth-first walk over an edge list, and its plain meaning. */
module GraphSearch {
  import opened Tables

  type NodeId = nat

  /** A piece of evidence as `evidence_for_chunks` reports it. */
  datatype Excerpt = Excerpt(chunk: ChunkId, origin: string, createdAt: Time)

  /** A confirmed relationship: ends, validity, the words of its predicate, its evidence rows. */
  datatype Edge = Edge(id: nat, subject: NodeId, target: NodeId, validFrom: Option<Time>, validTo: Option<Time>,
                       words: set<string>, evidence: seq<Excerpt>)

  /** A confirmed entity and the words of its normalized name. */
  datatype Node = Node(id: NodeId, words: set<string>)

  predicate ActiveAt(e: Edge, moment: Time) {
    && (e.validFrom.None? || e.validFrom.value <= moment)
    && (e.validTo.None? || e.validTo.value > moment)
  }

  function Active(edges: seq<Edge>, moment: Time): seq<Edge> {
    if edges == [] then []
    else Active(edges[..|edges| - 1], moment) +
         (if ActiveAt(edges[|edges| - 1], moment) then [edges[|edges| - 1]] else [])
  }

  predicate Touches(e: Edge, nodes: set<NodeId>) {
    e.subject in nodes || e.target in nodes
  }

  function Ends(edges: seq<Edge>): set<NodeId> {
    (set e | e in edges :: e.subject) + (set e | e in edges :: e.target)
  }

  ghost predicate DistinctIds(edges: seq<Edge>) {
    forall i, j :: 0 <= i < j < |edges| ==> edges[i].id != edges[j].id
  }

  // ---------------------------------------------------------------- the simple meaning

  /** The edges, in list order, that touch `nodes` and none of `but`. */
  function Around(edges: seq<Edge>, nodes: set<NodeId>, but: set<NodeId>): seq<Edge> {
    if edges == [] then []
    else
      var e := edges[|edges| - 1];
      Around(edges[..|edges| - 1], nodes, but) + (if Touches(e, nodes) && !Touches(e, but) then [e] else [])
  }

  /** Edges at a seed, then the remaining edges at a neighbour of a seed. */
  function TwoHops(edges: seq<Edge>, seeds: set<NodeId>): seq<Edge> {
    var near := Around(edges, seeds, {});
    near + Around(edges, Ends(near), seeds)
  }

  function Take(edges: seq<Edge>, n: int): seq<Edge> {
    if n <= 0 then [] else if n < |edges| then edges[..n] else edges
  }

  /** A limit below one still lets one edge through: it is checked after the append. */
  function AtLeastOne(limit: int): nat {
    if limit < 1 then 1 else limit
  }

  /** What the walk selects. */
  function Selection(edges: seq<Edge>, seeds: set<NodeId>, limit: int): seq<Edge> {
    Take(TwoHops(edges, seeds), AtLeastOne(limit))
  }

  lemma {:induction false} AroundMembers(edges: seq<Edge>, nodes: set<NodeId>, but: set<NodeId>)
    ensures forall e :: e in Around(edges, nodes, but) <==> e in edges && Touches(e, nodes) && !Touches(e, but)
    decreases |edges|
  {
    if edges != [] {
      var rest, last := edges[..|edges| - 1], edges[|edges| - 1];
      AroundMembers(rest, nodes, but);
      assert edges == rest + [last];
    }
  }

  /** Under the limit the selected edges are the two-hop neighbourhood of the seeds: the edges at a seed
      and those that share an end with one of these. So the order of the list does not matter. */
  lemma SelectionIsNeighbourhood(edges: seq<Edge>, seeds: set<NodeId>, limit: int)
    requires |TwoHops(edges, seeds)| <= limit
    ensures forall e :: e in Selection(edges, seeds, limit) <==>
              e in edges && (Touches(e, seeds) || exists near :: near in edges && Touches(near, seeds)
                                                   && Touches(e, {near.subject, near.target}))
  {
    var near := Around(edges, seeds, {});
    AroundMembers(edges, seeds, {});
    AroundMembers(edges, Ends(near), seeds);
    forall e | e in edges && Touches(e, Ends(near))
      ensures exists n :: n in edges && Touches(n, seeds) && Touches(e, {n.subject, n.target})
    {
      if e.subject in Ends(near) {
        var n :| n in near && (n.subject == e.subject || n.target == e.subject);
        assert Touches(e, {n.subject, n.target});
      } else {
        var n :| n in near && (n.subject == e.target || n.target == e.target);
        assert Touches(e, {n.subject, n.target});
      }
    }
  }

  lemma SelectionIgnoresOrder(x: seq<Edge>, y: seq<Edge>, seeds: set<NodeId>, limit: int)
    requires forall e :: e in x <==> e in y
    requires |TwoHops(x, seeds)| <= limit && |TwoHops(y, seeds)| <= limit
    ensures forall e :: e in Selection(x, seeds, limit) <==> e in Selection(y, seeds, limit)
  {
    SelectionIsNeighbourhood(x, seeds, limit);
    SelectionIsNeighbourhood(y, seeds, limit);
  }

  lemma {:induction false} AroundDistinct(edges: seq<Edge>, nodes: set<NodeId>, but: set<NodeId>)
    requires DistinctIds(edges)
    ensures DistinctIds(Around(edges, nodes, but))
    decreases |edges|
  {
    if edges != [] {
      var rest, last := edges[..|edges| - 1], edges[|edges| - 1];
      AroundDistinct(rest, nodes, but);
      AroundMembers(rest, nodes, but);
      forall i | 0 <= i < |Around(rest, nodes, but)| ensures Around(rest, nodes, but)[i].id != last.id {
        assert Around(rest, nodes, but)[i] in rest;
      }
    }
  }

  /** No edge is selected twice, whatever the limit cuts off. */
  lemma SelectionDistinct(edges: seq<Edge>, seeds: set<NodeId>, limit: int)
    requires DistinctIds(edges)
    ensures DistinctIds(Selection(edges, seeds, limit))
    ensures |Selection(edges, seeds, limit)| <= AtLeastOne(limit)
    ensures |Selection(edges, seeds, limit)| <= limit <==>
              limit >= 1 || (limit == 0 && TwoHops(edges, seeds) == [])
  {
    var near := Around(edges, seeds, {});
    var far := Around(edges, Ends(near), seeds);
    AroundDistinct(edges, seeds, {});
    AroundDistinct(edges, Ends(near), seeds);
    AroundMembers(edges, seeds, {});
    AroundMembers(edges, Ends(near), seeds);
    var all := near + far;
    forall i, j | 0 <= i < j < |all| ensures all[i].id != all[j].id {
      if i < |near| <= j {
        assert all[i] in near && all[j] in far;
        IdsTell(edges, all[i], all[j]);
      }
    }
  }

  lemma IdsTell(edges: seq<Edge>, x: Edge, y: Edge)
    requires DistinctIds(edges) && x in edges && y in edges && x != y
    ensures x.id != y.id
  {
  }

  // ---------------------------------------------------------------- the walk itself

  /** The edges, in list order, that touch the frontier and have not been selected. */
  function Fresh(edges: seq<Edge>, ids: set<nat>, frontier: set<NodeId>): seq<Edge> {
    if edges == [] then []
    else
      var e := edges[|edges| - 1];
      Fresh(edges[..|edges| - 1], ids, frontier) + (if e.id !in ids && Touches(e, frontier) then [e] else [])
  }

  function IdsOf(edges: seq<Edge>): set<nat> {
    set e | e in edges :: e.id
  }

  lemma {:induction false} FreshGrows(edges: seq<Edge>, ids: set<nat>, frontier: set<NodeId>, i: nat)
    requires i < |edges|
    ensures Fresh(edges[..i + 1], ids, frontier) ==
              Fresh(edges[..i], ids, frontier) +
              (if edges[i].id !in ids && Touches(edges[i], frontier) then [edges[i]] else [])
    ensures |Fresh(edges[..i + 1], ids, frontier)| <= |Fresh(edges, ids, frontier)|
    ensures Fresh(edges[..i + 1], ids, frontier) <= Fresh(edges, ids, frontier)
    decreases |edges| - i
  {
    assert edges[..i + 1][..i] == edges[..i];
    if i + 1 < |edges| {
      FreshGrows(edges, ids, frontier, i + 1);
    } else {
      assert edges[..i + 1] == edges;
    }
  }

  lemma {:induction false} FreshFrom(edges: seq<Edge>, ids: set<nat>, frontier: set<NodeId>)
    ensures forall e :: e in Fresh(edges, ids, frontier) ==> e in edges
    decreases |edges|
  {
    if edges != [] {
      FreshFrom(edges[..|edges| - 1], ids, frontier);
    }
  }

  lemma AddOne(edges: seq<Edge>, e: Edge)
    ensures IdsOf(edges + [e]) == IdsOf(edges) + {e.id}
    ensures Ends(edges + [e]) == Ends(edges) + {e.subject, e.target}
  {
    assert e in edges + [e];
    assert forall x :: x in edges ==> x in edges + [e];
  }

  /** With distinct ids the set of selected ids only ever stops an edge selected before the hop. */
  lemma NotYetSelected(edges: seq<Edge>, ids: set<nat>, frontier: set<NodeId>, i: nat)
    requires DistinctIds(edges) && i < |edges|
    ensures edges[i].id !in IdsOf(Fresh(edges[..i], ids, frontier))
  {
    FreshFrom(edges[..i], ids, frontier);
    forall x | x in Fresh(edges[..i], ids, frontier) ensures x.id != edges[i].id {
      assert x in edges[..i];
    }
  }

  /** Where a hop stands after looking at the first `i` edges. */
  ghost predicate HopAt(edges: seq<Edge>, frontier: set<NodeId>, before: seq<Edge>, i: nat,
                        selected: seq<Edge>, ids: set<nat>, next: set<NodeId>)
    requires i <= |edges|
  {
    var found := Fresh(edges[..i], IdsOf(before), frontier);
    selected == before + found && ids == IdsOf(before) + IdsOf(found) && next == Ends(found)
  }

  lemma HopSkips(edges: seq<Edge>, frontier: set<NodeId>, before: seq<Edge>, i: nat,
                 selected: seq<Edge>, ids: set<nat>, next: set<NodeId>)
    requires DistinctIds(edges) && i < |edges| && HopAt(edges, frontier, before, i, selected, ids, next)
    requires edges[i].id in ids || !Touches(edges[i], frontier)
    ensures HopAt(edges, frontier, before, i + 1, selected, ids, next)
  {
    FreshGrows(edges, IdsOf(before), frontier, i);
    NotYetSelected(edges, IdsOf(before), frontier, i);
  }

  lemma HopSelects(edges: seq<Edge>, frontier: set<NodeId>, before: seq<Edge>, i: nat,
                   selected: seq<Edge>, ids: set<nat>, next: set<NodeId>)
    requires DistinctIds(edges) && i < |edges| && HopAt(edges, frontier, before, i, selected, ids, next)
    requires edges[i].id !in ids && Touches(edges[i], frontier)
    ensures HopAt(edges, frontier, before, i + 1, selected + [edges[i]], ids + {edges[i].id},
                  next + {edges[i].subject, edges[i].target})
    ensures selected + [edges[i]] <= before + Fresh(edges, IdsOf(before), frontier)
  {
    FreshGrows(edges, IdsOf(before), frontier, i);
    AddOne(Fresh(edges[..i], IdsOf(before), frontier), edges[i]);
  }

  /** One hop: append what is fresh until the limit is reached; at least one edge if there is any. */
  method Hop(edges: seq<Edge>, frontier: set<NodeId>, before: seq<Edge>, limit: int)
    returns (selected: seq<Edge>, next: set<NodeId>)
    requires DistinctIds(edges) && (before == [] || |before| < limit)
    ensures selected == before + Take(Fresh(edges, IdsOf(before), frontier), AtLeastOne(limit) - |before|)
    ensures next == Ends(selected[|before|..])
  {
    selected := before;
    var ids := IdsOf(before);
    next := {};
    for i := 0 to |edges|
      invariant HopAt(edges, frontier, before, i, selected, ids, next)
      invariant |selected| < AtLeastOne(limit)
    {
      var e := edges[i];
      if e.id in ids {
        HopSkips(edges, frontier, before, i, selected, ids, next);
        continue;
      }
      if Touches(e, frontier) {
        HopSelects(edges, frontier, before, i, selected, ids, next);
        selected := selected + [e];
        ids := ids + {e.id};
        next := next + {e.subject, e.target};
        if |selected| >= limit { return; }
      } else {
        HopSkips(edges, frontier, before, i, selected, ids, next);
      }
    }
    assert edges[..|edges|] == edges;
  }

  lemma {:induction false} FreshIsAround(edges: seq<Edge>, near: seq<Edge>, seeds: set<NodeId>, frontier: set<NodeId>)
    requires forall e :: e in edges ==> (e.id in IdsOf(near) <==> Touches(e, seeds))
    requires frontier == Ends(near) - seeds
    ensures Fresh(edges, IdsOf(near), frontier) == Around(edges, Ends(near), seeds)
    decreases |edges|
  {
    if edges != [] {
      FreshIsAround(edges[..|edges| - 1], near, seeds, frontier);
      assert edges[|edges| - 1] in edges;
    }
  }

  lemma {:induction false} FirstHopIsAround(edges: seq<Edge>, seeds: set<NodeId>)
    ensures Fresh(edges, {}, seeds) == Around(edges, seeds, {})
    decreases |edges|
  {
    if edges != [] {
      FirstHopIsAround(edges[..|edges| - 1], seeds);
    }
  }

  /** With distinct ids, being selected in the first hop is touching a seed. */
  lemma SelectedAreNear(edges: seq<Edge>, seeds: set<NodeId>)
    requires DistinctIds(edges)
    ensures forall e :: e in edges ==> (e.id in IdsOf(Around(edges, seeds, {})) <==> Touches(e, seeds))
  {
    var near := Around(edges, seeds, {});
    AroundMembers(edges, seeds, {});
    forall e | e in edges ensures e.id in IdsOf(near) <==> Touches(e, seeds) {
      if e.id in IdsOf(near) {
        var n :| n in near && n.id == e.id;
        if n != e { IdsTell(edges, n, e); }
      }
    }
  }

  lemma {:induction false} AroundNothing(edges: seq<Edge>, nodes: set<NodeId>, but: set<NodeId>)
    requires nodes <= but
    ensures Around(edges, nodes, but) == []
    decreases |edges|
  {
    if edges != [] {
      AroundNothing(edges[..|edges| - 1], nodes, but);
    }
  }

  /** Stopping after the first hop is right when it filled the limit or reached nothing new. */
  lemma OneHopIsEnough(edges: seq<Edge>, seeds: set<NodeId>, limit: int)
    requires |Around(edges, seeds, {})| >= AtLeastOne(limit) || Ends(Around(edges, seeds, {})) <= seeds
    ensures Selection(edges, seeds, limit) == Take(Around(edges, seeds, {}), AtLeastOne(limit))
  {
    var near := Around(edges, seeds, {});
    if |near| < AtLeastOne(limit) {
      AroundNothing(edges, Ends(near), seeds);
    }
  }

  lemma SecondHop(edges: seq<Edge>, seeds: set<NodeId>, limit: int)
    requires DistinctIds(edges) && |Around(edges, seeds, {})| < AtLeastOne(limit)
    ensures var near := Around(edges, seeds, {});
            Selection(edges, seeds, limit)
            == near + Take(Fresh(edges, IdsOf(near), Ends(near) - seeds), AtLeastOne(limit) - |near|)
  {
    var near := Around(edges, seeds, {});
    SelectedAreNear(edges, seeds);
    FreshIsAround(edges, near, seeds, Ends(near) - seeds);
  }

  lemma NothingLeft(reached: set<NodeId>, seen: set<NodeId>)
    requires reached - seen == {}
    ensures reached <= seen
  {
    assert forall n :: n in reached ==> n in seen || n in reached - seen;
  }

  /** What the first hop leaves. */
  ghost predicate FirstHopDone(edges: seq<Edge>, seeds: set<NodeId>, limit: int, selected: seq<Edge>, next: set<NodeId>) {
    selected == Take(Around(edges, seeds, {}), AtLeastOne(limit)) && next == Ends(selected)
  }

  lemma StopsRight(edges: seq<Edge>, seeds: set<NodeId>, limit: int, selected: seq<Edge>, next: set<NodeId>)
    requires FirstHopDone(edges, seeds, limit, selected, next)
    requires next - seeds == {} || |selected| >= limit
    ensures selected == Selection(edges, seeds, limit)
  {
    if next - seeds == {} { NothingLeft(next, seeds); }
    OneHopIsEnough(edges, seeds, limit);
  }

  lemma GoesOn(edges: seq<Edge>, seeds: set<NodeId>, limit: int, selected: seq<Edge>, next: set<NodeId>)
    requires DistinctIds(edges) && FirstHopDone(edges, seeds, limit, selected, next) && |selected| < limit
    ensures selected + Take(Fresh(edges, IdsOf(selected), next - seeds), AtLeastOne(limit) - |selected|)
            == Selection(edges, seeds, limit)
  {
    SecondHop(edges, seeds, limit);
  }

  /** The two hops of `retrieve_graph` meet their simple meaning, truncation included. */
  method Walk(edges: seq<Edge>, seeds: set<NodeId>, limit: int) returns (selected: seq<Edge>)
    requires DistinctIds(edges)
    ensures selected == Selection(edges, seeds, limit)
  {
    FirstHopIsAround(edges, seeds);
    assert IdsOf([]) == {};
    var next;
    selected, next := Hop(edges, seeds, [], limit);
    assert FirstHopDone(edges, seeds, limit, selected, next) by {
      assert selected[0..] == selected;
    }
    var frontier := next - seeds;
    if frontier == {} || |selected| >= limit {
      StopsRight(edges, seeds, limit, selected, next);
      return;
    }
    GoesOn(edges, seeds, limit, selected, next);
    selected, next := Hop(edges, frontier, selected, limit);
  }

  // ---------------------------------------------------------------- seeds and facts

  /** Entities named by the query, or failing that the subjects of edges whose predicate is. */
  function Seeds(nodes: seq<Node>, edges: seq<Edge>, tokens: set<string>): set<NodeId> {
    var named := set n | n in nodes && n.words * tokens != {} :: n.id;
    if named != {} then named else set e | e in edges && e.words * tokens != {} :: e.subject
  }

  datatype Filters = Filters(origins: Option<set<string>>, after: Option<Time>, before: Option<Time>)

  predicate Passes(x: Excerpt, f: Filters) {
    && (f.origins.None? || x.origin in f.origins.value)
    && (f.after.None? || x.createdAt >= f.after.value)
    && (f.before.None? || x.createdAt < f.before.value)
  }

  function Kept(evidence: seq<Excerpt>, f: Filters): seq<Excerpt> {
    if evidence == [] then []
    else Kept(evidence[..|evidence| - 1], f) +
         (if Passes(evidence[|evidence| - 1], f) then [evidence[|evidence| - 1]] else [])
  }

  datatype Fact = Fact(edge: Edge, evidence: seq<Excerpt>)

  /** What an edge contributes to the answer: nothing unless both ends are confirmed entities and some of
      its first five excerpts pass the filters. */
  function FactOf(e: Edge, nodes: seq<Node>, f: Filters): seq<Fact> {
    var evidence := Shown(e, f);
    if IsNode(nodes, e.subject) && IsNode(nodes, e.target) && evidence != [] then [Fact(e, evidence)] else []
  }

  predicate IsNode(nodes: seq<Node>, id: NodeId) {
    exists n :: n in nodes && n.id == id
  }

  function Facts(edges: seq<Edge>, nodes: seq<Node>, f: Filters): seq<Fact> {
    if edges == [] then [] else Facts(edges[..|edges| - 1], nodes, f) + FactOf(edges[|edges| - 1], nodes, f)
  }

  const MAX_ENTITIES := 5000
  const MAX_RELATIONSHIPS := 2000

  /** The first rows of a query, at most so many. */
  function Fetched<T>(rows: seq<T>, most: nat): seq<T> {
    if |rows| > most then rows[..most] else rows
  }

  /** `retrieve_graph` over the confirmed entities and relationships of the organization, in the order in which the
      database has them. Rows beyond the first 5000 and 2000 are not looked at. */
  method RetrieveGraph(entities: seq<Node>, confirmed: seq<Edge>, tokens: set<string>, moment: Time, limit: int,
                       f: Filters)
    returns (facts: seq<Fact>)
    requires DistinctIds(confirmed)
    ensures var nodes := Fetched(entities, MAX_ENTITIES);
            var edges := Active(Fetched(confirmed, MAX_RELATIONSHIPS), moment);
            facts == if tokens == {} then [] else Facts(Selection(edges, Seeds(nodes, edges, tokens), limit), nodes, f)
    ensures var search := Search(if |entities| <= 5000 then entities else entities[..5000],
                                 if |confirmed| <= 2000 then confirmed else confirmed[..2000], tokens, moment);
            |search.Found()| <= limit ==> forall e :: (exists x :: x in facts && x.edge == e) <==> search.Answers(e, f)
  {
    AnswersExactly(Search(Fetched(entities, MAX_ENTITIES), Fetched(confirmed, MAX_RELATIONSHIPS), tokens, moment), limit, f);
    facts := [];
    if tokens == {} { return; }
    var nodes := Fetched(entities, MAX_ENTITIES);
    var relationships := Fetched(confirmed, MAX_RELATIONSHIPS);
    var edges := Active(relationships, moment);
    ActiveDistinct(relationships, moment);
    var seeds := Seeds(nodes, edges, tokens);
    if seeds == {} {
      NoSeeds(edges);
      return;
    }
    var selected := Walk(edges, seeds, limit);
    facts := CollectFacts(selected, nodes, f);
  }

  /** The last loop of `retrieve_graph`. */
  method CollectFacts(selected: seq<Edge>, nodes: seq<Node>, f: Filters) returns (facts: seq<Fact>)
    ensures facts == Facts(selected, nodes, f)
  {
    facts := [];
    for i := 0 to |selected|
      invariant facts == Facts(selected[..i], nodes, f)
    {
      assert selected[..i + 1][..i] == selected[..i];
      var edge := selected[i];
      if !IsNode(nodes, edge.subject) || !IsNode(nodes, edge.target) { continue; }
      var evidence := Kept(if |edge.evidence| > 5 then edge.evidence[..5] else edge.evidence, f);
      if evidence == [] { continue; }
      facts := facts + [Fact(edge, evidence)];
    }
    assert selected[..|selected|] == selected;
  }

  lemma {:induction false} ActiveDistinct(edges: seq<Edge>, moment: Time)
    requires DistinctIds(edges)
    ensures DistinctIds(Active(edges, moment))
    ensures forall e :: e in Active(edges, moment) <==> e in edges && ActiveAt(e, moment)
    decreases |edges|
  {
    if edges != [] {
      var rest, last := edges[..|edges| - 1], edges[|edges| - 1];
      ActiveDistinct(rest, moment);
      assert edges == rest + [last];
      forall i | 0 <= i < |Active(rest, moment)| ensures Active(rest, moment)[i].id != last.id {
        assert Active(rest, moment)[i] in rest;
      }
    }
  }

  lemma NoSeeds(edges: seq<Edge>)
    ensures TwoHops(edges, {}) == []
  {
    AroundNothing(edges, {}, {});
    AroundNothing(edges, Ends([]), {});
  }

  /** The first five excerpts of an edge that pass the filters. */
  function Shown(e: Edge, f: Filters): seq<Excerpt> {
    Kept(if |e.evidence| > 5 then e.evidence[..5] else e.evidence, f)
  }

  /** The facts are exactly the selected edges that join confirmed entities and still show an excerpt. */
  lemma {:induction false} FactsAreSupported(edges: seq<Edge>, nodes: seq<Node>, f: Filters, x: Fact)
    ensures x in Facts(edges, nodes, f)
            <==> && x.edge in edges && IsNode(nodes, x.edge.subject) && IsNode(nodes, x.edge.target)
                 && x.evidence == Shown(x.edge, f) && x.evidence != []
    decreases |edges|
  {
    if edges != [] {
      var rest, last := edges[..|edges| - 1], edges[|edges| - 1];
      FactsAreSupported(rest, nodes, f, x);
      assert x in Facts(edges, nodes, f) <==> x in Facts(rest, nodes, f) || x in FactOf(last, nodes, f);
      assert x.edge in edges <==> x.edge in rest || x.edge == last;
    }
  }

  /** What is shown of an edge is its own evidence, at most five excerpts, all that pass among the first five. */
  lemma ShownIsEvidence(e: Edge, f: Filters, x: Excerpt)
    ensures |Shown(e, f)| <= 5
    ensures x in Shown(e, f) <==> (exists i :: 0 <= i < |e.evidence| && i < 5 && e.evidence[i] == x) && Passes(x, f)
  {
    var first := if |e.evidence| > 5 then e.evidence[..5] else e.evidence;
    KeptPass(first, f, x);
    assert x in first <==> exists i :: 0 <= i < |e.evidence| && i < 5 && e.evidence[i] == x;
  }

  lemma {:induction false} KeptPass(evidence: seq<Excerpt>, f: Filters, x: Excerpt)
    ensures |Kept(evidence, f)| <= |evidence|
    ensures x in Kept(evidence, f) <==> x in evidence && Passes(x, f)
    decreases |evidence|
  {
    if evidence != [] {
      var rest, last := evidence[..|evidence| - 1], evidence[|evidence| - 1];
      KeptPass(rest, f, x);
      assert x in evidence <==> x in rest || x == last;
    }
  }

  // ---------------------------------------------------------------- what a search is for

  /** The rows and the query of a search. What it ought to find is said about these alone. */
  datatype Search = Search(entities: seq<Node>, confirmed: seq<Edge>, tokens: set<string>, moment: Time) {

    /** One of these words is in the query. */
    predicate Asks(words: set<string>) {
      exists word :: word in words && word in tokens
    }

    /** The relationship holds at the moment: from `validFrom` on, and before `validTo`. */
    predicate Lasts(e: Edge) {
      && e in confirmed
      && (e.validFrom.Some? ==> e.validFrom.value <= moment) && (e.validTo.Some? ==> moment < e.validTo.value)
    }

    /** The query names this entity; or it names none, and the entity is the subject of a relationship that holds and
        whose predicate it names. */
    ghost predicate Starts(id: NodeId) {
      if exists n :: n in entities && Asks(n.words)
      then exists n :: n in entities && n.id == id && Asks(n.words)
      else exists e :: Lasts(e) && e.subject == id && Asks(e.words)
    }

    ghost predicate AtStart(e: Edge) {
      Lasts(e) && (Starts(e.subject) || Starts(e.target))
    }

    /** Within two hops: the relationship is at a start, or shares an end with one that is. */
    ghost predicate Near(e: Edge) {
      Lasts(e) && (AtStart(e) || exists x :: AtStart(x) && SharesEnd(x, e))
    }

    ghost function Found(): set<Edge> {
      set e | e in confirmed && Near(e)
    }

    /** The relationship is part of the answer: within two hops, between confirmed entities, and with an excerpt among
        its first five that passes the filters. */
    ghost predicate Answers(e: Edge, f: Filters) {
      && Near(e)
      && (exists n :: n in entities && n.id == e.subject) && (exists n :: n in entities && n.id == e.target)
      && exists i :: 0 <= i < |e.evidence| && i < 5 && Wanted(e.evidence[i], f)
    }
  }

  predicate SharesEnd(x: Edge, y: Edge) {
    x.subject == y.subject || x.subject == y.target || x.target == y.subject || x.target == y.target
  }

  /** From one of the origins asked for, not before `after`, and before `before`. */
  predicate Wanted(x: Excerpt, f: Filters) {
    match (f.origins, f.after, f.before)
    case (None, None, None) => true
    case (None, None, Some(end)) => x.createdAt < end
    case (None, Some(start), None) => start <= x.createdAt
    case (None, Some(start), Some(end)) => start <= x.createdAt < end
    case (Some(origins), None, None) => x.origin in origins
    case (Some(origins), None, Some(end)) => x.origin in origins && x.createdAt < end
    case (Some(origins), Some(start), None) => x.origin in origins && start <= x.createdAt
    case (Some(origins), Some(start), Some(end)) => x.origin in origins && start <= x.createdAt < end
  }

  lemma SeedsAreStarts(s: Search, id: NodeId)
    requires DistinctIds(s.confirmed)
    ensures id in Seeds(s.entities, Active(s.confirmed, s.moment), s.tokens) <==> s.Starts(id)
  {
    ActiveDistinct(s.confirmed, s.moment);
    var edges := Active(s.confirmed, s.moment);
    forall e: Edge ensures e in edges <==> s.Lasts(e) {}
    forall words: set<string> ensures words * s.tokens != {} <==> s.Asks(words) {
      if word :| word in words && word in s.tokens { assert word in words * s.tokens; }
    }
    var named := set n | n in s.entities && n.words * s.tokens != {} :: n.id;
    forall i: NodeId ensures i in named <==> exists n :: n in s.entities && n.id == i && s.Asks(n.words) {
      if i in named {
        var n :| n in s.entities && n.words * s.tokens != {} && n.id == i;
        assert s.Asks(n.words);
      }
    }
    assert named != {} <==> exists n :: n in s.entities && s.Asks(n.words) by {
      if n :| n in s.entities && s.Asks(n.words) { assert n.id in named; }
    }
    if named == {} {
      var subjects := set e | e in edges && e.words * s.tokens != {} :: e.subject;
      assert id in subjects <==> exists e :: s.Lasts(e) && e.subject == id && s.Asks(e.words);
    }
  }

  lemma NeighboursAreNear(s: Search, e: Edge)
    requires DistinctIds(s.confirmed)
    ensures var edges := Active(s.confirmed, s.moment);
            var seeds := Seeds(s.entities, edges, s.tokens);
            s.Near(e) <==>
              e in edges && (Touches(e, seeds) || exists near :: near in edges && Touches(near, seeds)
                                                   && Touches(e, {near.subject, near.target}))
  {
    ActiveDistinct(s.confirmed, s.moment);
    var edges := Active(s.confirmed, s.moment);
    var seeds := Seeds(s.entities, edges, s.tokens);
    forall x: Edge ensures x in edges && Touches(x, seeds) <==> s.AtStart(x) {
      SeedsAreStarts(s, x.subject);
      SeedsAreStarts(s, x.target);
    }
    forall x: Edge ensures Touches(e, {x.subject, x.target}) <==> SharesEnd(x, e) {}
  }

  lemma {:induction false} DistinctCount(edges: seq<Edge>)
    requires DistinctIds(edges)
    ensures |set e | e in edges| == |edges|
  {
    if edges != [] {
      var rest, last := edges[..|edges| - 1], edges[|edges| - 1];
      DistinctCount(rest);
      assert (set e | e in edges) == (set e | e in rest) + {last};
    }
  }

  /** The walk has as many edges as there are within two hops. */
  lemma WalkCount(s: Search)
    requires DistinctIds(s.confirmed)
    ensures var edges := Active(s.confirmed, s.moment);
            |TwoHops(edges, Seeds(s.entities, edges, s.tokens))| == |s.Found()|
  {
    ActiveDistinct(s.confirmed, s.moment);
    var edges := Active(s.confirmed, s.moment);
    var seeds := Seeds(s.entities, edges, s.tokens);
    var all := TwoHops(edges, seeds);
    SelectionIsNeighbourhood(edges, seeds, |all|);
    SelectionDistinct(edges, seeds, |all| + 1);
    assert Selection(edges, seeds, |all| + 1) == all;
    SelectionIsNeighbourhood(edges, seeds, |all| + 1);
    forall e: Edge ensures e in all <==> e in s.Found() { NeighboursAreNear(s, e); }
    DistinctCount(all);
    assert (set e | e in all) == s.Found();
  }

  lemma ShowsWanted(e: Edge, f: Filters)
    ensures Shown(e, f) != [] <==> exists i :: 0 <= i < |e.evidence| && i < 5 && Wanted(e.evidence[i], f)
  {
    if Shown(e, f) != [] {
      ShownIsEvidence(e, f, Shown(e, f)[0]);
    }
    if i :| 0 <= i < |e.evidence| && i < 5 && Wanted(e.evidence[i], f) {
      ShownIsEvidence(e, f, e.evidence[i]);
    }
  }

  lemma FactHasEdge(facts: seq<Fact>, edges: seq<Edge>, nodes: seq<Node>, f: Filters, e: Edge)
    requires facts == Facts(edges, nodes, f)
    ensures (exists x :: x in facts && x.edge == e) <==>
              e in edges && IsNode(nodes, e.subject) && IsNode(nodes, e.target) && Shown(e, f) != []
  {
    if x :| x in facts && x.edge == e { FactsAreSupported(edges, nodes, f, x); }
    FactsAreSupported(edges, nodes, f, Fact(e, Shown(e, f)));
  }

  /** Below the limit the facts are those of the relationships that answer the search. */
  lemma AnswersExactly(s: Search, limit: int, f: Filters)
    requires DistinctIds(s.confirmed)
    ensures var edges := Active(s.confirmed, s.moment);
            var facts := if s.tokens == {} then []
                         else Facts(Selection(edges, Seeds(s.entities, edges, s.tokens), limit), s.entities, f);
            |s.Found()| <= limit ==> forall e :: (exists x :: x in facts && x.edge == e) <==> s.Answers(e, f)
  {
    if |s.Found()| <= limit {
      var edges := Active(s.confirmed, s.moment);
      var seeds := Seeds(s.entities, edges, s.tokens);
      var selected := Selection(edges, seeds, limit);
      WalkCount(s);
      SelectionIsNeighbourhood(edges, seeds, limit);
      forall e: Edge ensures (exists x :: x in Facts(selected, s.entities, f) && x.edge == e) <==> s.Answers(e, f) {
        NeighboursAreNear(s, e);
        FactHasEdge(Facts(selected, s.entities, f), selected, s.entities, f, e);
        ShowsWanted(e, f);
      }
      if s.tokens == {} { NothingAsked(s, f); }
    }
  }

  lemma NothingAsked(s: Search, f: Filters)
    requires s.tokens == {}
    ensures forall e :: !s.Answers(e, f)
  {
    forall id ensures !s.Starts(id) {}
    forall e ensures !s.AtStart(e) {}
  }
}
