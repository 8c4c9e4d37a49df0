/** The hosted provider counts three characters to a token. Its counts do not add up across a join, so a chunk
    may count for more than its budget; how much more is known exactly. */
module Tokens {
  import opened Words
  import opened Packing
  import opened Chunker
  import opened Chunks
  import opened ChunkTheorems

  const MAX_INPUT_TOKENS := 32768

  /** `-(-len(text) // 3)` */
  function CountTokens(text: string): nat {
    (|text| + 2) / 3
  }

  /** What the packer adds up for these units. */
  function TokenSum(units: seq<Unit>): nat {
    Sum(Counts(units, CountTokens), 0, |units|)
  }

  lemma {:induction false} SumSlice(x: seq<nat>, y: seq<nat>, i: nat, j: nat)
    requires i <= j <= |x| && |y| >= j - i
    requires forall k :: 0 <= k < j - i ==> x[i + k] == y[k]
    ensures Sum(x, i, j) == Sum(y, 0, j - i)
    decreases j - i
  {
    if i < j {
      SumSlice(x, y, i, j - 1);
      assert x[i + (j - 1 - i)] == y[j - 1 - i];
    }
  }

  lemma CountsPrefix(units: seq<Unit>, i: nat, j: nat)
    requires i <= j <= |units|
    ensures Sum(Counts(units, CountTokens), i, j) == TokenSum(units[i..j])
  {
    var x, y := Counts(units, CountTokens), Counts(units[i..j], CountTokens);
    forall k | 0 <= k < j - i ensures x[i + k] == y[k] {
      assert units[i..j][k] == units[i + k];
    }
    SumSlice(x, y, i, j);
  }

  lemma TokenSumLast(units: seq<Unit>, u: Unit)
    ensures TokenSum(units + [u]) == TokenSum(units) + CountTokens(u.Body())
  {
    var x, y, n := Counts(units + [u], CountTokens), Counts(units, CountTokens), |units|;
    forall k | 0 <= k < n ensures x[k] == y[k] {
      assert (units + [u])[k] == units[k];
    }
    SumSlice(x, y, 0, n);
    assert (units + [u])[n] == u;
  }

  lemma WrittenSlice(units: seq<Unit>, i: nat, j: nat)
    requires Written(units) && i < j <= |units|
    ensures Written(units[i..j]) && units[i..j] != []
  {
  }

  /** A separator counts for nothing and is at most two characters long. */
  lemma {:induction false} ContentLength(units: seq<Unit>)
    requires units != [] && Written(units)
    ensures |units| <= TokenSum(units)
    ensures |Content(units)| <= 3 * TokenSum(units) + 2 * (|units| - 1)
    decreases |units|
  {
    var n := |units| - 1;
    TextNotEmpty(units[n].words);
    assert units == units[..n] + [units[n]];
    TokenSumLast(units[..n], units[n]);
    if n > 0 {
      ContentLength(units[..n]);
    }
  }

  /** A chunk of several units within the budget `b` counts for at most ceil((5b - 2) / 3), which is 5b / 3. */
  lemma JoinBound(units: seq<Unit>, b: nat)
    requires units != [] && Written(units) && TokenSum(units) <= b
    ensures CountTokens(Content(units)) <= (5 * b) / 3
  {
    ContentLength(units);
  }

  /** Every chunk the chunker makes keeps that bound, or is a single word. */
  lemma ChunkBound(pages: seq<Page>, budget: nat, overlap: nat, spans: seq<Span>, k: nat)
    requires IsPacking(Counts(Levelled(pages, budget, CountTokens, |LEVELS|), CountTokens), budget, overlap, spans)
    requires k < |spans|
    ensures var units := Levelled(pages, budget, CountTokens, |LEVELS|);
            && Within(spans, |units|)
            && var c := Joined(units, spans)[k].content;
            CountTokens(c) <= (5 * budget) / 3 || |Split(c)| == 1
  {
    var units := Levelled(pages, budget, CountTokens, |LEVELS|);
    var s := spans[k];
    ChunkFits(pages, budget, CountTokens, overlap, spans, k);
    SplittingKeepsReading(pages, budget, CountTokens, |LEVELS|);
    CountsPrefix(units, s.start, s.end);
    WrittenSlice(units, s.start, s.end);
    var c := Joined(units, spans)[k].content;
    if |Split(c)| != 1 {
      JoinBound(units[s.start..s.end], budget);
    }
  }

  // ---------------------------------------------------------------- the bound is reached

  /** A page of `n` paragraphs of one three-letter word each. */
  function ShortLines(n: nat): Page {
    if n == 0 then [] else ShortLines(n - 1) + [["abc"]]
  }

  function ShortUnits(n: nat): seq<Unit> {
    if n == 0 then [] else ShortUnits(n - 1) + [Unit(["abc"], 1, n)]
  }

  lemma {:induction false} ShortFacts(n: nat)
    ensures |ShortLines(n)| == n == |ShortUnits(n)| && WrittenIn(ShortLines(n)) == n
    ensures PageUnits(ShortLines(n), 1, 0) == ShortUnits(n)
    ensures forall i :: 0 <= i < n ==> ShortUnits(n)[i] == Unit(["abc"], 1, i + 1)
  {
    if n > 0 {
      ShortFacts(n - 1);
      assert ShortLines(n)[..n - 1] == ShortLines(n - 1);
    }
  }

  lemma {:induction false} ShortTokens(n: nat)
    ensures TokenSum(ShortUnits(n)) == n && Written(ShortUnits(n))
  {
    ShortFacts(n);
    if n > 0 {
      ShortTokens(n - 1);
      TokenSumLast(ShortUnits(n - 1), Unit(["abc"], 1, n));
      assert Unit(["abc"], 1, n).Body() == "abc";
    }
  }

  lemma {:induction false} ShortLength(n: nat)
    requires n > 0
    ensures |Content(ShortUnits(n))| == 5 * n - 2
  {
    ShortFacts(n);
    var units := ShortUnits(n);
    assert units[n - 1].Body() == "abc";
    if n > 1 {
      ShortLength(n - 1);
      assert units[..n - 1] == ShortUnits(n - 1);
    }
  }

  lemma ShortLevelled(b: nat)
    requires b > 0
    ensures Levelled([ShortLines(b)], b, CountTokens, |LEVELS|) == ShortUnits(b)
  {
    ShortFacts(b);
    var pages: seq<Page> := [ShortLines(b)];
    var units := ShortUnits(b);
    assert pages[..0] == [];
    assert Paragraphs(pages) == units;
    assert AllFit(units, b, CountTokens) by {
      forall i | 0 <= i < |units| ensures CountTokens(units[i].Body()) <= b { assert units[i].Body() == "abc"; }
    }
    FittingIsFinal(pages, b, CountTokens, 0);
  }

  lemma ShortPacking(b: nat, overlap: nat)
    requires b > 0
    ensures IsPacking(Counts(ShortUnits(b), CountTokens), b, overlap, [Span(0, b)])
  {
    ShortFacts(b);
    ShortTokens(b);
    CountsPrefix(ShortUnits(b), 0, b);
    assert ShortUnits(b)[0..b] == ShortUnits(b);
  }

  /** For every budget there is a document whose one chunk reaches the bound. From a budget of two on, that is
      more than the budget: the counts of the pieces do not add up to the count of the whole. */
  lemma BoundIsReached(b: nat, overlap: nat)
    requires b > 0
    ensures var units := Levelled([ShortLines(b)], b, CountTokens, |LEVELS|);
            && IsPacking(Counts(units, CountTokens), b, overlap, [Span(0, |units|)])
            && CountTokens(Content(units)) == (5 * b) / 3
            && (CountTokens(Content(units)) > b <==> b >= 2)
  {
    ShortFacts(b);
    ShortLength(b);
    ShortLevelled(b);
    ShortPacking(b, overlap);
  }

  /** The budgets under which no chunk of several units is longer than the model will read. */
  lemma WindowKeptIff(b: nat)
    ensures (forall units: seq<Unit> :: units != [] && Written(units) && TokenSum(units) <= b ==>
               CountTokens(Content(units)) <= MAX_INPUT_TOKENS)
            <==> b <= 19661
  {
    if b <= 19661 {
      forall units: seq<Unit> | units != [] && Written(units) && TokenSum(units) <= b
        ensures CountTokens(Content(units)) <= MAX_INPUT_TOKENS
      {
        JoinBound(units, b);
      }
    } else {
      ShortFacts(b);
      ShortTokens(b);
      ShortLength(b);
      assert TokenSum(ShortUnits(b)) <= b;
    }
  }
}
