/** Packing a document's chunks into prompts: greedy, order-preserving, and with as few prompts as
    any packing can do. */
module Batches {
  import opened Tables

  function Size(batch: seq<ChunkRow>): nat {
    if batch == [] then 0 else Size(batch[..|batch| - 1]) + |batch[|batch| - 1].content|
  }

  /** A prompt that may be sent: a single chunk of any size, or several within the budget. */
  predicate Fits(batch: seq<ChunkRow>, budget: nat) {
    |batch| == 1 || (|batch| > 1 && Size(batch) <= budget)
  }

  function Flatten(batches: seq<seq<ChunkRow>>): seq<ChunkRow> {
    if batches == [] then [] else Flatten(batches[..|batches| - 1]) + batches[|batches| - 1]
  }

  /** An order-preserving partition of the chunks into prompts that may be sent. */
  ghost predicate IsPacking(batches: seq<seq<ChunkRow>>, chunks: seq<ChunkRow>, budget: nat) {
    Flatten(batches) == chunks && AllFit(batches, budget)
  }

  ghost predicate AllFit(batches: seq<seq<ChunkRow>>, budget: nat) {
    forall i :: 0 <= i < |batches| ==> Fits(batches[i], budget)
  }

  /** No packing of the chunks has fewer batches. */
  ghost predicate Fewest(batches: seq<seq<ChunkRow>>, chunks: seq<ChunkRow>, budget: nat) {
    forall other :: IsPacking(other, chunks, budget) ==> |batches| <= |other|
  }

  lemma {:induction false} SizeJoin(a: seq<ChunkRow>, b: seq<ChunkRow>)
    ensures Size(a + b) == Size(a) + Size(b)
    decreases |b|
  {
    if b == [] {
      assert a + b == a;
    } else {
      assert (a + b)[..|a + b| - 1] == a + b[..|b| - 1];
      SizeJoin(a, b[..|b| - 1]);
    }
  }

  /** A batch was closed because the next chunk did not fit any more. */
  ghost predicate Closed(batch: seq<ChunkRow>, next: seq<ChunkRow>, budget: nat) {
    batch != [] && next != [] && Size(batch) + |next[0].content| > budget
  }

  ghost predicate Greedy(batches: seq<seq<ChunkRow>>, budget: nat) {
    forall i :: 0 <= i < |batches| - 1 ==> Closed(batches[i], batches[i + 1], budget)
  }

  /** What the loop has made of the first chunks: closed batches, and the one still open. */
  ghost predicate Progress(batches: seq<seq<ChunkRow>>, current: seq<ChunkRow>, done: seq<ChunkRow>, budget: nat) {
    && Flatten(batches) + current == done
    && AllFit(batches, budget) && Greedy(batches, budget)
    && (batches != [] ==> Closed(batches[|batches| - 1], current, budget))
    && (if current == [] then done == [] && batches == [] else Fits(current, budget))
  }

  lemma Extends(batches: seq<seq<ChunkRow>>, current: seq<ChunkRow>, done: seq<ChunkRow>, chunk: ChunkRow, budget: nat)
    requires Progress(batches, current, done, budget)
    requires current != [] ==> Size(current) + |chunk.content| <= budget
    ensures Progress(batches, current + [chunk], done + [chunk], budget)
  {
    Grow(current, chunk);
  }

  lemma Closes(batches: seq<seq<ChunkRow>>, current: seq<ChunkRow>, done: seq<ChunkRow>, chunk: ChunkRow, budget: nat)
    requires Progress(batches, current, done, budget)
    requires current != [] && Size(current) + |chunk.content| > budget
    ensures Progress(batches + [current], [] + [chunk], done + [chunk], budget)
    ensures Size([] + [chunk]) == |chunk.content|
  {
    FlattenAdd(batches, current);
    Grow([], chunk);
    assert [] + [chunk] == [chunk];
  }

  lemma OneMore(chunks: seq<ChunkRow>, i: nat)
    requires i < |chunks|
    ensures chunks[..i + 1] == chunks[..i] + [chunks[i]]
  {
  }

  /** The loop of `extraction_batches`: the batches closed so far, and the one still open. */
  method FillBatches(chunks: seq<ChunkRow>, budget: nat) returns (batches: seq<seq<ChunkRow>>, current: seq<ChunkRow>)
    ensures Progress(batches, current, chunks, budget)
  {
    batches, current := [], [];
    var size := 0;
    assert chunks[..0] == [];
    for i := 0 to |chunks|
      invariant Progress(batches, current, chunks[..i], budget) && size == Size(current)
    {
      var chunk := chunks[i];
      var textSize := |chunk.content|;
      OneMore(chunks, i);
      if current != [] && size + textSize > budget {
        Closes(batches, current, chunks[..i], chunk, budget);
        batches := batches + [current];
        current, size := [], 0;
      } else {
        Extends(batches, current, chunks[..i], chunk, budget);
        Grow(current, chunk);
      }
      current := current + [chunk];
      size := size + textSize;
    }
    assert chunks[..|chunks|] == chunks;
  }

  /** `extraction_batches`. */
  method ExtractionBatches(chunks: seq<ChunkRow>, budget: nat) returns (batches: seq<seq<ChunkRow>>)
    ensures IsPacking(batches, chunks, budget) && Greedy(batches, budget) && Fewest(batches, chunks, budget)
  {
    var current;
    batches, current := FillBatches(chunks, budget);
    Finishes(batches, current, chunks, budget);
    if current != [] {
      batches := batches + [current];
    }
  }

  lemma Finishes(batches: seq<seq<ChunkRow>>, current: seq<ChunkRow>, chunks: seq<ChunkRow>, budget: nat)
    requires Progress(batches, current, chunks, budget)
    ensures var all := if current == [] then batches else batches + [current];
            IsPacking(all, chunks, budget) && Greedy(all, budget) && Fewest(all, chunks, budget)
  {
    FlattenAdd(batches, current);
    var all := if current == [] then batches else batches + [current];
    GreedyBeatsAll(all, chunks, budget);
  }

  lemma Grow(current: seq<ChunkRow>, chunk: ChunkRow)
    ensures Size(current + [chunk]) == Size(current) + |chunk.content|
  {
    assert (current + [chunk])[..|current|] == current;
  }

  lemma FlattenAdd(batches: seq<seq<ChunkRow>>, b: seq<ChunkRow>)
    ensures Flatten(batches + [b]) == Flatten(batches) + b
  {
    assert (batches + [b])[..|batches|] == batches;
  }

  /** Where batch i starts. */
  function Start(batches: seq<seq<ChunkRow>>, i: nat): nat
    requires i <= |batches|
  {
    |Flatten(batches[..i])|
  }

  lemma {:induction false} StartStep(batches: seq<seq<ChunkRow>>, i: nat)
    requires i < |batches|
    ensures Start(batches, i + 1) == Start(batches, i) + |batches[i]| <= |Flatten(batches)|
    ensures batches[i] == Flatten(batches)[Start(batches, i)..Start(batches, i + 1)]
    decreases |batches|
  {
    var n := |batches| - 1;
    assert batches[..i + 1][..i] == batches[..i];
    assert batches[..|batches|] == batches;
    if i < n {
      StartStep(batches[..n], i);
      assert batches[..n][..i + 1] == batches[..i + 1] && batches[..n][..i] == batches[..i];
      var front := Flatten(batches[..n]);
      assert Flatten(batches)[Start(batches, i)..Start(batches, i + 1)] == front[Start(batches, i)..Start(batches, i + 1)];
    }
  }

  /** A stretch that runs past where greedy had to close cannot be sent in one prompt. */
  lemma RunsOver(chunks: seq<ChunkRow>, lo: nat, mid: nat, end: nat, hi: nat, budget: nat)
    requires lo <= mid < end < hi <= |chunks|
    requires Size(chunks[mid..end]) + |chunks[end].content| > budget
    ensures !Fits(chunks[lo..hi], budget)
  {
    SizeSplit(chunks, lo, mid, hi);
    SizeSplit(chunks, mid, end, hi);
    SizeSplit(chunks, end, end + 1, hi);
    Grow([], chunks[end]);
    assert chunks[end..end + 1] == [] + [chunks[end]];
  }

  lemma SizeSplit(chunks: seq<ChunkRow>, lo: nat, mid: nat, hi: nat)
    requires lo <= mid <= hi <= |chunks|
    ensures Size(chunks[lo..hi]) == Size(chunks[lo..mid]) + Size(chunks[mid..hi])
  {
    SizeJoin(chunks[lo..mid], chunks[mid..hi]);
    assert chunks[lo..hi] == chunks[lo..mid] + chunks[mid..hi];
  }

  /** Greedy stays ahead: its i-th batch starts no earlier than that of any other packing. */
  lemma {:induction false} GreedyStaysAhead(
      greedy: seq<seq<ChunkRow>>, other: seq<seq<ChunkRow>>, chunks: seq<ChunkRow>, budget: nat, i: nat)
    requires IsPacking(greedy, chunks, budget) && IsPacking(other, chunks, budget)
    requires Greedy(greedy, budget)
    requires i <= |other| && i < |greedy|
    ensures Start(other, i) <= Start(greedy, i)
  {
    if i > 0 {
      GreedyStaysAhead(greedy, other, chunks, budget, i - 1);
      StartStep(greedy, i - 1);
      StartStep(greedy, i);
      StartStep(other, i - 1);
      var lo, mid, end, hi := Start(other, i - 1), Start(greedy, i - 1), Start(greedy, i), Start(other, i);
      assert Closed(greedy[i - 1], greedy[i], budget);
      if hi > end { RunsOver(chunks, lo, mid, end, hi, budget); }
    }
  }

  /** No packing of the same chunks uses fewer prompts. */
  lemma GreedyIsOptimal(greedy: seq<seq<ChunkRow>>, other: seq<seq<ChunkRow>>, chunks: seq<ChunkRow>, budget: nat)
    requires IsPacking(greedy, chunks, budget) && IsPacking(other, chunks, budget)
    requires Greedy(greedy, budget)
    ensures |greedy| <= |other|
  {
    if |other| < |greedy| {
      var i := |other|;
      GreedyStaysAhead(greedy, other, chunks, budget, i);
      assert other[..i] == other;
      StartStep(greedy, i);
    }
  }

  lemma GreedyBeatsAll(greedy: seq<seq<ChunkRow>>, chunks: seq<ChunkRow>, budget: nat)
    requires IsPacking(greedy, chunks, budget) && Greedy(greedy, budget)
    ensures Fewest(greedy, chunks, budget)
  {
    forall other | IsPacking(other, chunks, budget) ensures |greedy| <= |other| {
      GreedyIsOptimal(greedy, other, chunks, budget);
    }
  }
}
