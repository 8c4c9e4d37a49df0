/** Greedy packing of token counts into overlapping spans. */
module Packing {
  /** The units `start .. end` of one chunk. */
  datatype Span = Span(start: nat, end: nat)

  function Sum(counts: seq<nat>, i: nat, j: nat): nat
    requires i <= j <= |counts|
    decreases j - i
  {
    if i == j then 0 else Sum(counts, i, j - 1) + counts[j - 1]
  }

  lemma {:induction false} SumSplit(counts: seq<nat>, i: nat, j: nat, k: nat)
    requires i <= j <= k <= |counts|
    ensures Sum(counts, i, k) == Sum(counts, i, j) + Sum(counts, j, k)
    decreases k - j
  {
    if j < k {
      SumSplit(counts, i, j, k - 1);
    }
  }

  /** `end` is where a chunk from `start` stops: it fits or is a single unit, and one more unit would not fit. */
  predicate IsEnd(counts: seq<nat>, budget: nat, start: nat, end: nat) {
    && start < end <= |counts|
    && (end == start + 1 || Sum(counts, start, end) <= budget)
    && (end < |counts| ==> Sum(counts, start, end + 1) > budget)
  }

  /** `next` is where the chunk after `start .. end` begins: the units stepped over again fit the overlap
      budget, and one more would not, or would be the whole chunk. */
  predicate IsNext(counts: seq<nat>, overlap: nat, start: nat, end: nat, next: nat) {
    && start < next <= end <= |counts|
    && Sum(counts, next, end) <= overlap
    && (next > start + 1 ==> Sum(counts, next - 1, end) > overlap)
  }

  ghost predicate IsChain(counts: seq<nat>, budget: nat, overlap: nat, spans: seq<Span>) {
    && (spans != [] ==> spans[0].start == 0)
    && (forall k :: 0 <= k < |spans| ==> IsEnd(counts, budget, spans[k].start, spans[k].end))
    && (forall k :: 0 <= k < |spans| - 1 ==>
          spans[k].end < |counts| && IsNext(counts, overlap, spans[k].start, spans[k].end, spans[k + 1].start))
  }

  /** What `chunk_pages` computes, said without saying how. */
  ghost predicate IsPacking(counts: seq<nat>, budget: nat, overlap: nat, spans: seq<Span>) {
    && IsChain(counts, budget, overlap, spans)
    && (if counts == [] then spans == [] else spans != [] && spans[|spans| - 1].end == |counts|)
  }

  lemma EndUnique(counts: seq<nat>, budget: nat, start: nat, x: nat, y: nat)
    requires IsEnd(counts, budget, start, x) && IsEnd(counts, budget, start, y)
    ensures x == y
  {
    var low, high := if x < y then x else y, if x < y then y else x;
    if low < high {
      SumSplit(counts, start, low + 1, high);
      assert false;
    }
  }

  lemma NextUnique(counts: seq<nat>, overlap: nat, start: nat, end: nat, x: nat, y: nat)
    requires IsNext(counts, overlap, start, end, x) && IsNext(counts, overlap, start, end, y)
    ensures x == y
  {
    var low, high := if x < y then x else y, if x < y then y else x;
    if low < high {
      SumSplit(counts, low, high - 1, end);
      assert false;
    }
  }

  /** Two packings agree as far as both go. */
  lemma {:induction false} ChainsAgree(counts: seq<nat>, budget: nat, overlap: nat, x: seq<Span>, y: seq<Span>, k: nat)
    requires IsChain(counts, budget, overlap, x) && IsChain(counts, budget, overlap, y)
    requires k < |x| && k < |y|
    ensures x[k] == y[k]
  {
    if k > 0 {
      ChainsAgree(counts, budget, overlap, x, y, k - 1);
      NextUnique(counts, overlap, x[k - 1].start, x[k - 1].end, x[k].start, y[k].start);
    }
    EndUnique(counts, budget, x[k].start, x[k].end, y[k].end);
  }

  /** The counts and the two budgets determine the packing. */
  lemma PackingUnique(counts: seq<nat>, budget: nat, overlap: nat, x: seq<Span>, y: seq<Span>)
    requires IsPacking(counts, budget, overlap, x) && IsPacking(counts, budget, overlap, y)
    ensures x == y
  {
    forall k | 0 <= k < |x| && k < |y| ensures x[k] == y[k] {
      ChainsAgree(counts, budget, overlap, x, y, k);
    }
    assert counts != [] ==> |x| == |y|;
  }

  /** From one chunk to the next: the start moves on, the end does not move back, nothing lies between them,
      and what they share fits the overlap budget. The end stays where it was exactly when the shared units
      leave no room for the next one; then the second chunk is only a suffix of the first. */
  lemma StepShape(counts: seq<nat>, budget: nat, overlap: nat, spans: seq<Span>, k: nat)
    requires IsChain(counts, budget, overlap, spans) && k + 1 < |spans|
    ensures spans[k].start < spans[k + 1].start <= spans[k].end <= spans[k + 1].end
    ensures Sum(counts, spans[k + 1].start, spans[k].end) <= overlap
    ensures spans[k].end == spans[k + 1].end <==>
              spans[k + 1].start < spans[k].end && Sum(counts, spans[k + 1].start, spans[k].end + 1) > budget
  {
    var s, t := spans[k], spans[k + 1];
    if t.end < s.end {
      SumSplit(counts, s.start, t.start, s.end);
      SumSplit(counts, t.start, t.end + 1, s.end);
      assert false;
    } else if t.end > s.end {
      SumSplit(counts, t.start, s.end + 1, t.end);
    }
  }

  /** Starts strictly increase, so the k-th chunk starts at unit k or later. */
  lemma {:induction false} StartsIncrease(counts: seq<nat>, budget: nat, overlap: nat, spans: seq<Span>, j: nat, k: nat)
    requires IsChain(counts, budget, overlap, spans) && j <= k < |spans|
    ensures spans[j].start + (k - j) <= spans[k].start && spans[j].end <= spans[k].end
  {
    if j < k {
      StartsIncrease(counts, budget, overlap, spans, j, k - 1);
      StepShape(counts, budget, overlap, spans, k - 1);
    }
  }

  /** There are never more chunks than units. */
  lemma NoMoreChunksThanUnits(counts: seq<nat>, budget: nat, overlap: nat, spans: seq<Span>)
    requires IsChain(counts, budget, overlap, spans)
    ensures |spans| <= |counts|
  {
    if spans != [] {
      StartsIncrease(counts, budget, overlap, spans, 0, |spans| - 1);
    }
  }

  /** And that happens. */
  lemma EndsMayRepeat()
    ensures IsPacking([1, 2, 3], 3, 2, [Span(0, 2), Span(1, 2), Span(2, 3)])
  {
    var c := [1, 2, 3];
    assert Sum(c, 0, 1) == 1 && Sum(c, 0, 2) == 3 && Sum(c, 1, 2) == 2 && Sum(c, 0, 3) == 6 && Sum(c, 1, 3) == 5;
    assert Sum(c, 2, 3) == 3 && Sum(c, 2, 2) == 0;
  }
}
