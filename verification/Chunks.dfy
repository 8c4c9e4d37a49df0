/** Chunks: packed units, joined. What comes out is the document, cut with a bounded overlap. */
module Chunks {
  import opened Tables
  import opened Packing
  import opened Chunker

  /** Token counts as the provider's own tokenizer gives them, and the sizes the provider asks for. */
  datatype Provider = Provider(count: string -> nat, chunkTokens: int, maxInputTokens: int)

  datatype ChunkingError = WindowTooSmall(window: int)

  // ---------------------------------------------------------------- joining

  function Separator(x: Unit, y: Unit): string {
    if x.paragraph != y.paragraph then "\n\n" else " "
  }

  /** The texts of the units, a blank line between paragraphs and a space inside one. */
  function Content(units: seq<Unit>): string {
    if units == [] then ""
    else
      var n := |units| - 1;
      if n == 0 then units[0].Body()
      else Content(units[..n]) + (Separator(units[n - 1], units[n]) + units[n].Body())
  }

  function Glue(parts: seq<string>): string {
    if parts == [] then "" else Glue(parts[..|parts| - 1]) + parts[|parts| - 1]
  }

  lemma GlueTwo(parts: seq<string>, x: string, y: string)
    ensures Glue(parts + [x]) == Glue(parts) + x
    ensures Glue(parts + [x] + [y]) == Glue(parts) + (x + y)
  {
    assert (parts + [x])[..|parts|] == parts;
    assert (parts + [x] + [y])[..|parts| + 1] == parts + [x];
  }

  method Join(units: seq<Unit>) returns (chunk: Chunk)
    requires units != []
    ensures chunk == Chunk(Content(units), units[0].page)
  {
    var parts: seq<string> := [];
    for i := 0 to |units|
      invariant Glue(parts) == Content(units[..i])
    {
      assert units[..i + 1][..i] == units[..i];
      ghost var before := parts;
      if i > 0 {
        GlueTwo(before, Separator(units[i - 1], units[i]), units[i].Body());
        if units[i].paragraph != units[i - 1].paragraph {
          parts := parts + ["\n\n"];
        } else {
          parts := parts + [" "];
        }
      } else {
        GlueTwo(before, units[i].Body(), "");
      }
      parts := parts + [units[i].Body()];
    }
    assert units[..|units|] == units;
    chunk := Chunk(Glue(parts), units[0].page);
  }

  ghost predicate Within(spans: seq<Span>, n: nat) {
    forall k :: 0 <= k < |spans| ==> spans[k].start < spans[k].end <= n
  }

  function Joined(units: seq<Unit>, spans: seq<Span>): (chunks: seq<Chunk>)
    requires Within(spans, |units|)
    ensures |chunks| == |spans|
  {
    seq(|spans|, k requires 0 <= k < |spans| =>
      Chunk(Content(units[spans[k].start..spans[k].end]), units[spans[k].start].page))
  }

  // ---------------------------------------------------------------- packing

  /** How far `chunk_pages` has come: the chunks so far, and where the next one starts. */
  ghost predicate Ahead(counts: seq<nat>, budget: nat, overlap: nat, spans: seq<Span>, start: nat) {
    && IsChain(counts, budget, overlap, spans)
    && start < |counts|
    && (if spans == [] then start == 0
        else var last := spans[|spans| - 1];
             last.end < |counts| && IsNext(counts, overlap, last.start, last.end, start))
  }

  method FindEnd(counts: seq<nat>, budget: nat, start: nat) returns (end: nat)
    requires start < |counts|
    ensures IsEnd(counts, budget, start, end)
  {
    end := start;
    var used := 0;
    while end < |counts| && used + counts[end] <= budget
      invariant start <= end <= |counts| && used == Sum(counts, start, end) <= budget
    {
      used := used + counts[end];
      end := end + 1;
    }
    if end == start {
      end := start + 1;
      if end < |counts| { SumSplit(counts, start, end, end + 1); }
    }
  }

  method StepBack(counts: seq<nat>, overlap: nat, start: nat, end: nat) returns (next: nat)
    requires start < end <= |counts|
    ensures IsNext(counts, overlap, start, end, next)
  {
    next := end;
    var used := 0;
    while next > start + 1 && used + counts[next - 1] <= overlap
      invariant start < next <= end && used == Sum(counts, next, end) <= overlap
    {
      SumSplit(counts, next - 1, next, end);
      next := next - 1;
      used := used + counts[next];
    }
    if next > start + 1 { SumSplit(counts, next - 1, next, end); }
  }

  lemma JoinedLast(units: seq<Unit>, spans: seq<Span>, start: nat, end: nat)
    requires Within(spans, |units|) && start < end <= |units|
    ensures Within(spans + [Span(start, end)], |units|)
    ensures Joined(units, spans + [Span(start, end)])
            == Joined(units, spans) + [Chunk(Content(units[start..end]), units[start].page)]
  {
  }

  /** The chunks so far are the spans so far, joined, and the next one starts at `start`. */
  ghost predicate PackedTo(units: seq<Unit>, counts: seq<nat>, budget: nat, overlap: nat, spans: seq<Span>,
                           chunks: seq<Chunk>, start: nat)
  {
    && |counts| == |units| && Ahead(counts, budget, overlap, spans, start)
    && Within(spans, |units|) && chunks == Joined(units, spans)
  }

  /** One more chunk: it is the last, or the next one starts further on. */
  lemma PackOne(units: seq<Unit>, counts: seq<nat>, budget: nat, overlap: nat, spans: seq<Span>, chunks: seq<Chunk>,
                start: nat, end: nat)
    requires PackedTo(units, counts, budget, overlap, spans, chunks, start) && IsEnd(counts, budget, start, end)
    ensures var spans', chunks' := spans + [Span(start, end)], chunks + [Chunk(Content(units[start..end]), units[start].page)];
            && (end == |units| ==>
                  IsPacking(counts, budget, overlap, spans') && Within(spans', |units|) && chunks' == Joined(units, spans'))
            && (forall next: nat :: end < |units| && IsNext(counts, overlap, start, end, next) ==>
                  PackedTo(units, counts, budget, overlap, spans', chunks', next))
  {
    JoinedLast(units, spans, start, end);
    assert IsChain(counts, budget, overlap, spans + [Span(start, end)]);
  }

  /** The chunk `s` of these units counts for at most `most` tokens besides the margin. */
  predicate TakesAtMost(counts: seq<nat>, s: Span, most: int)
    requires s.start <= s.end <= |counts|
  {
    Sum(counts, s.start, s.end) + SPECIAL_TOKEN_MARGIN <= most
  }

  /** Every chunk leaves room for the margin in both sizes, or is one unit of one word. */
  ghost predicate KeepsBoth(units: seq<Unit>, counts: seq<nat>, spans: seq<Span>, wanted: int, window: int)
    requires |counts| == |units|
  {
    forall k :: 0 <= k < |spans| ==>
      && spans[k].start < spans[k].end <= |units|
      && (|| (TakesAtMost(counts, spans[k], wanted) && TakesAtMost(counts, spans[k], window))
          || (spans[k].end == spans[k].start + 1 && |units[spans[k].start].words| == 1))
  }

  /** Every chunk but the last would be over one of the two with one unit more. */
  ghost predicate FillsOne(counts: seq<nat>, spans: seq<Span>, wanted: int, window: int) {
    forall k :: 0 <= k < |spans| && spans[k].start <= spans[k].end < |counts| ==>
      || !TakesAtMost(counts, Span(spans[k].start, spans[k].end + 1), wanted)
      || !TakesAtMost(counts, Span(spans[k].start, spans[k].end + 1), window)
  }

  lemma PackedToBoth(pages: seq<Page>, budget: nat, count: string -> nat, overlap: nat, spans: seq<Span>,
                     wanted: int, window: int)
    requires var units := Levelled(pages, budget, count, |LEVELS|);
             IsPacking(Counts(units, count), budget, overlap, spans)
    requires budget + 4 <= wanted && budget + 4 <= window && (budget + 4 == wanted || budget + 4 == window)
    ensures var units := Levelled(pages, budget, count, |LEVELS|);
            && KeepsBoth(units, Counts(units, count), spans, wanted, window)
            && FillsOne(Counts(units, count), spans, wanted, window)
  {
    var units := Levelled(pages, budget, count, |LEVELS|);
    var counts := Counts(units, count);
    SplittingKeepsReading(pages, budget, count, |LEVELS|);
    forall k | 0 <= k < |spans|
      ensures TakesAtMost(counts, spans[k], budget + 4)
              || (spans[k].end == spans[k].start + 1 && |units[spans[k].start].words| == 1)
    {
      assert units[spans[k].start] in units;
      FitsOrIsWord(units, budget, count, spans[k]);
    }
  }

  lemma SumOfOne(counts: seq<nat>, k: nat)
    requires k < |counts|
    ensures Sum(counts, k, k + 1) == counts[k]
  {
    assert Sum(counts, k, k) == 0;
  }

  lemma FitsOrIsWord(units: seq<Unit>, budget: nat, count: string -> nat, s: Span)
    requires IsEnd(Counts(units, count), budget, s.start, s.end)
    requires FitsOrWord(units[s.start], budget, count)
    ensures TakesAtMost(Counts(units, count), s, budget + 4)
            || (s.end == s.start + 1 && |units[s.start].words| == 1)
  {
    if s.end == s.start + 1 { SumOfOne(Counts(units, count), s.start); }
  }

  /** The budget is the larger of those that leave room for the margin in the size asked for, or in the provider's own
      where none is asked for, a size of zero being none, and in the window of the model. */
  method ChunkPages(pages: seq<Page>, p: Provider, maxTokens: Option<int>, overlap: nat)
    returns (r: Result<seq<Chunk>, ChunkingError>, ghost spans: seq<Span>, ghost budget: nat)
    ensures r.Err? <==>
              p.maxInputTokens < 5 || (if maxTokens.Some? && maxTokens.value != 0 then maxTokens.value else p.chunkTokens) < 5
    ensures r.Err? ==> r.error == WindowTooSmall(p.maxInputTokens)
    ensures r.Ok? ==>
              var wanted := if maxTokens.Some? && maxTokens.value != 0 then maxTokens.value else p.chunkTokens;
              && budget + 4 <= wanted && budget + 4 <= p.maxInputTokens
              && (budget + 4 == wanted || budget + 4 == p.maxInputTokens)
              && var units := Levelled(pages, budget, p.count, |LEVELS|);
              && IsPacking(Counts(units, p.count), budget, overlap, spans) && r.value == Joined(units, spans)
              && KeepsBoth(units, Counts(units, p.count), spans, wanted, p.maxInputTokens)
              && FillsOne(Counts(units, p.count), spans, wanted, p.maxInputTokens)
  {
    spans, budget := [], 0;
    var wanted := if maxTokens.Some? && maxTokens.value != 0 then maxTokens.value else p.chunkTokens;
    var room := (if wanted <= p.maxInputTokens then wanted else p.maxInputTokens) - SPECIAL_TOKEN_MARGIN;
    if room < 1 { return Err(WindowTooSmall(p.maxInputTokens)), spans, budget; }
    budget := room;
    var units := SplitUnits(pages, room, p.count);
    var chunks;
    chunks, spans := PackUnits(units, Counts(units, p.count), room, overlap);
    PackedToBoth(pages, room, p.count, overlap, spans, wanted, p.maxInputTokens);
    r := Ok(chunks);
  }

  /** Pack within the budget and join. */
  method PackUnits(units: seq<Unit>, counts: seq<nat>, budget: nat, overlap: nat)
    returns (chunks: seq<Chunk>, ghost spans: seq<Span>)
    requires |counts| == |units|
    ensures IsPacking(counts, budget, overlap, spans) && Within(spans, |units|) && chunks == Joined(units, spans)
  {
    spans, chunks := [], [];
    if units == [] { return; }
    var start := 0;
    while start < |units|
      invariant PackedTo(units, counts, budget, overlap, spans, chunks, start)
      decreases |units| - start
    {
      var end := FindEnd(counts, budget, start);
      var chunk := Join(units[start..end]);
      PackOne(units, counts, budget, overlap, spans, chunks, start, end);
      chunks := chunks + [chunk];
      spans := spans + [Span(start, end)];
      if end >= |units| { break; }
      start := StepBack(counts, overlap, start, end);
    }
  }
}
