/** What the chunks of a document say, read back from their contents. */
module ChunkTheorems {
  import opened Words
  import opened Packing
  import opened Chunker
  import opened Chunks

  function Bare(placed: seq<Placed>): (words: seq<Word>)
    ensures |words| == |placed|
    ensures forall i :: 0 <= i < |placed| ==> words[i] == placed[i].word
  {
    if placed == [] then [] else Bare(placed[..|placed| - 1]) + [placed[|placed| - 1].word]
  }

  function WordsOf(units: seq<Unit>): seq<Word> {
    Bare(Flat(units))
  }

  lemma WordsAdd(x: seq<Unit>, y: seq<Unit>)
    ensures WordsOf(x + y) == WordsOf(x) + WordsOf(y)
  {
    FlatAdds(x, y);
  }

  lemma {:induction false} PlaceBare(words: seq<Word>, page: nat, paragraph: nat)
    ensures Bare(Place(words, page, paragraph)) == words
    ensures forall i :: 0 <= i < |words| ==> Place(words, page, paragraph)[i] == Placed(words[i], page, paragraph)
    ensures |Place(words, page, paragraph)| == |words|
    decreases |words|
  {
    if words != [] {
      PlaceBare(words[..|words| - 1], page, paragraph);
    }
  }

  lemma WordsLast(units: seq<Unit>, u: Unit)
    ensures WordsOf(units + [u]) == WordsOf(units) + u.words
  {
    FlatLast(units, u);
    PlaceBare(u.words, u.page, u.paragraph);
  }

  lemma SplitSeparated(x: Unit, y: Unit, rest: string)
    ensures Stops(Separator(x, y) + rest) && Split(Separator(x, y) + rest) == Split(rest)
  {
    if x.paragraph != y.paragraph {
      SplitSpace('\n', rest);
      SplitSpace('\n', ['\n'] + rest);
      assert Separator(x, y) + rest == ['\n'] + (['\n'] + rest);
    } else {
      SplitSpace(' ', rest);
    }
  }

  lemma ContentStep(units: seq<Unit>, rest: string)
    requires |units| > 1
    ensures var n := |units| - 1;
            Content(units) + rest
            == Content(units[..n]) + (Separator(units[n - 1], units[n]) + (units[n].Body() + rest))
  {
  }

  lemma WordsStep(units: seq<Unit>)
    requires units != []
    ensures WordsOf(units) == WordsOf(units[..|units| - 1]) + units[|units| - 1].words
  {
    assert units[..|units| - 1] + [units[|units| - 1]] == units;
    WordsLast(units[..|units| - 1], units[|units| - 1]);
  }

  lemma SplitOne(u: Unit, rest: string)
    requires Stops(rest)
    ensures Split(Content([u]) + rest) == WordsOf([u]) + Split(rest)
  {
    SplitText(u.words, rest);
    WordsStep([u]);
    assert WordsOf([u]) == u.words;
  }

  lemma Regrouped(x: seq<Word>, y: seq<Word>, z: seq<Word>)
    ensures x + (y + z) == (x + y) + z
  {
  }

  lemma SplitJoined(units: seq<Unit>, rest: string)
    requires |units| > 1 && Stops(rest)
    requires var n := |units| - 1;
             Split(Content(units[..n]) + (Separator(units[n - 1], units[n]) + (units[n].Body() + rest)))
             == WordsOf(units[..n]) + Split(Separator(units[n - 1], units[n]) + (units[n].Body() + rest))
    ensures Split(Content(units) + rest) == WordsOf(units) + Split(rest)
  {
    var n := |units| - 1;
    ContentStep(units, rest);
    SplitSeparated(units[n - 1], units[n], units[n].Body() + rest);
    SplitText(units[n].words, rest);
    Regrouped(WordsOf(units[..n]), units[n].words, Split(rest));
    WordsStep(units);
  }

  /** Splitting the content of a chunk gives the words of its units: the separators add and lose nothing. */
  lemma {:induction false} SplitContent(units: seq<Unit>, rest: string)
    requires Stops(rest)
    ensures Split(Content(units) + rest) == WordsOf(units) + Split(rest)
    decreases |units|
  {
    var n := |units| - 1;
    if n < 0 {
      assert Content(units) + rest == rest;
    } else if n == 0 {
      assert units == [units[0]];
      SplitOne(units[0], rest);
    } else {
      SplitSeparated(units[n - 1], units[n], units[n].Body() + rest);
      SplitContent(units[..n], Separator(units[n - 1], units[n]) + (units[n].Body() + rest));
      SplitJoined(units, rest);
    }
  }

  lemma ContentWords(units: seq<Unit>)
    ensures Split(Content(units)) == WordsOf(units)
  {
    SplitContent(units, "");
    assert Content(units) + "" == Content(units);
  }

  // ---------------------------------------------------------------- nothing lost

  /** How many words chunk `k` shares with the chunk before it. */
  function Shared(units: seq<Unit>, spans: seq<Span>, k: nat): nat
    requires k < |spans| && Within(spans, |units|)
  {
    if k == 0 || spans[k].start > spans[k - 1].end then 0
    else |WordsOf(units[spans[k].start..spans[k - 1].end])|
  }

  /** The words of the chunks, in order, each without what it shares with the one before. */
  function Recovered(units: seq<Unit>, spans: seq<Span>, k: nat): seq<string>
    requires k <= |spans| && Within(spans, |units|)
  {
    if k == 0 then []
    else
      var words := Split(Joined(units, spans)[k - 1].content);
      var shared := Shared(units, spans, k - 1);
      Recovered(units, spans, k - 1) + (if shared <= |words| then words[shared..] else [])
  }

  lemma SpansWithin(counts: seq<nat>, budget: nat, overlap: nat, spans: seq<Span>)
    requires IsChain(counts, budget, overlap, spans)
    ensures Within(spans, |counts|)
  {
  }

  lemma NewWords(units: seq<Unit>, from: nat, shared: nat, to: nat)
    requires from <= shared <= to <= |units|
    ensures WordsOf(units[from..to]) == WordsOf(units[from..shared]) + WordsOf(units[shared..to])
    ensures WordsOf(units[..to]) == WordsOf(units[..shared]) + WordsOf(units[shared..to])
  {
    assert units[from..to] == units[from..shared] + units[shared..to];
    assert units[..to] == units[..shared] + units[shared..to];
    WordsAdd(units[from..shared], units[shared..to]);
    WordsAdd(units[..shared], units[shared..to]);
  }

  lemma {:induction false} RecoveredSoFar(units: seq<Unit>, counts: seq<nat>, budget: nat, overlap: nat,
                                          spans: seq<Span>, k: nat)
    requires IsChain(counts, budget, overlap, spans) && |counts| == |units| && k < |spans|
    ensures Within(spans, |units|)
    ensures Recovered(units, spans, k + 1) == WordsOf(units[..spans[k].end])
  {
    SpansWithin(counts, budget, overlap, spans);
    var s := spans[k];
    ContentWords(units[s.start..s.end]);
    if k == 0 {
      assert units[0..s.end] == units[..s.end];
      assert Recovered(units, spans, 0) == [];
    } else {
      RecoveredSoFar(units, counts, budget, overlap, spans, k - 1);
      StepShape(counts, budget, overlap, spans, k - 1);
      NewWords(units, s.start, spans[k - 1].end, s.end);
    }
  }

  /** End to end: splitting, packing and joining lose, add and reorder nothing. Reading the chunks in order
      and leaving out of each the words it shares with the one before gives the words of the document. */
  lemma DocumentRecovered(pages: seq<Page>, budget: nat, count: string -> nat, overlap: nat, spans: seq<Span>)
    requires IsPacking(Counts(Levelled(pages, budget, count, |LEVELS|), count), budget, overlap, spans)
    ensures var units := Levelled(pages, budget, count, |LEVELS|);
            Within(spans, |units|) && Recovered(units, spans, |spans|) == Bare(Reading(pages))
  {
    var units := Levelled(pages, budget, count, |LEVELS|);
    var counts := Counts(units, count);
    SplittingKeepsReading(pages, budget, count, |LEVELS|);
    SpansWithin(counts, budget, overlap, spans);
    if spans != [] {
      RecoveredSoFar(units, counts, budget, overlap, spans, |spans| - 1);
      assert units[..|units|] == units;
    }
  }

  // ---------------------------------------------------------------- pages

  lemma {:induction false} OnPageIsThere(page: Page, number: nat, before: nat)
    ensures forall i :: 0 <= i < |OnPage(page, number, before)| ==> OnPage(page, number, before)[i].page == number
    decreases |page|
  {
    if page != [] {
      OnPageIsThere(page[..|page| - 1], number, before);
      PlaceBare(page[|page| - 1], number, before + WrittenIn(page));
    }
  }

  /** Page numbers of the document do not decrease. */
  lemma {:induction false} DocumentInOrder(pages: seq<Page>)
    ensures forall i :: 0 <= i < |Reading(pages)| ==> 1 <= Reading(pages)[i].page <= |pages|
    ensures forall i, j :: 0 <= i <= j < |Reading(pages)| ==> Reading(pages)[i].page <= Reading(pages)[j].page
    decreases |pages|
  {
    if pages != [] {
      DocumentInOrder(pages[..|pages| - 1]);
      OnPageIsThere(pages[|pages| - 1], |pages|, WrittenOn(pages[..|pages| - 1]));
    }
  }

  /** Where in the document unit `k` starts. */
  function Offset(units: seq<Unit>, k: nat): nat
    requires k <= |units|
  {
    |WordsOf(units[..k])|
  }

  lemma OffsetWord(units: seq<Unit>, k: nat)
    requires k < |units| && units[k].words != []
    ensures Offset(units, k) < |Flat(units)|
    ensures Flat(units)[Offset(units, k)] == Placed(units[k].words[0], units[k].page, units[k].paragraph)
  {
    var u := units[k];
    assert units == units[..k] + [u] + units[k + 1..];
    FlatAdds(units[..k] + [u], units[k + 1..]);
    FlatLast(units[..k], u);
    PlaceBare(u.words, u.page, u.paragraph);
  }

  /** A chunk is cited on the page of its first word, which is a word of the document. */
  lemma ChunkPage(pages: seq<Page>, budget: nat, count: string -> nat, overlap: nat, spans: seq<Span>, k: nat)
    requires IsPacking(Counts(Levelled(pages, budget, count, |LEVELS|), count), budget, overlap, spans)
    requires k < |spans|
    ensures var units := Levelled(pages, budget, count, |LEVELS|);
            && Within(spans, |units|)
            && var c := Joined(units, spans)[k];
            && Split(c.content) != []
            && Offset(units, spans[k].start) < |Reading(pages)|
            && var first := Reading(pages)[Offset(units, spans[k].start)];
            && first.word == Split(c.content)[0]
            && first.page == c.page
  {
    var units := Levelled(pages, budget, count, |LEVELS|);
    var s := spans[k];
    SpansWithin(Counts(units, count), budget, overlap, spans);
    SplittingKeepsReading(pages, budget, count, |LEVELS|);
    OffsetWord(units, s.start);
    ContentWords(units[s.start..s.end]);
    FirstWord(units[s.start..s.end]);
  }

  lemma FirstWord(units: seq<Unit>)
    requires units != [] && units[0].words != []
    ensures WordsOf(units) != [] && WordsOf(units)[0] == units[0].words[0]
  {
    assert units == [units[0]] + units[1..];
    WordsAdd([units[0]], units[1..]);
    assert [] + [units[0]] == [units[0]];
    WordsLast([], units[0]);
  }

  lemma OffsetsRise(units: seq<Unit>, i: nat, j: nat)
    requires i <= j <= |units|
    ensures Offset(units, i) <= Offset(units, j)
  {
    assert units[..j] == units[..i] + units[i..j];
    WordsAdd(units[..i], units[i..j]);
  }

  /** The pages of the chunks do not decrease along the output. */
  lemma ChunkPagesInOrder(pages: seq<Page>, budget: nat, count: string -> nat, overlap: nat, spans: seq<Span>,
                          j: nat, k: nat)
    requires IsPacking(Counts(Levelled(pages, budget, count, |LEVELS|), count), budget, overlap, spans)
    requires j <= k < |spans|
    ensures var units := Levelled(pages, budget, count, |LEVELS|);
            Within(spans, |units|) && 1 <= Joined(units, spans)[j].page <= Joined(units, spans)[k].page <= |pages|
  {
    var units := Levelled(pages, budget, count, |LEVELS|);
    ChunkPage(pages, budget, count, overlap, spans, j);
    ChunkPage(pages, budget, count, overlap, spans, k);
    StartsIncrease(Counts(units, count), budget, overlap, spans, j, k);
    OffsetsRise(units, spans[j].start, spans[k].start);
    DocumentInOrder(pages);
  }

  /** A chunk's units fit the budget, unless it is one single word that does not. */
  lemma ChunkFits(pages: seq<Page>, budget: nat, count: string -> nat, overlap: nat, spans: seq<Span>, k: nat)
    requires IsPacking(Counts(Levelled(pages, budget, count, |LEVELS|), count), budget, overlap, spans)
    requires k < |spans|
    ensures var units := Levelled(pages, budget, count, |LEVELS|);
            && Within(spans, |units|)
            && (Sum(Counts(units, count), spans[k].start, spans[k].end) <= budget
                || |Split(Joined(units, spans)[k].content)| == 1)
  {
    var units := Levelled(pages, budget, count, |LEVELS|);
    var counts, s := Counts(units, count), spans[k];
    SpansWithin(counts, budget, overlap, spans);
    SplittingKeepsReading(pages, budget, count, |LEVELS|);
    if s.end == s.start + 1 {
      assert units[s.start] in units;
      OneUnit(units, s.start);
      assert Sum(counts, s.start, s.end) == counts[s.start];
    }
  }

  lemma OneUnit(units: seq<Unit>, k: nat)
    requires k < |units|
    ensures |Split(Content(units[k..k + 1]))| == |units[k].words|
  {
    assert units[k..k + 1] == [] + [units[k]];
    WordsLast([], units[k]);
    ContentWords(units[k..k + 1]);
  }

  /** In the reader's terms: a chunk leaves room for the special tokens in the size asked for and in the model's window,
      by the counts of its units, or it is a single word. */
  lemma ChunkKeepsBoth(units: seq<Unit>, count: string -> nat, spans: seq<Span>, wanted: int, window: int, k: nat)
    requires KeepsBoth(units, Counts(units, count), spans, wanted, window) && Within(spans, |units|) && k < |spans|
    ensures || (&& Sum(Counts(units, count), spans[k].start, spans[k].end) <= wanted - 4
                && Sum(Counts(units, count), spans[k].start, spans[k].end) <= window - 4)
            || |Split(Content(units[spans[k].start..spans[k].end]))| == 1
    ensures Joined(units, spans)[k].content == Content(units[spans[k].start..spans[k].end])
  {
    var s := spans[k];
    assert s.start < s.end <= |units|;
    if s.end == s.start + 1 { OneUnit(units, s.start); }
  }
}
