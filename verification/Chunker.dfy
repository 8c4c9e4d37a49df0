/** The chunker: pages to units to overlapping chunks, and back to the words of the document. */
module Chunker {
  import opened Words

  type Paragraph = seq<Word>
  type Page = seq<Paragraph>

  datatype Unit = Unit(words: seq<Word>, page: nat, paragraph: nat) {
    function Body(): string { Text(words) }
  }

  datatype Chunk = Chunk(content: string, page: nat)

  datatype Level = BySentence | ByWord

  const LEVELS: seq<Level> := [BySentence, ByWord]
  const SPECIAL_TOKEN_MARGIN := 4

  // ---------------------------------------------------------------- what a document says

  /** A word and where in the document it stands; paragraphs that hold no word have no number. */
  datatype Placed = Placed(word: Word, page: nat, paragraph: nat)

  function Place(words: seq<Word>, page: nat, paragraph: nat): seq<Placed> {
    if words == [] then []
    else Place(words[..|words| - 1], page, paragraph) + [Placed(words[|words| - 1], page, paragraph)]
  }

  function WrittenIn(page: Page): nat {
    if page == [] then 0 else WrittenIn(page[..|page| - 1]) + (if page[|page| - 1] == [] then 0 else 1)
  }

  function WrittenOn(pages: seq<Page>): nat {
    if pages == [] then 0 else WrittenOn(pages[..|pages| - 1]) + WrittenIn(pages[|pages| - 1])
  }

  function OnPage(page: Page, number: nat, before: nat): seq<Placed> {
    if page == [] then []
    else OnPage(page[..|page| - 1], number, before) + Place(page[|page| - 1], number, before + WrittenIn(page))
  }

  /** Every word of the document in reading order; page `i` is `pages[i - 1]`, blank or not. */
  function Reading(pages: seq<Page>): seq<Placed> {
    if pages == [] then []
    else Reading(pages[..|pages| - 1]) + OnPage(pages[|pages| - 1], |pages|, WrittenOn(pages[..|pages| - 1]))
  }

  // ---------------------------------------------------------------- units

  function Flat(units: seq<Unit>): seq<Placed> {
    if units == [] then []
    else
      var u := units[|units| - 1];
      Flat(units[..|units| - 1]) + Place(u.words, u.page, u.paragraph)
  }

  lemma FlatLast(units: seq<Unit>, u: Unit)
    ensures Flat(units + [u]) == Flat(units) + Place(u.words, u.page, u.paragraph)
  {
    assert (units + [u])[..|units|] == units;
  }

  lemma Regroup(x: seq<Placed>, y: seq<Placed>, z: seq<Placed>)
    ensures (x + y) + z == x + (y + z)
  {
  }

  lemma FlatStep(x: seq<Unit>, y: seq<Unit>, last: Unit)
    requires Flat(x + y) == Flat(x) + Flat(y)
    ensures Flat((x + y) + [last]) == Flat(x) + Flat(y + [last])
  {
    FlatLast(x + y, last);
    FlatLast(y, last);
    Regroup(Flat(x), Flat(y), Place(last.words, last.page, last.paragraph));
  }

  lemma {:induction false} FlatAdds(x: seq<Unit>, y: seq<Unit>)
    ensures Flat(x + y) == Flat(x) + Flat(y)
    decreases |y|
  {
    if y == [] {
      assert x + y == x;
    } else {
      var init, last := y[..|y| - 1], y[|y| - 1];
      FlatAdds(x, init);
      FlatStep(x, init, last);
      assert (x + init) + [last] == x + y && init + [last] == y;
    }
  }

  lemma {:induction false} PlaceAdds(x: seq<Word>, y: seq<Word>, page: nat, paragraph: nat)
    ensures Place(x + y, page, paragraph) == Place(x, page, paragraph) + Place(y, page, paragraph)
    decreases |y|
  {
    if y == [] {
      assert x + y == x;
    } else {
      assert (x + y)[..|x + y| - 1] == x + y[..|y| - 1];
      PlaceAdds(x, y[..|y| - 1], page, paragraph);
    }
  }

  /** A paragraph cut after each word that may end a sentence, unless it is the last. */
  function Sentences(words: seq<Word>): (r: seq<seq<Word>>)
    ensures words == [] <==> r == []
    ensures forall i :: 0 <= i < |r| ==> r[i] != []
    ensures words != [] ==> r[|r| - 1][|r[|r| - 1]| - 1] == words[|words| - 1]
    ensures forall i :: 0 <= i < |r| - 1 ==> EndsSentence(r[i][|r[i]| - 1])
    ensures forall i, j :: 0 <= i < |r| && 0 <= j < |r[i]| - 1 ==> !EndsSentence(r[i][j])
  {
    if words == [] then []
    else
      var init, last := words[..|words| - 1], words[|words| - 1];
      var head := Sentences(init);
      if init == [] || EndsSentence(init[|init| - 1]) then head + [[last]]
      else head[..|head| - 1] + [head[|head| - 1] + [last]]
  }

  function Singles(words: seq<Word>): seq<seq<Word>> {
    if words == [] then [] else Singles(words[..|words| - 1]) + [[words[|words| - 1]]]
  }

  function Cut(words: seq<Word>, level: Level): seq<seq<Word>> {
    match level case BySentence => Sentences(words) case ByWord => Singles(words)
  }

  function Units(pieces: seq<seq<Word>>, page: nat, paragraph: nat): seq<Unit> {
    if pieces == [] then []
    else Units(pieces[..|pieces| - 1], page, paragraph) + [Unit(pieces[|pieces| - 1], page, paragraph)]
  }

  function Concat(pieces: seq<seq<Word>>): seq<Word> {
    if pieces == [] then [] else Concat(pieces[..|pieces| - 1]) + pieces[|pieces| - 1]
  }

  lemma ConcatLast(pieces: seq<seq<Word>>, x: seq<Word>)
    ensures Concat(pieces + [x]) == Concat(pieces) + x
  {
    assert (pieces + [x])[..|pieces|] == pieces;
  }

  lemma {:induction false} UnitsFlat(pieces: seq<seq<Word>>, page: nat, paragraph: nat)
    ensures Flat(Units(pieces, page, paragraph)) == Place(Concat(pieces), page, paragraph)
    ensures forall u :: u in Units(pieces, page, paragraph) ==> u.words in pieces
    decreases |pieces|
  {
    if pieces != [] {
      var init, last := pieces[..|pieces| - 1], pieces[|pieces| - 1];
      UnitsFlat(init, page, paragraph);
      PlaceAdds(Concat(init), last, page, paragraph);
      FlatLast(Units(init, page, paragraph), Unit(last, page, paragraph));
    }
  }

  lemma {:induction false} SinglesConcat(words: seq<Word>)
    ensures Concat(Singles(words)) == words
    decreases |words|
  {
    if words != [] {
      var init, last := words[..|words| - 1], words[|words| - 1];
      SinglesConcat(init);
      ConcatLast(Singles(init), [last]);
      assert words == init + [last];
    }
  }

  lemma {:induction false} SinglesAreSingle(words: seq<Word>)
    ensures forall x :: x in Singles(words) ==> |x| == 1
    decreases |words|
  {
    if words != [] {
      SinglesAreSingle(words[..|words| - 1]);
    }
  }

  lemma GrowLast(pieces: seq<seq<Word>>, last: Word)
    requires pieces != []
    ensures var n := |pieces| - 1; Concat(pieces[..n] + [pieces[n] + [last]]) == Concat(pieces) + [last]
  {
    var n := |pieces| - 1;
    ConcatLast(pieces[..n], pieces[n] + [last]);
  }

  /** Sentences are cut exactly at full stops, exclamation marks and question marks that end a word. */
  lemma CutsAtStops(words: seq<Word>, i: nat)
    requires i < |Sentences(words)|
    ensures var s := Sentences(words)[i];
            && (i < |Sentences(words)| - 1 ==> s[|s| - 1][|s[|s| - 1]| - 1] in ".!?")
            && (forall j :: 0 <= j < |s| - 1 ==> s[j][|s[j]| - 1] !in ".!?")
  {
    var s := Sentences(words)[i];
    if i < |Sentences(words)| - 1 { assert EndsSentence(s[|s| - 1]); }
    forall j | 0 <= j < |s| - 1 ensures s[j][|s[j]| - 1] !in ".!?" { assert !EndsSentence(s[j]); }
  }

  lemma {:induction false} SentencesConcat(words: seq<Word>)
    ensures Concat(Sentences(words)) == words
    decreases |words|
  {
    if words != [] {
      var init, last := words[..|words| - 1], words[|words| - 1];
      var head := Sentences(init);
      SentencesConcat(init);
      assert words == init + [last];
      if init == [] || EndsSentence(init[|init| - 1]) {
        ConcatLast(head, [last]);
      } else {
        GrowLast(head, last);
      }
    }
  }

  lemma CutFlat(u: Unit, level: Level)
    ensures Flat(Units(Cut(u.words, level), u.page, u.paragraph)) == Place(u.words, u.page, u.paragraph)
    ensures forall v :: v in Units(Cut(u.words, level), u.page, u.paragraph) ==>
              v.words != [] && (level == ByWord ==> |v.words| == 1)
  {
    UnitsFlat(Cut(u.words, level), u.page, u.paragraph);
    SinglesConcat(u.words);
    SinglesAreSingle(u.words);
    SentencesConcat(u.words);
  }

  /** Units over the budget are cut at this level, the others are kept whole. */
  function Divide(units: seq<Unit>, budget: nat, count: string -> nat, level: Level): seq<Unit> {
    if units == [] then []
    else Divide(units[..|units| - 1], budget, count, level) + DivideOne(units[|units| - 1], budget, count, level)
  }

  ghost predicate AllFit(units: seq<Unit>, budget: nat, count: string -> nat) {
    forall i :: 0 <= i < |units| ==> count(units[i].Body()) <= budget
  }

  ghost predicate Written(units: seq<Unit>) {
    forall i :: 0 <= i < |units| ==> units[i].words != []
  }

  /** A unit fits the budget, or is a single word that no level can split. */
  ghost predicate FitsOrWord(u: Unit, budget: nat, count: string -> nat) {
    count(u.Body()) <= budget || |u.words| == 1
  }

  lemma {:induction false} DivideKeeps(units: seq<Unit>, budget: nat, count: string -> nat, level: Level)
    requires AllFit(units, budget, count)
    ensures Divide(units, budget, count, level) == units
    decreases |units|
  {
    if units != [] {
      DivideKeeps(units[..|units| - 1], budget, count, level);
    }
  }

  /** What dividing one unit gives. */
  function DivideOne(u: Unit, budget: nat, count: string -> nat, level: Level): seq<Unit> {
    if count(u.Body()) <= budget then [u] else Units(Cut(u.words, level), u.page, u.paragraph)
  }

  lemma DivideOneFlat(u: Unit, budget: nat, count: string -> nat, level: Level)
    requires u.words != []
    ensures Flat(DivideOne(u, budget, count, level)) == Place(u.words, u.page, u.paragraph)
    ensures forall v :: v in DivideOne(u, budget, count, level) ==>
              v.words != [] && (level == ByWord ==> FitsOrWord(v, budget, count))
  {
    CutFlat(u, level);
    FlatLast([], u);
    assert [] + [u] == [u];
  }

  lemma {:induction false} DivideFlat(units: seq<Unit>, budget: nat, count: string -> nat, level: Level)
    requires Written(units)
    ensures Flat(Divide(units, budget, count, level)) == Flat(units)
    ensures Written(Divide(units, budget, count, level))
    ensures level == ByWord ==> forall u :: u in Divide(units, budget, count, level) ==> FitsOrWord(u, budget, count)
    decreases |units|
  {
    if units != [] {
      var init, u := units[..|units| - 1], units[|units| - 1];
      DivideFlat(init, budget, count, level);
      DivideOneFlat(u, budget, count, level);
      FlatAdds(Divide(init, budget, count, level), DivideOne(u, budget, count, level));
    }
  }

  function PageUnits(page: Page, number: nat, before: nat): seq<Unit> {
    if page == [] then []
    else PageUnits(page[..|page| - 1], number, before) +
         (if page[|page| - 1] == [] then [] else [Unit(page[|page| - 1], number, before + WrittenIn(page))])
  }

  /** One unit for each paragraph that holds a word. */
  function Paragraphs(pages: seq<Page>): seq<Unit> {
    if pages == [] then []
    else
      var init := pages[..|pages| - 1];
      Paragraphs(init) + PageUnits(pages[|pages| - 1], |pages|, WrittenOn(init))
  }

  lemma {:induction false} PageUnitsNumbered(page: Page, number: nat, before: nat)
    ensures |PageUnits(page, number, before)| == WrittenIn(page)
    ensures forall i :: 0 <= i < WrittenIn(page) ==> PageUnits(page, number, before)[i].paragraph == before + i + 1
    decreases |page|
  {
    if page != [] { PageUnitsNumbered(page[..|page| - 1], number, before); }
  }

  /** Paragraphs are numbered through the whole document, from one on, blank ones left out: no two share a number. */
  lemma {:induction false} ParagraphsNumbered(pages: seq<Page>)
    ensures |Paragraphs(pages)| == WrittenOn(pages)
    ensures forall i :: 0 <= i < WrittenOn(pages) ==> Paragraphs(pages)[i].paragraph == i + 1
    decreases |pages|
  {
    if pages != [] {
      var init := pages[..|pages| - 1];
      ParagraphsNumbered(init);
      PageUnitsNumbered(pages[|pages| - 1], |pages|, WrittenOn(init));
    }
  }

  lemma {:induction false} PageUnitsFlat(page: Page, number: nat, before: nat)
    ensures Flat(PageUnits(page, number, before)) == OnPage(page, number, before)
    ensures Written(PageUnits(page, number, before))
    decreases |page|
  {
    if page != [] {
      var init, last := page[..|page| - 1], page[|page| - 1];
      PageUnitsFlat(init, number, before);
      var units, paragraph := PageUnits(init, number, before), before + WrittenIn(page);
      if last == [] {
        assert PageUnits(page, number, before) == units;
      } else {
        assert PageUnits(page, number, before) == units + [Unit(last, number, paragraph)];
        FlatLast(units, Unit(last, number, paragraph));
      }
    }
  }

  lemma {:induction false} ParagraphsFlat(pages: seq<Page>)
    ensures Flat(Paragraphs(pages)) == Reading(pages)
    ensures Written(Paragraphs(pages))
    decreases |pages|
  {
    if pages != [] {
      var init := pages[..|pages| - 1];
      ParagraphsFlat(init);
      PageUnitsFlat(pages[|pages| - 1], |pages|, WrittenOn(init));
      FlatAdds(Paragraphs(init), PageUnits(pages[|pages| - 1], |pages|, WrittenOn(init)));
    }
  }

  /** Paragraphs where they fit, else sentences where they fit, else words. */
  function Levelled(pages: seq<Page>, budget: nat, count: string -> nat, levels: nat): seq<Unit>
    requires levels <= |LEVELS|
  {
    if levels == 0 then Paragraphs(pages)
    else Divide(Levelled(pages, budget, count, levels - 1), budget, count, LEVELS[levels - 1])
  }

  /** Splitting loses, adds and reorders no word, and leaves every word on its page and in its paragraph. */
  lemma {:induction false} SplittingKeepsReading(pages: seq<Page>, budget: nat, count: string -> nat, levels: nat)
    requires levels <= |LEVELS|
    ensures Flat(Levelled(pages, budget, count, levels)) == Reading(pages)
    ensures Written(Levelled(pages, budget, count, levels))
    ensures levels == |LEVELS| ==>
              forall u :: u in Levelled(pages, budget, count, levels) ==> FitsOrWord(u, budget, count)
  {
    if levels == 0 {
      ParagraphsFlat(pages);
    } else {
      SplittingKeepsReading(pages, budget, count, levels - 1);
      DivideFlat(Levelled(pages, budget, count, levels - 1), budget, count, LEVELS[levels - 1]);
    }
  }

  /** v is what becomes of u, or part of it. */
  predicate CutsTo(u: Unit, budget: nat, count: string -> nat, level: Level, v: Unit) {
    v in DivideOne(u, budget, count, level)
  }

  function Cutter(budget: nat, count: string -> nat, level: Level, v: Unit): Unit -> bool {
    u => CutsTo(u, budget, count, level, v)
  }

  ghost predicate Holds(units: seq<Unit>, p: Unit -> bool) {
    exists i :: 0 <= i < |units| && p(units[i])
  }

  lemma SomeLast(units: seq<Unit>, p: Unit -> bool)
    requires units != []
    ensures var n := |units| - 1; Holds(units, p) <==> Holds(units[..n], p) || p(units[n])
  {
    var n := |units| - 1;
    if i :| 0 <= i < n && p(units[..n][i]) {
      assert p(units[i]);
    }
    if i :| 0 <= i < n && p(units[i]) {
      assert p(units[..n][i]);
    }
  }

  lemma InEither(x: seq<Unit>, y: seq<Unit>, v: Unit)
    ensures v in x + y <==> v in x || v in y
  {
  }

  lemma {:induction false} DivideMembers(units: seq<Unit>, budget: nat, count: string -> nat, level: Level, v: Unit)
    ensures v in Divide(units, budget, count, level) <==> Holds(units, Cutter(budget, count, level, v))
    decreases |units|
  {
    if units != [] {
      var n := |units| - 1;
      DivideMembers(units[..n], budget, count, level, v);
      InEither(Divide(units[..n], budget, count, level), DivideOne(units[n], budget, count, level), v);
      SomeLast(units, Cutter(budget, count, level, v));
    }
  }

  /** v is the sentence s, or one of its words if the sentence does not fit. */
  ghost predicate OfSentence(v: Unit, s: Unit, budget: nat, count: string -> nat) {
    if count(s.Body()) <= budget then v == s else v in Units(Singles(s.words), s.page, s.paragraph)
  }

  /** v is the paragraph p, or comes of one of its sentences if the paragraph does not fit. */
  ghost predicate OfParagraph(v: Unit, p: Unit, budget: nat, count: string -> nat) {
    if count(p.Body()) <= budget then v == p
    else
      var sentences := Units(Sentences(p.words), p.page, p.paragraph);
      exists i :: 0 <= i < |sentences| && OfSentence(v, sentences[i], budget, count)
  }

  lemma TwoPasses(pages: seq<Page>, budget: nat, count: string -> nat)
    ensures Levelled(pages, budget, count, |LEVELS|)
            == Divide(Divide(Paragraphs(pages), budget, count, BySentence), budget, count, ByWord)
  {
    assert LEVELS[0] == BySentence && LEVELS[1] == ByWord;
    assert Levelled(pages, budget, count, 1) == Divide(Levelled(pages, budget, count, 0), budget, count, LEVELS[0]);
  }

  ghost predicate OfSomeParagraph(v: Unit, paragraphs: seq<Unit>, budget: nat, count: string -> nat) {
    exists k :: 0 <= k < |paragraphs| && OfParagraph(v, paragraphs[k], budget, count)
  }

  lemma PieceHasParagraph(v: Unit, paragraphs: seq<Unit>, budget: nat, count: string -> nat)
    requires v in Divide(Divide(paragraphs, budget, count, BySentence), budget, count, ByWord)
    ensures OfSomeParagraph(v, paragraphs, budget, count)
  {
    var cut := Divide(paragraphs, budget, count, BySentence);
    DivideMembers(cut, budget, count, ByWord, v);
    var i :| 0 <= i < |cut| && Cutter(budget, count, ByWord, v)(cut[i]);
    DivideMembers(paragraphs, budget, count, BySentence, cut[i]);
    var k :| 0 <= k < |paragraphs| && Cutter(budget, count, BySentence, cut[i])(paragraphs[k]);
    PieceOfParagraph(v, cut[i], paragraphs[k], budget, count);
  }

  lemma ParagraphHasPiece(v: Unit, paragraphs: seq<Unit>, budget: nat, count: string -> nat)
    requires OfSomeParagraph(v, paragraphs, budget, count)
    ensures v in Divide(Divide(paragraphs, budget, count, BySentence), budget, count, ByWord)
  {
    var cut := Divide(paragraphs, budget, count, BySentence);
    var k :| 0 <= k < |paragraphs| && OfParagraph(v, paragraphs[k], budget, count);
    var u := ParagraphOfPiece(v, paragraphs[k], budget, count);
    assert Cutter(budget, count, BySentence, u)(paragraphs[k]);
    DivideMembers(paragraphs, budget, count, BySentence, u);
    var i :| 0 <= i < |cut| && cut[i] == u;
    assert Cutter(budget, count, ByWord, v)(cut[i]);
    DivideMembers(cut, budget, count, ByWord, v);
  }

  /** The units are exactly the paragraphs that fit, the sentences that fit of those that do not, and the words
      of the sentences that do not: nothing is split that need not be. */
  lemma CoarsestFirst(pages: seq<Page>, budget: nat, count: string -> nat, v: Unit)
    ensures v in Levelled(pages, budget, count, |LEVELS|) <==> OfSomeParagraph(v, Paragraphs(pages), budget, count)
  {
    TwoPasses(pages, budget, count);
    if v in Levelled(pages, budget, count, |LEVELS|) {
      PieceHasParagraph(v, Paragraphs(pages), budget, count);
    }
    if OfSomeParagraph(v, Paragraphs(pages), budget, count) {
      ParagraphHasPiece(v, Paragraphs(pages), budget, count);
    }
  }

  lemma PieceOfParagraph(v: Unit, u: Unit, p: Unit, budget: nat, count: string -> nat)
    requires CutsTo(u, budget, count, ByWord, v) && CutsTo(p, budget, count, BySentence, u)
    ensures OfParagraph(v, p, budget, count)
  {
    if count(p.Body()) > budget {
      var sentences := Units(Sentences(p.words), p.page, p.paragraph);
      var i :| 0 <= i < |sentences| && sentences[i] == u;
      assert OfSentence(v, sentences[i], budget, count);
    }
  }

  lemma ParagraphOfPiece(v: Unit, p: Unit, budget: nat, count: string -> nat) returns (u: Unit)
    requires OfParagraph(v, p, budget, count)
    ensures CutsTo(u, budget, count, ByWord, v) && CutsTo(p, budget, count, BySentence, u)
  {
    if count(p.Body()) <= budget {
      u := p;
    } else {
      var sentences := Units(Sentences(p.words), p.page, p.paragraph);
      var i :| 0 <= i < |sentences| && OfSentence(v, sentences[i], budget, count);
      u := sentences[i];
    }
  }

  lemma FittingIsFinal(pages: seq<Page>, budget: nat, count: string -> nat, level: nat)
    requires level < |LEVELS| && AllFit(Levelled(pages, budget, count, level), budget, count)
    ensures Levelled(pages, budget, count, |LEVELS|) == Levelled(pages, budget, count, level)
  {
    DivideKeeps(Levelled(pages, budget, count, level), budget, count, LEVELS[level]);
    if level == 0 {
      DivideKeeps(Levelled(pages, budget, count, 1), budget, count, LEVELS[1]);
    }
  }

  /** `count_tokens` of the texts of the units. */
  function Counts(units: seq<Unit>, count: string -> nat): (counts: seq<nat>)
    ensures |counts| == |units|
    ensures forall i :: 0 <= i < |units| ==> counts[i] == count(units[i].Body())
  {
    if units == [] then [] else Counts(units[..|units| - 1], count) + [count(units[|units| - 1].Body())]
  }

  method SplitUnits(pages: seq<Page>, budget: nat, count: string -> nat) returns (units: seq<Unit>)
    ensures units == Levelled(pages, budget, count, |LEVELS|)
  {
    units := WrittenUnits(pages);
    for level := 0 to |LEVELS|
      invariant units == Levelled(pages, budget, count, level)
    {
      var counts := Counts(units, count);
      if forall i :: 0 <= i < |counts| ==> counts[i] <= budget {
        assert AllFit(units, budget, count) by {
          forall i | 0 <= i < |units| ensures count(units[i].Body()) <= budget { assert counts[i] <= budget; }
        }
        FittingIsFinal(pages, budget, count, level);
        return;
      }
      units := DivideUnits(units, counts, budget, count, LEVELS[level]);
    }
  }

  lemma DivideLast(units: seq<Unit>, k: nat, budget: nat, count: string -> nat, level: Level)
    requires k < |units|
    ensures Divide(units[..k + 1], budget, count, level)
            == Divide(units[..k], budget, count, level) + DivideOne(units[k], budget, count, level)
  {
    assert units[..k + 1][..k] == units[..k];
  }

  /** One pass of the level loop of `_split_units`. */
  method DivideUnits(units: seq<Unit>, counts: seq<nat>, budget: nat, count: string -> nat, level: Level)
    returns (divided: seq<Unit>)
    requires |counts| == |units| && forall i :: 0 <= i < |units| ==> counts[i] == count(units[i].Body())
    ensures divided == Divide(units, budget, count, level)
  {
    divided := [];
    for k := 0 to |units|
      invariant divided == Divide(units[..k], budget, count, level)
    {
      DivideLast(units, k, budget, count, level);
      var unit := units[k];
      if counts[k] <= budget {
        divided := divided + [unit];
      } else {
        divided := divided + Units(Cut(unit.words, level), unit.page, unit.paragraph);
      }
    }
    assert units[..|units|] == units;
  }

  /** The first pass of `_split_units`: number the paragraphs and skip the blank ones. */
  method WrittenUnits(pages: seq<Page>) returns (units: seq<Unit>)
    ensures units == Paragraphs(pages)
  {
    units := [];
    var paragraph := 0;
    for p := 0 to |pages|
      invariant paragraph == WrittenOn(pages[..p]) && units == Paragraphs(pages[..p])
    {
      assert pages[..p + 1][..p] == pages[..p];
      var page := pages[p];
      ghost var earlier, before := units, paragraph;
      for q := 0 to |page|
        invariant paragraph == before + WrittenIn(page[..q])
        invariant units == earlier + PageUnits(page[..q], p + 1, before)
      {
        assert page[..q + 1][..q] == page[..q];
        if page[q] == [] { continue; }
        paragraph := paragraph + 1;
        units := units + [Unit(page[q], p + 1, paragraph)];
      }
      assert page[..|page|] == page;
    }
    assert pages[..|pages|] == pages;
  }
}
