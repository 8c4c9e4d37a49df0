/** A chunk read as text: its lines are the paragraphs it has parts of, one line each and a blank line between two. */
module ChunkLines {
  import opened Words
  import opened Chunker
  import opened Chunks
  import opened ChunkTheorems

  // ---------------------------------------------------------------- lines

  /** Cut at each line feed. */
  function Lines(s: string): (lines: seq<string>)
    ensures |lines| > 0
  {
    if s == "" then [""]
    else
      var head, c := Lines(s[..|s| - 1]), s[|s| - 1];
      if c == '\n' then head + [""] else Longer(head, [c])
  }

  /** The last line goes on. */
  function Longer(lines: seq<string>, s: string): (longer: seq<string>)
    requires |lines| > 0
    ensures |longer| == |lines|
  {
    lines[..|lines| - 1] + [lines[|lines| - 1] + s]
  }

  predicate OneLine(s: string) {
    '\n' !in s
  }

  lemma LongerByNothing(lines: seq<string>)
    requires |lines| > 0
    ensures Longer(lines, "") == lines
  {
    assert lines[|lines| - 1] + "" == lines[|lines| - 1];
  }

  lemma {:induction false} LinesLonger(x: string, y: string)
    requires OneLine(y)
    ensures Lines(x + y) == Longer(Lines(x), y)
    decreases |y|
  {
    if y == "" {
      assert x + y == x;
      LongerByNothing(Lines(x));
    } else {
      var init, c := y[..|y| - 1], y[|y| - 1];
      LinesLonger(x, init);
      assert (x + y)[..|x + y| - 1] == x + init && init + [c] == y;
      assert (Lines(x)[|Lines(x)| - 1] + init) + [c] == Lines(x)[|Lines(x)| - 1] + y;
    }
  }

  lemma LinesBreak(x: string)
    ensures Lines(x + "\n") == Lines(x) + [""]
  {
    assert (x + "\n")[..|x + "\n"| - 1] == x;
  }

  /** Two line feeds leave a blank line. */
  lemma LinesApart(x: string, y: string)
    requires OneLine(y)
    ensures Lines(((x + "\n") + "\n") + y) == Lines(x) + ["", y]
  {
    LinesBreak(x);
    LinesBreak(x + "\n");
    LinesLonger((x + "\n") + "\n", y);
    var lines := Lines(x) + [""] + [""];
    assert lines[..|lines| - 1] == Lines(x) + [""] && lines[|lines| - 1] + y == y;
  }

  // ---------------------------------------------------------------- runs of one paragraph

  /** The units cut wherever the paragraph changes. */
  function Runs(units: seq<Unit>): seq<seq<Unit>> {
    if units == [] then [] else RunsWith(Runs(units[..|units| - 1]), units[|units| - 1])
  }

  /** One more unit: it goes on with the last run, or starts another. */
  function RunsWith(runs: seq<seq<Unit>>, u: Unit): seq<seq<Unit>> {
    if runs != [] && runs[|runs| - 1] != [] && runs[|runs| - 1][|runs[|runs| - 1]| - 1].paragraph == u.paragraph
    then runs[..|runs| - 1] + [runs[|runs| - 1] + [u]] else runs + [[u]]
  }

  /** Each run is of one paragraph, and the next is of another. */
  ghost predicate AreRuns(runs: seq<seq<Unit>>) {
    && (forall i :: 0 <= i < |runs| ==> runs[i] != [] && Written(runs[i]))
    && (forall i, j :: 0 <= i < |runs| && 0 <= j < |runs[i]| ==> runs[i][j].paragraph == runs[i][0].paragraph)
    && (forall i :: 0 <= i < |runs| - 1 ==> runs[i][0].paragraph != runs[i + 1][0].paragraph)
  }

  lemma RunsGoOn(runs: seq<seq<Unit>>, u: Unit)
    requires AreRuns(runs) && u.words != []
    ensures AreRuns(RunsWith(runs, u)) && RunsWith(runs, u) != []
    ensures var all := RunsWith(runs, u); all[|all| - 1][|all[|all| - 1]| - 1] == u
  {
  }

  lemma {:induction false} RunsAreRuns(units: seq<Unit>)
    requires Written(units)
    ensures AreRuns(Runs(units))
    ensures units != [] ==> var runs := Runs(units);
              runs != [] && runs[|runs| - 1] != [] && runs[|runs| - 1][|runs[|runs| - 1]| - 1] == units[|units| - 1]
    decreases |units|
  {
    if units != [] {
      RunsAreRuns(units[..|units| - 1]);
      RunsGoOn(Runs(units[..|units| - 1]), units[|units| - 1]);
    }
  }

  /** The words of each run on a line of its own, and a blank line between two. */
  function Paged(runs: seq<seq<Unit>>): (lines: seq<string>)
  {
    if runs == [] then []
    else
      var n := |runs| - 1;
      Paged(runs[..n]) + (if n == 0 then [] else [""]) + [Text(WordsOf(runs[n]))]
  }

  // ---------------------------------------------------------------- the words on a line

  lemma {:induction false} TextOneLine(words: seq<Word>)
    ensures OneLine(Text(words))
    decreases |words|
  {
    if |words| > 1 { TextOneLine(words[..|words| - 1]); }
    if words != [] { WordOneLine(words[|words| - 1]); }
  }

  lemma WordOneLine(w: Word)
    ensures OneLine(w)
  {
    assert forall i :: 0 <= i < |w| ==> !IsSpace(w[i]);
  }

  lemma {:induction false} TextJoined(x: seq<Word>, y: seq<Word>)
    requires x != [] && y != []
    ensures Text(x + y) == Text(x) + (" " + Text(y))
    decreases |y|
  {
    var n := |y| - 1;
    assert (x + y)[..|x + y| - 1] == x + y[..n];
    if n > 0 {
      TextJoined(x, y[..n]);
      assert Text(y) == Text(y[..n]) + " " + y[n];
    } else {
      assert x + y[..n] == x;
    }
  }

  lemma RunLonger(run: seq<Unit>, u: Unit)
    requires run != [] && Written(run) && u.words != []
    ensures Text(WordsOf(run + [u])) == Text(WordsOf(run)) + (" " + u.Body())
  {
    WordsLast(run, u);
    FirstWord(run);
    TextJoined(WordsOf(run), u.words);
  }

  lemma RunOfOne(u: Unit)
    ensures Text(WordsOf([u])) == u.Body()
  {
    assert [] + [u] == [u];
    WordsLast([], u);
    assert WordsOf([]) + u.words == u.words;
  }

  // ---------------------------------------------------------------- the content of a chunk

  lemma PagedLonger(runs: seq<seq<Unit>>, u: Unit)
    requires runs != [] && runs[|runs| - 1] != [] && Written(runs[|runs| - 1]) && u.words != []
    ensures Paged(runs) != []
    ensures Paged(runs[..|runs| - 1] + [runs[|runs| - 1] + [u]]) == Longer(Paged(runs), " " + u.Body())
  {
    var n := |runs| - 1;
    var longer := runs[..n] + [runs[n] + [u]];
    RunLonger(runs[n], u);
    assert longer[..n] == runs[..n];
  }

  lemma PagedMore(runs: seq<seq<Unit>>, u: Unit)
    requires runs != []
    ensures Paged(runs + [[u]]) == Paged(runs) + ["", u.Body()]
  {
    RunOfOne(u);
    assert (runs + [[u]])[..|runs|] == runs;
  }

  /** The last run is of written units and ends with this one. */
  ghost predicate EndsWith(runs: seq<seq<Unit>>, last: Unit) {
    runs != [] && var run := runs[|runs| - 1]; run != [] && Written(run) && run[|run| - 1] == last
  }

  lemma RunsEnd(units: seq<Unit>)
    requires Written(units) && units != []
    ensures EndsWith(Runs(units), units[|units| - 1])
  {
    RunsAreRuns(units);
  }

  lemma Breaks(x: string, y: string)
    ensures x + ("\n\n" + y) == ((x + "\n") + "\n") + y
  {
  }

  lemma ContentLast(units: seq<Unit>)
    requires |units| > 1
    ensures var n := |units| - 1;
            Content(units) == Content(units[..n]) + (Separator(units[n - 1], units[n]) + units[n].Body())
  {
  }

  /** From the content of the units before to that of one more. */
  lemma LinesMore(content: string, runs: seq<seq<Unit>>, last: Unit, u: Unit)
    requires EndsWith(runs, last) && u.words != [] && OneLine(u.Body())
    requires Lines(content) == Paged(runs)
    ensures Lines(content + (Separator(last, u) + u.Body())) == Paged(RunsWith(runs, u))
  {
    if last.paragraph == u.paragraph {
      PagedLonger(runs, u);
      LinesLonger(content, " " + u.Body());
    } else {
      PagedMore(runs, u);
      Breaks(content, u.Body());
      LinesApart(content, u.Body());
    }
  }

  lemma RunsLast(units: seq<Unit>)
    requires units != []
    ensures Runs(units) == RunsWith(Runs(units[..|units| - 1]), units[|units| - 1])
  {
  }

  /** The lines of a chunk's content are the words of each paragraph it has a part of, one line for each, with a blank
      line between two. So a blank line stands exactly where the document starts a new paragraph. */
  lemma {:induction false} ContentLines(units: seq<Unit>)
    requires units != [] && Written(units)
    ensures Lines(Content(units)) == Paged(Runs(units))
    decreases |units|
  {
    var n := |units| - 1;
    TextOneLine(units[n].words);
    if n == 0 {
      assert units == [units[0]];
      LinesOfOne(units[0]);
    } else {
      assert units[..n][|units[..n]| - 1] == units[n - 1];
      ContentLines(units[..n]);
      RunsEnd(units[..n]);
      ContentLast(units);
      RunsLast(units);
      LinesMoved(Content(units[..n]), Runs(units[..n]), units[n - 1], units[n], Content(units), Runs(units));
    }
  }

  lemma LinesMoved(content: string, runs: seq<seq<Unit>>, last: Unit, u: Unit, content': string, runs': seq<seq<Unit>>)
    requires EndsWith(runs, last) && u.words != [] && OneLine(u.Body()) && Lines(content) == Paged(runs)
    requires content' == content + (Separator(last, u) + u.Body()) && runs' == RunsWith(runs, u)
    ensures Lines(content') == Paged(runs')
  {
    LinesMore(content, runs, last, u);
  }

  lemma LinesOfOne(u: Unit)
    requires OneLine(u.Body())
    ensures Lines(Content([u])) == Paged(Runs([u]))
  {
    RunOfOne(u);
    LinesLonger("", u.Body());
    assert "" + u.Body() == u.Body();
    assert [u][..0] == [];
    assert Runs([u]) == [[u]] && Paged([[u]][..0]) == [];
  }
}
