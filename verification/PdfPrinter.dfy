/** The corpus builder: laying lines out on pages, and writing the file piece by piece. */
module PdfPrinter {
  import opened Words
  import opened Decimals
  import opened PdfStrings
  import opened PdfFile
  import opened PdfText

  const LINES_PER_PAGE := 46

  // ---------------------------------------------------------------- layout

  function DropHashes(s: string): string {
    if s != "" && s[0] == '#' then DropHashes(s[1..]) else s
  }

  function DropSpaceLeft(s: string): string {
    if s != "" && IsSpace(s[0]) then DropSpaceLeft(s[1..]) else s
  }

  function DropSpaceRight(s: string): string {
    if s != "" && IsSpace(s[|s| - 1]) then DropSpaceRight(s[..|s| - 1]) else s
  }

  /** A source line without its heading marker and its outer white space. */
  function Stripped(raw: string): string {
    if raw != "" && raw[0] == '#' then DropSpaceRight(DropSpaceLeft(DropHashes(raw))) else DropSpaceRight(raw)
  }

  predicate AllHashes(s: string) {
    forall i :: 0 <= i < |s| ==> s[i] == '#'
  }

  predicate AllSpace(s: string) {
    forall i :: 0 <= i < |s| ==> IsSpace(s[i])
  }

  /** s is the raw line without `hashes` and `left` before it and `right` after it: these are all hashes and all white
      space, and nothing more of either could go. Only a line that starts with a hash loses anything at the left. */
  predicate Strips(raw: string, hashes: string, left: string, s: string, right: string) {
    && raw == hashes + left + s + right
    && AllHashes(hashes) && AllSpace(left) && AllSpace(right)
    && (hashes == "" ==> left == "" && (raw == "" || raw[0] != '#'))
    && (s != "" ==> !IsSpace(s[|s| - 1]) && (hashes != "" ==> !IsSpace(s[0]) && (left == "" ==> s[0] != '#')))
    && (s == "" && hashes != "" ==> right == "")
  }

  lemma {:induction false} DropsHashes(s: string) returns (hashes: string)
    ensures s == hashes + DropHashes(s) && AllHashes(hashes)
    ensures hashes == "" <==> s == "" || s[0] != '#'
    ensures DropHashes(s) == "" || DropHashes(s)[0] != '#'
  {
    hashes := "";
    if s != "" && s[0] == '#' {
      var rest := DropsHashes(s[1..]);
      hashes := "#" + rest;
    }
  }

  lemma {:induction false} DropsLeft(s: string) returns (left: string)
    ensures s == left + DropSpaceLeft(s) && AllSpace(left)
    ensures DropSpaceLeft(s) == "" || !IsSpace(DropSpaceLeft(s)[0])
  {
    left := "";
    if s != "" && IsSpace(s[0]) {
      var rest := DropsLeft(s[1..]);
      left := [s[0]] + rest;
    }
  }

  lemma {:induction false} DropsRight(s: string) returns (right: string)
    ensures s == DropSpaceRight(s) + right && AllSpace(right)
    ensures DropSpaceRight(s) == "" || !IsSpace(DropSpaceRight(s)[|DropSpaceRight(s)| - 1])
    ensures s != "" && !IsSpace(s[0]) ==> DropSpaceRight(s) != ""
    decreases |s|
  {
    right := "";
    if s != "" && IsSpace(s[|s| - 1]) {
      var rest := DropsRight(s[..|s| - 1]);
      right := rest + [s[|s| - 1]];
      assert s == s[..|s| - 1] + [s[|s| - 1]];
    }
  }

  lemma StrippedStrips(raw: string) returns (hashes: string, left: string, right: string)
    ensures Strips(raw, hashes, left, Stripped(raw), right)
  {
    if raw != "" && raw[0] == '#' {
      hashes := DropsHashes(raw);
      var rest := DropHashes(raw);
      left := DropsLeft(rest);
      var body := DropSpaceLeft(rest);
      right := DropsRight(body);
      assert raw == hashes + (left + (DropSpaceRight(body) + right));
    } else {
      hashes, left := "", "";
      right := DropsRight(raw);
    }
  }

  /** Where a run of characters of one kind ends is no choice. */
  lemma SameHead(x: string, y: string, u: string, v: string, kind: char -> bool)
    requires x + u == y + v
    requires forall i :: 0 <= i < |x| ==> kind(x[i])
    requires forall i :: 0 <= i < |y| ==> kind(y[i])
    requires (u != "" ==> !kind(u[0])) && (v != "" ==> !kind(v[0]))
    ensures x == y && u == v
  {
    var all := x + u;
    assert u != "" ==> all[|x|] == u[0];
    assert v != "" ==> all[|y|] == v[0];
    assert all[..|x|] == x && all[|x|..] == u && all[..|y|] == y && all[|y|..] == v;
  }

  /** What is at the right goes the same way. */
  lemma SameTail(x: string, y: string, u: string, v: string)
    requires x + u == y + v && AllSpace(u) && AllSpace(v)
    requires (x != "" ==> !IsSpace(x[|x| - 1])) && (y != "" ==> !IsSpace(y[|y| - 1]))
    ensures x == y && u == v
  {
    var all := x + u;
    assert x != "" ==> all[|x| - 1] == x[|x| - 1];
    assert y != "" ==> all[|y| - 1] == y[|y| - 1];
    assert forall i :: |x| <= i < |all| ==> IsSpace(all[i]);
    assert forall i :: |y| <= i < |all| ==> IsSpace(all[i]) by {
      forall i | |y| <= i < |all| ensures IsSpace(all[i]) { assert all[i] == v[i - |y|]; }
    }
    assert |x| == |y|;
    assert all[..|x|] == x && all[|x|..] == u && all[..|y|] == y && all[|y|..] == v;
  }

  /** There is one way to strip a line, and it is the printer's. */
  lemma StrippedIff(raw: string, s: string)
    ensures s == Stripped(raw) <==> exists hashes, left, right :: Strips(raw, hashes, left, s, right)
  {
    var hashes, left, right := StrippedStrips(raw);
    if h, l, r :| Strips(raw, h, l, s, r) {
      StripsOneWay(raw, hashes, left, Stripped(raw), right, h, l, s, r);
    }
  }

  lemma AfterHashes(h: string, l: string, s: string, r: string)
    requires h != "" && AllSpace(l) && AllSpace(r)
    requires (s != "" ==> !IsSpace(s[0]) && (l == "" ==> s[0] != '#')) && (s == "" ==> r == "")
    ensures l + (s + r) != "" ==> (l + (s + r))[0] != '#'
    ensures s + r != "" ==> !IsSpace((s + r)[0])
  {
  }

  lemma StripsOneWay(raw: string, h: string, l: string, s: string, r: string,
                     h': string, l': string, s': string, r': string)
    requires Strips(raw, h, l, s, r) && Strips(raw, h', l', s', r')
    ensures s == s'
  {
    assert raw == h + (l + (s + r)) && raw == h' + (l' + (s' + r'));
    assert (h == "") == (h' == "") by {
      if h != "" { assert raw[0] == h[0]; }
      if h' != "" { assert raw[0] == h'[0]; }
    }
    if h != "" {
      AfterHashes(h, l, s, r);
      AfterHashes(h', l', s', r');
      SameHead(h, h', l + (s + r), l' + (s' + r'), c => c == '#');
      SameHead(l, l', s + r, s' + r', c => IsSpace(c));
    } else {
      assert h + (l + (s + r)) == s + r && h' + (l' + (s' + r')) == s' + r';
    }
    SameTail(s, s', r, r');
  }

  /** The lines one source line becomes; `wrap` is `textwrap.wrap` at the fixed width. */
  function Wrapped(raw: string, wrap: string -> seq<string>): seq<string> {
    var s := Stripped(raw);
    if s == "" || wrap(s) == [] then [""] else wrap(s)
  }

  function LinesOf(raws: seq<string>, wrap: string -> seq<string>): seq<string> {
    if raws == [] then [] else LinesOf(raws[..|raws| - 1], wrap) + Wrapped(raws[|raws| - 1], wrap)
  }

  function Laid(pages: seq<seq<string>>): seq<string> {
    if pages == [] then [] else Laid(pages[..|pages| - 1]) + pages[|pages| - 1]
  }

  /** The lines in order over full pages, only the last of which may be short. */
  ghost predicate IsPagination(lines: seq<string>, pages: seq<seq<string>>) {
    && Laid(pages) == lines
    && (forall i :: 0 <= i < |pages| ==> 1 <= |pages[i]| <= LINES_PER_PAGE)
    && (forall i :: 0 <= i < |pages| - 1 ==> |pages[i]| == LINES_PER_PAGE)
  }

  lemma LinesOneMore(raws: seq<string>, wrap: string -> seq<string>, i: nat)
    requires i < |raws|
    ensures LinesOf(raws[..i + 1], wrap) == LinesOf(raws[..i], wrap) + Wrapped(raws[i], wrap)
  {
    assert raws[..i + 1][..i] == raws[..i];
  }

  lemma Regroup3(x: seq<string>, y: seq<string>, z: seq<string>)
    ensures (x + y) + z == x + (y + z)
  {
  }

  lemma NoLinesAfter(raws: seq<string>, wrap: string -> seq<string>)
    ensures LinesOf(raws, wrap) == LinesOf(raws[..|raws|], wrap) + LinesFrom(raws, wrap, |raws|)
  {
    assert raws[..|raws|] == raws;
  }

  lemma {:induction false} LinesSplit(raws: seq<string>, wrap: string -> seq<string>, i: nat)
    requires i <= |raws|
    ensures LinesOf(raws, wrap) == LinesOf(raws[..i], wrap) + LinesFrom(raws, wrap, i)
    decreases |raws| - i
  {
    if i == |raws| {
      NoLinesAfter(raws, wrap);
    } else {
      LinesSplit(raws, wrap, i + 1);
      LinesOneMore(raws, wrap, i);
      Regroup3(LinesOf(raws[..i], wrap), Wrapped(raws[i], wrap), LinesFrom(raws, wrap, i + 1));
    }
  }

  /** No source line is lost: each is printed, and they keep their order. */
  lemma LinesInOrder(raws: seq<string>, wrap: string -> seq<string>, i: nat)
    requires i < |raws|
    ensures LinesOf(raws, wrap) == LinesOf(raws[..i], wrap) + (Wrapped(raws[i], wrap) + LinesFrom(raws, wrap, i + 1))
  {
    LinesSplit(raws, wrap, i);
  }

  /** A blank line is printed as a blank line, any other as what `wrap` makes of it, or as a blank line if that is
      nothing. */
  lemma LineIsWrapped(raw: string, wrap: string -> seq<string>)
    ensures Wrapped(raw, wrap) ==
              if Stripped(raw) != "" && |wrap(Stripped(raw))| > 0 then wrap(Stripped(raw)) else [""]
  {
  }

  /** The printed lines of the source lines from i on. */
  function LinesFrom(raws: seq<string>, wrap: string -> seq<string>, i: nat): seq<string>
    requires i <= |raws|
    decreases |raws| - i
  {
    if i == |raws| then [] else Wrapped(raws[i], wrap) + LinesFrom(raws, wrap, i + 1)
  }

  method Layout(raws: seq<string>, wrap: string -> seq<string>) returns (pages: seq<seq<string>>)
    ensures LinesOf(raws, wrap) == [] ==> pages == [[""]]
    ensures LinesOf(raws, wrap) != [] ==> IsPagination(LinesOf(raws, wrap), pages)
  {
    var lines: seq<string> := [];
    for i := 0 to |raws|
      invariant lines == LinesOf(raws[..i], wrap)
    {
      assert raws[..i + 1][..i] == raws[..i];
      var s := Stripped(raws[i]);
      if s == "" {
        lines := lines + [""];
        continue;
      }
      lines := lines + (if wrap(s) == [] then [""] else wrap(s));
    }
    assert raws[..|raws|] == raws;
    pages := [];
    var start := 0;
    while start < |lines|
      invariant start <= |lines| && IsPagination(lines[..start], pages)
      invariant start < |lines| ==> forall i :: 0 <= i < |pages| ==> |pages[i]| == LINES_PER_PAGE
    {
      var end := if start + LINES_PER_PAGE < |lines| then start + LINES_PER_PAGE else |lines|;
      assert lines[..end] == lines[..start] + lines[start..end];
      pages := pages + [lines[start..end]];
      start := end;
    }
    assert lines[..|lines|] == lines;
    if pages == [] { pages := [[""]]; }
  }

  /** Lines and page size determine the pages. */
  lemma {:induction false} PaginationUnique(lines: seq<string>, x: seq<seq<string>>, y: seq<seq<string>>)
    requires IsPagination(lines, x) && IsPagination(lines, y)
    ensures x == y
  {
    forall k | 0 <= k <= |x| && k <= |y| ensures x[..k] == y[..k] {
      PagesAgree(lines, x, y, k);
    }
    assert x[..|x|] == x && y[..|y|] == y;
    if |x| < |y| {
      Remainder(lines, y, |x|);
    } else if |y| < |x| {
      Remainder(lines, x, |y|);
    }
  }

  /** The first `k` pages hold a prefix of the lines, and a proper one when pages follow. */
  lemma {:induction false} Remainder(lines: seq<string>, pages: seq<seq<string>>, k: nat)
    requires IsPagination(lines, pages) && k <= |pages|
    ensures Laid(pages[..k]) <= lines
    ensures k < |pages| ==> Laid(pages[..k]) + pages[k] <= lines
    decreases |pages| - k
  {
    if k == |pages| {
      assert pages[..k] == pages;
    } else {
      Remainder(lines, pages, k + 1);
      assert pages[..k + 1][..k] == pages[..k];
    }
  }

  lemma {:induction false} PagesAgree(lines: seq<string>, x: seq<seq<string>>, y: seq<seq<string>>, k: nat)
    requires IsPagination(lines, x) && IsPagination(lines, y) && k <= |x| && k <= |y|
    ensures x[..k] == y[..k]
  {
    if k > 0 {
      PagesAgree(lines, x, y, k - 1);
      LastPage(lines, x, k);
      LastPage(lines, y, k);
      OneMorePage(x, y, k);
    }
  }

  lemma OneMorePage(x: seq<seq<string>>, y: seq<seq<string>>, k: nat)
    requires 0 < k <= |x| && k <= |y| && x[..k - 1] == y[..k - 1] && x[k - 1] == y[k - 1]
    ensures x[..k] == y[..k]
  {
    assert x[..k] == x[..k - 1] + [x[k - 1]] && y[..k] == y[..k - 1] + [y[k - 1]];
  }

  /** A page ends after `LINES_PER_PAGE` lines or with the lines. */
  lemma LastPage(lines: seq<string>, pages: seq<seq<string>>, k: nat)
    requires IsPagination(lines, pages) && 0 < k <= |pages|
    ensures var before := |Laid(pages[..k - 1])|;
            && before <= |lines|
            && pages[k - 1] == if |lines| - before < LINES_PER_PAGE then lines[before..]
                               else lines[before..before + LINES_PER_PAGE]
  {
    Remainder(lines, pages, k - 1);
    var before := Laid(pages[..k - 1]);
    assert pages[k - 1] == (before + pages[k - 1])[|before|..] == lines[|before|..|before| + |pages[k - 1]|];
    if k == |pages| {
      assert pages[..k - 1] == pages[..|pages| - 1];
    }
  }

  // ---------------------------------------------------------------- drawing a page

  /** `b"\n".join(parts)` */
  function JoinLines(parts: seq<string>): string {
    if parts == [] then ""
    else if |parts| == 1 then parts[0]
    else JoinLines(parts[..|parts| - 1]) + ("\n" + parts[|parts| - 1])
  }

  lemma JoinLast(parts: seq<string>, x: string)
    requires parts != []
    ensures JoinLines(parts + [x]) == JoinLines(parts) + ("\n" + x)
  {
    assert (parts + [x])[..|parts|] == parts;
  }

  lemma {:induction false} ShowLast(lines: seq<string>, line: string)
    ensures ShowLines(lines + [line]) == ShowLines(lines) + ShowLine(line)
    decreases |lines|
  {
    if lines == [] {
      assert lines + [line] == [line];
    } else {
      assert (lines + [line])[1..] == lines[1..] + [line];
      ShowLast(lines[1..], line);
    }
  }

  lemma DrawStep(parts: seq<string>, escaped: string, drawn: string)
    requires parts != [] && JoinLines(parts) + "\n" == drawn
    ensures JoinLines(parts + ["(" + escaped + ") Tj"] + ["T*"]) + "\n" == drawn + ("(" + (escaped + (")" + SHOW)))
  {
    var show := "(" + escaped + ") Tj";
    JoinLast(parts, show);
    JoinLast(parts + [show], "T*");
    assert show + "\n" + "T*" + "\n" == "(" + (escaped + (")" + SHOW));
    assert JoinLines(parts + [show] + ["T*"]) + "\n" == (JoinLines(parts) + "\n") + (show + "\n" + "T*" + "\n");
  }

  lemma Opening()
    ensures JoinLines(["BT", "/F1 12 Tf", "72 720 Td", "14 TL"]) + "\n" == PROLOGUE
  {
    JoinLast(["BT"], "/F1 12 Tf");
    JoinLast(["BT"] + ["/F1 12 Tf"], "72 720 Td");
    JoinLast(["BT"] + ["/F1 12 Tf"] + ["72 720 Td"], "14 TL");
    assert ["BT"] + ["/F1 12 Tf"] + ["72 720 Td"] + ["14 TL"] == ["BT", "/F1 12 Tf", "72 720 Td", "14 TL"];
    assert JoinLines(["BT"]) == "BT";
    assert "BT" + ("\n" + "/F1 12 Tf") + ("\n" + "72 720 Td") + ("\n" + "14 TL") + "\n" == PROLOGUE;
  }

  /** The content stream of one page. */
  method DrawPage(lines: seq<string>) returns (content: string)
    ensures content == ContentOf(lines)
  {
    var operators := ["BT", "/F1 12 Tf", "72 720 Td", "14 TL"];
    Opening();
    for i := 0 to |lines|
      invariant operators != [] && JoinLines(operators) + "\n" == PROLOGUE + ShowLines(lines[..i])
    {
      assert lines[..i + 1] == lines[..i] + [lines[i]];
      ShowLast(lines[..i], lines[i]);
      var escaped := Escape(Drawn(lines[i]));
      DrawStep(operators, escaped, PROLOGUE + ShowLines(lines[..i]));
      Regroup(PROLOGUE, ShowLines(lines[..i]), ShowLine(lines[i]));
      operators := operators + ["(" + escaped + ") Tj"];
      operators := operators + ["T*"];
    }
    assert lines[..|lines|] == lines;
    JoinLast(operators, "ET");
    Regroup(JoinLines(operators), "\n", "ET");
    Regroup(PROLOGUE, ShowLines(lines), "ET");
    operators := operators + ["ET"];
    content := JoinLines(operators);
  }

  // ---------------------------------------------------------------- the file

  lemma {:induction false} EntriesLast(offsets: seq<nat>, offset: nat)
    ensures Entries(offsets + [offset]) == Entries(offsets) + Entry(offset)
    decreases |offsets|
  {
    if offsets == [] {
      assert offsets + [offset] == [offset];
    } else {
      assert (offsets + [offset])[1..] == offsets[1..] + [offset];
      EntriesLast(offsets[1..], offset);
    }
  }

  method WriteTable(offsets: seq<nat>) returns (table: string)
    ensures table == Table(offsets)
  {
    table := XREF + (Decimal(|offsets| + 1) + ("\n" + FREE_ENTRY));
    ghost var opening := table;
    for i := 0 to |offsets|
      invariant table == opening + Entries(offsets[..i])
    {
      assert offsets[..i + 1] == offsets[..i] + [offsets[i]];
      EntriesLast(offsets[..i], offsets[i]);
      Regroup(opening, Entries(offsets[..i]), Entry(offsets[i]));
      table := table + Entry(offsets[i]);
    }
    assert offsets[..|offsets|] == offsets;
    Regrouped(XREF, Decimal(|offsets| + 1), "\n", FREE_ENTRY, Entries(offsets));
  }

  lemma Regrouped(a: string, b: string, c: string, d: string, e: string)
    ensures (a + (b + (c + d))) + e == a + (b + (c + (d + e)))
  {
  }

  /** Number the objects and note where each starts. */
  method WriteObjects(objects: seq<Body>) returns (out: string, offsets: seq<nat>)
    ensures out == Head(objects) && offsets == Offsets(objects)
  {
    out, offsets := HEADER, [];
    for i := 0 to |objects|
      invariant out == Head(objects[..i]) && offsets == Offsets(objects[..i])
    {
      assert objects[..i + 1][..i] == objects[..i];
      offsets := offsets + [|out|];
      out := out + PrintObject(i + 1, objects[i]);
    }
    assert objects[..|objects|] == objects;
  }

  /** The second half of `render_pdf`. */
  method WriteFile(objects: seq<Body>) returns (out: string)
    ensures out == File(objects)
  {
    var offsets;
    out, offsets := WriteObjects(objects);
    var table := WriteTable(offsets);
    out := out + (table + Trailer(|objects| + 1, |out|));
  }

  /** `render_pdf` */
  method RenderPdf(pages: seq<seq<string>>) returns (out: string)
    ensures out == File(Objects(pages))
  {
    var n := |pages|;
    var objects := [Dict(CATALOG), Dict(PageTree(n))];
    for i := 0 to n
      invariant |objects| == 2 + i && objects == Objects(pages)[..2 + i]
    {
      ObjectsAre(pages, 2 + i);
      objects := objects + [Dict(PageDict(FIRST_PAGE + 2 * n, FIRST_PAGE + n + i))];
    }
    for i := 0 to n
      invariant |objects| == 2 + n + i && objects == Objects(pages)[..2 + n + i]
    {
      ObjectsAre(pages, 2 + n + i);
      var content := DrawPage(pages[i]);
      objects := objects + [Stream(content)];
    }
    ObjectsAre(pages, 2 + 2 * n);
    objects := objects + [Dict(FONT)];
    out := WriteFile(objects);
  }
}
