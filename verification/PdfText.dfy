/** From pages of lines to a PDF and back: content streams, the page tree, the whole file. */
module PdfText {
  import opened Tables
  import opened Decimals
  import opened PdfStrings
  import opened PdfFile

  const PROLOGUE := "BT\n" + "/F1 12 Tf\n" + "72 720 Td\n" + "14 TL\n"
  const SHOW := " Tj\nT*\n"
  const END := "ET"

  // ---------------------------------------------------------------- content streams

  /** A blank line is drawn as a single space. */
  function Drawn(line: string): string {
    if line == "" then " " else line
  }

  function ShowLine(line: string): string {
    "(" + (Escape(Drawn(line)) + (")" + SHOW))
  }

  function ShowLines(lines: seq<string>): string {
    if lines == [] then "" else ShowLine(lines[0]) + ShowLines(lines[1..])
  }

  function ContentOf(lines: seq<string>): string {
    PROLOGUE + (ShowLines(lines) + END)
  }

  function ReadLines(s: string): Option<seq<string>>
    decreases |s|
  {
    if s == END then Some([])
    else if s == "" || s[0] != '(' then None
    else
      match ReadLiteral(s[1..], 0)
      case None => None
      case Some((line, s1)) =>
        match Strip(s1, SHOW)
        case None => None
        case Some(s2) =>
          match ReadLines(s2)
          case None => None
          case Some(more) => Some([line] + more)
  }

  function ReadContent(s: string): Option<seq<string>> {
    match Strip(s, PROLOGUE) case None => None case Some(s1) => ReadLines(s1)
  }

  /** What a reader sees of a line: a space for a blank one, `?` for what latin-1 lacks, a line feed for a
      line end inside it. */
  function Seen(line: string): string {
    OneLineEnd(Latin(Drawn(line)))
  }

  function AllSeen(lines: seq<string>): (r: seq<string>)
    ensures |r| == |lines| && forall i :: 0 <= i < |lines| ==> r[i] == Seen(lines[i])
  {
    if lines == [] then [] else [Seen(lines[0])] + AllSeen(lines[1..])
  }

  /** The lines that come back as they went in. */
  lemma SeenIff(line: string)
    ensures Seen(line) == line <==> line != "" && '\r' !in line && forall c :: c in line ==> c < '\U{100}'
  {
    if line == "" {
      LineEndsKept(Latin(" "));
      assert Latin(" ")[0] == ' ';
    } else {
      EscapeIsBytewise(line);
      ReadBack(Latin(line), "");
      LineReadsBackIff(line, "");
    }
  }

  lemma ReadShownLine(line: string, rest: string)
    ensures ReadLiteral(Escape(Drawn(line)) + (")" + (SHOW + rest)), 0) == Some((Seen(line), SHOW + rest))
  {
    EscapeIsBytewise(Drawn(line));
    ReadBack(Latin(Drawn(line)), SHOW + rest);
  }

  lemma ShownLine(line: string, rest: string)
    ensures var s := ShowLine(line) + rest;
            && s != END && s != "" && s[0] == '('
            && s[1..] == Escape(Drawn(line)) + (")" + (SHOW + rest))
  {
    var e := Escape(Drawn(line));
    assert ShowLine(line) + rest == "(" + (e + (")" + (SHOW + rest)));
    Split("(", e + (")" + (SHOW + rest)));
  }

  lemma {:induction false} ReadShownLines(lines: seq<string>)
    ensures ReadLines(ShowLines(lines) + END) == Some(AllSeen(lines))
    decreases |lines|
  {
    if lines == [] {
      assert ShowLines(lines) + END == END;
    } else {
      var rest := ShowLines(lines[1..]) + END;
      assert ShowLines(lines) + END == ShowLine(lines[0]) + rest;
      ShownLine(lines[0], rest);
      ReadShownLine(lines[0], rest);
      StripHit(SHOW, rest);
      ReadShownLines(lines[1..]);
    }
  }

  lemma ContentReadsBack(lines: seq<string>)
    ensures ReadContent(ContentOf(lines)) == Some(AllSeen(lines))
  {
    StripHit(PROLOGUE, ShowLines(lines) + END);
    ReadShownLines(lines);
  }

  // ---------------------------------------------------------------- the objects

  const FIRST_PAGE := 3
  const CATALOG := "<< /Type /Catalog" + " /Pages 2 0 R >>"
  const KIDS := "<< /Type /Pages" + " /Kids ["
  const COUNT := " /Count "
  const PAGE := "<< /Type /Page " + "/Parent 2 0 R " + "/MediaBox [0 0" + " 612 792] " +
                "/Resources << " + "/Font << /F1 "
  const CONTENTS := " 0 R >> >> " + "/Contents "
  const REF := " 0 R"
  const CLOSE := " >>"
  const FONT := "<< /Type /Font " + "/Subtype /Type1" + " /BaseFont /" + "Helvetica " +
                "/Encoding /" + "WinAnsiEncoding" + " >>"

  function Separator(i: nat): string {
    if i == 0 then "" else " "
  }

  /** References to pages `i .. n`, with a space between two. */
  function Kids(i: nat, n: nat): string
    requires i <= n
    decreases n - i
  {
    if i == n then "" else Separator(i) + (Decimal(FIRST_PAGE + i) + (REF + Kids(i + 1, n)))
  }

  function PageTree(n: nat): string {
    KIDS + (Kids(0, n) + ("]" + (COUNT + (Decimal(n) + CLOSE))))
  }

  function PageDict(font: nat, content: nat): string {
    PAGE + (Decimal(font) + (CONTENTS + (Decimal(content) + (REF + CLOSE))))
  }

  /** Catalog, page tree, one page and then one content stream for each page, the shared font. */
  function Objects(pages: seq<seq<string>>): (objects: seq<Body>)
    ensures |objects| == 2 * |pages| + 3
  {
    var n := |pages|;
    [Dict(CATALOG), Dict(PageTree(n))]
    + seq(n, i requires 0 <= i < n => Dict(PageDict(FIRST_PAGE + 2 * n, FIRST_PAGE + n + i)))
    + seq(n, i requires 0 <= i < n => Stream(ContentOf(pages[i])))
    + [Dict(FONT)]
  }

  /** The object numbers listed up to the closing bracket. */
  function ReadRefs(s: string): Option<seq<nat>>
    decreases |s|
  {
    if s == "" then None
    else if s[0] == ']' then Some([])
    else
      var s0 := if s[0] == ' ' then s[1..] else s;
      match ReadNat(s0)
      case None => None
      case Some((number, s1)) =>
        if |s1| >= |s| then None
        else
          match Strip(s1, REF)
          case None => None
          case Some(s2) =>
            match ReadRefs(s2)
            case None => None
            case Some(more) => Some([number] + more)
  }

  function ReadKids(b: Body): Option<seq<nat>> {
    if b.Stream? then None
    else match Strip(b.text, KIDS) case None => None case Some(s) => ReadRefs(s)
  }

  /** The number of the content stream of a page. */
  function ReadPage(b: Body): Option<nat> {
    if b.Stream? then None
    else
      match Strip(b.text, PAGE)
      case None => None
      case Some(s1) =>
        match ReadNat(s1)
        case None => None
        case Some((font, s2)) =>
          match Strip(s2, CONTENTS)
          case None => None
          case Some(s3) => match ReadNat(s3) case None => None case Some((content, rest)) => Some(content)
  }

  function Numbered(objects: seq<Body>, number: nat): Option<Body> {
    if 1 <= number <= |objects| then Some(objects[number - 1]) else None
  }

  /** The lines on the page that is object `number`. */
  function ReadPageLines(objects: seq<Body>, number: nat): Option<seq<string>> {
    match Numbered(objects, number)
    case None => None
    case Some(page) =>
      match ReadPage(page)
      case None => None
      case Some(content) =>
        match Numbered(objects, content)
        case None => None
        case Some(b) => if b.Stream? then ReadContent(b.content) else None
  }

  function PageReader(objects: seq<Body>): nat -> Option<seq<string>> {
    (number: nat) => ReadPageLines(objects, number)
  }

  /** All pages, with `read` to read the one that is an object. */
  function ReadPages(read: nat -> Option<seq<string>>, numbers: seq<nat>): Option<seq<seq<string>>> {
    if numbers == [] then Some([])
    else
      match read(numbers[0])
      case None => None
      case Some(lines) =>
        match ReadPages(read, numbers[1..])
        case None => None
        case Some(more) => Some([lines] + more)
  }

  /** Follow the page tree from the catalog and read every page. */
  function ReadText(objects: seq<Body>): Option<seq<seq<string>>> {
    if |objects| < 2 || objects[0] != Dict(CATALOG) then None
    else match ReadKids(objects[1]) case None => None case Some(numbers) => ReadPages(PageReader(objects), numbers)
  }

  // ---------------------------------------------------------------- reading them back

  function Numbers(i: nat, n: nat): (r: seq<nat>)
    requires i <= n
    ensures |r| == n - i && forall k :: 0 <= k < n - i ==> r[k] == FIRST_PAGE + i + k
    decreases n - i
  {
    if i == n then [] else [FIRST_PAGE + i] + Numbers(i + 1, n)
  }

  lemma FirstOfDecimal(number: nat, rest: string)
    ensures Decimal(number) + rest != "" && IsDigit((Decimal(number) + rest)[0])
  {
    assert (Decimal(number) + rest)[0] == Decimal(number)[0];
  }

  lemma KidsGroup(sep: string, number: string, kids: string, rest: string)
    ensures (sep + (number + (REF + kids))) + rest == sep + (number + (REF + (kids + rest)))
  {
  }

  lemma RefReadsBack(i: nat, number: nat, s2: string, more: seq<nat>)
    requires ReadRefs(s2) == Some(more)
    ensures ReadRefs(Separator(i) + (Decimal(number) + (REF + s2))) == Some([number] + more)
  {
    var s0 := Decimal(number) + (REF + s2);
    FirstOfDecimal(number, REF + s2);
    if i == 0 {
      assert Separator(i) + s0 == s0;
    } else {
      Split(" ", s0);
    }
    assert (REF + s2)[0] == ' ';
    ReadDecimal(number, REF + s2);
    StripHit(REF, s2);
  }

  lemma {:induction false} RefsReadBack(i: nat, n: nat, rest: string)
    requires i <= n
    ensures ReadRefs(Kids(i, n) + ("]" + rest)) == Some(Numbers(i, n))
    decreases n - i
  {
    if i == n {
      assert Kids(i, n) + ("]" + rest) == "]" + rest;
    } else {
      RefsReadBack(i + 1, n, rest);
      KidsGroup(Separator(i), Decimal(FIRST_PAGE + i), Kids(i + 1, n), "]" + rest);
      RefReadsBack(i, FIRST_PAGE + i, Kids(i + 1, n) + ("]" + rest), Numbers(i + 1, n));
    }
  }

  lemma KidsReadBack(n: nat)
    ensures ReadKids(Dict(PageTree(n))) == Some(Numbers(0, n))
  {
    var rest := COUNT + (Decimal(n) + CLOSE);
    StripHit(KIDS, Kids(0, n) + ("]" + rest));
    RefsReadBack(0, n, rest);
  }

  lemma PageReadsBack(font: nat, content: nat)
    ensures ReadPage(Dict(PageDict(font, content))) == Some(content)
  {
    var s3 := Decimal(content) + (REF + CLOSE);
    assert (CONTENTS + s3)[0] == ' ' && (REF + CLOSE)[0] == ' ';
    StripHit(PAGE, Decimal(font) + (CONTENTS + s3));
    ReadDecimal(font, CONTENTS + s3);
    StripHit(CONTENTS, s3);
    ReadDecimal(content, REF + CLOSE);
  }

  lemma LinkedPageReadsBack(objects: seq<Body>, number: nat, font: nat, content: nat, lines: seq<string>)
    requires Numbered(objects, number) == Some(Dict(PageDict(font, content)))
    requires Numbered(objects, content) == Some(Stream(ContentOf(lines)))
    ensures ReadPageLines(objects, number) == Some(AllSeen(lines))
  {
    PageReadsBack(font, content);
    ContentReadsBack(lines);
  }

  /** Page `i` is where the page tree says, and its content where the page says. */
  predicate LinkedAt(objects: seq<Body>, pages: seq<seq<string>>, i: nat)
    requires i < |pages|
  {
    var n := |pages|;
    && Numbered(objects, FIRST_PAGE + i) == Some(Dict(PageDict(FIRST_PAGE + 2 * n, FIRST_PAGE + n + i)))
    && Numbered(objects, FIRST_PAGE + n + i) == Some(Stream(ContentOf(pages[i])))
  }

  lemma ObjectsAreLinked(pages: seq<seq<string>>, i: nat)
    requires i < |pages|
    ensures LinkedAt(Objects(pages), pages, i)
  {
    ObjectsAre(pages, 2 + i);
    ObjectsAre(pages, 2 + |pages| + i);
  }

  lemma PageLinesReadBack(objects: seq<Body>, pages: seq<seq<string>>, i: nat)
    requires i < |pages| && LinkedAt(objects, pages, i)
    ensures PageReader(objects)(FIRST_PAGE + i) == Some(AllSeen(pages[i]))
  {
    var n := |pages|;
    LinkedPageReadsBack(objects, FIRST_PAGE + i, FIRST_PAGE + 2 * n, FIRST_PAGE + n + i, pages[i]);
  }

  /** What a reader sees of pages `i` and on. */
  function AllPagesSeen(pages: seq<seq<string>>, i: nat): (r: seq<seq<string>>)
    requires i <= |pages|
    ensures |r| == |pages| - i
    decreases |pages| - i
  {
    if i == |pages| then [] else [AllSeen(pages[i])] + AllPagesSeen(pages, i + 1)
  }

  lemma {:induction false} ReadAllPages(read: nat -> Option<seq<string>>, pages: seq<seq<string>>, i: nat)
    requires i <= |pages|
    requires forall k :: 0 <= k < |pages| ==> read(FIRST_PAGE + k) == Some(AllSeen(pages[k]))
    ensures ReadPages(read, Numbers(i, |pages|)) == Some(AllPagesSeen(pages, i))
    decreases |pages| - i
  {
    if i < |pages| {
      ReadAllPages(read, pages, i + 1);
      assert read(FIRST_PAGE + i) == Some(AllSeen(pages[i]));
      assert Numbers(i, |pages|)[1..] == Numbers(i + 1, |pages|);
    }
  }

  lemma PagesReadBack(objects: seq<Body>, pages: seq<seq<string>>)
    requires forall i :: 0 <= i < |pages| ==> LinkedAt(objects, pages, i)
    ensures ReadPages(PageReader(objects), Numbers(0, |pages|)) == Some(AllPagesSeen(pages, 0))
  {
    forall k | 0 <= k < |pages| ensures PageReader(objects)(FIRST_PAGE + k) == Some(AllSeen(pages[k])) {
      PageLinesReadBack(objects, pages, k);
    }
    ReadAllPages(PageReader(objects), pages, 0);
  }

  lemma {:induction false} KidsOneLine(i: nat, n: nat)
    requires i <= n
    ensures '\n' !in Kids(i, n)
    decreases n - i
  {
    if i < n {
      KidsOneLine(i + 1, n);
      DigitsOneLine(Decimal(FIRST_PAGE + i));
    }
  }

  lemma DigitsOneLine(s: string)
    requires AllDigits(s)
    ensures '\n' !in s
  {
  }

  /** A dictionary of this printer opens with its type, so it is not taken for the length of a stream. */
  lemma TypedReadable(text: string, open: string)
    requires '\n' !in text && open <= text && |open| >= |LENGTH| && open[4] == 'T'
    ensures Readable(Dict(text))
  {
    assert LENGTH[4] == 'L' && text[..|LENGTH|][4] == text[4] == open[4];
  }

  lemma TreeReadable(n: nat)
    ensures Readable(Dict(PageTree(n)))
  {
    var open := "<< /Type /Pages";
    Opens(open, " /Kids [", Kids(0, n) + ("]" + (COUNT + (Decimal(n) + CLOSE))));
    assert open[4] == 'T';
    TreeOneLine(n);
    TypedReadable(PageTree(n), open);
  }

  lemma Opens(open: string, middle: string, rest: string)
    ensures open <= (open + middle) + rest
  {
  }

  lemma TreeOneLine(n: nat)
    ensures '\n' !in PageTree(n)
  {
    KidsOneLine(0, n);
    DigitsOneLine(Decimal(n));
    assert '\n' !in KIDS && '\n' !in COUNT && '\n' !in CLOSE;
  }

  lemma PageOneLine()
    ensures '\n' !in PAGE && '\n' !in CONTENTS
  {
    assert '\n' !in "<< /Type /Page " && '\n' !in "/Parent 2 0 R " && '\n' !in "/MediaBox [0 0";
    assert '\n' !in " 612 792] " && '\n' !in "/Resources << " && '\n' !in "/Font << /F1 ";
  }

  lemma FontOneLine()
    ensures '\n' !in FONT
  {
    assert '\n' !in "<< /Type /Font " && '\n' !in "/Subtype /Type1" && '\n' !in " /BaseFont /";
    assert '\n' !in "Helvetica " && '\n' !in "/Encoding /" && '\n' !in "WinAnsiEncoding";
  }

  lemma CatalogOneLine()
    ensures '\n' !in CATALOG
  {
    assert '\n' !in "<< /Type /Catalog" && '\n' !in " /Pages 2 0 R >>";
  }

  lemma PageOpens()
    ensures var open := "<< /Type /Page ";
            |open| >= |LENGTH| && open <= PAGE && open[4] == 'T'
  {
  }

  lemma PageReadable(font: nat, content: nat)
    ensures Readable(Dict(PageDict(font, content)))
  {
    PageOneLine();
    PageOpens();
    DigitsOneLine(Decimal(font));
    DigitsOneLine(Decimal(content));
    TypedReadable(PageDict(font, content), "<< /Type /Page ");
  }

  lemma FixedReadable()
    ensures Readable(Dict(CATALOG)) && Readable(Dict(FONT))
  {
    FontOneLine();
    CatalogOneLine();
    var catalog, font := "<< /Type /Catalog", "<< /Type /Font ";
    assert catalog[4] == 'T' && font[4] == 'T';
    TypedReadable(CATALOG, catalog);
    TypedReadable(FONT, font);
  }

  /** What the objects are, by number. */
  lemma ObjectsAre(pages: seq<seq<string>>, i: nat)
    requires i < |Objects(pages)|
    ensures var n, objects := |pages|, Objects(pages);
            && (i == 0 ==> objects[i] == Dict(CATALOG))
            && (i == 1 ==> objects[i] == Dict(PageTree(n)))
            && (2 <= i < 2 + n ==> objects[i] == Dict(PageDict(FIRST_PAGE + 2 * n, FIRST_PAGE + n + i - 2)))
            && (2 + n <= i < 2 + 2 * n ==> objects[i] == Stream(ContentOf(pages[i - 2 - n])))
            && (i == 2 + 2 * n ==> objects[i] == Dict(FONT))
  {
  }

  lemma ObjectsReadable(pages: seq<seq<string>>, i: nat)
    requires i < |Objects(pages)|
    ensures Readable(Objects(pages)[i])
  {
    var n := |pages|;
    ObjectsAre(pages, i);
    if i == 0 || i == 2 + 2 * n {
      FixedReadable();
    } else if i == 1 {
      TreeReadable(n);
    } else if i < 2 + n {
      PageReadable(FIRST_PAGE + 2 * n, FIRST_PAGE + n + i - 2);
    }
  }

  lemma TextReadsBack(pages: seq<seq<string>>)
    ensures ReadText(Objects(pages)) == Some(AllPagesSeen(pages, 0))
  {
    ObjectsAre(pages, 0);
    ObjectsAre(pages, 1);
    KidsReadBack(|pages|);
    forall i | 0 <= i < |pages| ensures LinkedAt(Objects(pages), pages, i) {
      ObjectsAreLinked(pages, i);
    }
    PagesReadBack(Objects(pages), pages);
  }

  /** The objects of a printed file are readable, so the file gives them back, and they the lines that are seen. */
  lemma PrintingReadsBack(pages: seq<seq<string>>)
    ensures ReadFile(File(Objects(pages)))
            == if Narrow(Offsets(Objects(pages))) then Some(Objects(pages)) else None
    ensures ReadText(Objects(pages)) == Some(AllPagesSeen(pages, 0))
  {
    var objects := Objects(pages);
    forall i | 0 <= i < |objects| ensures Readable(objects[i]) {
      ObjectsReadable(pages, i);
    }
    FileReadsBackIff(objects);
    TextReadsBack(pages);
  }

  // ---------------------------------------------------------------- the whole file

  /** A reader of the file: from the end to the table, the objects, the page tree and the content streams. */
  function ReadPdf(file: string): Option<seq<seq<string>>> {
    match ReadFile(file) case None => None case Some(objects) => ReadText(objects)
  }

  /** Non-empty latin-1 without a carriage return. */
  predicate Plain(line: string) {
    line != "" && '\r' !in line && forall c :: c in line ==> c < '\U{100}'
  }

  predicate AllPlain(lines: seq<string>) {
    forall i :: 0 <= i < |lines| ==> Plain(lines[i])
  }

  lemma AllSeenIff(lines: seq<string>)
    ensures AllSeen(lines) == lines <==> AllPlain(lines)
  {
    forall i | 0 <= i < |lines| ensures Seen(lines[i]) == lines[i] <==> Plain(lines[i]) {
      SeenIff(lines[i]);
    }
    if AllSeen(lines) == lines {
      forall i | 0 <= i < |lines| ensures Plain(lines[i]) { assert AllSeen(lines)[i] == Seen(lines[i]); }
    }
  }

  lemma SameFront<T>(x: T, xs: seq<T>, y: T, ys: seq<T>)
    ensures [x] + xs == [y] + ys <==> x == y && xs == ys
  {
    if [x] + xs == [y] + ys {
      assert ([x] + xs)[0] == ([y] + ys)[0] && ([x] + xs)[1..] == ([y] + ys)[1..];
    }
  }

  predicate PlainFrom(pages: seq<seq<string>>, i: nat) {
    forall k :: i <= k < |pages| ==> AllPlain(pages[k])
  }

  lemma {:induction false} AllPagesSeenIff(pages: seq<seq<string>>, i: nat)
    requires i <= |pages|
    ensures AllPagesSeen(pages, i) == pages[i..] <==> PlainFrom(pages, i)
    decreases |pages| - i
  {
    if i < |pages| {
      AllPagesSeenIff(pages, i + 1);
      AllSeenIff(pages[i]);
      assert pages[i..] == [pages[i]] + pages[i + 1..];
      SameFront(AllSeen(pages[i]), AllPagesSeen(pages, i + 1), pages[i], pages[i + 1..]);
      assert PlainFrom(pages, i) <==> AllPlain(pages[i]) && PlainFrom(pages, i + 1);
    }
  }

  /** The printer undone, end to end: a file reads back as the pages it was printed from if and only if every object
      starts within ten digits of bytes and every line is non-empty latin-1 without a carriage return. */
  lemma PrintingUndoneIff(pages: seq<seq<string>>)
    ensures ReadPdf(File(Objects(pages))) == Some(pages) <==>
              && Narrow(Offsets(Objects(pages)))
              && forall i :: 0 <= i < |pages| ==> AllPlain(pages[i])
  {
    PrintingReadsBack(pages);
    AllPagesSeenIff(pages, 0);
    assert pages[0..] == pages;
  }
}
