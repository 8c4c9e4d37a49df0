/** The file structure of a printed PDF: objects, the cross-reference table, and a reader that starts at the end
    of the file as section 7.5 of ISO 32000-1 has it. */
module PdfFile {
  import opened Tables
  import opened Decimals

  /** The body of an object: a dictionary on one line, or a content stream. */
  datatype Body = Dict(text: string) | Stream(content: string)

  const HEADER := "%PDF-1.4\n"
  const LENGTH := "<< /Length "
  const STREAM := " >>\nstream\n"
  const ENDSTREAM := "\nendstream"
  const OBJ := " 0 obj\n"
  const ENDOBJ := "\nendobj\n"
  const XREF := "xref\n0 "
  const FREE_ENTRY := "0000000000 65535 f \n"
  const IN_USE := " 00000 n \n"
  const TRAILER := "trailer\n<< /Size "
  const ROOT := " /Root 1 0 R >>\n"
  const STARTXREF := "startxref\n"
  const EOF := "\n%%EOF\n"

  // ---------------------------------------------------------------- printing

  function Print(b: Body): string {
    match b
    case Dict(text) => text
    case Stream(content) => LENGTH + (Decimal(|content|) + (STREAM + (content + ENDSTREAM)))
  }

  function PrintObject(number: nat, b: Body): string {
    Decimal(number) + (OBJ + (Print(b) + ENDOBJ))
  }

  /** The file up to the cross-reference table. */
  function Head(objects: seq<Body>): string {
    if objects == [] then HEADER
    else Head(objects[..|objects| - 1]) + PrintObject(|objects|, objects[|objects| - 1])
  }

  /** Where each object starts. */
  function Offsets(objects: seq<Body>): (offsets: seq<nat>)
    ensures |offsets| == |objects|
  {
    if objects == [] then [] else Offsets(objects[..|objects| - 1]) + [|Head(objects[..|objects| - 1])|]
  }

  lemma {:induction false} OffsetIs(objects: seq<Body>, i: nat)
    requires i < |objects|
    ensures Offsets(objects)[i] == |Head(objects[..i])|
    decreases |objects|
  {
    if i < |objects| - 1 {
      OffsetIs(objects[..|objects| - 1], i);
      assert objects[..|objects| - 1][..i] == objects[..i];
    }
  }

  function Entry(offset: nat): string {
    Padded(offset, 10) + IN_USE
  }

  function Entries(offsets: seq<nat>): string {
    if offsets == [] then "" else Entry(offsets[0]) + Entries(offsets[1..])
  }

  function Table(offsets: seq<nat>): string {
    XREF + (Decimal(|offsets| + 1) + ("\n" + (FREE_ENTRY + Entries(offsets))))
  }

  function Trailer(size: nat, start: nat): string {
    TRAILER + Decimal(size) + ROOT + STARTXREF + Decimal(start) + EOF
  }

  function File(objects: seq<Body>): string {
    Head(objects) + (Table(Offsets(objects)) + Trailer(|objects| + 1, |Head(objects)|))
  }

  // ---------------------------------------------------------------- reading

  function Strip(s: string, prefix: string): Option<string> {
    if prefix <= s then Some(s[|prefix|..]) else None
  }

  predicate EndsWith(s: string, suffix: string) {
    |suffix| <= |s| && s[|s| - |suffix|..] == suffix
  }

  /** The offset on the line after the last `startxref`. */
  function StartXref(file: string): Option<nat> {
    if !EndsWith(file, EOF) then None
    else
      var front := file[..|file| - |EOF|];
      var n := DigitsBehind(front);
      if n > 0 && EndsWith(front[..|front| - n], STARTXREF) then Some(Value(front[|front| - n..])) else None
  }

  /** One entry is exactly twenty bytes (section 7.5.4). */
  function ReadEntry(s: string): Option<nat> {
    if |s| >= 20 && AllDigits(s[..10]) && s[10..20] == IN_USE then Some(Value(s[..10])) else None
  }

  function ReadEntries(s: string, count: nat): Option<seq<nat>>
    decreases count
  {
    if count == 0 then Some([])
    else
      match ReadEntry(s)
      case None => None
      case Some(offset) =>
        match ReadEntries(s[20..], count - 1)
        case None => None
        case Some(more) => Some([offset] + more)
  }

  function ReadTable(s: string): Option<seq<nat>> {
    match Strip(s, XREF)
    case None => None
    case Some(s1) =>
      match ReadNat(s1)
      case None => None
      case Some((size, s2)) =>
        match Strip(s2, "\n" + FREE_ENTRY)
        case None => None
        case Some(s3) => if size == 0 then None else ReadEntries(s3, size - 1)
  }

  function LineLength(s: string): (n: nat)
    ensures n <= |s| && '\n' !in s[..n] && (n < |s| ==> s[n] == '\n')
  {
    if s == "" || s[0] == '\n' then 0 else 1 + LineLength(s[1..])
  }

  function ReadStream(s: string): Option<Body> {
    match ReadNat(s)
    case None => None
    case Some((length, s1)) =>
      match Strip(s1, STREAM)
      case None => None
      case Some(s2) =>
        if length <= |s2| && (ENDSTREAM + ENDOBJ) <= s2[length..] then Some(Stream(s2[..length])) else None
  }

  function ReadBody(s: string): Option<Body> {
    match Strip(s, LENGTH)
    case Some(s1) => ReadStream(s1)
    case None =>
      var n := LineLength(s);
      if ENDOBJ <= s[n..] then Some(Dict(s[..n])) else None
  }

  /** The object at the start of `s`, if it is numbered `number`. */
  function ReadObject(s: string, number: nat): Option<Body> {
    match Strip(s, Decimal(number) + OBJ)
    case None => None
    case Some(s1) => ReadBody(s1)
  }

  function ObjectAt(file: string, offset: nat, number: nat): Option<Body> {
    if offset > |file| then None else ReadObject(file[offset..], number)
  }

  function Reader(file: string): (nat, nat) -> Option<Body> {
    (offset: nat, number: nat) => ObjectAt(file, offset, number)
  }

  /** All objects, with `read` to read the one at an offset under a number. */
  function ReadObjects(read: (nat, nat) -> Option<Body>, offsets: seq<nat>): Option<seq<Body>> {
    if offsets == [] then Some([])
    else
      var n := |offsets| - 1;
      match ReadObjects(read, offsets[..n])
      case None => None
      case Some(objects) =>
        match read(offsets[n], n + 1)
        case None => None
        case Some(b) => Some(objects + [b])
  }

  function ReadFile(file: string): Option<seq<Body>> {
    match StartXref(file)
    case None => None
    case Some(start) =>
      if start > |file| then None
      else
        match ReadTable(file[start..])
        case None => None
        case Some(offsets) => ReadObjects(Reader(file), offsets)
  }

  // ---------------------------------------------------------------- one object

  lemma StripHit(prefix: string, rest: string)
    ensures prefix <= prefix + rest && Strip(prefix + rest, prefix) == Some(rest)
  {
  }

  lemma Split(front: string, rest: string)
    ensures (front + rest)[..|front|] == front && (front + rest)[|front|..] == rest
  {
  }

  lemma Regroup(x: string, y: string, z: string)
    ensures (x + y) + z == x + (y + z)
  {
  }

  /** A dictionary the reader can tell from a stream and from the end of its line. */
  predicate Readable(b: Body) {
    b.Dict? ==> '\n' !in b.text && |b.text| >= |LENGTH| && b.text[..|LENGTH|] != LENGTH
  }

  lemma {:induction false} LineLengthIs(text: string, rest: string)
    requires '\n' !in text && (rest == "" || rest[0] == '\n')
    ensures LineLength(text + rest) == |text|
    decreases |text|
  {
    if text == "" {
      assert text + rest == rest;
    } else {
      assert text[0] in text;
      assert (text + rest)[1..] == text[1..] + rest;
      LineLengthIs(text[1..], rest);
    }
  }

  lemma ReadPrintedDict(text: string, rest: string)
    requires Readable(Dict(text))
    ensures ReadBody(text + (ENDOBJ + rest)) == Some(Dict(text))
  {
    var s := text + (ENDOBJ + rest);
    assert s[..|LENGTH|] == text[..|LENGTH|];
    LineLengthIs(text, ENDOBJ + rest);
    assert s[|text|..] == ENDOBJ + rest && s[..|text|] == text;
  }

  lemma ReadPrintedStream(content: string, rest: string)
    ensures ReadStream(Decimal(|content|) + (STREAM + (content + (ENDSTREAM + ENDOBJ + rest)))) == Some(Stream(content))
  {
    var tail := ENDSTREAM + ENDOBJ + rest;
    var s2 := content + tail;
    var s1 := STREAM + s2;
    assert s1[0] == ' ';
    ReadDecimal(|content|, s1);
    StripHit(STREAM, s2);
    Split(content, tail);
    StripHit(ENDSTREAM + ENDOBJ, rest);
  }

  lemma ReadPrintedBody(b: Body, rest: string)
    requires Readable(b)
    ensures ReadBody(Print(b) + (ENDOBJ + rest)) == Some(b)
  {
    match b
    case Dict(text) => ReadPrintedDict(text, rest);
    case Stream(content) =>
      var s1 := Decimal(|content|) + (STREAM + (content + (ENDSTREAM + ENDOBJ + rest)));
      assert Print(b) + (ENDOBJ + rest) == LENGTH + s1;
      StripHit(LENGTH, s1);
      ReadPrintedStream(content, rest);
  }

  lemma ReadPrintedObject(number: nat, b: Body, rest: string)
    requires Readable(b)
    ensures ReadObject(PrintObject(number, b) + rest, number) == Some(b)
  {
    var s1 := Print(b) + (ENDOBJ + rest);
    assert PrintObject(number, b) + rest == (Decimal(number) + OBJ) + s1;
    StripHit(Decimal(number) + OBJ, s1);
    ReadPrintedBody(b, rest);
  }

  // ---------------------------------------------------------------- all objects

  /** What follows the first `i` objects. */
  function After(objects: seq<Body>, i: nat): string
    requires i <= |objects|
    decreases |objects| - i
  {
    if i == |objects| then "" else PrintObject(i + 1, objects[i]) + After(objects, i + 1)
  }

  lemma {:induction false} HeadSplits(objects: seq<Body>, i: nat)
    requires i <= |objects|
    ensures Head(objects) == Head(objects[..i]) + After(objects, i)
    decreases |objects| - i
  {
    if i == |objects| {
      assert objects[..i] == objects;
    } else {
      HeadSplits(objects, i + 1);
      assert objects[..i + 1][..i] == objects[..i];
      Regroup(Head(objects[..i]), PrintObject(i + 1, objects[i]), After(objects, i + 1));
    }
  }

  /** The object is printed at that offset. */
  predicate PrintedAt(file: string, offset: nat, number: nat, b: Body) {
    offset <= |file| && PrintObject(number, b) <= file[offset..]
  }

  /** Entry N of the table points at the first byte of `N 0 obj`. */
  lemma ObjectAtOffset(objects: seq<Body>, rest: string, i: nat)
    requires i < |objects|
    ensures PrintedAt(Head(objects) + rest, Offsets(objects)[i], i + 1, objects[i])
  {
    HeadSplits(objects, i);
    OffsetIs(objects, i);
    var before, here, after := Head(objects[..i]), PrintObject(i + 1, objects[i]), After(objects, i + 1);
    Regroup(before, here + after, rest);
    Regroup(here, after, rest);
    Split(before, here + (after + rest));
    StripHit(here, after + rest);
  }

  lemma PrintedFound(file: string, offset: nat, number: nat, b: Body)
    requires Readable(b) && PrintedAt(file, offset, number, b)
    ensures ObjectAt(file, offset, number) == Some(b)
  {
    var text, here := file[offset..], PrintObject(number, b);
    assert text == here + text[|here|..];
    ReadPrintedObject(number, b, text[|here|..]);
  }

  lemma {:induction false} ReadAll(read: (nat, nat) -> Option<Body>, offsets: seq<nat>, objects: seq<Body>)
    requires |offsets| == |objects|
    requires forall i :: 0 <= i < |offsets| ==> read(offsets[i], i + 1) == Some(objects[i])
    ensures ReadObjects(read, offsets) == Some(objects)
    decreases |offsets|
  {
    if offsets != [] {
      var n := |offsets| - 1;
      ReadAll(read, offsets[..n], objects[..n]);
      assert objects == objects[..n] + [objects[n]];
    }
  }

  lemma AllFound(file: string, offsets: seq<nat>, objects: seq<Body>)
    requires |offsets| == |objects|
    requires forall i :: 0 <= i < |offsets| ==> Readable(objects[i]) && PrintedAt(file, offsets[i], i + 1, objects[i])
    ensures ReadObjects(Reader(file), offsets) == Some(objects)
  {
    forall i | 0 <= i < |offsets| ensures Reader(file)(offsets[i], i + 1) == Some(objects[i]) {
      PrintedFound(file, offsets[i], i + 1, objects[i]);
    }
    ReadAll(Reader(file), offsets, objects);
  }

  lemma ReadPrintedObjects(objects: seq<Body>, rest: string)
    requires forall i :: 0 <= i < |objects| ==> Readable(objects[i])
    ensures ReadObjects(Reader(Head(objects) + rest), Offsets(objects)) == Some(objects)
  {
    var file, offsets := Head(objects) + rest, Offsets(objects);
    forall i | 0 <= i < |objects| ensures PrintedAt(file, offsets[i], i + 1, objects[i]) {
      ObjectAtOffset(objects, rest, i);
    }
    AllFound(file, offsets, objects);
  }

  // ---------------------------------------------------------------- the table

  const TEN_DIGITS := 10_000_000_000

  predicate Narrow(offsets: seq<nat>) {
    forall i :: 0 <= i < |offsets| ==> offsets[i] < TEN_DIGITS
  }

  lemma TenDigits()
    ensures Power10(10) == TEN_DIGITS
  {
    assert Power10(5) == 100_000;
    assert Power10(8) == 100_000_000;
  }

  lemma ReadPrintedEntry(offset: nat, rest: string)
    ensures offset < TEN_DIGITS ==> |Entry(offset)| == 20 && ReadEntry(Entry(offset) + rest) == Some(offset)
    ensures offset >= TEN_DIGITS ==> ReadEntry(Entry(offset) + rest) == None
  {
    TenDigits();
    PaddedExact(offset, 10);
    var s, p := Entry(offset) + rest, Padded(offset, 10);
    if offset < TEN_DIGITS {
      assert s[..10] == p && s[10..20] == IN_USE;
    } else {
      assert s[10] == p[10];
      assert |s| >= 20 ==> s[10..20][0] == p[10];
    }
  }

  lemma {:induction false} ReadPrintedEntries(offsets: seq<nat>, rest: string)
    ensures ReadEntries(Entries(offsets) + rest, |offsets|) == if Narrow(offsets) then Some(offsets) else None
    decreases |offsets|
  {
    if offsets != [] {
      var more := Entries(offsets[1..]) + rest;
      assert Entries(offsets) + rest == Entry(offsets[0]) + more;
      ReadPrintedEntry(offsets[0], more);
      if offsets[0] < TEN_DIGITS {
        assert (Entry(offsets[0]) + more)[20..] == more;
        ReadPrintedEntries(offsets[1..], rest);
        NarrowTail(offsets);
      }
    }
  }

  lemma NarrowTail(offsets: seq<nat>)
    requires offsets != [] && offsets[0] < TEN_DIGITS
    ensures Narrow(offsets) <==> Narrow(offsets[1..])
    ensures [offsets[0]] + offsets[1..] == offsets
  {
    if Narrow(offsets[1..]) {
      forall i | 0 <= i < |offsets| ensures offsets[i] < TEN_DIGITS {
        if i > 0 { assert offsets[1..][i - 1] == offsets[i]; }
      }
    }
  }

  lemma ReadPrintedTable(offsets: seq<nat>, rest: string)
    ensures ReadTable(Table(offsets) + rest) == if Narrow(offsets) then Some(offsets) else None
  {
    var s3 := Entries(offsets) + rest;
    var s2 := ("\n" + FREE_ENTRY) + s3;
    var s1 := Decimal(|offsets| + 1) + s2;
    assert Table(offsets) + rest == XREF + s1;
    StripHit(XREF, s1);
    ReadDecimal(|offsets| + 1, s2);
    StripHit("\n" + FREE_ENTRY, s3);
    ReadPrintedEntries(offsets, rest);
  }

  lemma EndsWithHit(front: string, suffix: string)
    ensures EndsWith(front + suffix, suffix) && (front + suffix)[..|front|] == front
  {
  }

  lemma ReadPrintedStart(front: string, start: nat)
    ensures StartXref(front + STARTXREF + Decimal(start) + EOF) == Some(start)
  {
    EndsWithHit(front + STARTXREF + Decimal(start), EOF);
    EndsWithHit(front + STARTXREF, Decimal(start));
    EndsWithHit(front, STARTXREF);
    var s := front + STARTXREF;
    assert s[|s| - 1] == '\n';
    DigitsBehindIs(s, Decimal(start));
    ValueOfDecimal(start);
  }

  lemma FileStart(objects: seq<Body>)
    ensures StartXref(File(objects)) == Some(|Head(objects)|)
    ensures |Head(objects)| <= |File(objects)|
    ensures File(objects)[|Head(objects)|..]
            == Table(Offsets(objects)) + Trailer(|objects| + 1, |Head(objects)|)
  {
    var head, table := Head(objects), Table(Offsets(objects));
    var size, start := Decimal(|objects| + 1), Decimal(|head|);
    Parts(head, table, TRAILER, size, ROOT, STARTXREF, start, EOF);
    ReadPrintedStart(head + table + TRAILER + size + ROOT, |head|);
    Split(head, table + Trailer(|objects| + 1, |head|));
  }

  lemma Parts(a: string, b: string, c: string, d: string, e: string, f: string, g: string, h: string)
    ensures a + (b + (c + d + e + f + g + h)) == (a + b + c + d + e) + f + g + h
  {
  }

  /** The size the trailer states, which stands before the last `startxref` (section 7.5.5). */
  function TrailerSize(file: string): Option<nat> {
    if !EndsWith(file, EOF) then None
    else
      var front := file[..|file| - |EOF|];
      var before := front[..|front| - DigitsBehind(front)];
      if !EndsWith(before, ROOT + STARTXREF) then None
      else
        var head := before[..|before| - |ROOT + STARTXREF|];
        var n := DigitsBehind(head);
        if n > 0 && EndsWith(head[..|head| - n], TRAILER) then Some(Value(head[|head| - n..])) else None
  }

  lemma ReadPrintedSize(front: string, size: nat, start: nat)
    ensures TrailerSize(front + TRAILER + Decimal(size) + (ROOT + STARTXREF) + Decimal(start) + EOF) == Some(size)
  {
    var sized := front + TRAILER + Decimal(size);
    EndsWithHit(sized + (ROOT + STARTXREF) + Decimal(start), EOF);
    EndsWithHit(sized, ROOT + STARTXREF);
    EndsWithHit(front, TRAILER);
    var s := sized + (ROOT + STARTXREF);
    assert s[|s| - 1] == '\n';
    DigitsBehindIs(s, Decimal(start));
    var x := front + TRAILER;
    assert x[|x| - 1] == ' ';
    DigitsBehindIs(x, Decimal(size));
    ValueOfDecimal(size);
  }

  /** The trailer states how many entries the table has: one for each object, and the free one. */
  lemma TrailerCounts(objects: seq<Body>)
    ensures TrailerSize(File(objects)) == Some(|objects| + 1)
  {
    var head, table := Head(objects), Table(Offsets(objects));
    var size, start := Decimal(|objects| + 1), Decimal(|head|);
    SizedParts(head, table, TRAILER, size, ROOT, STARTXREF, start, EOF);
    ReadPrintedSize(head + table, |objects| + 1, |head|);
  }

  lemma SizedParts(a: string, b: string, c: string, d: string, e: string, f: string, g: string, h: string)
    ensures a + (b + (c + d + e + f + g + h)) == (a + b) + c + d + (e + f) + g + h
  {
  }

  lemma ReadFileStep(file: string, start: nat, table: Option<seq<nat>>)
    requires StartXref(file) == Some(start) && start <= |file| && ReadTable(file[start..]) == table
    ensures ReadFile(file) == if table.None? then None else ReadObjects(Reader(file), table.value)
  {
  }

  /** Printing undone: a reader that follows `startxref` and the twenty-byte entries recovers the objects,
      exactly when every offset fits its ten digits. */
  lemma FileReadsBackIff(objects: seq<Body>)
    requires forall i :: 0 <= i < |objects| ==> Readable(objects[i])
    ensures ReadFile(File(objects)) == if Narrow(Offsets(objects)) then Some(objects) else None
  {
    var offsets, trailer := Offsets(objects), Trailer(|objects| + 1, |Head(objects)|);
    FileStart(objects);
    ReadPrintedTable(offsets, trailer);
    ReadFileStep(File(objects), |Head(objects)|, if Narrow(offsets) then Some(offsets) else None);
    ReadPrintedObjects(objects, Table(offsets) + trailer);
  }
}
