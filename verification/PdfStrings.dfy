/** PDF literal strings: how the corpus builder escapes a line, and how a reader reads it back.

    A byte is written as the latin-1 character with its code. */
module PdfStrings {
  import opened Tables

  // ---------------------------------------------------------------- escaping

  /** `s.replace(c, sub)` */
  function Replace(s: string, c: char, sub: string): string {
    if s == "" then "" else (if s[0] == c then sub else [s[0]]) + Replace(s[1..], c, sub)
  }

  /** `s.encode("latin-1", errors="replace")` */
  function Latin(s: string): (r: string)
    ensures |r| == |s|
    ensures forall i :: 0 <= i < |s| ==> r[i] == if s[i] < '\U{100}' then s[i] else '?'
  {
    if s == "" then "" else [if s[0] < '\U{100}' then s[0] else '?'] + Latin(s[1..])
  }

  function Escape(line: string): string {
    Latin(Replace(Replace(Replace(line, '\\', "\\\\"), '(', "\\("), ')', "\\)"))
  }

  /** The escape of one byte. */
  function EscapeByte(c: char): string {
    if c == '\\' || c == '(' || c == ')' then ['\\', c] else [c]
  }

  function EscapeBytes(s: string): string {
    if s == "" then "" else EscapeByte(s[0]) + EscapeBytes(s[1..])
  }

  lemma {:induction false} ReplaceAdds(x: string, y: string, c: char, sub: string)
    ensures Replace(x + y, c, sub) == Replace(x, c, sub) + Replace(y, c, sub)
    decreases |x|
  {
    if x == "" {
      assert x + y == y;
    } else {
      assert (x + y)[1..] == x[1..] + y;
      ReplaceAdds(x[1..], y, c, sub);
    }
  }

  lemma LatinAdds(x: string, y: string)
    ensures Latin(x + y) == Latin(x) + Latin(y)
  {
  }

  lemma ReplaceOne(c: char, d: char, sub: string)
    ensures Replace([c], d, sub) == if c == d then sub else [c]
  {
    assert [c][1..] == "";
    assert Replace("", d, sub) == "";
  }

  lemma ReplaceTwo(x: char, y: char, d: char, sub: string)
    ensures Replace([x, y], d, sub) == (if x == d then sub else [x]) + (if y == d then sub else [y])
  {
    assert [x, y] == [x] + [y];
    ReplaceAdds([x], [y], d, sub);
    ReplaceOne(x, d, sub);
    ReplaceOne(y, d, sub);
  }

  lemma EscapeOne(c: char)
    ensures Escape([c]) == EscapeByte(Latin([c])[0])
  {
    ReplaceOne(c, '\\', "\\\\");
    ReplaceOne(c, '(', "\\(");
    ReplaceOne(c, ')', "\\)");
    ReplaceTwo('\\', '\\', '(', "\\(");
    ReplaceTwo('\\', '\\', ')', "\\)");
    ReplaceTwo('\\', '(', ')', "\\)");
    LatinAdds("\\", [c]);
  }

  /** The chain of replacements escapes byte by byte: no replacement touches what an earlier one put in. */
  lemma {:induction false} EscapeIsBytewise(line: string)
    ensures Escape(line) == EscapeBytes(Latin(line))
    decreases |line|
  {
    if line != "" {
      var head, tail := [line[0]], line[1..];
      assert line == head + tail;
      EscapeIsBytewise(tail);
      EscapeOne(line[0]);
      EscapeAdds(head, tail);
      assert Latin(line)[1..] == Latin(tail);
    }
  }

  lemma EscapeAdds(x: string, y: string)
    ensures Escape(x + y) == Escape(x) + Escape(y)
  {
    ReplaceAdds(x, y, '\\', "\\\\");
    var x1, y1 := Replace(x, '\\', "\\\\"), Replace(y, '\\', "\\\\");
    ReplaceAdds(x1, y1, '(', "\\(");
    var x2, y2 := Replace(x1, '(', "\\("), Replace(y1, '(', "\\(");
    ReplaceAdds(x2, y2, ')', "\\)");
    LatinAdds(Replace(x2, ')', "\\)"), Replace(y2, ')', "\\)"));
  }

  // ---------------------------------------------------------------- reading (section 7.3.4.2 of ISO 32000-1)

  predicate IsOctal(c: char) {
    '0' <= c <= '7'
  }

  /** How many of the next at most three characters are octal digits. */
  function OctalAhead(s: string, most: nat): (n: nat)
    ensures n <= |s| && n <= most
  {
    if most == 0 || s == "" || !IsOctal(s[0]) then 0 else 1 + OctalAhead(s[1..], most - 1)
  }

  function OctalValue(s: string): nat {
    if s == "" then 0
    else 8 * OctalValue(s[..|s| - 1]) + (if IsOctal(s[|s| - 1]) then s[|s| - 1] as int - '0' as int else 0)
  }

  function Named(c: char): char {
    match c
    case 'n' => '\n'
    case 'r' => '\r'
    case 't' => '\t'
    case 'b' => '\U{08}'
    case 'f' => '\U{0C}'
    case _ => c
  }

  function Prepend(s: string, r: Option<(string, string)>): Option<(string, string)> {
    match r case None => None case Some((t, rest)) => Some((s + t, rest))
  }

  function SkipNewline(s: string): (r: string)
    ensures |r| <= |s|
  {
    if s != "" && s[0] == '\n' then s[1..] else s
  }

  /** The string up to its closing parenthesis, `depth` unescaped ones being open, and what follows. */
  function ReadLiteral(s: string, depth: nat): (r: Option<(string, string)>)
    ensures r.Some? ==> |r.value.1| < |s|
    decreases |s|
  {
    if s == "" then None
    else
      var c, t := s[0], s[1..];
      if c == ')' then (if depth == 0 then Some(("", t)) else Prepend(")", ReadLiteral(t, depth - 1)))
      else if c == '(' then Prepend("(", ReadLiteral(t, depth + 1))
      else if c == '\r' then Prepend("\n", ReadLiteral(SkipNewline(t), depth))
      else if c != '\\' then Prepend([c], ReadLiteral(t, depth))
      else if t == "" then None
      else if IsOctal(t[0]) then
        var n := OctalAhead(t, 3);
        Prepend([(OctalValue(t[..n]) % 256) as char], ReadLiteral(t[n..], depth))
      else if t[0] == '\n' then ReadLiteral(t[1..], depth)
      else if t[0] == '\r' then ReadLiteral(SkipNewline(t[1..]), depth)
      else Prepend([Named(t[0])], ReadLiteral(t[1..], depth))
  }

  /** What a reader makes of the line ends in a literal string: each is a single line feed. */
  function OneLineEnd(s: string): string
    decreases |s|
  {
    if s == "" then ""
    else if s[0] == '\r' then "\n" + OneLineEnd(SkipNewline(s[1..]))
    else [s[0]] + OneLineEnd(s[1..])
  }

  lemma ReadEscaped(c: char, more: string)
    requires c != '\r'
    ensures ReadLiteral(EscapeByte(c) + more, 0) == Prepend([c], ReadLiteral(more, 0))
  {
    var s := EscapeByte(c) + more;
    if c == '\\' || c == '(' || c == ')' {
      assert s[1..] == [c] + more && s[1..][1..] == more;
    } else {
      assert s[1..] == more;
    }
  }

  lemma ReadReturn(more: string)
    ensures ReadLiteral("\r" + more, 0) == Prepend("\n", ReadLiteral(SkipNewline(more), 0))
  {
    assert ("\r" + more)[1..] == more;
  }

  lemma SkipEscaped(s: string, more: string)
    ensures SkipNewline(EscapeBytes(s) + (")" + more)) == EscapeBytes(SkipNewline(s)) + (")" + more)
  {
    if s != "" {
      var e := EscapeBytes(s) + (")" + more);
      assert EscapeBytes(s) == EscapeByte(s[0]) + EscapeBytes(s[1..]);
      if s[0] == '\n' {
        assert e[1..] == EscapeBytes(s[1..]) + (")" + more);
      }
    }
  }

  /** Reading back an escaped string gives the string, its line ends normalized. */
  lemma {:induction false} ReadBack(s: string, more: string)
    ensures ReadLiteral(EscapeBytes(s) + (")" + more), 0) == Some((OneLineEnd(s), more))
    decreases |s|
  {
    if s == "" {
      assert EscapeBytes(s) + (")" + more) == ")" + more;
      assert (")" + more)[1..] == more;
    } else {
      var tail := EscapeBytes(s[1..]) + (")" + more);
      assert EscapeBytes(s) + (")" + more) == EscapeByte(s[0]) + tail;
      if s[0] == '\r' {
        ReadReturn(tail);
        SkipEscaped(s[1..], more);
        ReadBack(SkipNewline(s[1..]), more);
      } else {
        ReadEscaped(s[0], tail);
        ReadBack(s[1..], more);
      }
    }
  }

  lemma {:induction false} LineEndsKept(s: string)
    ensures '\r' !in OneLineEnd(s)
    ensures '\r' !in s ==> OneLineEnd(s) == s
    decreases |s|
  {
    if s != "" {
      LineEndsKept(SkipNewline(s[1..]));
      LineEndsKept(s[1..]);
    }
  }

  /** A line printed as a literal string is read back unchanged exactly when it is latin-1 and holds no
      carriage return. */
  lemma LineReadsBackIff(line: string, more: string)
    ensures ReadLiteral(Escape(line) + (")" + more), 0) == Some((line, more))
            <==> '\r' !in line && forall c :: c in line ==> c < '\U{100}'
  {
    EscapeIsBytewise(line);
    ReadBack(Latin(line), more);
    LineEndsKept(Latin(line));
    if OneLineEnd(Latin(line)) == line {
      LatinFixed(line);
    }
    if forall c :: c in line ==> c < '\U{100}' {
      forall i | 0 <= i < |line| ensures Latin(line)[i] == line[i] {
        assert line[i] in line;
      }
      assert Latin(line) == line;
    }
  }

  lemma {:induction false} LatinBytes(s: string)
    ensures forall c :: c in OneLineEnd(Latin(s)) ==> c < '\U{100}'
  {
    LineEndsSmall(Latin(s));
  }

  lemma {:induction false} LineEndsSmall(s: string)
    requires forall i :: 0 <= i < |s| ==> s[i] < '\U{100}'
    ensures forall c :: c in OneLineEnd(s) ==> c < '\U{100}'
    decreases |s|
  {
    if s != "" {
      LineEndsSmall(SkipNewline(s[1..]));
      LineEndsSmall(s[1..]);
    }
  }

  lemma LatinFixed(line: string)
    requires OneLineEnd(Latin(line)) == line
    ensures '\r' !in line && forall c :: c in line ==> c < '\U{100}'
  {
    LineEndsKept(Latin(line));
    LatinBytes(line);
  }
}
