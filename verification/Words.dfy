/** Words, and the text they make when joined and split again at white space. */
module Words {
  /** What `str.split()` with no argument separates at. */
  predicate IsSpace(c: char) {
    || c == ' ' || '\t' <= c <= '\r' || '\U{1C}' <= c <= '\U{1F}' || c == '\U{85}' || c == '\U{A0}'
    || c == '\U{1680}' || '\U{2000}' <= c <= '\U{200A}' || c == '\U{2028}' || c == '\U{2029}'
    || c == '\U{202F}' || c == '\U{205F}' || c == '\U{3000}'
  }

  predicate IsWord(s: string) {
    s != "" && forall i :: 0 <= i < |s| ==> !IsSpace(s[i])
  }

  type Word = w: string | IsWord(w) witness "a"

  /** A sentence may end after this word. */
  predicate EndsSentence(w: Word) {
    var c := w[|w| - 1];
    c == '.' || c == '!' || c == '?'
  }

  /** `" ".join(words)` */
  function Text(words: seq<Word>): string {
    if words == [] then ""
    else if |words| == 1 then words[0]
    else Text(words[..|words| - 1]) + " " + words[|words| - 1]
  }

  function WordLength(s: string): (n: nat)
    ensures n <= |s| && (s != "" && !IsSpace(s[0]) ==> n > 0)
    ensures forall i :: 0 <= i < n ==> !IsSpace(s[i])
    ensures n < |s| ==> IsSpace(s[n])
  {
    if s == "" || IsSpace(s[0]) then 0 else 1 + WordLength(s[1..])
  }

  /** `s.split()` */
  function Split(s: string): (words: seq<Word>)
  {
    if s == "" then []
    else if IsSpace(s[0]) then Split(s[1..])
    else [s[..WordLength(s)]] + Split(s[WordLength(s)..])
  }

  predicate Stops(s: string) {
    s == "" || IsSpace(s[0])
  }

  lemma {:induction false} WordLengthIs(s: string, n: nat)
    requires n <= |s| && (forall i :: 0 <= i < n ==> !IsSpace(s[i])) && (n < |s| ==> IsSpace(s[n]))
    ensures WordLength(s) == n
  {
    if n > 0 {
      WordLengthIs(s[1..], n - 1);
    }
  }

  lemma SplitWord(w: Word, rest: string)
    requires Stops(rest)
    ensures Split(w + rest) == [w] + Split(rest)
  {
    var s := w + rest;
    assert s[0] == w[0] && s[|w|..] == rest && s[..|w|] == w;
    WordLengthIs(s, |w|);
  }

  lemma SplitSpace(c: char, rest: string)
    requires IsSpace(c)
    ensures Split([c] + rest) == Split(rest)
  {
    assert ([c] + rest)[1..] == rest;
  }

  lemma TextLast(words: seq<Word>, rest: string)
    requires |words| > 1
    ensures var n := |words| - 1; Text(words) + rest == Text(words[..n]) + ([' '] + (words[n] + rest))
  {
  }

  /** Joining words with single spaces and splitting again gives the words. */
  lemma {:induction false} SplitText(words: seq<Word>, rest: string)
    requires Stops(rest)
    ensures Split(Text(words) + rest) == words + Split(rest)
    decreases |words|
  {
    if words == [] {
      assert Text(words) + rest == rest;
    } else if |words| == 1 {
      SplitWord(words[0], rest);
    } else {
      var init, last := words[..|words| - 1], words[|words| - 1];
      var tail := [' '] + (last + rest);
      assert Split(tail) == [last] + Split(rest) by {
        SplitSpace(' ', last + rest);
        SplitWord(last, rest);
      }
      assert Split(Text(words) + rest) == init + Split(tail) by {
        TextLast(words, rest);
        SplitText(init, tail);
      }
      assert words + Split(rest) == init + ([last] + Split(rest));
    }
  }

  lemma {:induction false} TextNotEmpty(words: seq<Word>)
    requires words != []
    ensures Text(words) != ""
  {
  }
}
