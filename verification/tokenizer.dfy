/** The `\w+` tokenizer shared by dictionary building and classification:
    the maximal runs of word characters of a text, in order. */
module Tokenizer {
  import opened Common

  /** A word character: an ASCII letter, an ASCII digit or the underscore. */
  predicate IsWordChar(c: char) {
    ('a' <= c <= 'z') || ('A' <= c <= 'Z') || ('0' <= c <= '9') || c == '_'
  }

  /** A non-empty string made only of word characters. */
  predicate IsWord(w: string) {
    |w| > 0 && forall i :: 0 <= i < |w| ==> IsWordChar(w[i])
  }

  /** Length of the run of word characters at the start of `s`. */
  function RunLength(s: string): (n: nat)
    ensures n <= |s|
    ensures forall i :: 0 <= i < n ==> IsWordChar(s[i])
    ensures n == |s| || !IsWordChar(s[n])
  {
    if s == [] || !IsWordChar(s[0]) then 0 else 1 + RunLength(s[1..])
  }

  /** The maximal runs of word characters of `s`, left to right. */
  function Tokens(s: string): (r: seq<string>)
    ensures forall i :: 0 <= i < |r| ==> IsWord(r[i])
    decreases |s|
  {
    if s == [] then []
    else if !IsWordChar(s[0]) then Tokens(s[1..])
    else
      var n := RunLength(s);
      [s[..n]] + Tokens(s[n..])
  }

  /** The tokens of one table cell: a cell that is not a string has none. */
  function TweetTokens(t: Option<string>): (r: seq<string>)
    ensures t.None? ==> r == []
    ensures t.Some? ==> r == Tokens(t.value)
  {
    match t
    case None => []
    case Some(s) => Tokens(s)
  }

  /** A run of word characters followed by anything that starts with a
      separator is exactly as long as the run. */
  lemma {:induction false} RunLengthStopsAtSeparator(w: string, c: char, rest: string)
    requires forall i :: 0 <= i < |w| ==> IsWordChar(w[i])
    requires !IsWordChar(c)
    ensures RunLength(w + [c] + rest) == |w|
  {
    if w != [] {
      assert (w + [c] + rest)[1..] == w[1..] + [c] + rest;
      RunLengthStopsAtSeparator(w[1..], c, rest);
    }
  }

  /** Tokenizing is compatible with cutting the text at a separator: the
      tokens of `a + [c] + b` are the tokens of `a` followed by those of `b`. */
  lemma {:induction false} TokensSplitAtSeparator(a: string, c: char, b: string)
    requires !IsWordChar(c)
    ensures Tokens(a + [c] + b) == Tokens(a) + Tokens(b)
    decreases |a|
  {
    var s := a + [c] + b;
    if a == [] {
      assert s[1..] == b;
    } else if !IsWordChar(a[0]) {
      assert s[1..] == a[1..] + [c] + b;
      TokensSplitAtSeparator(a[1..], c, b);
    } else {
      var n := RunLength(a);
      if n < |a| {
        assert a == a[..n] + [a[n]] + a[n + 1..];
        assert s == a[..n] + [a[n]] + (a[n + 1..] + [c] + b);
        RunLengthStopsAtSeparator(a[..n], a[n], a[n + 1..] + [c] + b);
        assert s[..n] == a[..n];
        assert s[n..] == a[n..] + [c] + b;
        TokensSplitAtSeparator(a[n..], c, b);
      } else {
        RunLengthStopsAtSeparator(a, c, b);
        assert s[0] == a[0];
        assert s[..n] == a;
        assert s[n..] == [c] + b;
        assert ([c] + b)[1..] == b;
        assert Tokens(s) == [a] + Tokens(b);
        assert a[..n] == a && a[n..] == [];
        assert Tokens(a) == [a];
      }
    }
  }

  /** The words of `ws`, each followed by one space. */
  function Join(ws: seq<string>): string {
    if ws == [] then [] else ws[0] + [' '] + Join(ws[1..])
  }

  /** A single word tokenizes to itself. */
  lemma TokensOfWord(w: string)
    requires IsWord(w)
    ensures Tokens(w) == [w]
  {
    RunLengthStopsAtSeparator(w, ' ', []);
    assert RunLength(w) == |w| by {
      assert w + [' '] + [] == w + [' '];
      RunLengthAtMost(w, [' ']);
    }
    assert w[..|w|] == w && w[|w|..] == [];
  }

  /** The run at the start of `s` does not grow when text is appended. */
  lemma {:induction false} RunLengthAtMost(s: string, t: string)
    requires RunLength(s + t) == |s|
    ensures RunLength(s) == |s|
  {
    if s != [] {
      assert (s + t)[1..] == s[1..] + t;
      RunLengthAtMost(s[1..], t);
    }
  }

  /** Round trip: tokenizing words joined by spaces gives the words back. */
  lemma {:induction false} TokensOfJoin(ws: seq<string>)
    requires forall i :: 0 <= i < |ws| ==> IsWord(ws[i])
    ensures Tokens(Join(ws)) == ws
  {
    if ws != [] {
      TokensOfJoin(ws[1..]);
      TokensSplitAtSeparator(ws[0], ' ', Join(ws[1..]));
      TokensOfWord(ws[0]);
    }
  }

  /** Spaces and punctuation both separate words: "a1 b_2, c" shaped text
      tokenizes to its three words. */
  lemma TokensOfPunctuated(a: string, b: string, c: string)
    requires IsWord(a) && IsWord(b) && IsWord(c)
    ensures Tokens(a + " " + b + ", " + c) == [a, b, c]
  {
    var tail := [] + [' '] + c;
    assert a + " " + b + ", " + c == a + [' '] + (b + [','] + tail);
    TokensSplitAtSeparator(a, ' ', b + [','] + tail);
    TokensSplitAtSeparator(b, ',', tail);
    TokensSplitAtSeparator([], ' ', c);
    TokensOfWord(a);
    TokensOfWord(b);
    TokensOfWord(c);
  }
}
