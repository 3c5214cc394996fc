/**
 * The way `processOption` cuts a command line into words: every match of
 * `(?:[^\s"]+|"[^"]*")+`, with its double quotes removed. A match is a run
 * of bare word characters and complete quoted spans, so adjacent pieces
 * join (`a"b c"d` is one word, `ab cd`), a quoted span keeps its spaces,
 * `""` is an empty word, and a quote that no later quote closes is skipped.
 */
module Tokenizer {

  /** The characters JavaScript's `\s` class matches. */
  predicate IsSpace(c: char) {
    var n := c as int;
    || n == 0x09 || n == 0x0A || n == 0x0B || n == 0x0C || n == 0x0D || n == 0x20
    || n == 0xA0 || n == 0x1680 || (0x2000 <= n <= 0x200A)
    || n == 0x2028 || n == 0x2029 || n == 0x202F || n == 0x205F || n == 0x3000 || n == 0xFEFF
  }

  /** A character `[^\s"]` accepts. */
  predicate IsWordChar(c: char) {
    !IsSpace(c) && c != '"'
  }

  /** The position of the first quote in `s`, or `|s|` when there is none. */
  function FirstQuote(s: string): (j: nat)
    ensures j <= |s|
    ensures j < |s| ==> s[j] == '"'
    ensures '"' !in s[..j]
    decreases |s|
  {
    if s == [] then 0
    else if s[0] == '"' then 0
    else
      var j := FirstQuote(s[1..]);
      assert s[..j + 1] == [s[0]] + s[1..][..j];
      j + 1
  }

  /** `s` starts with a complete quoted span `"[^"]*"`: a quote that a later quote closes. */
  predicate OpensQuote(s: string) {
    |s| >= 1 && s[0] == '"' && FirstQuote(s[1..]) < |s| - 1
  }

  /** A match of the pattern starts at the first character of `s`. */
  predicate StartsMatch(s: string) {
    |s| >= 1 && (IsWordChar(s[0]) || OpensQuote(s))
  }

  /**
   * The longest match at the start of `s`, as the word it yields (quotes
   * removed) and the number of characters it covers.
   */
  function Chunk(s: string): (r: (string, nat))
    ensures r.1 <= |s|
    ensures StartsMatch(s) ==> r.1 >= 1
    ensures !StartsMatch(s) ==> r == ("", 0)
    decreases |s|
  {
    if s == [] then ("", 0)
    else if IsWordChar(s[0]) then
      var rest := Chunk(s[1..]);
      ([s[0]] + rest.0, rest.1 + 1)
    else if OpensQuote(s) then
      var j := FirstQuote(s[1..]);
      var rest := Chunk(s[j + 2..]);
      (s[1..j + 1] + rest.0, rest.1 + j + 2)
    else ("", 0)
  }

  /**
   * `command.match(regex)` with every `"` stripped from each match; no
   * match at all gives no words. Every match covers at least one
   * character, so a line has at most as many words as characters.
   */
  function Tokenize(s: string): (tokens: seq<string>)
    ensures |tokens| <= |s|
    decreases |s|
  {
    if s == [] then []
    else if StartsMatch(s) then
      var (word, n) := Chunk(s);
      [word] + Tokenize(s[n..])
    else
      // whitespace, or a quote that no later quote closes: no match starts here
      Tokenize(s[1..])
  }

  /** A match's word has its quotes removed. */
  lemma {:induction false} ChunkHasNoQuote(s: string)
    ensures '"' !in Chunk(s).0
    decreases |s|
  {
    if s != [] {
      if IsWordChar(s[0]) {
        ChunkHasNoQuote(s[1..]);
      } else if OpensQuote(s) {
        var j := FirstQuote(s[1..]);
        assert s[1..j + 1] == s[1..][..j];
        ChunkHasNoQuote(s[j + 2..]);
      }
    }
  }

  /** No word contains a double quote. */
  lemma {:induction false} NoQuoteInTokens(s: string)
    ensures forall i :: 0 <= i < |Tokenize(s)| ==> '"' !in Tokenize(s)[i]
    decreases |s|
  {
    if s != [] {
      if StartsMatch(s) {
        ChunkHasNoQuote(s);
        NoQuoteInTokens(s[Chunk(s).1..]);
      } else {
        NoQuoteInTokens(s[1..]);
      }
    }
  }

  /** A line of whitespace only has no words. */
  lemma {:induction false} BlankLineHasNoTokens(s: string)
    requires forall i :: 0 <= i < |s| ==> IsSpace(s[i])
    ensures Tokenize(s) == []
    decreases |s|
  {
    if s != [] {
      BlankLineHasNoTokens(s[1..]);
    }
  }

  /** A plain word: non-empty, with neither whitespace nor quotes. */
  predicate IsPlainWord(w: string) {
    |w| >= 1 && forall i :: 0 <= i < |w| ==> IsWordChar(w[i])
  }

  /** Words separated by single spaces. */
  function Spaced(words: seq<string>): string
    decreases |words|
  {
    if words == [] then ""
    else if |words| == 1 then words[0]
    else words[0] + " " + Spaced(words[1..])
  }

  /** A match that starts with a word character keeps it and goes on from the next character. */
  lemma ChunkAtWordChar(line: string)
    requires line != [] && IsWordChar(line[0])
    ensures Chunk(line) == ([line[0]] + Chunk(line[1..]).0, Chunk(line[1..]).1 + 1)
  {
  }

  /** A match that starts with a quote closed at `line[j + 1]` keeps what lies between and goes on after the closing quote. */
  lemma ChunkAtQuote(line: string, j: nat)
    requires j + 1 < |line| && line[0] == '"' && line[j + 1] == '"'
    requires '"' !in line[1..j + 1]
    ensures Chunk(line) == (line[1..j + 1] + Chunk(line[j + 2..]).0, Chunk(line[j + 2..]).1 + j + 2)
  {
    var tail := line[1..];
    assert tail[..j] == line[1..j + 1];
    FirstQuoteAt(tail, j);
    assert OpensQuote(line) && !IsWordChar(line[0]);
  }

  /** A quote with no quote before it is the first quote. */
  lemma {:induction false} FirstQuoteAt(t: string, j: nat)
    requires j < |t| && t[j] == '"' && '"' !in t[..j]
    ensures FirstQuote(t) == j
    decreases j
  {
    if j > 0 {
      assert t[..j][0] == t[0];
      assert t[1..][..j - 1] == t[..j][1..];
      FirstQuoteAt(t[1..], j - 1);
    }
  }

  /** A run of word characters is taken whole, and the match goes on with whatever follows it. */
  lemma {:induction false} ChunkOfBareRun(w: string, rest: string)
    requires forall i :: 0 <= i < |w| ==> IsWordChar(w[i])
    ensures Chunk(w + rest) == (w + Chunk(rest).0, |w| + Chunk(rest).1)
    decreases |w|
  {
    if w == [] {
      assert w + rest == rest;
      assert w + Chunk(rest).0 == Chunk(rest).0;
    } else {
      var line := w + rest;
      ChunkAtWordChar(line);
      assert line[1..] == w[1..] + rest;
      ChunkOfBareRun(w[1..], rest);
      assert [w[0]] + (w[1..] + Chunk(rest).0) == w + Chunk(rest).0;
    }
  }

  /** A bare run of word characters is matched up to the first character that is not one. */
  lemma ChunkOfPlainWord(w: string, rest: string)
    requires forall i :: 0 <= i < |w| ==> IsWordChar(w[i])
    requires rest == [] || (!IsWordChar(rest[0]) && !OpensQuote(rest))
    ensures Chunk(w + rest) == (w, |w|)
  {
    ChunkOfBareRun(w, rest);
    assert w + "" == w;
  }

  /** Plain words joined by single spaces come back as the same words. */
  lemma {:induction false} SpacedWordsRoundTrip(words: seq<string>)
    requires forall i :: 0 <= i < |words| ==> IsPlainWord(words[i])
    ensures Tokenize(Spaced(words)) == words
    decreases |words|
  {
    if |words| == 1 {
      ChunkOfPlainWord(words[0], "");
      assert words[0] + "" == words[0];
      assert Spaced(words)[|words[0]|..] == "";
    } else if |words| > 1 {
      var w := words[0];
      var tail := " " + Spaced(words[1..]);
      assert Spaced(words) == w + tail;
      ChunkOfPlainWord(w, tail);
      assert (w + tail)[|w|..] == tail;
      assert tail[1..] == Spaced(words[1..]);
      SpacedWordsRoundTrip(words[1..]);
      assert [w] + words[1..] == words;
    }
  }

  /**
   * A quoted span is taken without its quotes, and the match goes on with
   * whatever follows the closing quote.
   */
  lemma ChunkOfQuotedSpan(s: string, rest: string)
    requires '"' !in s
    ensures Chunk("\"" + s + "\"" + rest) == (s + Chunk(rest).0, |s| + 2 + Chunk(rest).1)
  {
    var line := "\"" + s + "\"" + rest;
    assert line[0] == '"' && line[|s| + 1] == '"';
    assert line[1..|s| + 1] == s;
    ChunkAtQuote(line, |s|);
    assert line[|s| + 2..] == rest;
  }

  /** A quoted span is one word, spaces and all, with its quotes removed; the words after it follow. */
  lemma QuotedSpanIsOneToken(s: string, rest: string)
    requires '"' !in s
    requires rest == [] || IsSpace(rest[0])
    ensures Tokenize("\"" + s + "\"" + rest) == [s] + Tokenize(rest)
  {
    var line := "\"" + s + "\"" + rest;
    ChunkOfQuotedSpan(s, rest);
    assert Chunk(rest) == ("", 0);
    assert s + "" == s;
    assert line[|s| + 2..] == rest;
  }

  /** A quote that no later quote closes starts no word. */
  lemma UnpairedQuoteIsSkipped(s: string)
    requires '"' !in s
    ensures Tokenize("\"" + s) == Tokenize(s)
  {
    assert ("\"" + s)[1..] == s;
  }

  /** A bare run and the quoted span touching it are one match, which goes on with whatever touches the closing quote. */
  lemma ChunkAcrossPieces(w: string, s: string, rest: string)
    requires forall i :: 0 <= i < |w| ==> IsWordChar(w[i])
    requires '"' !in s
    ensures Chunk(w + "\"" + s + "\"" + rest).0 == w + s + Chunk(rest).0
    ensures Chunk(w + "\"" + s + "\"" + rest).1 == |w| + |s| + 2 + Chunk(rest).1
  {
    var span := "\"" + s + "\"" + rest;
    assert w + "\"" + s + "\"" + rest == w + span;
    ChunkOfBareRun(w, span);
    ChunkOfQuotedSpan(s, rest);
    assert w + (s + Chunk(rest).0) == w + s + Chunk(rest).0;
  }

  /**
   * So a word and a quoted span that touch are one word: `a"b c"d` is the
   * word `ab cd`, and the words after the match follow.
   */
  lemma AdjacentPiecesJoin(w: string, s: string, rest: string)
    requires IsPlainWord(w) && '"' !in s
    ensures Tokenize(w + "\"" + s + "\"" + rest) == [w + s + Chunk(rest).0] + Tokenize(rest[Chunk(rest).1..])
  {
    var line := w + "\"" + s + "\"" + rest;
    var c := Chunk(rest);
    var n := |w| + |s| + 2 + c.1;
    assert StartsMatch(line) by { assert line[0] == w[0]; }
    ChunkAcrossPieces(w, s, rest);
    assert line[n..] == rest[c.1..];
    FirstWord(line, w + s + c.0, n, rest[c.1..]);
  }

  /** A line where a match starts yields that match's word first, then the words of what follows it. */
  lemma FirstWord(line: string, word: string, n: nat, after: string)
    requires StartsMatch(line)
    requires Chunk(line).0 == word && Chunk(line).1 == n && line[n..] == after
    ensures Tokenize(line) == [word] + Tokenize(after)
  {
  }
}
