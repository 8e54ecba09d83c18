/**
 * Word extraction from a string stream: what `stringstream Entrada(Comando)`
 * followed by repeated `Entrada >> Elemento` does in the shell's tokenizer.
 * `>>` on a string skips leading white space and then reads characters up
 * to the next white space or to the end of the text; when nothing is left
 * the extraction fails and leaves its target untouched.
 */
module Stream {

  /** White space as the "C" locale's isspace classifies it. */
  predicate IsSpace(c: char)
  {
    c == ' ' || '\t' <= c <= '\r'
  }

  /** A word as `>>` delivers it: at least one character, no white space. */
  predicate IsWord(w: string)
  {
    |w| > 0 && forall k :: 0 <= k < |w| ==> !IsSpace(w[k])
  }

  /** Length of the longest white-space-free prefix of s. */
  function WordLen(s: string): (n: nat)
    ensures n <= |s|
    ensures forall k :: 0 <= k < n ==> !IsSpace(s[k])
    ensures n < |s| ==> IsSpace(s[n])
  {
    if s == [] || IsSpace(s[0]) then 0 else 1 + WordLen(s[1..])
  }

  /** The words that successive extractions deliver from s, in order. */
  function Words(s: string): (ws: seq<string>)
    ensures forall i :: 0 <= i < |ws| ==> IsWord(ws[i])
    decreases |s|
  {
    if s == [] then []
    else if IsSpace(s[0]) then Words(s[1..])
    else
      var n := WordLen(s);
      [s[..n]] + Words(s[n..])
  }

  /** The characters of s that are not white space, in order. */
  function NonSpace(s: string): string
  {
    if s == [] then []
    else if IsSpace(s[0]) then NonSpace(s[1..])
    else [s[0]] + NonSpace(s[1..])
  }

  function Concat(ws: seq<string>): string
  {
    if ws == [] then [] else ws[0] + Concat(ws[1..])
  }

  /** The words separated by single spaces. */
  function Unwords(ws: seq<string>): string
  {
    if ws == [] then []
    else if |ws| == 1 then ws[0]
    else ws[0] + " " + Unwords(ws[1..])
  }

  lemma {:induction false} NonSpaceAppend(a: string, b: string)
    ensures NonSpace(a + b) == NonSpace(a) + NonSpace(b)
    decreases |a|
  {
    if a != [] {
      assert (a + b)[0] == a[0] && (a + b)[1..] == a[1..] + b;
      NonSpaceAppend(a[1..], b);
      if !IsSpace(a[0]) {
        assert [a[0]] + (NonSpace(a[1..]) + NonSpace(b)) == ([a[0]] + NonSpace(a[1..])) + NonSpace(b);
      }
    } else {
      assert a + b == b;
    }
  }

  lemma {:induction false} NonSpaceOfWordChars(a: string)
    requires forall k :: 0 <= k < |a| ==> !IsSpace(a[k])
    ensures NonSpace(a) == a
    decreases |a|
  {
    if a != [] {
      NonSpaceOfWordChars(a[1..]);
    }
  }

  /**
   * Splitting loses nothing but white space: the words, glued together,
   * are exactly the non-white-space characters of the text.
   */
  lemma {:induction false} WordsKeepAllText(s: string)
    ensures Concat(Words(s)) == NonSpace(s)
    decreases |s|
  {
    if s == [] {
    } else if IsSpace(s[0]) {
      WordsKeepAllText(s[1..]);
    } else {
      var n := WordLen(s);
      WordsKeepAllText(s[n..]);
      assert s == s[..n] + s[n..];
      NonSpaceAppend(s[..n], s[n..]);
      NonSpaceOfWordChars(s[..n]);
      assert Words(s)[1..] == Words(s[n..]);
    }
  }

  lemma {:induction false} WordLenIs(s: string, n: nat)
    requires n <= |s|
    requires forall k :: 0 <= k < n ==> !IsSpace(s[k])
    requires n == |s| || IsSpace(s[n])
    ensures WordLen(s) == n
    decreases n
  {
    if n > 0 {
      WordLenIs(s[1..], n - 1);
    }
  }

  /** A word followed by nothing or by white space is extracted whole. */
  lemma WordAt(s: string, n: nat)
    requires 0 < n <= |s|
    requires forall k :: 0 <= k < n ==> !IsSpace(s[k])
    requires n == |s| || IsSpace(s[n])
    ensures Words(s) == [s[..n]] + Words(s[n..])
  {
    WordLenIs(s, n);
  }

  lemma WordThenRest(w: string, rest: string)
    requires IsWord(w)
    requires rest == [] || IsSpace(rest[0])
    ensures Words(w + rest) == [w] + Words(rest)
  {
    var s := w + rest;
    assert s[..|w|] == w && s[|w|..] == rest;
    WordAt(s, |w|);
  }

  /** Joining words with spaces and splitting again gives the words back. */
  lemma {:induction false} WordsOfUnwords(ws: seq<string>)
    requires forall i :: 0 <= i < |ws| ==> IsWord(ws[i])
    ensures Words(Unwords(ws)) == ws
    decreases |ws|
  {
    if |ws| == 1 {
      WordThenRest(ws[0], []);
      assert ws[0] + [] == ws[0];
    } else if |ws| > 1 {
      var tail := " " + Unwords(ws[1..]);
      assert Unwords(ws) == ws[0] + tail;
      WordThenRest(ws[0], tail);
      assert tail[1..] == Unwords(ws[1..]);
      WordsOfUnwords(ws[1..]);
    }
  }

  /** Leading white space delivers no word. */
  lemma SkipSpace(t: string, p: nat)
    requires p < |t| && IsSpace(t[p])
    ensures Words(t[p..]) == Words(t[p + 1..])
  {
    assert t[p..][1..] == t[p + 1..];
  }

  /** A maximal run of non-white-space characters from `start` to `p` is the next word. */
  lemma TakeWord(t: string, start: nat, p: nat)
    requires start < p <= |t|
    requires forall k :: start <= k < p ==> !IsSpace(t[k])
    requires p == |t| || IsSpace(t[p])
    ensures Words(t[start..]) == [t[start..p]] + Words(t[p..])
  {
    var s := t[start..];
    assert s[..p - start] == t[start..p];
    assert s[p - start..] == t[p..];
    WordAt(s, p - start);
  }

  /**
   * The stream over one line of text. `pos` is the read position; the
   * words still to be delivered are those of the unread rest of the text.
   */
  class WordStream {
    const text: string
    var pos: nat

    ghost predicate Valid()
      reads this
    {
      pos <= |text|
    }

    function Remaining(): seq<string>
      reads this
      requires Valid()
    {
      Words(text[pos..])
    }

    constructor (s: string)
      ensures Valid() && text == s && pos == 0
      ensures Remaining() == Words(s)
    {
      text, pos := s, 0;
    }

    /**
     * `Entrada >> w`: succeeds exactly when a word is left, delivers the
     * next one and moves past it; on failure nothing is left to read.
     */
    method Extract() returns (ok: bool, w: string)
      requires Valid()
      modifies this
      ensures Valid()
      ensures ok == (old(Remaining()) != [])
      ensures ok ==> w == old(Remaining())[0] && Remaining() == old(Remaining())[1..]
      ensures !ok ==> Remaining() == []
    {
      var p := pos;
      while p < |text| && IsSpace(text[p])
        invariant pos <= p <= |text|
        invariant Words(text[p..]) == old(Remaining())
      {
        SkipSpace(text, p);
        p := p + 1;
      }
      if p == |text| {
        pos := p;
        return false, "";
      }
      var start := p;
      while p < |text| && !IsSpace(text[p])
        invariant start < |text| && !IsSpace(text[start])
        invariant start <= p <= |text|
        invariant forall k :: start <= k < p ==> !IsSpace(text[k])
      {
        p := p + 1;
      }
      TakeWord(text, start, p);
      ok, w := true, text[start..p];
      pos := p;
    }
  }
}
