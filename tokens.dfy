/**
 * What the shell's line tokenizer computes, stated on the list of words the
 * stream delivers. Both interpreters classify a word by its first character:
 * `<` and `>` take the following word as the input or output file, `|`
 * sends every later plain word to the second command, and (only when `amp`
 * holds, as in the background-capable interpreter) `&` marks the line as a
 * background job and ends the scan. Every other word is a plain argument.
 */
module Tokens {

  datatype Kind = Less | Greater | Bar | Amp | Plain

  /**
   * The `switch (Elemento[0])` of the tokenizer. The empty word, which the
   * stream never delivers, reads its terminating NUL and so falls to the
   * default case.
   */
  function KindOf(w: string, amp: bool): (k: Kind)
    ensures k == Amp ==> amp
  {
    if |w| == 0 then Plain
    else if w[0] == '<' then Less
    else if w[0] == '>' then Greater
    else if w[0] == '|' then Bar
    else if amp && w[0] == '&' then Amp
    else Plain
  }

  /** Which vector `Destino` points at. */
  datatype Target = ToParams | ToPipe

  /** The variables the tokenizer updates: `Destino` and its reference parameters. */
  datatype Scan = Scan(
    dest: Target,
    params: seq<string>,
    inFile: string,
    outFile: string,
    pipe: seq<string>,
    background: bool)

  /** The state on entry, as the prompt loop calls the tokenizer. */
  const START := Scan(ToParams, [], "", "", [], false)

  /**
   * One pass of the scanning loop over the words ws from state st. A `<` or
   * `>` with no word after it leaves the path as it was, and the failed
   * extraction ends the loop.
   */
  function Run(ws: seq<string>, st: Scan, amp: bool): (r: Scan)
    ensures st.params <= r.params && st.pipe <= r.pipe
    ensures r.background ==> st.background || amp
    decreases |ws|
  {
    if st.background || ws == [] then st
    else match KindOf(ws[0], amp)
      case Less => if |ws| == 1 then st else Run(ws[2..], st.(inFile := ws[1]), amp)
      case Greater => if |ws| == 1 then st else Run(ws[2..], st.(outFile := ws[1]), amp)
      case Bar => Run(ws[1..], st.(dest := ToPipe), amp)
      case Amp => Run(ws[1..], st.(background := true), amp)
      case Plain =>
        if st.dest == ToParams then Run(ws[1..], st.(params := st.params + [ws[0]]), amp)
        else Run(ws[1..], st.(pipe := st.pipe + [ws[0]]), amp)
  }

  /** What each word, or pair of words, of a line means to the scanner. */
  datatype Piece = Arg(word: string) | InPath(path: string) | OutPath(path: string) | PipeMark | BackgroundMark

  /** The line read as pieces, left to right, up to where the scan stops. */
  function Pieces(ws: seq<string>, amp: bool): seq<Piece>
    decreases |ws|
  {
    if ws == [] then []
    else match KindOf(ws[0], amp)
      case Less => if |ws| == 1 then [] else [InPath(ws[1])] + Pieces(ws[2..], amp)
      case Greater => if |ws| == 1 then [] else [OutPath(ws[1])] + Pieces(ws[2..], amp)
      case Bar => [PipeMark] + Pieces(ws[1..], amp)
      case Amp => [BackgroundMark]
      case Plain => [Arg(ws[0])] + Pieces(ws[1..], amp)
  }

  /** The words of the argument pieces, in order. */
  function Args(ps: seq<Piece>): seq<string>
  {
    if ps == [] then []
    else if ps[0].Arg? then [ps[0].word] + Args(ps[1..])
    else Args(ps[1..])
  }

  /** The pieces before the first pipe mark (all of them if there is none). */
  function BeforePipe(ps: seq<Piece>): seq<Piece>
  {
    if ps == [] || ps[0] == PipeMark then [] else [ps[0]] + BeforePipe(ps[1..])
  }

  /** The pieces after the first pipe mark (none if there is none). */
  function AfterPipe(ps: seq<Piece>): seq<Piece>
  {
    if ps == [] then []
    else if ps[0] == PipeMark then ps[1..]
    else AfterPipe(ps[1..])
  }

  /** The path of the last input redirection, or d if there is none. */
  function LastIn(ps: seq<Piece>, d: string): string
  {
    if ps == [] then d else LastIn(ps[1..], if ps[0].InPath? then ps[0].path else d)
  }

  /** The path of the last output redirection, or d if there is none. */
  function LastOut(ps: seq<Piece>, d: string): string
  {
    if ps == [] then d else LastOut(ps[1..], if ps[0].OutPath? then ps[0].path else d)
  }

  /**
   * The scanner's result described by the pieces of the line: plain words
   * before the first `|` go to the first vector and all later ones to the
   * second, each path is the last one given, and the background flag is
   * set exactly when an `&` was reached. Stated from any state that has not
   * yet stopped, so that the destination may already be the second vector.
   */
  ghost predicate ByPieces(ws: seq<string>, st: Scan, amp: bool)
  {
    var ps, r := Pieces(ws, amp), Run(ws, st, amp);
    && r.params == st.params + (if st.dest == ToParams then Args(BeforePipe(ps)) else [])
    && r.pipe == st.pipe + (if st.dest == ToParams then Args(AfterPipe(ps)) else Args(ps))
    && r.inFile == LastIn(ps, st.inFile)
    && r.outFile == LastOut(ps, st.outFile)
    && r.background == (BackgroundMark in ps)
    && r.dest == (if PipeMark in ps then ToPipe else st.dest)
  }

  lemma {:induction false} RunByPieces(ws: seq<string>, st: Scan, amp: bool)
    requires !st.background
    ensures ByPieces(ws, st, amp)
    decreases |ws|, 1
  {
    if ws == [] {
      assert st.params + [] == st.params && st.pipe + [] == st.pipe;
    } else {
      match KindOf(ws[0], amp)
      case Less => RunLessByPieces(ws, st, amp);
      case Greater => RunGreaterByPieces(ws, st, amp);
      case Bar => RunBarByPieces(ws, st, amp);
      case Amp =>
        assert Pieces(ws, amp) == [BackgroundMark];
        assert st.params + [] == st.params && st.pipe + [] == st.pipe;
      case Plain => RunPlainByPieces(ws, st, amp);
    }
  }

  lemma {:induction false} RunLessByPieces(ws: seq<string>, st: Scan, amp: bool)
    requires ws != [] && KindOf(ws[0], amp) == Less && !st.background
    ensures ByPieces(ws, st, amp)
    decreases |ws|, 0
  {
    if |ws| == 1 {
      assert st.params + [] == st.params && st.pipe + [] == st.pipe;
    } else {
      RunByPieces(ws[2..], st.(inFile := ws[1]), amp);
      assert Pieces(ws, amp)[1..] == Pieces(ws[2..], amp);
    }
  }

  lemma {:induction false} RunGreaterByPieces(ws: seq<string>, st: Scan, amp: bool)
    requires ws != [] && KindOf(ws[0], amp) == Greater && !st.background
    ensures ByPieces(ws, st, amp)
    decreases |ws|, 0
  {
    if |ws| == 1 {
      assert st.params + [] == st.params && st.pipe + [] == st.pipe;
    } else {
      RunByPieces(ws[2..], st.(outFile := ws[1]), amp);
      assert Pieces(ws, amp)[1..] == Pieces(ws[2..], amp);
    }
  }

  lemma {:induction false} RunBarByPieces(ws: seq<string>, st: Scan, amp: bool)
    requires ws != [] && KindOf(ws[0], amp) == Bar && !st.background
    ensures ByPieces(ws, st, amp)
    decreases |ws|, 0
  {
    var ps := Pieces(ws, amp);
    RunByPieces(ws[1..], st.(dest := ToPipe), amp);
    assert ps[1..] == Pieces(ws[1..], amp);
    if st.dest == ToPipe {
      assert Args(ps) == Args(ps[1..]);
    } else {
      assert st.params + [] == st.params;
    }
  }

  lemma {:induction false} RunPlainByPieces(ws: seq<string>, st: Scan, amp: bool)
    requires ws != [] && KindOf(ws[0], amp) == Plain && !st.background
    ensures ByPieces(ws, st, amp)
    decreases |ws|, 0
  {
    var w, ps, rest := ws[0], Pieces(ws, amp), Pieces(ws[1..], amp);
    assert ps == [Arg(w)] + rest;
    assert ps[1..] == rest;
    assert LastIn(ps, st.inFile) == LastIn(rest, st.inFile);
    assert LastOut(ps, st.outFile) == LastOut(rest, st.outFile);
    assert (BackgroundMark in ps) == (BackgroundMark in rest);
    assert (PipeMark in ps) == (PipeMark in rest);
    if st.dest == ToParams {
      var st' := st.(params := st.params + [w]);
      RunByPieces(ws[1..], st', amp);
      assert Run(ws, st, amp) == Run(ws[1..], st', amp);
      assert Args(BeforePipe(ps)) == [w] + Args(BeforePipe(rest));
      assert AfterPipe(ps) == AfterPipe(rest);
      assert st.params + [w] + Args(BeforePipe(rest)) == st.params + Args(BeforePipe(ps));
    } else {
      var st' := st.(pipe := st.pipe + [w]);
      RunByPieces(ws[1..], st', amp);
      assert Run(ws, st, amp) == Run(ws[1..], st', amp);
      assert Args(ps) == [w] + Args(rest);
      assert st.pipe + [w] + Args(rest) == st.pipe + Args(ps);
    }
  }

  /** The tokenizer's result from its entry state, in terms of the pieces. */
  lemma Analysis(ws: seq<string>, amp: bool)
    ensures var ps, r := Pieces(ws, amp), Run(ws, START, amp);
      && r.params == Args(BeforePipe(ps))
      && r.pipe == Args(AfterPipe(ps))
      && r.inFile == LastIn(ps, "")
      && r.outFile == LastOut(ps, "")
      && r.background == (BackgroundMark in ps)
  {
    RunByPieces(ws, START, amp);
  }

  /** Once `|` has been seen the destination never switches back. */
  lemma NoSwitchBack(ws: seq<string>, st: Scan, amp: bool)
    requires st.dest == ToPipe
    ensures Run(ws, st, amp).dest == ToPipe
    ensures Run(ws, st, amp).params == st.params
  {
    if !st.background {
      RunByPieces(ws, st, amp);
    }
  }

  /** Splitting at the first pipe mark loses no argument and reorders none. */
  lemma {:induction false} ArgsAroundPipe(ps: seq<Piece>)
    ensures Args(BeforePipe(ps)) + Args(AfterPipe(ps)) == Args(ps)
    decreases |ps|
  {
    if ps == [] {
    } else if ps[0] == PipeMark {
      assert Args(ps) == Args(ps[1..]);
    } else {
      ArgsAroundPipe(ps[1..]);
      if ps[0].Arg? {
        assert [ps[0].word] + Args(BeforePipe(ps[1..])) + Args(AfterPipe(ps[1..])) == [ps[0].word] + Args(ps[1..]);
      }
    }
  }

  /** a occurs in b in the same order, possibly with other elements between. */
  predicate IsSubsequence<T(==)>(a: seq<T>, b: seq<T>)
    decreases |b|
  {
    a == [] || (b != [] && ((a[0] == b[0] && IsSubsequence(a[1..], b[1..])) || IsSubsequence(a, b[1..])))
  }

  /**
   * Every argument is a word of the line, classified as plain, and the
   * arguments appear in the order of the line.
   */
  lemma {:induction false} ArgsFromLine(ws: seq<string>, amp: bool)
    ensures forall x :: x in Args(Pieces(ws, amp)) ==> x in ws && KindOf(x, amp) == Plain
    ensures IsSubsequence(Args(Pieces(ws, amp)), ws)
    decreases |ws|
  {
    var a := Args(Pieces(ws, amp));
    if ws != [] {
      match KindOf(ws[0], amp)
      case Less =>
        if |ws| > 1 {
          ArgsFromLine(ws[2..], amp);
          assert ws[1..][1..] == ws[2..];
          assert a == [] || IsSubsequence(a, ws[1..]);
        }
      case Greater =>
        if |ws| > 1 {
          ArgsFromLine(ws[2..], amp);
          assert ws[1..][1..] == ws[2..];
          assert a == [] || IsSubsequence(a, ws[1..]);
        }
      case Bar =>
        ArgsFromLine(ws[1..], amp);
      case Amp =>
      case Plain =>
        ArgsFromLine(ws[1..], amp);
        assert a[1..] == Args(Pieces(ws[1..], amp));
    }
  }

  /** With `last` the index of the last input redirection, its path is the one kept. */
  lemma {:induction false} LastInWins(ps: seq<Piece>, d: string, last: nat)
    requires last < |ps| && ps[last].InPath?
    requires forall j :: last < j < |ps| ==> !ps[j].InPath?
    ensures LastIn(ps, d) == ps[last].path
    decreases |ps|
  {
    if last == 0 {
      LastInNone(ps[1..], ps[0].path);
    } else {
      LastInWins(ps[1..], if ps[0].InPath? then ps[0].path else d, last - 1);
    }
  }

  /** Without any input redirection the path keeps its previous value. */
  lemma {:induction false} LastInNone(ps: seq<Piece>, d: string)
    requires forall j :: 0 <= j < |ps| ==> !ps[j].InPath?
    ensures LastIn(ps, d) == d
    decreases |ps|
  {
    if ps != [] {
      LastInNone(ps[1..], d);
    }
  }

  /** With `last` the index of the last output redirection, its path is the one kept. */
  lemma {:induction false} LastOutWins(ps: seq<Piece>, d: string, last: nat)
    requires last < |ps| && ps[last].OutPath?
    requires forall j :: last < j < |ps| ==> !ps[j].OutPath?
    ensures LastOut(ps, d) == ps[last].path
    decreases |ps|
  {
    if last == 0 {
      LastOutNone(ps[1..], ps[0].path);
    } else {
      LastOutWins(ps[1..], if ps[0].OutPath? then ps[0].path else d, last - 1);
    }
  }

  /** Without any output redirection the path keeps its previous value. */
  lemma {:induction false} LastOutNone(ps: seq<Piece>, d: string)
    requires forall j :: 0 <= j < |ps| ==> !ps[j].OutPath?
    ensures LastOut(ps, d) == d
    decreases |ps|
  {
    if ps != [] {
      LastOutNone(ps[1..], d);
    }
  }

  /**
   * Once the background flag is set the scan is over: whatever words
   * follow change nothing.
   */
  lemma {:induction false} NothingAfterBackground(ws: seq<string>, rest: seq<string>, st: Scan, amp: bool)
    requires Run(ws, st, amp).background
    ensures Run(ws + rest, st, amp) == Run(ws, st, amp)
    decreases |ws|
  {
    if !st.background {
      assert ws != [];
      var all := ws + rest;
      assert all[0] == ws[0];
      match KindOf(ws[0], amp)
      case Less =>
        assert all[2..] == ws[2..] + rest;
        NothingAfterBackground(ws[2..], rest, st.(inFile := ws[1]), amp);
      case Greater =>
        assert all[2..] == ws[2..] + rest;
        NothingAfterBackground(ws[2..], rest, st.(outFile := ws[1]), amp);
      case Bar =>
        assert all[1..] == ws[1..] + rest;
        NothingAfterBackground(ws[1..], rest, st.(dest := ToPipe), amp);
      case Amp =>
      case Plain =>
        assert all[1..] == ws[1..] + rest;
        if st.dest == ToParams {
          NothingAfterBackground(ws[1..], rest, st.(params := st.params + [ws[0]]), amp);
        } else {
          NothingAfterBackground(ws[1..], rest, st.(pipe := st.pipe + [ws[0]]), amp);
        }
    }
  }

  /** Without `&` recognition no piece marks the background. */
  lemma {:induction false} NoBackgroundMark(ws: seq<string>)
    ensures BackgroundMark !in Pieces(ws, false)
    decreases |ws|
  {
    if ws != [] {
      match KindOf(ws[0], false)
      case Less => if |ws| > 1 { NoBackgroundMark(ws[2..]); }
      case Greater => if |ws| > 1 { NoBackgroundMark(ws[2..]); }
      case Bar => NoBackgroundMark(ws[1..]);
      case Plain => NoBackgroundMark(ws[1..]);
    }
  }
}
