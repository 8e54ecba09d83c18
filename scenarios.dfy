/**
 * Typical command lines and what the tokenizer makes of them: a plain
 * command, both redirections, a pipe and a background job, each stated for
 * any words of that shape. Each line is first split into its words, then
 * scanned.
 */
module Scenarios {
  import opened Stream
  import opened Tokens
  import opened Launch
  import AsyncShell

  /** Two words separated by one blank, such as `ls -la`, give back those words. */
  lemma TwoWords(c: string, a: string)
    requires IsWord(c) && IsWord(a)
    ensures Words(c + " " + a) == [c, a]
  {
    var ws := [c, a];
    assert Unwords(ws[1..]) == a;
    WordsOfUnwords(ws);
  }

  lemma ScanPlain(c: string, a: string)
    requires IsArgument(c, false) && IsArgument(a, false)
    ensures Run([c, a], START, false) == Scan(ToParams, [c, a], "", "", [], false)
  {
    var ws := [c, a];
    var st1 := START.(params := [c]);
    assert ws[1..] == [a] && [a][1..] == [];
    assert START.params + [c] == [c] && st1.params + [a] == [c, a];
    assert Run([a], st1, false) == st1.(params := [c, a]);
  }

  /** A plain command such as `ls -la`: every word is an argument and nothing is redirected. */
  lemma TokenizePlain(c: string, a: string)
    requires IsArgument(c, false) && IsArgument(a, false)
    ensures Run(Words(c + " " + a), START, false) == Scan(ToParams, [c, a], "", "", [], false)
  {
    TwoWords(c, a);
    ScanPlain(c, a);
  }

  lemma RedirectionLine(c: string, i: string, o: string)
    ensures Unwords([c, "<", i, ">", o]) == c + " < " + i + " > " + o
  {
    var ws := [c, "<", i, ">", o];
    assert Unwords(ws[4..]) == o;
    assert Unwords(ws[3..]) == ">" + " " + o;
    assert Unwords(ws[2..]) == i + " " + (">" + " " + o);
    assert Unwords(ws[1..]) == "<" + " " + (i + " " + (">" + " " + o));
    assert Unwords(ws) == c + " " + ("<" + " " + (i + " " + (">" + " " + o)));
    assert " < " == " " + "<" + " " && " > " == " " + ">" + " ";
    assert c + " < " + i + " > " + o == c + " " + ("<" + " " + (i + " " + (">" + " " + o)));
  }

  lemma RedirectionWords(c: string, i: string, o: string)
    requires IsWord(c) && IsWord(i) && IsWord(o)
    ensures Words(c + " < " + i + " > " + o) == [c, "<", i, ">", o]
  {
    RedirectionLine(c, i, o);
    WordsOfUnwords([c, "<", i, ">", o]);
  }

  lemma ScanRedirections(c: string, i: string, o: string)
    requires IsArgument(c, false)
    ensures Run([c, "<", i, ">", o], START, false) == Scan(ToParams, [c], i, o, [], false)
  {
    var st1 := START.(params := [c]);
    var st2 := st1.(inFile := i);
    var st3 := st2.(outFile := o);
    var ws := [c, "<", i, ">", o];
    assert START.params + [c] == [c];
    assert ws[1..] == ["<", i, ">", o];
    assert ws[1..][2..] == [">", o];
    assert Run([">", o], st2, false) == st3 by {
      assert KindOf(">", false) == Greater;
      assert [">", o][2..] == [];
    }
    assert Run(ws[1..], st1, false) == st3 by {
      assert KindOf("<", false) == Less;
    }
  }

  /**
   * A line such as `sort < in.txt > out.txt`: both paths are taken from the
   * words after `<` and `>`, which are not arguments.
   */
  lemma TokenizeRedirections(c: string, i: string, o: string)
    requires IsArgument(c, false) && IsWord(i) && IsWord(o)
    ensures Run(Words(c + " < " + i + " > " + o), START, false) == Scan(ToParams, [c], i, o, [], false)
  {
    RedirectionWords(c, i, o);
    ScanRedirections(c, i, o);
  }

  lemma PipeLine(c: string, d: string, a: string)
    ensures Unwords([c, "|", d, a]) == c + " | " + d + " " + a
  {
    var ws := [c, "|", d, a];
    assert Unwords(ws[3..]) == a;
    assert Unwords(ws[2..]) == d + " " + a;
    assert Unwords(ws[1..]) == "|" + " " + (d + " " + a);
    assert Unwords(ws) == c + " " + ("|" + " " + (d + " " + a));
    assert " | " == " " + "|" + " ";
    assert c + " | " + d + " " + a == c + " " + ("|" + " " + (d + " " + a));
  }

  lemma PipeWords(c: string, d: string, a: string)
    requires IsWord(c) && IsWord(d) && IsWord(a)
    ensures Words(c + " | " + d + " " + a) == [c, "|", d, a]
  {
    PipeLine(c, d, a);
    WordsOfUnwords([c, "|", d, a]);
  }

  lemma ScanPipe(c: string, d: string, a: string)
    requires IsArgument(c, false) && IsArgument(d, false) && IsArgument(a, false)
    ensures Run([c, "|", d, a], START, false) == Scan(ToPipe, [c], "", "", [d, a], false)
  {
    var st1 := START.(params := [c]);
    var st2 := st1.(dest := ToPipe);
    var st3 := st2.(pipe := [d]);
    var st4 := st3.(pipe := [d, a]);
    var ws := [c, "|", d, a];
    assert START.params + [c] == [c] && st2.pipe + [d] == [d] && st3.pipe + [a] == [d, a];
    assert ws[1..] == ["|", d, a] && ws[1..][1..] == [d, a] && ws[1..][1..][1..] == [a];
    assert KindOf("|", false) == Bar;
    assert Run([a], st3, false) == st4;
    assert Run([d, a], st2, false) == st4;
  }

  /** A line such as `ls | wc -l`: the words after `|` form the second command. */
  lemma TokenizePipe(c: string, d: string, a: string)
    requires IsArgument(c, false) && IsArgument(d, false) && IsArgument(a, false)
    ensures Run(Words(c + " | " + d + " " + a), START, false) == Scan(ToPipe, [c], "", "", [d, a], false)
  {
    PipeWords(c, d, a);
    ScanPipe(c, d, a);
  }

  lemma BackgroundLine(c: string, a: string, x: string)
    ensures Unwords([c, a, "&", x]) == c + " " + a + " & " + x
  {
    var ws := [c, a, "&", x];
    assert Unwords(ws[3..]) == x;
    assert Unwords(ws[2..]) == "&" + " " + x;
    assert Unwords(ws[1..]) == a + " " + ("&" + " " + x);
    assert Unwords(ws) == c + " " + (a + " " + ("&" + " " + x));
    assert " & " == " " + "&" + " ";
    assert c + " " + a + " & " + x == c + " " + (a + " " + ("&" + " " + x));
  }

  lemma BackgroundWords(c: string, a: string, x: string)
    requires IsWord(c) && IsWord(a) && IsWord(x)
    ensures Words(c + " " + a + " & " + x) == [c, a, "&", x]
  {
    BackgroundLine(c, a, x);
    WordsOfUnwords([c, a, "&", x]);
  }

  lemma ScanBackground(c: string, a: string, x: string)
    requires IsArgument(c, true) && IsArgument(a, true)
    ensures Run([c, a, "&", x], START, true) == Scan(ToParams, [c, a], "", "", [], true)
  {
    var st1 := START.(params := [c]);
    var st2 := st1.(params := [c, a]);
    var st3 := st2.(background := true);
    var ws := [c, a, "&", x];
    assert START.params + [c] == [c] && st1.params + [a] == [c, a];
    assert ws[1..] == [a, "&", x] && ws[1..][1..] == ["&", x] && ws[1..][1..][1..] == [x];
    assert KindOf("&", true) == Amp;
    assert Run([x], st3, true) == st3;
    assert Run(["&", x], st2, true) == st3;
  }

  /**
   * A line such as `sleep 5 & date`: `&` marks the line as a background job
   * and the words after it are dropped.
   */
  lemma TokenizeBackground(c: string, a: string, x: string)
    requires IsArgument(c, true) && IsArgument(a, true) && IsWord(x)
    ensures Run(Words(c + " " + a + " & " + x), START, true) == Scan(ToParams, [c, a], "", "", [], true)
  {
    BackgroundWords(c, a, x);
    ScanBackground(c, a, x);
  }

  lemma SleepLine(d: string)
    ensures Unwords(["sleep", d, "&"]) == "sleep " + d + " &"
  {
    var ws := ["sleep", d, "&"];
    assert Unwords(ws[2..]) == "&";
    assert Unwords(ws[1..]) == d + " &";
  }

  lemma ScanSleep(d: string)
    requires IsArgument(d, true)
    ensures Run(["sleep", d, "&"], START, true) == Scan(ToParams, ["sleep", d], "", "", [], true)
  {
    var ws := ["sleep", d, "&"];
    var st1 := START.(params := ["sleep"]);
    var st2 := st1.(params := ["sleep", d]);
    var st3 := st2.(background := true);
    assert ws[1..] == [d, "&"] && ws[1..][1..] == ["&"] && ws[1..][1..][1..] == [];
    assert KindOf("sleep", true) == Plain && KindOf("&", true) == Amp;
    assert Run(["&"], st2, true) == st3;
    assert START.params + ["sleep"] == ["sleep"] && st1.params + [d] == ["sleep", d];
    assert Run([d, "&"], st1, true) == st3;
  }

  /** A background `sleep d` starts one process and one watcher for it. */
  lemma BackgroundSleep(d: string, pid1: int, pid2: int)
    requires IsArgument(d, true)
    ensures Interpret("sleep " + d + " &", true) == Start([Process("sleep", ["sleep", d], Inherited, Inherited)], true)
    ensures AsyncShell.NewWatchers("sleep " + d + " &", pid1, pid2) == [AsyncShell.TParHCP(pid1, "sleep")]
  {
    SleepLine(d);
    WordsOfUnwords(["sleep", d, "&"]);
    ScanSleep(d);
    assert Processes("sleep", ["sleep", d], "", "", []) == [Process("sleep", ["sleep", d], Inherited, Inherited)];
  }

  /** An empty line starts nothing and no watcher. */
  lemma EmptyLine()
    ensures Interpret("", true) == Nothing
    ensures AsyncShell.NewWatchers("", 0, 0) == []
  {
    assert Words("") == [];
  }

  /** A turn of the prompt loop on `sleep d &` adds one watcher for pid and leaves no notice pending. */
  method StartSleep(sh: AsyncShell.FcSh, d: string, pid: int)
    requires sh.Valid() && IsArgument(d, true)
    modifies sh
    ensures sh.Valid()
    ensures sh.watchers == old(sh.watchers) + [AsyncShell.TParHCP(pid, "sleep")]
    ensures sh.mensajesPendientes == []
  {
    BackgroundSleep(d, pid, 0);
    var salir, shown, numero, asincronos, started := sh.Turn("sleep " + d + " &", pid, 0);
  }

  /**
   * Two background jobs whose notices both arrive before the next prompt:
   * the drain shows the notice of the job that finished last first, and the
   * count on that prompt is back to zero.
   */
  method TwoBackgroundJobs(d1: string, d2: string, pid1: int, pid2: int, cod1: int, cod2: int)
    returns (shown: seq<string>, asincronos: int)
    requires IsArgument(d1, true) && IsArgument(d2, true)
    ensures shown == [AsyncShell.Mensaje("sleep", pid1, cod1), AsyncShell.Mensaje("sleep", pid2, cod2)]
    ensures asincronos == 0
  {
    var sh := new AsyncShell.FcSh();
    StartSleep(sh, d1, pid1);
    StartSleep(sh, d2, pid2);
    assert sh.watchers == [AsyncShell.TParHCP(pid1, "sleep"), AsyncShell.TParHCP(pid2, "sleep")];
    sh.CodigoHilo(1, cod2);
    var m2 := AsyncShell.Mensaje("sleep", pid2, cod2);
    assert sh.mensajesPendientes == [m2] && sh.watchers == [AsyncShell.TParHCP(pid1, "sleep")];
    sh.CodigoHilo(0, cod1);
    var m1 := AsyncShell.Mensaje("sleep", pid1, cod1);
    assert sh.mensajesPendientes == [m2, m1] && sh.watchers == [];
    AsyncShell.LastPushedFirst([m2], m1);
    assert AsyncShell.Reverse([m2]) == [m2];
    EmptyLine();
    var salir, numero, started;
    salir, shown, numero, asincronos, started := sh.Turn("", 0, 0);
  }
}
