/**
 * The background-capable interpreter of async/fcsh.cpp. Besides what the
 * foreground interpreter does, a line ending in `&` starts its processes
 * without waiting; one watcher per such process waits for it and pushes a
 * completion notice onto the shared stack of pending notices, and every
 * turn of the prompt loop first pops and shows all pending notices.
 *
 * Watchers run concurrently with the prompt loop, but each touches the
 * shared stack only inside the semaphore's Wait/Signal, and the loop drains
 * it likewise. Each such critical section is one atomic step here: a
 * watcher finishing is the method `CodigoHilo`, which the environment may
 * run between two turns of the loop.
 */
module AsyncShell {
  import opened Stream
  import opened Tokens
  import opened Launch
  import opened Numerals

  /**
   * What a watcher is given: the pid to wait for and the command name to
   * report. The semaphore and the stack it also points to are the shell's
   * own fields here.
   */
  datatype TParHCP = TParHCP(pid: int, comando: string)

  const ENDED := ") finalizado con código de salida "

  /** The completion notice a watcher composes. */
  function Mensaje(comando: string, pid: int, codSalida: int): string
  {
    "Proceso " + (comando + (" (pid:" + (IntText(pid) + (ENDED + IntText(codSalida)))))
  }

  /** Index of the first occurrence of ch in s, or |s| when there is none. */
  function CharIndex(s: string, ch: char): (n: nat)
    ensures n <= |s|
    ensures forall k :: 0 <= k < n ==> s[k] != ch
    ensures n < |s| ==> s[n] == ch
  {
    if s == [] || s[0] == ch then 0 else 1 + CharIndex(s[1..], ch)
  }

  lemma {:induction false} CharIndexIs(s: string, ch: char, n: nat)
    requires n <= |s|
    requires forall k :: 0 <= k < n ==> s[k] != ch
    requires n == |s| || s[n] == ch
    ensures CharIndex(s, ch) == n
    decreases n
  {
    if n > 0 {
      CharIndexIs(s[1..], ch, n - 1);
    }
  }

  /**
   * Reads the tail of a notice, after "(pid:", back into the pid and the
   * exit code, or None when it does not have that form.
   */
  function ParseNoticeTail(v: string): Option<(int, int)>
  {
    var k := CharIndex(v, ')');
    var w := v[k..];
    if |w| < |ENDED| || w[..|ENDED|] != ENDED then None
    else
      match (ParseInt(v[..k]), ParseInt(w[|ENDED|..]))
      case (Some(pid), Some(cod)) => Some((pid, cod))
      case _ => None
  }

  /**
   * Reads a completion notice back into the command, the pid and the exit
   * code, or None when the text is not a notice with a one-word command.
   */
  function ParseNotice(m: string): Option<(string, int, int)>
  {
    if |m| < 8 || m[..8] != "Proceso " then None
    else
      var t := m[8..];
      var n := WordLen(t);
      var u := t[n..];
      if n == 0 || |u| < 6 || u[..6] != " (pid:" then None
      else
        match ParseNoticeTail(u[6..])
        case Some((pid, cod)) => Some((t[..n], pid, cod))
        case None => None
  }

  lemma NoParenInIntText(i: int)
    ensures forall k :: 0 <= k < |IntText(i)| ==> IntText(i)[k] != ')'
  {
    if i < 0 {
      assert forall k :: 1 <= k < |IntText(i)| ==> IntText(i)[k] == NatText(-i)[k - 1];
    }
  }

  lemma SplitAt(a: string, b: string)
    ensures (a + b)[..|a|] == a && (a + b)[|a|..] == b
  {
  }

  /**
   * A notice for a one-word command is read back into exactly the command,
   * pid and exit code it was made from; so distinct watchers' notices are
   * distinct texts.
   */
  lemma ReadBackMensaje(comando: string, pid: int, codSalida: int)
    requires IsWord(comando)
    ensures ParseNotice(Mensaje(comando, pid, codSalida)) == Some((comando, pid, codSalida))
  {
    var v := IntText(pid) + (ENDED + IntText(codSalida));
    ReadBackNoticeTail(pid, codSalida);
    var u := " (pid:" + v;
    SplitAt(" (pid:", v);
    var t := comando + u;
    SplitAt(comando, u);
    WordLenIs(t, |comando|);
    var m := "Proceso " + t;
    SplitAt("Proceso ", t);
    assert m == Mensaje(comando, pid, codSalida);
  }

  /** The tail of a notice reads back into its pid and exit code. */
  lemma ReadBackNoticeTail(pid: int, codSalida: int)
    ensures ParseNoticeTail(IntText(pid) + (ENDED + IntText(codSalida))) == Some((pid, codSalida))
  {
    var p, s := IntText(pid), IntText(codSalida);
    var w := ENDED + s;
    SplitAt(ENDED, s);
    var v := p + w;
    SplitAt(p, w);
    NoParenInIntText(pid);
    assert ENDED[0] == ')';
    assert v[|p|] == w[0] == ENDED[0];
    assert forall k :: 0 <= k < |p| ==> v[k] == p[k];
    CharIndexIs(v, ')', |p|);
    ParseIntText(pid);
    ParseIntText(codSalida);
  }

  /** The pending notices in the order the drain shows them: top of the stack first. */
  function Reverse(s: seq<string>): seq<string>
  {
    if s == [] then [] else Reverse(s[1..]) + [s[0]]
  }

  /** The notice pushed last is shown first, ahead of all earlier ones. */
  lemma {:induction false} LastPushedFirst(s: seq<string>, m: string)
    ensures Reverse(s + [m]) == [m] + Reverse(s)
    decreases |s|
  {
    if s == [] {
      assert s + [m] == [m];
    } else {
      assert (s + [m])[1..] == s[1..] + [m];
      LastPushedFirst(s[1..], m);
    }
  }

  /** Draining shows every pending notice exactly once. */
  lemma {:induction false} DrainShowsAll(s: seq<string>)
    ensures multiset(Reverse(s)) == multiset(s)
    decreases |s|
  {
    if s != [] {
      DrainShowsAll(s[1..]);
      assert s == [s[0]] + s[1..];
    }
  }

  /** The watchers a line starts: one per process, when it runs in the background. */
  function NewWatchers(linea: string, pid1: int, pid2: int): seq<TParHCP>
  {
    var o := Interpret(linea, true);
    if !o.Start? || !o.background then []
    else if |o.procs| == 2 then [TParHCP(pid1, o.procs[0].program), TParHCP(pid2, o.procs[1].program)]
    else if |o.procs| == 1 then [TParHCP(pid1, o.procs[0].program)]
    else []
  }

  /** What happens to the interpreter between two reads of the counters. */
  datatype Event =
    | Line(text: string, pid1: int, pid2: int)  // a line is read; forks return these pids
    | Finish(watcher: nat, codSalida: int)          // watcher number `watcher` sees its process end

  function LinesRead(es: seq<Event>): nat
  {
    if es == [] then 0 else LinesRead(es[..|es| - 1]) + (if es[|es| - 1].Line? then 1 else 0)
  }

  predicate IsExit(e: Event)
  {
    e.Line? && Interpret(e.text, true).Exit?
  }

  /** The interpreter's state as a value: both counters, the notice stack and the waiting watchers. */
  datatype State = State(nComando: int, nAsincronos: int, pending: seq<string>, watchers: seq<TParHCP>)

  /** The outstanding-job count is the number of watchers waiting plus the notices pending. */
  predicate Balanced(s: State)
  {
    s.nAsincronos == |s.watchers| + |s.pending|
  }

  /**
   * What one event does to the state. A line drains the stack, decrementing
   * the count once per notice, shows the next prompt and counts one per
   * background process it starts; a finishing watcher pushes its notice and
   * stops waiting. A finish for a watcher that does not exist changes nothing.
   */
  function Step(s: State, e: Event): State
  {
    match e
    case Line(text, pid1, pid2) =>
      var nuevos := NewWatchers(text, pid1, pid2);
      State(s.nComando + 1, s.nAsincronos - |s.pending| + |nuevos|, [], s.watchers + nuevos)
    case Finish(k, codSalida) =>
      if k < |s.watchers| then
        State(s.nComando, s.nAsincronos,
               s.pending + [Mensaje(s.watchers[k].comando, s.watchers[k].pid, codSalida)],
               s.watchers[..k] + s.watchers[k + 1..])
      else s
  }

  /** The state after a run of events, in order. */
  function Steps(s: State, es: seq<Event>): State
  {
    if es == [] then s else Step(Steps(s, es[..|es| - 1]), es[|es| - 1])
  }

  /** The notices shown by a run of events: each line shows the stack as it stands, top first. */
  function Shown(s: State, es: seq<Event>): seq<string>
  {
    if es == [] then []
    else
      var antes := es[..|es| - 1];
      Shown(s, antes) + (if es[|es| - 1].Line? then Reverse(Steps(s, antes).pending) else [])
  }

  /** The processes one event starts. */
  function StartedBy(e: Event): seq<Process>
  {
    if e.Line? then Started(e.text, true) else []
  }

  /** The processes started by a run of events, in order. */
  function StartedByEvents(es: seq<Event>): seq<Process>
  {
    if es == [] then [] else StartedByEvents(es[..|es| - 1]) + StartedBy(es[|es| - 1])
  }

  /** What the prompt loop keeps from one event to the next. */
  lemma OneMoreEvent(inicio: State, es: seq<Event>, c: nat, antes: State, despues: State,
                 m0: seq<string>, vistos: seq<string>, l0: seq<Process>, nuevos: seq<Process>)
    requires c < |es|
    requires antes == Steps(inicio, es[..c]) && m0 == Shown(inicio, es[..c]) && l0 == StartedByEvents(es[..c])
    requires despues == Step(antes, es[c])
    requires vistos == (if es[c].Line? then Reverse(antes.pending) else [])
    requires nuevos == StartedBy(es[c])
    ensures despues == Steps(inicio, es[..c + 1])
    ensures m0 + vistos == Shown(inicio, es[..c + 1])
    ensures l0 + nuevos == StartedByEvents(es[..c + 1])
  {
    var hasta := es[..c + 1];
    assert hasta[..|hasta| - 1] == es[..c];
    assert hasta[|hasta| - 1] == es[c];
  }

  /** Each background process started gets exactly one watcher. */
  lemma OneWatcherPerProcess(linea: string, pid1: int, pid2: int)
    ensures var o := Interpret(linea, true);
      |NewWatchers(linea, pid1, pid2)| == (if o.Start? && o.background then |o.procs| else 0)
  {
    var o := Interpret(linea, true);
    if o.Start? {
      StartedProcesses(linea, true);
    }
  }

  /** Every event keeps the count equal to the watchers waiting plus the notices pending. */
  lemma StepKeepsBalance(s: State, e: Event)
    requires Balanced(s)
    ensures Balanced(Step(s, e))
  {
  }

  /** So does every run of events. */
  lemma {:induction false} StepsKeepBalance(s: State, es: seq<Event>)
    requires Balanced(s)
    ensures Balanced(Steps(s, es))
    decreases |es|
  {
    if es != [] {
      StepsKeepBalance(s, es[..|es| - 1]);
      StepKeepsBalance(Steps(s, es[..|es| - 1]), es[|es| - 1]);
    }
  }

  /** The prompt counter counts the lines read. */
  lemma {:induction false} StepsCountLines(s: State, es: seq<Event>)
    ensures Steps(s, es).nComando == s.nComando + LinesRead(es)
    decreases |es|
  {
    if es != [] {
      StepsCountLines(s, es[..|es| - 1]);
    }
  }

  /**
   * Every notice pushed is shown once by the next line: after a line with no
   * watcher still waiting, every notice of the run so far has been shown, and
   * the outstanding-job count is back to 0.
   */
  lemma BackToZero(s: State, es: seq<Event>, e: Event)
    requires Balanced(s) && e.Line? && Steps(s, es).watchers == [] && NewWatchers(e.text, e.pid1, e.pid2) == []
    ensures Steps(s, es + [e]).nAsincronos == 0 && Steps(s, es + [e]).pending == []
  {
    StepsKeepBalance(s, es);
    assert (es + [e])[..|es + [e]| - 1] == es;
  }

  /** The interpreter object of async/fcsh.hpp. */
  class FcSh {
    var nComando: int
    var nAsincronos: int
    /** `_MensajesPendientes`, with the top of the stack as the last element. */
    var mensajesPendientes: seq<string>
    /** The detached watchers still waiting for their process, in start order. */
    var watchers: seq<TParHCP>

    /**
     * The outstanding-job count is the number of background processes not
     * yet reported: those still watched plus those whose notice is pending.
     */
    ghost predicate Valid()
      reads this
    {
      Balanced(Current())
    }

    /** The fields as a value. */
    ghost function Current(): State
      reads this
    {
      State(nComando, nAsincronos, mensajesPendientes, watchers)
    }

    constructor ()
      ensures Valid()
      ensures nComando == 0 && nAsincronos == 0 && mensajesPendientes == [] && watchers == []
    {
      nComando, nAsincronos, mensajesPendientes, watchers := 0, 0, [], [];
    }

    /**
     * The drain at the top of each turn: pops every pending notice, most
     * recent first, and decrements the count once per notice.
     */
    method Drain() returns (shown: seq<string>)
      requires Valid()
      modifies this
      ensures Valid()
      ensures mensajesPendientes == []
      ensures shown == Reverse(old(mensajesPendientes))
      ensures nAsincronos == old(nAsincronos) - |old(mensajesPendientes)|
      ensures nComando == old(nComando) && watchers == old(watchers)
    {
      shown := [];
      while mensajesPendientes != []
        invariant |mensajesPendientes| <= |old(mensajesPendientes)|
        invariant mensajesPendientes == old(mensajesPendientes)[..|mensajesPendientes|]
        invariant shown == Reverse(old(mensajesPendientes)[|mensajesPendientes|..])
        invariant nAsincronos == old(nAsincronos) - (|old(mensajesPendientes)| - |mensajesPendientes|)
        invariant nComando == old(nComando) && watchers == old(watchers)
      {
        var n := |mensajesPendientes|;
        var cima := mensajesPendientes[n - 1];
        assert old(mensajesPendientes)[n - 1..][1..] == old(mensajesPendientes)[n..];
        shown := shown + [cima];
        mensajesPendientes := mensajesPendientes[..n - 1];
        nAsincronos := nAsincronos - 1;
      }
    }

    /** Each prompt shows the next command number and the outstanding-job count. */
    method MostrarPrompt() returns (numero: int, asincronos: int)
      requires Valid()
      modifies this
      ensures Valid()
      ensures nComando == old(nComando) + 1 && numero == nComando
      ensures asincronos == nAsincronos
      ensures nAsincronos == old(nAsincronos) && mensajesPendientes == old(mensajesPendientes) && watchers == old(watchers)
    {
      nComando := nComando + 1;
      numero, asincronos := nComando, nAsincronos;
    }

    /**
     * The tokenizer, called with empty vectors and paths as the prompt loop
     * calls it. The background flag starts false; the first `&` sets it and
     * ends the scan.
     */
    method AnalizaLineaComandos(comando: string)
      returns (ok: bool, ejecutable: string, asincrono: bool, parametros: seq<string>,
               archivoIn: string, archivoOut: string, pipe: seq<string>)
      ensures var r := Run(Words(comando), START, true);
        && parametros == r.params && pipe == r.pipe
        && archivoIn == r.inFile && archivoOut == r.outFile
        && asincrono == r.background
      ensures var ps := Pieces(Words(comando), true);
        && parametros == Args(BeforePipe(ps)) && pipe == Args(AfterPipe(ps))
        && archivoIn == LastIn(ps, "") && archivoOut == LastOut(ps, "")
        && asincrono == (BackgroundMark in ps)
      ensures forall x :: x in parametros + pipe ==> x in Words(comando) && IsArgument(x, true)
      ensures ok <==> parametros != []
      ensures ejecutable == if ok then parametros[0] else comando
    {
      var entrada := new WordStream(comando);
      var destino := ToParams;
      parametros, archivoIn, archivoOut, pipe := [], "", "", [];
      asincrono := false;
      while !asincrono
        invariant entrada.Valid()
        invariant Run(entrada.Remaining(), Scan(destino, parametros, archivoIn, archivoOut, pipe, asincrono), true)
               == Run(Words(comando), START, true)
        decreases |entrada.Remaining()|
      {
        var hay, elemento := entrada.Extract();
        if !hay {
          break;
        }
        if elemento[0] == '<' {
          var leido, ruta := entrada.Extract();
          if leido {
            archivoIn := ruta;
          }
        } else if elemento[0] == '>' {
          var leido, ruta := entrada.Extract();
          if leido {
            archivoOut := ruta;
          }
        } else if elemento[0] == '|' {
          destino := ToPipe;
        } else if elemento[0] == '&' {
          asincrono := true;
        } else if destino == ToParams {
          parametros := parametros + [elemento];
        } else {
          pipe := pipe + [elemento];
        }
      }
      Analysis(Words(comando), true);
      ArgumentsOfLine(comando, true);
      ok := |parametros| > 0;
      ejecutable := if ok then parametros[0] else comando;
    }

    /**
     * Returns true exactly for `exit`, before anything is started or
     * counted. Otherwise records the processes forked, in order; in the
     * background it starts one watcher per process, with the pid its fork
     * returned (`pid1`, then `pid2` for the second stage of a pipe), and adds
     * the number of processes to the outstanding-job count.
     */
    method ProcesaComando(comando: string, asincrono: bool, parametros: seq<string>,
                          archivoIn: string, archivoOut: string, pipe: seq<string>, pid1: int, pid2: int)
      returns (salir: bool, started: seq<Process>)
      requires Valid()
      modifies this
      ensures Valid()
      ensures salir <==> comando == "exit"
      ensures started == if salir then [] else Processes(comando, parametros, archivoIn, archivoOut, pipe)
      ensures nAsincronos == old(nAsincronos) + (if asincrono then |started| else 0)
      ensures watchers == old(watchers) + (
        if salir || !asincrono then []
        else if |pipe| > 0 then [TParHCP(pid1, comando), TParHCP(pid2, pipe[0])]
        else [TParHCP(pid1, comando)])
      ensures nComando == old(nComando) && mensajesPendientes == old(mensajesPendientes)
    {
      if comando == "exit" {
        return true, [];
      }
      if |pipe| > 0 {
        var primero := Process(comando, parametros, Inherited, PipeWrite);
        var segundo := Process(pipe[0], pipe, PipeRead, Inherited);
        started := [primero, segundo];
        if asincrono {
          watchers := watchers + [TParHCP(pid1, comando)];
          watchers := watchers + [TParHCP(pid2, pipe[0])];
          nAsincronos := nAsincronos + 2;
        }
        return false, started;
      }
      var entrada := Redirect(archivoIn);
      var salida := Redirect(archivoOut);
      started := [Process(comando, parametros, entrada, salida)];
      if asincrono {
        watchers := watchers + [TParHCP(pid1, comando)];
        nAsincronos := nAsincronos + 1;
      }
      return false, started;
    }

    /**
     * Watcher number k sees its process end with the given exit code: it
     * pushes exactly one notice and stops watching. It does not touch the
     * counters.
     */
    method CodigoHilo(k: nat, codSalida: int)
      requires Valid() && k < |watchers|
      modifies this
      ensures Valid()
      ensures mensajesPendientes == old(mensajesPendientes) + [Mensaje(old(watchers)[k].comando, old(watchers)[k].pid, codSalida)]
      ensures watchers == old(watchers)[..k] + old(watchers)[k + 1..]
      ensures nAsincronos == old(nAsincronos) && nComando == old(nComando)
    {
      var p := watchers[k];
      var mensaje := Mensaje(p.comando, p.pid, codSalida);
      mensajesPendientes := mensajesPendientes + [mensaje];
      watchers := watchers[..k] + watchers[k + 1..];
    }

    /**
     * One turn of the prompt loop: drain the notices, show the prompt, read
     * and tokenize the line, and process it when it holds a command. The
     * count on the prompt is the number of watchers still waiting.
     */
    method Turn(linea: string, pid1: int, pid2: int)
      returns (salir: bool, shown: seq<string>, numero: int, asincronos: int, started: seq<Process>)
      requires Valid()
      modifies this
      ensures Valid()
      ensures shown == Reverse(old(mensajesPendientes)) && mensajesPendientes == []
      ensures numero == old(nComando) + 1 && nComando == numero
      ensures asincronos == |old(watchers)|
      ensures salir == Interpret(linea, true).Exit?
      ensures started == Started(linea, true)
      ensures watchers == old(watchers) + NewWatchers(linea, pid1, pid2)
      ensures nAsincronos == old(nAsincronos) - |old(mensajesPendientes)| + |NewWatchers(linea, pid1, pid2)|
    {
      shown := Drain();
      numero, asincronos := MostrarPrompt();
      var ok, comando, asincrono, parametros, archivoIn, archivoOut, pipe := AnalizaLineaComandos(linea);
      salir, started := false, [];
      if ok {
        salir, started := ProcesaComando(comando, asincrono, parametros, archivoIn, archivoOut, pipe, pid1, pid2);
      }
    }

    /**
     * One event of the interleaving: a line runs one turn of the prompt
     * loop; a finishing watcher pushes its notice.
     */
    method Handle(e: Event) returns (salir: bool, shown: seq<string>, started: seq<Process>)
      requires Valid()
      modifies this
      ensures Valid()
      ensures Current() == Step(old(Current()), e)
      ensures shown == (if e.Line? then Reverse(old(mensajesPendientes)) else [])
      ensures started == StartedBy(e)
      ensures salir == IsExit(e)
    {
      match e {
        case Line(text, pid1, pid2) =>
          var numero, asincronos;
          salir, shown, numero, asincronos, started := Turn(text, pid1, pid2);
        case Finish(k, codSalida) =>
          salir, shown, started := false, [], [];
          if k < |watchers| {
            CodigoHilo(k, codSalida);
          }
      }
    }

    /**
     * How far the prompt loop has got: `c` events consumed from `inicio`,
     * with the state, the notices shown and the processes started they give,
     * and `salir` set exactly when the last of them was an `exit` line.
     */
    ghost predicate Progress(inicio: State, eventos: seq<Event>, c: nat, salir: bool,
                           shown: seq<string>, started: seq<Process>)
      reads this
    {
      && Valid()
      && c <= |eventos|
      && Current() == Steps(inicio, eventos[..c])
      && shown == Shown(inicio, eventos[..c])
      && started == StartedByEvents(eventos[..c])
      && (forall i :: 0 <= i < c - 1 ==> !IsExit(eventos[i]))
      && (salir <==> c > 0 && IsExit(eventos[c - 1]))
    }

    /** One turn of the prompt loop: the next event is consumed. */
    method Advance(ghost inicio: State, eventos: seq<Event>, c: nat, shown: seq<string>, started: seq<Process>)
      returns (salir: bool, shown': seq<string>, started': seq<Process>)
      requires Progress(inicio, eventos, c, false, shown, started) && c < |eventos|
      modifies this
      ensures Progress(inicio, eventos, c + 1, salir, shown', started')
    {
      var e := eventos[c];
      ghost var antes := Current();
      var vistos, nuevos;
      salir, vistos, nuevos := Handle(e);
      OneMoreEvent(inicio, eventos, c, antes, Current(), shown, vistos, started, nuevos);
      assert forall i :: 0 <= i < c ==> !IsExit(eventos[i]);
      shown', started' := shown + vistos, started + nuevos;
    }

    /**
     * The prompt loop over a sequence of events: lines read at the prompt,
     * and watchers finishing in between. It stops after the first `exit`
     * line or when the events run out. `Progress` states the rest: the
     * invariant holds, the new state, the notices shown and the processes
     * started are those the events consumed give, and the loop stopped at
     * the first `exit` line.
     */
    method Ejecutar(eventos: seq<Event>) returns (salir: bool, consumidos: nat, shown: seq<string>, started: seq<Process>)
      requires Valid()
      modifies this
      ensures Progress(old(Current()), eventos, consumidos, salir, shown, started)
      ensures nComando == old(nComando) + LinesRead(eventos[..consumidos])
      ensures !salir ==> consumidos == |eventos|
    {
      ghost var inicio := Current();
      salir, consumidos, shown, started := false, 0, [], [];
      while !salir && consumidos < |eventos|
        invariant Progress(inicio, eventos, consumidos, salir, shown, started)
        decreases |eventos| - consumidos
      {
        salir, shown, started := Advance(inicio, eventos, consumidos, shown, started);
        consumidos := consumidos + 1;
      }
      StepsCountLines(inicio, eventos[..consumidos]);
    }
  }
}
