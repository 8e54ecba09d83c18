/**
 * The foreground-only interpreter of fcsh.cpp: the prompt counter, the
 * tokenizer `AnalizaLineaComandos`, the argument-vector builder `StlACpp`,
 * the decision made by `ProcesaComando` and the prompt loop `Ejecutar`,
 * which reads its lines from a given list instead of the terminal.
 */
module Shell {
  import opened Stream
  import opened Tokens
  import opened Launch

  /** Index of the first NUL character of s, or |s| when there is none. */
  function NulIndex(s: string): (n: nat)
    ensures n <= |s|
    ensures forall k :: 0 <= k < n ==> s[k] != '\0'
    ensures n < |s| ==> s[n] == '\0'
  {
    if s == [] || s[0] == '\0' then 0 else 1 + NulIndex(s[1..])
  }

  /**
   * The buffer `strncpy(buf, s.c_str(), |s| + 1)` leaves: the characters of s
   * up to its first NUL, then NULs up to the end of the buffer.
   */
  function CCopy(s: string): (c: seq<char>)
  {
    seq(|s| + 1, k requires 0 <= k < |s| + 1 => if k < NulIndex(s) then s[k] else '\0')
  }

  /** A string without NUL characters is copied whole and terminated. */
  lemma CCopyOfText(s: string)
    requires forall k :: 0 <= k < |s| ==> s[k] != '\0'
    ensures CCopy(s) == s + ['\0']
  {
    assert NulIndex(s) == |s|;
  }

  /**
   * `strncpy(dst, s.c_str(), |s| + 1)`: characters are copied until the
   * terminating NUL of the source, and the rest of the count is filled with
   * NULs.
   */
  method Strncpy(dst: array<char>, s: string)
    requires dst.Length == |s| + 1
    modifies dst
    ensures dst[..] == CCopy(s)
  {
    var k := 0;
    var ended := false;
    while k < |s| + 1
      invariant 0 <= k <= |s| + 1
      invariant ended <==> NulIndex(s) < k
      invariant forall j :: 0 <= j < k ==> dst[j] == CCopy(s)[j]
    {
      if !ended && k < |s| && s[k] != '\0' {
        dst[k] := s[k];
      } else {
        dst[k] := '\0';
        ended := true;
      }
      k := k + 1;
    }
  }

  /**
   * `StlACpp`: a fresh array of n + 1 entries for n strings; entry i is a
   * fresh C string copied from string i and entry n is NULL, as `execvp`
   * requires.
   */
  method StlACpp(parametros: seq<string>) returns (argv: array<array?<char>>)
    ensures fresh(argv) && argv.Length == |parametros| + 1
    ensures argv[|parametros|] == null
    ensures forall i :: 0 <= i < |parametros| ==>
      argv[i] != null && fresh(argv[i]) && argv[i][..] == CCopy(parametros[i])
    ensures forall i, j :: 0 <= i < j < |parametros| ==> argv[i] != argv[j]
  {
    argv := new array?<char>[|parametros| + 1](_ => null);
    var i := 0;
    while i < |parametros|
      invariant 0 <= i <= |parametros|
      invariant forall j :: 0 <= j < i ==> argv[j] != null && fresh(argv[j]) && argv[j][..] == CCopy(parametros[j])
      invariant forall j :: i <= j < argv.Length ==> argv[j] == null
      invariant forall j, k :: 0 <= j < k < i ==> argv[j] != argv[k]
    {
      var c := new char[|parametros[i]| + 1];
      Strncpy(c, parametros[i]);
      argv[i] := c;
      i := i + 1;
    }
    argv[i] := null;
  }

  /** The processes started by a run of lines, in order. */
  function StartedAll(lines: seq<string>): seq<Process>
  {
    if lines == [] then [] else StartedAll(lines[..|lines| - 1]) + Started(lines[|lines| - 1], false)
  }

  /** One more line: its processes follow those of the earlier lines. */
  lemma StartedOneMore(lines: seq<string>, line: string)
    ensures StartedAll(lines + [line]) == StartedAll(lines) + Started(line, false)
  {
    assert (lines + [line])[..|lines + [line]| - 1] == lines;
  }

  /** The interpreter object of fcsh.hpp: its one field is the prompt counter. */
  class FcSh {
    var nComando: int

    constructor ()
      ensures nComando == 0
    {
      nComando := 0;
    }

    /** Each prompt shows the next command number. */
    method MostrarPrompt() returns (numero: int)
      modifies this
      ensures nComando == old(nComando) + 1
      ensures numero == nComando
    {
      nComando := nComando + 1;
      numero := nComando;
    }

    /**
     * The tokenizer, called as the prompt loop calls it: with empty vectors
     * and paths. Its results are those of the scanning loop over the words
     * of the line; it reports whether a command was given and then replaces
     * the line by the command's name.
     */
    method AnalizaLineaComandos(comando: string)
      returns (ok: bool, ejecutable: string, parametros: seq<string>, archivoIn: string, archivoOut: string, pipe: seq<string>)
      ensures var r := Run(Words(comando), START, false);
        && parametros == r.params && pipe == r.pipe
        && archivoIn == r.inFile && archivoOut == r.outFile
      ensures var ps := Pieces(Words(comando), false);
        && parametros == Args(BeforePipe(ps)) && pipe == Args(AfterPipe(ps))
        && archivoIn == LastIn(ps, "") && archivoOut == LastOut(ps, "")
      ensures forall x :: x in parametros + pipe ==> x in Words(comando) && IsArgument(x, false)
      ensures ok <==> parametros != []
      ensures ejecutable == if ok then parametros[0] else comando
    {
      var entrada := new WordStream(comando);
      var destino := ToParams;
      parametros, archivoIn, archivoOut, pipe := [], "", "", [];
      while true
        invariant entrada.Valid()
        invariant Run(entrada.Remaining(), Scan(destino, parametros, archivoIn, archivoOut, pipe, false), false)
               == Run(Words(comando), START, false)
        decreases |entrada.Remaining()|
      {
        var hay, elemento := entrada.Extract();
        if !hay {
          break;
        }
        if elemento[0] == '<' {
          var leido, ruta := entrada.Extract();
          if leido {
            archivoIn := ruta;
          }
        } else if elemento[0] == '>' {
          var leido, ruta := entrada.Extract();
          if leido {
            archivoOut := ruta;
          }
        } else if elemento[0] == '|' {
          destino := ToPipe;
        } else if destino == ToParams {
          parametros := parametros + [elemento];
        } else {
          pipe := pipe + [elemento];
        }
      }
      Analysis(Words(comando), false);
      ArgumentsOfLine(comando, false);
      ok := |parametros| > 0;
      ejecutable := if ok then parametros[0] else comando;
    }

    /**
     * Returns true exactly for `exit`; otherwise records the processes that
     * would be forked, in order, and returns false.
     */
    method ProcesaComando(comando: string, parametros: seq<string>, archivoIn: string, archivoOut: string, pipe: seq<string>)
      returns (salir: bool, started: seq<Process>)
      ensures salir <==> comando == "exit"
      ensures started == if salir then [] else Processes(comando, parametros, archivoIn, archivoOut, pipe)
    {
      if comando == "exit" {
        return true, [];
      }
      if |pipe| > 0 {
        var primero := Process(comando, parametros, Inherited, PipeWrite);
        var segundo := Process(pipe[0], pipe, PipeRead, Inherited);
        return false, [primero, segundo];
      }
      var entrada := Redirect(archivoIn);
      var salida := Redirect(archivoOut);
      return false, [Process(comando, parametros, entrada, salida)];
    }

    /** One turn of the prompt loop over one input line. */
    method Turn(linea: string) returns (salir: bool, started: seq<Process>)
      modifies this
      ensures nComando == old(nComando) + 1
      ensures salir == Interpret(linea, false).Exit?
      ensures started == Started(linea, false)
    {
      var _ := MostrarPrompt();
      var ok, comando, parametros, archivoIn, archivoOut, pipe := AnalizaLineaComandos(linea);
      salir, started := false, [];
      if ok {
        salir, started := ProcesaComando(comando, parametros, archivoIn, archivoOut, pipe);
      }
    }

    /**
     * The prompt loop over the given lines: it stops after the first line
     * that is `exit`, or when the lines run out. `leidas` is the number of
     * lines read, each behind its own prompt.
     */
    method Ejecutar(lineas: seq<string>) returns (salir: bool, leidas: nat, started: seq<Process>)
      modifies this
      ensures leidas <= |lineas| && nComando == old(nComando) + leidas
      ensures forall i :: 0 <= i < leidas - 1 ==> !Interpret(lineas[i], false).Exit?
      ensures salir <==> leidas > 0 && Interpret(lineas[leidas - 1], false).Exit?
      ensures !salir ==> leidas == |lineas|
      ensures started == StartedAll(lineas[..leidas])
    {
      salir, leidas, started := false, 0, [];
      while !salir && leidas < |lineas|
        invariant leidas <= |lineas| && nComando == old(nComando) + leidas
        invariant forall i :: 0 <= i < leidas - 1 ==> !Interpret(lineas[i], false).Exit?
        invariant salir <==> leidas > 0 && Interpret(lineas[leidas - 1], false).Exit?
        invariant started == StartedAll(lineas[..leidas])
      {
        assert forall i :: 0 <= i < leidas ==> !Interpret(lineas[i], false).Exit?;
        var linea := lineas[leidas];
        assert lineas[..leidas + 1] == lineas[..leidas] + [linea];
        StartedOneMore(lineas[..leidas], linea);
        var nuevos;
        salir, nuevos := Turn(linea);
        started := started + nuevos;
        leidas := leidas + 1;
      }
    }
  }
}
