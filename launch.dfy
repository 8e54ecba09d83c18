/**
 * What `ProcesaComando` decides once a line has been tokenized: stop the
 * interpreter on `exit`, start two processes joined by a pipe when there is
 * a second command, and otherwise start one process with its optional
 * redirections. A started process is recorded by the program `execvp` is
 * given, its argument vector and where its standard streams come from; the
 * processes themselves are not modelled.
 */
module Launch {
  import opened Stream
  import opened Tokens

  /** Where a child's standard input or output is connected. */
  datatype Channel = Inherited | File(path: string) | PipeRead | PipeWrite

  datatype Process = Process(program: string, argv: seq<string>, stdin: Channel, stdout: Channel)

  /** A redirection is applied only when its path is not empty. */
  function Redirect(path: string): Channel
  {
    if path == "" then Inherited else File(path)
  }

  /**
   * The processes forked for a command that is not `exit`, in fork order.
   * The first child of a pipeline writes into the pipe and the second
   * reads from it; the redirection paths are not looked at in that case.
   */
  function Processes(comando: string, parametros: seq<string>, archivoIn: string, archivoOut: string, pipe: seq<string>): seq<Process>
  {
    if |pipe| > 0 then
      [Process(comando, parametros, Inherited, PipeWrite), Process(pipe[0], pipe, PipeRead, Inherited)]
    else
      [Process(comando, parametros, Redirect(archivoIn), Redirect(archivoOut))]
  }

  /** What one input line makes the interpreter do. */
  datatype Outcome = Nothing | Exit | Start(procs: seq<Process>, background: bool)

  /**
   * The line tokenized from the tokenizer's entry state; an empty command
   * does nothing, `exit` as the command stops, anything else is started.
   * `amp` selects the background-capable interpreter.
   */
  function Interpret(line: string, amp: bool): (o: Outcome)
    ensures o.Start? && o.background ==> amp
  {
    var r := Run(Words(line), START, amp);
    if r.params == [] then Nothing
    else if r.params[0] == "exit" then Exit
    else Start(Processes(r.params[0], r.params, r.inFile, r.outFile, r.pipe), r.background)
  }

  /** The processes a line starts, or none. */
  function Started(line: string, amp: bool): seq<Process>
  {
    var o := Interpret(line, amp);
    if o.Start? then o.procs else []
  }

  /** The command words of a line: its arguments before the first `|`. */
  function CommandArgs(line: string, amp: bool): seq<string>
  {
    Args(BeforePipe(Pieces(Words(line), amp)))
  }

  /** The words of the second command: the arguments after the first `|`. */
  function PipeArgs(line: string, amp: bool): seq<string>
  {
    Args(AfterPipe(Pieces(Words(line), amp)))
  }

  /** A well-formed argument: a word the scanner would not take for a metacharacter. */
  predicate IsArgument(w: string, amp: bool)
  {
    IsWord(w) && KindOf(w, amp) == Plain
  }

  /** The line stops the interpreter exactly when its first argument is `exit`. */
  lemma ExitWhenFirstArgIsExit(line: string, amp: bool)
    ensures Interpret(line, amp).Exit? <==> (CommandArgs(line, amp) != [] && CommandArgs(line, amp)[0] == "exit")
    ensures Interpret(line, amp).Nothing? <==> CommandArgs(line, amp) == []
  {
    Analysis(Words(line), amp);
  }

  /**
   * Every argument vector handed to the scanner's two vectors holds only
   * arguments of the line, in the line's order.
   */
  lemma ArgumentsOfLine(line: string, amp: bool)
    ensures forall x :: x in CommandArgs(line, amp) + PipeArgs(line, amp) ==> x in Words(line) && IsArgument(x, amp)
    ensures IsSubsequence(CommandArgs(line, amp) + PipeArgs(line, amp), Words(line))
  {
    var ps := Pieces(Words(line), amp);
    ArgsAroundPipe(ps);
    ArgsFromLine(Words(line), amp);
  }

  /**
   * What a started line launches: with a second command, two processes
   * joined by the pipe and no file redirections; otherwise one process
   * with the last `<` and `>` paths of the line. Each program is the first
   * word of its own argument vector, as `execvp` expects, and only the
   * background-capable interpreter can start in the background.
   */
  lemma StartedProcesses(line: string, amp: bool)
    requires Interpret(line, amp).Start?
    ensures var o, ps := Interpret(line, amp), Pieces(Words(line), amp);
      && CommandArgs(line, amp) != [] && CommandArgs(line, amp)[0] != "exit"
      && (forall p :: p in o.procs ==> |p.argv| > 0 && p.program == p.argv[0])
      && (forall p, x :: p in o.procs && x in p.argv ==> IsArgument(x, amp))
      && (|o.procs| == 1 || |o.procs| == 2)
      && (|o.procs| == 2 <==> PipeArgs(line, amp) != [])
      && (|o.procs| == 2 ==> o.procs == [
            Process(CommandArgs(line, amp)[0], CommandArgs(line, amp), Inherited, PipeWrite),
            Process(PipeArgs(line, amp)[0], PipeArgs(line, amp), PipeRead, Inherited)])
      && (|o.procs| == 1 ==> o.procs == [
            Process(CommandArgs(line, amp)[0], CommandArgs(line, amp),
                    Redirect(LastIn(ps, "")), Redirect(LastOut(ps, "")))])
      && (o.background <==> amp && BackgroundMark in ps)
  {
    var ps := Pieces(Words(line), amp);
    Analysis(Words(line), amp);
    ArgumentsOfLine(line, amp);
    if !amp {
      NoBackgroundMark(Words(line));
    }
  }
}
