# fcsh command-line handling, modelled in Dafny

fcsh is a small teaching shell in two versions:

- `fcsh.cpp` is a foreground-only interpreter.
- `async/fcsh.cpp` adds background jobs, started with `&`. Each background process has a watcher thread. When its process ends, the watcher pushes a completion notice onto a shared stack. The prompt loop pops and shows every pending notice before each prompt.

This project models exactly what decides how a line is run:

- the whitespace word stream the tokenizer reads;
- the tokenizer `AnalizaLineaComandos`, in both versions;
- the argument-vector builder `StlACpp`;
- the `exit` / pipe / redirect decision of `ProcesaComando`;
- the prompt counter;
- the background bookkeeping: the outstanding-job count `_nAsincronos`, the notice stack and its drain, and the notice a watcher composes.

Launching a process is recorded as a value. The record holds the program, its argument vector, and where its standard input and output come from. No process is modelled.

Modules:

- `Stream` (`stream.dfy`) models `operator>>` from a `stringstream` into a `string`:
  - leading white space is skipped;
  - a word is a maximal run of non-white-space characters;
  - an extraction fails, and leaves its target alone, when only white space is left.

  `Words` is the list of words a line yields. `WordStream` is a class with a read position, and its `Extract` method is proved against `Words`.
- `Tokens` (`tokens.dfy`) specifies the tokenizer's loop.
  - `Run` is the loop's effect on the list of words, for both versions. The `amp` flag selects the version that knows `&`.
  - `Pieces` reads the line as arguments, paths, pipe marks and a background mark.
  - `RunByPieces` states what the loop computes in those terms: the first vector, the second vector, the last path of each kind, and the background flag.
- `Launch` (`launch.dfy`) holds the process records and the decision `ProcesaComando` takes. `Interpret` gives the outcome of one whole line.
- `Shell` (`shell.dfy`) models `fcsh.cpp`.
  - `StlACpp` works on a Dafny `array` of character arrays, each filled by a model of `strncpy`.
  - The class `FcSh` holds the prompt counter and the interpreter's methods.
  - `Ejecutar` runs the prompt loop over a given list of lines.
- `Numerals` (`numerals.dfy`) gives the decimal text that `<<` writes for an `int`, and the proof that it reads back.
- `AsyncShell` (`async_shell.dfy`) models `async/fcsh.cpp`.
  - The class `FcSh` holds the prompt counter, the outstanding-job count, the notice stack and the list of watchers still waiting.
  - Its invariant `Valid()` says the outstanding-job count equals the number of watchers still waiting plus the number of pending notices.
  - A watcher finishing is the method `CodigoHilo`.
  - `Ejecutar` runs the prompt loop over a sequence of events. Each event is either a line read at the prompt or a watcher seeing its process end.
  - `Step` and `Steps` give the state after one event and after a run of events, as values. `Ejecutar` is proved against them, and the lemmas about them show the count invariant is kept.
- `Scenarios` (`scenarios.dfy`) works through typical lines and a session with two background jobs.

The notice stack is a `seq<string>` whose last element is the top. A drain therefore shows the stack reversed.

Where the code and its own descriptions differ, the model follows the code:

- The banner says `<` and `>` cannot be combined with `|`. The tokenizer still records both paths on such a line. Only the pipe branch of `ProcesaComando` ignores them.
- `&` is described as going at the end of the line. In the code, any word that starts with `&` sets background mode and ends the scan (`async/fcsh.cpp:141-143`). Later words are dropped.
- A word is classified by its first character alone. So an argument such as `<tmp` is taken for a redirection (`fcsh.cpp:109-118`). The model keeps this.

## Model

| member | source | states |
|---|---|---|
| Stream.Words | fcsh.cpp:107 | every word extracted is non-empty and holds no white space |
| Stream.WordAt | fcsh.cpp:107 | a run of non-white-space characters at the start of the text, ended by white space or the end of the text, is the first word extracted, and extraction goes on after it |
| Stream.WordsKeepAllText | fcsh.cpp:103-107 | glued together, the words are exactly the non-white-space characters of the line, in order: extraction drops nothing but white space |
| Stream.WordsOfUnwords | fcsh.cpp:107 | joining words with single spaces and extracting again gives back the same words |
| Stream.WordStream.constructor | fcsh.cpp:103 | a stream over the line, positioned at its start |
| Stream.WordStream.Extract | fcsh.cpp:107-115 | `>>` succeeds exactly when a word remains; it then delivers the first remaining word and leaves the rest; on failure nothing remains |
| Tokens.KindOf | fcsh.cpp:109-121 | the `switch (Elemento[0])`: a word is classified by its first character alone, and the empty word falls to the default case; only the background-capable switch (`async/fcsh.cpp:131-146`) has an `&` case, so `Amp` arises only when `amp` holds |
| Tokens.Run | fcsh.cpp:105-121 | the scanning loop over the words from a given state, which in the background-capable version (`async/fcsh.cpp:127-146`) also stops once `&` is seen; words are only appended to the two vectors, never removed, and the background flag is set only when `amp` holds; `RunByPieces` gives its full result |
| Tokens.RunByPieces | fcsh.cpp:105-121 | (`ByPieces`) from any unfinished state: plain words before the first `\|` go to the first vector and all later ones to the second, appended in order; each path ends as the last one given after `<` / `>` (or unchanged); background is set iff an `&` was reached; the destination becomes the pipe iff a `\|` was seen |
| Tokens.Analysis | async/fcsh.cpp:124-146 | the same from the tokenizer's entry state, with empty vectors and paths |
| Tokens.NoSwitchBack | fcsh.cpp:116-120 | once the destination is the second vector it stays there and the first vector no longer grows |
| Tokens.ArgsAroundPipe | fcsh.cpp:116-120 | the words before and after the first `\|` together are all the arguments of the line, in order |
| Tokens.ArgsFromLine | fcsh.cpp:107-121 | every argument is a word of the line whose first character is not a metacharacter, and the arguments keep the line's order (a subsequence) |
| Tokens.LastInWins | fcsh.cpp:110-112 | the input path is the one after the last `<` redirection |
| Tokens.LastInNone | fcsh.cpp:110-112 | without `<` the input path keeps its previous value |
| Tokens.LastOutWins | fcsh.cpp:113-115 | the output path is the one after the last `>` redirection |
| Tokens.LastOutNone | fcsh.cpp:113-115 | without `>` the output path keeps its previous value |
| Tokens.NothingAfterBackground | async/fcsh.cpp:128-143 | once `&` has set the background flag, any words that follow change nothing in the result |
| Tokens.NoBackgroundMark | fcsh.cpp:109-121 | the foreground interpreter never marks a line as background |
| Launch.Redirect | fcsh.cpp:191-208 | a redirection is applied, connecting the stream to that file, exactly when its path is not empty, as the `!ArchivoIn.empty()` and `!ArchivoOut.empty()` tests decide |
| Launch.Processes | fcsh.cpp:143-215 | the processes forked for a command other than `exit`, in fork order: with a second command, one writing into the pipe and one reading from it, with no file; otherwise one process with its redirections; `StartedProcesses` states their properties |
| Launch.Interpret | fcsh.cpp:56-61 | one line read, tokenized and processed: nothing when there is no command, stop on `exit`, otherwise the processes started; a line runs in the background only in the background-capable interpreter |
| Launch.Started | fcsh.cpp:143-215 | the processes a line starts, none for an empty or `exit` line; both prompt loops count their launches with it |
| Launch.ExitWhenFirstArgIsExit | fcsh.cpp:123-138 | a line stops the interpreter iff its first argument is `exit`, and does nothing iff it has no argument before any `\|` |
| Launch.ArgumentsOfLine | fcsh.cpp:105-126 | both argument vectors hold only well-formed arguments of the line, and together they are a subsequence of its words |
| Launch.StartedProcesses | fcsh.cpp:143-220 | a started line launches one or two processes. There are two iff the line has a second command: the first writes into the pipe, the second reads from it, and no file is opened. Otherwise one process runs, with the last `<` / `>` paths when they are non-empty. Each program is the first element of its argument vector. A line runs in the background iff the interpreter is the background-capable one and the scan reached an `&` |
| Shell.CCopyOfText | fcsh.cpp:24 | a string without NUL characters is copied whole and then terminated |
| Shell.Strncpy | fcsh.cpp:24 | the buffer receives the characters up to the source's first NUL, then NULs up to its length |
| Shell.StlACpp | fcsh.cpp:17-29 | a fresh array of n + 1 entries; entry i is a fresh, distinct C string copied from string i; entry n is NULL |
| Shell.StartedAll | fcsh.cpp:53-62 | the processes started by a run of lines, in the order the lines were read |
| Shell.FcSh.constructor | fcsh.hpp:21 | the prompt counter starts at 0 |
| Shell.FcSh.MostrarPrompt | fcsh.cpp:73-76 | the counter goes up by exactly one and the prompt shows the new value |
| Shell.FcSh.AnalizaLineaComandos | fcsh.cpp:101-127 | the results are the scan of the line's words: the two vectors split at the first `\|`, the last paths, every element a well-formed argument of the line; the result is true iff the first vector is non-empty, and then the command becomes its first element, otherwise it stays the raw line |
| Shell.FcSh.ProcesaComando | fcsh.cpp:135-221 | returns true iff the command is `exit`, starting nothing; otherwise starts the pipe pair when the second vector is non-empty (paths unused), else one process with its redirections |
| Shell.FcSh.Turn | fcsh.cpp:53-61 | one prompt: the counter goes up by one; the loop stops iff the line's first argument is `exit`; the processes started are those `Interpret` gives |
| Shell.FcSh.Ejecutar | fcsh.cpp:38-65 | reads lines until the first `exit` line or the end of the input, one prompt per line read; no earlier line was `exit`; the processes started are those of the lines read, in order |
| Numerals.NatText | async/fcsh.cpp:274-275 | the text of a number is a non-empty string of decimal digits |
| Numerals.IntText | async/fcsh.cpp:274-275 | what `<<` writes for an `int`: a non-empty text that starts with `-` exactly when the value is negative, followed by the digits of its magnitude |
| Numerals.ParseIntText | async/fcsh.cpp:274-275 | reading back the decimal text of an `int` gives the same `int` |
| Numerals.ParseNegativeText | async/fcsh.cpp:274-275 | a minus sign followed by the digits of n reads back as -n |
| AsyncShell.Mensaje | async/fcsh.cpp:272-275 | the notice text: `Proceso `, the command, ` (pid:`, the pid, `) finalizado con código de salida `, the exit code; `ReadBackMensaje` shows it determines all three |
| AsyncShell.ReadBackMensaje | async/fcsh.cpp:272-275 | a notice for a one-word command parses back into exactly that command, pid and exit code, so notices of different jobs differ |
| AsyncShell.ReadBackNoticeTail | async/fcsh.cpp:274-275 | the tail of a notice, pid then `) finalizado con código de salida ` then exit code, reads back into that pid and exit code |
| AsyncShell.LastPushedFirst | async/fcsh.cpp:70-74 | the notice pushed last is shown first, ahead of all earlier ones |
| AsyncShell.DrainShowsAll | async/fcsh.cpp:70-74 | a drain shows every pending notice exactly once (as a multiset) |
| AsyncShell.FcSh.constructor | async/fcsh.cpp:34-35 | both counters start at 0, the stack is empty and no watcher is running |
| AsyncShell.FcSh.Drain | async/fcsh.cpp:69-75 | empties the stack, shows the notices from top to bottom, and lowers the outstanding-job count by the number shown; the invariant is kept |
| AsyncShell.FcSh.MostrarPrompt | async/fcsh.cpp:94-97 | the counter goes up by exactly one; the prompt shows the new counter and the outstanding-job count |
| AsyncShell.FcSh.AnalizaLineaComandos | async/fcsh.cpp:122-152 | as in the foreground version. In addition, the background flag starts false and is set iff an `&` was reached, which ends the scan. No element of either vector starts with `<`, `>`, `\|` or `&` |
| AsyncShell.FcSh.ProcesaComando | async/fcsh.cpp:160-261 | returns true iff the command is `exit`, before anything is started or counted. A background pipe adds 2 to the count and starts watchers for both pids. A background single command adds 1 and starts one watcher. A foreground command leaves the count alone. The invariant is kept |
| AsyncShell.FcSh.CodigoHilo | async/fcsh.cpp:264-281 | the finishing watcher pushes exactly one notice, "Proceso <cmd> (pid:<pid>) finalizado con código de salida <status>", and is no longer waiting; the counters are unchanged and the invariant is kept |
| AsyncShell.FcSh.Turn | async/fcsh.cpp:65-82 | one turn: the drain shows the pending notices top first; the counter goes up by one; the count shown equals the number of watchers still waiting; exit, started processes and new watchers follow the line |
| AsyncShell.NewWatchers | async/fcsh.cpp:204-208 | the watchers a background line starts (also `async/fcsh.cpp:252-254`): for a pipe, one for each pid in fork order, named after `Comando` and `Pipe[0]`; for a single command, one; none for a foreground line |
| AsyncShell.OneWatcherPerProcess | async/fcsh.cpp:204-255 | a line starts exactly one watcher per process it starts in the background, and none in the foreground |
| AsyncShell.Step | async/fcsh.cpp:64-83 | one event as a value. A line drains the stack, lowering the count once per notice, adds one to the prompt counter, and adds one to the count and one watcher per process it starts in the background. A finishing watcher (`async/fcsh.cpp:264-281`) pushes its notice and stops waiting |
| AsyncShell.Steps | async/fcsh.cpp:64-83 | a run of events applied in order, the last one last |
| AsyncShell.Shown | async/fcsh.cpp:69-75 | the notices shown by a run of events: each line shows the stack as it stands before it, top first |
| AsyncShell.StartedByEvents | async/fcsh.cpp:76-82 | the processes started by a run of events, line by line, in order |
| AsyncShell.FcSh.Valid | async/fcsh.cpp:69-75 | the outstanding-job invariant: `_nAsincronos` equals the watchers waiting plus the notices pending; it rises as watchers start (`async/fcsh.cpp:209`, `255`) and falls as notices are shown |
| AsyncShell.StepKeepsBalance | async/fcsh.cpp:69-75 | every event (a prompt turn or a watcher finishing) keeps the outstanding-job count equal to the watchers waiting plus the notices pending |
| AsyncShell.StepsKeepBalance | async/fcsh.cpp:64-83 | the same holds after any run of events |
| AsyncShell.StepsCountLines | async/fcsh.cpp:96 | after a run of events the prompt counter has gone up once per line read |
| AsyncShell.BackToZero | async/fcsh.cpp:69-75 | once no watcher is waiting, the next line that starts no background job shows every pending notice and brings the count back to 0 |
| AsyncShell.FcSh.Handle | async/fcsh.cpp:64-83 | one event: a line runs one prompt turn, a finishing watcher pushes its notice; the new state is `Step` of the old one, the notices shown are the old stack top first, and the processes started are the line's |
| AsyncShell.OneMoreEvent | async/fcsh.cpp:64-83 | one more event extends the three folds by one step: the state by `Step`, the notices shown by the stack drained before a line, the processes started by the line's |
| AsyncShell.FcSh.Advance | async/fcsh.cpp:64-83 | one turn of the prompt loop keeps `Progress`: the state, the notices shown and the processes started are the folds over the events handled so far, and the loop has stopped iff the last of them was an `exit` line |
| AsyncShell.FcSh.Ejecutar | async/fcsh.cpp:60-86 | (`Progress`) over lines and watcher completions, stops after the first `exit` line or at the end of the events; the counters, the notice stack and the waiting watchers end as `Steps` of the events consumed, the notices shown and the processes started are those of the events, in order; no earlier event was an `exit` line; the counter went up once per line; the invariant holds throughout |
| Scenarios.TokenizePlain | fcsh.cpp:101-127 | a line of two plain words, such as `ls -la`, gives both as arguments, no second command, no paths |
| Scenarios.TokenizeRedirections | fcsh.cpp:101-127 | a line `c < i > o`, such as `sort < in.txt > out.txt`, gives the argument `c`, input `i` and output `o` |
| Scenarios.TokenizePipe | fcsh.cpp:101-127 | a line `c \| d a`, such as `ls \| wc -l`, gives `c` as the first command and `d a` as the second |
| Scenarios.TokenizeBackground | async/fcsh.cpp:122-152 | a line `c a & x`, such as `sleep 5 & date`, is a background job with the arguments `c`, `a`; `x` is dropped |
| Scenarios.BackgroundSleep | async/fcsh.cpp:219-255 | a background `sleep d` starts one process with inherited streams and one watcher for its pid |
| Scenarios.TwoBackgroundJobs | async/fcsh.cpp:64-82 | two background jobs that finish, the second first, before the next prompt: that prompt's drain shows the later-finishing job's notice first, and the count it shows is back to 0 |

## Left out

- Process and file-descriptor plumbing is left out: `fork`, `execvp`, `pipe`, `dup2`, `open`, `close`, `wait` and `waitpid`. These are operating-system calls. A launch is a `Process` record. The pids that `fork` returns are parameters of the model's `ProcesaComando` and `Turn`.
- Failures inside a child are not modelled: an `execvp` failure, a redirection file that cannot be opened, and the child's `exit(-1)`. They happen after the fork, in the other process.
- `fork` failing is not modelled. The source treats a return of -1 like the parent's branch.
- Foreground waits are assumed to reap the shell's own foreground children. A `wait(NULL)` that reaps a background child instead, and so leaves its watcher's `waitpid` without a status, is not modelled.
- The watcher threads and the semaphore (`async/thread.hpp`, `async/semaph.hpp`) are not modelled as concurrency. Each critical section is one atomic step:
  - a watcher pushing its notice is `CodigoHilo`;
  - the drain is `Drain`.

  In `AsyncShell.FcSh.Ejecutar`, a watcher can finish only between two turns of the prompt loop. A notice pushed in the middle of a turn is shown at the next drain, which is the same observable effect.
- AsyncShell.FcSh.CodigoHilo: the model assumes every watcher runs to completion and pushes exactly one notice. In the source, the `HCP` objects `h1`, `h2` and `h` are locals. They are destroyed at the end of the `if(Asincrono)` block (`async/fcsh.cpp:204-210`, `252-256`). The detached thread each one starts still calls `CodigoHilo` through that object (`async/thread.hpp:20-31`) and reads its `_parametros` (`async/fcsh.cpp:266`). A thread that gets there after the block has ended uses a destroyed object, which is undefined behaviour; it may lose its notice or abort the shell. The model covers only the case where each watcher reads its `HCP` object before the object is destroyed. `Valid` and `Step` depend on this.
- AsyncShell.FcSh.CodigoHilo: the exit code is a parameter. The source prints the raw status word that `waitpid` stores, not `WEXITSTATUS` of it. The model does not decode it either.
- The SIGINT handler `GestorControlC` (`async/fcsh.hpp:46`) and its installation are left out, because signals are outside the model.
- Console I/O is left out:
  - `LeerComando` (`getline`): the lines come from a finite list or event sequence;
  - the banner and `system("clear")`;
  - the `setw(3)` formatting of the prompt: `MostrarPrompt` returns the numbers it would print.
- Shell.FcSh.Ejecutar: when the input ends without `exit`, the source keeps reading empty lines forever, prompt after prompt. The model stops when the list runs out.
- AsyncShell.FcSh.Ejecutar: the same holds for the background-capable loop (`async/fcsh.cpp:64-83`). At the end of the input it keeps draining the stack, prompting and reading empty lines forever. The model stops when the events run out.
- Shell.FcSh.AnalizaLineaComandos: its vectors and paths start empty, which is how `Ejecutar` always calls it. A call with vectors that already hold elements, which the source would append to, is not modelled.
- AsyncShell.FcSh.AnalizaLineaComandos: likewise, its vectors and paths start empty.
- Shell.FcSh.MostrarPrompt: the counters are unbounded integers. The 32-bit overflow of `_nComando` and `_nAsincronos` after 2^31 commands is not modelled.
- Characters are Dafny `char`s rather than bytes. The `ó` of the notice is one character, not its encoding.
- White space is the "C" locale's (space and `\t` to `\r`). Other locales are not modelled.
- AsyncShell.ReadBackMensaje: it is proved only for commands that are a single word. Those are the only commands the tokenizer produces.
- The headers `fcsh.hpp` and `async/fcsh.hpp` only declare state. Their fields are the class fields of `Shell.FcSh` and `AsyncShell.FcSh`. The watcher's shared semaphore and stack pointers are the shell's own fields.
- The destructor, which frees the stack, is left out.
- The argument arrays `StlACpp` allocates in a child are never freed in the source. The model does not track memory.
