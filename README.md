# Custom-Shell: parser, launch plan, built-ins and history in Dafny

A verified model of the sequential core of a small interactive C shell:

- **`parse_line`** (shell.c). It scans a command line once, left to right. A quote state, a pending-token buffer and a current stage build a pipeline of stages. Each stage holds its arguments, an input file, an output file with an append flag, and a background flag.
  - `Parser.Run` states the scan over the unread rest of the line, one turn of the C loop at a time (`Parser.Step`).
  - `Parser.ParseLine` is the loop itself, proved to compute `Parser.Parse`.
  - The model keeps every quirk of the code:
    - quotes do not protect `|`, `<`, `>`, `&` or a backslash;
    - `&` neither ends a word nor stays in it;
    - an unterminated quote drops the last word;
    - `&` marks only the stage being built;
    - a stage without arguments makes the line fail only when it is the only stage.
- **`execute_command`** (shell.c), as a launch plan with no system calls. `Executor.ExecuteCommand` walks the pipeline as the C code does. It decides:
  - the in-shell fast path for a lone built-in;
  - the number of pipes;
  - each child's standard input and output;
  - what each child runs;
  - whether the shell waits.
- **Built-ins** (utils.c). `Builtins.IsBuiltin` is the name table. `Builtins.RunBuiltin` gives the return code of `run_builtin`, and names the effect of the built-in without performing it.
- **History** (utils.c). `History.HistoryTable` is a class over a 500-entry array and a count. Adding past capacity shifts the array down in place. `Print` builds the numbered listing.

The modules are:

| module | file | contents |
|---|---|---|
| `Wrappers` | wrappers.dfy | `Option`, standing for a pointer that may be NULL |
| `Command` | command.dfy | `struct command` as the value `Stage`; `new_command`, `push_arg` |
| `Parser` | parser.dfy | the scan as functions, and the C loops as methods proved against them |
| `ParserProperties` | parser_props.dfy | how characters, words, quotes and escapes move the scan; empty lines; stage counts; non-empty arguments |
| `RoundTrip` | round_trip.dfy | a canonical text for every plain pipeline, which parses back to that pipeline |
| `ParserExamples` | parser_examples.dfy | the documented behaviours on whole lines, for any words |
| `Builtins` | builtins.dfy | `is_builtin`, `run_builtin` |
| `Executor` | executor.dfy | the launch plan of `execute_command` |
| `Shell` | shell.dfy | a line through `parse_line` into `execute_command` |
| `History` | history.dfy | `init_history`, `add_history`, `print_history` |
| `Sequences` | sequences.dfy | associativity of concatenation, shared by the proofs |

Behaviour of the code that a reader might not expect, which the model keeps:

- **`&` in a pipeline.** The comments at shell.c:132 and shell.c:276 speak of `&` as backgrounding the pipeline, "on last command". The code does something narrower:
  - `&` sets the flag of the stage being built (shell.c:133);
  - the shell's decision to wait reads only the head stage's flag (shell.c:277).

  So `a | b & ` is waited for (`Shell.TrailingAmpersandInPipelineWaits`), while `a & | b` is not (`Shell.HeadAmpersandRunsInBackground`). `Executor.LaunchPlan` states this for every pipeline.
- **Stages without arguments.** `parse_line` returns NULL only when the line is NULL (shell.c:41) or leaves a single stage without arguments (shell.c:143-147). Argument-less stages of a longer pipeline reach the executor, whose child reads `argv[0]` through a NULL `argv` (shell.c:252, `Shell.LonePipeReachesNullArgv`).
- **The lone built-in.** The in-shell fast path (shell.c:178) tests neither redirections nor `&`. A lone built-in runs in the shell with its redirections unopened and its `&` ignored (`Executor.LoneBuiltinIgnoresRedirectionAndBackground`).
- **Job control.** There is none: no process groups, no terminal hand-over, no job table. `jobs`, `fg` and `bg` only print that they are not implemented.

## Model

| member | source | states |
|---|---|---|
| Command.NewCommand | shell.c:20-30 | a new stage has no arguments, no redirection, no append and no background |
| Command.PushArg | shell.c:32-37 | appends exactly one argument at the end, keeps the earlier ones and every other field |
| Parser.CharAt | shell.c:52 | at and past the end the terminator is read; any other character read is the string's own at that place |
| Parser.IsSpace | shell.c:117 | `isspace` in the C locale: the blank or a character from tab to carriage return |
| Parser.EndsBareName | shell.c:117 | an unquoted target stops at exactly NUL, the six `isspace` characters, `<`, `>`, `\|` and `&` |
| Parser.Init | shell.c:43-49 | the scan starts with one fresh stage, no pending token and no open quote |
| Parser.Flush | shell.c:54-59 | the pending buffer is emptied; closed stages and the quote state are untouched |
| Parser.Blanks | shell.c:104 | the blanks skipped after an operator never run past the line |
| Parser.QuotedName | shell.c:111-114 | a quoted file name never reads past the line |
| Parser.BareLen | shell.c:117-119 | an unquoted file name never reads past the line |
| Parser.FileName | shell.c:109-120 | the redirection target, quoted or not, never reads past the line |
| Parser.Redirect | shell.c:95-128 | a redirection consumes at least its operator, flushes the token and leaves the closed stages and the quote state alone |
| Parser.NewStage | shell.c:83-93 | `\|` closes the current stage, with its pending token pushed, and opens a fresh one |
| Parser.Feed | shell.c:54-140 | a one-character turn of the loop closes at most the current stage |
| Parser.Step | shell.c:51-141 | a turn of the loop consumes between one character and the rest of the line, and closes at most the current stage |
| Parser.Finish | shell.c:54-60 | the terminator closes exactly the stage being built |
| Parser.Run | shell.c:51-141 | the scan ends with more stages than it has already closed |
| Parser.Parse | shell.c:40-150 | NULL gives NULL, and a returned pipeline never has a lone head stage without arguments |
| Parser.ParseLine | shell.c:40-150 | the C loop, reading the terminator at `i == len`, returns exactly `Parse(line)` |
| Parser.ScanChar | shell.c:52-140 | one turn of the loop body, branches in the source's order, does what `Step` says |
| Parser.ReadRedirect | shell.c:95-128 | the redirection branch sets what `Redirect` says and stops where it says |
| Parser.SkipBlanks | shell.c:104 | the blank-skipping loop stops after exactly `Blanks` characters |
| Parser.ReadFileName | shell.c:106-120 | reads the name and length `FileName` gives |
| Parser.ReadQuotedName | shell.c:109-115 | a quoted name runs to the matching quote, which it consumes, or to the end of the line |
| Parser.ReadQuotedBody | shell.c:111-114 | the quoted-name loop honours backslash escapes and returns `QuotedName` |
| Parser.ReadBareName | shell.c:116-120 | the unquoted-name loop stops at whitespace (`isspace`), `<`, `>`, `\|`, `&` or the end |
| ParserProperties.RunChar | shell.c:54-93 | outside the escape and redirection branches a turn reads exactly one character |
| ParserProperties.RunLiteralChar | shell.c:138-140 | an ordinary character is appended to the pending token |
| ParserProperties.RunLiteral | shell.c:138-140 | a run of ordinary characters is appended to the pending token as a whole |
| ParserProperties.RunBlank | shell.c:54-62 | an unquoted blank pushes the pending token |
| ParserProperties.FlushIdempotent | shell.c:55-59 | pushing twice is pushing once |
| ParserProperties.RunBlanks | shell.c:54-62 | a run of unquoted blanks acts as a single blank |
| ParserProperties.RunQuoted | shell.c:65-73 | a closed quote adds its contents to the token, blanks and the other quote included, without the quotes |
| ParserProperties.RunUnterminated | shell.c:138-141 | with the quote never closed, the last word is never pushed |
| ParserProperties.RunEscape | shell.c:75-81 | a backslash adds the next character literally, inside quotes too |
| ParserProperties.RunTrailingEscape | shell.c:75-81 | a trailing backslash is dropped |
| ParserProperties.RunAmpersand | shell.c:131-136 | `&` marks the current stage and leaves the token as it is |
| ParserProperties.RunPipe | shell.c:83-93 | `\|` starts a new stage, inside quotes too |
| ParserProperties.RunBlankLine | shell.c:54-62 | a blank line leaves one empty stage |
| ParserProperties.BlankLineGivesNothing | shell.c:143-147 | a NULL, empty or blank line gives no pipeline |
| ParserProperties.AmpersandAloneGivesNothing | shell.c:143-147 | `&` alone gives no pipeline |
| ParserProperties.PipeAloneGivesTwoEmptyStages | shell.c:83-93 | `\|` alone gives two empty stages, not NULL |
| ParserProperties.RunKeepsClosed | shell.c:89-90 | closed stages are never changed again |
| ParserProperties.FeedCountsPipe | shell.c:83-93 | exactly `\|` closes a stage among the one-character turns |
| ParserProperties.RedirectReadsNoPipe | shell.c:95-128 | a redirection to an unquoted target reads no `\|`: the operator, blanks and a bare name that stops at `\|` |
| ParserProperties.BlanksAreBlank | shell.c:104 | the characters skipped after an operator are spaces and tabs |
| ParserProperties.BareLenIsName | shell.c:117-119 | an unquoted target holds none of the characters that end it |
| ParserProperties.SuffixKeepsTargets | shell.c:95-128 | the rest of a line keeps its unquoted targets and its lack of escapes |
| ParserProperties.PipesSplit | shell.c:83-93 | the `\|` of a line are those of its two parts |
| ParserProperties.RunCountsPipes | shell.c:83-128 | without escapes, and with every redirection target unquoted, the scan closes one stage per `\|` and ends with one more |
| ParserProperties.StageCountOfLine | shell.c:83-128 | a line without escapes, with redirections to unquoted targets (`cat < f \| wc`), gives one stage per `\|` plus one |
| ParserProperties.FlushKeepsArgsNonEmpty | shell.c:55-59 | only non-empty tokens are pushed |
| ParserProperties.RedirectKeepsArgs | shell.c:95-100 | a redirection changes the arguments only by pushing the pending token |
| ParserProperties.StepKeepsArgsNonEmpty | shell.c:51-141 | no turn of the loop pushes an empty argument |
| ParserProperties.RunKeepsArgsNonEmpty | shell.c:51-141 | no argument of any stage is ever empty |
| ParserProperties.ParsedArgsNonEmpty | shell.c:40-150 | every argument of a parsed pipeline is non-empty |
| RoundTrip.OpText | shell.c:101-102 | the operator text starts with its operator |
| RoundTrip.BareLenWord | shell.c:117-119 | an unquoted name made of plain characters ends where the word ends |
| RoundTrip.RunRedirect | shell.c:95-128 | `<` or `>` starts a redirection turn in every quote state |
| RoundTrip.RunArg | shell.c:54-63 | a word and a blank become the next argument of the current stage |
| RoundTrip.RunLastWord | shell.c:54-60 | a word at the end of the line is pushed by the terminator |
| RoundTrip.RunArgsText | shell.c:54-63 | a list of words separated by blanks becomes those arguments, in order |
| RoundTrip.BlankThenWord | shell.c:104-120 | one blank is skipped and the word is the whole file name |
| RoundTrip.OpTextThenBlank | shell.c:102 | `>` followed by a blank is not read as `>>` |
| RoundTrip.RedirectText | shell.c:95-128 | `< f `, `> f ` and `>> f ` set the input, output or append target |
| RoundTrip.RunRedirectText | shell.c:95-128 | the redirection texts set their target and end at the blank after the name |
| RoundTrip.RunBackgroundText | shell.c:131-136 | `& ` marks the current stage |
| RoundTrip.RunStageText | shell.c:51-141 | the canonical text of a stage rebuilds that stage |
| RoundTrip.RunPipeText | shell.c:83-93 | `\| ` closes the stage and opens a fresh one |
| RoundTrip.RunPipelineText | shell.c:51-141 | the canonical text of a pipeline rebuilds every stage, in order |
| RoundTrip.ParseOfPipelineText | shell.c:40-150 | round trip: every pipeline `parse_line` can return, with plain words, parses back from its canonical text |
| RoundTrip.RedirectAloneGivesNothing | shell.c:143-147 | `< f `, `> f ` or `>> f ` (with a final blank) and no command gives no pipeline |
| ParserExamples.Plain | shell.h:10-18 | a stage with only arguments set |
| ParserExamples.RunFirstArg | shell.c:54-63 | the first word of a line becomes the first argument |
| ParserExamples.QuotedWordKeepsBlanks | shell.c:65-73 | `cmd 'w' arg` gives the three arguments, the quoted one with its blanks |
| ParserExamples.UnterminatedQuoteDropsWord | shell.c:138-147 | `cmd 'w` gives `cmd` alone |
| ParserExamples.AmpersandInsideWord | shell.c:131-136 | `a&b` gives the single argument `ab` and marks the stage |
| ParserExamples.QuotedPipeSplits | shell.c:83-93 | `'a\|b'` gives two stages |
| ParserExamples.EscapedCharJoins | shell.c:75-81 | `a\cb`, for any character `c`, gives the single argument `acb`; `a\ b` gives `a b` |
| ParserExamples.TrailingBackslashDropped | shell.c:75-81 | `a\` gives `a` |
| ParserExamples.EscapedPipeJoins | shell.c:75-81 | `a\\|b` gives the single argument `a\|b` and one stage, as an instance of `EscapedCharJoins` |
| ParserExamples.QuotedTargetKeepsPipe | shell.c:95-128 | `x > "a\|b"` gives one stage writing the file `a\|b` |
| ParserExamples.RunQuotedPipeTarget | shell.c:95-141 | `> "a\|b"` at the end of the line sets that output file and closes the stage |
| ParserExamples.QuotedPipeRedirect | shell.c:95-128 | the redirection reads the whole of `> "a\|b"`, closing quote included |
| ParserProperties.QuotedNameWord | shell.c:111-114 | a quoted name without escapes runs to the matching quote, which it leaves out |
| ParserProperties.QuotedNameEscapes | shell.c:112 | inside a quoted name a backslash takes the next character literally and reads two characters |
| ParserProperties.FileNameQuotedWord | shell.c:109-115 | a quoted target is its body, and the closing quote is consumed with it |
| ParserExamples.QuotedPipeName | shell.c:111-114 | the quoted name's body stops at the closing quote, keeping the `\|` |
| ParserExamples.LaterRedirectWins | shell.c:122-127 | `cmd >> f > g ` (with a final blank) writes `g`, truncating |
| ParserExamples.AmpersandMarksOneStage | shell.c:131-136 | `a & \| b` marks the head only |
| Builtins.FirstArg | shell.c:252 | `argv[0]` is present exactly when the stage has arguments |
| Builtins.IsBuiltin | utils.c:9-19 | true exactly for `cd`, `pwd`, `help`, `history`, `jobs`, `fg`, `bg` and `exit`; false for NULL |
| Builtins.RunBuiltin | utils.c:21-70 | -1 for NULL, no arguments or an unknown name, and then no effect; 0 for every other built-in; `exit` ends the shell with status 0 |
| Builtins.CdTarget | utils.c:24-32 | `cd` alone goes home, `cd d` goes to `d` |
| Builtins.QuitIsNotBuiltin | utils.c:9-19 | `quit` is not a built-in and `run_builtin` answers -1 for it |
| Executor.RunsInParent | shell.c:178 | the fast path is taken exactly for a single stage whose `argv[0]` is a built-in |
| Executor.ChildPlan | shell.c:218-260 | child i reads a pipe exactly when it is not the head and writes one exactly when it is not the last; a file it opens is its stage's, with the append flag; it runs its stage's arguments, or reaches a NULL `argv` exactly when there are none |
| Executor.LaunchPlan | shell.c:169-290 | NULL does nothing; the in-shell path is taken exactly for a lone stage naming a built-in; otherwise N stages get N children and N-1 pipes, and the shell waits exactly when the head stage has no `&` |
| Executor.ExecuteCommand | shell.c:169-290 | counts the stages, takes the fast path, and builds each child's plan in a loop, exactly as `LaunchPlan` |
| Executor.InParentSucceeds | shell.c:178-181 | the fast path never sees `run_builtin` return -1 |
| Executor.LoneBuiltinIgnoresRedirectionAndBackground | shell.c:178-181 | a lone built-in runs in the shell whatever its redirections and `&` |
| Executor.PipesJoinNeighbours | shell.c:219-231 | pipe k is written by child k alone and read by child k+1 alone |
| Executor.FilesOnlyAtTheEnds | shell.c:219-241 | only the head reads its input file, only the last stage writes its output file, truncating or appending as flagged |
| Executor.ChildRunsItsStage | shell.c:251-260 | a child runs its built-in and exits, or executes its arguments; an argument-less stage reaches a NULL `argv` |
| Executor.WaitReadsOnlyTheHead | shell.c:276-287 | the `&` of stages after the head changes nothing in the plan |
| Shell.PlanOfLine | shell.c:169-170 | nothing is done exactly when `parse_line` returns NULL |
| Shell.LoneStageHasProgram | shell.c:143-147 | a one-stage line that parses always names a program |
| Shell.TrailingAmpersandInPipelineWaits | shell.c:276-287 | `a \| b & ` (with a final blank) is waited for |
| Shell.HeadAmpersandRunsInBackground | shell.c:276-287 | `a & \| b` is not waited for |
| Shell.LonePipeReachesNullArgv | shell.c:252 | `\|` alone spawns two children that reach a NULL `argv` |
| Shell.LoneBuiltinRunsInShell | shell.c:178-181 | a lone built-in word runs in the shell with `run_builtin`'s outcome |
| History.Added | utils.c:81-89 | the history never exceeds `HISTORY_MAX` entries |
| History.Latest | utils.c:83-88 | keeps `n` entries when there are more, all of them otherwise |
| History.Present | utils.c:82 | a run of calls adds at most one line per call |
| History.AddedAll | utils.c:81-89 | any number of calls keeps the history within `HISTORY_MAX` |
| History.AddedKeepsLatest | utils.c:83-88 | one call keeps the latest 500 lines |
| History.LatestOfLatest | utils.c:83-88 | evicting early or late keeps the same latest lines |
| History.PresentAppend | utils.c:82 | the lines added by two runs of calls are those of the first run, then the second |
| History.HistoryKeepsLatest | utils.c:81-89 | after any calls the history is the latest 500 non-NULL lines, oldest first |
| History.DigitChar | utils.c:93 | a digit is one of `0` to `9` |
| History.Decimal | utils.c:93 | a number is written as a non-empty string of digits |
| History.DecimalRoundTrip | utils.c:93 | the digits read back as the number, with no leading zero |
| History.DecimalShort | utils.c:93 | numbers below 10000 take at most four digits |
| History.Spaces | utils.c:93 | the padding is blanks of the requested width |
| History.Pad4 | utils.c:93 | `%4d` takes at least four columns: blanks, then the digits |
| History.Pad4Shape | utils.c:93 | `%4d` of a history number is four columns, blanks then the digits |
| History.Line | utils.c:93-94 | a line holds at least the number, two blanks and the entry, and ends in a newline |
| History.LineShape | utils.c:93-94 | a line is the number, two blanks, the entry, and exactly one final newline |
| History.Numbered | utils.c:92-95 | line i of the listing is entry i numbered i+1 |
| History.Render | utils.c:91-96 | the listing is empty exactly when the history is |
| History.Concat | utils.c:92-95 | no lines write nothing |
| History.ConcatSplit | utils.c:92-95 | writing two runs of lines writes the first, then the second |
| History.RenderSplit | utils.c:91-96 | the listing of two runs of entries is the first's, then the second's numbered on |
| History.RenderAppend | utils.c:91-96 | one more entry adds one more line, numbered after the others |
| History.HistoryTable.Contents | utils.c:74-75 | the lines held are the first `history_count` entries |
| History.HistoryTable.constructor | utils.c:74-75 | the table starts with no line held |
| History.HistoryTable.Init | utils.c:77-79 | `init_history` forgets every line and leaves the table as it is |
| History.HistoryTable.Add | utils.c:81-89 | `add_history` gives `Added` of the old contents; NULL changes nothing |
| History.HistoryTable.EvictOldest | utils.c:84-85 | the `memmove` moves every entry down one place |
| History.HistoryTable.Print | utils.c:91-96 | `print_history` writes the listing of the contents, numbered from 1 |

## Left out

- ParserProperties.StageCountOfLine: lines with a backslash escape or a quoted redirection target are not covered, because they need not give one stage per `|`. `a\|b` and `x > "a|b"` each give one stage (`ParserExamples.EscapedPipeJoins`, `ParserExamples.QuotedTargetKeepsPipe`). The escaped `|` is taken literally, and the quoted target reads the `|` as part of the file name.
- The system calls of `execute_command` are not modelled: `pipe`, `fork`, `dup2`, `open`, `close`, `execvp`, `waitpid` and `_exit`. The plan describes what they are asked to do. Their failure paths (`perror` and the cleanup at shell.c:188-194 and 203-213, exit status 127 when a file or program cannot be opened) and the `pids` array are process lifecycle, not decisions.
- The `[background]` line with the first child's pid (shell.c:280) is output, not a decision.
- Memory management is not modelled: `strdup_safe`, `realloc` in `push_arg`, `free_command`, the `free` of an evicted history entry, and `cleanup_shell`. Values are copied, so there is no aliasing to model.
- The fixed buffers `token[2048]` and `fname[1024]` are written without bounds checks. Tokens and names are unbounded sequences, so the overflow is not modelled.
- `Parser.ParseLine` requires the line to contain no NUL: a C string cannot hold one before its terminator.
- The bodies of the built-ins (`chdir`, `getenv`, `getcwd`, `printf`, `exit`) are not performed. `Builtins.RunBuiltin` names them as an `Action`; `ChangeDir(None)` stands for `$HOME`, when it is set.
- `History.HistoryTable.Print` returns the text instead of writing it. It requires non-empty entries: the C code reads the character before the terminator, which an empty entry does not have. The interactive loop only adds non-empty lines.
- The job and signal stubs are empty functions and are not modelled. The job and readline-history declarations of shell.h have no definitions.
- main.c is not part of this model: the terminal relaunch, the readline loop and its `quit` check. `Shell.PlanOfLine` is `execute_command` applied to `parse_line`'s result, without that check.
- The linked list of `struct command` is a sequence of stages. The C pointer `cur` is always the last stage of that sequence.
