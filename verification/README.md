# dragonshell, modelled in Dafny

dragonshell is a small Unix shell written in C. Its main loop reads a line and
splits it on spaces with `strtok`, stripping one pair of surrounding quotes
from each token. The first token then selects an action:
- `exit`, `pwd` or `cd` runs a built-in;
- any other first token is a program path, and `run_process` starts it.

`run_process` turns the remaining tokens into a command:
- a trailing `&` runs it in the background;
- `<` and `>` redirect its input and output;
- `|` starts a second program fed by a pipe.

It builds the two argument vectors, forks and sets up each child's descriptors
with `open`, `dup2` and `close`. Two global job slots record the running and
the stopped process. Signal handlers for SIGCHLD, SIGINT and SIGTSTP update
them, and `exit` sends SIGTERM to what they hold.

The model covers the following:
- **Tokenizers:** the tokenizers of `dragonshell.c` and `starter_code.c`, with `strtok` as a function (`strtok.dfy`, `tokenizer.dfy`, `starter_tokenizer.dfy`).
- **Helpers:** the argument-array helpers `get_length`, `is_pipe` and `extract_program_name` (`arg_helpers.dfy`).
- **Command classification:** the classification section of `run_process`. `Classify` is the reference definition, and the imperative loop over `i`, `j`, `k` and `mode` is proved to compute it (`command.dfy`). `command_lemmas.dfy` holds the round trip and the characterisations. `command_findings.dfy` shows the loop as written for the inputs it mishandles.
- **Descriptor plan:** modelled as a small language of `open`, `pipe`, `dup2` and `close` calls over a descriptor table. The calls each process issues are written out in the source's order (`descriptors.dfy`).
- **Job slots:** a class with one method per event (`jobs.dfy`).
- **Main loop:** the dispatch in `main`, and `run_process` combined with the job slots (`shell.dfy`).

The following are parameters of the model:
- whether `access()` finds a program executable;
- the pids `fork` returns;
- whether the foreground wait saw its child stop.

A C `char *` array ending in NULL is an `array<Option<string>>`, with `None` for NULL. A delimiter string is the set of its characters.

## Model

| member | source | states |
|---|---|---|
| Tokenizer.StripQuotes | dragonshell.c:62-78 | a string of length at least 2 whose first and last characters are the same quote (`"` or `'`) loses exactly those two characters, and putting the quote back gives the original; any other string is returned unchanged |
| Tokenizer.StripQuotesOfQuoted | dragonshell.c:62-78 | inverse direction: stripping `q + t + q` gives `t` back for either quote character |
| Tokenizer.StripQuotesRemovesOnePair | dragonshell.c:71-76 | only the outer pair is removed: a doubly quoted string keeps its inner quotes |
| Tokenizer.StrLen | dragonshell.c:63 | strlen is the index of the first NUL: every earlier character is not NUL |
| Tokenizer.StripQuotesInPlace | dragonshell.c:62-78 | the memmove and NUL write leave a buffer whose C string is StripQuotes of the old one; bytes past the old terminator are unchanged |
| Tokenizer.Tokenize | dragonshell.c:88-100 | returns n, the number of strtok tokens of the line; argv[0..n) hold those tokens in order, each quote-stripped; argv[n] is NULL; later slots are unchanged; the caller must supply n + 1 slots |
| Tokenizer.QuotedPhraseIsSplit | dragonshell.c:91-95 | quotes do not protect spaces: `echo "hi there" foo` gives the tokens `echo`, `"hi`, `there"` and `foo`, and neither quoted fragment is stripped |
| StarterTokenizer.Tokenize | starter_code.c:11-18 | argv[0..count) receive the tokens verbatim and in order, without quote stripping; no sentinel is written; every other slot keeps its value, so a blank line writes nothing |
| CStrtok.SpanDelims | dragonshell.c:91 | strspn: the leading run of delimiters, which ends at a non-delimiter or at the end |
| CStrtok.SpanToken | dragonshell.c:91 | strcspn: the leading run of non-delimiters, which ends at a delimiter or at the end |
| CStrtok.Split | starter_code.c:13-17 | the sequence of tokens a strtok loop yields on a line: its maximal runs of non-delimiters, left to right (its properties are the lemmas below) |
| CStrtok.Strtok | dragonshell.c:91-95 | the token a strtok call returns lies at or after the resume point, is non-empty and holds no delimiter; the call returns NULL exactly when only delimiters remain |
| CStrtok.StrtokSplit | dragonshell.c:91-95 | one strtok call yields the first remaining token of the split, and resuming after it yields the rest; NULL means the rest splits to nothing |
| CStrtok.SplitTokensAreWords | starter_code.c:13-17 | every token is non-empty and contains no delimiter character |
| CStrtok.SplitConcat | starter_code.c:14-17 | the tokens concatenated are the line with all delimiters removed: nothing lost, nothing reordered |
| CStrtok.SplitEmptyIff | starter_code.c:13-14 | the line has no tokens exactly when it is empty or made only of delimiters |
| CStrtok.SplitJoin | starter_code.c:13-17 | round trip: non-empty, delimiter-free words joined with a delimiter split back into the same words |
| CStrtok.SplitWordThen | starter_code.c:13-17 | a word followed by a delimiter or the end is one whole token, followed by the tokens of the rest |
| CStrtok.SplitCountBound | dragonshell.c:419-420 | a string of length L has at most (L + 1) / 2 tokens |
| ArgHelpers.Arguments | dragonshell.c:134-141 | the strings of a C argument array are its entries before the first NULL, and that NULL follows them |
| ArgHelpers.NullTerminated | dragonshell.c:255-257 | the C layout of an argument list: its strings, then the NULL sentinel |
| ArgHelpers.GetLength | dragonshell.c:134-141 | returns the index of the first NULL: every earlier entry is non-NULL, and it equals the number of arguments |
| ArgHelpers.IsPipe | dragonshell.c:108-117 | returns 1 exactly when some argument before the NULL is `\|`, and 0 exactly when none is |
| ArgHelpers.ExtractProgramName | dragonshell.c:120-131 | the part of the path after its last `/`, or the whole path when it has none (proved in the three lemmas below) |
| ArgHelpers.ProgramNameIsLastComponent | dragonshell.c:120-131 | the program name is a suffix of the path with no `/` in it; when it is shorter than the path, the character before it is `/` (the last one) |
| ArgHelpers.ProgramNameOfPlainName | dragonshell.c:127-130 | a path without `/` is its own program name |
| ArgHelpers.ProgramNameAfterLastSlash | dragonshell.c:122-125 | for any directory part, the name after the last `/` is the program name, even when it is empty |
| CommandModel.ScanFromProps | dragonshell.c:225-253 | the scan fails only when the last token is an operator, whose operand is then missing, and it does fail when the token before that operator is not an operator (the exact condition is ScanErrExact); it never puts an operator into an argument list and gathers no more arguments than there are tokens; after a `\|` the first stage's arguments are final, and before one the second stage gets none |
| CommandModel.ClassifyProps | dragonshell.c:197-257 | "Command not found" exactly when the path is not executable; a missing operand only when the last token is an operator, and surely when the token before it is not one (the exact condition is ClassifyErrExact); on success: the first stage runs the path, each argv[0] is its program's base name, no operator reaches an argument vector, the background flag is set exactly when the last token is `&`, and both vectors together hold at most the tokens plus two names |
| CommandModel.ScanErrExact | dragonshell.c:225-253 | exact error condition: the scan fails if and only if the last token is an operator and the scan of the tokens before it succeeds, i.e. that operator is not consumed as an earlier operator's operand |
| CommandModel.ClassifyErrExact | dragonshell.c:197-257 | the corrected classification (Classify) rejects a line if and only if the path is not executable, or the last token left after a trailing `&` is dropped is an operator that the scan of the tokens before it does not consume; the source itself returns -1 only when access() fails (lines 197-201) |
| CommandModel.ScanFrom | dragonshell.c:225-253 | the classification loop from index i: `<` and `>` record the next token as the input or output file, `\|` records the next token as the second program and switches the arguments to the second stage, other tokens are arguments of the current stage; an operator with no token after it is a MissingOperand error (ScanFromProps) |
| CommandModel.DropBackground | dragonshell.c:203-209 | the background flag is set exactly when the last argument is `&`, and the tokens left are the arguments without it (AmpersandInMiddle, ClassifyProps) |
| CommandModel.Classify | dragonshell.c:197-257 | run_process up to the fork: CommandNotFound when the path is not executable, else the command the scan of the arguments (without a trailing `&`) describes (ClassifyProps, ClassifyRender) |
| CommandModel.Assemble | dragonshell.c:218-257 | the command a successful scan describes: the first stage runs the path with the program's base name and the arguments before any `\|`, the second runs the piped program with its base name and the arguments after it (ClassifyProps) |
| CommandModel.ScanLoop | dragonshell.c:220-253 | the i/j/k/mode loop computes the scan: on an operand-less operator it reports the scan's error; otherwise its redirect files and pipe path are the scan's, and slots 1..j of arguments and 1..k of arguments2 hold the two argument lists; slot 0 of arguments2 is the piped program's base name |
| CommandModel.SlotsHoldVector | dragonshell.c:255-257 | a program name in slot 0, the arguments after it and a NULL make the array hold exactly that vector |
| CommandModel.RemoveBackgroundMarker | dragonshell.c:203-209 | arg_length is the argument count; a trailing `&` sets the flag and is overwritten with NULL, and any other array is left alone |
| CommandModel.BuildVectors | dragonshell.c:213-257 | fresh arguments/arguments2 arrays of exactly arg_length + 2 slots each; the result is the assembled command, and each array begins with its stage's NULL-terminated argv |
| CommandModel.RunProcessParse | dragonshell.c:197-257 | the whole parse section computes Classify of the arguments; argv changes only by the NULL that replaces a trailing `&`; for an executable path both vectors have arg_length + 2 slots and are laid out NULL-terminated in them (rejects `ls > &`, see Left out) |
| CommandLemmas.ScanPlain | dragonshell.c:244-251 | tokens with no operator are appended, in order, to the current stage's arguments |
| CommandLemmas.ClassifyOperatorFree | dragonshell.c:218-251 | an operator-free line without a trailing `&` runs one foreground program, without redirection, on exactly its arguments after the base name |
| CommandLemmas.ScanBody | dragonshell.c:225-253 | scanning a command written back as tokens recovers its redirects, its pipe and both argument lists |
| CommandLemmas.ClassifyRender | dragonshell.c:203-257 | round trip: a well-formed command, written back as tokens (with `&` when in the background), classifies to itself |
| CommandLemmas.PipeAsRedirectTarget | dragonshell.c:225-242 | a `\|` token does not by itself make a pipeline: in `ls -l > \|` it is the output file and there is no second stage, so the test is_pipe performs (dragonshell.c:108, never called by run_process) would misjudge it |
| CommandLemmas.AmpersandInMiddle | dragonshell.c:206-209 | in any operator-free line whose last token is not `&`, every `&` (as in `ls & x`) is an ordinary argument of a foreground command that runs without redirection |
| CommandFindings.LoopAsWrittenAgrees | dragonshell.c:225-242 | on the tokens, their NULL and, after a removed `&`, the old sentinel, the loop as written agrees with the scan wherever the scan succeeds; where the scan reports a missing operand, the loop hands NULL to extract_program_name (after `\|`), reads past the sentinel (after `<` or `>` with no `&`), or ends normally with that redirection cleared (after `<` or `>` before a removed `&`) |
| CommandFindings.RedirectWithoutFile | dragonshell.c:232-235 | `ls >`: the loop as written steps to argv[2], past the NULL at argv[1], while Classify reports MissingOperand(">") |
| CommandFindings.PipeWithoutProgram | dragonshell.c:237-241 | `ls \|`: the loop as written calls extract_program_name on NULL, while Classify reports MissingOperand("\|") |
| CommandFindings.LoopAsWritten | dragonshell.c:225-242 | the loop as written on the whole argument array: it stops at the first NULL, records argv[i + 1] after `<` or `>` whatever it is and steps by two, calls extract_program_name on argv[i + 1] after `\|` (the results are stated by the lemmas around it) |
| CommandFindings.MarkerClearedLayout | dragonshell.c:203-209 | the array the loop reads after the `&` check is the tokens left for the scan, a NULL, and, when a trailing `&` was overwritten, the original sentinel after it |
| CommandFindings.ClassifyAgainstLoop | dragonshell.c:203-242 | for every argument list, the loop as written ends normally with the scan Classify builds on whenever Classify accepts; where Classify reports `<` or `>` without an operand before a trailing `&`, the loop ends normally with that redirection cleared |
| CommandFindings.RedirectBeforeAmpersand | dragonshell.c:206-235 | `ls > &` and `ls > out > &`: the loop as written ends at the old sentinel with no output file (so `> out` is dropped), while Classify reports MissingOperand(">") |
| CommandFindings.ArgumentsArrayTooSmall | dragonshell.c:213-256 | every operator-free command needs more slots than the arg_length declared; `ls -l` needs 3 and gets 1 |
| CommandFindings.VectorsFit | dragonshell.c:213-257 | with arg_length + 2 slots, both vectors and their NULLs always fit |
| Descriptors.RedirectEffect | dragonshell.c:274-285 | open, then dup2 onto the target, then close makes the target descriptor refer to the file and leaves every other descriptor as it was |
| Descriptors.BeforeForkTable | dragonshell.c:260-262 | before fork the shell holds 0, 1 and 2 as inherited; with a pipe, its read end is 3 and its write end is 4, and nothing else is open |
| Descriptors.BeforeFork | dragonshell.c:260-262 | the shell's descriptors just before fork: a pipe is created exactly when the command has a second stage (BeforeForkTable) |
| Descriptors.RedirectOps | dragonshell.c:274-285 | open the file, dup2 it onto the target descriptor, close it (RedirectEffect) |
| Descriptors.Stage1Stdin | dragonshell.c:274-278 | what the first child reads just before execve: the input file, opened read-only, when one is recorded, else the shell's stdin (Stage1Wiring) |
| Descriptors.Stage1Stdout | dragonshell.c:281-293 | what the first child writes to just before execve: the pipe when there is a second stage, since its dup2 is issued last and overrides an output file; else the output file, opened write-only, created and truncated with mode 0644; else the shell's stdout (Stage1Wiring) |
| Descriptors.Stage1Ops | dragonshell.c:273-293 | the first child's calls in source order: input redirect, output redirect, then the pipe calls when there is a second stage (Stage1Wiring) |
| Descriptors.Stage2Ops | dragonshell.c:318-320 | the second child's calls: close the write end, dup2 the read end onto stdin, close the read end (Stage2Wiring) |
| Descriptors.ParentCloseOps | dragonshell.c:328-329 | the shell closes both pipe ends after the second fork (ParentClosesPipe) |
| Descriptors.Stage1RedirectsEffect | dragonshell.c:273-286 | the first child's redirects set stdin to the input file and stdout to the output file, each only when given, and touch no other descriptor |
| Descriptors.Stage1PipeEffect | dragonshell.c:289-293 | the first child's pipe calls put the write end on stdout and close both original pipe descriptors, changing nothing else |
| Descriptors.Stage1Wiring | dragonshell.c:260-293 | just before execve, stage 1's stdin is the input file if given, else inherited; its stdout is the pipe's write end if piping, else the output file if given, else inherited (the pipe's dup2 comes last); stderr is inherited; nothing else is open |
| Descriptors.Stage2Wiring | dragonshell.c:316-320 | stage 2's stdin is the pipe's read end; its stdout and stderr are inherited (no file redirect applies to it); nothing else is open |
| Descriptors.ParentClosesPipe | dragonshell.c:327-329 | after the second fork the shell's descriptor table is again what it was before the command |
| Jobs.SigtermTargetsExact | dragonshell.c:360-366 | exit sends SIGTERM to a pid exactly when it is positive and held in one of the two slots, with the running one first; from the idle start it kills nothing |
| Jobs.SigtermTargets | dragonshell.c:360-366 | the pids exit sends SIGTERM to, in order: the running one if positive, then the stopped one if positive (SigtermTargetsExact) |
| Jobs.Next | dragonshell.c:27-59 | the effect of one event on the slots: a fork puts its pid in the running slot (line 265), SIGCHLD empties it, SIGINT and SIGTSTP empty it when it holds a process, a stop seen by the wait fills the stopped slot (line 344) (PromptSignalsProps, StoppedOnlyByWait) |
| Jobs.SignalEcho | dragonshell.c:36-42 | the handlers print a fresh prompt when nothing runs, a newline otherwise (HandleSigint, HandleSigtstp) |
| Jobs.PromptSignalsProps | dragonshell.c:34-59 | SIGINT and SIGTSTP leave the stopped slot alone and leave no running process; they change nothing exactly when none was running; a second signal changes nothing more; the two handlers act alike |
| Jobs.StoppedOnlyByWait | dragonshell.c:27-59 | no handler writes the stopped slot, only the foreground wait does; SIGCHLD empties the running slot unconditionally; a fork makes its pid the running one |
| Jobs.SlotsComeFromEvents | dragonshell.c:264-345 | after any events each slot holds its old value, or a pid a fork returned or the wait saw stopped (or, for the running slot, -1) |
| Jobs.ExitKillsOnlyRecorded | dragonshell.c:360-366 | from the idle start exit only kills positive pids the shell forked or saw stopped, never -1 or 0 |
| Jobs.StoppedIsLastStop | dragonshell.c:341-345 | the stopped slot holds the pid of the last stop the wait saw |
| Jobs.StoppedKept | dragonshell.c:27-59 | events other than the wait's stop never change the stopped slot |
| Jobs.JobSlots.constructor | dragonshell.c:18-19 | both slots start at -1 |
| Jobs.JobSlots.Spawn | dragonshell.c:264-265 | the fork's pid becomes the running one, and the stopped slot is unchanged |
| Jobs.JobSlots.HandleSigchld | dragonshell.c:27-31 | the running slot becomes -1 whatever it held |
| Jobs.JobSlots.HandleSigint | dragonshell.c:34-45 | prints a fresh prompt when nothing runs (state unchanged); else prints a newline and empties the running slot |
| Jobs.JobSlots.HandleSigtstp | dragonshell.c:48-59 | the same decisions as the SIGINT handler |
| Jobs.JobSlots.AfterForegroundWait | dragonshell.c:338-345 | a stopped child becomes the stopped process; otherwise nothing changes |
| Jobs.JobSlots.ExitTargets | dragonshell.c:357-366 | the SIGTERM targets: exactly the positive slot values, running first, at most two |
| Shell.DispatchDecides | dragonshell.c:437-460 | the first token alone decides: `exit` and `pwd` ignore what follows; `cd` takes the second token or `""`; any other first token is run as a program on exactly the remaining tokens; no tokens, no action |
| Shell.Tokens | dragonshell.c:88-100 | the tokens tokenize stores for a line: its space-separated words, each with one pair of surrounding quotes stripped (HandleLine, QuotedExit, LeadingSpace) |
| Shell.Dispatch | dragonshell.c:437-460 | the corrected dispatch: nothing on a blank line, else the built-in the first token names or a program run on the remaining tokens (DispatchDecides) |
| Shell.DispatchAsWritten | dragonshell.c:437-460 | the dispatch as written: undefined (strcmp on NULL) on a blank line, otherwise Dispatch (DispatchAsWrittenAgrees) |
| Shell.LineAction | dragonshell.c:432-460 | what the main loop does with a line: Dispatch of its Tokens |
| Shell.DispatchAsWrittenAgrees | dragonshell.c:432-437 | the dispatch as written agrees with Dispatch on every non-empty token list, and is undefined exactly on the empty one |
| Shell.BlankLine | dragonshell.c:425-437 | a line of spaces, including the empty line, has no tokens: as written it reaches strcmp(NULL, "exit"), while the model does nothing |
| Shell.LeadingSpace | dragonshell.c:432 | spaces before the command change nothing |
| Shell.TokensRejoin | dragonshell.c:88-100 | when no word of the line is quoted, writing its tokens back with single spaces and tokenizing again gives the same tokens |
| Shell.TokensRejoinDiffers | dragonshell.c:62-78 | with quoted words the round trip fails: `""` is one empty token that vanishes when written back, and `"'x'"` gives `'x'`, which tokenizes to `x` |
| Shell.ExitWithArguments | dragonshell.c:437-439 | `exit` followed by anything still leaves the shell |
| Shell.QuotedExit | dragonshell.c:432-437 | tokens are stripped before comparison, so `"exit"` also leaves the shell |
| Shell.CdAlone | dragonshell.c:447-451 | `cd` alone calls cd with the empty string |
| Shell.TenWordsOverflow | dragonshell.c:420 | ten one-character words, such as `a b c d e f g h i j`, fit the line buffer, yet tokenize writes their NULL into tokens[10], past the declared array |
| Shell.LineFits | dragonshell.c:419-420 | every line that fits the 100-character buffer has at most 50 tokens, so 51 slots hold its tokens and NULL |
| Shell.JobEvents | dragonshell.c:264-345 | the slot events running a command causes: none on error, the two forks of a pipeline, the fork and a stop seen by the wait for a single foreground stage, else the single fork (JobEffect) |
| Shell.JobEffect | dragonshell.c:264-345 | before any signal event (SIGCHLD empties the running slot): a rejected command leaves the slots alone; a pipeline leaves its second stage running (pid2) and never records a stop; a single stage leaves its pid running and, in the foreground, becomes the stopped one when the wait saw it stop |
| Shell.RunProcess | dragonshell.c:184-352 | run_process computes Classify of its arguments; argv changes only by the NULL that replaces a trailing `&` of an executable command; the job slots take the events of that command: no fork on error, one or two spawns, a recorded stop |
| Shell.HandleLine | dragonshell.c:423-460 | one pass of the main loop on any token array with a slot for each token and the NULL (main's 10 slots for lines of up to 9 tokens; LineFits shows 51 always suffice): the array holds the line's tokens, then a NULL, and later slots keep their old contents; the action is the dispatch of those tokens; a program run classifies exactly the tokens after the first and moves the slots as RunProcess says; built-ins and blank lines leave the slots alone |

## Left out

- fork, execve, waitpid, kill and the real effects of open, dup2, close and pipe are not executed. The model covers the decisions taken around them: the descriptor plan, the slot updates and the SIGTERM targets. A failing open, pipe or fork is not modelled.
- The handlers are modelled as atomic sequential steps. Their installation with sigaction, the SA_RESTART / SA_NOCLDSTOP flags and the interleavings of asynchronous signals are not modelled. waitpid in the SIGCHLD handler only reaps, so it does not appear.
- The children's fall-through when execve fails is not modelled. The first child sets running to -1 (line 297) and returns into the main loop as a second shell; the second child's failed execve (line 323) falls through to `return 0` (line 353) without touching the slot, and also returns into the main loop.
- CPU time reporting (times, sysconf, the `%.2f` division) is left out because it is OS accounting and floating point.
- pwd and cd are not modelled beyond the argument the dispatch hands cd, because they are thin wrappers over getcwd and chdir.
- The prompt and welcome messages are not modelled: printf and fflush are output only. The same goes for "Command not found" and "PID %d is sent to background".
- fgets and the newline removal `str[len - 1] = '\0'` are not modelled; HandleLine receives the line with its newline removed.
- Tokenizer.Tokenize and StarterTokenizer.Tokenize do not model strtok writing NUL characters into the line buffer, or its hidden static position. Tokens are values here, and the resume position is passed explicitly.
- Shell.HandleLine copies tokens + 1 into a new array instead of aliasing main's token array, so run_process overwriting a trailing `&` with NULL is not seen in main's array.
- Descriptors: the shell is assumed to hold only descriptors 0, 1 and 2 when a command starts. Stage 2 never has file redirects, as in the source.
- A background pipeline is waited for like a foreground one: the source's pipe branch ignores the background flag, and so does Shell.JobEvents.
- RunProcessParse, like Classify, ScanLoop and Shell.RunProcess, rejects `<` or `>` without an operand before a trailing `&` (`ls > &`, `ls > out > &`) with MissingOperand. The source runs such a command in the background with that redirection cleared (`> out` dropped). The model follows the intended behaviour; the source's behaviour is stated by CommandFindings.RedirectBeforeAmpersand and CommandFindings.ClassifyAgainstLoop.
- ArgHelpers.ExtractProgramName returns the string after the last `/`. The source returns a pointer into the same buffer; aliasing is not modelled.

## Where the intended behaviour and the code differ

The shell's intended behaviour and its code part ways in these cases; the model follows the code in each:
- **Quotes:** quoting is meant to let `echo "hi there" foo` yield a single token `hi there`. The code splits on spaces before stripping quotes, so it yields `"hi` and `there"` (Tokenizer.QuotedPhraseIsSplit).
- **Re-tokenizing:** writing the tokens back with single spaces and tokenizing again is meant to give the same tokens. That holds when no word is quoted (Shell.TokensRejoin), but stripping quotes breaks it otherwise: `""` gives one empty token that disappears, and `"'x'"` gives `'x'`, which tokenizes to `x` (Shell.TokensRejoinDiffers).
- **SIGCHLD:** the running slot is meant to be cleared only when the reaped child is the running one. The handler clears it unconditionally (Jobs.StoppedOnlyByWait).
- **Several `|` operators:** the last program named wins. All arguments after the first `|` go to the second stage.
- **`&`:** it only counts when it is the last token (CommandLemmas.AmpersandInMiddle).

## Findings

| source | as written | input that shows it | evidently intended | confidence | as-written member | corrected member |
|---|---|---|---|---|---|---|
| dragonshell.c:227-241 | an operator that is the last token takes a NULL as its operand: `\|` passes it to extract_program_name; `<` and `>` step `i` past the sentinel and the loop reads beyond the argument list, or, before a trailing `&`, take the NULL written over the `&`, stop at the old sentinel and run the command with that redirection silently cleared | `ls >`, `ls \|`, `ls > &`, `ls > out > &` | reject the line as missing an operand, with or without a trailing `&` | not executed | CommandFindings.LoopAsWrittenAgrees | CommandModel.ClassifyErrExact |
| dragonshell.c:213-256 | the argument vectors are declared with arg_length slots, but the first holds the program name, its arguments and a NULL | `ls -l`: 3 entries in 1 slot | arg_length + 2 slots, as CommandModel.BuildVectors allocates | not executed | CommandFindings.ArgumentsArrayTooSmall | CommandFindings.VectorsFit |
| dragonshell.c:432-437 | on a blank line tokens[0] is the NULL sentinel, and strcmp(NULL, "exit") is undefined behaviour | the empty line, or `   ` | prompt again | not executed | Shell.DispatchAsWrittenAgrees | Shell.BlankLine |
| dragonshell.c:420 | tokens has 10 slots, but tokenize writes the NULL after the last token, so ten tokens write tokens[10] | `a b c d e f g h i j` | one slot more than the most tokens a line can have: 51 for the 100-character buffer | not executed | Shell.TenWordsOverflow | Shell.LineFits |
