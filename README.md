# A model of the shell evaluator `evaluer_expr`

This project models `evaluer_expr` from `Evaluation.c`, the part of a small
Unix shell that runs a parsed command line. The command line arrives as an
expression tree: an empty line, a simple command, a background job, `;`,
`&&`, `||`, a pipeline, or one of five redirections (`<`, `>`, `>>`, `2>`,
`&>`). `evaluer_expr` walks the tree, forks children, moves file descriptors
around with `dup`, `dup2`, `open`, `pipe` and `close`, and returns a wait
status. When a system call it checks fails, it makes the whole shell exit
(`check`).

The model has two levels:

* `Semantics.Eval` is a pure function. It maps a world, an expression and
  the shell process's state to an outcome. The state is the descriptor
  table, a counter for fresh open file descriptions, and the log of writes.
  The outcome is either a status with the new state, or `Abort` (the shell
  exited). The world holds four things the shell cannot decide: the wait
  status of an external command, whether a path can be opened with given
  flags, the descriptor limit, and whether `fork` succeeds.
* `Interpreter.Process` is a class whose fields are that state. Its methods
  perform the system calls one by one, in the order the C code makes them.
  `Evaluate` is the recursive walk. Each method's postcondition ties the
  status it returns and the state it leaves to `Eval`. The children of a
  background job and of a pipeline are fresh `Process` objects built by the
  `Fork` constructor from a copy of the parent's state; nothing they do to
  their own tables reaches the parent. The child a simple command forks
  (Evaluation.c:57-60) is not built: it changes no descriptor, so the
  built-ins' writes are made on the shell's own object.

The system calls themselves live in module `Fds`. They follow
POSIX.1-2017:

* `dup`, `open` and `pipe` take the lowest-numbered free descriptor
  (section 2.14, "File Descriptor Allocation").
* They fail with EMFILE when that descriptor is not below the limit.
* `dup` and `dup2` fail with EBADF when the source descriptor is not open.
* `dup2` also fails with EBADF when the target is not below the limit.

A wait status for a child that called `exit(s)` is `(s % 256) * 256`. Only
the low eight bits of `s` reach the parent (POSIX.1-2017, `exit()`), and 0
means success.

`Echo` models the `echo` built-in's printing loop and proves that its
output can be parsed back into its arguments when there is at least one
argument and no argument contains a space. `Properties` states what the
evaluator guarantees, and two quirks of the pipeline case:

* **Pipe descriptor leak.** The parent copies stdin and stdout before
  forking (Evaluation.c:127-130). Only the children use the copies, to
  point their own stdout or stdin back (Evaluation.c:143, 158); the parent
  only ever closes the two pipe ends (Evaluation.c:164-165). The two copies stay
  open (`PipeLeaksTwoCopies`). When stderr was closed, one copy lands on
  descriptor 2, so stderr is open on stdin afterwards
  (`PipeReopensClosedStderr`).
* **Pipe status truncation.** The downstream child passes a raw wait status
  to `exit()` (Evaluation.c:161). Only its low byte survives. A downstream
  command that fails with exit code c yields status c * 256, and the
  pipeline then reports success (`PipeMasksDownstreamFailure`).

Three more facts of the code that the model keeps:

* Every checked call that fails makes the whole shell exit with
  EXIT_FAILURE (`check`, Evaluation.c:18-25); the model's `Abort`.
* A redirection saves all three standard descriptors (Evaluation.c:179-184),
  but it only points back the streams it redirected (Evaluation.c:203-208).
* `echo` runs in a forked child (Evaluation.c:57-62), so when `fork` fails
  the shell exits even for `echo`.

## Model

| member | source | states |
|---|---|---|
| Fds.LowestFree | Evaluation.c:127-132 | the descriptor chosen by lowest-first allocation is free, and every descriptor below it is open |
| Fds.LowestFreeBound | Evaluation.c:179-184 | a helper fact about the allocation the dups use: the lowest free descriptor is never above the number of open descriptors |
| Fds.LowestFreeUnique | Evaluation.c:179-184 | a helper fact about the allocation the dups use: a free descriptor with every lower one open is the lowest free one |
| Fds.Dup | Evaluation.c:127-130 | dup(fd) succeeds exactly when fd is open and the lowest free descriptor is below the limit |
| Fds.DupShape | Evaluation.c:179-184 | a successful dup puts fd's description on the lowest free descriptor, adds only that descriptor, and changes no other entry, counter or output |
| Fds.Dup2 | Evaluation.c:194-199 | dup2(a, b) succeeds exactly when a is open and b is below the limit |
| Fds.Dup2Shape | Evaluation.c:203-208 | a successful dup2(a, b) makes b refer to a's description and changes no other descriptor |
| Fds.Close | Evaluation.c:210-213 | close removes exactly fd and leaves the other entries, counter and output alone |
| Fds.Open | Evaluation.c:186-192 | open succeeds exactly when the path may be opened and the lowest free descriptor is below the limit |
| Fds.OpenShape | Evaluation.c:186-192 | a successful open puts a fresh description of the file, with the given flags and mode, on the lowest free descriptor, and changes nothing else |
| Fds.MakePipe | Evaluation.c:132 | pipe succeeds exactly when, after the read end takes the lowest free descriptor, the next lowest free one is below the limit; the read end is the lowest free descriptor and the write end the lowest free one after it, both of a fresh pipe, and every open descriptor is kept |
| Fds.MakePipeNeedsTwoFree | Evaluation.c:132 | pipe fails exactly when fewer than two descriptors below the limit are free |
| Fds.Emit | Evaluation.c:69-72 | a write to an open descriptor appends one write to its description; a write to a closed descriptor is lost; the table does not change |
| Echo.EchoLoop | Evaluation.c:64-72 | the loop prints the arguments after argument 0, separated by single spaces, then one newline |
| Echo.SplitJoin | Evaluation.c:64-71 | splitting the printed line at spaces gives back the arguments when no argument holds a space |
| Echo.JoinFront | Evaluation.c:64-71 | the joined text is the first argument, a space, then the rest joined |
| Echo.NewlineOnlyAtEnd | Evaluation.c:72 | the printed text ends in a newline and, when no argument holds one, contains no other |
| Echo.EchoExamples | Evaluation.c:62-73 | `echo` alone prints just a newline; `echo a b` prints "a b\n" |
| Echo.Split | Evaluation.c:64-71 | models nothing in the loop itself: it is the reader's inverse of the printed line, used by `SplitJoin`; splitting a line always gives at least one word |
| Semantics.Exited | Evaluation.c:88-89 | a wait status for exit(s) is a multiple of 256 below 65536, and it is 0 exactly when the low byte of s is 0 |
| Echo.Join | Evaluation.c:64-71 | no contract of its own: the arguments after argument 0 joined by single spaces; `EchoLoop`, `JoinFront`, `SplitJoin` and `NewlineOnlyAtEnd` state its properties |
| Echo.EchoText | Evaluation.c:64-72 | no contract of its own: the joined arguments and one newline; `EchoLoop` proves the loop computes it, and `SplitJoin` and `NewlineOnlyAtEnd` state its properties |
| Semantics.FlagsOf | Evaluation.c:186-191 | no contract of its own: the open flags of each redirection kind; `RedirectFlags` states them |
| Semantics.ModeOf | Evaluation.c:186-191 | no contract of its own: mode 0664 for the writing kinds; `RedirectFlags` states it |
| Semantics.Rebinds | Evaluation.c:194-199 | no contract of its own: which standard streams each kind redirects; `RedirectFlags` states them |
| Semantics.RebindIf | Evaluation.c:194-208 | no contract of its own: one conditional dup2; `RebindStdShape` and `RebindStdSucceeds` state its effect |
| Semantics.RebindStd | Evaluation.c:194-208 | no contract of its own: the three conditional dup2 calls; `RebindStdShape` and `RebindStdSucceeds` state when they succeed and what they leave |
| Semantics.SaveStd | Evaluation.c:179-184 | no contract of its own: dup(0), dup(1), dup(2) with their checks; `SaveStdShape` and `SaveStdSucceeds` state its result |
| Semantics.RedirectSetup | Evaluation.c:179-199 | no contract of its own: save, open, redirect; `RedirectSetupShape`, `RedirectSetupSucceeds` and `RedirectFailuresAbort` state its result |
| Semantics.RedirectFinish | Evaluation.c:203-213 | no contract of its own: redirect back and close the four saved descriptors; `RedirectFinishShape`, `FinishUndoesSetup` and `RedirectRoundTrip` state its result |
| Semantics.PipeSetup | Evaluation.c:127-132 | no contract of its own: the two dups and the pipe; `PipeSetupShape` and `WithStdCopiesShape` state its result |
| Semantics.UpstreamStart | Evaluation.c:139-141 | no contract of its own: the upstream child's close and dup2 onto stdout; `UpstreamStarts` proves the dup2 succeeds once the pipe exists |
| Semantics.UpstreamExit | Evaluation.c:142-146 | no contract of its own: the value the upstream child passes to exit(); `UpstreamExitsWithLeftStatus` proves it is the left side's status whenever the left side completes; the shell discards it (Evaluation.c:167) |
| Semantics.DownstreamStart | Evaluation.c:154-156 | no contract of its own: the downstream child's close and dup2 onto stdin; `DownstreamStarts` proves the dup2 succeeds once the pipe exists |
| Semantics.DownstreamExit | Evaluation.c:157-161 | no contract of its own: the value the downstream child passes to exit(); `PipeStatusIsTruncated` and `PipeMasksDownstreamFailure` state what the parent reports from it |
| Semantics.Eval | Evaluation.c:36-220 | no contract of its own: the evaluator; `Interpreter.Process.Evaluate` is proved to agree with it, and `EvalExtends`, `StdStreamsRestored`, `NoPipeKeepsTable` and `OutputOnlyGrows` state its properties |
| Semantics.EvalPipe | Evaluation.c:121-171 | no contract of its own: the pipeline case; `PipeCase`, `PipeParentTable`, `PipeStatusIsTruncated` and the other `Pipe` lemmas state its result |
| Semantics.EvalRedirect | Evaluation.c:173-215 | no contract of its own: the redirection case; `RedirectCase`, `RedirectReturnsLeftStatus` and `RedirectRestoresStdStreams` state its result |
| Interpreter.Process.constructor | Evaluation.c:36 | the process starts in the given state |
| Interpreter.Process.Fork | Evaluation.c:57-60 | a forked child starts with a copy of its parent's state |
| Interpreter.Process.Dup | Evaluation.c:127-130 | the in-place dup returns -1 and changes nothing exactly when `Fds.Dup` fails; otherwise it returns the new descriptor and leaves exactly `Fds.Dup`'s state |
| Interpreter.Process.Dup2 | Evaluation.c:194-199 | the in-place dup2 returns -1 and changes nothing exactly when `Fds.Dup2` fails; otherwise it returns b and leaves exactly `Fds.Dup2`'s state |
| Interpreter.Process.Open | Evaluation.c:186-192 | the in-place open returns -1 and changes nothing exactly when `Fds.Open` fails; otherwise it returns the descriptor and leaves `Fds.Open`'s state |
| Interpreter.Process.MakePipe | Evaluation.c:132 | the in-place pipe fails and changes nothing exactly when `Fds.MakePipe` fails; otherwise it returns both ends and leaves `Fds.MakePipe`'s state |
| Interpreter.Process.Close | Evaluation.c:164-165 | the in-place close leaves exactly the state of `Fds.Close` |
| Interpreter.Process.Emit | Evaluation.c:69-78 | the in-place write leaves exactly the state of `Fds.Emit` |
| Interpreter.Process.Evaluate | Evaluation.c:36-220 | the step-by-step evaluator aborts exactly when `Eval` aborts; otherwise it returns `Eval`'s status and leaves `Eval`'s state |
| Interpreter.Process.RunBackground | Evaluation.c:93-104 | the background case agrees with `Eval`: it aborts when fork fails, otherwise returns 0 with the parent unchanged, whatever the child does |
| Interpreter.Process.RunPipe | Evaluation.c:121-171 | the pipeline case agrees with `Eval`, step for step through the dups, the pipe, both forks and both closes |
| Interpreter.Process.Upstream | Evaluation.c:137-147 | the upstream child exits with the value `UpstreamStart` and `UpstreamExit` give for the left side's outcome, which `UpstreamExitsWithLeftStatus` proves is the left side's status whenever that completes; the shell discards it |
| Interpreter.Process.Downstream | Evaluation.c:152-162 | the downstream child exits with the value `DownstreamStart` and `DownstreamExit` give for the right side's outcome |
| Interpreter.Process.RebindStreams | Evaluation.c:194-208 | the three conditional dup2 calls fail exactly when `RebindStd` fails, and otherwise leave its state |
| Interpreter.Process.SaveStdStreams | Evaluation.c:179-184 | dup(0), dup(1), dup(2) fail exactly when `SaveStd` fails, and otherwise return its copies and leave its state |
| Interpreter.Process.SaveAndRedirect | Evaluation.c:179-199 | the first half of a redirection fails exactly when `RedirectSetup` fails, and otherwise returns its saved descriptors and leaves its state |
| Interpreter.Process.RestoreAndClose | Evaluation.c:203-213 | the second half of a redirection fails exactly when `RedirectFinish` fails, and otherwise leaves its state |
| Interpreter.Process.RunRedirect | Evaluation.c:173-215 | the redirection case agrees with `Eval` |
| Properties.EmptyIsNoOp | Evaluation.c:47-49 | an empty line returns 0 and changes nothing |
| Properties.EchoCommand | Evaluation.c:57-73 | echo aborts when fork fails; otherwise it returns 0, keeps the table, and, when stdout is open, appends the joined arguments and a newline to stdout's description |
| Properties.SourceAndExternalCommands | Evaluation.c:75-89 | `source` writes its diagnostic to stderr and returns exit code 1; any other command returns the status the world gives for its argument vector and changes nothing |
| Properties.BackgroundIgnoresJob | Evaluation.c:93-104 | a background job returns 0 at once with the state unchanged, and which job it is makes no difference |
| Properties.SequenceRunsBoth | Evaluation.c:107-111 | `l ; r` aborts when l does, and otherwise is r run in the state l left |
| Properties.AndThenShortCircuits | Evaluation.c:112-118 | `l && r` runs r exactly when l returned 0; otherwise it is l's outcome, state included |
| Properties.OrElseShortCircuits | Evaluation.c:112-118 | `l \|\| r` runs r exactly when l returned nonzero; otherwise it is l's outcome, state included |
| Properties.SequencingIsAssociative | Evaluation.c:107-118 | regrouping a chain of `;`, of `&&` or of `\|\|` does not change its outcome |
| Properties.RedirectFlags | Evaluation.c:186-199 | `<` opens read-only onto 0; `>>` opens appending onto 1; `>`, `2>` and `&>` open truncating onto 1, 2, and both; every writing kind creates with mode 0664 |
| Properties.RebindStdShape | Evaluation.c:194-208 | the conditional dup2 calls succeed when their sources are open and above their targets, and afterwards exactly the rebound streams hold their sources' old descriptions |
| Properties.RebindStdSucceeds | Evaluation.c:194-208 | with a limit of at least 3, the conditional dup2 calls succeed whenever the source of every rebound stream is open |
| Properties.SaveStdShape | Evaluation.c:179-184 | the three copies are fresh and distinct, and hold stdin, stdout and stderr's descriptions; afterwards 0, 1 and 2 are all open, and a closed standard descriptor is where a copy landed |
| Properties.RedirectSetupUnfold | Evaluation.c:179-199 | a successful first half made each of its calls succeed, in order |
| Properties.RedirectSetupShape | Evaluation.c:179-199 | after the first half, stdin was open and the file could be opened; four fresh descriptors are added; exactly the rebound streams point at the new file; the copies hold the old descriptions |
| Properties.SaveStdSucceeds | Evaluation.c:179-184 | the three dups succeed when stdin is open and the table has at most the limit minus three entries |
| Properties.RedirectSetupSucceeds | Evaluation.c:179-199 | the first half succeeds when stdin is open, the target can be opened, and the table has at most the limit minus four entries |
| Properties.RedirectFinishShape | Evaluation.c:203-213 | with a limit of at least 3 and the copies open on descriptors above the streams they saved (stdin's above 0, stdout's above 1, stderr's above 2), the second half succeeds; it points the rebound streams at the copies and closes the copies and the file |
| Properties.SetupPrepares | Evaluation.c:179-199 | what the first half leaves is what the second half needs to undo it |
| Properties.FinishUndoesSetup | Evaluation.c:179-213 | undoing a prepared redirection never fails; every descriptor open before is back on its old description; the table is the old one when the left side kept it unchanged |
| Properties.FinishRestores | Evaluation.c:203-213 | one descriptor of that round trip: open before means open, on the same description, after |
| Properties.RedirectRoundTrip | Evaluation.c:179-213 | setup then finish around a left side that keeps its descriptors restores every old descriptor, removes only the four it added, and gives back the whole table when the left side changed nothing |
| Properties.RedirectCase | Evaluation.c:201-214 | after a successful first half, a redirection aborts when its left side does, and otherwise finishes with the left side's status |
| Properties.RedirectReturnsLeftStatus | Evaluation.c:201-214 | a redirection completes exactly when its setup and its left side do, and then returns the left side's status |
| Properties.RedirectFailuresAbort | Evaluation.c:179-192 | a target that cannot be opened, or a closed stdin, makes the shell exit |
| Properties.RedirectRestoresStdStreams | Evaluation.c:203-213 | after a redirection each of 0, 1 and 2 is open exactly when it was before, on the same description |
| Properties.WithStdCopies | Evaluation.c:127-130 | the table after the two pipeline dups keeps every open descriptor |
| Properties.WithStdCopiesShape | Evaluation.c:127-130 | the two dups open exactly two new, distinct descriptors, the lowest free ones |
| Properties.PipeSetupShape | Evaluation.c:127-132 | before forking, the parent's table is the two copies plus the read and write ends of a fresh pipe, on free descriptors below the limit |
| Properties.PipeCase | Evaluation.c:134-170 | once the pipe exists and fork works, the pipeline completes and the parent ends with both pipe ends closed |
| Properties.PipeParentTable | Evaluation.c:127-170 | after a pipeline the parent's table is exactly the old one plus the two copies, and, since writes made inside pipeline children are not logged, the model's log of writes is unchanged |
| Properties.PipeKeepsParentStreams | Evaluation.c:127-170 | a pipeline never closes or redirects a descriptor the parent had open |
| Properties.PipeLeaksTwoCopies | Evaluation.c:127-165 | after a pipeline exactly two more descriptors are open: copies of stdin and stdout on the two lowest descriptors that were free |
| Properties.PipeReopensClosedStderr | Evaluation.c:127-130 | a pipeline run with stderr closed leaves stderr open on stdin's description |
| Properties.PipeReopensClosedStdout | Evaluation.c:127-130 | a pipeline run with stdout closed leaves stdout open on stdin's description |
| Properties.PipeDoesNotAbortAfterSetup | Evaluation.c:134-170 | once the pipe exists and fork works, failures in the children never make the shell exit |
| Properties.PipeIgnoresUpstream | Evaluation.c:137-170 | the shell discards the upstream child's status (Evaluation.c:167); in the model, where a command's status does not depend on what it reads, the left side has no effect on the pipeline's outcome |
| Properties.PipeStatusIsTruncated | Evaluation.c:157-170 | the pipeline's status is (t % 256) * 256, where t is the downstream side's raw status |
| Properties.PipeMasksDownstreamFailure | Evaluation.c:157-170 | a downstream side that exits normally with any code yields pipeline status 0 |
| Properties.UpstreamExitsWithLeftStatus | Evaluation.c:142-146 | for the parent state the pipe setup leaves and the child state after its dup2 onto the pipe, a left side that completes makes the child exit with its status |
| Properties.UpstreamStarts | Evaluation.c:139-141 | once the pipe exists, the upstream child can always redirect its stdout to the write end |
| Properties.DownstreamStarts | Evaluation.c:154-156 | once the pipe exists, the downstream child can always redirect its stdin to the read end |
| Properties.ForkFailureAborts | Evaluation.c:57-150 | when fork fails, a simple command, a background job and a pipeline all make the shell exit |
| Properties.OutOfDescriptorsAborts | Evaluation.c:127-184 | with no free descriptor below the limit, a redirection and a pipeline both make the shell exit |
| Properties.EvalExtends | Evaluation.c:36-220 | no evaluation closes or redirects a descriptor that was open when it started |
| Properties.StdStreamsRestored | Evaluation.c:36-220 | an evaluation started with 0, 1 and 2 open ends with each on the description it started with |
| Properties.NoPipeKeepsTable | Evaluation.c:173-215 | without a pipeline anywhere in it, an evaluation leaves the descriptor table exactly as it found it |
| Properties.OutputOnlyGrows | Evaluation.c:36-220 | the shell's writes are only ever appended |
| Properties.EchoIntoFile | Evaluation.c:62-215 | `echo hi > f` in a fresh shell writes "hi\n" to a new truncating description of f with mode 0664, returns 0, and leaves the table as it started |
| Properties.EchoIntoFileSetup | Evaluation.c:179-199 | in a fresh shell the first half of `> f` saves the copies on 3, 4 and 5, opens f on 6, and points stdout at it |
| Properties.EchoIntoFileFinish | Evaluation.c:203-213 | the second half then puts stdout back and closes 3 to 6, giving the starting table |

## Left out

- Signal handling (`act`, `sig_handler`, and the `sigaction`/`sigprocmask` calls at the top of every evaluation) is asynchronous plumbing. The model assumes `sigaction` succeeds.
- `fork`, `execvp`, `waitpid` and the PATH search are not modelled. An external command's wait status is the world's `run` function of its argument vector. Whether `fork` succeeds is one flag, `forkOk`, used for every fork.
- Termination by a signal and the rest of the wait-status layout are not modelled, beyond "exit code c is encoded as c * 256".
- File contents, pipe byte streams and stdio buffering are not modelled. The output log records only the text of `echo` and the diagnostic of `source`, and which description each went to, not what ends up in a file. The writes of external commands are never logged. So two appending redirections to one path cannot be compared by content.
- Writes made by a background job or by either child of a pipeline are not logged. A background job runs on after the shell has returned, and the two children of a pipeline run at the same time (the downstream child writes to the shell's stdout, and either may write to stderr), so the order of their writes among themselves and with later commands is not determined. The log therefore misses, for instance, the "hi\n" that `true | echo hi` prints. Their descriptor changes vanish with them.
- The two pipeline children run concurrently; the model runs their steps one after the other, which no result the parent sees depends on.
- The fallback "Not yet implemented." branch (Evaluation.c:217-219) cannot be reached. The five redirection kinds are a closed set here: the numeric ordering of the kind enum behind the range test is not part of this model, and neither is `Shell.h`.
- The redirection target path is taken from the node as given. The parser that fills it is not part of this model.
- `<` calls the two-argument `open`. The model records its mode as 0.
- A `Process` object is one shell process. Aliasing between processes does not arise: every child is a fresh object.
- Every child and every external command is taken to terminate. The parent waits for both children of a pipeline (Evaluation.c:167-168) and for every simple command (Evaluation.c:88); an upstream side that never ends blocks the shell there, so `PipeIgnoresUpstream` holds only under this assumption.
- A command's status depends only on its argument vector (the world's `run`), not on what it reads from stdin. So whatever the upstream side of a pipeline sends through the pipe is lost: in `printf x | grep -q x` and `true | grep -q x` grep's own status differs (0 against 256), and the model cannot tell the two apart. The shell reports 0 for both, because of the truncation of the downstream status (`PipeMasksDownstreamFailure`), so what the upstream side sends changes the shell's pipeline status only when a signal ends the downstream command, which the model does not have either. `PipeIgnoresUpstream` holds only under this assumption too.
- The world's `canOpen` is one fixed answer for the whole evaluation. Files the shell creates with `>`, `>>`, `2>` and `&>` (O_CREAT, Evaluation.c:189, 191), or that external commands create or remove, do not change later answers. So in `(true | cat < f) || (echo hi > f ; cat < f)` run with f absent, the first `< f` failing forces the second to fail too, whereas in the shell the `> f` creates f and the second `cat < f` succeeds.
