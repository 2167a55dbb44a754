/** What one call of the evaluator does, seen from the shell process that calls
    it: the exit status it returns (or that it aborts the shell), and what it
    leaves behind in the shell's own descriptor table and output.

    Forked children are separate processes: whatever they do to their own
    descriptor tables vanishes when they exit, so the parent's state only
    changes through what the parent itself does. */
module Semantics {
  import opened Fds
  import Echo

  /** The five redirections: `<`, `>`, `>>`, `2>` and `&>`. */
  datatype RedirectKind = In | Out | Append | Err | ErrAndOut

  /** A parsed command line.  A simple command always has a name (element 0 of
      its argument vector); a redirection always has a target path. */
  datatype Expression =
    | Empty
    | Simple(name: string, args: seq<string>)
    | Background(left: Expression)
    | Sequence(left: Expression, right: Expression)
    | AndThen(left: Expression, right: Expression)
    | OrElse(left: Expression, right: Expression)
    | Pipe(left: Expression, right: Expression)
    | Redirect(kind: RedirectKind, target: string, left: Expression)

  /** What the shell cannot see or decide: the wait status an external command
      ends with (given its argument vector, after the PATH search by execvp),
      whether a path can be opened with given flags, the descriptor limit, and
      whether fork succeeds. */
  datatype World = World(
    run: seq<string> -> int,
    canOpen: (string, OpenFlags) -> bool,
    openMax: nat,
    forkOk: bool)

  /** The result of an evaluation: a status and the shell's new state, or the
      shell exiting because a system call failed (`check`). */
  datatype Outcome = Done(status: int, proc: Proc) | Abort

  const ExitSuccess: int := 0
  const ExitFailure: int := 1

  /** The wait status a parent reads for a child that called exit(s): only the
      low eight bits of s survive (POSIX.1-2017, exit()), and a normal exit
      with code c is encoded as c * 256. */
  function Exited(s: int): (w: int)
    ensures 0 <= w < 65536 && w % 256 == 0
    ensures w == 0 <==> s % 256 == 0
  {
    (s % 256) * 256
  }

  /** Permission bits 0664 for files a redirection creates. */
  const CreateMode: nat := 6 * 64 + 6 * 8 + 4

  const ReadFlags := OpenFlags(ReadOnly, false, false, false)          // O_RDONLY
  const AppendFlags := OpenFlags(WriteOnly, true, false, true)         // O_WRONLY | O_CREAT | O_APPEND
  const TruncFlags := OpenFlags(WriteOnly, true, true, false)          // O_WRONLY | O_CREAT | O_TRUNC

  function FlagsOf(k: RedirectKind): OpenFlags {
    match k
    case In => ReadFlags
    case Append => AppendFlags
    case _ => TruncFlags
  }

  /** The mode argument given to open(); `<` uses the two-argument form, which
      the model records as 0. */
  function ModeOf(k: RedirectKind): nat {
    if k == In then 0 else CreateMode
  }

  /** Whether redirection kind k points standard descriptor t at the file. */
  predicate Rebinds(k: RedirectKind, t: nat) {
    match k
    case In => t == StdIn
    case Out => t == StdOut
    case Append => t == StdOut
    case Err => t == StdErr
    case ErrAndOut => t == StdOut || t == StdErr
  }

  /** The copies of the three standard descriptors, and the opened file. */
  datatype Saved = Saved(sin: nat, sout: nat, serr: nat, fd: nat)

  /** The descriptor a rebound stream t is pointed at: the opened file, or, when
      restoring, t's saved copy. */
  function Src(s: Saved, restore: bool, t: nat): nat {
    if !restore then s.fd
    else if t == StdIn then s.sin
    else if t == StdOut then s.sout
    else s.serr
  }

  /** dup2(src, t) when `cond` holds, nothing otherwise. */
  function RebindIf(p: Proc, openMax: nat, cond: bool, src: nat, t: nat): Option<Proc> {
    if cond then Dup2(p, openMax, src, t) else Some(p)
  }

  /** dup2(Src(t), t) for t = 0, 1, 2 in that order, for each t kind k rebinds. */
  function RebindStd(p: Proc, openMax: nat, k: RedirectKind, s: Saved, restore: bool): Option<Proc> {
    match RebindIf(p, openMax, Rebinds(k, StdIn), Src(s, restore, StdIn), StdIn)
    case None => None
    case Some(p1) =>
      match RebindIf(p1, openMax, Rebinds(k, StdOut), Src(s, restore, StdOut), StdOut)
      case None => None
      case Some(p2) => RebindIf(p2, openMax, Rebinds(k, StdErr), Src(s, restore, StdErr), StdErr)
  }

  /** dup(0), dup(1), dup(2) (Evaluation.c:179-184). */
  function SaveStd(w: World, p: Proc): Option<(nat, nat, nat, Proc)> {
    match Dup(p, w.openMax, StdIn)
    case None => None
    case Some((sin, p1)) =>
      match Dup(p1, w.openMax, StdOut)
      case None => None
      case Some((sout, p2)) =>
        match Dup(p2, w.openMax, StdErr)
        case None => None
        case Some((serr, p3)) => Some((sin, sout, serr, p3))
  }

  /** Everything a redirection does before evaluating its left side: save the
      three standard descriptors, open the target, point the rebound streams
      at it (Evaluation.c:179-199). */
  function RedirectSetup(w: World, p: Proc, k: RedirectKind, path: string): Option<(Saved, Proc)> {
    match SaveStd(w, p)
    case None => None
    case Some((sin, sout, serr, p3)) =>
      match Open(p3, w.openMax, w.canOpen(path, FlagsOf(k)), path, FlagsOf(k), ModeOf(k))
      case None => None
      case Some((fd, p4)) =>
        var s := Saved(sin, sout, serr, fd);
        match RebindStd(p4, w.openMax, k, s, false)
        case None => None
        case Some(p5) => Some((s, p5))
  }

  /** Everything a redirection does after its left side: point the rebound
      streams back at the saved copies, close the copies and the file
      (Evaluation.c:203-213). */
  function RedirectFinish(w: World, p: Proc, k: RedirectKind, s: Saved): Option<Proc> {
    match RebindStd(p, w.openMax, k, s, true)
    case None => None
    case Some(q) => Some(Close(Close(Close(Close(q, s.sin), s.sout), s.serr), s.fd))
  }

  /** The parent's descriptors while a pipeline runs. */
  datatype PipeFds = PipeFds(fdin: nat, fdout: nat, rd: nat, wr: nat)

  /** The parent's part of a pipeline before forking: save stdin and stdout,
      make the pipe (Evaluation.c:127-132). */
  function PipeSetup(w: World, p: Proc): Option<(PipeFds, Proc)> {
    match Dup(p, w.openMax, StdIn)
    case None => None
    case Some((fdin, p1)) =>
      match Dup(p1, w.openMax, StdOut)
      case None => None
      case Some((fdout, p2)) =>
        match MakePipe(p2, w.openMax)
        case None => None
        case Some((rd, wr, p3)) => Some((PipeFds(fdin, fdout, rd, wr), p3))
  }

  /** The upstream child, before it evaluates the left side: close the read
      end, write standard output into the pipe (Evaluation.c:139-141). */
  function UpstreamStart(w: World, pf: PipeFds, c: Proc): Option<Proc> {
    Dup2(Close(c, pf.rd), w.openMax, pf.wr, StdOut)
  }

  /** The value the upstream child passes to exit(): the left side's raw
      status, or EXIT_FAILURE when a `check` in the child fails
      (Evaluation.c:142-146).  The parent discards it. */
  function UpstreamExit(w: World, pf: PipeFds, o: Outcome): int {
    match o
    case Abort => ExitFailure
    case Done(s, c) =>
      match Dup2(c, w.openMax, pf.fdout, StdOut)
      case None => ExitFailure
      case Some(_) => s
  }

  /** The downstream child, before it evaluates the right side: close the write
      end, read standard input from the pipe (Evaluation.c:154-156). */
  function DownstreamStart(w: World, pf: PipeFds, c: Proc): Option<Proc> {
    Dup2(Close(c, pf.wr), w.openMax, pf.rd, StdIn)
  }

  /** The value the downstream child passes to exit(): the right side's raw
      status, or EXIT_FAILURE when a `check` in the child fails
      (Evaluation.c:157-161). */
  function DownstreamExit(w: World, pf: PipeFds, o: Outcome): int {
    match o
    case Abort => ExitFailure
    case Done(s, c) =>
      match Dup2(c, w.openMax, pf.fdin, StdIn)
      case None => ExitFailure
      case Some(_) => s
  }

  /** The evaluator, Evaluation.c:36-220, as seen from the calling process. */
  function Eval(w: World, e: Expression, p: Proc): Outcome
    decreases e, 1
  {
    match e
    case Empty => Done(ExitSuccess, p)
    case Simple(name, args) =>
      if !w.forkOk then Abort
      else if name == "echo" then
        Done(Exited(ExitSuccess), Emit(p, StdOut, Echo.EchoText(args)))
      else if name == "source" then
        Done(Exited(ExitFailure), Emit(p, StdErr, "Command " + name + " not yet implemented.\n"))
      else
        Done(w.run([name] + args), p)
    case Background(_) =>
      if !w.forkOk then Abort else Done(ExitSuccess, p)
    case Sequence(l, r) =>
      (match Eval(w, l, p)
       case Abort => Abort
       case Done(_, p1) => Eval(w, r, p1))
    case AndThen(l, r) =>
      (match Eval(w, l, p)
       case Abort => Abort
       case Done(s, p1) => if s == ExitSuccess then Eval(w, r, p1) else Done(s, p1))
    case OrElse(l, r) =>
      (match Eval(w, l, p)
       case Abort => Abort
       case Done(s, p1) => if s != ExitSuccess then Eval(w, r, p1) else Done(s, p1))
    case Pipe(_, r) => EvalPipe(w, r, p)
    case Redirect(k, path, l) => EvalRedirect(w, k, path, l, p)
  }

  /** A pipeline whose downstream side is r.  The shell discards the upstream
      child's status (Evaluation.c:167), and a command's status here does not
      depend on what it reads, so the upstream side plays no part in the
      parent's outcome (the model takes it that the child ends). */
  function EvalPipe(w: World, r: Expression, p: Proc): Outcome
    decreases r, 2
  {
    match PipeSetup(w, p)
    case None => Abort
    case Some((pf, p1)) =>
      if !w.forkOk then Abort
      else
        var code :=
          match DownstreamStart(w, pf, p1)
          case None => ExitFailure
          case Some(c) => DownstreamExit(w, pf, Eval(w, r, c));
        Done(Exited(code), Close(Close(p1, pf.rd), pf.wr))
  }

  /** A redirection of kind k to path around l. */
  function EvalRedirect(w: World, k: RedirectKind, path: string, l: Expression, p: Proc): Outcome
    decreases l, 2
  {
    match RedirectSetup(w, p, k, path)
    case None => Abort
    case Some((s, p1)) =>
      match Eval(w, l, p1)
      case Abort => Abort
      case Done(st, p2) =>
        match RedirectFinish(w, p2, k, s)
        case None => Abort
        case Some(q) => Done(st, q)
  }
}
