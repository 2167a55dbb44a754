/** The evaluator as the shell runs it: a process object whose descriptor
    table the system calls change step by step, and `Evaluate`, the recursive
    walk of Evaluation.c:36-220.  Every step is proved to agree with the
    function `Semantics.Eval`. */
module Interpreter {
  import opened Fds
  import opened Semantics
  import Echo

  /** What evaluer_expr gives back: a wait status, or nothing at all because a
      failed `check` made the process exit (Evaluation.c:18-25). */
  datatype Status = Exit(wait: int) | Aborted

  /** The status returned and the state left agree with an outcome. */
  predicate Agrees(o: Outcome, r: Status, q: Proc) {
    match r
    case Aborted => o.Abort?
    case Exit(s) => o == Done(s, q)
  }

  class Process {
    var fds: Table
    var nextId: nat
    var out: seq<Write>

    function State(): Proc
      reads this
    {
      Proc(fds, nextId, out)
    }

    constructor (init: Proc)
      ensures State() == init
    {
      fds, nextId, out := init.fds, init.nextId, init.out;
    }

    /** fork(): the child is a separate process that starts from a copy of
        the parent's state. */
    constructor Fork(parent: Process)
      ensures State() == parent.State()
    {
      fds, nextId, out := parent.fds, parent.nextId, parent.out;
    }

    /** dup(fd); -1 on failure. */
    method Dup(openMax: nat, fd: nat) returns (n: int)
      modifies this
      ensures n == -1 ==> Fds.Dup(old(State()), openMax, fd) == None && State() == old(State())
      ensures n != -1 ==> n >= 0 && Fds.Dup(old(State()), openMax, fd) == Some((n as nat, State()))
    {
      if fd !in fds {
        return -1;
      }
      var k := LowestFree(fds);
      if k >= openMax {
        return -1;
      }
      fds := fds[k := fds[fd]];
      return k;
    }

    /** dup2(a, b); -1 on failure. */
    method Dup2(openMax: nat, a: nat, b: nat) returns (n: int)
      modifies this
      ensures n == -1 ==> Fds.Dup2(old(State()), openMax, a, b) == None && State() == old(State())
      ensures n != -1 ==> n == b && Fds.Dup2(old(State()), openMax, a, b) == Some(State())
    {
      if a !in fds || b >= openMax {
        return -1;
      }
      fds := fds[b := fds[a]];
      return b;
    }

    /** open(path, flags, mode); -1 on failure. */
    method Open(openMax: nat, allowed: bool, path: string, flags: OpenFlags, mode: nat) returns (n: int)
      modifies this
      ensures n == -1 ==> Fds.Open(old(State()), openMax, allowed, path, flags, mode) == None && State() == old(State())
      ensures n != -1 ==> n >= 0 && Fds.Open(old(State()), openMax, allowed, path, flags, mode) == Some((n as nat, State()))
    {
      if !allowed {
        return -1;
      }
      var k := LowestFree(fds);
      if k >= openMax {
        return -1;
      }
      fds := fds[k := File(nextId, path, flags, mode)];
      nextId := nextId + 1;
      return k;
    }

    /** pipe(pipedes); ok is false when it fails. */
    method MakePipe(openMax: nat) returns (ok: bool, rd: nat, wr: nat)
      modifies this
      ensures !ok ==> Fds.MakePipe(old(State()), openMax) == None && State() == old(State())
      ensures ok ==> Fds.MakePipe(old(State()), openMax) == Some((rd, wr, State()))
    {
      rd := LowestFree(fds);
      var t := fds[rd := PipeRead(nextId)];
      wr := LowestFree(t);
      if wr >= openMax {
        return false, rd, wr;
      }
      fds := t[wr := PipeWrite(nextId)];
      nextId := nextId + 1;
      ok := true;
    }

    /** close(fd). */
    method Close(fd: nat)
      modifies this
      ensures State() == Fds.Close(old(State()), fd)
    {
      fds := fds - {fd};
    }

    /** A write of text to descriptor fd. */
    method Emit(fd: nat, text: string)
      modifies this
      ensures State() == Fds.Emit(old(State()), fd, text)
    {
      if fd in fds {
        out := out + [Write(fds[fd], text)];
      }
    }

    /** evaluer_expr(e). */
    method Evaluate(w: World, e: Expression) returns (r: Status)
      modifies this
      decreases e, 1
      ensures Agrees(Eval(w, e, old(State())), r, State())
    {
      match e {
        case Empty =>
          return Exit(ExitSuccess);
        case Simple(name, args) =>
          if !w.forkOk {
            return Aborted;
          }
          // The child writes through descriptors it shares with the shell,
          // and the shell does nothing else until it has waited for it, so
          // its writes are recorded here, in order.
          if name == "echo" {
            var text := Echo.EchoLoop(args);
            Emit(StdOut, text);
            return Exit(Exited(ExitSuccess));
          } else if name == "source" {
            Emit(StdErr, "Command " + name + " not yet implemented.\n");
            return Exit(Exited(ExitFailure));
          } else {
            return Exit(w.run([name] + args));
          }
        case Background(_) =>
          r := RunBackground(w, e);
        case Sequence(l, rt) =>
          var st := Evaluate(w, l);
          if st.Aborted? {
            return Aborted;
          }
          r := Evaluate(w, rt);
        case AndThen(l, rt) =>
          var st := Evaluate(w, l);
          if st.Aborted? {
            return Aborted;
          }
          if st.wait == ExitSuccess {
            r := Evaluate(w, rt);
          } else {
            r := st;
          }
        case OrElse(l, rt) =>
          var st := Evaluate(w, l);
          if st.Aborted? {
            return Aborted;
          }
          if st.wait != ExitSuccess {
            r := Evaluate(w, rt);
          } else {
            r := st;
          }
        case Pipe(_, _) =>
          r := RunPipe(w, e);
        case Redirect(_, _, _) =>
          r := RunRedirect(w, e);
      }
    }

    /** The Background case, Evaluation.c:93-104: the child evaluates the left
        side and exits; the shell does not wait for it. */
    method RunBackground(w: World, e: Expression) returns (r: Status)
      requires e.Background?
      modifies this
      decreases e, 0
      ensures Agrees(Eval(w, e, old(State())), r, State())
    {
      if !w.forkOk {
        return Aborted;
      }
      var child := new Process.Fork(this);
      var _ := child.Evaluate(w, e.left);
      return Exit(ExitSuccess);
    }

    /** The Pipe case, Evaluation.c:121-171. */
    method RunPipe(w: World, e: Expression) returns (r: Status)
      requires e.Pipe?
      modifies this
      decreases e, 0
      ensures Agrees(Eval(w, e, old(State())), r, State())
    {
      var fdstdin := Dup(w.openMax, StdIn);
      if fdstdin == -1 {
        return Aborted;
      }
      var fdstdout := Dup(w.openMax, StdOut);
      if fdstdout == -1 {
        return Aborted;
      }
      var ok, rd, wr := MakePipe(w.openMax);
      if !ok {
        return Aborted;
      }
      var pf := PipeFds(fdstdin as nat, fdstdout as nat, rd, wr);
      assert PipeSetup(w, old(State())) == Some((pf, State()));
      if !w.forkOk {
        return Aborted;
      }
      var _ := Upstream(w, pf, e.left);
      var code := Downstream(w, pf, e.right);
      Close(rd);
      Close(wr);
      return Exit(Exited(code));
    }

    /** The upstream child of a pipeline (Evaluation.c:137-147): the value it
        passes to exit(), which the shell waits for and discards. */
    method Upstream(w: World, pf: PipeFds, left: Expression) returns (code: int)
      decreases left, 2
      ensures code == match UpstreamStart(w, pf, State())
                      case None => ExitFailure
                      case Some(c) => UpstreamExit(w, pf, Eval(w, left, c))
    {
      var up := new Process.Fork(this);
      up.Close(pf.rd);
      code := ExitFailure;
      var d := up.Dup2(w.openMax, pf.wr, StdOut);
      if d != -1 {
        ghost var c := up.State();
        var st := up.Evaluate(w, left);
        if st.Exit? {
          var d2 := up.Dup2(w.openMax, pf.fdout, StdOut);
          if d2 != -1 {
            up.Close(pf.wr);
            code := st.wait;
          }
        }
        assert code == UpstreamExit(w, pf, Eval(w, left, c));
      }
    }

    /** The downstream child of a pipeline (Evaluation.c:152-162): the value it
        passes to exit(). */
    method Downstream(w: World, pf: PipeFds, right: Expression) returns (code: int)
      decreases right, 2
      ensures code == match DownstreamStart(w, pf, State())
                      case None => ExitFailure
                      case Some(c) => DownstreamExit(w, pf, Eval(w, right, c))
    {
      var down := new Process.Fork(this);
      down.Close(pf.wr);
      code := ExitFailure;
      var d := down.Dup2(w.openMax, pf.rd, StdIn);
      if d != -1 {
        ghost var c := down.State();
        var st := down.Evaluate(w, right);
        if st.Exit? {
          var d2 := down.Dup2(w.openMax, pf.fdin, StdIn);
          if d2 != -1 {
            down.Close(pf.rd);
            code := st.wait;
          }
        }
        assert code == DownstreamExit(w, pf, Eval(w, right, c));
      }
    }

    /** The three conditional dup2 calls of Evaluation.c:194-199 (onto the file)
        or Evaluation.c:203-208 (back onto the saved copies). */
    method RebindStreams(openMax: nat, k: RedirectKind, s: Saved, restore: bool) returns (ok: bool)
      modifies this
      ensures ok ==> RebindStd(old(State()), openMax, k, s, restore) == Some(State())
      ensures !ok ==> RebindStd(old(State()), openMax, k, s, restore) == None
    {
      var d;
      if k == In {
        d := Dup2(openMax, Src(s, restore, StdIn), StdIn);
        if d == -1 {
          return false;
        }
      }
      if k == Out || k == Append || k == ErrAndOut {
        d := Dup2(openMax, Src(s, restore, StdOut), StdOut);
        if d == -1 {
          return false;
        }
      }
      if k == Err || k == ErrAndOut {
        d := Dup2(openMax, Src(s, restore, StdErr), StdErr);
        if d == -1 {
          return false;
        }
      }
      return true;
    }

    /** Evaluation.c:179-184: dup(0), dup(1), dup(2). */
    method SaveStdStreams(w: World) returns (ok: bool, sin: nat, sout: nat, serr: nat)
      modifies this
      ensures ok ==> SaveStd(w, old(State())) == Some((sin, sout, serr, State()))
      ensures !ok ==> SaveStd(w, old(State())) == None
    {
      sin, sout, serr := 0, 0, 0;
      var fdstdin := Dup(w.openMax, StdIn);
      if fdstdin == -1 {
        return false, sin, sout, serr;
      }
      var fdstdout := Dup(w.openMax, StdOut);
      if fdstdout == -1 {
        return false, sin, sout, serr;
      }
      var fdstderr := Dup(w.openMax, StdErr);
      if fdstderr == -1 {
        return false, sin, sout, serr;
      }
      return true, fdstdin as nat, fdstdout as nat, fdstderr as nat;
    }

    /** Evaluation.c:179-199: save the standard descriptors, open the target,
        point the rebound streams at it. */
    method SaveAndRedirect(w: World, k: RedirectKind, path: string) returns (ok: bool, s: Saved)
      modifies this
      ensures ok ==> RedirectSetup(w, old(State()), k, path) == Some((s, State()))
      ensures !ok ==> RedirectSetup(w, old(State()), k, path) == None
    {
      s := Saved(0, 0, 0, 0);
      var fdstdin, fdstdout, fdstderr;
      ok, fdstdin, fdstdout, fdstderr := SaveStdStreams(w);
      if !ok {
        return false, s;
      }
      var flags, mode;
      if k == In {
        flags, mode := ReadFlags, 0;
      } else if k == Append {
        flags, mode := AppendFlags, CreateMode;
      } else {
        flags, mode := TruncFlags, CreateMode;
      }
      assert flags == FlagsOf(k) && mode == ModeOf(k);
      var fd := Open(w.openMax, w.canOpen(path, flags), path, flags, mode);
      if fd == -1 {
        return false, s;
      }
      s := Saved(fdstdin, fdstdout, fdstderr, fd as nat);
      ok := RebindStreams(w.openMax, k, s, false);
    }

    /** Evaluation.c:203-213: point the rebound streams back at the saved
        copies, close the copies and the file. */
    method RestoreAndClose(w: World, k: RedirectKind, s: Saved) returns (ok: bool)
      modifies this
      ensures ok ==> RedirectFinish(w, old(State()), k, s) == Some(State())
      ensures !ok ==> RedirectFinish(w, old(State()), k, s) == None
    {
      ok := RebindStreams(w.openMax, k, s, true);
      if !ok {
        return false;
      }
      Close(s.sin);
      Close(s.sout);
      Close(s.serr);
      Close(s.fd);
    }

    /** The redirection cases, Evaluation.c:173-215. */
    method RunRedirect(w: World, e: Expression) returns (r: Status)
      requires e.Redirect?
      modifies this
      decreases e, 0
      ensures Agrees(Eval(w, e, old(State())), r, State())
    {
      var ok, s := SaveAndRedirect(w, e.kind, e.target);
      if !ok {
        return Aborted;
      }
      var stat := Evaluate(w, e.left);
      if stat.Aborted? {
        return Aborted;
      }
      ok := RestoreAndClose(w, e.kind, s);
      if !ok {
        return Aborted;
      }
      return stat;
    }
  }
}
