/** What the evaluator guarantees, and two quirks of its pipeline case: the
    copies of stdin and stdout it leaks (Evaluation.c:127-130, never closed at
    164-165), and the raw wait status it passes to exit() (Evaluation.c:161). */
module Properties {
  import opened Fds
  import opened Semantics
  import Echo

  /** The three standard descriptors are open. */
  predicate StdOpen(t: Table) {
    StdIn in t && StdOut in t && StdErr in t
  }

  /** An expression with no pipeline anywhere in it. */
  predicate NoPipe(e: Expression) {
    match e
    case Empty => true
    case Simple(_, _) => true
    case Background(_) => true
    case Sequence(l, r) => NoPipe(l) && NoPipe(r)
    case AndThen(l, r) => NoPipe(l) && NoPipe(r)
    case OrElse(l, r) => NoPipe(l) && NoPipe(r)
    case Pipe(_, _) => false
    case Redirect(_, _, l) => NoPipe(l)
  }

  // ---------------------------------------------------------------------------
  // Leaves: Empty, simple commands, background jobs

  /** Empty succeeds and changes nothing. */
  lemma EmptyIsNoOp(w: World, p: Proc)
    ensures Eval(w, Empty, p) == Done(ExitSuccess, p)
  {
  }

  /** `echo a1 ... an` writes the arguments joined by single spaces and one
      newline to the description standard output refers to, returns wait
      status 0, and leaves the descriptor table alone; when fork fails the
      shell exits. */
  lemma EchoCommand(w: World, args: seq<string>, p: Proc)
    ensures !w.forkOk ==> Eval(w, Simple("echo", args), p) == Abort
    ensures w.forkOk ==>
              var o := Eval(w, Simple("echo", args), p);
              o.Done? && o.status == 0 && o.proc.fds == p.fds &&
              (StdOut in p.fds ==> o.proc.out == p.out + [Write(p.fds[StdOut], Echo.Join(args) + "\n")])
  {
  }

  /** `source` is not implemented: it writes a diagnostic to standard error and
      fails (exit code 1); other commands end with whatever status they end
      with. */
  lemma SourceAndExternalCommands(w: World, name: string, args: seq<string>, p: Proc)
    requires w.forkOk
    ensures name == "source" ==>
              var o := Eval(w, Simple(name, args), p);
              o.Done? && o.status != 0 && o.status / 256 == ExitFailure && o.proc.fds == p.fds &&
              (StdErr in p.fds ==> o.proc.out == p.out + [Write(p.fds[StdErr], "Command " + name + " not yet implemented.\n")])
    ensures name != "echo" && name != "source" ==> Eval(w, Simple(name, args), p) == Done(w.run([name] + args), p)
  {
  }

  /** A background job returns success at once, leaves the shell's state alone,
      and what it runs has no influence on the result. */
  lemma BackgroundIgnoresJob(w: World, l1: Expression, l2: Expression, p: Proc)
    ensures Eval(w, Background(l1), p) == Eval(w, Background(l2), p)
    ensures w.forkOk ==> Eval(w, Background(l1), p) == Done(ExitSuccess, p)
  {
  }

  // ---------------------------------------------------------------------------
  // Sequencing

  /** `l ; r`: r runs after l, in the state l leaves, and gives the status. */
  lemma SequenceRunsBoth(w: World, l: Expression, r: Expression, p: Proc)
    ensures Eval(w, l, p).Abort? ==> Eval(w, Sequence(l, r), p) == Abort
    ensures Eval(w, l, p).Done? ==> Eval(w, Sequence(l, r), p) == Eval(w, r, Eval(w, l, p).proc)
  {
  }

  /** `l && r`: r runs exactly when l succeeds; when l fails its status is the
      result and r has no effect at all. */
  lemma AndThenShortCircuits(w: World, l: Expression, r: Expression, p: Proc)
    ensures Eval(w, l, p).Abort? ==> Eval(w, AndThen(l, r), p) == Abort
    ensures Eval(w, l, p).Done? && Eval(w, l, p).status == 0 ==>
              Eval(w, AndThen(l, r), p) == Eval(w, r, Eval(w, l, p).proc)
    ensures Eval(w, l, p).Done? && Eval(w, l, p).status != 0 ==>
              Eval(w, AndThen(l, r), p) == Eval(w, l, p)
  {
    var o := Eval(w, l, p);
    assert Eval(w, AndThen(l, r), p) ==
           match o
           case Abort => Abort
           case Done(s, p1) => if s == ExitSuccess then Eval(w, r, p1) else Done(s, p1);
  }

  /** `l || r`: the dual: r runs exactly when l fails. */
  lemma OrElseShortCircuits(w: World, l: Expression, r: Expression, p: Proc)
    ensures Eval(w, l, p).Abort? ==> Eval(w, OrElse(l, r), p) == Abort
    ensures Eval(w, l, p).Done? && Eval(w, l, p).status != 0 ==>
              Eval(w, OrElse(l, r), p) == Eval(w, r, Eval(w, l, p).proc)
    ensures Eval(w, l, p).Done? && Eval(w, l, p).status == 0 ==>
              Eval(w, OrElse(l, r), p) == Eval(w, l, p)
  {
    var o := Eval(w, l, p);
    assert Eval(w, OrElse(l, r), p) ==
           match o
           case Abort => Abort
           case Done(s, p1) => if s != ExitSuccess then Eval(w, r, p1) else Done(s, p1);
  }

  /** Grouping does not matter for `;`, `&&` or `||` chains. */
  lemma SequencingIsAssociative(w: World, a: Expression, b: Expression, c: Expression, p: Proc)
    ensures Eval(w, Sequence(Sequence(a, b), c), p) == Eval(w, Sequence(a, Sequence(b, c)), p)
    ensures Eval(w, AndThen(AndThen(a, b), c), p) == Eval(w, AndThen(a, AndThen(b, c)), p)
    ensures Eval(w, OrElse(OrElse(a, b), c), p) == Eval(w, OrElse(a, OrElse(b, c)), p)
  {
    if Eval(w, a, p).Done? {
      var p1 := Eval(w, a, p).proc;
      if Eval(w, b, p1).Done? {
        var p2 := Eval(w, b, p1).proc;
        assert Eval(w, Sequence(a, b), p) == Eval(w, b, p1);
      }
    }
  }

  // ---------------------------------------------------------------------------
  // Redirections

  /** How each redirection opens its target: `<` read-only, `>>` appending,
      `>`, `2>` and `&>` truncating, every writing kind creating the file with
      mode 0664. */
  lemma RedirectFlags(k: RedirectKind)
    ensures FlagsOf(k).access == ReadOnly <==> k == In
    ensures FlagsOf(k).create <==> k != In
    ensures FlagsOf(k).append <==> k == Append
    ensures FlagsOf(k).truncate <==> k == Out || k == Err || k == ErrAndOut
    ensures k != In ==> ModeOf(k) == CreateMode
    ensures Rebinds(k, StdIn) <==> k == In
    ensures Rebinds(k, StdOut) <==> k == Out || k == Append || k == ErrAndOut
    ensures Rebinds(k, StdErr) <==> k == Err || k == ErrAndOut
  {
  }

  /** The three conditional dup2 calls change only the rebound standard
      descriptors, each to the description its source had before: a source
      above every target cannot be overwritten by an earlier dup2. */
  lemma RebindStdShape(p: Proc, openMax: nat, k: RedirectKind, s: Saved, restore: bool)
    requires 3 <= openMax
    requires Rebinds(k, StdIn) ==> Src(s, restore, StdIn) in p.fds && Src(s, restore, StdIn) > StdIn
    requires Rebinds(k, StdOut) ==> Src(s, restore, StdOut) in p.fds && Src(s, restore, StdOut) > StdOut
    requires Rebinds(k, StdErr) ==> Src(s, restore, StdErr) in p.fds && Src(s, restore, StdErr) > StdErr
    ensures RebindStd(p, openMax, k, s, restore).Some?
    ensures var q := RebindStd(p, openMax, k, s, restore).value;
            q.nextId == p.nextId && q.out == p.out &&
            (forall t :: t in q.fds <==> t in p.fds || (t < 3 && Rebinds(k, t))) &&
            forall t :: t in q.fds ==>
              q.fds[t] == if t < 3 && Rebinds(k, t) then p.fds[Src(s, restore, t)] else p.fds[t]
  {
  }

  /** The three conditional dup2 calls succeed when every source is open. */
  lemma RebindStdSucceeds(p: Proc, openMax: nat, k: RedirectKind, s: Saved, restore: bool)
    requires 3 <= openMax
    requires forall t: nat :: t < 3 && Rebinds(k, t) ==> Src(s, restore, t) in p.fds
    ensures RebindStd(p, openMax, k, s, restore).Some?
  {
    assert Rebinds(k, StdIn) ==> Src(s, restore, StdIn) in p.fds;
    assert Rebinds(k, StdOut) ==> Src(s, restore, StdOut) in p.fds;
    assert Rebinds(k, StdErr) ==> Src(s, restore, StdErr) in p.fds;
  }

  /** The copies dup(0), dup(1), dup(2) make: three fresh descriptors, the
      first a copy of stdin, the others copies of stdout and stderr when those
      are open.  Afterwards 0, 1 and 2 are all open, whatever was closed
      before, because a closed standard descriptor is the lowest free one. */
  lemma SaveStdShape(w: World, p: Proc)
    requires SaveStd(w, p).Some?
    ensures var (sin, sout, serr, p3) := SaveStd(w, p).value;
            StdIn in p.fds && sin !in p.fds && sout !in p.fds && serr !in p.fds &&
            sin != sout && sin != serr && sout != serr &&
            sin >= 1 && sout >= 2 && serr >= 3 && serr < w.openMax &&
            (StdOut !in p.fds ==> sin == StdOut) &&
            (StdOut in p.fds && StdErr !in p.fds ==> sin == StdErr) &&
            (StdOut !in p.fds && StdErr !in p.fds ==> sout == StdErr) &&
            (forall t: nat :: t < 3 && t !in p.fds ==> t == sin || t == sout) &&
            StdOpen(p3.fds) &&
            p3.fds.Keys == p.fds.Keys + {sin, sout, serr} && Extends(p.fds, p3.fds) &&
            p3.fds[sin] == p.fds[StdIn] &&
            (StdOut in p.fds ==> p3.fds[sout] == p.fds[StdOut]) &&
            (StdErr in p.fds ==> p3.fds[serr] == p.fds[StdErr]) &&
            p3.nextId == p.nextId && p3.out == p.out
  {
    var (sin, p1) := Dup(p, w.openMax, StdIn).value;
    var (sout, p2) := Dup(p1, w.openMax, StdOut).value;
    var (serr, p3) := Dup(p2, w.openMax, StdErr).value;
    assert sin > StdOut ==> StdOut in p.fds;
    assert sin > StdErr ==> StdErr in p.fds;
    assert sout > StdErr ==> StdErr in p1.fds;
    assert sout > StdOut ==> StdOut in p1.fds;
    assert serr > StdErr ==> StdErr in p2.fds;
  }

  /** What a redirection has set up when its left side starts: stdin was open,
      the standard descriptors are saved on three fresh descriptors and the
      target is open on a fourth with the kind's flags; exactly the streams
      the kind names point at the file, every other descriptor that was open
      is untouched, and the copies a rebound stream will be restored from
      hold its old description. */
  lemma RedirectSetupUnfold(w: World, p: Proc, k: RedirectKind, path: string)
    requires RedirectSetup(w, p, k, path).Some?
    ensures SaveStd(w, p).Some?
    ensures var (sin, sout, serr, p3) := SaveStd(w, p).value;
            Open(p3, w.openMax, w.canOpen(path, FlagsOf(k)), path, FlagsOf(k), ModeOf(k)).Some? &&
            var (fd, p4) := Open(p3, w.openMax, w.canOpen(path, FlagsOf(k)), path, FlagsOf(k), ModeOf(k)).value;
            RebindStd(p4, w.openMax, k, Saved(sin, sout, serr, fd), false).Some? &&
            RedirectSetup(w, p, k, path).value == (Saved(sin, sout, serr, fd), RebindStd(p4, w.openMax, k, Saved(sin, sout, serr, fd), false).value)
  {
  }

  lemma RedirectSetupShape(w: World, p: Proc, k: RedirectKind, path: string) returns (s: Saved, p5: Proc)
    requires RedirectSetup(w, p, k, path).Some?
    ensures RedirectSetup(w, p, k, path) == Some((s, p5))
    ensures StdIn in p.fds && w.canOpen(path, FlagsOf(k))
    ensures s.sin !in p.fds && s.sout !in p.fds && s.serr !in p.fds && s.fd !in p.fds
    ensures s.sin >= 1 && s.sout >= 2 && s.serr >= 3 && s.fd >= 3 && s.fd < w.openMax
    ensures StdOpen(p5.fds)
    ensures p5.fds.Keys == p.fds.Keys + {s.sin, s.sout, s.serr, s.fd}
    ensures p5.nextId == p.nextId + 1 && p5.out == p.out
    ensures forall t: nat :: t < 3 && t !in p.fds ==> t == s.sin || t == s.sout
    ensures forall t :: t in p.fds ==>
              p5.fds[t] == if t < 3 && Rebinds(k, t) then File(p.nextId, path, FlagsOf(k), ModeOf(k)) else p.fds[t]
    ensures forall t: nat :: t < 3 && Rebinds(k, t) ==> p5.fds[t] == File(p.nextId, path, FlagsOf(k), ModeOf(k))
    ensures Rebinds(k, StdIn) ==> p5.fds[s.sin] == p.fds[StdIn]
    ensures Rebinds(k, StdOut) && StdOut in p.fds ==> p5.fds[s.sout] == p.fds[StdOut]
    ensures Rebinds(k, StdErr) && StdErr in p.fds ==> p5.fds[s.serr] == p.fds[StdErr]
  {
    RedirectSetupUnfold(w, p, k, path);
    SaveStdShape(w, p);
    var (sin, sout, serr, p3) := SaveStd(w, p).value;
    var (fd, p4) := Open(p3, w.openMax, w.canOpen(path, FlagsOf(k)), path, FlagsOf(k), ModeOf(k)).value;
    s := Saved(sin, sout, serr, fd);
    assert fd > StdErr ==> StdErr in p3.fds;
    assert fd >= 3;
    RebindStdShape(p4, w.openMax, k, s, false);
    p5 := RebindStd(p4, w.openMax, k, s, false).value;
  }

  /** A new entry makes the table one larger. */
  lemma AddedKeyCard(t: Table, u: Table, n: nat)
    requires n !in t && u.Keys == t.Keys + {n}
    ensures |u| == |t| + 1
  {
    assert |u.Keys| == |t.Keys| + 1;
  }

  /** dup(0), dup(1), dup(2) succeed when stdin is open and three descriptors
      are free below the limit. */
  lemma SaveStdSucceeds(w: World, p: Proc)
    requires StdIn in p.fds && |p.fds| + 3 <= w.openMax
    ensures SaveStd(w, p).Some? && |SaveStd(w, p).value.3.fds| == |p.fds| + 3
  {
    LowestFreeBound(p.fds);
    var (sin, p1) := Dup(p, w.openMax, StdIn).value;
    AddedKeyCard(p.fds, p1.fds, sin);
    LowestFreeBound(p1.fds);
    var (sout, p2) := Dup(p1, w.openMax, StdOut).value;
    AddedKeyCard(p1.fds, p2.fds, sout);
    LowestFreeBound(p2.fds);
    var (serr, p3) := Dup(p2, w.openMax, StdErr).value;
    AddedKeyCard(p2.fds, p3.fds, serr);
  }

  /** A redirection gets as far as its left side whenever stdin is open, the
      target can be opened, and four descriptors are free below the limit. */
  lemma RedirectSetupSucceeds(w: World, p: Proc, k: RedirectKind, path: string)
    requires StdIn in p.fds && w.canOpen(path, FlagsOf(k)) && |p.fds| + 4 <= w.openMax
    ensures RedirectSetup(w, p, k, path).Some?
  {
    SaveStdSucceeds(w, p);
    SaveStdShape(w, p);
    var (sin, sout, serr, p3) := SaveStd(w, p).value;
    LowestFreeBound(p3.fds);
    var (fd, p4) := Open(p3, w.openMax, w.canOpen(path, FlagsOf(k)), path, FlagsOf(k), ModeOf(k)).value;
    RebindStdSucceeds(p4, w.openMax, k, Saved(sin, sout, serr, fd), false);
  }

  /** The second half of a redirection on its own: the rebound streams get
      their saved copies' descriptions, the copies and the file are closed. */
  lemma RedirectFinishShape(w: World, p: Proc, k: RedirectKind, s: Saved) returns (q: Proc)
    requires 3 <= w.openMax
    requires s.sin >= 1 && s.sout >= 2 && s.serr >= 3
    requires s.sin in p.fds && s.sout in p.fds && s.serr in p.fds
    ensures RedirectFinish(w, p, k, s) == Some(q)
    ensures q.nextId == p.nextId && q.out == p.out
    ensures forall t :: t in q.fds <==> (t in p.fds || (t < 3 && Rebinds(k, t))) && t != s.sin && t != s.sout && t != s.serr && t != s.fd
    ensures forall t :: t in q.fds && t < 3 && Rebinds(k, t) ==> q.fds[t] == p.fds[Src(s, true, t)]
    ensures forall t :: t in q.fds && !(t < 3 && Rebinds(k, t)) ==> q.fds[t] == p.fds[t]
  {
    RebindStdShape(p, w.openMax, k, s, true);
    var p7 := RebindStd(p, w.openMax, k, s, true).value;
    q := RedirectFinish(w, p, k, s).value;
    assert q == p7.(fds := p7.fds - {s.sin} - {s.sout} - {s.serr} - {s.fd});
  }

  /** What the first half of a redirection leaves for the second half: the
      saved copies and the file are fresh descriptors (above the standard
      descriptor each one stands in for), the new table holds the old one
      plus those four, with only the rebound streams changed, and the copy a
      rebound stream is restored from holds that stream's old description. */
  predicate Prepared(p: Proc, openMax: nat, k: RedirectKind, s: Saved, p5: Proc) {
    s.sin !in p.fds && s.sout !in p.fds && s.serr !in p.fds && s.fd !in p.fds &&
    s.sin >= 1 && s.sout >= 2 && s.serr >= 3 && 3 <= openMax &&
    p5.fds.Keys == p.fds.Keys + {s.sin, s.sout, s.serr, s.fd} &&
    (forall t: nat :: t < 3 && t !in p.fds ==> t == s.sin || t == s.sout) &&
    (forall t :: t in p.fds && !(t < 3 && Rebinds(k, t)) ==> p5.fds[t] == p.fds[t]) &&
    (forall t: nat :: t < 3 && Rebinds(k, t) && t in p.fds ==> p5.fds[Src(s, true, t)] == p.fds[t])
  }

  /** The first half of a redirection prepares the second. */
  lemma SetupPrepares(w: World, p: Proc, k: RedirectKind, path: string, s: Saved, p5: Proc)
    requires RedirectSetup(w, p, k, path) == Some((s, p5))
    ensures Prepared(p, w.openMax, k, s, p5)
  {
    var s', p5' := RedirectSetupShape(w, p, k, path);
    forall t: nat | t < 3 && Rebinds(k, t) && t in p.fds
      ensures p5.fds[Src(s, true, t)] == p.fds[t]
    {
      assert t == StdIn || t == StdOut || t == StdErr;
    }
  }

  /** Undoing a prepared redirection never fails, and puts back every
      descriptor that was open before it; if the left side left its table as
      it found it, the whole table is as it was. */
  lemma FinishUndoesSetup(w: World, p: Proc, k: RedirectKind, s: Saved, p5: Proc, p6: Proc)
    requires Prepared(p, w.openMax, k, s, p5)
    requires Extends(p5.fds, p6.fds)
    ensures RedirectFinish(w, p6, k, s).Some?
    ensures Extends(p.fds, RedirectFinish(w, p6, k, s).value.fds)
    ensures RedirectFinish(w, p6, k, s).value.fds.Keys == p6.fds.Keys - {s.sin, s.sout, s.serr, s.fd}
    ensures RedirectFinish(w, p6, k, s).value.out == p6.out
    ensures RedirectFinish(w, p6, k, s).value.nextId == p6.nextId
    ensures p6.fds == p5.fds ==> RedirectFinish(w, p6, k, s).value.fds == p.fds
  {
    assert s.sin in p5.fds && s.sout in p5.fds && s.serr in p5.fds;
    var q := RedirectFinishShape(w, p6, k, s);
    forall t | t in p.fds
      ensures t in q.fds && q.fds[t] == p.fds[t]
    {
      FinishRestores(w, p, k, s, p5, p6, t);
    }
    if p6.fds == p5.fds {
      assert q.fds.Keys == p.fds.Keys;
    }
  }

  /** One descriptor of the round trip. */
  lemma FinishRestores(w: World, p: Proc, k: RedirectKind, s: Saved, p5: Proc, p6: Proc, t: nat)
    requires Prepared(p, w.openMax, k, s, p5)
    requires Extends(p5.fds, p6.fds)
    requires t in p.fds
    ensures RedirectFinish(w, p6, k, s).Some?
    ensures t in RedirectFinish(w, p6, k, s).value.fds
    ensures RedirectFinish(w, p6, k, s).value.fds[t] == p.fds[t]
  {
    assert s.sin in p5.fds && s.sout in p5.fds && s.serr in p5.fds;
    var q := RedirectFinishShape(w, p6, k, s);
    assert t in p6.fds;
    assert t < 3 && Rebinds(k, t) ==> p5.fds[Src(s, true, t)] == p.fds[t];
  }

  /** The round trip of a redirection around a left side that does not
      disturb the descriptors it was given. */
  lemma RedirectRoundTrip(w: World, p: Proc, k: RedirectKind, path: string, s: Saved, p5: Proc, p6: Proc)
    requires RedirectSetup(w, p, k, path) == Some((s, p5))
    requires Extends(p5.fds, p6.fds)
    ensures RedirectFinish(w, p6, k, s).Some?
    ensures Extends(p.fds, RedirectFinish(w, p6, k, s).value.fds)
    ensures RedirectFinish(w, p6, k, s).value.fds.Keys == p6.fds.Keys - {s.sin, s.sout, s.serr, s.fd}
    ensures RedirectFinish(w, p6, k, s).value.out == p6.out
    ensures RedirectFinish(w, p6, k, s).value.nextId == p6.nextId
    ensures p6.fds == p5.fds ==> RedirectFinish(w, p6, k, s).value.fds == p.fds
  {
    SetupPrepares(w, p, k, path, s, p5);
    FinishUndoesSetup(w, p, k, s, p5, p6);
  }

  /** A redirection whose first half succeeded runs its left side in the
      prepared state, then its second half. */
  lemma RedirectCase(w: World, k: RedirectKind, path: string, l: Expression, p: Proc, s: Saved, p5: Proc)
    requires RedirectSetup(w, p, k, path) == Some((s, p5))
    ensures Eval(w, l, p5).Abort? ==> Eval(w, Redirect(k, path, l), p).Abort?
    ensures Eval(w, l, p5).Done? ==>
              var p6 := Eval(w, l, p5).proc;
              Eval(w, Redirect(k, path, l), p) ==
              if RedirectFinish(w, p6, k, s).Some? then Done(Eval(w, l, p5).status, RedirectFinish(w, p6, k, s).value)
              else Abort
  {
    assert Eval(w, Redirect(k, path, l), p) == EvalRedirect(w, k, path, l, p);
  }

  /** A redirection finishes exactly when its setup and its left side do, and
      then returns exactly the left side's status. */
  lemma RedirectReturnsLeftStatus(w: World, k: RedirectKind, path: string, l: Expression, p: Proc)
    ensures RedirectSetup(w, p, k, path).None? ==> Eval(w, Redirect(k, path, l), p) == Abort
    ensures RedirectSetup(w, p, k, path).Some? ==>
              var p5 := RedirectSetup(w, p, k, path).value.1;
              (Eval(w, Redirect(k, path, l), p).Done? <==> Eval(w, l, p5).Done?) &&
              (Eval(w, l, p5).Done? ==> Eval(w, Redirect(k, path, l), p).status == Eval(w, l, p5).status)
  {
    if RedirectSetup(w, p, k, path).Some? {
      var (s, p5) := RedirectSetup(w, p, k, path).value;
      RedirectCase(w, k, path, l, p, s, p5);
      if Eval(w, l, p5).Done? {
        EvalExtends(w, l, p5);
        RedirectRoundTrip(w, p, k, path, s, p5, Eval(w, l, p5).proc);
      }
    }
  }

  /** A target that cannot be opened, or a closed standard input, makes the
      shell exit (`check`) instead of returning a status.  Closed standard
      output or error do not: the copies of stdin and stdout then land on
      them. */
  lemma RedirectFailuresAbort(w: World, k: RedirectKind, path: string, l: Expression, p: Proc)
    ensures !w.canOpen(path, FlagsOf(k)) ==> Eval(w, Redirect(k, path, l), p) == Abort
    ensures StdIn !in p.fds ==> Eval(w, Redirect(k, path, l), p) == Abort
  {
    if RedirectSetup(w, p, k, path).Some? {
      var _, _ := RedirectSetupShape(w, p, k, path);
    }
  }

  /** A redirection leaves each standard descriptor as it found it: open on
      the same description, or closed. */
  lemma RedirectRestoresStdStreams(w: World, k: RedirectKind, path: string, l: Expression, p: Proc)
    requires Eval(w, Redirect(k, path, l), p).Done?
    ensures var q := Eval(w, Redirect(k, path, l), p).proc;
            forall t: nat :: t < 3 ==> (t in q.fds <==> t in p.fds) && (t in p.fds ==> q.fds[t] == p.fds[t])
  {
    var s, p5 := RedirectSetupShape(w, p, k, path);
    EvalExtends(w, l, p5);
    var p6 := Eval(w, l, p5).proc;
    RedirectRoundTrip(w, p, k, path, s, p5, p6);
  }

  // ---------------------------------------------------------------------------
  // Pipelines, in the parent

  /** The table after dup(0) and dup(1): copies of stdin and stdout on the two
      lowest free descriptors.  When stdout was closed, the copy of stdin is
      what lands on 1 and is copied again. */
  function WithStdCopies(t: Table): (u: Table)
    requires StdIn in t
    ensures Extends(t, u)
  {
    var t1 := t[LowestFree(t) := t[StdIn]];
    assert StdOut in t1;
    t1[LowestFree(t1) := t1[StdOut]]
  }

  /** WithStdCopies opens exactly two new descriptors and changes no open one. */
  lemma WithStdCopiesShape(t: Table)
    requires StdIn in t
    ensures var a := LowestFree(t);
            var b := LowestFree(t[a := t[StdIn]]);
            a !in t && b !in t && a != b &&
            WithStdCopies(t).Keys == t.Keys + {a, b} &&
            |WithStdCopies(t)| == |t| + 2
  {
    var t1 := t[LowestFree(t) := t[StdIn]];
    AddedKeyCard(t, t1, LowestFree(t));
    AddedKeyCard(t1, WithStdCopies(t), LowestFree(t1));
  }

  /** The parent's part of a pipeline before it forks: the two copies, then
      the pipe on the two lowest free descriptors after those. */
  lemma PipeSetupShape(w: World, p: Proc) returns (pf: PipeFds, p3: Proc)
    requires PipeSetup(w, p).Some?
    ensures PipeSetup(w, p) == Some((pf, p3))
    ensures StdIn in p.fds
    ensures pf.rd !in WithStdCopies(p.fds) && pf.wr !in WithStdCopies(p.fds) && pf.rd < pf.wr < w.openMax
    ensures p3.fds == WithStdCopies(p.fds)[pf.rd := PipeRead(p.nextId)][pf.wr := PipeWrite(p.nextId)]
    ensures p3.nextId == p.nextId + 1 && p3.out == p.out
  {
    var (fdin, p1) := Dup(p, w.openMax, StdIn).value;
    var (fdout, p2) := Dup(p1, w.openMax, StdOut).value;
    var (rd, wr, q) := MakePipe(p2, w.openMax).value;
    pf, p3 := PipeFds(fdin, fdout, rd, wr), q;
    assert p2.fds == WithStdCopies(p.fds);
  }

  /** A pipeline whose parent got its pipe and could fork ends, in the parent,
      with the pipe ends closed again. */
  lemma PipeCase(w: World, l: Expression, r: Expression, p: Proc, pf: PipeFds, p3: Proc)
    requires PipeSetup(w, p) == Some((pf, p3)) && w.forkOk
    ensures Eval(w, Pipe(l, r), p).Done?
    ensures Eval(w, Pipe(l, r), p).proc == p3.(fds := p3.fds - {pf.rd} - {pf.wr})
  {
    assert Eval(w, Pipe(l, r), p) == EvalPipe(w, r, p);
  }

  /** Closing two descriptors just opened gives the table back. */
  lemma AddRemove(t: Table, a: nat, b: nat, x: Desc, y: Desc)
    requires a !in t && b !in t
    ensures t[a := x][b := y] - {a} - {b} == t
  {
  }

  /** The parent's table after a pipeline: the pipe ends are closed again, but
      the two copies of stdin and stdout (Evaluation.c:127-130) are never
      closed. */
  lemma PipeParentTable(w: World, l: Expression, r: Expression, p: Proc)
    requires Eval(w, Pipe(l, r), p).Done?
    ensures StdIn in p.fds
    ensures Eval(w, Pipe(l, r), p).proc.fds == WithStdCopies(p.fds)
    ensures Eval(w, Pipe(l, r), p).proc.out == p.out
  {
    assert Eval(w, Pipe(l, r), p) == EvalPipe(w, r, p);
    var pf, p3 := PipeSetupShape(w, p);
    PipeCase(w, l, r, p, pf, p3);
    AddRemove(WithStdCopies(p.fds), pf.rd, pf.wr, PipeRead(p.nextId), PipeWrite(p.nextId));
  }

  /** A pipeline never points the parent's open descriptors anywhere else. */
  lemma PipeKeepsParentStreams(w: World, l: Expression, r: Expression, p: Proc)
    requires Eval(w, Pipe(l, r), p).Done?
    ensures Extends(p.fds, Eval(w, Pipe(l, r), p).proc.fds)
  {
    PipeParentTable(w, l, r, p);
    WithStdCopiesShape(p.fds);
  }

  /** The leak: after a pipeline the parent has exactly two more descriptors
      open than before, the copies of stdin and stdout, on the two lowest
      descriptors that were free. */
  lemma PipeLeaksTwoCopies(w: World, l: Expression, r: Expression, p: Proc)
    requires Eval(w, Pipe(l, r), p).Done?
    ensures StdIn in p.fds
    ensures var q := Eval(w, Pipe(l, r), p).proc;
            var a := LowestFree(p.fds);
            var b := LowestFree(p.fds[a := p.fds[StdIn]]);
            a !in p.fds && b !in p.fds && a != b &&
            q.fds.Keys == p.fds.Keys + {a, b} && |q.fds| == |p.fds| + 2 &&
            q.fds[a] == p.fds[StdIn] &&
            (StdOut in p.fds ==> q.fds[b] == p.fds[StdOut])
  {
    PipeParentTable(w, l, r, p);
    WithStdCopiesShape(p.fds);
  }

  /** A pipeline run with stderr closed (but stdin and stdout open) leaves
      stderr open on a copy of stdin: the leaked copy lands on descriptor 2. */
  lemma PipeReopensClosedStderr(w: World, l: Expression, r: Expression, p: Proc)
    requires Eval(w, Pipe(l, r), p).Done?
    requires StdOut in p.fds && StdErr !in p.fds
    ensures StdIn in p.fds && StdErr in Eval(w, Pipe(l, r), p).proc.fds
    ensures Eval(w, Pipe(l, r), p).proc.fds[StdErr] == p.fds[StdIn]
  {
    PipeParentTable(w, l, r, p);
    LowestFreeUnique(p.fds, StdErr);
  }

  /** The same leak with stdout closed: the stdin copy lands on descriptor 1,
      so after the pipeline stdout refers to stdin's description. */
  lemma PipeReopensClosedStdout(w: World, l: Expression, r: Expression, p: Proc)
    requires Eval(w, Pipe(l, r), p).Done?
    requires StdOut !in p.fds
    ensures StdIn in p.fds && StdOut in Eval(w, Pipe(l, r), p).proc.fds
    ensures Eval(w, Pipe(l, r), p).proc.fds[StdOut] == p.fds[StdIn]
  {
    PipeParentTable(w, l, r, p);
    LowestFreeUnique(p.fds, StdOut);
  }

  /** Once the parent has its pipe and can fork, a pipeline never makes the
      shell exit: failures in the children only change the status. */
  lemma PipeDoesNotAbortAfterSetup(w: World, l: Expression, r: Expression, p: Proc)
    requires w.forkOk && PipeSetup(w, p).Some?
    ensures Eval(w, Pipe(l, r), p).Done?
  {
  }

  /** The shell never looks at the upstream side's status. */
  lemma PipeIgnoresUpstream(w: World, l1: Expression, l2: Expression, r: Expression, p: Proc)
    ensures Eval(w, Pipe(l1, r), p) == Eval(w, Pipe(l2, r), p)
  {
  }

  /** The pipeline's status is the wait status of a child that passed the
      downstream result to exit(): only its low eight bits survive, shifted
      into the exit-code position. */
  lemma PipeStatusIsTruncated(w: World, l: Expression, r: Expression, p: Proc)
    requires w.forkOk && PipeSetup(w, p).Some?
    requires var (pf, p1) := PipeSetup(w, p).value;
             DownstreamStart(w, pf, p1).Some? &&
             Eval(w, r, DownstreamStart(w, pf, p1).value).Done?
    ensures Eval(w, Pipe(l, r), p).Done?
    ensures var (pf, p1) := PipeSetup(w, p).value;
            var t := Eval(w, r, DownstreamStart(w, pf, p1).value).status;
            Eval(w, Pipe(l, r), p).status == (t % 256) * 256
  {
    var (pf, p1) := PipeSetup(w, p).value;
    var c := DownstreamStart(w, pf, p1).value;
    var (fdin, q1) := Dup(p, w.openMax, StdIn).value;
    var (fdout, q2) := Dup(q1, w.openMax, StdOut).value;
    assert pf.fdin == fdin && fdin in p1.fds;
    assert fdin != pf.wr;
    assert fdin in c.fds;
    EvalExtends(w, r, c);
  }

  /** Whenever the downstream side fails with a normal exit code c (wait status
      c * 256), the pipeline reports success: the raw wait status is passed to
      exit(), which keeps only its low byte, 0. */
  lemma PipeMasksDownstreamFailure(w: World, l: Expression, r: Expression, p: Proc, c: int)
    requires w.forkOk && PipeSetup(w, p).Some?
    requires var (pf, p1) := PipeSetup(w, p).value;
             DownstreamStart(w, pf, p1).Some? &&
             Eval(w, r, DownstreamStart(w, pf, p1).value).Done? &&
             Eval(w, r, DownstreamStart(w, pf, p1).value).status == Exited(c)
    ensures Eval(w, Pipe(l, r), p).Done? && Eval(w, Pipe(l, r), p).status == 0
  {
    PipeStatusIsTruncated(w, l, r, p);
  }

  /** Once the parent has its pipe, the downstream child can always point its
      standard input at the read end. */
  lemma DownstreamStarts(w: World, p: Proc)
    requires PipeSetup(w, p).Some?
    ensures var (pf, p1) := PipeSetup(w, p).value; DownstreamStart(w, pf, p1).Some?
  {
  }

  /** Once the parent has its pipe, the upstream child can always point its
      standard output at the write end. */
  lemma UpstreamStarts(w: World, p: Proc)
    requires PipeSetup(w, p).Some?
    ensures var (pf, p1) := PipeSetup(w, p).value; UpstreamStart(w, pf, p1).Some?
  {
  }

  /** When the upstream child gets its stdout onto the pipe and its left side
      completes, the child exits with the left side's status: putting stdout
      back on the saved copy cannot fail, since no evaluation closes the copy. */
  lemma UpstreamExitsWithLeftStatus(w: World, l: Expression, p: Proc, pf: PipeFds, p1: Proc, c: Proc)
    requires PipeSetup(w, p) == Some((pf, p1))
    requires UpstreamStart(w, pf, p1) == Some(c)
    ensures Eval(w, l, c).Done? ==> UpstreamExit(w, pf, Eval(w, l, c)) == Eval(w, l, c).status
  {
    var (fdin, q1) := Dup(p, w.openMax, StdIn).value;
    var (fdout, q2) := Dup(q1, w.openMax, StdOut).value;
    assert pf.fdout == fdout && fdout in p1.fds;
    assert fdout != pf.rd;
    assert fdout in c.fds;
    if Eval(w, l, c).Done? {
      EvalExtends(w, l, c);
    }
  }

  /** When fork fails the shell exits, for every node that forks. */
  lemma ForkFailureAborts(w: World, name: string, args: seq<string>, l: Expression, r: Expression, p: Proc)
    requires !w.forkOk
    ensures Eval(w, Simple(name, args), p) == Abort
    ensures Eval(w, Background(l), p) == Abort
    ensures Eval(w, Pipe(l, r), p) == Abort
  {
    assert Eval(w, Pipe(l, r), p) == EvalPipe(w, r, p);
  }

  /** When no descriptor below the limit is free, the dup calls fail and both
      a redirection and a pipeline make the shell exit (EMFILE). */
  lemma OutOfDescriptorsAborts(w: World, k: RedirectKind, path: string, l: Expression, r: Expression, p: Proc)
    requires LowestFree(p.fds) >= w.openMax
    ensures Eval(w, Redirect(k, path, l), p) == Abort
    ensures Eval(w, Pipe(l, r), p) == Abort
  {
    assert Eval(w, Pipe(l, r), p) == EvalPipe(w, r, p);
    assert Eval(w, Redirect(k, path, l), p) == EvalRedirect(w, k, path, l, p);
  }

  // ---------------------------------------------------------------------------
  // The whole evaluator

  /** The fundamental invariant: no evaluation changes, or closes, a
      descriptor that was open when it started. */
  lemma {:induction false} EvalExtends(w: World, e: Expression, p: Proc)
    requires Eval(w, e, p).Done?
    ensures Extends(p.fds, Eval(w, e, p).proc.fds)
    decreases e
  {
    match e
    case Empty =>
    case Simple(_, _) =>
    case Background(_) =>
    case Sequence(l, r) =>
      EvalExtends(w, l, p);
      EvalExtends(w, r, Eval(w, l, p).proc);
    case AndThen(l, r) =>
      EvalExtends(w, l, p);
      if Eval(w, l, p).status == ExitSuccess {
        EvalExtends(w, r, Eval(w, l, p).proc);
      }
    case OrElse(l, r) =>
      EvalExtends(w, l, p);
      if Eval(w, l, p).status != ExitSuccess {
        EvalExtends(w, r, Eval(w, l, p).proc);
      }
    case Pipe(l, r) =>
      PipeKeepsParentStreams(w, l, r, p);
    case Redirect(k, path, l) =>
      var (s, p5) := RedirectSetup(w, p, k, path).value;
      EvalExtends(w, l, p5);
      RedirectRoundTrip(w, p, k, path, s, p5, Eval(w, l, p5).proc);
  }

  /** In particular an evaluation that starts with the standard streams open
      ends with each of them on the description it started on. */
  lemma StdStreamsRestored(w: World, e: Expression, p: Proc)
    requires StdOpen(p.fds) && Eval(w, e, p).Done?
    ensures var q := Eval(w, e, p).proc;
            StdOpen(q.fds) &&
            q.fds[StdIn] == p.fds[StdIn] && q.fds[StdOut] == p.fds[StdOut] && q.fds[StdErr] == p.fds[StdErr]
  {
    EvalExtends(w, e, p);
  }

  /** Without a pipeline, evaluation leaves the descriptor table exactly as it
      found it: every redirection undoes itself completely. */
  lemma {:induction false} NoPipeKeepsTable(w: World, e: Expression, p: Proc)
    requires NoPipe(e) && Eval(w, e, p).Done?
    ensures Eval(w, e, p).proc.fds == p.fds
    decreases e
  {
    match e
    case Empty =>
    case Simple(_, _) =>
    case Background(_) =>
    case Sequence(l, r) =>
      NoPipeKeepsTable(w, l, p);
      NoPipeKeepsTable(w, r, Eval(w, l, p).proc);
    case AndThen(l, r) =>
      NoPipeKeepsTable(w, l, p);
      if Eval(w, l, p).status == ExitSuccess {
        NoPipeKeepsTable(w, r, Eval(w, l, p).proc);
      }
    case OrElse(l, r) =>
      NoPipeKeepsTable(w, l, p);
      if Eval(w, l, p).status != ExitSuccess {
        NoPipeKeepsTable(w, r, Eval(w, l, p).proc);
      }
    case Redirect(k, path, l) =>
      var (s, p5) := RedirectSetup(w, p, k, path).value;
      NoPipeKeepsTable(w, l, p5);
      EvalExtends(w, l, p5);
      RedirectRoundTrip(w, p, k, path, s, p5, Eval(w, l, p5).proc);
  }

  /** The shell's own writes are only ever appended. */
  lemma {:induction false} OutputOnlyGrows(w: World, e: Expression, p: Proc)
    requires Eval(w, e, p).Done?
    ensures p.out <= Eval(w, e, p).proc.out
    decreases e
  {
    match e
    case Empty =>
    case Simple(_, _) =>
    case Background(_) =>
    case Sequence(l, r) =>
      OutputOnlyGrows(w, l, p);
      OutputOnlyGrows(w, r, Eval(w, l, p).proc);
    case AndThen(l, r) =>
      OutputOnlyGrows(w, l, p);
      if Eval(w, l, p).status == ExitSuccess {
        OutputOnlyGrows(w, r, Eval(w, l, p).proc);
      }
    case OrElse(l, r) =>
      OutputOnlyGrows(w, l, p);
      if Eval(w, l, p).status != ExitSuccess {
        OutputOnlyGrows(w, r, Eval(w, l, p).proc);
      }
    case Pipe(l, r) =>
      PipeParentTable(w, l, r, p);
    case Redirect(k, path, l) =>
      var s, p5 := RedirectSetupShape(w, p, k, path);
      OutputOnlyGrows(w, l, p5);
      EvalExtends(w, l, p5);
      RedirectRoundTrip(w, p, k, path, s, p5, Eval(w, l, p5).proc);
  }

  // ---------------------------------------------------------------------------
  // A worked example

  /** A shell started with descriptors 0, 1 and 2 open. */
  function Initial(): Proc {
    Proc(map[StdIn := Inherited(StdIn), StdOut := Inherited(StdOut), StdErr := Inherited(StdErr)], 0, [])
  }

  /** `echo hi > f`: the text goes to a fresh description of f opened
      truncating with mode 0664, the status is 0, and afterwards the table is
      exactly the one the shell started with. */
  lemma EchoIntoFile(w: World)
    requires w.forkOk && w.canOpen("f", TruncFlags) && w.openMax == 1024
    ensures Eval(w, Redirect(Out, "f", Simple("echo", ["hi"])), Initial()) ==
            Done(0, Proc(Initial().fds, 1, [Write(File(0, "f", TruncFlags, CreateMode), "hi\n")]))
  {
    var t0 := Initial().fds;
    var file := File(0, "f", TruncFlags, CreateMode);
    var t5: Table := t0[3 := Inherited(StdIn)][4 := Inherited(StdOut)][5 := Inherited(StdErr)][6 := file][StdOut := file];
    var s := Saved(3, 4, 5, 6);
    EchoIntoFileSetup(w);
    Echo.EchoExamples();
    assert Echo.EchoText(["hi"]) == "hi\n";
    var out := [Write(file, "hi\n")];
    assert Eval(w, Simple("echo", ["hi"]), Proc(t5, 1, [])) == Done(0, Proc(t5, 1, out));
    EchoIntoFileFinish(w, out);
    assert Eval(w, Redirect(Out, "f", Simple("echo", ["hi"])), Initial()) ==
           EvalRedirect(w, Out, "f", Simple("echo", ["hi"]), Initial());
  }

  /** The first half of `echo hi > f`: copies on 3, 4 and 5, the file on 6,
      and stdout pointed at it. */
  lemma EchoIntoFileSetup(w: World)
    requires w.canOpen("f", TruncFlags) && w.openMax == 1024
    ensures var file := File(0, "f", TruncFlags, CreateMode);
            RedirectSetup(w, Initial(), Out, "f") ==
            Some((Saved(3, 4, 5, 6),
                  Proc(Initial().fds[3 := Inherited(StdIn)][4 := Inherited(StdOut)][5 := Inherited(StdErr)][6 := file][StdOut := file], 1, [])))
  {
    var t0 := Initial().fds;
    LowestFreeUnique(t0, 3);
    var t1: Table := t0[3 := Inherited(StdIn)];
    LowestFreeUnique(t1, 4);
    var t2: Table := t1[4 := Inherited(StdOut)];
    LowestFreeUnique(t2, 5);
    var t3: Table := t2[5 := Inherited(StdErr)];
    LowestFreeUnique(t3, 6);
    assert SaveStd(w, Initial()) == Some((3, 4, 5, Proc(t3, 0, [])));
  }

  /** The second half of `echo hi > f`: stdout back on its copy, the copies
      and the file closed. */
  lemma EchoIntoFileFinish(w: World, out: seq<Write>)
    requires w.openMax == 1024
    ensures var file := File(0, "f", TruncFlags, CreateMode);
            RedirectFinish(w, Proc(Initial().fds[3 := Inherited(StdIn)][4 := Inherited(StdOut)][5 := Inherited(StdErr)][6 := file][StdOut := file], 1, out), Out, Saved(3, 4, 5, 6)) ==
            Some(Proc(Initial().fds, 1, out))
  {
    var file := File(0, "f", TruncFlags, CreateMode);
    var t5: Table := Initial().fds[3 := Inherited(StdIn)][4 := Inherited(StdOut)][5 := Inherited(StdErr)][6 := file][StdOut := file];
    var t6: Table := t5[StdOut := Inherited(StdOut)];
    assert t5[4] == Inherited(StdOut);
    assert Dup2(Proc(t5, 1, out), w.openMax, 4, StdOut) == Some(Proc(t6, 1, out));
    assert RebindStd(Proc(t5, 1, out), w.openMax, Out, Saved(3, 4, 5, 6), true) == Some(Proc(t6, 1, out));
    assert t6 - {3} - {4} - {5} - {6} == Initial().fds;
  }
}
