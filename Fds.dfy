/** The shell process's file-descriptor table and the POSIX calls that change it
    (dup, dup2, open, pipe, close), as pure functions on the process state.

    Descriptors are allocated as section 2.14 ("File Descriptor Allocation") of
    POSIX.1-2017 requires for dup(), open() and pipe(): the lowest-numbered
    descriptor that is not open.  A call that needs a new descriptor fails
    (EMFILE) when that descriptor is not below the process limit `openMax`. */
module Fds {

  datatype Option<+T> = None | Some(value: T)

  datatype Access = ReadOnly | WriteOnly

  /** The flags given to open(): the access mode, O_CREAT, O_TRUNC and O_APPEND. */
  datatype OpenFlags = OpenFlags(access: Access, create: bool, truncate: bool, append: bool)

  /** An open file description.  Descriptors that share one (after dup or dup2)
      write to the same place. */
  datatype Desc =
    | Inherited(n: nat)                                         // received when the shell started
    | File(id: nat, path: string, flags: OpenFlags, mode: nat)   // made by open()
    | PipeRead(id: nat)                                         // read end of pipe number id
    | PipeWrite(id: nat)                                        // write end of pipe number id

  type Table = map<nat, Desc>

  /** One chunk of text written to a description. */
  datatype Write = Write(to: Desc, text: string)

  /** What the evaluator threads through its recursion: the descriptor table,
      the next fresh description number, and the writes made so far. */
  datatype Proc = Proc(fds: Table, nextId: nat, out: seq<Write>)

  const StdIn: nat := 0
  const StdOut: nat := 1
  const StdErr: nat := 2

  /** Every descriptor open in t is open in u, on the same description. */
  predicate Extends(t: Table, u: Table) {
    forall k :: k in t ==> k in u && u[k] == t[k]
  }

  /** If descriptors 0 .. k-1 are all open, the table has at least k entries. */
  lemma {:induction false} PrefixBound(t: Table, k: nat)
    requires forall j: nat :: j < k ==> j in t
    ensures k <= |t|
  {
    if k > 0 {
      var u := t - {k - 1};
      assert |u| == |t| - 1;
      PrefixBound(u, k - 1);
    }
  }

  function LowestFreeFrom(t: Table, k: nat): (n: nat)
    requires forall j: nat :: j < k ==> j in t
    ensures k <= n && n !in t
    ensures forall j: nat :: j < n ==> j in t
    decreases |t| - k
  {
    PrefixBound(t, k);
    if k !in t then k
    else
      PrefixBound(t, k + 1);
      LowestFreeFrom(t, k + 1)
  }

  /** The lowest-numbered descriptor that is not open. */
  function LowestFree(t: Table): (n: nat)
    ensures n !in t
    ensures forall j: nat :: j < n ==> j in t
  {
    LowestFreeFrom(t, 0)
  }

  /** The lowest free descriptor is never above the number of open ones. */
  lemma LowestFreeBound(t: Table)
    ensures LowestFree(t) <= |t|
  {
    PrefixBound(t, LowestFree(t));
  }

  lemma LowestFreeUnique(t: Table, n: nat)
    requires n !in t
    requires forall j: nat :: j < n ==> j in t
    ensures LowestFree(t) == n
  {
  }

  /** dup(fd): the lowest free descriptor gets fd's description.  Fails when fd
      is not open (EBADF) or no descriptor below openMax is free (EMFILE). */
  function Dup(p: Proc, openMax: nat, fd: nat): (r: Option<(nat, Proc)>)
    ensures r.Some? <==> fd in p.fds && LowestFree(p.fds) < openMax
  {
    if fd !in p.fds then None
    else
      var n := LowestFree(p.fds);
      if n >= openMax then None
      else Some((n, p.(fds := p.fds[n := p.fds[fd]])))
  }

  /** dup2(a, b): b now refers to a's description (closing what b referred to).
      Fails when a is not open or b is not below openMax (EBADF). */
  function Dup2(p: Proc, openMax: nat, a: nat, b: nat): (r: Option<Proc>)
    ensures r.Some? <==> a in p.fds && b < openMax
  {
    if a !in p.fds || b >= openMax then None
    else Some(p.(fds := p.fds[b := p.fds[a]]))
  }

  /** What a successful dup(fd) does: the lowest free descriptor n now refers
      to fd's description, and nothing else changes. */
  lemma DupShape(p: Proc, openMax: nat, fd: nat)
    requires Dup(p, openMax, fd).Some?
    ensures var (n, q) := Dup(p, openMax, fd).value;
            n !in p.fds && n < openMax && (forall j: nat :: j < n ==> j in p.fds) &&
            q.fds.Keys == p.fds.Keys + {n} && q.fds[n] == p.fds[fd] && Extends(p.fds, q.fds) &&
            q.nextId == p.nextId && q.out == p.out
  {
  }

  /** What a successful dup2(a, b) does: b refers to a's description, and no
      other descriptor changes. */
  lemma Dup2Shape(p: Proc, openMax: nat, a: nat, b: nat)
    requires Dup2(p, openMax, a, b).Some?
    ensures var q := Dup2(p, openMax, a, b).value;
            q.fds.Keys == p.fds.Keys + {b} && q.fds[b] == p.fds[a] &&
            (forall k :: k in p.fds && k != b ==> q.fds[k] == p.fds[k]) &&
            q.nextId == p.nextId && q.out == p.out
  {
  }

  /** close(fd).  The shell never looks at close's result, so a descriptor that
      is not open is simply left closed. */
  function Close(p: Proc, fd: nat): (q: Proc)
    ensures q.fds.Keys == p.fds.Keys - {fd}
    ensures forall k :: k in q.fds ==> q.fds[k] == p.fds[k]
    ensures q.nextId == p.nextId && q.out == p.out
  {
    p.(fds := p.fds - {fd})
  }

  /** open(path, flags, mode): a fresh description on the lowest free descriptor.
      `allowed` is whether the file system lets this path be opened with these
      flags (ENOENT, EACCES, ... when it does not). */
  function Open(p: Proc, openMax: nat, allowed: bool, path: string, flags: OpenFlags, mode: nat): (r: Option<(nat, Proc)>)
    ensures r.Some? <==> allowed && LowestFree(p.fds) < openMax
  {
    if !allowed then None
    else
      var n := LowestFree(p.fds);
      if n >= openMax then None
      else Some((n, Proc(p.fds[n := File(p.nextId, path, flags, mode)], p.nextId + 1, p.out)))
  }

  /** What a successful open() does: the lowest free descriptor refers to a
      fresh description of the file, and nothing else changes. */
  lemma OpenShape(p: Proc, openMax: nat, allowed: bool, path: string, flags: OpenFlags, mode: nat)
    requires Open(p, openMax, allowed, path, flags, mode).Some?
    ensures var (n, q) := Open(p, openMax, allowed, path, flags, mode).value;
            n !in p.fds && n < openMax && (forall j: nat :: j < n ==> j in p.fds) &&
            q.fds.Keys == p.fds.Keys + {n} && Extends(p.fds, q.fds) &&
            q.fds[n] == File(p.nextId, path, flags, mode) &&
            q.nextId == p.nextId + 1 && q.out == p.out
  {
  }

  /** pipe(): the two lowest free descriptors become the read end and the write
      end of a fresh pipe.  Fails (EMFILE) unless both are below openMax. */
  function MakePipe(p: Proc, openMax: nat): (r: Option<(nat, nat, Proc)>)
    ensures r.Some? <==> LowestFree(p.fds[LowestFree(p.fds) := PipeRead(p.nextId)]) < openMax
    ensures r.Some? ==> r.value.1 == LowestFree(p.fds[LowestFree(p.fds) := PipeRead(p.nextId)])
    ensures r.Some? ==>
              var (rd, wr, q) := r.value;
              rd !in p.fds && wr !in p.fds && rd < wr < openMax &&
              rd == LowestFree(p.fds) &&
              q.fds.Keys == p.fds.Keys + {rd, wr} && Extends(p.fds, q.fds) &&
              q.fds[rd] == PipeRead(p.nextId) && q.fds[wr] == PipeWrite(p.nextId) &&
              q.nextId == p.nextId + 1 && q.out == p.out
  {
    var rd := LowestFree(p.fds);
    var t := p.fds[rd := PipeRead(p.nextId)];
    var wr := LowestFree(t);
    if wr >= openMax then None
    else
      Some((rd, wr, Proc(t[wr := PipeWrite(p.nextId)], p.nextId + 1, p.out)))
  }

  /** Two descriptors below openMax are free. */
  predicate TwoFree(t: Table, openMax: nat) {
    exists a: nat, b: nat :: a < b < openMax && a !in t && b !in t
  }

  /** pipe() fails exactly when fewer than two descriptors below the limit are
      free. */
  lemma MakePipeNeedsTwoFree(p: Proc, openMax: nat)
    ensures MakePipe(p, openMax).Some? <==> TwoFree(p.fds, openMax)
  {
    var rd := LowestFree(p.fds);
    var t := p.fds[rd := PipeRead(p.nextId)];
    var wr := LowestFree(t);
    if MakePipe(p, openMax).Some? {
      assert rd < wr < openMax && rd !in p.fds && wr !in p.fds;
    }
    if TwoFree(p.fds, openMax) {
      var a: nat, b: nat :| a < b < openMax && a !in p.fds && b !in p.fds;
      assert rd <= a && b !in t;
      assert wr <= b;
    }
  }

  /** A write to descriptor fd lands on fd's description; a write to a closed
      descriptor fails (EBADF) and is lost. */
  function Emit(p: Proc, fd: nat, text: string): (q: Proc)
    ensures q.fds == p.fds && q.nextId == p.nextId
    ensures fd in p.fds ==> q.out == p.out + [Write(p.fds[fd], text)]
    ensures fd !in p.fds ==> q.out == p.out
  {
    if fd in p.fds then p.(out := p.out + [Write(p.fds[fd], text)]) else p
  }
}
