/** The `echo` built-in: the text it writes for a command line
    `echo a1 a2 ... an` is the arguments joined by single spaces, then one
    newline. */
module Echo {

  /** The arguments separated by single spaces (built from the left, as the
      source's loop builds it). */
  function Join(args: seq<string>): string
  {
    if |args| == 0 then ""
    else if |args| == 1 then args[0]
    else Join(args[..|args| - 1]) + " " + args[|args| - 1]
  }

  /** The whole text echo writes. */
  function EchoText(args: seq<string>): string
  {
    Join(args) + "\n"
  }

  /** The loop of the echo built-in: print each argument, a space before every
      argument but the first, then the newline. */
  method EchoLoop(args: seq<string>) returns (s: string)
    ensures s == EchoText(args)
  {
    s := "";
    var i := 0;
    while i < |args|
      invariant 0 <= i <= |args|
      invariant s == Join(args[..i])
    {
      if i != 0 {
        s := s + " ";
      }
      s := s + args[i];
      assert args[..i + 1][..i] == args[..i];
      i := i + 1;
    }
    assert args[..i] == args;
    s := s + "\n";
  }

  /** Joining splits off the first argument the same way it does the last. */
  lemma {:induction false} JoinFront(args: seq<string>)
    requires |args| >= 2
    ensures Join(args) == args[0] + " " + Join(args[1..])
  {
    if |args| > 2 {
      var init := args[..|args| - 1];
      JoinFront(init);
      assert init[1..] == args[1..][..|args[1..]| - 1];
    } else {
      assert args[1..] == [args[1]];
    }
  }

  /** Index of the first space of s. */
  function FirstSpace(s: string): (i: nat)
    requires ' ' in s
    ensures i < |s| && s[i] == ' ' && ' ' !in s[..i]
  {
    if s[0] == ' ' then 0
    else
      assert s == [s[0]] + s[1..];
      var j := FirstSpace(s[1..]);
      assert s[..j + 1] == [s[0]] + s[1..][..j];
      j + 1
  }

  /** Splitting a line at each single space: the way a reader of echo's output
      recovers the words. */
  function Split(s: string): (words: seq<string>)
    ensures |words| >= 1
    decreases |s|
  {
    if ' ' !in s then [s]
    else
      var i := FirstSpace(s);
      [s[..i]] + Split(s[i + 1..])
  }

  /** Echo's output determines its arguments: when no argument contains a
      space, splitting the text before the final newline gives them back. */
  lemma {:induction false} SplitJoin(args: seq<string>)
    requires |args| >= 1
    requires forall i :: 0 <= i < |args| ==> ' ' !in args[i]
    ensures Split(Join(args)) == args
  {
    if |args| == 1 {
    } else {
      JoinFront(args);
      var a := args[0];
      var s := Join(args);
      assert s[|a|] == ' ';
      assert s[..|a|] == a;
      assert ' ' in s;
      assert FirstSpace(s) == |a| by {
        var i := FirstSpace(s);
        assert forall j :: 0 <= j < |a| ==> s[j] == a[j];
        assert i >= |a|;
        assert forall j :: 0 <= j < i ==> s[..i][j] == s[j];
        assert i <= |a|;
      }
      assert s[|a| + 1..] == Join(args[1..]);
      SplitJoin(args[1..]);
      assert [a] + args[1..] == args;
    }
  }

  /** The printed text ends in its one newline when no argument holds one. */
  lemma {:induction false} NewlineOnlyAtEnd(args: seq<string>)
    requires forall i :: 0 <= i < |args| ==> '\n' !in args[i]
    ensures '\n' !in Join(args)
    ensures EchoText(args)[|EchoText(args)| - 1] == '\n'
  {
    if |args| >= 2 {
      var init := args[..|args| - 1];
      NewlineOnlyAtEnd(init);
      assert Join(args) == Join(init) + " " + args[|args| - 1];
    }
  }

  /** `echo` with no arguments writes just the newline; `echo a b` writes "a b\n". */
  lemma EchoExamples()
    ensures EchoText([]) == "\n"
    ensures EchoText(["a", "b"]) == "a b\n"
  {
    assert ["a", "b"][..1] == ["a"];
  }
}
