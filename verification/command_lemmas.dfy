/**
 * Properties of the classification of run_process (dragonshell.c): an
 * operator-free argument list is one stage's arguments, and a command
 * written back as tokens classifies to itself.
 */
module CommandLemmas {
  import opened Wrappers
  import opened ArgHelpers
  import opened CommandModel

  /** Tokens with no operator from index i on all join the current stage, in order. */
  lemma {:induction false} ScanPlain(ts: seq<string>, i: nat, st: Scan)
    requires i <= |ts|
    requires forall m :: i <= m < |ts| ==> !IsOperator(ts[m])
    ensures ScanFrom(ts, i, st) == Ok(
      if st.pipeTo.None? then st.(args1 := st.args1 + ts[i..]) else st.(args2 := st.args2 + ts[i..]))
    decreases |ts| - i
  {
    if i < |ts| {
      ScanPlain(ts, i + 1, AddArgument(st, ts[i]));
      assert [ts[i]] + ts[i + 1..] == ts[i..];
      if st.pipeTo.None? {
        assert st.args1 + [ts[i]] + ts[i + 1..] == st.args1 + ts[i..];
      } else {
        assert st.args2 + [ts[i]] + ts[i + 1..] == st.args2 + ts[i..];
      }
    } else {
      assert ts[i..] == [];
      assert st.args1 + [] == st.args1 && st.args2 + [] == st.args2;
    }
  }

  /**
   * A command line with no operator and no trailing "&" runs one program in
   * the foreground, without redirection, on exactly the given arguments.
   */
  lemma ClassifyOperatorFree(path: string, args: seq<string>)
    requires NoOperators(args)
    requires |args| == 0 || args[|args| - 1] != "&"
    ensures Classify(path, true, args) ==
      Ok(Command(Stage(path, [ExtractProgramName(path)] + args), None, None, false, None))
  {
    ScanPlain(args, 0, Start);
    assert [] + args[0..] == args;
  }

  /** Scanning the tokens of `ys` placed after `xs` is scanning `ys` alone. */
  lemma {:induction false} ScanShift(xs: seq<string>, ys: seq<string>, j: nat, st: Scan)
    requires j <= |ys|
    ensures ScanFrom(xs + ys, |xs| + j, st) == ScanFrom(ys, j, st)
    decreases |ys| - j
  {
    var ts := xs + ys;
    if j < |ys| {
      assert ts[|xs| + j] == ys[j];
      if IsOperator(ys[j]) {
        if j + 1 < |ys| {
          assert ts[|xs| + j + 1] == ys[j + 1];
          ScanShift(xs, ys, j + 2, Operate(st, ys[j], ys[j + 1]));
        }
      } else {
        ScanShift(xs, ys, j + 1, AddArgument(st, ys[j]));
      }
    }
  }

  /** A successful scan of `xs` from i ends exactly at its end, whatever follows it. */
  lemma {:induction false} ScanPrefix(xs: seq<string>, ys: seq<string>, i: nat, st: Scan)
    requires i <= |xs| && ScanFrom(xs, i, st).Ok?
    ensures ScanFrom(xs + ys, i, st) == ScanFrom(xs + ys, |xs|, ScanFrom(xs, i, st).value)
    decreases |xs| - i
  {
    var ts := xs + ys;
    if i < |xs| {
      assert ts[i] == xs[i];
      if IsOperator(xs[i]) {
        assert i + 1 < |xs|;
        assert ts[i + 1] == xs[i + 1];
        ScanPrefix(xs, ys, i + 2, Operate(st, xs[i], xs[i + 1]));
      } else {
        ScanPrefix(xs, ys, i + 1, AddArgument(st, xs[i]));
      }
    }
  }

  /** The scan of a concatenation is the scan of the second part from where the first part left off. */
  lemma ScanConcat(xs: seq<string>, ys: seq<string>, st: Scan)
    requires ScanFrom(xs, 0, st).Ok?
    ensures ScanFrom(xs + ys, 0, st) == ScanFrom(ys, 0, ScanFrom(xs, 0, st).value)
  {
    ScanPrefix(xs, ys, 0, st);
    ScanShift(xs, ys, 0, ScanFrom(xs, 0, st).value);
  }

  /** The tokens of an optional redirect: the operator and its file, or nothing. */
  function Redirect(op: string, target: Option<string>): seq<string>
  {
    if target.Some? then [op, target.value] else []
  }

  /** A command written back as the tokens that follow its path, without the "&". */
  function Body(c: Command): seq<string>
    requires |c.first.argv| >= 1 && (c.second.Some? ==> |c.second.value.argv| >= 1)
  {
    c.first.argv[1..] + Redirect("<", c.input) + Redirect(">", c.output)
    + (if c.second.Some? then ["|", c.second.value.path] + c.second.value.argv[1..] else [])
  }

  /** A command written back as tokens: its body, then "&" for a background command. */
  function Render(c: Command): seq<string>
    requires |c.first.argv| >= 1 && (c.second.Some? ==> |c.second.value.argv| >= 1)
  {
    Body(c) + (if c.background then ["&"] else [])
  }

  /**
   * The commands a line can denote: each stage's argv[0] is its program's
   * base name and no operator is an argument; a foreground command's tokens
   * do not end in "&", which would make it a background one.
   */
  predicate WellFormed(c: Command)
  {
    && |c.first.argv| >= 1
    && c.first.argv[0] == ExtractProgramName(c.first.path)
    && NoOperators(c.first.argv[1..])
    && (c.second.Some? ==>
          && |c.second.value.argv| >= 1
          && c.second.value.argv[0] == ExtractProgramName(c.second.value.path)
          && NoOperators(c.second.value.argv[1..]))
    && (!c.background ==> var b := Body(c); |b| == 0 || b[|b| - 1] != "&")
  }

  /** The scan of a redirect's tokens records its file and nothing else. */
  lemma ScanRedirect(op: string, target: Option<string>, st: Scan)
    requires op == "<" || op == ">"
    ensures ScanFrom(Redirect(op, target), 0, st) ==
      Ok(if target.None? then st else Operate(st, op, target.value))
  {
  }

  /** The scan of a pipe's tokens names the second program and gathers its arguments. */
  lemma ScanPipe(path: string, args: seq<string>, st: Scan)
    requires NoOperators(args)
    ensures ScanFrom(["|", path] + args, 0, st) ==
      Ok(st.(pipeTo := Some(path), args2 := st.args2 + args))
  {
    var ts := ["|", path] + args;
    assert ts[0] == "|" && ts[1] == path;
    ScanShift(["|", path], args, 0, Operate(st, "|", path));
    ScanPlain(args, 0, Operate(st, "|", path));
    assert args[0..] == args;
  }

  /** The scan of a command's body recovers its redirects, its pipe and both argument lists. */
  lemma ScanBody(c: Command)
    requires |c.first.argv| >= 1 && NoOperators(c.first.argv[1..])
    requires c.second.Some? ==> |c.second.value.argv| >= 1 && NoOperators(c.second.value.argv[1..])
    ensures ScanFrom(Body(c), 0, Start) == Ok(Scan(c.input, c.output,
      if c.second.Some? then Some(c.second.value.path) else None,
      c.first.argv[1..],
      if c.second.Some? then c.second.value.argv[1..] else []))
  {
    var a := c.first.argv[1..];
    var r1 := Redirect("<", c.input);
    var r2 := Redirect(">", c.output);
    var p := if c.second.Some? then ["|", c.second.value.path] + c.second.value.argv[1..] else [];
    assert Body(c) == a + r1 + r2 + p;

    ScanPlain(a, 0, Start);
    var s1 := Start.(args1 := a);
    assert Start.args1 + a[0..] == a;
    ScanRedirect("<", c.input, s1);
    var s2 := s1.(input := c.input);
    ScanConcat(a, r1, Start);
    ScanRedirect(">", c.output, s2);
    var s3 := s2.(output := c.output);
    ScanConcat(a + r1, r2, Start);
    if c.second.Some? {
      ScanPipe(c.second.value.path, c.second.value.argv[1..], s3);
      assert s3.args2 + c.second.value.argv[1..] == c.second.value.argv[1..];
    }
    ScanConcat(a + r1 + r2, p, Start);
  }

  /** Round trip: a well-formed command, written back as tokens, classifies to itself. */
  lemma ClassifyRender(c: Command)
    requires WellFormed(c)
    ensures Classify(c.first.path, true, Render(c)) == Ok(c)
  {
    var body := Body(c);
    var args := Render(c);
    assert DropBackground(args) == (c.background, body) by {
      if c.background {
        assert args[..|args| - 1] == body;
      } else {
        assert args == body;
      }
    }
    ScanBody(c);
    assert [c.first.argv[0]] + c.first.argv[1..] == c.first.argv;
    if c.second.Some? {
      assert [c.second.value.argv[0]] + c.second.value.argv[1..] == c.second.value.argv;
    }
  }

  /**
   * The presence of a "|" token does not make a pipeline: a "|" that is the
   * operand of ">" is the output file, and the command has no second stage.
   * So is_pipe, which run_process never calls, would not be a sound test
   * for a pipeline; the loop's own classification is what decides.
   */
  lemma PipeAsRedirectTarget()
    ensures "|" in ["-l", ">", "|"]
    ensures var r := Classify("/bin/ls", true, ["-l", ">", "|"]);
      r.Ok? && r.value.second.None? && r.value.output == Some("|")
  {
    var ts := ["-l", ">", "|"];
    var st := Start.(args1 := ["-l"]);
    assert ScanFrom(ts, 3, st.(output := Some("|"))) == Ok(st.(output := Some("|")));
    assert ScanFrom(ts, 1, st) == ScanFrom(ts, 3, st.(output := Some("|")));
    assert !IsOperator(ts[0]) && AddArgument(Start, ts[0]) == st;
    assert ScanFrom(ts, 0, Start) == ScanFrom(ts, 1, st);
  }

  /**
   * Only the last "&" is special: in an operator-free line whose last token
   * is not "&", every "&" is an ordinary argument of a foreground command,
   * as in `ls & x`.
   */
  lemma AmpersandInMiddle(path: string, xs: seq<string>, ys: seq<string>)
    requires NoOperators(xs) && NoOperators(ys)
    requires ys != [] && ys[|ys| - 1] != "&"
    ensures Classify(path, true, xs + ["&"] + ys) ==
      Ok(Command(Stage(path, [ExtractProgramName(path)] + xs + ["&"] + ys), None, None, false, None))
  {
    var args := xs + ["&"] + ys;
    assert args[|args| - 1] == ys[|ys| - 1];
    forall i | 0 <= i < |args|
      ensures !IsOperator(args[i])
    {
      if i < |xs| {
        assert args[i] == xs[i];
      } else if i > |xs| {
        assert args[i] == ys[i - |xs| - 1];
      }
    }
    ClassifyOperatorFree(path, args);
    assert [ExtractProgramName(path)] + args == [ExtractProgramName(path)] + xs + ["&"] + ys;
  }
}
