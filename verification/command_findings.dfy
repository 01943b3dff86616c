/**
 * The classification loop of run_process (dragonshell.c) exactly as it is
 * written, for the inputs it mishandles:
 *
 * - an operator that is the last token takes argv[i + 1], a NULL, as its
 *   operand. "|" passes that NULL to extract_program_name. "<" and ">"
 *   record it and step i by two: without a trailing "&" that is past the
 *   sentinel and the loop reads beyond the argument list; with one, the
 *   NULL written over the "&" is taken as the operand, the original
 *   sentinel ends the loop, and the command runs with that redirection
 *   silently cleared (`ls > &`, and `ls > out > &` which drops `> out`);
 * - the argument vectors are declared with arg_length slots, fewer than an
 *   operator-free command needs.
 *
 * The rest of the model uses the corrected behaviour: Classify rejects an
 * operand-less operator with MissingOperand, with or without a trailing
 * "&", and BuildVectors allocates arg_length + 2 slots.
 */
module CommandFindings {
  import opened Wrappers
  import opened ArgHelpers
  import opened CommandModel
  import opened CommandLemmas

  /** How the unguarded loop ends. */
  datatype LoopOutcome =
    | Finished(sc: Scan)            // argv[i] was NULL
    | ReadPastSentinel(index: nat)  // i stepped over the last NULL; argv[index] lies beyond the list
    | NullProgramName               // extract_program_name was called on NULL

  /** The argument array the loop reads: the list and its sentinel, with a trailing "&" overwritten by NULL. */
  function MarkerCleared(args: seq<string>): seq<Option<string>>
  {
    var a := NullTerminated(args);
    if |args| > 0 && args[|args| - 1] == "&" then a[|args| - 1 := None] else a
  }

  /**
   * The loop as written, over the whole argument array `a` (whose last slot
   * is the sentinel): it stops at the first NULL; "<" and ">" record
   * argv[i + 1] whatever it is and step by two; "|" computes the base name
   * of argv[i + 1] first.
   */
  function LoopAsWritten(a: seq<Option<string>>, i: nat, st: Scan): LoopOutcome
    requires |a| > 0 && a[|a| - 1] == None && i <= |a|
    decreases |a| - i
  {
    if i == |a| then ReadPastSentinel(i)
    else match a[i]
      case None => Finished(st)
      case Some(t) =>
        if t == "<" then LoopAsWritten(a, i + 2, st.(input := a[i + 1]))
        else if t == ">" then LoopAsWritten(a, i + 2, st.(output := a[i + 1]))
        else if t == "|" then
          if a[i + 1] == None then NullProgramName
          else LoopAsWritten(a, i + 2, st.(pipeTo := a[i + 1]))
        else LoopAsWritten(a, i + 1, AddArgument(st, t))
  }

  /**
   * The loop as written, on the tokens `ts` left for the scan followed by
   * their NULL and, when a trailing "&" was removed, the original sentinel,
   * agrees with the scan wherever the scan succeeds. Where the scan reports
   * a missing operand, the loop extracts a program name from NULL (after
   * "|"), reads past the sentinel (after "<" or ">" with no "&"), or ends
   * normally with that redirection cleared (after "<" or ">" before a
   * removed "&").
   */
  lemma {:induction false} LoopAsWrittenAgrees(ts: seq<string>, background: bool, i: nat, st: Scan)
    requires i <= |ts|
    ensures var a := NullTerminated(ts) + (if background then [None] else []);
      var out := LoopAsWritten(a, i, st);
      match ScanFrom(ts, i, st)
      case Ok(sc) => out == Finished(sc)
      case Err(e) =>
        && e.MissingOperand?
        && (e.op == "|" ==> out == NullProgramName)
        && (e.op != "|" && !background ==> out == ReadPastSentinel(|ts| + 1))
        && (e.op != "|" && background ==>
              out.Finished? && (if e.op == "<" then out.sc.input else out.sc.output) == None)
    decreases |ts| - i
  {
    var a := NullTerminated(ts) + (if background then [None] else []);
    assert a[|ts|] == None;
    assert forall k :: 0 <= k < |ts| ==> a[k] == Some(ts[k]);
    if i < |ts| {
      if IsOperator(ts[i]) {
        if i + 1 < |ts| {
          LoopAsWrittenAgrees(ts, background, i + 2, Operate(st, ts[i], ts[i + 1]));
        } else if background {
          assert a[|ts| + 1] == None;
        }
      } else {
        LoopAsWrittenAgrees(ts, background, i + 1, AddArgument(st, ts[i]));
      }
    }
  }

  /** The array the loop reads is the tokens left for the scan, their NULL and, after a removed "&", the old sentinel. */
  lemma MarkerClearedLayout(args: seq<string>)
    ensures var (background, ts) := DropBackground(args);
      MarkerCleared(args) == NullTerminated(ts) + (if background then [None] else [])
  {
    var (background, ts) := DropBackground(args);
    var a := MarkerCleared(args);
    var b := NullTerminated(ts) + (if background then [None] else []);
    assert |a| == |b|;
    forall k | 0 <= k < |a|
      ensures a[k] == b[k]
    {
      if k < |ts| {
        assert a[k] == Some(args[k]);
      }
    }
  }

  /**
   * For any argument list, the loop as written on the array run_process
   * leaves agrees with Classify wherever Classify accepts; where Classify
   * reports "<" or ">" without an operand before a trailing "&", the loop
   * ends normally with that redirection cleared.
   */
  lemma ClassifyAgainstLoop(path: string, args: seq<string>)
    ensures var r := Classify(path, true, args);
      var out := LoopAsWritten(MarkerCleared(args), 0, Start);
      && (r.Ok? ==> out.Finished? && Assemble(path, DropBackground(args).0, DropBackground(args).1) == r)
      && (r.Ok? ==> ScanFrom(DropBackground(args).1, 0, Start) == Ok(out.sc))
      && (r.Err? && r.error.MissingOperand? && r.error.op != "|" && DropBackground(args).0 ==>
            out.Finished? && (if r.error.op == "<" then out.sc.input else out.sc.output) == None)
  {
    var (background, ts) := DropBackground(args);
    MarkerClearedLayout(args);
    LoopAsWrittenAgrees(ts, background, 0, Start);
  }

  /** `ls >`: the loop as written steps to argv[2], past the sentinel at argv[1]; the scan reports the missing file. */
  lemma RedirectWithoutFile()
    ensures LoopAsWritten(MarkerCleared([">"]), 0, Start) == ReadPastSentinel(2)
    ensures Classify("/bin/ls", true, [">"]) == Err(MissingOperand(">"))
  {
    MarkerClearedLayout([">"]);
    LoopAsWrittenAgrees([">"], false, 0, Start);
  }

  /**
   * `ls > &` and `ls > out > &`: the loop as written ends at the old
   * sentinel with no output file, so the command runs in the background
   * writing to the terminal, `> out` dropped; the scan reports the missing
   * file instead.
   */
  lemma RedirectBeforeAmpersand()
    ensures LoopAsWritten(MarkerCleared([">", "&"]), 0, Start) == Finished(Start)
    ensures LoopAsWritten(MarkerCleared([">", "out", ">", "&"]), 0, Start) == Finished(Start)
    ensures Classify("/bin/ls", true, [">", "&"]) == Err(MissingOperand(">"))
    ensures Classify("/bin/ls", true, [">", "out", ">", "&"]) == Err(MissingOperand(">"))
  {
    MarkerClearedLayout([">", "&"]);
    assert [">", "&"][..1] == [">"];
    MarkerClearedLayout([">", "out", ">", "&"]);
    var ts := [">", "out", ">"];
    assert [">", "out", ">", "&"][..3] == ts;
    assert ScanFrom(ts, 0, Start) == ScanFrom(ts, 2, Operate(Start, ">", "out"));
  }

  /** `ls |`: the loop as written hands NULL to extract_program_name; the scan reports the missing program. */
  lemma PipeWithoutProgram()
    ensures LoopAsWritten(MarkerCleared(["|"]), 0, Start) == NullProgramName
    ensures Classify("/bin/ls", true, ["|"]) == Err(MissingOperand("|"))
  {
    MarkerClearedLayout(["|"]);
    LoopAsWrittenAgrees(["|"], false, 0, Start);
  }

  /**
   * With the declared size, arg_length (the argument count before "&" is
   * removed), every operator-free command overflows the first vector: it
   * needs its argv entries plus the NULL, one or two slots more than
   * arg_length. `ls -l` needs three slots and gets one.
   */
  lemma ArgumentsArrayTooSmall(path: string, args: seq<string>)
    requires NoOperators(args)
    ensures var r := Classify(path, true, args);
      r.Ok? && |r.value.first.argv| + 1 > |args|
    ensures |args| == 1 && args[0] == "-l" ==>
      |Classify(path, true, args).value.first.argv| + 1 == 3
  {
    var (bg, ts) := DropBackground(args);
    assert NoOperators(ts);
    ScanPlain(ts, 0, Start);
    assert Start.args1 + ts[0..] == ts;
  }

  /**
   * With arg_length + 2 slots, as BuildVectors allocates, both vectors and
   * their NULLs always fit.
   */
  lemma VectorsFit(path: string, args: seq<string>)
    requires Classify(path, true, args).Ok?
    ensures var c := Classify(path, true, args).value;
      && |c.first.argv| + 1 <= |args| + 2
      && (c.second.Some? ==> |c.second.value.argv| + 1 <= |args| + 2)
  {
    ClassifyProps(path, true, args);
  }
}
