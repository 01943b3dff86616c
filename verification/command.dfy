/**
 * The classification section of run_process (dragonshell.c): the argument
 * array that follows the program path becomes a structured command.
 *
 * - a trailing "&" sets the background flag and is overwritten with NULL;
 * - "<" and ">" take the next token as the input or output file;
 * - "|" switches to the second stage and takes the next token as its path;
 * - every other token is appended to the current stage's argument list,
 *   whose entry 0 is the program's base name.
 *
 * Classify is the reference definition; RunProcessParse is the source's
 * loop over i, j, k and mode, proved to compute it. The loop exactly as
 * the source writes it, with what happens when an operator has no operand,
 * is in CommandFindings.
 */
module CommandModel {
  import opened Wrappers
  import opened ArgHelpers

  /** One program to start: the path handed to execve and its argument vector. */
  datatype Stage = Stage(path: string, argv: seq<string>)

  /** The command one input line denotes. */
  datatype Command = Command(
    first: Stage,
    input: Option<string>,
    output: Option<string>,
    background: bool,
    second: Option<Stage>)

  datatype ParseError =
    | CommandNotFound          // the path is not executable (access(path, X_OK) fails)
    | MissingOperand(op: string)  // an operator is the last token

  predicate IsOperator(t: string)
  {
    t == "<" || t == ">" || t == "|"
  }

  predicate NoOperators(ts: seq<string>)
  {
    forall i :: 0 <= i < |ts| ==> !IsOperator(ts[i])
  }

  /**
   * The classification loop's state: the redirect targets and pipe path seen
   * so far (the last one wins), and the arguments gathered for each stage
   * after argv[0]. The second stage is current once pipeTo is set.
   */
  datatype Scan = Scan(
    input: Option<string>,
    output: Option<string>,
    pipeTo: Option<string>,
    args1: seq<string>,
    args2: seq<string>)

  const Start := Scan(None, None, None, [], [])

  /** The effect of an operator and its operand: the last "<" names the input, the last ">" the output, the last "|" the second program. */
  function Operate(st: Scan, op: string, operand: string): Scan
  {
    if op == "<" then st.(input := Some(operand))
    else if op == ">" then st.(output := Some(operand))
    else st.(pipeTo := Some(operand))
  }

  /** An ordinary token joins the first stage's arguments until a pipe is seen, the second's after. */
  function AddArgument(st: Scan, t: string): Scan
  {
    if st.pipeTo.None? then st.(args1 := st.args1 + [t]) else st.(args2 := st.args2 + [t])
  }

  /** The scan of the tokens from index i on, from state `st`. */
  function ScanFrom(ts: seq<string>, i: nat, st: Scan): Result<Scan, ParseError>
    decreases |ts| - i
  {
    if i >= |ts| then Ok(st)
    else if IsOperator(ts[i]) then
      if i + 1 == |ts| then Err(MissingOperand(ts[i]))
      else ScanFrom(ts, i + 2, Operate(st, ts[i], ts[i + 1]))
    else ScanFrom(ts, i + 1, AddArgument(st, ts[i]))
  }

  /**
   * What the scan guarantees: it fails only when the last token is an
   * operator, which then lacks its operand, and it does fail when the token
   * before that operator is not an operator (ScanErrExact gives the exact
   * condition); it never puts an operator into
   * an argument list nor gathers more arguments than there are tokens; once
   * a pipe is seen the first stage's arguments are final, and before one the
   * second stage's stay empty.
   */
  lemma {:induction false} ScanFromProps(ts: seq<string>, i: nat, st: Scan)
    requires i <= |ts|
    ensures var r := ScanFrom(ts, i, st);
      && (r.Err? ==> i < |ts| && IsOperator(ts[|ts| - 1]) && r == Err(MissingOperand(ts[|ts| - 1])))
      && (i < |ts| && IsOperator(ts[|ts| - 1]) && (i == |ts| - 1 || !IsOperator(ts[|ts| - 2])) ==> r.Err?)
      && (r.Ok? ==> |r.value.args1| + |r.value.args2| <= |st.args1| + |st.args2| + |ts| - i)
      && (r.Ok? && NoOperators(st.args1) && NoOperators(st.args2) ==>
            NoOperators(r.value.args1) && NoOperators(r.value.args2))
      && (r.Ok? && st.pipeTo.Some? ==> r.value.pipeTo.Some? && r.value.args1 == st.args1)
      && (r.Ok? && r.value.pipeTo.None? ==> r.value.args2 == st.args2)
    decreases |ts| - i
  {
    if i < |ts| {
      if IsOperator(ts[i]) {
        if i + 1 < |ts| {
          ScanFromProps(ts, i + 2, Operate(st, ts[i], ts[i + 1]));
        }
      } else {
        ScanFromProps(ts, i + 1, AddArgument(st, ts[i]));
      }
    }
  }

  /** The trailing "&" check: the background flag and the tokens left for the scan. */
  function DropBackground(args: seq<string>): (bool, seq<string>)
  {
    if |args| > 0 && args[|args| - 1] == "&" then (true, args[..|args| - 1]) else (false, args)
  }

  /**
   * run_process up to the fork: the executability check, then the
   * classification of the arguments that follow the path.
   */
  function Classify(path: string, executable: bool, args: seq<string>): Result<Command, ParseError>
  {
    if !executable then Err(CommandNotFound)
    else
      var (background, ts) := DropBackground(args);
      Assemble(path, background, ts)
  }

  /** The command the scan of `ts` describes, for the program at `path`. */
  function Assemble(path: string, background: bool, ts: seq<string>): Result<Command, ParseError>
  {
    match ScanFrom(ts, 0, Start)
    case Err(e) => Err(e)
    case Ok(sc) =>
      Ok(Command(
        Stage(path, [ExtractProgramName(path)] + sc.args1),
        sc.input, sc.output, background,
        if sc.pipeTo.Some?
        then Some(Stage(sc.pipeTo.value, [ExtractProgramName(sc.pipeTo.value)] + sc.args2))
        else None))
  }

  /**
   * What a classified command looks like: an unexecutable path is the only
   * source of CommandNotFound; otherwise the command fails only when the
   * last token (after a trailing "&" is dropped) is an operator, and does
   * fail when the token before it is not an operator (ClassifyErrExact
   * gives the exact condition). A command
   * runs the given path, each stage's argv[0] is its program's base name
   * and no operator reaches an argument vector, the background flag is the
   * trailing "&", and the two vectors together hold at most the tokens plus
   * the two program names.
   */
  lemma ClassifyProps(path: string, executable: bool, args: seq<string>)
    ensures var r := Classify(path, executable, args);
      && (r == Err(CommandNotFound) <==> !executable)
      && (executable ==>
            var ts := DropBackground(args).1;
            && (r.Err? ==> |ts| > 0 && IsOperator(ts[|ts| - 1]) && r == Err(MissingOperand(ts[|ts| - 1])))
            && (|ts| > 0 && IsOperator(ts[|ts| - 1]) && (|ts| == 1 || !IsOperator(ts[|ts| - 2])) ==> r.Err?))
      && (r.Ok? ==>
            && r.value.first.path == path
            && |r.value.first.argv| >= 1
            && r.value.first.argv[0] == ExtractProgramName(path)
            && NoOperators(r.value.first.argv[1..]))
      && (r.Ok? ==> (r.value.background <==> |args| > 0 && args[|args| - 1] == "&"))
      && (r.Ok? && r.value.second.Some? ==>
            && |r.value.second.value.argv| >= 1
            && r.value.second.value.argv[0] == ExtractProgramName(r.value.second.value.path)
            && NoOperators(r.value.second.value.argv[1..]))
      && (r.Ok? ==>
            |r.value.first.argv| + (if r.value.second.Some? then |r.value.second.value.argv| else 1) <= |args| + 2)
  {
    if executable {
      var (background, ts) := DropBackground(args);
      ScanFromProps(ts, 0, Start);
      match ScanFrom(ts, 0, Start)
      case Err(e) =>
      case Ok(sc) =>
        assert ([ExtractProgramName(path)] + sc.args1)[1..] == sc.args1;
        if sc.pipeTo.Some? {
          assert ([ExtractProgramName(sc.pipeTo.value)] + sc.args2)[1..] == sc.args2;
        }
    }
  }

  /**
   * The exact error condition of the scan: it fails exactly when the last
   * token is an operator and the scan of the tokens before it succeeds, so
   * that the operator is not consumed as the operand of an earlier one.
   */
  lemma {:induction false} ScanErrExact(ts: seq<string>, i: nat, st: Scan)
    requires 0 < |ts| && i < |ts|
    ensures ScanFrom(ts, i, st).Err? <==> IsOperator(ts[|ts| - 1]) && ScanFrom(ts[..|ts| - 1], i, st).Ok?
    decreases |ts| - i
  {
    var p := ts[..|ts| - 1];
    if i < |ts| - 1 {
      assert ts[i] == p[i];
      if IsOperator(ts[i]) {
        if i + 1 < |p| {
          assert ts[i + 1] == p[i + 1];
          ScanErrExact(ts, i + 2, Operate(st, ts[i], ts[i + 1]));
        }
      } else {
        ScanErrExact(ts, i + 1, AddArgument(st, ts[i]));
      }
    }
  }

  /**
   * The exact condition under which the corrected classification, Classify,
   * rejects a line: the path is not executable, or the last token left
   * after a trailing "&" is dropped is an operator that the scan of the
   * tokens before it does not consume. (The source itself rejects only an
   * unexecutable path; see CommandFindings for what it does instead.)
   */
  lemma ClassifyErrExact(path: string, executable: bool, args: seq<string>)
    ensures Classify(path, executable, args).Err? <==>
      || !executable
      || (var ts := DropBackground(args).1;
          |ts| > 0 && IsOperator(ts[|ts| - 1]) && ScanFrom(ts[..|ts| - 1], 0, Start).Ok?)
  {
    var ts := DropBackground(args).1;
    if |ts| > 0 {
      ScanErrExact(ts, 0, Start);
    }
  }

  /**
   * The classification loop of run_process: walks argv up to its NULL,
   * copying ordinary tokens into `arguments` (from slot 1) until a "|" is
   * seen and into `arguments2` after it, and recording the redirect files
   * and the pipe's program. An operator with no operand stops the loop with
   * an error instead of reading the sentinel's successor. On success the
   * ghost `sc` is the scan's result, the real variables hold its parts, and
   * slots j and k are the ends of the two argument lists.
   */
  method ScanLoop(argv: array<Option<string>>, ghost ts: seq<string>,
                  arguments: array<Option<string>>, arguments2: array<Option<string>>)
    returns (err: Option<ParseError>, input: Option<string>, output: Option<string>,
             pipeTo: Option<string>, j: nat, k: nat, ghost sc: Scan)
    requires |ts| < argv.Length && argv[|ts|] == None
    requires forall m :: 0 <= m < |ts| ==> argv[m] == Some(ts[m])
    requires arguments != argv && arguments2 != argv && arguments != arguments2
    requires arguments.Length >= |ts| + 2 && arguments2.Length >= |ts| + 2
    modifies arguments, arguments2
    ensures err.Some? ==> ScanFrom(ts, 0, Start) == Err(err.value)
    ensures err.None? ==>
      && ScanFrom(ts, 0, Start) == Ok(sc)
      && sc.input == input && sc.output == output && sc.pipeTo == pipeTo
      && j == |sc.args1| + 1 && k == |sc.args2| + 1 && j + k <= |ts| + 2
    ensures arguments[0] == old(arguments[0])
    ensures err.None? ==> forall m :: 1 <= m < j ==> arguments[m] == Some(sc.args1[m - 1])
    ensures err.None? && pipeTo.Some? ==> arguments2[0] == Some(ExtractProgramName(pipeTo.value))
    ensures err.None? ==> forall m :: 1 <= m < k ==> arguments2[m] == Some(sc.args2[m - 1])
  {
    err, input, output, pipeTo, sc := None, None, None, None, Start;
    var i, mode := 0, 0;
    j, k := 1, 1;
    while argv[i] != None
      invariant i <= |ts|
      invariant ScanFrom(ts, 0, Start) == ScanFrom(ts, i, sc)
      invariant sc.input == input && sc.output == output && sc.pipeTo == pipeTo
      invariant mode == (if pipeTo.Some? then 1 else 0)
      invariant j == |sc.args1| + 1 && k == |sc.args2| + 1 && |sc.args1| + |sc.args2| <= i
      invariant arguments[0] == old(arguments[0])
      invariant forall m :: 1 <= m < j ==> arguments[m] == Some(sc.args1[m - 1])
      invariant pipeTo.Some? ==> arguments2[0] == Some(ExtractProgramName(pipeTo.value))
      invariant forall m :: 1 <= m < k ==> arguments2[m] == Some(sc.args2[m - 1])
      decreases |ts| - i
    {
      var t := argv[i].value;
      if t == "<" || t == ">" || t == "|" {
        if argv[i + 1] == None {
          err := Some(MissingOperand(t));
          return;
        }
        sc := Operate(sc, t, argv[i + 1].value);
        if t == "<" {
          input := argv[i + 1];
        } else if t == ">" {
          output := argv[i + 1];
        } else {
          mode := 1;
          pipeTo := argv[i + 1];
          arguments2[0] := Some(ExtractProgramName(argv[i + 1].value));
        }
        i := i + 2;
      } else {
        sc := AddArgument(sc, t);
        if mode == 0 {
          arguments[j] := argv[i];
          j := j + 1;
        } else {
          arguments2[k] := argv[i];
          k := k + 1;
        }
        i := i + 1;
      }
    }
  }

  /** Slot 0 holding the program name and slots 1.. the arguments, then a NULL: the argument vector. */
  lemma SlotsHoldVector(a: seq<Option<string>>, name: string, rest: seq<string>)
    requires |rest| + 1 < |a| && a[0] == Some(name) && a[|rest| + 1] == None
    requires forall m :: 1 <= m < |rest| + 1 ==> a[m] == Some(rest[m - 1])
    ensures a[..|rest| + 2] == NullTerminated([name] + rest)
    ensures Arguments(a) == [name] + rest
  {
    var xs := [name] + rest;
    forall m | 0 <= m < |xs|
      ensures a[m] == Some(xs[m])
    {
      if m > 0 {
        assert xs[m] == rest[m - 1];
      }
    }
    ArgumentsOfSlots(a, xs);
  }

  /**
   * The trailing "&" check of run_process: get_length counts the arguments
   * and, when the last one is "&", it is overwritten with NULL. Returns the
   * background flag and the count taken before the overwrite.
   */
  method RemoveBackgroundMarker(argv: array<Option<string>>) returns (background: bool, argLength: nat)
    requires None in argv[..]
    modifies argv
    ensures argLength == |old(Arguments(argv[..]))|
    ensures (background, Arguments(argv[..])) == DropBackground(old(Arguments(argv[..])))
    ensures argv[..] == if background then old(argv[..])[argLength - 1 := None] else old(argv[..])
  {
    argLength := GetLength(argv);
    background := false;
    if argLength > 0 && argv[argLength - 1] == Some("&") {
      background := true;
      ArgumentsTruncate(argv[..], argLength - 1);
      argv[argLength - 1] := None;
    }
  }

  /**
   * run_process from the executability check to the end of the
   * classification loop. A trailing "&" is overwritten with NULL in argv;
   * `arguments` and `arguments2` are the NULL-terminated argument vectors
   * for the two execve calls. An operator with no operand is rejected
   * instead of being read past the sentinel, and both vectors get
   * arg_length + 2 slots, enough for every command.
   */
  method RunProcessParse(path: string, executable: bool, argv: array<Option<string>>)
    returns (r: Result<Command, ParseError>, arguments: array<Option<string>>, arguments2: array<Option<string>>)
    requires None in argv[..]
    modifies argv
    ensures r == Classify(path, executable, old(Arguments(argv[..])))
    ensures var args := old(Arguments(argv[..]));
      argv[..] == if executable && |args| > 0 && args[|args| - 1] == "&"
                  then old(argv[..])[|args| - 1 := None] else old(argv[..])
    ensures executable ==>
      arguments.Length == |old(Arguments(argv[..]))| + 2 && arguments2.Length == |old(Arguments(argv[..]))| + 2
    ensures r.Ok? ==>
      && |r.value.first.argv| < arguments.Length
      && arguments[..|r.value.first.argv| + 1] == NullTerminated(r.value.first.argv)
    ensures r.Ok? && r.value.second.Some? ==>
      && |r.value.second.value.argv| < arguments2.Length
      && arguments2[..|r.value.second.value.argv| + 1] == NullTerminated(r.value.second.value.argv)
  {
    if !executable {
      arguments := new Option<string>[0];
      arguments2 := new Option<string>[0];
      r := Err(CommandNotFound);
      return;
    }
    var background, argLength := RemoveBackgroundMarker(argv);
    r, arguments, arguments2 := BuildVectors(path, background, argv, Arguments(argv[..]), argLength);
  }

  /**
   * The part of run_process between the "&" check and the fork: allocates
   * the two argument vectors, puts the program's base name in slot 0 of
   * the first, runs the classification loop and NULL-terminates both.
   */
  method BuildVectors(path: string, background: bool, argv: array<Option<string>>, ghost ts: seq<string>, argLength: nat)
    returns (r: Result<Command, ParseError>, arguments: array<Option<string>>, arguments2: array<Option<string>>)
    requires |ts| <= argLength < argv.Length && argv[|ts|] == None
    requires forall m :: 0 <= m < |ts| ==> argv[m] == Some(ts[m])
    ensures fresh(arguments) && fresh(arguments2)
    ensures arguments.Length == argLength + 2 && arguments2.Length == argLength + 2
    ensures r == Assemble(path, background, ts)
    ensures r.Ok? ==>
      && |r.value.first.argv| < arguments.Length
      && arguments[..|r.value.first.argv| + 1] == NullTerminated(r.value.first.argv)
    ensures r.Ok? && r.value.second.Some? ==>
      && |r.value.second.value.argv| < arguments2.Length
      && arguments2[..|r.value.second.value.argv| + 1] == NullTerminated(r.value.second.value.argv)
  {
    arguments := new Option<string>[argLength + 2](_ => None);
    arguments2 := new Option<string>[argLength + 2](_ => None);
    var base := ExtractProgramName(path);
    arguments[0] := Some(base);
    var err, input, output, pipeTo, j, k, sc := ScanLoop(argv, ts, arguments, arguments2);
    if err.Some? {
      r := Err(err.value);
      return;
    }
    arguments[j] := None;
    arguments2[k] := None;

    SlotsHoldVector(arguments[..], base, sc.args1);
    var first := Stage(path, Arguments(arguments[..]));
    var second: Option<Stage> := None;
    if pipeTo.Some? {
      SlotsHoldVector(arguments2[..], ExtractProgramName(pipeTo.value), sc.args2);
      second := Some(Stage(pipeTo.value, Arguments(arguments2[..])));
    }
    r := Ok(Command(first, input, output, background, second));
  }
}
