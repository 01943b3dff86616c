/**
 * The main loop of dragonshell.c, one line at a time: the line is split on
 * spaces by tokenize, the first token picks a built-in (exit, pwd, cd) or
 * names a program for run_process, and running a program moves the job
 * slots.
 *
 * The system's answers are parameters: whether access() finds the program
 * executable, the pids the two forks return, and whether the foreground
 * wait saw the child stop.
 */
module Shell {
  import opened Wrappers
  import opened CStrtok
  import opened Tokenizer
  import opened ArgHelpers
  import opened CommandModel
  import opened Jobs

  /** LINE_LENGTH: the size of the buffer fgets reads a line into, its NUL included. */
  const LineLength: nat := 100

  /** The size main declares for its token array. */
  const DeclaredTokenSlots: nat := 10

  /** Token slots enough for every line that fits the buffer: half its length in tokens, plus the NULL. */
  const TokenSlots: nat := LineLength / 2 + 1

  /** main tokenizes on the single delimiter " ". */
  const Space: set<char> := {' '}

  /** The tokens tokenize stores for a line: its space-separated words, each quote-stripped. */
  function Tokens(line: string): seq<string>
  {
    var words := Split(line, Space);
    seq(|words|, i requires 0 <= i < |words| => StripQuotes(words[i]))
  }

  /** What the main loop does with a line. */
  datatype Action =
    | Exit                                // leave the loop and run exit_dragonshell
    | Pwd
    | Cd(dir: string)                     // "" when no directory is given
    | Run(path: string, args: seq<string>) // run_process(tokens[0], tokens + 1)
    | Nothing                             // a blank line: prompt again

  /** The dispatch, on the tokens of the line; a blank line does nothing. */
  function Dispatch(ts: seq<string>): Action
  {
    if ts == [] then Nothing
    else if ts[0] == "exit" then Exit
    else if ts[0] == "pwd" then Pwd
    else if ts[0] == "cd" then Cd(if |ts| == 1 then "" else ts[1])
    else Run(ts[0], ts[1..])
  }

  /**
   * The dispatch as written: tokens[0] is compared with "exit" even when it
   * is the NULL sentinel of an empty token list, and strcmp on NULL is
   * undefined behaviour (None).
   */
  function DispatchAsWritten(ts: seq<string>): Option<Action>
  {
    if ts == [] then None
    else if ts[0] == "exit" then Some(Exit)
    else if ts[0] == "pwd" then Some(Pwd)
    else if ts[0] == "cd" then Some(Cd(if |ts| == 1 then "" else ts[1]))
    else Some(Run(ts[0], ts[1..]))
  }

  /** What the main loop does with a line. */
  function LineAction(line: string): Action
  {
    Dispatch(Tokens(line))
  }

  /**
   * The dispatch decides by the first token alone: "exit" and "pwd" ignore
   * any further tokens, "cd" takes the second token or "", and any other
   * first token is a program run on exactly the remaining tokens.
   */
  lemma DispatchDecides(ts: seq<string>)
    ensures Dispatch(ts) == Nothing <==> ts == []
    ensures Dispatch(ts) == Exit <==> |ts| > 0 && ts[0] == "exit"
    ensures Dispatch(ts) == Pwd <==> |ts| > 0 && ts[0] == "pwd"
    ensures Dispatch(ts).Cd? <==> |ts| > 0 && ts[0] == "cd"
    ensures Dispatch(ts).Cd? ==> Dispatch(ts).dir == if |ts| >= 2 then ts[1] else ""
    ensures Dispatch(ts).Run? <==> |ts| > 0 && ts[0] != "exit" && ts[0] != "pwd" && ts[0] != "cd"
    ensures Dispatch(ts).Run? ==> [Dispatch(ts).path] + Dispatch(ts).args == ts
  {
    if Dispatch(ts).Run? {
      assert [ts[0]] + ts[1..] == ts;
    }
  }

  /** The dispatch as written agrees with Dispatch on every non-empty token list and is undefined on the empty one. */
  lemma DispatchAsWrittenAgrees(ts: seq<string>)
    ensures ts != [] ==> DispatchAsWritten(ts) == Some(Dispatch(ts))
    ensures ts == [] <==> DispatchAsWritten(ts).None?
  {
  }

  /** A line of spaces only, the empty line included, has no tokens: as written it reaches strcmp(NULL, "exit"). */
  lemma BlankLine(line: string)
    requires forall i :: 0 <= i < |line| ==> line[i] == ' '
    ensures Tokens(line) == []
    ensures DispatchAsWritten(Tokens(line)) == None
    ensures LineAction(line) == Nothing
  {
    SplitEmptyIff(line, Space);
  }

  /** Spaces before the command change nothing. */
  lemma LeadingSpace(line: string)
    ensures LineAction(" " + line) == LineAction(line)
  {
    SplitDropDelim(" " + line, Space);
    assert (" " + line)[1..] == line;
  }

  /** The tokens of a line that starts with a word: the word, stripped, then the tokens of the rest. */
  lemma TokensOfWordThen(w: string, rest: string)
    requires w != [] && forall i :: 0 <= i < |w| ==> w[i] != ' '
    requires rest == [] || rest[0] == ' '
    ensures Tokens(w + rest) == [StripQuotes(w)] + Tokens(rest)
  {
    SplitWordThen(w, rest, Space);
  }

  /**
   * Writing the tokens back with single spaces and tokenizing again gives
   * the same tokens when no word of the line is quoted: stripping then
   * changes nothing, and the split of the joined words is the words.
   */
  lemma TokensRejoin(line: string)
    requires forall i :: 0 <= i < |Split(line, Space)| ==> !Quoted(Split(line, Space)[i])
    ensures Tokens(Join(Tokens(line), ' ')) == Tokens(line)
  {
    var ws := Split(line, Space);
    assert Tokens(line) == ws by {
      assert forall i :: 0 <= i < |ws| ==> Tokens(line)[i] == ws[i];
    }
    SplitTokensAreWords(line, Space);
    SplitJoin(ws, ' ', Space);
    assert forall i :: 0 <= i < |ws| ==> Tokens(Join(ws, ' '))[i] == ws[i];
  }

  /**
   * With quoted words the round trip fails: `""` is one empty token that
   * vanishes when written back, and `"'x'"` loses a second pair of quotes.
   */
  lemma TokensRejoinDiffers()
    ensures Tokens("\"\"") == [""] && Tokens(Join([""], ' ')) == []
    ensures Tokens("\"'x'\"") == ["'x'"] && Tokens(Join(["'x'"], ' ')) == ["x"]
  {
    TokensOfWordThen("\"\"", []);
    assert "\"\"" + [] == "\"\"";
    assert StripQuotes("\"\"") == "";
    BlankLine(Join([""], ' '));
    TokensOfWordThen("\"'x'\"", []);
    assert "\"'x'\"" + [] == "\"'x'\"";
    assert StripQuotes("\"'x'\"") == "'x'";
    TokensOfWordThen("'x'", []);
    assert "'x'" + [] == "'x'";
    assert StripQuotes("'x'") == "x";
    BlankLine([]);
  }

  /** "exit" leaves the shell whatever follows it. */
  lemma ExitWithArguments(rest: string)
    requires rest == [] || rest[0] == ' '
    ensures LineAction("exit" + rest) == Exit
  {
    TokensOfWordThen("exit", rest);
  }

  /** Quotes are stripped before the comparison: "\"exit\"" also leaves the shell. */
  lemma QuotedExit()
    ensures LineAction("\"exit\"") == Exit
  {
    TokensOfWordThen("\"exit\"", []);
    assert "\"exit\"" + [] == "\"exit\"";
    StripQuotesOfQuoted("exit", '"');
    assert "\"exit\"" == ['"'] + "exit" + ['"'];
  }

  /** "cd" alone calls cd with the empty string. */
  lemma CdAlone()
    ensures LineAction("cd") == Cd("")
  {
    TokensOfWordThen("cd", []);
    assert "cd" + [] == "cd";
  }

  /** One-character words joined by single spaces: a line of 2n - 1 characters. */
  lemma {:induction false} JoinLetters(ws: seq<string>)
    requires |ws| > 0 && forall i :: 0 <= i < |ws| ==> |ws[i]| == 1
    ensures |Join(ws, ' ')| == 2 * |ws| - 1
  {
    if |ws| > 1 {
      JoinLetters(ws[1..]);
    }
  }

  /**
   * Ten one-character words other than a space, such as "a b c d e f g h i
   * j": the line fits the buffer, yet its ten tokens and the NULL need
   * eleven slots, one past the declared array.
   */
  lemma TenWordsOverflow(ws: seq<string>)
    requires |ws| == DeclaredTokenSlots
    requires forall i :: 0 <= i < |ws| ==> |ws[i]| == 1 && ws[i][0] != ' '
    ensures |Join(ws, ' ')| < LineLength
    ensures |Tokens(Join(ws, ' '))| + 1 == DeclaredTokenSlots + 1
  {
    JoinLetters(ws);
    SplitJoin(ws, ' ', Space);
  }

  /** Every line that fits the buffer has fewer tokens than TokenSlots, so its NULL fits too. */
  lemma LineFits(line: string)
    requires |line| < LineLength
    ensures |Tokens(line)| < TokenSlots
  {
    SplitCountBound(line, Space);
  }

  /** The slot events running a command causes, given the two forks' pids and what the wait saw. */
  function JobEvents(r: Result<Command, ParseError>, pid: int, pid2: int, wasStopped: bool): seq<Event>
  {
    match r
    case Err(_) => []
    case Ok(c) =>
      if c.second.Some? then [Spawned(pid), Spawned(pid2)]
      else if !c.background && wasStopped then [Spawned(pid), WaitSawStop(pid)]
      else [Spawned(pid)]
  }

  /**
   * A rejected command leaves the slots alone. Otherwise the last forked
   * process is the running one: the second stage of a pipeline, else the
   * only stage. Only a single foreground stage can become the stopped one;
   * a pipeline's waits do not look at the status.
   */
  lemma JobEffect(s: Slots, r: Result<Command, ParseError>, pid: int, pid2: int, wasStopped: bool)
    ensures var t := RunEvents(s, JobEvents(r, pid, pid2, wasStopped));
      && (r.Err? ==> t == s)
      && (r.Ok? && r.value.second.Some? ==> t == Slots(pid2, s.stopped))
      && (r.Ok? && r.value.second.None? && r.value.background ==> t == Slots(pid, s.stopped))
      && (r.Ok? && r.value.second.None? && !r.value.background ==>
            t == Slots(pid, if wasStopped then pid else s.stopped))
  {
    var es := JobEvents(r, pid, pid2, wasStopped);
    if r.Ok? {
      var s1 := Next(s, Spawned(pid));
      assert es[0] == Spawned(pid);
      if |es| == 2 {
        assert RunEvents(s, es) == RunEvents(Next(s1, es[1]), []) by {
          assert es[1..][1..] == [];
        }
      } else {
        assert RunEvents(s, es) == RunEvents(s1, []);
      }
    }
  }

  /**
   * run_process: classify the arguments and build both argument vectors,
   * then fork (the running slot takes the pid), fork again for a pipeline's
   * second stage, and for a single foreground stage wait and record a stop.
   */
  method RunProcess(path: string, executable: bool, argv: array<Option<string>>, jobs: JobSlots,
                    pid: int, pid2: int, wasStopped: bool)
    returns (r: Result<Command, ParseError>)
    requires None in argv[..]
    modifies argv, jobs
    ensures r == Classify(path, executable, old(Arguments(argv[..])))
    ensures var args := old(Arguments(argv[..]));
      argv[..] == if executable && |args| > 0 && args[|args| - 1] == "&"
                  then old(argv[..])[|args| - 1 := None] else old(argv[..])
    ensures jobs.State() == RunEvents(old(jobs.State()), JobEvents(r, pid, pid2, wasStopped))
  {
    var arguments, arguments2;
    r, arguments, arguments2 := RunProcessParse(path, executable, argv);
    ghost var s := jobs.State();
    if r.Err? {
      return;
    }
    JobEffect(s, r, pid, pid2, wasStopped);
    jobs.Spawn(pid);
    if r.value.second.Some? {
      jobs.Spawn(pid2);
    } else if !r.value.background {
      jobs.AfterForegroundWait(pid, wasStopped);
    }
  }

  /**
   * One pass of the main loop on a line read by fgets, with its newline
   * removed: tokenize it into the token array, then dispatch. The array
   * needs a slot for each token and one for the NULL: main's 10 slots serve
   * lines of up to 9 tokens, and TokenSlots serve every line that fits the
   * buffer (LineFits).
   */
  method HandleLine(line: string, tokens: array<Option<string>>, jobs: JobSlots,
                    executable: bool, pid: int, pid2: int, wasStopped: bool)
    returns (action: Action, r: Option<Result<Command, ParseError>>)
    requires |line| < LineLength && |Tokens(line)| < tokens.Length
    modifies tokens, jobs
    ensures forall m :: 0 <= m < |Tokens(line)| ==> m < tokens.Length && tokens[m] == Some(Tokens(line)[m])
    ensures |Tokens(line)| < tokens.Length && tokens[|Tokens(line)|] == None
    ensures forall m :: |Tokens(line)| < m < tokens.Length ==> tokens[m] == old(tokens[m])
    ensures action == LineAction(line)
    ensures action.Run? ==>
      && r == Some(Classify(action.path, executable, action.args))
      && jobs.State() == RunEvents(old(jobs.State()), JobEvents(r.value, pid, pid2, wasStopped))
    ensures !action.Run? ==> r == None && jobs.State() == old(jobs.State())
  {
    var n := Tokenize(line, Space, tokens);
    ghost var ts := Tokens(line);
    assert |ts| == n;
    assert forall m :: 0 <= m < n ==> tokens[m] == Some(ts[m]);
    r := None;
    if tokens[0] == None {
      action := Nothing;
      return;
    }
    var command := tokens[0].value;
    if command == "exit" {
      action := Exit;
    } else if command == "pwd" {
      action := Pwd;
    } else if command == "cd" {
      if n == 1 {
        action := Cd("");
      } else {
        action := Cd(tokens[1].value);
      }
    } else {
      var argv := new Option<string>[n](m reads tokens requires 0 <= m < n => tokens[m + 1]);
      ArgumentsOfSlots(argv[..], ts[1..]);
      var args := Arguments(argv[..]);
      var res := RunProcess(command, executable, argv, jobs, pid, pid2, wasStopped);
      r := Some(res);
      action := Run(command, args);
    }
  }
}
