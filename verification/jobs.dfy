/**
 * The job slots of dragonshell.c: the two globals running_process_pid and
 * stopped_process_pid, which fork, the SIGCHLD, SIGINT and SIGTSTP handlers,
 * the foreground wait and the exit routine read and write. Each handler is
 * one atomic step; when signals arrive is not modelled.
 *
 * Slots is the pair as a value and Next the effect of one event on it;
 * JobSlots holds the two fields the source mutates, with one method per
 * event, each proved to take the step Next describes.
 */
module Jobs {
  /** The two slots; a negative value (the source uses -1) means no process. */
  datatype Slots = Slots(running: int, stopped: int)

  /** Both slots empty, as the shell starts. */
  const Idle := Slots(-1, -1)

  /** What the prompt handlers print when no foreground process is running. */
  const PromptText := "\ndragonshell > "

  /** What they print when one is. */
  const NewlineText := "\n"

  datatype Event =
    | Spawned(pid: int)     // fork returned pid in the parent: it becomes the running process
    | ChildChanged          // SIGCHLD
    | Interrupt             // SIGINT (Ctrl+C)
    | TerminalStop          // SIGTSTP (Ctrl+Z)
    | WaitSawStop(pid: int) // the foreground wait found pid stopped

  /** The effect of one event on the slots. */
  function Next(s: Slots, e: Event): Slots
  {
    match e
    case Spawned(pid) => s.(running := pid)
    case ChildChanged => s.(running := -1)
    case Interrupt => if s.running < 0 then s else s.(running := -1)
    case TerminalStop => if s.running < 0 then s else s.(running := -1)
    case WaitSawStop(pid) => s.(stopped := pid)
  }

  /** The effect of a sequence of events, in order. */
  function RunEvents(s: Slots, es: seq<Event>): Slots
    decreases |es|
  {
    if es == [] then s else RunEvents(Next(s, es[0]), es[1..])
  }

  /** What the SIGINT and SIGTSTP handlers print: a fresh prompt when nothing runs, else a newline. */
  function SignalEcho(s: Slots): string
  {
    if s.running < 0 then PromptText else NewlineText
  }

  /** The processes the exit routine sends SIGTERM to, in order: the running one, then the stopped one. */
  function SigtermTargets(s: Slots): seq<int>
  {
    (if s.running > 0 then [s.running] else []) + (if s.stopped > 0 then [s.stopped] else [])
  }

  /** A pid is killed on exit exactly when it is positive and in one of the slots; the running one goes first. */
  lemma SigtermTargetsExact(s: Slots)
    ensures forall x :: x in SigtermTargets(s) <==> x > 0 && (x == s.running || x == s.stopped)
    ensures |SigtermTargets(s)| <= 2
    ensures s.running > 0 ==> SigtermTargets(s)[0] == s.running
    ensures SigtermTargets(Idle) == []
  {
  }

  /**
   * Ctrl+C and Ctrl+Z clear the running slot only when it holds a process,
   * never touch the stopped slot, and change nothing at the prompt; a
   * second one in a row changes nothing more.
   */
  lemma PromptSignalsProps(s: Slots, e: Event)
    requires e == Interrupt || e == TerminalStop
    ensures Next(s, e).stopped == s.stopped
    ensures Next(s, e).running < 0
    ensures s.running < 0 <==> Next(s, e) == s
    ensures Next(Next(s, e), e) == Next(s, e)
    ensures Next(s, e) == Next(s, if e == Interrupt then TerminalStop else Interrupt)
  {
  }

  /** Only the foreground wait writes the stopped slot; SIGCHLD always empties the running slot. */
  lemma StoppedOnlyByWait(s: Slots, e: Event)
    ensures !e.WaitSawStop? ==> Next(s, e).stopped == s.stopped
    ensures e.WaitSawStop? ==> Next(s, e) == Slots(s.running, e.pid)
    ensures e == ChildChanged ==> Next(s, e).running == -1
    ensures e.Spawned? ==> Next(s, e) == Slots(e.pid, s.stopped)
  {
  }

  lemma {:induction false} RunEventsAppend(s: Slots, a: seq<Event>, b: seq<Event>)
    ensures RunEvents(s, a + b) == RunEvents(RunEvents(s, a), b)
    decreases |a|
  {
    if a == [] {
      assert a + b == b;
    } else {
      assert (a + b)[1..] == a[1..] + b;
      RunEventsAppend(Next(s, a[0]), a[1..], b);
    }
  }

  /** The pids the events put into a slot: those fork returned and those the wait saw stopped. */
  predicate Recorded(es: seq<Event>, x: int)
  {
    exists i :: 0 <= i < |es| && (es[i] == Spawned(x) || es[i] == WaitSawStop(x))
  }

  /**
   * Each slot holds either what it held before the events or a pid one of
   * the events recorded.
   */
  lemma {:induction false} SlotsComeFromEvents(s: Slots, es: seq<Event>)
    ensures var t := RunEvents(s, es);
      && (t.running == s.running || t.running == -1 || Recorded(es, t.running))
      && (t.stopped == s.stopped || Recorded(es, t.stopped))
    decreases |es|
  {
    if es != [] {
      var s1 := Next(s, es[0]);
      var t := RunEvents(s, es);
      SlotsComeFromEvents(s1, es[1..]);
      forall x | Recorded(es[1..], x)
        ensures Recorded(es, x)
      {
        var i :| 0 <= i < |es[1..]| && (es[1..][i] == Spawned(x) || es[1..][i] == WaitSawStop(x));
        assert es[i + 1] == es[1..][i];
      }
      if es[0].Spawned? || es[0].WaitSawStop? {
        assert Recorded(es, es[0].pid) by {
          assert es[0] == Spawned(es[0].pid) || es[0] == WaitSawStop(es[0].pid);
        }
      }
    }
  }

  /**
   * From the idle start, the exit routine kills only processes the shell
   * forked or saw stopped: never -1 (every process) or 0 (its own group).
   */
  lemma ExitKillsOnlyRecorded(es: seq<Event>)
    ensures forall x :: x in SigtermTargets(RunEvents(Idle, es)) ==> x > 0 && Recorded(es, x)
  {
    var t := RunEvents(Idle, es);
    SlotsComeFromEvents(Idle, es);
    SigtermTargetsExact(t);
  }

  /** The stopped slot holds the pid of the last stop the wait saw, if there was one. */
  lemma {:induction false} StoppedIsLastStop(s: Slots, es: seq<Event>, i: nat)
    requires i < |es| && es[i].WaitSawStop?
    requires forall m :: i < m < |es| ==> !es[m].WaitSawStop?
    ensures RunEvents(s, es).stopped == es[i].pid
  {
    RunEventsAppend(s, es[..i + 1], es[i + 1..]);
    assert es[..i + 1] + es[i + 1..] == es;
    RunEventsAppend(s, es[..i], [es[i]]);
    assert es[..i] + [es[i]] == es[..i + 1];
    var u := RunEvents(s, es[..i + 1]);
    assert u.stopped == es[i].pid by {
      assert RunEvents(RunEvents(s, es[..i]), [es[i]]) == Next(RunEvents(s, es[..i]), es[i]) by {
        assert [es[i]][1..] == [];
      }
    }
    StoppedKept(u, es[i + 1..]);
  }

  /** Events other than a stop seen by the wait leave the stopped slot alone. */
  lemma {:induction false} StoppedKept(s: Slots, es: seq<Event>)
    requires forall m :: 0 <= m < |es| ==> !es[m].WaitSawStop?
    ensures RunEvents(s, es).stopped == s.stopped
    decreases |es|
  {
    if es != [] {
      StoppedKept(Next(s, es[0]), es[1..]);
    }
  }

  /** The two globals, updated in place by the handlers and the spawn path. */
  class JobSlots {
    var running: int
    var stopped: int

    /** The slots as a value. */
    function State(): Slots
      reads this
    {
      Slots(running, stopped)
    }

    /** Both globals start at -1. */
    constructor()
      ensures State() == Idle
    {
      running := -1;
      stopped := -1;
    }

    /** fork returned pid in the parent: running_process_pid = pid. */
    method Spawn(pid: int)
      modifies this
      ensures State() == Next(old(State()), Spawned(pid))
    {
      running := pid;
    }

    /** handle_sigchld: reaps one child without blocking and empties the running slot unconditionally. */
    method HandleSigchld()
      modifies this
      ensures State() == Next(old(State()), ChildChanged)
    {
      running := -1;
    }

    /** handle_sigint: prints a fresh prompt at the prompt, else a newline and forgets the running process. */
    method HandleSigint() returns (echo: string)
      modifies this
      ensures echo == SignalEcho(old(State()))
      ensures State() == Next(old(State()), Interrupt)
    {
      if running < 0 {
        echo := PromptText;
      } else {
        echo := NewlineText;
        running := -1;
      }
    }

    /** handle_sigtstp: the same decisions as handle_sigint. */
    method HandleSigtstp() returns (echo: string)
      modifies this
      ensures echo == SignalEcho(old(State()))
      ensures State() == Next(old(State()), TerminalStop)
    {
      if running < 0 {
        echo := PromptText;
      } else {
        echo := NewlineText;
        running := -1;
      }
    }

    /** The foreground wait: when the status says the child stopped, it becomes the stopped process. */
    method AfterForegroundWait(pid: int, wasStopped: bool)
      modifies this
      ensures State() == if wasStopped then Next(old(State()), WaitSawStop(pid)) else old(State())
    {
      if wasStopped {
        stopped := pid;
      }
    }

    /** exit_dragonshell: the pids to send SIGTERM to, the running one first. */
    method ExitTargets() returns (targets: seq<int>)
      ensures targets == SigtermTargets(State())
      ensures forall x :: x in targets <==> x > 0 && (x == running || x == stopped)
      ensures running > 0 ==> |targets| >= 1 && targets[0] == running
      ensures |targets| <= 2
    {
      targets := [];
      if running > 0 {
        targets := targets + [running];
      }
      if stopped > 0 {
        targets := targets + [stopped];
      }
    }
  }
}
