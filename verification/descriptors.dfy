/**
 * The descriptor plan of run_process (dragonshell.c): which open file
 * descriptions end up on each stage's standard input and output. The
 * system calls are modelled as steps on a descriptor table; each process's
 * sequence of open, dup2, close and pipe calls is written out as the source
 * issues them, and lemmas state what stdin and stdout are once it has run.
 *
 * Descriptors 0, 1 and 2 are what the shell itself inherited; the shell is
 * assumed to hold no other descriptor when a command starts.
 */
module Descriptors {
  import opened Wrappers
  import opened CommandModel

  /** The permission bits open is given for an output file: octal 0644. */
  const OutputPerm: nat := 420

  datatype OpenMode =
    | ReadOnly                       // O_RDONLY
    | WriteCreateTruncate(perm: nat) // O_WRONLY | O_CREAT | O_TRUNC with the given permission bits

  /** What a descriptor refers to. */
  datatype Source =
    | Inherited(fd: nat)            // the shell's own descriptor fd
    | File(path: string, mode: OpenMode)
    | PipeRead                      // the read end of the command's pipe
    | PipeWrite                     // its write end

  /** A descriptor table: entry n is what descriptor n refers to, None when it is closed. */
  type FdTable = seq<Option<Source>>

  /** Descriptor n of the table; past its end every descriptor is closed. */
  function Get(fds: FdTable, n: nat): Option<Source>
  {
    if n < |fds| then fds[n] else None
  }

  /** The table with descriptor n set to v. */
  function Set(fds: FdTable, n: nat, v: Option<Source>): (r: FdTable)
    ensures forall m :: Get(r, m) == if m == n then v else Get(fds, m)
  {
    if n < |fds| then fds[n := v]
    else fds + seq(n - |fds|, _ => None) + [v]
  }

  /** The lowest closed descriptor from i on. */
  function LowestFreeFrom(fds: FdTable, i: nat): (n: nat)
    ensures i <= n && Get(fds, n).None?
    ensures forall m :: i <= m < n ==> Get(fds, m).Some?
    decreases |fds| - i
  {
    if i >= |fds| || fds[i].None? then i else LowestFreeFrom(fds, i + 1)
  }

  /** The lowest closed descriptor: the one open and pipe return. */
  function LowestFree(fds: FdTable): nat
  {
    LowestFreeFrom(fds, 0)
  }

  /** A process's table, with the descriptors returned by its last open and by pipe. */
  datatype Proc = Proc(fds: FdTable, lastOpen: nat, pipeRead: nat, pipeWrite: nat)

  /** How a call names a descriptor: a number, the last open's result, or pipefd[0] / pipefd[1]. */
  datatype FdRef = Fd(n: nat) | Opened | PipeReadEnd | PipeWriteEnd

  datatype FdOp =
    | Open(path: string, mode: OpenMode)
    | MakePipe
    | Dup2(from: FdRef, to: nat)
    | Close(ref: FdRef)

  function Resolve(p: Proc, r: FdRef): nat
  {
    match r
    case Fd(n) => n
    case Opened => p.lastOpen
    case PipeReadEnd => p.pipeRead
    case PipeWriteEnd => p.pipeWrite
  }

  /**
   * One call: open and pipe take the lowest free descriptors; dup2 makes
   * `to` refer to what `from` refers to, and does nothing when `from` is
   * closed or equal to `to`; close closes.
   */
  function Step(p: Proc, op: FdOp): Proc
  {
    match op
    case Open(path, mode) =>
      var fd := LowestFree(p.fds);
      p.(fds := Set(p.fds, fd, Some(File(path, mode))), lastOpen := fd)
    case MakePipe =>
      var r := LowestFree(p.fds);
      var withRead := Set(p.fds, r, Some(PipeRead));
      var w := LowestFree(withRead);
      p.(fds := Set(withRead, w, Some(PipeWrite)), pipeRead := r, pipeWrite := w)
    case Dup2(from, to) =>
      var f := Resolve(p, from);
      if Get(p.fds, f).None? || f == to then p
      else p.(fds := Set(p.fds, to, Get(p.fds, f)))
    case Close(r) =>
      p.(fds := Set(p.fds, Resolve(p, r), None))
  }

  function Run(p: Proc, ops: seq<FdOp>): Proc
    decreases |ops|
  {
    if ops == [] then p else Run(Step(p, ops[0]), ops[1..])
  }

  lemma {:induction false} RunAppend(p: Proc, a: seq<FdOp>, b: seq<FdOp>)
    ensures Run(p, a + b) == Run(Run(p, a), b)
    decreases |a|
  {
    if a != [] {
      assert (a + b)[1..] == a[1..] + b;
      RunAppend(Step(p, a[0]), a[1..], b);
    } else {
      assert a + b == b;
    }
  }

  lemma Run2(p: Proc, x: FdOp, y: FdOp)
    ensures Run(p, [x, y]) == Step(Step(p, x), y)
  {
    var p1 := Step(p, x);
    var p2 := Step(p1, y);
    assert [x, y][1..] == [y];
    assert [y][1..] == [];
    assert Run(p2, []) == p2;
    assert Run(p1, [y]) == Run(p2, []);
  }

  lemma Run3(p: Proc, x: FdOp, y: FdOp, z: FdOp)
    ensures Run(p, [x, y, z]) == Step(Step(Step(p, x), y), z)
  {
    assert [x, y, z][1..] == [y, z];
    Run2(Step(p, x), y, z);
  }

  /** The shell's table when a command starts: its own stdin, stdout and stderr. */
  const ShellTable := Proc([Some(Inherited(0)), Some(Inherited(1)), Some(Inherited(2))], 0, 0, 0)

  /** The shell just before fork: with the pipe created when the command has a second stage. */
  function BeforeFork(c: Command): Proc
  {
    Run(ShellTable, if c.second.Some? then [MakePipe] else [])
  }

  /** Open a file, duplicate it onto `to`, close the original: one redirect. */
  function RedirectOps(path: string, mode: OpenMode, to: nat): seq<FdOp>
  {
    [Open(path, mode), Dup2(Opened, to), Close(Opened)]
  }

  /** The first child's calls, in the source's order: input file, output file, then the pipe. */
  function Stage1Ops(c: Command): seq<FdOp>
  {
    (if c.input.Some? then RedirectOps(c.input.value, ReadOnly, 0) else [])
    + (if c.output.Some? then RedirectOps(c.output.value, WriteCreateTruncate(OutputPerm), 1) else [])
    + (if c.second.Some? then [Close(PipeReadEnd), Dup2(PipeWriteEnd, 1), Close(PipeWriteEnd)] else [])
  }

  /** The second child's calls: the pipe's read end becomes stdin. */
  const Stage2Ops := [Close(PipeWriteEnd), Dup2(PipeReadEnd, 0), Close(PipeReadEnd)]

  /** The shell's calls after the second fork: it closes both pipe ends. */
  const ParentCloseOps := [Close(PipeReadEnd), Close(PipeWriteEnd)]

  /** Stage 1 reads the input file if one is given, else the shell's stdin. */
  function Stage1Stdin(c: Command): Source
  {
    if c.input.Some? then File(c.input.value, ReadOnly) else Inherited(0)
  }

  /**
   * Stage 1 writes to the pipe when there is a second stage, else to the
   * output file if one is given, else to the shell's stdout: the pipe's
   * dup2 is issued last, so it overrides an output file.
   */
  function Stage1Stdout(c: Command): Source
  {
    if c.second.Some? then PipeWrite
    else if c.output.Some? then File(c.output.value, WriteCreateTruncate(OutputPerm))
    else Inherited(1)
  }

  /** A redirect sets descriptor `to` and leaves every other descriptor, and the pipe ends, as they were. */
  lemma RedirectEffect(p: Proc, path: string, mode: OpenMode, to: nat)
    requires Get(p.fds, to).Some?
    ensures var q := Run(p, RedirectOps(path, mode, to));
      && q.pipeRead == p.pipeRead && q.pipeWrite == p.pipeWrite
      && forall n :: Get(q.fds, n) == if n == to then Some(File(path, mode)) else Get(p.fds, n)
  {
    var fd := LowestFree(p.fds);
    var p1 := Step(p, Open(path, mode));
    var p2 := Step(p1, Dup2(Opened, to));
    var p3 := Step(p2, Close(Opened));
    assert fd != to;
    assert Get(p1.fds, fd) == Some(File(path, mode));
    Run3(p, Open(path, mode), Dup2(Opened, to), Close(Opened));
  }

  /** The shell before fork: descriptors 0..2 inherited and, with a pipe, its ends at 3 and 4. */
  lemma BeforeForkTable(c: Command)
    ensures var p := BeforeFork(c);
      && (forall n :: 0 <= n < 3 ==> Get(p.fds, n) == Some(Inherited(n)))
      && (c.second.Some? ==>
            && p.pipeRead == 3 && p.pipeWrite == 4
            && Get(p.fds, 3) == Some(PipeRead) && Get(p.fds, 4) == Some(PipeWrite)
            && forall n :: n > 4 ==> Get(p.fds, n).None?)
      && (c.second.None? ==> forall n :: n >= 3 ==> Get(p.fds, n).None?)
  {
    if c.second.Some? {
      var fds := ShellTable.fds;
      assert Get(fds, 3).None?;
      assert LowestFree(fds) == 3;
      var withRead := Set(fds, 3, Some(PipeRead));
      assert Get(withRead, 4).None?;
      assert LowestFree(withRead) == 4;
      assert [MakePipe][1..] == [];
    }
  }

  /** The first child's redirects: stdin from the input file, stdout to the output file, nothing else touched. */
  lemma Stage1RedirectsEffect(c: Command, p: Proc)
    requires Get(p.fds, 0).Some? && Get(p.fds, 1).Some?
    ensures var q := Run(p, (if c.input.Some? then RedirectOps(c.input.value, ReadOnly, 0) else [])
      + (if c.output.Some? then RedirectOps(c.output.value, WriteCreateTruncate(OutputPerm), 1) else []));
      && q.pipeRead == p.pipeRead && q.pipeWrite == p.pipeWrite
      && Get(q.fds, 0) == (if c.input.Some? then Some(File(c.input.value, ReadOnly)) else Get(p.fds, 0))
      && Get(q.fds, 1) == (if c.output.Some? then Some(File(c.output.value, WriteCreateTruncate(OutputPerm))) else Get(p.fds, 1))
      && forall n :: n != 0 && n != 1 ==> Get(q.fds, n) == Get(p.fds, n)
  {
    var a := if c.input.Some? then RedirectOps(c.input.value, ReadOnly, 0) else [];
    var b := if c.output.Some? then RedirectOps(c.output.value, WriteCreateTruncate(OutputPerm), 1) else [];
    RunAppend(p, a, b);
    var p1 := Run(p, a);
    if c.input.Some? {
      RedirectEffect(p, c.input.value, ReadOnly, 0);
    }
    if c.output.Some? {
      RedirectEffect(p1, c.output.value, WriteCreateTruncate(OutputPerm), 1);
    }
  }

  /** The first child's pipe calls: stdout becomes the write end, and both original pipe descriptors are closed. */
  lemma Stage1PipeEffect(p: Proc)
    requires p.pipeRead != p.pipeWrite && p.pipeRead > 1 && p.pipeWrite > 1
    requires Get(p.fds, p.pipeWrite) == Some(PipeWrite)
    ensures var q := Run(p, [Close(PipeReadEnd), Dup2(PipeWriteEnd, 1), Close(PipeWriteEnd)]);
      && Get(q.fds, 1) == Some(PipeWrite)
      && Get(q.fds, p.pipeRead).None? && Get(q.fds, p.pipeWrite).None?
      && forall n :: n != 1 && n != p.pipeRead && n != p.pipeWrite ==> Get(q.fds, n) == Get(p.fds, n)
  {
    var s1 := Step(p, Close(PipeReadEnd));
    var s2 := Step(s1, Dup2(PipeWriteEnd, 1));
    assert Get(s1.fds, p.pipeWrite) == Some(PipeWrite);
    assert Get(s2.fds, 1) == Some(PipeWrite);
    Run3(p, Close(PipeReadEnd), Dup2(PipeWriteEnd, 1), Close(PipeWriteEnd));
  }

  /**
   * What the first child's descriptors are just before execve: stdin and
   * stdout as Stage1Stdin and Stage1Stdout decide, stderr inherited, and no
   * other descriptor open (both pipe ends and both files are closed).
   */
  lemma Stage1Wiring(c: Command)
    ensures var q := Run(BeforeFork(c), Stage1Ops(c));
      && Get(q.fds, 0) == Some(Stage1Stdin(c))
      && Get(q.fds, 1) == Some(Stage1Stdout(c))
      && Get(q.fds, 2) == Some(Inherited(2))
      && forall n :: n >= 3 ==> Get(q.fds, n).None?
  {
    var p0 := BeforeFork(c);
    BeforeForkTable(c);
    var a := if c.input.Some? then RedirectOps(c.input.value, ReadOnly, 0) else [];
    var b := if c.output.Some? then RedirectOps(c.output.value, WriteCreateTruncate(OutputPerm), 1) else [];
    var d := if c.second.Some? then [Close(PipeReadEnd), Dup2(PipeWriteEnd, 1), Close(PipeWriteEnd)] else [];
    assert Stage1Ops(c) == a + b + d;
    RunAppend(p0, a + b, d);
    Stage1RedirectsEffect(c, p0);
    var p2 := Run(p0, a + b);
    if c.second.Some? {
      assert p2.pipeRead == 3 && p2.pipeWrite == 4;
      assert Get(p2.fds, 4) == Some(PipeWrite);
      Stage1PipeEffect(p2);
      var q := Run(p2, d);
      assert Get(q.fds, 0) == Get(p2.fds, 0);
      assert Get(q.fds, 2) == Get(p2.fds, 2);
      forall n | n > 4
        ensures Get(q.fds, n).None?
      {
        assert Get(q.fds, n) == Get(p2.fds, n) == Get(p0.fds, n);
      }
    } else {
      assert Run(p2, d) == p2;
      assert forall n :: n >= 3 ==> Get(p2.fds, n) == Get(p0.fds, n);
    }
  }

  /**
   * The second child's descriptors just before execve: stdin is the pipe's
   * read end, stdout and stderr are the shell's (no file redirect applies to
   * stage 2), and no other descriptor is open.
   */
  lemma Stage2Wiring(c: Command)
    requires c.second.Some?
    ensures var q := Run(BeforeFork(c), Stage2Ops);
      && Get(q.fds, 0) == Some(PipeRead)
      && Get(q.fds, 1) == Some(Inherited(1))
      && Get(q.fds, 2) == Some(Inherited(2))
      && forall n :: n >= 3 ==> Get(q.fds, n).None?
  {
    var p := BeforeFork(c);
    BeforeForkTable(c);
    var s1 := Step(p, Close(PipeWriteEnd));
    var s2 := Step(s1, Dup2(PipeReadEnd, 0));
    var s3 := Step(s2, Close(PipeReadEnd));
    assert Get(s1.fds, 3) == Some(PipeRead);
    Run3(p, Close(PipeWriteEnd), Dup2(PipeReadEnd, 0), Close(PipeReadEnd));
  }

  /** After the second fork the shell closes both pipe ends: its table is as it was before the command. */
  lemma ParentClosesPipe(c: Command)
    requires c.second.Some?
    ensures var q := Run(BeforeFork(c), ParentCloseOps);
      forall n :: Get(q.fds, n) == Get(ShellTable.fds, n)
  {
    var p := BeforeFork(c);
    BeforeForkTable(c);
    var s1 := Step(p, Close(PipeReadEnd));
    var s2 := Step(s1, Close(PipeWriteEnd));
    Run2(p, Close(PipeReadEnd), Close(PipeWriteEnd));
  }
}
