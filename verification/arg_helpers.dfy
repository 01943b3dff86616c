/**
 * The helpers of dragonshell.c that read NULL-terminated argument arrays
 * (get_length, is_pipe) and path strings (extract_program_name).
 *
 * An argument array is an array<Option<string>> in which None is NULL; the
 * source only ever passes arrays that hold a NULL somewhere.
 */
module ArgHelpers {
  import opened Wrappers

  /** The strings before the first NULL: the arguments the array holds. */
  function Arguments(a: seq<Option<string>>): (r: seq<string>)
    ensures |r| <= |a|
    ensures forall i :: 0 <= i < |r| ==> a[i] == Some(r[i])
    ensures |r| < |a| ==> a[|r|] == None
  {
    if a == [] || a[0] == None then [] else [a[0].value] + Arguments(a[1..])
  }

  /** The C view of an argument list: its strings followed by the NULL sentinel. */
  function NullTerminated(args: seq<string>): (a: seq<Option<string>>)
    ensures |a| == |args| + 1 && a[|args|] == None
    ensures forall i :: 0 <= i < |args| ==> a[i] == Some(args[i])
  {
    if args == [] then [None] else [Some(args[0])] + NullTerminated(args[1..])
  }

  /** The strings of a NULL-terminated list are read back exactly. */
  lemma {:induction false} ArgumentsOfNullTerminated(args: seq<string>, rest: seq<Option<string>>)
    ensures Arguments(NullTerminated(args) + rest) == args
  {
    if args != [] {
      assert (NullTerminated(args) + rest)[1..] == NullTerminated(args[1..]) + rest;
      ArgumentsOfNullTerminated(args[1..], rest);
    }
  }

  /** An array whose first entries are a NULL-terminated list holds exactly that list. */
  lemma ArgumentsOfPrefix(a: seq<Option<string>>, xs: seq<string>)
    requires |xs| < |a| && a[..|xs| + 1] == NullTerminated(xs)
    ensures Arguments(a) == xs
  {
    var r := Arguments(a);
    assert forall i :: 0 <= i <= |xs| ==> a[i] == NullTerminated(xs)[i];
    assert |r| == |xs|;
  }

  /** An array whose first |xs| entries hold xs, followed by a NULL, holds exactly xs. */
  lemma ArgumentsOfSlots(a: seq<Option<string>>, xs: seq<string>)
    requires |xs| < |a| && a[|xs|] == None
    requires forall m :: 0 <= m < |xs| ==> a[m] == Some(xs[m])
    ensures a[..|xs| + 1] == NullTerminated(xs)
    ensures Arguments(a) == xs
  {
    assert a[..|xs| + 1] == NullTerminated(xs);
    ArgumentsOfPrefix(a, xs);
  }

  /** Overwriting the entry at n with NULL cuts the list after n strings. */
  lemma ArgumentsTruncate(a: seq<Option<string>>, n: nat)
    requires n < |Arguments(a)|
    ensures Arguments(a[n := None]) == Arguments(a)[..n]
  {
    var xs := Arguments(a)[..n];
    var b := a[n := None];
    assert b[..n + 1] == NullTerminated(xs);
    ArgumentsOfPrefix(b, xs);
  }

  /**
   * get_length: counts entries up to the first NULL, which it returns the
   * index of.
   */
  method GetLength(argv: array<Option<string>>) returns (count: nat)
    requires None in argv[..]
    ensures count < argv.Length && argv[count] == None
    ensures forall i :: 0 <= i < count ==> argv[i] != None
    ensures count == |Arguments(argv[..])|
  {
    count := 0;
    while argv[count] != None
      invariant count < argv.Length
      invariant forall i :: 0 <= i < count ==> argv[i] != None
      invariant None in argv[count..]
      decreases argv.Length - count
    {
      assert argv[count..] == [argv[count]] + argv[count + 1..];
      count := count + 1;
    }
  }

  /** is_pipe: 1 when some argument before the NULL is exactly "|", else 0. */
  method IsPipe(tokens: array<Option<string>>) returns (r: int)
    requires None in tokens[..]
    ensures r == 1 <==> "|" in Arguments(tokens[..])
    ensures r == 0 <==> "|" !in Arguments(tokens[..])
  {
    ghost var args := Arguments(tokens[..]);
    var i := 0;
    while tokens[i] != None
      invariant i <= |args|
      invariant "|" !in args[..i]
      decreases |args| - i
    {
      if tokens[i] == Some("|") {
        assert args[i] == "|";
        return 1;
      }
      assert args[..i + 1] == args[..i] + [args[i]];
      i := i + 1;
    }
    assert i == |args|;
    assert args[..i] == args;
    return 0;
  }

  /** extract_program_name: the part of the path after its last '/', or the whole path when it has none. */
  function ExtractProgramName(path: string): string
  {
    if path == [] then []
    else if path[|path| - 1] == '/' then []
    else ExtractProgramName(path[..|path| - 1]) + [path[|path| - 1]]
  }

  /**
   * The program name is a suffix of the path with no '/' in it, and the
   * character before it, if any, is the path's last '/'.
   */
  lemma {:induction false} ProgramNameIsLastComponent(path: string)
    ensures var r := ExtractProgramName(path);
      && |r| <= |path| && r == path[|path| - |r|..]
      && (forall i :: 0 <= i < |r| ==> r[i] != '/')
      && (|r| < |path| ==> path[|path| - |r| - 1] == '/')
  {
    if path != [] && path[|path| - 1] != '/' {
      var init := path[..|path| - 1];
      ProgramNameIsLastComponent(init);
      var r0 := ExtractProgramName(init);
      var r := r0 + [path[|path| - 1]];
      assert path == init + [path[|path| - 1]];
      assert init[|init| - |r0|..] + [path[|path| - 1]] == path[|path| - |r|..];
      assert forall i :: 0 <= i < |r0| ==> r[i] == r0[i];
      if |r| < |path| {
        assert path[|path| - |r| - 1] == init[|init| - |r0| - 1];
      }
    }
  }

  /** A path with no '/' is its own program name. */
  lemma ProgramNameOfPlainName(path: string)
    requires forall i :: 0 <= i < |path| ==> path[i] != '/'
    ensures ExtractProgramName(path) == path
  {
  }

  /** Whatever directory part precedes the last '/', the program name is what follows it. */
  lemma {:induction false} ProgramNameAfterLastSlash(dir: string, name: string)
    requires forall i :: 0 <= i < |name| ==> name[i] != '/'
    ensures ExtractProgramName(dir + "/" + name) == name
  {
    var path := dir + "/" + name;
    if name != [] {
      var init := name[..|name| - 1];
      assert path[..|path| - 1] == dir + "/" + init;
      ProgramNameAfterLastSlash(dir, init);
      assert init + [name[|name| - 1]] == name;
    }
  }
}
