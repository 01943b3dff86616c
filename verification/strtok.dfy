/**
 * The C library's strtok, which both tokenizers of the shell drive in a
 * loop, and what that loop yields: the maximal runs of non-delimiter
 * characters of the line, from left to right.
 *
 * The C string `delim` is modelled as the set of its characters: a
 * character is a delimiter when it occurs in `delim`.
 */
module CStrtok {
  import opened Wrappers

  /** strspn: the length of the leading run of delimiter characters. */
  function SpanDelims(s: string, delim: set<char>): (n: nat)
    ensures n <= |s|
    ensures forall i :: 0 <= i < n ==> s[i] in delim
    ensures n < |s| ==> s[n] !in delim
  {
    if s == [] || s[0] !in delim then 0 else 1 + SpanDelims(s[1..], delim)
  }

  /** strcspn: the length of the leading run of non-delimiter characters. */
  function SpanToken(s: string, delim: set<char>): (n: nat)
    ensures n <= |s|
    ensures forall i :: 0 <= i < n ==> s[i] !in delim
    ensures n < |s| ==> s[n] in delim
  {
    if s == [] || s[0] in delim then 0 else 1 + SpanToken(s[1..], delim)
  }

  /** The maximal delimiter-free runs of `s`, left to right. */
  function Split(s: string, delim: set<char>): seq<string>
    decreases |s|
  {
    if s == [] then []
    else if s[0] in delim then Split(s[1..], delim)
    else
      var n := SpanToken(s, delim);
      [s[..n]] + Split(s[n..], delim)
  }

  /**
   * One strtok call, resumed at `pos`: the bounds of the token it returns,
   * and where the next call resumes. strtok overwrites the delimiter that
   * ends the token with NUL and resumes just past it; a token that runs to
   * the end of the string leaves the scan at the end.
   */
  datatype Token = Token(start: nat, end: nat, resume: nat)

  /** strtok: None stands for the NULL it returns once only delimiters remain. */
  function Strtok(s: string, delim: set<char>, pos: nat): (r: Option<Token>)
    requires pos <= |s|
    ensures r.Some? ==> pos <= r.value.start < r.value.end <= r.value.resume <= |s|
    ensures r.Some? ==> forall i :: r.value.start <= i < r.value.end ==> s[i] !in delim
    ensures r.None? <==> forall i :: pos <= i < |s| ==> s[i] in delim
  {
    var start := pos + SpanDelims(s[pos..], delim);
    if start == |s| then None
    else
      var end := start + SpanToken(s[start..], delim);
      Some(Token(start, end, if end < |s| then end + 1 else end))
  }

  /** Leading delimiters contribute nothing to the split. */
  lemma {:induction false} SplitSkipsDelims(s: string, delim: set<char>)
    ensures Split(s, delim) == Split(s[SpanDelims(s, delim)..], delim)
  {
    if s != [] && s[0] in delim {
      SplitSkipsDelims(s[1..], delim);
      assert s[1..][SpanDelims(s[1..], delim)..] == s[SpanDelims(s, delim)..];
    }
  }

  /** A delimiter at the front of the string contributes nothing to the split. */
  lemma SplitDropDelim(s: string, delim: set<char>)
    requires s != [] && s[0] in delim
    ensures Split(s, delim) == Split(s[1..], delim)
  {
  }

  /** A string that opens with a token splits into that token and the split of what follows its delimiter. */
  lemma {:induction false} SplitFirstToken(v: string, delim: set<char>)
    requires v != [] && v[0] !in delim
    ensures var n := SpanToken(v, delim);
      Split(v, delim) == [v[..n]] + (if n < |v| then Split(v[n + 1..], delim) else [])
  {
    var n := SpanToken(v, delim);
    if n < |v| {
      assert v[n..][1..] == v[n + 1..];
      SplitDropDelim(v[n..], delim);
    } else {
      assert v[n..] == [];
    }
  }

  lemma SplitFromSkip(s: string, delim: set<char>, pos: nat)
    requires pos <= |s|
    ensures Split(s[pos..], delim) == Split(s[pos + SpanDelims(s[pos..], delim)..], delim)
  {
    var u := s[pos..];
    SplitSkipsDelims(u, delim);
    assert u[SpanDelims(u, delim)..] == s[pos + SpanDelims(u, delim)..];
  }

  lemma SplitFromToken(s: string, delim: set<char>, start: nat)
    requires start < |s| && s[start] !in delim
    ensures var e := start + SpanToken(s[start..], delim);
      Split(s[start..], delim) == [s[start..e]] + (if e < |s| then Split(s[e + 1..], delim) else [])
  {
    var v := s[start..];
    SplitFirstToken(v, delim);
    var n := SpanToken(v, delim);
    var e := start + n;
    assert v[..n] == s[start..e];
    if n < |v| {
      assert v[n + 1..] == s[e + 1..];
      assert Split(v, delim) == [s[start..e]] + Split(s[e + 1..], delim);
    } else {
      assert Split(v, delim) == [s[start..e]];
    }
  }

  /** A strtok call yields exactly the first remaining token of the split, and resuming yields the rest. */
  lemma {:induction false} StrtokSplit(s: string, delim: set<char>, pos: nat)
    requires pos <= |s|
    ensures Strtok(s, delim, pos).None? ==> Split(s[pos..], delim) == []
    ensures Strtok(s, delim, pos).Some? ==>
      var t := Strtok(s, delim, pos).value;
      Split(s[pos..], delim) == [s[t.start..t.end]] + Split(s[t.resume..], delim)
  {
    SplitFromSkip(s, delim, pos);
    var start := pos + SpanDelims(s[pos..], delim);
    if start == |s| {
      assert s[start..] == [];
    } else {
      SplitFromToken(s, delim, start);
      var e := start + SpanToken(s[start..], delim);
      if e == |s| {
        assert s[e..] == [];
      }
    }
  }

  /** Every token is non-empty and contains no delimiter. */
  lemma {:induction false} SplitTokensAreWords(s: string, delim: set<char>)
    ensures forall i :: 0 <= i < |Split(s, delim)| ==> Split(s, delim)[i] != []
    ensures forall i, k :: 0 <= i < |Split(s, delim)| && 0 <= k < |Split(s, delim)[i]| ==>
      Split(s, delim)[i][k] !in delim
    decreases |s|
  {
    if s != [] {
      if s[0] in delim {
        SplitTokensAreWords(s[1..], delim);
      } else {
        var n := SpanToken(s, delim);
        SplitTokensAreWords(s[n..], delim);
        var r := Split(s, delim);
        assert r == [s[..n]] + Split(s[n..], delim);
        forall i | 1 <= i < |r| ensures r[i] == Split(s[n..], delim)[i - 1] { }
      }
    }
  }

  /** `s` with every delimiter character removed. */
  function RemoveDelims(s: string, delim: set<char>): string
  {
    if s == [] then []
    else (if s[0] in delim then [] else [s[0]]) + RemoveDelims(s[1..], delim)
  }

  /** The tokens written one after another. */
  function Concat(ts: seq<string>): string
  {
    if ts == [] then [] else ts[0] + Concat(ts[1..])
  }

  lemma {:induction false} RemoveDelimsAppend(a: string, b: string, delim: set<char>)
    ensures RemoveDelims(a + b, delim) == RemoveDelims(a, delim) + RemoveDelims(b, delim)
  {
    if a != [] {
      assert (a + b)[1..] == a[1..] + b;
      RemoveDelimsAppend(a[1..], b, delim);
    } else {
      assert a + b == b;
    }
  }

  lemma {:induction false} RemoveDelimsOfWord(w: string, delim: set<char>)
    requires forall i :: 0 <= i < |w| ==> w[i] !in delim
    ensures RemoveDelims(w, delim) == w
  {
    if w != [] {
      RemoveDelimsOfWord(w[1..], delim);
    }
  }

  /** The tokens, concatenated, are the string with its delimiters removed: no character is lost or reordered. */
  lemma {:induction false} SplitConcat(s: string, delim: set<char>)
    ensures Concat(Split(s, delim)) == RemoveDelims(s, delim)
    decreases |s|
  {
    if s != [] {
      if s[0] in delim {
        SplitConcat(s[1..], delim);
      } else {
        var n := SpanToken(s, delim);
        SplitConcat(s[n..], delim);
        var r := Split(s, delim);
        assert r[1..] == Split(s[n..], delim);
        assert s == s[..n] + s[n..];
        RemoveDelimsAppend(s[..n], s[n..], delim);
        RemoveDelimsOfWord(s[..n], delim);
      }
    }
  }

  /** The split is empty exactly when the string is empty or made only of delimiters. */
  lemma {:induction false} SplitEmptyIff(s: string, delim: set<char>)
    ensures Split(s, delim) == [] <==> forall i :: 0 <= i < |s| ==> s[i] in delim
    decreases |s|
  {
    if s != [] && s[0] in delim {
      SplitEmptyIff(s[1..], delim);
      assert forall i :: 1 <= i < |s| ==> s[i] == s[1..][i - 1];
    }
  }

  /** The tokens written back with one delimiter between neighbours. */
  function Join(ts: seq<string>, sep: char): string
  {
    if ts == [] then []
    else if |ts| == 1 then ts[0]
    else ts[0] + [sep] + Join(ts[1..], sep)
  }

  /** A word followed by a delimiter or by nothing is one whole token. */
  lemma {:induction false} SplitWordThen(w: string, rest: string, delim: set<char>)
    requires w != [] && forall i :: 0 <= i < |w| ==> w[i] !in delim
    requires rest == [] || rest[0] in delim
    ensures Split(w + rest, delim) == [w] + Split(rest, delim)
  {
    var s := w + rest;
    SpanTokenOfWord(w, rest, delim);
    assert s[..|w|] == w;
    assert s[|w|..] == rest;
  }

  lemma {:induction false} SpanTokenOfWord(w: string, rest: string, delim: set<char>)
    requires forall i :: 0 <= i < |w| ==> w[i] !in delim
    requires rest == [] || rest[0] in delim
    ensures SpanToken(w + rest, delim) == |w|
  {
    if w == [] {
      assert w + rest == rest;
    } else {
      assert (w + rest)[1..] == w[1..] + rest;
      SpanTokenOfWord(w[1..], rest, delim);
    }
  }

  /**
   * Round trip: tokens that are non-empty and delimiter-free, joined with a
   * delimiter and split again, come back unchanged.
   */
  lemma {:induction false} SplitJoin(ts: seq<string>, sep: char, delim: set<char>)
    requires sep in delim
    requires forall i :: 0 <= i < |ts| ==> ts[i] != []
    requires forall i, k :: 0 <= i < |ts| && 0 <= k < |ts[i]| ==> ts[i][k] !in delim
    ensures Split(Join(ts, sep), delim) == ts
  {
    if |ts| == 1 {
      SplitWordThen(ts[0], [], delim);
      assert ts[0] + [] == ts[0];
    } else if |ts| > 1 {
      var rest := [sep] + Join(ts[1..], sep);
      assert Join(ts, sep) == ts[0] + rest;
      SplitWordThen(ts[0], rest, delim);
      assert rest[1..] == Join(ts[1..], sep);
      SplitJoin(ts[1..], sep, delim);
    }
  }

  /**
   * Neighbouring tokens are separated by at least one delimiter, so a string
   * of length L has at most (L + 1) / 2 tokens.
   */
  lemma {:induction false} SplitCountBound(s: string, delim: set<char>)
    ensures 2 * |Split(s, delim)| <= |s| + 1
    decreases |s|
  {
    if s != [] {
      if s[0] in delim {
        SplitCountBound(s[1..], delim);
      } else {
        var n := SpanToken(s, delim);
        if n < |s| {
          assert s[n..][1..] == s[n + 1..];
          SplitCountBound(s[n + 1..], delim);
        }
      }
    }
  }
}
