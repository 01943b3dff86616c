/**
 * The bare tokenizer of starter_code.c: the same strtok loop as the shell's,
 * but each token is stored verbatim (no quote stripping) and no NULL
 * sentinel is written. Nothing is returned; the caller learns nothing of the
 * count.
 */
module StarterTokenizer {
  import opened Wrappers
  import opened CStrtok

  /**
   * tokenize: argv[0..count) receive the strtok tokens of `str` in order,
   * where count is the number of tokens; every other slot is left as it was,
   * so an empty or all-delimiter line writes nothing.
   */
  method Tokenize(str: string, delim: set<char>, argv: array<Option<string>>)
    requires |Split(str, delim)| <= argv.Length
    modifies argv
    ensures forall i :: 0 <= i < |Split(str, delim)| ==> argv[i] == Some(Split(str, delim)[i])
    ensures forall i :: |Split(str, delim)| <= i < argv.Length ==> argv[i] == old(argv[i])
  {
    ghost var tokens := Split(str, delim);
    var pos := 0;
    var token := Strtok(str, delim, pos);
    var i := 0;
    while token.Some?
      invariant pos <= |str| && i <= |tokens|
      invariant token == Strtok(str, delim, pos)
      invariant tokens[i..] == Split(str[pos..], delim)
      invariant forall k :: 0 <= k < i ==> argv[k] == Some(tokens[k])
      invariant forall k :: i <= k < argv.Length ==> argv[k] == old(argv[k])
      decreases |str| - pos
    {
      var t := token.value;
      StrtokSplit(str, delim, pos);
      assert tokens[i..] == [str[t.start..t.end]] + Split(str[t.resume..], delim);
      assert tokens[i] == str[t.start..t.end];
      assert tokens[i + 1..] == tokens[i..][1..];
      argv[i] := Some(str[t.start..t.end]);
      pos := t.resume;
      token := Strtok(str, delim, pos);
      i := i + 1;
    }
    StrtokSplit(str, delim, pos);
  }
}
