/**
 * The shell's tokenizer (dragonshell.c): strip_quotes, which removes one
 * matching pair of surrounding quotes from a C string in place, and
 * tokenize, which splits the input line with strtok, strips each token and
 * stores it in `argv`, followed by a NULL sentinel.
 *
 * A `char *` slot of `argv` is an Option<string>: None is NULL.
 */
module Tokenizer {
  import opened Wrappers
  import opened CStrtok

  const NUL := '\0'

  /** The condition under which strip_quotes changes its argument. */
  predicate Quoted(s: string)
  {
    |s| >= 2 && ((s[0] == '"' && s[|s| - 1] == '"') || (s[0] == '\'' && s[|s| - 1] == '\''))
  }

  /**
   * strip_quotes, on the string's value. A quoted string loses its first and
   * last character, and putting the quote back around the result gives the
   * original; any other string comes back unchanged.
   */
  function StripQuotes(s: string): (r: string)
    ensures Quoted(s) ==> |r| == |s| - 2 && [s[0]] + r + [s[0]] == s
    ensures !Quoted(s) ==> r == s
  {
    if Quoted(s) then s[1..|s| - 1] else s
  }

  /** The inverse direction: quoting any string and stripping it gives the string back. */
  lemma StripQuotesOfQuoted(t: string, q: char)
    requires q == '"' || q == '\''
    ensures StripQuotes([q] + t + [q]) == t
  {
    var s := [q] + t + [q];
    assert s[1..|s| - 1] == t;
  }

  /** Only one pair is removed: a doubly quoted string keeps its inner quotes. */
  lemma StripQuotesRemovesOnePair(t: string)
    ensures StripQuotes("\"'" + t + "'\"") == "'" + t + "'"
  {
    var s := "\"'" + t + "'\"";
    assert s == ['"'] + ("'" + t + "'") + ['"'];
    StripQuotesOfQuoted("'" + t + "'", '"');
  }

  /** strlen: the index of the first NUL of a C string buffer. */
  function StrLen(buf: seq<char>): (n: nat)
    requires NUL in buf
    ensures n < |buf| && buf[n] == NUL
    ensures forall i :: 0 <= i < n ==> buf[i] != NUL
  {
    if buf[0] == NUL then 0 else 1 + StrLen(buf[1..])
  }

  /** The string a NUL-terminated buffer holds. */
  function CString(buf: seq<char>): string
    requires NUL in buf
  {
    buf[..StrLen(buf)]
  }

  /**
   * strip_quotes as the source runs it, on the character buffer: memmove
   * shifts the characters after the opening quote one place left, and a NUL
   * is written over the closing quote's new position. Characters past the
   * old terminator are untouched.
   */
  method StripQuotesInPlace(str: array<char>)
    requires NUL in str[..]
    modifies str
    ensures NUL in str[..]
    ensures CString(str[..]) == StripQuotes(old(CString(str[..])))
    ensures forall i :: old(StrLen(str[..])) < i < str.Length ==> str[i] == old(str[i])
  {
    var len := StrLen(str[..]);
    if len < 2 {
      return;
    }
    if (str[0] == '"' && str[len - 1] == '"') || (str[0] == '\'' && str[len - 1] == '\'') {
      ghost var before := str[..];
      assert before[..len] == CString(before);
      forall i | 0 <= i < len - 1 {
        str[i] := str[i + 1];
      }
      str[len - 2] := NUL;
      assert str[..][len - 2] == NUL;
      assert StrLen(str[..]) == len - 2 by {
        StrLenAt(str[..], len - 2);
      }
      assert str[..len - 2] == before[1..len - 1];
    }
  }

  lemma StrLenAt(buf: seq<char>, n: nat)
    requires n < |buf| && buf[n] == NUL
    requires forall i :: 0 <= i < n ==> buf[i] != NUL
    ensures NUL in buf && StrLen(buf) == n
  {
    assert buf[n] == NUL;
  }

  /**
   * tokenize: stores the strtok tokens of `str`, each quote-stripped, in
   * argv[0..n), writes the NULL sentinel at argv[n] and returns n. The
   * caller must supply n + 1 slots; slots past the sentinel are untouched.
   */
  method Tokenize(str: string, delim: set<char>, argv: array<Option<string>>) returns (n: nat)
    requires |Split(str, delim)| < argv.Length
    modifies argv
    ensures n == |Split(str, delim)|
    ensures forall i :: 0 <= i < n ==> argv[i] == Some(StripQuotes(Split(str, delim)[i]))
    ensures argv[n] == None
    ensures forall i :: n < i < argv.Length ==> argv[i] == old(argv[i])
  {
    ghost var tokens := Split(str, delim);
    var pos := 0;
    var token := Strtok(str, delim, pos);
    n := 0;
    while token.Some?
      invariant pos <= |str| && n <= |tokens|
      invariant token == Strtok(str, delim, pos)
      invariant tokens[n..] == Split(str[pos..], delim)
      invariant forall i :: 0 <= i < n ==> argv[i] == Some(StripQuotes(tokens[i]))
      invariant forall i :: n <= i < argv.Length ==> argv[i] == old(argv[i])
      decreases |str| - pos
    {
      var t := token.value;
      StrtokSplit(str, delim, pos);
      assert tokens[n..] == [str[t.start..t.end]] + Split(str[t.resume..], delim);
      assert tokens[n] == str[t.start..t.end];
      assert tokens[n + 1..] == tokens[n..][1..];
      argv[n] := Some(StripQuotes(str[t.start..t.end]));
      pos := t.resume;
      token := Strtok(str, delim, pos);
      n := n + 1;
    }
    StrtokSplit(str, delim, pos);
    argv[n] := None;
  }

  /**
   * Quotes do not protect delimiters: a quoted phrase with a space in it
   * becomes two tokens, each keeping its lone quote character.
   */
  lemma QuotedPhraseIsSplit()
    ensures Split("echo \"hi there\" foo", {' '}) == ["echo", "\"hi", "there\"", "foo"]
    ensures StripQuotes("\"hi") == "\"hi" && StripQuotes("there\"") == "there\""
  {
    var words := ["echo", "\"hi", "there\"", "foo"];
    JoinQuotedPhrase();
    SplitJoin(words, ' ', {' '});
  }

  lemma JoinQuotedPhrase()
    ensures Join(["echo", "\"hi", "there\"", "foo"], ' ') == "echo \"hi there\" foo"
  {
    var words := ["echo", "\"hi", "there\"", "foo"];
    assert Join(words[3..], ' ') == "foo";
    assert Join(words[2..], ' ') == "there\" foo";
    assert Join(words[1..], ' ') == "\"hi there\" foo";
  }
}
