/** Splitting a chat message into a command word and its argument, as every
    command plugin does first: the text is split on each single ASCII space or
    U+2005 FOUR-PER-EM SPACE (empty tokens are kept), the first token is
    dropped and the rest are joined again with one ASCII space. */
module Tokenise {

  /** The space the chat client puts after an @-mention. */
  const FourPerEmSpace: char := '\U{2005}'

  predicate IsSeparator(c: char) {
    c == ' ' || c == FourPerEmSpace
  }

  predicate HasSeparator(s: string) {
    exists i :: 0 <= i < |s| && IsSeparator(s[i])
  }

  /** Number of separator characters in `s`. */
  function CountSeparators(s: string): nat {
    if |s| == 0 then 0
    else (if IsSeparator(s[0]) then 1 else 0) + CountSeparators(s[1..])
  }

  /** `s` with every separator written as an ASCII space. */
  function AsciiSpaced(s: string): string {
    if |s| == 0 then []
    else [if IsSeparator(s[0]) then ' ' else s[0]] + AsciiSpaced(s[1..])
  }

  /** The split on the pattern `" |\u2005"`: one token more than there are
      separators, and no token holds a separator. */
  function Split(s: string): (tokens: seq<string>)
    ensures |tokens| == CountSeparators(s) + 1
    ensures forall k :: 0 <= k < |tokens| ==> !HasSeparator(tokens[k])
  {
    if |s| == 0 then [""]
    else
      var rest := Split(s[1..]);
      if IsSeparator(s[0]) then [""] + rest
      else
        var first := [s[0]] + rest[0];
        assert forall i :: 0 < i < |first| ==> first[i] == rest[0][i - 1];
        [first] + rest[1..]
  }

  /** Joining tokens with one ASCII space between neighbours. */
  function JoinSpace(tokens: seq<string>): string {
    if |tokens| == 0 then ""
    else if |tokens| == 1 then tokens[0]
    else tokens[0] + " " + JoinSpace(tokens[1..])
  }

  /** The argument the plugins hand to the provider: every token but the first,
      joined with one space. */
  function Argument(s: string): string {
    JoinSpace(Split(s)[1..])
  }

  /** A message has fewer than two tokens exactly when it holds no separator. */
  lemma {:induction false} FewTokensIffNoSeparator(s: string)
    ensures |Split(s)| < 2 <==> !HasSeparator(s)
    ensures !HasSeparator(s) ==> Argument(s) == ""
  {
    CountZeroIffNoSeparator(s);
  }

  lemma {:induction false} CountZeroIffNoSeparator(s: string)
    ensures CountSeparators(s) == 0 <==> !HasSeparator(s)
  {
    if |s| > 0 {
      CountZeroIffNoSeparator(s[1..]);
      if !IsSeparator(s[0]) && HasSeparator(s) {
        var i :| 0 <= i < |s| && IsSeparator(s[i]);
        assert IsSeparator(s[1..][i - 1]);
      }
    }
  }

  /** Joining the tokens again gives back the message with every separator
      turned into an ASCII space: nothing but the U+2005 characters is lost. */
  lemma {:induction false} JoinSplit(s: string)
    ensures JoinSpace(Split(s)) == AsciiSpaced(s)
  {
    if |s| > 0 {
      var rest := Split(s[1..]);
      JoinSplit(s[1..]);
      if IsSeparator(s[0]) {
        assert Split(s)[1..] == rest;
      } else {
        var first := [s[0]] + rest[0];
        assert Split(s) == [first] + rest[1..];
        if |rest| == 1 {
          assert JoinSpace(Split(s)) == first;
        } else {
          assert ([first] + rest[1..])[1..] == rest[1..];
          assert JoinSpace(rest) == rest[0] + " " + JoinSpace(rest[1..]);
        }
      }
    }
  }

  /** The argument is the text after the first separator, with every further
      separator turned into an ASCII space. */
  lemma {:induction false} ArgumentAfterFirstSeparator(s: string, i: nat)
    requires i < |s| && IsSeparator(s[i])
    requires forall j :: 0 <= j < i ==> !IsSeparator(s[j])
    ensures Argument(s) == AsciiSpaced(s[i + 1..])
  {
    var rest := Split(s[1..]);
    if i == 0 {
      assert Split(s)[1..] == rest;
      assert s[1..] == s[i + 1..];
      JoinSplit(s[1..]);
    } else {
      ArgumentAfterFirstSeparator(s[1..], i - 1);
      assert s[1..][i..] == s[i + 1..];
      assert Split(s)[1..] == rest[1..];
    }
  }
}
