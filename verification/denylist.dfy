/** The sensitive-word screen every command plugin applies to the argument:
    a message is refused when it holds any configured word as a literal,
    case-sensitive substring (Python's `word in message`). */
module Denylist {

  /** `word` occurs in `text` starting at position `i`. */
  predicate OccursAt(text: string, word: string, i: int) {
    0 <= i && i + |word| <= |text| && text[i..i + |word|] == word
  }

  /** Python's `word in text`: `word` occurs somewhere in `text`. */
  ghost predicate Contains(text: string, word: string) {
    exists i :: OccursAt(text, word, i)
  }

  /** Some configured word occurs in `text`. */
  ghost predicate Flagged(words: seq<string>, text: string) {
    exists k :: 0 <= k < |words| && Contains(text, words[k])
  }

  /** Substring search by trying every start position from the left. */
  function Occurs(word: string, text: string): (b: bool)
    ensures b <==> Contains(text, word)
    decreases |text|
  {
    if |text| < |word| then
      assert forall i :: !OccursAt(text, word, i);
      false
    else if text[..|word|] == word then
      assert OccursAt(text, word, 0);
      true
    else
      var b := Occurs(word, text[1..]);
      assert forall i :: OccursAt(text[1..], word, i) <==> OccursAt(text, word, i + 1) by {
        forall i ensures OccursAt(text[1..], word, i) <==> OccursAt(text, word, i + 1) {
          if 0 <= i && i + |word| <= |text| - 1 {
            assert text[1..][i..i + |word|] == text[i + 1..i + 1 + |word|];
          }
        }
      }
      assert !OccursAt(text, word, 0);
      assert Contains(text, word) ==> Contains(text[1..], word) by {
        if Contains(text, word) {
          var i :| OccursAt(text, word, i);
          assert OccursAt(text[1..], word, i - 1);
        }
      }
      b
  }

  /** `sensitive_word_check`: true when no configured word occurs in
      `message`, checking the words in their configured order. */
  function SensitiveWordCheck(words: seq<string>, message: string): (ok: bool)
    ensures ok <==> !Flagged(words, message)
  {
    if |words| == 0 then true
    else if Occurs(words[0], message) then false
    else
      var ok := SensitiveWordCheck(words[1..], message);
      assert forall k :: 1 <= k < |words| ==> words[k] == words[1..][k - 1];
      ok
  }

  /** Every text contains the empty word, so an empty entry in the
      configured list refuses every message. */
  lemma EmptyWordRefusesAll(words: seq<string>, message: string)
    requires "" in words
    ensures !SensitiveWordCheck(words, message)
  {
    assert OccursAt(message, "", 0);
  }

  /** The screen is monotone: a message that holds a refused message is refused. */
  lemma FlaggedGrows(words: seq<string>, pre: string, text: string, post: string)
    requires !SensitiveWordCheck(words, text)
    ensures !SensitiveWordCheck(words, pre + text + post)
  {
    var k :| 0 <= k < |words| && Contains(text, words[k]);
    var i :| OccursAt(text, words[k], i);
    assert (pre + text + post)[|pre| + i..|pre| + i + |words[k]|] == text[i..i + |words[k]|];
    assert OccursAt(pre + text + post, words[k], |pre| + i);
  }
}
