// The heuristic token counter and the arithmetic facts the size guard needs.
module Tokens {
  import opened Core

  // The runes with the Unicode White_Space property.
  predicate IsSpace(c: char) {
    || '\t' <= c <= '\r'
    || c == ' '
    || c == '\U{85}'
    || c == '\U{A0}'
    || c == '\U{1680}'
    || '\U{2000}' <= c <= '\U{200A}'
    || c == '\U{2028}'
    || c == '\U{2029}'
    || c == '\U{202F}'
    || c == '\U{205F}'
    || c == '\U{3000}'
  }

  // A word starts at a non-space rune that follows the start of the text or a space.
  predicate StartsWord(s: string, i: nat)
    requires i < |s|
  {
    !IsSpace(s[i]) && (i == 0 || IsSpace(s[i - 1]))
  }

  // The number of words, read from the right end of the text.
  function Words(s: string): nat {
    if s == "" then 0
    else Words(s[..|s| - 1]) + (if StartsWord(s, |s| - 1) then 1 else 0)
  }

  function Tokens(chars: nat, words: nat): nat {
    Max((chars + 3) / 4, (words * 4 + 2) / 3)
  }

  function CountSpec(s: string): nat {
    Tokens(|s|, Words(s))
  }

  method Count(s: string) returns (tokens: nat)
    ensures tokens == CountSpec(s)
  {
    if s == "" {
      return 0;
    }
    var byChars := (|s| + 3) / 4;
    var words := 0;
    var inWord := false;
    for i := 0 to |s|
      invariant words == Words(s[..i])
      invariant inWord <==> i > 0 && !IsSpace(s[i - 1])
    {
      assert s[..i + 1][..i] == s[..i];
      if IsSpace(s[i]) {
        inWord := false;
      } else if !inWord {
        words := words + 1;
        inWord := true;
      }
    }
    assert s[..|s|] == s;
    var byWords := (words * 4 + 2) / 3;
    if byWords > byChars {
      return byWords;
    }
    return byChars;
  }

  // Joining two texts keeps every word start of the left one, and can only lose
  // the first word start of the right one.
  lemma {:induction false} WordsConcat(a: string, b: string)
    ensures Words(a) <= Words(a + b) <= Words(a) + Words(b)
    ensures b != "" && (a == "" || IsSpace(a[|a| - 1]) || IsSpace(b[0])) ==> Words(a + b) == Words(a) + Words(b)
    decreases |b|
  {
    if b == "" {
      assert a + b == a;
    } else {
      var last := |b| - 1;
      assert (a + b)[..|a + b| - 1] == a + b[..last];
      WordsConcat(a, b[..last]);
      if last == 0 {
        assert b[..last] == "" && a + b[..last] == a;
      }
    }
  }

  // Two adjacent word starts need a space between them.
  lemma {:induction false} WordsBound(s: string)
    ensures 2 * Words(s) <= |s| + 1
    ensures s != "" && IsSpace(s[|s| - 1]) ==> 2 * Words(s) <= |s|
  {
    if s != "" {
      WordsBound(s[..|s| - 1]);
    }
  }

  // Appending text never lowers the count and never costs more than counting the parts.
  lemma CountMonotoneSubadditive(a: string, b: string)
    ensures CountSpec(a) <= CountSpec(a + b) <= CountSpec(a) + CountSpec(b)
  {
    WordsConcat(a, b);
  }
}
