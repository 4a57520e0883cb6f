/** The two string operations the sign scope relies on: substring search
    (Swift's `contains`) and left-to-right replacement of every
    non-overlapping occurrence (Foundation's `replacingOccurrences`). */
module Text {

  predicate StartsWith(s: string, prefix: string) {
    |prefix| <= |s| && s[..|prefix|] == prefix
  }

  /** `sub` occurs somewhere in `s`. */
  predicate Contains(s: string, sub: string)
    decreases |s|
  {
    StartsWith(s, sub) || (|s| > 0 && Contains(s[1..], sub))
  }

  /** Every occurrence of `target`, scanned left to right and never
      overlapping, replaced by `replacement`. */
  function ReplaceAll(s: string, target: string, replacement: string): string
    requires target != []
    decreases |s|
  {
    if s == [] then []
    else if StartsWith(s, target) then replacement + ReplaceAll(s[|target|..], target, replacement)
    else [s[0]] + ReplaceAll(s[1..], target, replacement)
  }

  /** A one-character needle occurs exactly when its character does. */
  lemma {:induction false} ContainsChar(s: string, c: char)
    ensures Contains(s, [c]) <==> c in s
    decreases |s|
  {
    if |s| > 0 {
      ContainsChar(s[1..], c);
      assert s == [s[0]] + s[1..];
    }
  }

  /** Replacing a text that does not occur leaves the string as it was. */
  lemma {:induction false} ReplaceAllAbsent(s: string, target: string, replacement: string)
    requires target != []
    requires !Contains(s, target)
    ensures ReplaceAll(s, target, replacement) == s
    decreases |s|
  {
    if s != [] {
      ReplaceAllAbsent(s[1..], target, replacement);
    }
  }

  /** Replacing a text by itself leaves the string as it was. */
  lemma {:induction false} ReplaceAllSelf(s: string, target: string)
    requires target != []
    ensures ReplaceAll(s, target, target) == s
    decreases |s|
  {
    if s == [] {
    } else if StartsWith(s, target) {
      ReplaceAllSelf(s[|target|..], target);
      assert s == s[..|target|] + s[|target|..];
    } else {
      ReplaceAllSelf(s[1..], target);
      assert s == [s[0]] + s[1..];
    }
  }

  /** After replacing a one-character glyph by a text free of it, the glyph is
      gone from the result. */
  lemma {:induction false} ReplaceAllRemovesChar(s: string, c: char, replacement: string)
    requires c !in replacement
    ensures c !in ReplaceAll(s, [c], replacement)
    decreases |s|
  {
    if s == [] {
    } else if StartsWith(s, [c]) {
      ReplaceAllRemovesChar(s[1..], c, replacement);
    } else {
      ReplaceAllRemovesChar(s[1..], c, replacement);
      assert s[0] != c by { assert s[..1] == [s[0]]; }
    }
  }
}
