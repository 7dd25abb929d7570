/** The few Python string operations the core relies on, over `seq<char>`. */
module Strings {

  /** `s.startswith(c)` for a one-character prefix. */
  predicate StartsWith(s: string, c: char) {
    |s| > 0 && s[0] == c
  }

  /** `s.split(c)[0]`: everything before the first occurrence of `c` (all of `s` when there is none). */
  function BeforeFirst(s: string, c: char): (r: string)
    ensures c !in r
    ensures r <= s
    ensures |r| < |s| ==> s[|r|] == c
  {
    if s == [] then []
    else if s[0] == c then []
    else [s[0]] + BeforeFirst(s[1..], c)
  }

  /** Cutting at the first `c` leaves a string without `c` untouched. */
  lemma BeforeFirstNoop(s: string, c: char)
    requires c !in s
    ensures BeforeFirst(s, c) == s
  {
  }

  /** Appending text that starts with `c` does not change the cut. */
  lemma {:induction false} BeforeFirstExtend(s: string, c: char, b: string)
    requires StartsWith(b, c)
    ensures BeforeFirst(s + b, c) == BeforeFirst(s, c)
  {
    if s == [] {
      assert s + b == b;
    } else {
      assert (s + b)[0] == s[0];
      assert (s + b)[1..] == s[1..] + b;
      BeforeFirstExtend(s[1..], c, b);
    }
  }

  /** `s.lstrip(c)` for a single character: drop every leading `c`. */
  function LStrip(s: string, c: char): (r: string)
    ensures !StartsWith(r, c)
    ensures |r| <= |s| && r == s[|s| - |r|..]
    ensures forall i :: 0 <= i < |s| - |r| ==> s[i] == c
  {
    if s != [] && s[0] == c then LStrip(s[1..], c) else s
  }

  /** One character of `s.upper().replace("-", "_")`, ASCII letters only. */
  function UpperSnakeChar(ch: char): char {
    if 'a' <= ch <= 'z' then (ch as int - 32) as char
    else if ch == '-' then '_'
    else ch
  }

  /** `s.upper()` restricted to ASCII letters, followed by `.replace("-", "_")`. */
  function UpperSnake(s: string): (r: string)
    ensures |r| == |s|
    ensures forall i :: 0 <= i < |s| ==> r[i] == UpperSnakeChar(s[i])
  {
    seq(|s|, i requires 0 <= i < |s| => UpperSnakeChar(s[i]))
  }
}
