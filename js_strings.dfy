/** The few `String.prototype` operations the booking code uses, each stated
    against its reference meaning (the first index, a splice at that index,
    an occurrence at some position). */
module JsStrings {

  /** `s.indexOf(c)` for a one-character pattern: the first position of `c`, or -1. */
  function IndexOf(s: string, c: char): (r: int)
    ensures -1 <= r < |s|
    ensures r == -1 <==> c !in s
    ensures r >= 0 ==> s[r] == c && c !in s[..r]
  {
    if s == [] then -1
    else if s[0] == c then 0
    else
      var k := IndexOf(s[1..], c);
      assert k >= 0 ==> s[..k + 1] == [s[0]] + s[1..][..k];
      if k == -1 then -1 else k + 1
  }

  /** The first index is the one position holding `c` with no `c` before it. */
  lemma IndexOfAt(s: string, c: char, i: nat)
    requires i < |s| && s[i] == c && c !in s[..i]
    ensures IndexOf(s, c) == i
  {
    assert c in s;
  }

  /** `s.replace(c, d)` with a one-character string pattern and a replacement
      without `$` patterns: only the first occurrence is replaced. */
  function ReplaceFirst(s: string, c: char, d: char): (r: string)
    ensures |r| == |s|
    ensures IndexOf(s, c) == -1 ==> r == s
    ensures IndexOf(s, c) >= 0 ==> r == s[..IndexOf(s, c)] + [d] + s[IndexOf(s, c) + 1..]
  {
    if s == [] then []
    else if s[0] == c then [d] + s[1..]
    else
      var t := ReplaceFirst(s[1..], c, d);
      var k := IndexOf(s[1..], c);
      assert IndexOf(s, c) == if k == -1 then -1 else k + 1;
      if k == -1 then [s[0]] + t
      else
        assert s[..k + 1] == [s[0]] + s[1..][..k];
        assert s[k + 2..] == s[1..][k + 1..];
        assert [s[0]] + t == [s[0]] + s[1..][..k] + [d] + s[1..][k + 1..];
        [s[0]] + t
  }

  /** Position by position: the first `c` becomes `d`, everything else stays. */
  lemma ReplaceFirstPointwise(s: string, c: char, d: char)
    ensures forall j :: 0 <= j < |s| ==> ReplaceFirst(s, c, d)[j] == if j == IndexOf(s, c) then d else s[j]
  {
    var k := IndexOf(s, c);
    if k >= 0 {
      var r := ReplaceFirst(s, c, d);
      assert r == s[..k] + [d] + s[k + 1..];
    }
  }

  /** Replacing in `x + [c] + y`, with no `c` in `x`, replaces exactly that `c`. */
  lemma ReplaceFirstAfter(x: string, c: char, d: char, y: string)
    requires c !in x
    ensures ReplaceFirst(x + [c] + y, c, d) == x + [d] + y
  {
    var s := x + [c] + y;
    assert s[..|x|] == x;
    IndexOfAt(s, c, |x|);
    assert s[|x| + 1..] == y;
  }

  /** The capital letters, in alphabetical order. */
  const Capitals: string := "ABCDEFGHIJKLMNOPQRSTUVWXYZ"

  /** `toUpperCase` on one character, for the ASCII letters: a lower-case
      letter becomes the capital at its place in the alphabet, and every other
      character is left as it is. */
  function UpperAscii(ch: char): (u: char)
    ensures 'a' <= ch <= 'z' ==> u == Capitals[ch as int - 'a' as int]
    ensures !('a' <= ch <= 'z') ==> u == ch
    ensures !('a' <= u <= 'z')
  {
    if 'a' <= ch <= 'z' then (ch as int - 32) as char else ch
  }

  /** `p` occurs in `s` starting at position `i`. */
  predicate OccursAt(s: string, p: string, i: nat)
  {
    i + |p| <= |s| && s[i..i + |p|] == p
  }

  /** `s.includes(p)`. */
  function Includes(s: string, p: string): (r: bool)
    ensures r <==> exists i: nat :: OccursAt(s, p, i)
    decreases |s|
  {
    if |p| > |s| then false
    else if s[..|p|] == p then (assert OccursAt(s, p, 0); true)
    else
      var r := Includes(s[1..], p);
      assert forall i: nat :: OccursAt(s[1..], p, i) <==> OccursAt(s, p, i + 1) by {
        forall i: nat ensures OccursAt(s[1..], p, i) <==> OccursAt(s, p, i + 1) {
          if i + |p| <= |s[1..]| {
            assert s[1..][i..i + |p|] == s[i + 1..i + 1 + |p|];
          }
        }
      }
      assert !OccursAt(s, p, 0);
      assert forall i: nat :: OccursAt(s, p, i) ==> i == 0 || OccursAt(s[1..], p, i - 1);
      r
  }

  /** A string whose first character never appears in `s` does not occur in `s`. */
  lemma NotIncludedWithoutFirstChar(s: string, p: string)
    requires p != [] && p[0] !in s
    ensures !Includes(s, p)
  {
  }
}
