/** The JavaScript built-ins the piano core relies on, restated on Dafny's
    unbounded integers and `seq<char>` strings. */
module JsBuiltins {

  /** `Array.prototype.indexOf`: the first position of `x` in `s`, or -1. */
  function IndexOf<T(==)>(s: seq<T>, x: T): (r: int)
    ensures x in s ==> 0 <= r < |s| && s[r] == x && forall j :: 0 <= j < r ==> s[j] != x
    ensures x !in s ==> r == -1
  {
    IndexFrom(s, x, 0)
  }

  /** The search of `indexOf` from position `i` on, past positions known not to hold `x`. */
  function IndexFrom<T(==)>(s: seq<T>, x: T, i: nat): (r: int)
    requires i <= |s|
    requires forall j :: 0 <= j < i ==> s[j] != x
    ensures x in s ==> i <= r < |s| && s[r] == x && forall j :: 0 <= j < r ==> s[j] != x
    ensures x !in s ==> r == -1
    decreases |s| - i
  {
    if i == |s| then -1
    else if s[i] == x then i
    else IndexFrom(s, x, i + 1)
  }

  /** No two positions of `s` hold the same element. */
  predicate Distinct<T(==)>(s: seq<T>) {
    forall i, j :: 0 <= i < j < |s| ==> s[i] != s[j]
  }

  /** In a sequence without repetitions, `indexOf` inverts indexing. */
  lemma IndexOfDistinct<T>(s: seq<T>, i: int)
    requires Distinct(s) && 0 <= i < |s|
    ensures IndexOf(s, s[i]) == i
  {
  }

  /** `Math.abs`. */
  function Abs(x: int): (r: int)
    ensures r >= 0 && (r == x || r == -x)
  {
    if x < 0 then -x else x
  }

  /** JavaScript's `%`: the remainder of truncating division, which takes
      the sign of the dividend (Dafny's `%` is never negative). */
  function JsRem(a: int, b: int): (r: int)
    requires b > 0
    ensures a >= 0 ==> r == a % b
    ensures a < 0 ==> -b < r <= 0 && -r == (-a) % b
  {
    if a >= 0 then a % b else -((-a) % b)
  }

  /** `String.prototype.toLowerCase`, for ASCII letters. */
  function ToLower(s: string): (r: string)
    ensures |r| == |s|
    ensures forall i :: 0 <= i < |s| ==> !('A' <= r[i] <= 'Z')
    ensures forall i :: 0 <= i < |s| && 'A' <= s[i] <= 'Z' ==> 'a' <= r[i] <= 'z' && r[i] as int - s[i] as int == 32
    ensures forall i :: 0 <= i < |s| && !('A' <= s[i] <= 'Z') ==> r[i] == s[i]
  {
    seq(|s|, i requires 0 <= i < |s| =>
      if 'A' <= s[i] <= 'Z' then (s[i] as int + 32) as char else s[i])
  }

  /** `s.replace(c, '')` with a one-character pattern: drops the first `c`. */
  function RemoveFirst(s: string, c: char): string {
    if s == [] then []
    else if s[0] == c then s[1..]
    else [s[0]] + RemoveFirst(s[1..], c)
  }

  /** `replace` leaves a string without `c` alone, and otherwise cuts out
      exactly the occurrence that `indexOf` finds. */
  lemma {:induction false} RemoveFirstCutsIndexOf(s: string, c: char)
    ensures c !in s ==> RemoveFirst(s, c) == s
    ensures c in s ==> RemoveFirst(s, c) == s[..IndexOf(s, c)] + s[IndexOf(s, c) + 1..]
  {
    if s != [] && s[0] != c {
      RemoveFirstCutsIndexOf(s[1..], c);
      if c in s {
        assert c in s[1..];
        assert IndexOf(s, c) == IndexOf(s[1..], c) + 1;
        assert s[..IndexOf(s, c)] == [s[0]] + s[1..][..IndexOf(s[1..], c)];
      }
    }
  }
}
