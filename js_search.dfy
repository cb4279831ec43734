/**
 * The searches of the JavaScript standard library that the dropdown relies on:
 * `String.prototype.indexOf` and `includes` with a search string, and
 * `Array.prototype.indexOf` with an element. Strings are sequences of characters; positions
 * agree with JavaScript's UTF-16 positions on the ASCII strings this component searches.
 */
module JsSearch {

  /** `sub` occurs in `s` starting at position `i`. */
  predicate OccursAt<T(==)>(s: seq<T>, sub: seq<T>, i: int) {
    0 <= i && i + |sub| <= |s| && s[i..i + |sub|] == sub
  }

  /** First position at or after `from` where `sub` occurs, or -1. */
  function IndexOfFrom<T(==)>(s: seq<T>, sub: seq<T>, from: nat): (r: int)
    requires from <= |s| + 1
    ensures r == -1 || (from <= r && OccursAt(s, sub, r))
    ensures forall j :: from <= j && (r == -1 || j < r) ==> !OccursAt(s, sub, j)
    decreases |s| + 1 - from
  {
    if from + |sub| > |s| then -1
    else if s[from..from + |sub|] == sub then from
    else IndexOfFrom(s, sub, from + 1)
  }

  /** `s.indexOf(sub)`: the first occurrence of `sub` in `s`, or -1 when there is none. */
  function IndexOf<T(==)>(s: seq<T>, sub: seq<T>): (r: int)
    ensures r == -1 <==> forall j :: !OccursAt(s, sub, j)
    ensures r != -1 ==> OccursAt(s, sub, r) && forall j :: j < r ==> !OccursAt(s, sub, j)
  {
    IndexOfFrom(s, sub, 0)
  }

  /** `s.includes(sub)`: some occurrence of `sub` exists. */
  predicate Includes<T(==)>(s: seq<T>, sub: seq<T>) {
    IndexOf(s, sub) != -1
  }

  lemma IncludesIffOccurs<T>(s: seq<T>, sub: seq<T>)
    ensures Includes(s, sub) <==> exists i :: OccursAt(s, sub, i)
  {
  }

  /** `a.indexOf(x)` on an array: the first index holding `x`, or -1. */
  function IndexOfElement<T(==)>(a: seq<T>, x: T): (r: int)
    ensures r == -1 <==> x !in a
    ensures r != -1 ==> 0 <= r < |a| && a[r] == x && x !in a[..r]
  {
    if |a| == 0 then -1
    else if a[0] == x then 0
    else
      var k := IndexOfElement(a[1..], x);
      if k == -1 then -1 else k + 1
  }
}
