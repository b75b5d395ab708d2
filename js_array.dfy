/**
 * The two JavaScript array primitives the physics system relies on to
 * unregister a component: `Array.prototype.indexOf` (strict equality,
 * -1 when absent) and `Array.prototype.splice(start, 1)`, including the
 * rule that a negative start counts back from the end of the array.
 */
module JsArray {

  /** `s.indexOf(x)`: the first index holding x, or -1 when x does not occur. */
  function IndexOf<T(==)>(s: seq<T>, x: T): (r: int)
    ensures -1 <= r < |s|
    ensures r == -1 <==> x !in s
    ensures 0 <= r ==> s[r] == x && x !in s[..r]
  {
    if |s| == 0 then -1
    else if s[0] == x then 0
    else
      var k := IndexOf(s[1..], x);
      assert k >= 0 ==> s[..k + 1] == [s[0]] + s[1..][..k];
      if k == -1 then -1 else k + 1
  }

  /** Where `splice(start, ...)` starts on an array of length len. */
  function SpliceStart(len: nat, start: int): nat
  {
    if start < 0 then (if len + start < 0 then 0 else len + start)
    else if start < len then start
    else len
  }

  /** `s.splice(start, 1)`, as the array it leaves behind. */
  function SpliceOne<T>(s: seq<T>, start: int): seq<T>
  {
    var k := SpliceStart(|s|, start);
    if k < |s| then s[..k] + s[k + 1..] else s
  }

  /** A start inside the array removes exactly that element. */
  lemma SpliceOneInside<T>(s: seq<T>, start: int)
    requires 0 <= start < |s|
    ensures |SpliceOne(s, start)| == |s| - 1
    ensures forall j :: 0 <= j < start ==> SpliceOne(s, start)[j] == s[j]
    ensures forall j :: start <= j < |s| - 1 ==> SpliceOne(s, start)[j] == s[j + 1]
  {
  }

  /** `splice(-1, 1)` drops the last element, and leaves an empty array empty. */
  lemma SpliceMinusOne<T>(s: seq<T>)
    ensures |s| == 0 ==> SpliceOne(s, -1) == s
    ensures |s| > 0 ==> SpliceOne(s, -1) == s[..|s| - 1]
  {
  }
}
