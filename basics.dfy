/** Small helpers shared by the whole model: an optional value, the `Math.max`/`Math.min`
    and `Math.abs` used by the engine, and `Array.prototype.splice(i, 1)` on sequences. */
module Basics {

  datatype Option<+T> = None | Some(value: T)

  /** `Math.max` on positions. */
  function Max(a: real, b: real): real { if a >= b then a else b }

  /** `Math.min` on positions. */
  function Min(a: real, b: real): real { if a <= b then a else b }

  /** `Math.abs` on positions. */
  function Abs(a: real): real { if a >= 0.0 then a else -a }

  /** `Math.max` on the integer score. */
  function IntMax(a: int, b: int): int { if a >= b then a else b }

  /** `s.splice(i, 1)`: the sequence without its element at index `i`. */
  function Remove<T>(s: seq<T>, i: nat): (r: seq<T>)
    requires i < |s|
    ensures |r| == |s| - 1
    ensures forall k :: 0 <= k < i ==> r[k] == s[k]
    ensures forall k :: i <= k < |r| ==> r[k] == s[k + 1]
    ensures multiset(r) + multiset{s[i]} == multiset(s)
  {
    assert s == s[..i] + [s[i]] + s[i + 1..];
    s[..i] + s[i + 1..]
  }

  /** A sequence is its prefix, the element at `i` and its suffix; splicing drops the middle. */
  lemma SplitAt<T>(s: seq<T>, i: nat)
    requires i < |s|
    ensures s == s[..i] + [s[i]] + s[i + 1..]
    ensures Remove(s, i) == s[..i] + s[i + 1..]
  {
  }

  /** Splicing out an element does not depend on what that element was. */
  lemma RemoveUpdated<T>(s: seq<T>, i: nat, x: T)
    requires i < |s|
    ensures Remove(s[i := x], i) == Remove(s, i)
  {
    assert s[i := x][..i] == s[..i];
    assert s[i := x][i + 1..] == s[i + 1..];
  }
}
