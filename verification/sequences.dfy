/** Facts about plain sequences used by several modules. */
module Sequences {

  /** No value occurs at two positions. */
  predicate Distinct<T(==)>(v: seq<T>) {
    forall i, j :: 0 <= i < j < |v| ==> v[i] != v[j]
  }

  /**
   * The length of Python's `s[:n]` for a list of length `len`: a negative `n`
   * counts from the end.
   */
  function SliceLength(len: nat, n: int): (k: nat)
    ensures k <= len
    ensures n >= 0 ==> k == if n < len then n else len
    ensures n < 0 ==> k == if len + n > 0 then len + n else 0
  {
    if n >= 0 then (if n < len then n else len)
    else if len + n > 0 then len + n else 0
  }

  /** Python's `s[:n]`. */
  function SliceTo<T>(s: seq<T>, n: int): (r: seq<T>)
    ensures |r| == SliceLength(|s|, n)
    ensures forall k :: 0 <= k < |r| ==> r[k] == s[k]
  {
    s[..SliceLength(|s|, n)]
  }
}
