/** Python's prefix slice `s[:n]` on lists and strings, and regrouping of
    concatenations. */
module Slices {

  /** `s[:n]`: a negative `n` counts from the end, and a bound beyond either
      end is clipped. */
  function Prefix<T>(s: seq<T>, n: int): (r: seq<T>)
    ensures 0 <= n <= |s| ==> r == s[..n]
    ensures n >= |s| ==> r == s
    ensures n < 0 ==> r == s[..if |s| + n > 0 then |s| + n else 0]
    ensures |r| <= |s| && r == s[..|r|]
    ensures n >= 0 ==> |r| <= n
  {
    if n >= |s| then s
    else if n >= 0 then s[..n]
    else if |s| + n > 0 then s[..|s| + n]
    else []
  }

  /** Concatenation regroups; stated over any element type so that it is used
      without unfolding the operands. */
  lemma Assoc<T>(a: seq<T>, b: seq<T>, c: seq<T>)
    ensures a + b + c == a + (b + c)
  {
  }
}
