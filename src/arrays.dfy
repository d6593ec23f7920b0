/** The numpy arrays the ranking code passes around, reduced to what it
    inspects: the shape and the entries along the first axis. */
module Arrays {

  /** `shape` is `arr.shape`; `rows` holds `arr[0]`, `arr[1]`, … flattened. */
  datatype NdArray = NdArray(shape: seq<nat>, rows: seq<seq<real>>)

  /** `arr.ndim`. */
  function Ndim(a: NdArray): nat {
    |a.shape|
  }

  /** `shape[0]` agrees with the rows held. */
  predicate WellFormed(a: NdArray) {
    |a.shape| >= 1 ==> a.shape[0] == |a.rows|
  }

  /** `arr[mask]` for a boolean mask as long as the first axis. */
  function SelectRows(a: NdArray, mask: seq<bool>): (r: NdArray)
    requires |a.shape| >= 1 && |mask| == |a.rows|
    ensures |r.shape| == |a.shape| && r.shape[1..] == a.shape[1..]
    ensures WellFormed(r)
    ensures r.rows == Masked(a.rows, mask)
  {
    var kept := Masked(a.rows, mask);
    NdArray([|kept|] + a.shape[1..], kept)
  }

  /** The elements of `s` whose mask entry is true, in order. */
  function Masked<T>(s: seq<T>, mask: seq<bool>): (r: seq<T>)
    requires |mask| == |s|
    ensures |r| <= |s|
  {
    if s == [] then []
    else Masked(s[..|s| - 1], mask[..|s| - 1]) + (if mask[|s| - 1] then [s[|s| - 1]] else [])
  }

  /** The positions a mask keeps, in increasing order. */
  function Kept(mask: seq<bool>): (r: seq<nat>)
    ensures forall i :: 0 <= i < |r| ==> r[i] < |mask| && mask[r[i]]
    ensures forall i, j :: 0 <= i < j < |r| ==> r[i] < r[j]
    ensures forall k :: 0 <= k < |mask| && mask[k] ==> k in r
  {
    if mask == [] then []
    else Kept(mask[..|mask| - 1]) + (if mask[|mask| - 1] then [|mask| - 1] else [])
  }

  /** `arr[mask]` takes exactly the kept positions: so two arrays masked
      alike stay aligned, row `i` of each coming from position `Kept(mask)[i]`. */
  lemma {:induction false} MaskedAt<T>(s: seq<T>, mask: seq<bool>)
    requires |mask| == |s|
    ensures |Masked(s, mask)| == |Kept(mask)|
    ensures forall i :: 0 <= i < |Kept(mask)| ==> Masked(s, mask)[i] == s[Kept(mask)[i]]
  {
    if s != [] {
      var n := |s| - 1;
      MaskedAt(s[..n], mask[..n]);
    }
  }

  /** A mask that keeps everything keeps the sequence. */
  lemma {:induction false} MaskedAll<T>(s: seq<T>, mask: seq<bool>)
    requires |mask| == |s| && forall i :: 0 <= i < |mask| ==> mask[i]
    ensures Masked(s, mask) == s
  {
    if s != [] {
      var n := |s| - 1;
      MaskedAll(s[..n], mask[..n]);
      assert s[..n] + [s[n]] == s;
    }
  }
}
