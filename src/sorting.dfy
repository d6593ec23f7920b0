/** Python's `sorted` / `list.sort`: a stable sort under a total preorder,
    modelled as insertion sort. */
module Sorting {

  /** `le` is total and transitive: Python's `<=` on keys. */
  ghost predicate TotalPreorder<T(!new)>(le: (T, T) -> bool) {
    (forall a: T, b: T :: le(a, b) || le(b, a))
    && (forall a: T, b: T, c: T :: le(a, b) && le(b, c) ==> le(a, c))
  }

  predicate Sorted<T>(s: seq<T>, le: (T, T) -> bool) {
    forall i, j :: 0 <= i < j < |s| ==> le(s[i], s[j])
  }

  /** The place of `x` in sorted `t`: after every element not greater than it,
      so that equal elements keep their order. */
  function InsertPos<T>(t: seq<T>, x: T, le: (T, T) -> bool): (p: nat)
    ensures p <= |t|
    ensures forall i :: 0 <= i < p ==> le(t[i], x)
    ensures p < |t| ==> !le(t[p], x)
  {
    if t == [] || !le(t[0], x) then 0 else 1 + InsertPos(t[1..], x, le)
  }

  function Insert<T>(t: seq<T>, x: T, le: (T, T) -> bool): (r: seq<T>)
    ensures |r| == |t| + 1
  {
    var p := InsertPos(t, x, le);
    t[..p] + [x] + t[p..]
  }

  /** The stable sort of `s`. */
  function SortBy<T>(s: seq<T>, le: (T, T) -> bool): (r: seq<T>)
    ensures |r| == |s|
  {
    if s == [] then [] else Insert(SortBy(s[..|s| - 1], le), s[|s| - 1], le)
  }

  lemma InsertSorted<T(!new)>(t: seq<T>, x: T, le: (T, T) -> bool)
    requires TotalPreorder(le) && Sorted(t, le)
    ensures Sorted(Insert(t, x, le), le)
  {
    var p := InsertPos(t, x, le);
    var r := Insert(t, x, le);
    assert forall i :: 0 <= i < p ==> r[i] == t[i];
    assert r[p] == x;
    assert forall i :: p < i < |r| ==> r[i] == t[i - 1];
    if p < |t| {
      assert le(x, t[p]);
      assert forall j :: p <= j < |t| ==> le(x, t[j]);
    }
  }

  lemma {:induction false} SortBySorted<T(!new)>(s: seq<T>, le: (T, T) -> bool)
    requires TotalPreorder(le)
    ensures Sorted(SortBy(s, le), le)
  {
    if s != [] {
      SortBySorted(s[..|s| - 1], le);
      InsertSorted(SortBy(s[..|s| - 1], le), s[|s| - 1], le);
    }
  }

  lemma {:induction false} SortByPermutation<T>(s: seq<T>, le: (T, T) -> bool)
    ensures multiset(SortBy(s, le)) == multiset(s)
  {
    if s != [] {
      var init := s[..|s| - 1];
      SortByPermutation(init, le);
      var t := SortBy(init, le);
      var p := InsertPos(t, s[|s| - 1], le);
      assert t == t[..p] + t[p..];
      assert s == init + [s[|s| - 1]];
    }
  }

  /** Sorting a list that is already in order changes nothing. */
  lemma {:induction false} SortByIdentity<T(!new)>(s: seq<T>, le: (T, T) -> bool)
    requires Sorted(s, le)
    ensures SortBy(s, le) == s
  {
    if s != [] {
      var init := s[..|s| - 1];
      SortByIdentity(init, le);
      assert InsertPos(init, s[|s| - 1], le) == |init| by {
        InsertPosAfterAll(init, s[|s| - 1], le);
      }
      assert init + [s[|s| - 1]] == s;
    }
  }

  lemma {:induction false} InsertPosAfterAll<T>(t: seq<T>, x: T, le: (T, T) -> bool)
    requires forall i :: 0 <= i < |t| ==> le(t[i], x)
    ensures InsertPos(t, x, le) == |t|
  {
    if t != [] { InsertPosAfterAll(t[1..], x, le); }
  }

  /** The elements of `s` that `le` ranks equal to `y`, in order. */
  function EqualTo<T>(s: seq<T>, y: T, le: (T, T) -> bool): (r: seq<T>)
    ensures |r| <= |s|
  {
    if s == [] then []
    else
      var last := s[|s| - 1];
      EqualTo(s[..|s| - 1], y, le) + (if le(last, y) && le(y, last) then [last] else [])
  }

  lemma {:induction false} EqualToConcat<T>(a: seq<T>, b: seq<T>, y: T, le: (T, T) -> bool)
    ensures EqualTo(a + b, y, le) == EqualTo(a, y, le) + EqualTo(b, y, le)
    decreases |b|
  {
    if b == [] {
      assert a + b == a;
    } else {
      assert (a + b)[..|a + b| - 1] == a + b[..|b| - 1];
      EqualToConcat(a, b[..|b| - 1], y, le);
    }
  }

  lemma {:induction false} EqualToNone<T>(s: seq<T>, y: T, le: (T, T) -> bool)
    requires forall i :: 0 <= i < |s| ==> !(le(s[i], y) && le(y, s[i]))
    ensures EqualTo(s, y, le) == []
  {
    if s != [] { EqualToNone(s[..|s| - 1], y, le); }
  }

  /** Nothing after the insertion point of `x` ranks equal to what `x` ranks equal to. */
  lemma InsertTail<T(!new)>(t: seq<T>, x: T, y: T, le: (T, T) -> bool)
    requires TotalPreorder(le) && Sorted(t, le) && le(x, y) && le(y, x)
    ensures EqualTo(t[InsertPos(t, x, le)..], y, le) == []
  {
    var p := InsertPos(t, x, le);
    var tail := t[p..];
    forall i | 0 <= i < |tail| ensures !(le(tail[i], y) && le(y, tail[i])) {
      assert tail[i] == t[p + i];
    }
    EqualToNone(tail, y, le);
  }

  lemma EqualToSingle<T>(x: T, y: T, le: (T, T) -> bool)
    ensures EqualTo([x], y, le) == (if le(x, y) && le(y, x) then [x] else [])
  {
    assert [x][..0] == [];
  }

  lemma EqualToSplit<T>(t: seq<T>, p: nat, y: T, le: (T, T) -> bool)
    requires p <= |t|
    ensures EqualTo(t, y, le) == EqualTo(t[..p], y, le) + EqualTo(t[p..], y, le)
  {
    TakeDrop(t, p);
    EqualToOfConcat(t, t[..p], t[p..], y, le);
  }

  lemma TakeDrop<T>(t: seq<T>, p: nat)
    requires p <= |t|
    ensures t == t[..p] + t[p..]
  {
  }

  lemma EqualToOfConcat<T>(t: seq<T>, a: seq<T>, b: seq<T>, y: T, le: (T, T) -> bool)
    requires t == a + b
    ensures EqualTo(t, y, le) == EqualTo(a, y, le) + EqualTo(b, y, le)
  {
    EqualToConcat(a, b, y, le);
  }

  lemma EqualToInsert<T>(a: seq<T>, b: seq<T>, x: T, y: T, le: (T, T) -> bool)
    ensures EqualTo(a + [x] + b, y, le) == EqualTo(a, y, le) + EqualTo([x], y, le) + EqualTo(b, y, le)
  {
    EqualToConcat(a + [x], b, y, le);
    EqualToConcat(a, [x], y, le);
  }

  lemma InsertStable<T(!new)>(t: seq<T>, x: T, y: T, le: (T, T) -> bool)
    requires TotalPreorder(le) && Sorted(t, le)
    ensures EqualTo(Insert(t, x, le), y, le)
      == EqualTo(t, y, le) + (if le(x, y) && le(y, x) then [x] else [])
  {
    if le(x, y) && le(y, x) {
      InsertTail(t, x, y, le);
    }
    InsertEqualTo(t, x, y, le);
  }

  /** Inserting `x` adds it to the elements equal to `y` when it is one of
      them, given that nothing after its place is. */
  lemma InsertEqualTo<T>(t: seq<T>, x: T, y: T, le: (T, T) -> bool)
    requires le(x, y) && le(y, x) ==> EqualTo(t[InsertPos(t, x, le)..], y, le) == []
    ensures EqualTo(Insert(t, x, le), y, le)
      == EqualTo(t, y, le) + (if le(x, y) && le(y, x) then [x] else [])
  {
    var p := InsertPos(t, x, le);
    var a, b := t[..p], t[p..];
    assert Insert(t, x, le) == a + [x] + b;
    EqualToSplit(t, p, y, le);
    EqualToInsert(a, b, x, y, le);
    EqualToSingle(x, y, le);
    Regroup(EqualTo(a, y, le), EqualTo([x], y, le), EqualTo(b, y, le), x, le(x, y) && le(y, x));
  }

  lemma Regroup<T>(ea: seq<T>, ex: seq<T>, eb: seq<T>, x: T, equal: bool)
    requires ex == (if equal then [x] else []) && (equal ==> eb == [])
    ensures ea + ex + eb == (ea + eb) + ex
  {
    if equal {
      assert ea + ex + eb == ea + [x];
    } else {
      assert ea + ex + eb == ea + eb;
    }
  }

  /** Stability: the elements ranked equal to any `y` appear in the sorted
      output in the same order as in the input. */
  lemma {:induction false} SortByStable<T(!new)>(s: seq<T>, y: T, le: (T, T) -> bool)
    requires TotalPreorder(le)
    ensures EqualTo(SortBy(s, le), y, le) == EqualTo(s, y, le)
  {
    if s != [] {
      var init := s[..|s| - 1];
      SortByStable(init, y, le);
      SortBySorted(init, le);
      InsertStable(SortBy(init, le), s[|s| - 1], y, le);
    }
  }

  /** Python's `<=` on `str`: the lexicographic order of code points. */
  predicate StrLe(a: string, b: string) {
    a == [] || (b != [] && (a[0] < b[0] || (a[0] == b[0] && StrLe(a[1..], b[1..]))))
  }

  /** Python's `<=` on `(str, str)` tuples: by the first element, then the second. */
  predicate PairLe(x: (string, string), y: (string, string)) {
    StrLe(x.0, y.0) && (x.0 == y.0 ==> StrLe(x.1, y.1))
  }

  lemma {:induction false} StrLeTotal(a: string, b: string)
    ensures StrLe(a, b) || StrLe(b, a)
    decreases |a|
  {
    if a != [] && b != [] && a[0] == b[0] {
      StrLeTotal(a[1..], b[1..]);
    }
  }

  lemma {:induction false} StrLeTrans(a: string, b: string, c: string)
    requires StrLe(a, b) && StrLe(b, c)
    ensures StrLe(a, c)
    decreases |a|
  {
    if a != [] && b != [] && c != [] && a[0] == b[0] && b[0] == c[0] {
      StrLeTrans(a[1..], b[1..], c[1..]);
    }
  }

  lemma {:induction false} StrLeAntisym(a: string, b: string)
    requires StrLe(a, b) && StrLe(b, a)
    ensures a == b
    decreases |a|
  {
    if a != [] {
      StrLeAntisym(a[1..], b[1..]);
      assert a == [a[0]] + a[1..] && b == [b[0]] + b[1..];
    }
  }

  /** `str` order is a total order. */
  lemma StrOrder()
    ensures TotalPreorder(StrLe)
    ensures forall a, b :: StrLe(a, b) && StrLe(b, a) ==> a == b
  {
    forall a, b ensures StrLe(a, b) || StrLe(b, a) { StrLeTotal(a, b); }
    forall a, b, c | StrLe(a, b) && StrLe(b, c) ensures StrLe(a, c) { StrLeTrans(a, b, c); }
    forall a, b | StrLe(a, b) && StrLe(b, a) ensures a == b { StrLeAntisym(a, b); }
  }

  /** Tuple order is a total order. */
  lemma PairOrder()
    ensures TotalPreorder(PairLe)
    ensures forall x, y :: PairLe(x, y) && PairLe(y, x) ==> x == y
  {
    StrOrder();
  }

  /** A sort of keys listed once each lists them in strictly increasing order. */
  lemma SortedDistinct<T>(s: seq<T>, le: (T, T) -> bool)
    requires Sorted(s, le)
    requires forall x, y :: le(x, y) && le(y, x) ==> x == y
    requires forall i, j :: 0 <= i < j < |s| ==> s[i] != s[j]
    ensures forall i, j :: 0 <= i < j < |s| ==> le(s[i], s[j]) && !le(s[j], s[i])
  {
  }
}
