/** `Array.prototype.sort(compare)`, which the filter engine calls: since ES2019 a
    stable sort. It is specified here by a reference definition, insertion of each
    element after every element that is not greater than it, and the three facts
    a caller relies on are proved of it: the result is ordered, it is a
    permutation, and elements with equal keys keep their input order. */
module StableSort {

  /** `le(a, b)` says "compare(a, b) <= 0": a total preorder. */
  ghost predicate TotalPreorder<T(!new)>(le: (T, T) -> bool) {
    && (forall a, b :: le(a, b) || le(b, a))
    && (forall a, b, c :: le(a, b) && le(b, c) ==> le(a, c))
  }

  /** Equal keys: compare(a, b) == 0. */
  predicate SameKey<T>(le: (T, T) -> bool, a: T, b: T) {
    le(a, b) && le(b, a)
  }

  ghost predicate Sorted<T>(s: seq<T>, le: (T, T) -> bool) {
    forall i, j :: 0 <= i < j < |s| ==> le(s[i], s[j])
  }

  /** The elements of `s` whose key equals that of `z`, in order. */
  function KeyClass<T>(s: seq<T>, le: (T, T) -> bool, z: T): seq<T> {
    if s == [] then []
    else (if SameKey(le, s[0], z) then [s[0]] else []) + KeyClass(s[1..], le, z)
  }

  /** Stability: every class of equal keys appears in the same order in `r` as in `s`. */
  ghost predicate StablePermutationOf<T(!new)>(r: seq<T>, s: seq<T>, le: (T, T) -> bool) {
    && multiset(r) == multiset(s)
    && forall z :: KeyClass(r, le, z) == KeyClass(s, le, z)
  }

  /** Insert `x` after every element of `t` that is not greater than `x`. */
  function Insert<T>(x: T, t: seq<T>, le: (T, T) -> bool): (r: seq<T>)
    ensures multiset(r) == multiset(t) + multiset{x}
    ensures |r| == |t| + 1
  {
    if t == [] then [x]
    else if le(t[0], x) then
      assert t == [t[0]] + t[1..];
      [t[0]] + Insert(x, t[1..], le)
    else [x] + t
  }

  /** The sorted array as the reference insertion sort leaves it. */
  function Sort<T>(s: seq<T>, le: (T, T) -> bool): (r: seq<T>)
    ensures multiset(r) == multiset(s)
    ensures |r| == |s|
  {
    if s == [] then []
    else
      assert s == s[..|s| - 1] + [s[|s| - 1]];
      Insert(s[|s| - 1], Sort(s[..|s| - 1], le), le)
  }

  lemma {:induction false} InsertSorted<T(!new)>(x: T, t: seq<T>, le: (T, T) -> bool)
    requires TotalPreorder(le)
    requires Sorted(t, le)
    ensures Sorted(Insert(x, t, le), le)
  {
    if t != [] && le(t[0], x) {
      InsertSorted(x, t[1..], le);
      var r := Insert(x, t[1..], le);
      forall y | y in r ensures le(t[0], y) {
        assert y in multiset(r);
        if y != x {
          assert y in t[1..];
        }
      }
    }
  }

  lemma {:induction false} SortSorted<T(!new)>(s: seq<T>, le: (T, T) -> bool)
    requires TotalPreorder(le)
    ensures Sorted(Sort(s, le), le)
  {
    if s != [] {
      SortSorted(s[..|s| - 1], le);
      InsertSorted(s[|s| - 1], Sort(s[..|s| - 1], le), le);
    }
  }

  lemma {:induction false} KeyClassAppend<T>(s: seq<T>, t: seq<T>, le: (T, T) -> bool, z: T)
    ensures KeyClass(s + t, le, z) == KeyClass(s, le, z) + KeyClass(t, le, z)
  {
    if s == [] {
      assert s + t == t;
    } else {
      var head := if SameKey(le, s[0], z) then [s[0]] else [];
      assert (s + t)[0] == s[0] && (s + t)[1..] == s[1..] + t;
      assert KeyClass(s + t, le, z) == head + KeyClass(s[1..] + t, le, z);
      KeyClassAppend(s[1..], t, le, z);
      assert KeyClass(s, le, z) == head + KeyClass(s[1..], le, z);
    }
  }

  lemma {:induction false} KeyClassNone<T>(s: seq<T>, le: (T, T) -> bool, z: T)
    requires forall i :: 0 <= i < |s| ==> !SameKey(le, s[i], z)
    ensures KeyClass(s, le, z) == []
  {
    if s != [] {
      KeyClassNone(s[1..], le, z);
    }
  }

  lemma SortedTail<T>(t: seq<T>, le: (T, T) -> bool)
    requires t != [] && Sorted(t, le)
    ensures Sorted(t[1..], le)
  {
    forall i, j | 0 <= i < j < |t| - 1 ensures le(t[1..][i], t[1..][j]) {
      assert t[1..][i] == t[i + 1] && t[1..][j] == t[j + 1];
    }
  }

  /** An element that sorts before the head of a sorted list shares its key with none of it. */
  lemma {:induction false} NoneShareKey<T(!new)>(x: T, t: seq<T>, le: (T, T) -> bool, z: T)
    requires TotalPreorder(le)
    requires t != [] && Sorted(t, le) && !le(t[0], x)
    requires SameKey(le, x, z)
    ensures KeyClass(t, le, z) == []
  {
    forall i | 0 <= i < |t| ensures !SameKey(le, t[i], z) {
      if i > 0 {
        assert le(t[0], t[i]);
      }
    }
    KeyClassNone(t, le, z);
  }

  /** Inserting `x` adds it at the end of its own key class and touches no other class. */
  lemma {:induction false} KeyClassInsert<T(!new)>(x: T, t: seq<T>, le: (T, T) -> bool, z: T)
    requires TotalPreorder(le)
    requires Sorted(t, le)
    ensures KeyClass(Insert(x, t, le), le, z)
         == KeyClass(t, le, z) + (if SameKey(le, x, z) then [x] else [])
  {
    if t == [] {
    } else if le(t[0], x) {
      SortedTail(t, le);
      KeyClassInsert(x, t[1..], le, z);
      KeyClassCons(t[0], Insert(x, t[1..], le), le, z);
    } else {
      KeyClassCons(x, t, le, z);
      if SameKey(le, x, z) {
        NoneShareKey(x, t, le, z);
      }
    }
  }

  lemma KeyClassCons<T>(y: T, t: seq<T>, le: (T, T) -> bool, z: T)
    ensures KeyClass([y] + t, le, z) == (if SameKey(le, y, z) then [y] else []) + KeyClass(t, le, z)
  {
    assert ([y] + t)[1..] == t;
  }

  lemma KeyClassSnoc<T>(s: seq<T>, y: T, le: (T, T) -> bool, z: T)
    ensures KeyClass(s + [y], le, z) == KeyClass(s, le, z) + (if SameKey(le, y, z) then [y] else [])
  {
    KeyClassAppend(s, [y], le, z);
  }

  lemma KeyClassInsertSorted<T(!new)>(x: T, s: seq<T>, le: (T, T) -> bool, z: T)
    requires TotalPreorder(le)
    ensures KeyClass(Insert(x, Sort(s, le), le), le, z)
         == KeyClass(Sort(s, le), le, z) + (if SameKey(le, x, z) then [x] else [])
  {
    SortSorted(s, le);
    KeyClassInsert(x, Sort(s, le), le, z);
  }

  /** The reference sort is stable. */
  lemma {:induction false} SortStable<T(!new)>(s: seq<T>, le: (T, T) -> bool, z: T)
    requires TotalPreorder(le)
    ensures KeyClass(Sort(s, le), le, z) == KeyClass(s, le, z)
  {
    if s != [] {
      var init, last := s[..|s| - 1], s[|s| - 1];
      var tail := if SameKey(le, last, z) then [last] else [];
      calc {
        KeyClass(Sort(s, le), le, z);
        { SortUnfold(s, le); }
        KeyClass(Insert(last, Sort(init, le), le), le, z);
        { KeyClassInsertSorted(last, init, le, z); }
        KeyClass(Sort(init, le), le, z) + tail;
        { SortStable(init, le, z); }
        KeyClass(init, le, z) + tail;
        { KeyClassSnoc(init, last, le, z); }
        KeyClass(init + [last], le, z);
        { assert s == init + [last]; }
        KeyClass(s, le, z);
      }
    }
  }

  lemma SortUnfold<T>(s: seq<T>, le: (T, T) -> bool)
    requires s != []
    ensures Sort(s, le) == Insert(s[|s| - 1], Sort(s[..|s| - 1], le), le)
  {
  }

  /** Everything a caller of the sort is promised, in one statement. */
  lemma SortCorrect<T(!new)>(s: seq<T>, le: (T, T) -> bool)
    requires TotalPreorder(le)
    ensures Sorted(Sort(s, le), le)
    ensures StablePermutationOf(Sort(s, le), s, le)
  {
    SortSorted(s, le);
    forall z ensures KeyClass(Sort(s, le), le, z) == KeyClass(s, le, z) {
      SortStable(s, le, z);
    }
  }

  /** A total preorder given by an integer key, as the numeric comparators are. */
  lemma KeyOrderIsPreorder<T(!new)>(key: T -> int, le: (T, T) -> bool)
    requires forall a, b :: le(a, b) == (key(a) <= key(b))
    ensures TotalPreorder(le)
  {
  }
}
