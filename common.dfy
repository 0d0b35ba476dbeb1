/** Values and list operations that the TypeScript sources take from the language:
    optional values, `Array.prototype.filter`, `Array.prototype.slice(0, end)`,
    `Math.max(lo, Math.min(hi, x))` and the "remove every occurrence" idiom. */
module Common {

  /** An optional value: `undefined`/`null` in the sources, or an absent localStorage key. */
  datatype Option<T> = None | Some(value: T) {
    function GetOr(default: T): T {
      if Some? then value else default
    }
  }

  /** `s.filter(p)`: the elements of `s` that satisfy `p`, in their original order. */
  function Keep<T(!new)>(s: seq<T>, p: T -> bool): (r: seq<T>)
    ensures |r| <= |s|
    ensures forall x :: x in r <==> x in s && p(x)
    ensures multiset(r) <= multiset(s)
  {
    if s == [] then []
    else
      assert s == [s[0]] + s[1..];
      (if p(s[0]) then [s[0]] else []) + Keep(s[1..], p)
  }

  lemma {:induction false} KeepAppend<T(!new)>(s: seq<T>, t: seq<T>, p: T -> bool)
    ensures Keep(s + t, p) == Keep(s, p) + Keep(t, p)
  {
    if s == [] {
      assert s + t == t;
    } else {
      assert (s + t)[1..] == s[1..] + t;
      KeepAppend(s[1..], t, p);
    }
  }

  /** Filtering twice is filtering once by the conjunction. */
  lemma {:induction false} KeepKeep<T(!new)>(s: seq<T>, p: T -> bool, q: T -> bool, pq: T -> bool)
    requires forall x :: pq(x) == (p(x) && q(x))
    ensures Keep(Keep(s, p), q) == Keep(s, pq)
  {
    if s != [] {
      KeepKeep(s[1..], p, q, pq);
      KeepAppend(if p(s[0]) then [s[0]] else [], Keep(s[1..], p), q);
    }
  }

  /** A filter that nothing fails leaves the list unchanged. */
  lemma {:induction false} KeepAll<T(!new)>(s: seq<T>, p: T -> bool)
    requires forall x :: x in s ==> p(x)
    ensures Keep(s, p) == s
  {
    if s != [] {
      KeepAll(s[1..], p);
    }
  }

  /** A filter that the same elements pass gives the same list. */
  lemma {:induction false} KeepSame<T(!new)>(s: seq<T>, p: T -> bool, q: T -> bool)
    requires forall x :: x in s ==> p(x) == q(x)
    ensures Keep(s, p) == Keep(s, q)
  {
    if s != [] {
      KeepSame(s[1..], p, q);
    }
  }

  /** A filter keeps the whole list exactly when every element passes it. */
  lemma {:induction false} KeepLengthIff<T(!new)>(s: seq<T>, p: T -> bool)
    ensures |Keep(s, p)| == |s| <==> forall x :: x in s ==> p(x)
  {
    if s != [] {
      KeepLengthIff(s[1..], p);
      assert s == [s[0]] + s[1..];
    }
  }

  /** `s.filter(x => x !== y)`: remove every occurrence of `y`. */
  function RemoveAll<T(==,!new)>(s: seq<T>, y: T): (r: seq<T>)
    ensures forall x :: x in r <==> x in s && x != y
    ensures |r| <= |s|
    ensures y in s ==> |r| < |s|
    ensures y !in s ==> r == s
  {
    if s == [] then []
    else (if s[0] == y then [] else [s[0]]) + RemoveAll(s[1..], y)
  }

  /** Removing `y` from a list that ends in it removes that last copy too. */
  lemma {:induction false} RemoveAllSnoc<T(!new)>(s: seq<T>, y: T)
    ensures RemoveAll(s + [y], y) == RemoveAll(s, y)
  {
    if s == [] {
      assert RemoveAll([y], y) == [] + RemoveAll([y][1..], y);
    } else {
      assert (s + [y])[1..] == s[1..] + [y];
      RemoveAllSnoc(s[1..], y);
    }
  }

  /** The end index that `slice(0, end)` uses on a list of length `len`:
      a negative end counts from the back, and the result is clipped to `0..len`. */
  function SliceEnd(len: nat, end: int): (k: nat)
    ensures k <= len
    ensures 0 <= end ==> k == if end < len then end else len
    ensures end < 0 ==> k == if len + end < 0 then 0 else len + end
  {
    if end < 0 then (if len + end < 0 then 0 else len + end)
    else if end < len then end else len
  }

  /** `s.slice(0, end)`. */
  function SlicePrefix<T>(s: seq<T>, end: int): (r: seq<T>)
    ensures r <= s
    ensures 0 <= end ==> |r| == if end < |s| then end else |s|
  {
    s[..SliceEnd(|s|, end)]
  }

  function Min(a: int, b: int): int { if a < b then a else b }

  function Max(a: int, b: int): int { if a < b then b else a }

  /** `Math.max(lo, Math.min(hi, x))`. */
  function Clamp(lo: int, hi: int, x: int): (r: int)
    requires lo <= hi
    ensures lo <= r <= hi
    ensures lo <= x <= hi ==> r == x
    ensures x < lo ==> r == lo
    ensures hi < x ==> r == hi
  {
    Max(lo, Min(hi, x))
  }

  /** No element occurs twice. */
  ghost predicate Distinct<T>(s: seq<T>) {
    forall i, j :: 0 <= i < j < |s| ==> s[i] != s[j]
  }

  /** The set of values a list holds. */
  function Elements<T>(s: seq<T>): set<T> {
    set x | x in s
  }

  /** A list has at least as many entries as values, and as many exactly when
      no value repeats. */
  lemma {:induction false} ElementsCard<T>(s: seq<T>)
    ensures |Elements(s)| <= |s|
    ensures |Elements(s)| == |s| <==> Distinct(s)
  {
    if s != [] {
      var t := s[1..];
      ElementsCard(t);
      assert Elements(s) == {s[0]} + Elements(t);
      if s[0] in t {
        assert Elements(s) == Elements(t);
        var j :| 0 <= j < |t| && t[j] == s[0];
        assert s[0] == s[j + 1];
      } else {
        assert s[0] !in Elements(t);
        if Distinct(s) {
          assert Distinct(t) by {
            forall i, j | 0 <= i < j < |t| ensures t[i] != t[j] {
              assert t[i] == s[i + 1] && t[j] == s[j + 1];
            }
          }
        }
        if Distinct(t) {
          forall i, j | 0 <= i < j < |s| ensures s[i] != s[j] {
            if i == 0 {
              assert s[j] == t[j - 1];
            } else {
              assert s[i] == t[i - 1] && s[j] == t[j - 1];
            }
          }
        }
      }
    }
  }

  /** Filtering a list without repeats gives a list without repeats. */
  lemma {:induction false} KeepDistinct<T(!new)>(s: seq<T>, p: T -> bool)
    requires Distinct(s)
    ensures Distinct(Keep(s, p))
  {
    if s != [] {
      var t := s[1..];
      assert Distinct(t) by {
        forall i, j | 0 <= i < j < |t| ensures t[i] != t[j] {
          assert t[i] == s[i + 1] && t[j] == s[j + 1];
        }
      }
      KeepDistinct(t, p);
      var k := Keep(t, p);
      assert s[0] !in t by {
        forall j | 0 <= j < |t| ensures t[j] != s[0] {
          assert t[j] == s[j + 1];
        }
      }
      var head := if p(s[0]) then [s[0]] else [];
      var r := head + k;
      forall i, j | 0 <= i < j < |r| ensures r[i] != r[j] {
        if head != [] && i == 0 {
          assert r[j] == k[j - 1];
          assert k[j - 1] in k;
        } else {
          assert r[i] == k[i - |head|] && r[j] == k[j - |head|];
        }
      }
    }
  }

  /** A subset at least as large as its superset is the superset. */
  lemma SubsetOfEqualSize<T>(a: set<T>, b: set<T>)
    requires a <= b && |b| <= |a|
    ensures a == b
  {
    assert |b| == |a| + |b - a|;
  }
}
