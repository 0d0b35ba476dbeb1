/** `[...new Set(xs)].sort()` on strings: the distinct values of a list in the order
    of the default `Array.prototype.sort` comparator, which compares strings
    character code by character code. */
module SortedSet {

  /** The default sort order on strings: lexicographic on character codes,
      a proper prefix first. */
  predicate CodeLess(a: string, b: string) {
    if a == [] then b != []
    else if b == [] then false
    else if a[0] != b[0] then a[0] < b[0]
    else CodeLess(a[1..], b[1..])
  }

  lemma {:induction false} CodeLessIrreflexive(a: string)
    ensures !CodeLess(a, a)
  {
    if a != [] {
      CodeLessIrreflexive(a[1..]);
    }
  }

  lemma {:induction false} CodeLessTransitive(a: string, b: string, c: string)
    requires CodeLess(a, b) && CodeLess(b, c)
    ensures CodeLess(a, c)
  {
    if a != [] && a[0] == b[0] && b[0] == c[0] {
      CodeLessTransitive(a[1..], b[1..], c[1..]);
    }
  }

  lemma {:induction false} CodeLessTotal(a: string, b: string)
    ensures CodeLess(a, b) || a == b || CodeLess(b, a)
  {
    if a != [] && b != [] && a[0] == b[0] {
      CodeLessTotal(a[1..], b[1..]);
      assert a == [a[0]] + a[1..];
      assert b == [b[0]] + b[1..];
    }
  }

  ghost predicate StrictlySorted(s: seq<string>) {
    forall i, j :: 0 <= i < j < |s| ==> CodeLess(s[i], s[j])
  }

  /** Add `c` to an ordered list of distinct strings, keeping it so. */
  function InsertUnique(c: string, t: seq<string>): (r: seq<string>)
    ensures forall x :: x in r <==> x in t || x == c
  {
    if t == [] then [c]
    else if c == t[0] then t
    else if CodeLess(c, t[0]) then [c] + t
    else
      assert t == [t[0]] + t[1..];
      [t[0]] + InsertUnique(c, t[1..])
  }

  lemma {:induction false} InsertUniqueSorted(c: string, t: seq<string>)
    requires StrictlySorted(t)
    ensures StrictlySorted(InsertUnique(c, t))
  {
    if t == [] {
    } else if c == t[0] {
    } else if CodeLess(c, t[0]) {
      var r := [c] + t;
      forall i, j | 0 <= i < j < |r| ensures CodeLess(r[i], r[j]) {
        if i == 0 && j > 1 {
          CodeLessTransitive(c, t[0], t[j - 1]);
        }
      }
    } else {
      CodeLessTotal(c, t[0]);
      InsertUniqueSorted(c, t[1..]);
      var tail := InsertUnique(c, t[1..]);
      var r := [t[0]] + tail;
      forall j | 0 <= j < |tail| ensures CodeLess(t[0], tail[j]) {
        assert tail[j] in tail;
      }
      forall i, j | 0 <= i < j < |r| ensures CodeLess(r[i], r[j]) {
        if i > 0 {
          assert r[i] == tail[i - 1] && r[j] == tail[j - 1];
        }
      }
    }
  }

  /** `[...new Set(s)].sort()`. */
  function SortedUnique(s: seq<string>): (r: seq<string>)
    ensures forall x :: x in r <==> x in s
  {
    if s == [] then []
    else
      assert s == s[..|s| - 1] + [s[|s| - 1]];
      InsertUnique(s[|s| - 1], SortedUnique(s[..|s| - 1]))
  }

  lemma {:induction false} SortedUniqueSorted(s: seq<string>)
    ensures StrictlySorted(SortedUnique(s))
  {
    if s != [] {
      SortedUniqueSorted(s[..|s| - 1]);
      InsertUniqueSorted(s[|s| - 1], SortedUnique(s[..|s| - 1]));
    }
  }

  lemma SameMembersSameEmptiness<T>(a: seq<T>, b: seq<T>)
    requires forall x :: x in a <==> x in b
    ensures a == [] <==> b == []
  {
    if a != [] {
      assert a[0] in a;
    }
    if b != [] {
      assert b[0] in b;
    }
  }

  /** An ordered list of distinct strings is determined by its members, so the
      order in which `Set` met them does not matter. */
  lemma {:induction false} StrictlySortedUnique(a: seq<string>, b: seq<string>)
    requires StrictlySorted(a) && StrictlySorted(b)
    requires forall x :: x in a <==> x in b
    ensures a == b
  {
    SameMembersSameEmptiness(a, b);
    if a != [] {
      if a[0] != b[0] {
        assert b[0] in a && a[0] in b;
        var i :| 0 <= i < |a| && a[i] == b[0];
        var j :| 0 <= j < |b| && b[j] == a[0];
        CodeLessTransitive(a[0], b[0], a[0]);
        CodeLessIrreflexive(a[0]);
      }
      forall x ensures x in a[1..] <==> x in b[1..] {
        CodeLessIrreflexive(x);
        if x in a[1..] {
          var i :| 1 <= i < |a| && a[i] == x;
          assert x in b;
          var j :| 0 <= j < |b| && b[j] == x;
          assert j != 0;
          assert b[1..][j - 1] == x;
        }
        if x in b[1..] {
          var j :| 1 <= j < |b| && b[j] == x;
          assert x in a;
          var i :| 0 <= i < |a| && a[i] == x;
          assert i != 0;
          assert a[1..][i - 1] == x;
        }
      }
      StrictlySortedUnique(a[1..], b[1..]);
      assert a == [a[0]] + a[1..];
      assert b == [b[0]] + b[1..];
    }
  }

  /** What `[...new Set(s)].sort()` is: the members of `s`, each once, in order. */
  lemma SortedUniqueCorrect(s: seq<string>)
    ensures StrictlySorted(SortedUnique(s))
    ensures forall x :: x in SortedUnique(s) <==> x in s
    ensures forall r :: StrictlySorted(r) && (forall x :: x in r <==> x in s) ==> r == SortedUnique(s)
  {
    SortedUniqueSorted(s);
    forall r | StrictlySorted(r) && (forall x :: x in r <==> x in s) ensures r == SortedUnique(s) {
      StrictlySortedUnique(r, SortedUnique(s));
    }
  }
}
