/** Array.prototype.sort with a comparator is a stable sort.  Every comparator
    the pages pass compares a key of each element (a number, a rank, a tuple of
    ranks, a string), so the model sorts by a key of type seq<int> under
    lexicographic order, ascending or descending. */
module Sorting {

  /** Strict lexicographic order on integer sequences; a proper prefix comes first. */
  predicate LexLt(a: seq<int>, b: seq<int>)
    decreases |a|
  {
    if a == [] then b != []
    else if b == [] then false
    else if a[0] != b[0] then a[0] < b[0]
    else LexLt(a[1..], b[1..])
  }

  lemma {:induction false} LexLtIrreflexive(a: seq<int>)
    ensures !LexLt(a, a)
    decreases |a|
  {
    if a != [] { LexLtIrreflexive(a[1..]); }
  }

  lemma {:induction false} LexLtTransitive(a: seq<int>, b: seq<int>, c: seq<int>)
    requires LexLt(a, b) && LexLt(b, c)
    ensures LexLt(a, c)
    decreases |a|
  {
    if a != [] && b != [] && c != [] && a[0] == b[0] && b[0] == c[0] {
      LexLtTransitive(a[1..], b[1..], c[1..]);
    }
  }

  lemma {:induction false} LexLtTotal(a: seq<int>, b: seq<int>)
    ensures a == b || LexLt(a, b) || LexLt(b, a)
    decreases |a|
  {
    if a != [] && b != [] && a[0] == b[0] {
      LexLtTotal(a[1..], b[1..]);
      if a[1..] == b[1..] {
        assert a == [a[0]] + a[1..] && b == [b[0]] + b[1..];
      }
    }
  }

  /** The comparator's "x sorts strictly before y". */
  predicate Before<T>(key: T -> seq<int>, desc: bool, x: T, y: T)
  {
    if desc then LexLt(key(y), key(x)) else LexLt(key(x), key(y))
  }

  lemma LexNotLtTransitive(a: seq<int>, b: seq<int>, c: seq<int>)
    requires !LexLt(b, a) && !LexLt(c, b)
    ensures !LexLt(c, a)
  {
    LexLtTotal(a, b);
    LexLtTotal(b, c);
    if LexLt(c, a) {
      if a == b {
      } else if b == c {
        LexLtTransitive(c, a, b);
        LexLtIrreflexive(b);
      } else {
        LexLtTransitive(a, b, c);
        LexLtTransitive(a, c, a);
        LexLtIrreflexive(a);
      }
    }
  }

  /** "Not strictly after" is transitive: the comparator is a strict weak order. */
  lemma NotBeforeTransitive<T>(key: T -> seq<int>, desc: bool, x: T, y: T, z: T)
    requires !Before(key, desc, y, x) && !Before(key, desc, z, y)
    ensures !Before(key, desc, z, x)
  {
    if desc { LexNotLtTransitive(key(z), key(y), key(x)); }
    else { LexNotLtTransitive(key(x), key(y), key(z)); }
  }

  lemma BeforeAsymmetric<T>(key: T -> seq<int>, desc: bool, x: T, y: T)
    requires Before(key, desc, x, y)
    ensures !Before(key, desc, y, x) && key(x) != key(y)
  {
    LexLtIrreflexive(key(x));
    if Before(key, desc, y, x) {
      if desc { LexLtTransitive(key(x), key(y), key(x)); }
      else { LexLtTransitive(key(x), key(y), key(x)); }
    }
  }

  ghost predicate Sorted<T>(s: seq<T>, key: T -> seq<int>, desc: bool)
  {
    forall i, j :: 0 <= i < j < |s| ==> !Before(key, desc, s[j], s[i])
  }

  /** The elements of s whose key is k, in their order in s. */
  function KeyClass<T>(s: seq<T>, key: T -> seq<int>, k: seq<int>): seq<T>
  {
    if s == [] then [] else KeyClass(s[..|s| - 1], key, k) + (if key(s[|s| - 1]) == k then [s[|s| - 1]] else [])
  }

  /** Inserts x into a sorted list after every element it does not sort before. */
  function Insert<T>(t: seq<T>, x: T, key: T -> seq<int>, desc: bool): (r: seq<T>)
    ensures |r| == |t| + 1
    ensures multiset(r) == multiset(t) + multiset{x}
  {
    if t == [] || !Before(key, desc, x, t[|t| - 1]) then t + [x]
    else
      var init := t[..|t| - 1];
      assert t == init + [t[|t| - 1]];
      Insert(init, x, key, desc) + [t[|t| - 1]]
  }

  /** Stable sort of s by key: the model of `[...s].sort(comparator)`. */
  function SortBy<T>(s: seq<T>, key: T -> seq<int>, desc: bool): (r: seq<T>)
    ensures |r| == |s|
    ensures multiset(r) == multiset(s)
  {
    if s == [] then []
    else
      assert s == s[..|s| - 1] + [s[|s| - 1]];
      Insert(SortBy(s[..|s| - 1], key, desc), s[|s| - 1], key, desc)
  }

  lemma {:induction false} InsertSorted<T>(t: seq<T>, x: T, key: T -> seq<int>, desc: bool)
    requires Sorted(t, key, desc)
    ensures Sorted(Insert(t, x, key, desc), key, desc)
    decreases |t|
  {
    var r := Insert(t, x, key, desc);
    if t == [] {
    } else if !Before(key, desc, x, t[|t| - 1]) {
      var last := t[|t| - 1];
      forall i, j | 0 <= i < j < |r| ensures !Before(key, desc, r[j], r[i]) {
        if j == |t| {
          if i < |t| - 1 { NotBeforeTransitive(key, desc, t[i], last, x); }
        }
      }
    } else {
      var init, last := t[..|t| - 1], t[|t| - 1];
      assert Sorted(init, key, desc);
      InsertSorted(init, x, key, desc);
      var ri := Insert(init, x, key, desc);
      assert r == ri + [last];
      forall i, j | 0 <= i < j < |r| ensures !Before(key, desc, r[j], r[i]) {
        if j == |ri| {
          var y := ri[i];
          assert y in multiset(ri);
          if y == x {
            BeforeAsymmetric(key, desc, x, last);
          } else {
            assert y in multiset(init);
            var k :| 0 <= k < |init| && init[k] == y;
            assert t[k] == y;
          }
        }
      }
    }
  }

  lemma {:induction false} SortBySorted<T>(s: seq<T>, key: T -> seq<int>, desc: bool)
    ensures Sorted(SortBy(s, key, desc), key, desc)
    decreases |s|
  {
    if s != [] {
      SortBySorted(s[..|s| - 1], key, desc);
      InsertSorted(SortBy(s[..|s| - 1], key, desc), s[|s| - 1], key, desc);
    }
  }

  lemma {:induction false} KeyClassAppend<T>(s: seq<T>, x: T, key: T -> seq<int>, k: seq<int>)
    ensures KeyClass(s + [x], key, k) == KeyClass(s, key, k) + (if key(x) == k then [x] else [])
  {
    assert (s + [x])[..|s + [x]| - 1] == s;
  }

  lemma {:induction false} InsertStable<T>(t: seq<T>, x: T, key: T -> seq<int>, desc: bool, k: seq<int>)
    requires Sorted(t, key, desc)
    ensures KeyClass(Insert(t, x, key, desc), key, k) == KeyClass(t, key, k) + (if key(x) == k then [x] else [])
    decreases |t|
  {
    if t == [] || !Before(key, desc, x, t[|t| - 1]) {
      KeyClassAppend(t, x, key, k);
    } else {
      var init, last := t[..|t| - 1], t[|t| - 1];
      assert t == init + [last];
      InsertStable(init, x, key, desc, k);
      KeyClassAppend(Insert(init, x, key, desc), last, key, k);
      KeyClassAppend(init, last, key, k);
      BeforeAsymmetric(key, desc, x, last);
    }
  }

  /** Elements with equal keys keep their relative order. */
  lemma {:induction false} SortByStable<T>(s: seq<T>, key: T -> seq<int>, desc: bool, k: seq<int>)
    ensures KeyClass(SortBy(s, key, desc), key, k) == KeyClass(s, key, k)
    decreases |s|
  {
    if s != [] {
      var init, last := s[..|s| - 1], s[|s| - 1];
      SortByStable(init, key, desc, k);
      SortBySorted(init, key, desc);
      InsertStable(SortBy(init, key, desc), last, key, desc, k);
    }
  }

  /** Everything the pages rely on about a sort, in one place. */
  lemma SortByCorrect<T>(s: seq<T>, key: T -> seq<int>, desc: bool)
    ensures Sorted(SortBy(s, key, desc), key, desc)
    ensures multiset(SortBy(s, key, desc)) == multiset(s)
    ensures forall k :: KeyClass(SortBy(s, key, desc), key, k) == KeyClass(s, key, k)
  {
    SortBySorted(s, key, desc);
    forall k ensures KeyClass(SortBy(s, key, desc), key, k) == KeyClass(s, key, k) {
      SortByStable(s, key, desc, k);
    }
  }

  /** A single-integer ascending key orders by that integer. */
  lemma SingletonKey(a: int, b: int)
    ensures LexLt([a], [b]) <==> a < b
  {
    assert [a][1..] == [] && [b][1..] == [];
  }
}
