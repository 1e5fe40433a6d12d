/** Shared vocabulary of the pages: optional values, JavaScript numbers,
    Math.round on ratios, list filters, duplicate-free lists, toggles and
    the little string helpers (decimal printing, padStart, trim, string order). */
module Common {

  datatype Option<T> = None | Some(value: T)

  /** A JavaScript number as far as the pages care: either not finite
      (NaN or an infinity) or a finite value. */
  datatype JsNumber = NonFinite | Finite(value: real)

  datatype Result<T, E> = Ok(value: T) | Err(error: E)

  // ---------------------------------------------------------------------
  // Rounding

  /** Math.round(a / b) for b > 0: the integer nearest to a/b, halves rounded up. */
  function RoundDiv(a: int, b: int): (r: int)
    requires b > 0
    ensures b * (2 * r - 1) <= 2 * a < b * (2 * r + 1)
  {
    var q := (2 * a + b) / (2 * b);
    assert (2 * b) * q <= 2 * a + b < (2 * b) * q + 2 * b;
    q
  }

  /** Math.round(x) for a finite x: floor(x + 1/2). */
  function RoundReal(x: real): (r: int)
    ensures r as real <= x + 0.5 < r as real + 1.0
  {
    (x + 0.5).Floor
  }

  lemma MulMonotone(b: int, x: int, y: int)
    requires b > 0 && x <= y
    ensures b * x <= b * y
  {
    assert b * y - b * x == b * (y - x);
  }

  lemma Distribute(b: int, r: int)
    ensures b * (2 * r - 1) == 2 * (b * r) - b
    ensures b * (2 * r + 1) == 2 * (b * r) + b
    ensures b * (r + 1) == b * r + b
  {
  }

  /** The rounded ratio lies between any two integer bounds of the exact ratio. */
  lemma RoundDivBetween(a: int, b: int, lo: int, hi: int)
    requires b > 0 && b * lo <= a <= b * hi
    ensures lo <= RoundDiv(a, b) <= hi
  {
    var r := RoundDiv(a, b);
    Distribute(b, r);
    Distribute(b, r - 1);
    if r < lo {
      MulMonotone(b, r + 1, lo);
    }
    if r > hi {
      MulMonotone(b, hi, r - 1);
    }
  }

  /** Math.round(done / total * 100), the progress percentage the pages show. */
  function Percent(done: nat, total: nat): (r: int)
    requires total > 0
    ensures done <= total ==> 0 <= r <= 100
    ensures done == 0 ==> r == 0
    ensures done == total ==> r == 100
  {
    if done <= total then PercentBounds(done, total); RoundDiv(100 * done, total)
    else RoundDiv(100 * done, total)
  }

  lemma PercentBounds(done: nat, total: nat)
    requires 0 < total && done <= total
    ensures 0 <= RoundDiv(100 * done, total) <= 100
    ensures done == 0 ==> RoundDiv(100 * done, total) == 0
    ensures done == total ==> RoundDiv(100 * done, total) == 100
  {
    MulMonotone(total, done, total);
    assert total * 100 == 100 * total;
    assert total * 0 == 0;
    RoundDivBetween(100 * done, total, 0, 100);
    if done == total { RoundDivBetween(100 * done, total, 100, 100); }
    if done == 0 { RoundDivBetween(0, total, 0, 0); }
  }

  /** Half-up rounding is monotone in the numerator. */
  lemma RoundDivMonotone(a1: int, a2: int, b: int)
    requires b > 0 && a1 <= a2
    ensures RoundDiv(a1, b) <= RoundDiv(a2, b)
  {
    var r1, r2 := RoundDiv(a1, b), RoundDiv(a2, b);
    assert b * (2 * r1 - 1) < b * (2 * r2 + 1);
  }

  lemma PercentMonotone(d1: nat, d2: nat, total: nat)
    requires total > 0 && d1 <= d2
    ensures Percent(d1, total) <= Percent(d2, total)
  {
    RoundDivMonotone(100 * d1, 100 * d2, total);
  }

  function Min(a: int, b: int): int { if a <= b then a else b }
  function Max(a: int, b: int): int { if a >= b then a else b }

  // ---------------------------------------------------------------------
  // Array.prototype.filter and the `filter(...).length` counts

  function Filter<T>(s: seq<T>, p: T -> bool): (r: seq<T>)
    ensures |r| <= |s|
    ensures forall x :: x in r ==> x in s && p(x)
    ensures forall x :: x in s && p(x) ==> x in r
  {
    if s == [] then [] else (if p(s[0]) then [s[0]] else []) + Filter(s[1..], p)
  }

  function Count<T>(s: seq<T>, p: T -> bool): (n: nat)
    ensures n <= |s|
  {
    if s == [] then 0 else (if p(s[0]) then 1 else 0) + Count(s[1..], p)
  }

  lemma {:induction false} FilterCount<T>(s: seq<T>, p: T -> bool)
    ensures |Filter(s, p)| == Count(s, p)
  {
    if s != [] { FilterCount(s[1..], p); }
  }

  lemma {:induction false} FilterAppend<T>(a: seq<T>, b: seq<T>, p: T -> bool)
    ensures Filter(a + b, p) == Filter(a, p) + Filter(b, p)
  {
    if a == [] {
      assert a + b == b;
    } else {
      assert (a + b)[1..] == a[1..] + b;
      FilterAppend(a[1..], b, p);
    }
  }

  lemma {:induction false} CountAppend<T>(a: seq<T>, b: seq<T>, p: T -> bool)
    ensures Count(a + b, p) == Count(a, p) + Count(b, p)
  {
    if a == [] {
      assert a + b == b;
    } else {
      assert (a + b)[1..] == a[1..] + b;
      CountAppend(a[1..], b, p);
    }
  }

  /** Filtering keeps the order: the result is a subsequence of the input. */
  lemma {:induction false} FilterAll<T>(s: seq<T>, p: T -> bool)
    requires forall i :: 0 <= i < |s| ==> p(s[i])
    ensures Filter(s, p) == s
  {
    if s != [] { FilterAll(s[1..], p); }
  }

  /** Filtering keeps the order: a rank that increases along s increases along the result. */
  lemma {:induction false} FilterIncreasing<T>(s: seq<T>, p: T -> bool, rank: T -> int)
    requires forall i, j :: 0 <= i < j < |s| ==> rank(s[i]) < rank(s[j])
    ensures forall i, j :: 0 <= i < j < |Filter(s, p)| ==> rank(Filter(s, p)[i]) < rank(Filter(s, p)[j])
  {
    if s != [] {
      var tail := s[1..];
      FilterIncreasing(tail, p, rank);
      var ft := Filter(tail, p);
      assert forall x :: x in ft ==> rank(s[0]) < rank(x) by {
        forall x | x in ft ensures rank(s[0]) < rank(x) {
          var k :| 0 <= k < |tail| && tail[k] == x;
          assert s[k + 1] == x;
        }
      }
      if p(s[0]) {
        var r := Filter(s, p);
        assert r == [s[0]] + ft;
        forall i, j | 0 <= i < j < |r| ensures rank(r[i]) < rank(r[j]) {
          if i == 0 { assert r[j] == ft[j - 1]; assert r[j] in ft; }
          else { assert r[i] == ft[i - 1] && r[j] == ft[j - 1]; }
        }
      }
    }
  }

  lemma {:induction false} CountAll<T>(s: seq<T>, p: T -> bool)
    requires forall i :: 0 <= i < |s| ==> p(s[i])
    ensures Count(s, p) == |s|
  {
    FilterAll(s, p);
    FilterCount(s, p);
  }

  lemma {:induction false} CountNone<T>(s: seq<T>, p: T -> bool)
    requires forall i :: 0 <= i < |s| ==> !p(s[i])
    ensures Count(s, p) == 0
  {
    if s != [] {
      assert forall i :: 0 <= i < |s[1..]| ==> s[1..][i] == s[i + 1];
      CountNone(s[1..], p);
    }
  }

  /** A weaker predicate counts at least as many elements. */
  lemma {:induction false} CountMonotone<T>(s: seq<T>, p: T -> bool, q: T -> bool)
    requires forall i :: 0 <= i < |s| ==> p(s[i]) ==> q(s[i])
    ensures Count(s, p) <= Count(s, q)
  {
    if s != [] {
      assert forall i :: 0 <= i < |s[1..]| ==> s[1..][i] == s[i + 1];
      CountMonotone(s[1..], p, q);
    }
  }

  /** Two predicates that never hold together count at most |s| together. */
  lemma {:induction false} CountDisjoint<T>(s: seq<T>, p: T -> bool, q: T -> bool)
    requires forall x :: !(p(x) && q(x))
    ensures Count(s, p) + Count(s, q) <= |s|
  {
    if s != [] { CountDisjoint(s[1..], p, q); }
  }

  /** Three predicates of which exactly one holds for every element partition the count. */
  lemma {:induction false} CountPartition3<T>(s: seq<T>, p: T -> bool, q: T -> bool, u: T -> bool)
    requires forall i :: 0 <= i < |s| ==>
      (if p(s[i]) then 1 else 0) + (if q(s[i]) then 1 else 0) + (if u(s[i]) then 1 else 0) == 1
    ensures Count(s, p) + Count(s, q) + Count(s, u) == |s|
  {
    if s != [] {
      assert forall i :: 0 <= i < |s[1..]| ==> s[1..][i] == s[i + 1];
      CountPartition3(s[1..], p, q, u);
    }
  }

  // ---------------------------------------------------------------------
  // `reduce((sum, x) => sum + f(x), 0)`

  function SumBy<T>(s: seq<T>, f: T -> int): int
  {
    if s == [] then 0 else f(s[0]) + SumBy(s[1..], f)
  }

  lemma {:induction false} SumByAppend<T>(a: seq<T>, b: seq<T>, f: T -> int)
    ensures SumBy(a + b, f) == SumBy(a, f) + SumBy(b, f)
  {
    if a == [] {
      assert a + b == b;
    } else {
      assert (a + b)[1..] == a[1..] + b;
      SumByAppend(a[1..], b, f);
    }
  }

  /** A sum does not depend on the order of its terms. */
  lemma {:induction false} SumByPermutation<T>(a: seq<T>, b: seq<T>, f: T -> int)
    requires multiset(a) == multiset(b)
    ensures SumBy(a, f) == SumBy(b, f)
    decreases |a|
  {
    if a == [] {
      assert |b| == |multiset(b)| == 0;
    } else {
      var x := a[0];
      assert x in multiset(b);
      var k :| 0 <= k < |b| && b[k] == x;
      var rest := b[..k] + b[k + 1..];
      assert b == b[..k] + [x] + b[k + 1..];
      assert a == [x] + a[1..];
      assert multiset(b) == multiset(b[..k]) + multiset{x} + multiset(b[k + 1..]);
      assert multiset(rest) == multiset(b[..k]) + multiset(b[k + 1..]);
      assert multiset(a) == multiset{x} + multiset(a[1..]);
      assert multiset(rest) == multiset(b) - multiset{x};
      assert multiset(a[1..]) == multiset(a) - multiset{x};
      SumByPermutation(a[1..], rest, f);
      SumByAppend(b[..k] + [x], b[k + 1..], f);
      SumByAppend(b[..k], [x], f);
      SumByAppend(b[..k], b[k + 1..], f);
    }
  }

  // ---------------------------------------------------------------------
  // Duplicate-free lists

  ghost predicate NoDup<T>(s: seq<T>)
  {
    forall i, j :: 0 <= i < j < |s| ==> s[i] != s[j]
  }

  /** Adds the elements of s to acc in order, skipping those already present:
      what `new Set(acc)` followed by `add` of every element of s holds, in
      insertion order. */
  function AddAll<T(==)>(acc: seq<T>, s: seq<T>): (r: seq<T>)
    ensures |acc| <= |r|
    ensures r[..|acc|] == acc
    decreases |s|
  {
    if s == [] then acc else AddAll(if s[0] in acc then acc else acc + [s[0]], s[1..])
  }

  /** Array.from(new Set(s)): s with every repeat dropped, first occurrences kept. */
  function Dedup<T(==)>(s: seq<T>): seq<T>
  {
    AddAll([], s)
  }

  lemma {:induction false} AddAllProps<T>(acc: seq<T>, s: seq<T>)
    requires NoDup(acc)
    ensures NoDup(AddAll(acc, s))
    ensures forall x :: x in AddAll(acc, s) <==> x in acc || x in s
    decreases |s|
  {
    if s != [] {
      var acc' := if s[0] in acc then acc else acc + [s[0]];
      assert NoDup(acc');
      AddAllProps(acc', s[1..]);
      assert forall x :: x in s <==> x == s[0] || x in s[1..] by {
        assert s == [s[0]] + s[1..];
      }
    }
  }

  /** Adding elements that are all new and distinct appends them unchanged. */
  lemma {:induction false} AddAllFresh<T>(acc: seq<T>, s: seq<T>)
    requires NoDup(s)
    requires forall x :: x in s ==> x !in acc
    ensures AddAll(acc, s) == acc + s
    decreases |s|
  {
    if s != [] {
      assert s[0] !in acc;
      assert forall x :: x in s[1..] ==> x !in acc + [s[0]] by {
        forall x | x in s[1..] ensures x !in acc + [s[0]] {
          var i :| 1 <= i < |s| && s[i] == x;
        }
      }
      AddAllFresh(acc + [s[0]], s[1..]);
      assert acc + [s[0]] + s[1..] == acc + s;
    }
  }

  lemma DedupProps<T>(s: seq<T>)
    ensures NoDup(Dedup(s))
    ensures forall x :: x in Dedup(s) <==> x in s
  {
    AddAllProps([], s);
  }

  /** A list that already has no repeats is its own Dedup. */
  lemma DedupOfNoDup<T>(s: seq<T>)
    requires NoDup(s)
    ensures Dedup(s) == s
  {
    AddAllFresh([], s);
  }

  lemma {:induction false} AddAllLength<T>(acc: seq<T>, s: seq<T>)
    requires NoDup(acc)
    ensures |AddAll(acc, s)| <= |acc| + |s|
    ensures |AddAll(acc, s)| == |acc| + |s| ==> NoDup(acc + s)
    decreases |s|
  {
    if s == [] {
      assert acc + s == acc;
    } else if s[0] in acc {
      AddAllLength(acc, s[1..]);
    } else {
      var acc' := acc + [s[0]];
      assert NoDup(acc');
      AddAllLength(acc', s[1..]);
      assert acc' + s[1..] == acc + s;
    }
  }

  /** `new Set(s).size === s.length` exactly when s has no repeats. */
  lemma DedupLength<T>(s: seq<T>)
    ensures |Dedup(s)| == |s| <==> NoDup(s)
  {
    AddAllLength([], s);
    assert [] + s == s;
    if NoDup(s) { DedupOfNoDup(s); }
  }

  /** In a list without repeats every value occurs at most once. */
  lemma {:induction false} NoDupMultiplicity<T>(s: seq<T>)
    requires NoDup(s)
    ensures forall x :: multiset(s)[x] <= 1
  {
    if s != [] {
      var init := s[..|s| - 1];
      assert s == init + [s[|s| - 1]];
      assert NoDup(init);
      NoDupMultiplicity(init);
      assert s[|s| - 1] !in init;
    }
  }

  /** A list in which every value occurs at most once has no repeats. */
  lemma MultiplicityNoDup<T>(s: seq<T>)
    requires forall x :: multiset(s)[x] <= 1
    ensures NoDup(s)
  {
    forall i, j | 0 <= i < j < |s| ensures s[i] != s[j] {
      assert s == s[..j] + s[j..];
      assert s[i] in multiset(s[..j]);
      assert s[j] in multiset(s[j..]);
      assert multiset(s)[s[j]] == multiset(s[..j])[s[j]] + multiset(s[j..])[s[j]];
    }
  }

  /** AddAll of a concatenation is AddAll of the parts, one after the other. */
  lemma {:induction false} AddAllAppend<T>(acc: seq<T>, a: seq<T>, b: seq<T>)
    ensures AddAll(acc, a + b) == AddAll(AddAll(acc, a), b)
    decreases |a|
  {
    if a == [] {
      assert a + b == b;
    } else {
      assert (a + b)[0] == a[0];
      assert (a + b)[1..] == a[1..] + b;
      AddAllAppend(if a[0] in acc then acc else acc + [a[0]], a[1..], b);
    }
  }

  // ---------------------------------------------------------------------
  // Toggling membership: `prev.includes(x) ? prev.filter(v => v !== x) : [...prev, x]`

  function Remove<T(==)>(s: seq<T>, x: T): (r: seq<T>)
    ensures |r| <= |s|
    ensures forall y :: y in r ==> y in s && y != x
    ensures forall y :: y in s && y != x ==> y in r
    ensures x !in s ==> r == s
  {
    if s == [] then [] else (if s[0] == x then [] else [s[0]]) + Remove(s[1..], x)
  }

  function Toggle<T(==)>(s: seq<T>, x: T): (r: seq<T>)
    ensures x in s ==> x !in r
    ensures x !in s ==> r == s + [x]
    ensures forall y :: y in r ==> y in s || y == x
    ensures forall y :: y in s && y != x ==> y in r
  {
    if x in s then Remove(s, x) else s + [x]
  }

  lemma {:induction false} RemoveNoDup<T>(s: seq<T>, x: T)
    requires NoDup(s)
    ensures NoDup(Remove(s, x))
  {
    if s != [] {
      RemoveNoDup(s[1..], x);
      assert forall k :: 0 <= k < |s[1..]| ==> s[1..][k] != s[0] by {
        forall k | 0 <= k < |s[1..]| ensures s[1..][k] != s[0] { assert s[1..][k] == s[k + 1]; }
      }
      var rest := Remove(s[1..], x);
      assert s[0] !in rest;
      var head: seq<T> := if s[0] == x then [] else [s[0]];
      assert Remove(s, x) == head + rest;
      forall i, j | 0 <= i < j < |head + rest| ensures (head + rest)[i] != (head + rest)[j] {
        if i < |head| { assert (head + rest)[j] == rest[j - |head|]; assert rest[j - |head|] in rest; }
      }
    }
  }

  /** Removing an element that is not there changes nothing; removing one that
      occurs once and is appended last gives back the prefix. */
  lemma {:induction false} RemoveAppended<T>(s: seq<T>, x: T)
    requires x !in s
    ensures Remove(s + [x], x) == s
  {
    if s == [] {
      assert Remove([x], x) == [] + Remove([x][1..], x);
    } else {
      assert (s + [x])[1..] == s[1..] + [x];
      RemoveAppended(s[1..], x);
    }
  }

  /** Toggling keeps a list free of repeats. */
  lemma ToggleNoDup<T>(s: seq<T>, x: T)
    requires NoDup(s)
    ensures NoDup(Toggle(s, x))
  {
    if x in s { RemoveNoDup(s, x); }
  }

  /** Toggling an absent value twice restores the list exactly; toggling a present
      value twice restores its membership (the value moves to the end). */
  lemma ToggleTwice<T>(s: seq<T>, x: T)
    ensures x !in s ==> Toggle(Toggle(s, x), x) == s
    ensures forall y :: y in Toggle(Toggle(s, x), x) ==> y in s
    ensures forall y :: y in s ==> y in Toggle(Toggle(s, x), x)
  {
    if x !in s { RemoveAppended(s, x); }
  }

  // ---------------------------------------------------------------------
  // Numbers as text

  function DigitChar(d: nat): char
    requires d < 10
  {
    "0123456789"[d]
  }

  predicate IsDigit(c: char) { '0' <= c <= '9' }

  function DigitValue(c: char): nat
    requires IsDigit(c)
  {
    (c as int - '0' as int) as nat
  }

  /** The decimal digits of n, as String(n) prints it (no leading zeros). */
  function NatToString(n: nat): (s: string)
    ensures |s| >= 1
    ensures forall i :: 0 <= i < |s| ==> IsDigit(s[i])
    ensures n < 10 <==> |s| == 1
    decreases n
  {
    if n < 10 then [DigitChar(n)] else NatToString(n / 10) + [DigitChar(n % 10)]
  }

  /** String(i) for an integer. */
  function IntToString(i: int): string
  {
    if i < 0 then "-" + NatToString(-i) else NatToString(i)
  }

  /** The value of a non-empty run of decimal digits. */
  function ParseNat(s: string): nat
    requires forall i :: 0 <= i < |s| ==> IsDigit(s[i])
    decreases |s|
  {
    if s == [] then 0 else 10 * ParseNat(s[..|s| - 1]) + DigitValue(s[|s| - 1])
  }

  lemma {:induction false} ParseNatToString(n: nat)
    ensures ParseNat(NatToString(n)) == n
    decreases n
  {
    if n >= 10 {
      var s := NatToString(n);
      assert s[..|s| - 1] == NatToString(n / 10);
      ParseNatToString(n / 10);
    }
  }

  /** String(n).padStart(2, '0'). */
  function Pad2(n: nat): (s: string)
    ensures forall i :: 0 <= i < |s| ==> IsDigit(s[i])
    ensures n < 100 ==> |s| == 2
  {
    if n < 10 then "0" + NatToString(n) else NatToString(n)
  }

  /** Pad2 is read back as the same number. */
  lemma Pad2Parse(n: nat)
    ensures ParseNat(Pad2(n)) == n
  {
    ParseNatToString(n);
    if n < 10 {
      var s := Pad2(n);
      assert s[..|s| - 1] == "0";
      assert ParseNat("0") == 0 by { assert "0"[..0] == []; }
    }
  }

  // ---------------------------------------------------------------------
  // Strings

  /** JavaScript's `<` on strings (code-unit order): lexicographic, a proper
      prefix before its extensions. */
  predicate StrLt(a: string, b: string)
    decreases |a|
  {
    if a == [] then b != []
    else if b == [] then false
    else if a[0] != b[0] then a[0] < b[0]
    else StrLt(a[1..], b[1..])
  }

  predicate StrLe(a: string, b: string) { a == b || StrLt(a, b) }

  lemma {:induction false} StrLtIrreflexive(a: string)
    ensures !StrLt(a, a)
    decreases |a|
  {
    if a != [] { StrLtIrreflexive(a[1..]); }
  }

  lemma {:induction false} StrLtTransitive(a: string, b: string, c: string)
    requires StrLt(a, b) && StrLt(b, c)
    ensures StrLt(a, c)
    decreases |a|
  {
    if a != [] && b != [] && c != [] && a[0] == b[0] && b[0] == c[0] {
      StrLtTransitive(a[1..], b[1..], c[1..]);
    }
  }

  lemma {:induction false} StrLtTotal(a: string, b: string)
    ensures a == b || StrLt(a, b) || StrLt(b, a)
    decreases |a|
  {
    if a != [] && b != [] && a[0] == b[0] {
      StrLtTotal(a[1..], b[1..]);
      if a[1..] == b[1..] {
        assert a == [a[0]] + a[1..] && b == [b[0]] + b[1..];
      }
    }
  }

  /** A zero-padded "HH:MM" clock string (the hour may be 24 or more). */
  predicate IsClock(s: string)
  {
    |s| == 5 && IsDigit(s[0]) && IsDigit(s[1]) && s[2] == ':' && IsDigit(s[3]) && IsDigit(s[4])
    && DigitValue(s[3]) < 6
  }

  function ClockHour(s: string): nat
    requires IsClock(s)
  {
    ParseNat(s[..2])
  }

  function ClockMinute(s: string): nat
    requires IsClock(s)
  {
    ParseNat(s[3..])
  }

  /** Minutes since midnight. */
  function ClockMinutes(s: string): nat
    requires IsClock(s)
  {
    60 * ClockHour(s) + ClockMinute(s)
  }

  lemma ParseTwoDigits(t: string)
    requires |t| == 2 && IsDigit(t[0]) && IsDigit(t[1])
    ensures ParseNat(t) == 10 * DigitValue(t[0]) + DigitValue(t[1])
  {
    assert t[..1] == [t[0]];
    assert [t[0]][..0] == [];
    assert ParseNat([t[0]]) == DigitValue(t[0]);
  }

  lemma ClockDigits(s: string)
    requires IsClock(s)
    ensures ClockHour(s) == 10 * DigitValue(s[0]) + DigitValue(s[1])
    ensures ClockMinute(s) == 10 * DigitValue(s[3]) + DigitValue(s[4]) < 60
  {
    ParseTwoDigits(s[..2]);
    ParseTwoDigits(s[3..]);
  }

  /** On clock strings the string order is the order of the times. */
  lemma ClockOrder(a: string, b: string)
    requires IsClock(a) && IsClock(b)
    ensures StrLt(a, b) <==> ClockMinutes(a) < ClockMinutes(b)
    ensures a == b <==> ClockMinutes(a) == ClockMinutes(b)
  {
    ClockDigits(a);
    ClockDigits(b);
    assert a[1..][1..] == a[2..] && b[1..][1..] == b[2..];
    assert a[2..][1..] == a[3..] && b[2..][1..] == b[3..];
    assert a[3..][1..] == a[4..] && b[3..][1..] == b[4..];
    assert a[4..][1..] == [] && b[4..][1..] == [];
    assert StrLt(a[4..], b[4..]) <==> a[4] < b[4];
    assert StrLt(a[3..], b[3..]) <==> a[3] < b[3] || (a[3] == b[3] && a[4] < b[4]);
    assert StrLt(a[2..], b[2..]) <==> StrLt(a[3..], b[3..]);
    assert StrLt(a[1..], b[1..]) <==> a[1] < b[1] || (a[1] == b[1] && StrLt(a[2..], b[2..]));
    assert StrLt(a, b) <==> a[0] < b[0] || (a[0] == b[0] && StrLt(a[1..], b[1..]));
    if a[0] == b[0] && a[1] == b[1] && a[3] == b[3] && a[4] == b[4] {
      assert a == b;
    }
  }

  /** The white-space and line-terminator characters of JavaScript's `\s` and `trim`. */
  predicate IsSpace(c: char)
  {
    c == ' ' || c == '\t' || c == '\n' || c == '\r' || c == '\U{000B}' || c == '\U{000C}'
    || c == '\U{00A0}' || c == '\U{1680}' || ('\U{2000}' <= c <= '\U{200A}')
    || c == '\U{2028}' || c == '\U{2029}' || c == '\U{202F}' || c == '\U{205F}'
    || c == '\U{3000}' || c == '\U{FEFF}'
  }

  function TrimStart(s: string): (r: string)
    ensures |r| <= |s|
    ensures r != [] ==> !IsSpace(r[0])
    decreases |s|
  {
    if s != [] && IsSpace(s[0]) then TrimStart(s[1..]) else s
  }

  function TrimEnd(s: string): (r: string)
    ensures |r| <= |s|
    ensures r != [] ==> !IsSpace(r[|r| - 1])
    decreases |s|
  {
    if s != [] && IsSpace(s[|s| - 1]) then TrimEnd(s[..|s| - 1]) else s
  }

  /** String.prototype.trim. */
  function Trim(s: string): (r: string)
    ensures r != [] ==> !IsSpace(r[0]) && !IsSpace(r[|r| - 1])
  {
    var t := TrimStart(s);
    if t == [] then t else TrimEndKeepsFirst(t); TrimEnd(t)
  }

  lemma {:induction false} TrimEndKeepsFirst(s: string)
    requires s != [] && !IsSpace(s[0])
    ensures TrimEnd(s) != [] && TrimEnd(s)[0] == s[0]
    decreases |s|
  {
    if IsSpace(s[|s| - 1]) { TrimEndKeepsFirst(s[..|s| - 1]); }
  }

  /** `s.includes(q)`: q occurs in s as a contiguous part. */
  predicate Contains(s: string, q: string)
  {
    exists i :: 0 <= i <= |s| && OccursAt(s, q, i)
  }

  predicate OccursAt(s: string, q: string, i: int)
  {
    0 <= i <= |s| - |q| && s[i..i + |q|] == q
  }

  lemma ContainsEmpty(s: string)
    ensures Contains(s, "")
  {
    assert OccursAt(s, "", 0);
  }
}
