/**
 * The array operations the dashboard's views compose: `filter`, a stable
 * descending sort by a numeric key (`sort((a, b) => key(b) - key(a))`),
 * de-duplication through a `Set` (first occurrences, in order) and the
 * default `sort()` of strings (code-point order).
 */
module Lists {

  /** `s.filter(p)`. */
  function Filter<T(!new)>(s: seq<T>, p: T -> bool): (r: seq<T>)
    ensures |r| <= |s|
    ensures forall x :: x in r <==> x in s && p(x)
  {
    if s == [] then [] else (if p(s[0]) then [s[0]] else []) + Filter(s[1..], p)
  }

  /** `filter` keeps each element that passes as often as it occurs, and nothing else. */
  lemma {:induction false} FilterCounts<T(!new)>(s: seq<T>, p: T -> bool)
    ensures forall x :: multiset(Filter(s, p))[x] == if p(x) then multiset(s)[x] else 0
  {
    if s != [] {
      FilterCounts(s[1..], p);
      assert s == [s[0]] + s[1..];
      FilterUnfold(s, p);
    }
  }

  /** Filtering keeps order: filtering two lists one after the other is filtering their concatenation. */
  lemma {:induction false} FilterAppend<T(!new)>(a: seq<T>, b: seq<T>, p: T -> bool)
    ensures Filter(a + b, p) == Filter(a, p) + Filter(b, p)
  {
    if a == [] {
      assert a + b == b;
    } else {
      var head := if p(a[0]) then [a[0]] else [];
      var ab := a + b;
      assert ab[0] == a[0] && ab[1..] == a[1..] + b;
      FilterUnfold(ab, p);
      FilterUnfold(a, p);
      FilterAppend(a[1..], b, p);
      calc {
        Filter(ab, p);
        head + Filter(a[1..] + b, p);
        head + (Filter(a[1..], p) + Filter(b, p));
        { ConcatAssoc(head, Filter(a[1..], p), Filter(b, p)); }
        (head + Filter(a[1..], p)) + Filter(b, p);
        Filter(a, p) + Filter(b, p);
      }
    }
  }

  lemma ConcatAssoc<T>(x: seq<T>, y: seq<T>, z: seq<T>)
    ensures x + (y + z) == (x + y) + z
  {
  }

  /** One step of `Filter` on a non-empty list. */
  lemma FilterUnfold<T(!new)>(s: seq<T>, p: T -> bool)
    requires s != []
    ensures Filter(s, p) == (if p(s[0]) then [s[0]] else []) + Filter(s[1..], p)
  {
  }

  predicate SortedDescBy<T>(s: seq<T>, key: T -> int)
  {
    forall i, j :: 0 <= i < j < |s| ==> key(s[i]) >= key(s[j])
  }

  /**
   * Inserts `x` in front of the first element whose key is not above its
   * own, so that `x` stays ahead of the equal keys that followed it.
   */
  function InsertDesc<T>(x: T, s: seq<T>, key: T -> int): (r: seq<T>)
    requires SortedDescBy(s, key)
    ensures multiset(r) == multiset(s) + multiset{x}
    ensures SortedDescBy(r, key)
  {
    if s == [] || key(s[0]) <= key(x) then [x] + s
    else
      var rest := InsertDesc(x, s[1..], key);
      InsertDescStep(x, s, rest, key);
      [s[0]] + rest
  }

  lemma InsertDescStep<T>(x: T, s: seq<T>, rest: seq<T>, key: T -> int)
    requires s != [] && key(s[0]) > key(x) && SortedDescBy(s, key)
    requires multiset(rest) == multiset(s[1..]) + multiset{x} && SortedDescBy(rest, key)
    ensures multiset([s[0]] + rest) == multiset(s) + multiset{x}
    ensures SortedDescBy([s[0]] + rest, key)
  {
    assert s == [s[0]] + s[1..];
    forall k | 0 <= k < |rest| ensures key(s[0]) >= key(rest[k]) {
      assert rest[k] in multiset(rest);
      if rest[k] != x {
        assert rest[k] in s[1..];
      }
    }
  }

  /** `s.slice().sort((a, b) => key(b) - key(a))`: a permutation of `s` in descending key order. */
  function SortDescBy<T>(s: seq<T>, key: T -> int): (r: seq<T>)
    ensures |r| == |s|
    ensures multiset(r) == multiset(s)
    ensures SortedDescBy(r, key)
  {
    if s == [] then []
    else
      var r := InsertDesc(s[0], SortDescBy(s[1..], key), key);
      assert s == [s[0]] + s[1..];
      assert |r| == |multiset(r)|;
      r
  }

  /** A sequence in which no value occurs twice. */
  predicate NoDups<T(==)>(s: seq<T>)
  {
    forall i, j :: 0 <= i < j < |s| ==> s[i] != s[j]
  }

  /** `[...new Set(s)]`: each value of `s` once, in order of first occurrence. */
  function Distinct<T(==,!new)>(s: seq<T>): (r: seq<T>)
    ensures forall x :: x in r <==> x in s
    ensures NoDups(r)
    ensures |r| <= |s|
  {
    if s == [] then []
    else
      var d := Distinct(s[..|s| - 1]);
      assert s == s[..|s| - 1] + [s[|s| - 1]];
      if s[|s| - 1] in d then d else d + [s[|s| - 1]]
  }

  /** The first occurrence order: a value seen earlier in `s` comes earlier in `Distinct(s)`. */
  lemma {:induction false} DistinctKeepsPrefix<T(!new)>(s: seq<T>, k: nat)
    requires k <= |s|
    ensures Distinct(s[..k]) <= Distinct(s)
    decreases |s| - k
  {
    if k < |s| {
      DistinctKeepsPrefix(s, k + 1);
      assert s[..k + 1][..k] == s[..k];
    } else {
      assert s[..k] == s;
    }
  }

  /** The values of a sequence, as a set (`new Set(s)`). */
  function Elements<T>(s: seq<T>): set<T>
  {
    set x | x in s
  }

  /** Without duplicates, a sequence has as many values as positions. */
  lemma {:induction false} NoDupsCard<T>(s: seq<T>)
    requires NoDups(s)
    ensures |Elements(s)| == |s|
  {
    if s != [] {
      NoDupsCard(s[1..]);
      assert Elements(s) == {s[0]} + Elements(s[1..]);
      assert s[0] !in Elements(s[1..]);
    }
  }

  /** A sequence never has more values than positions. */
  lemma {:induction false} CardBound<T>(s: seq<T>)
    ensures |Elements(s)| <= |s|
  {
    if s != [] {
      CardBound(s[1..]);
      assert Elements(s) == {s[0]} + Elements(s[1..]);
    }
  }

  /** A duplicate-free sequence whose values all occur in `b` is no longer than `b`. */
  lemma NoDupsWithin<T>(a: seq<T>, b: seq<T>)
    requires NoDups(a) && forall x :: x in a ==> x in b
    ensures |a| <= |b|
  {
    NoDupsCard(a);
    CardBound(b);
    var A, B := Elements(a), Elements(b);
    assert A <= B;
    assert B == A + (B - A);
    assert A * (B - A) == {};
  }

  /**
   * Code-point (lexicographic) order on strings; it differs from the order of
   * the default `sort()` only outside the Basic Multilingual Plane.
   */
  predicate StrLe(a: string, b: string)
  {
    a == [] || (b != [] && (a[0] < b[0] || (a[0] == b[0] && StrLe(a[1..], b[1..]))))
  }

  lemma {:induction false} StrLeRefl(a: string)
    ensures StrLe(a, a)
  {
    if a != [] {
      StrLeRefl(a[1..]);
    }
  }

  lemma {:induction false} StrLeTotal(a: string, b: string)
    ensures StrLe(a, b) || StrLe(b, a)
  {
    if a != [] && b != [] && a[0] == b[0] {
      StrLeTotal(a[1..], b[1..]);
    }
  }

  lemma {:induction false} StrLeTrans(a: string, b: string, c: string)
    requires StrLe(a, b) && StrLe(b, c)
    ensures StrLe(a, c)
  {
    if a != [] && b != [] && c != [] && a[0] == b[0] && b[0] == c[0] {
      StrLeTrans(a[1..], b[1..], c[1..]);
    }
  }

  lemma {:induction false} StrLeAntisym(a: string, b: string)
    requires StrLe(a, b) && StrLe(b, a)
    ensures a == b
  {
    if a != [] {
      StrLeAntisym(a[1..], b[1..]);
      assert a == [a[0]] + a[1..] && b == [b[0]] + b[1..];
    }
  }

  predicate SortedStrings(s: seq<string>)
  {
    forall i, j :: 0 <= i < j < |s| ==> StrLe(s[i], s[j])
  }

  function InsertString(x: string, s: seq<string>): (r: seq<string>)
    requires SortedStrings(s)
    ensures multiset(r) == multiset(s) + multiset{x}
    ensures SortedStrings(r)
  {
    if s == [] || StrLe(x, s[0]) then
      assert forall j :: 0 <= j < |s| ==> StrLe(x, s[j]) by {
        forall j | 0 <= j < |s| ensures StrLe(x, s[j]) {
          if j > 0 { StrLeTrans(x, s[0], s[j]); }
        }
      }
      [x] + s
    else
      var rest := InsertString(x, s[1..]);
      InsertStringStep(x, s, rest);
      [s[0]] + rest
  }

  lemma InsertStringStep(x: string, s: seq<string>, rest: seq<string>)
    requires s != [] && !StrLe(x, s[0]) && SortedStrings(s)
    requires multiset(rest) == multiset(s[1..]) + multiset{x} && SortedStrings(rest)
    ensures multiset([s[0]] + rest) == multiset(s) + multiset{x}
    ensures SortedStrings([s[0]] + rest)
  {
    assert s == [s[0]] + s[1..];
    StrLeTotal(x, s[0]);
    forall k | 0 <= k < |rest| ensures StrLe(s[0], rest[k]) {
      assert rest[k] in multiset(rest);
      if rest[k] != x {
        assert rest[k] in s[1..];
      }
    }
  }

  /** `s.slice().sort()` on strings: a permutation of `s` in code-point order. */
  function SortStrings(s: seq<string>): (r: seq<string>)
    ensures |r| == |s|
    ensures multiset(r) == multiset(s)
    ensures SortedStrings(r)
  {
    if s == [] then []
    else
      var r := InsertString(s[0], SortStrings(s[1..]));
      assert s == [s[0]] + s[1..];
      assert |r| == |multiset(r)|;
      r
  }

  /** Sorting keeps exactly the strings of the list. */
  lemma SortStringsSameMembers(s: seq<string>)
    ensures forall c :: c in SortStrings(s) <==> c in s
  {
    var r := SortStrings(s);
    forall c ensures c in r <==> c in s {
      assert c in r <==> c in multiset(r);
      assert c in s <==> c in multiset(s);
    }
  }

  /** Sorting a list without duplicates leaves it without duplicates. */
  lemma SortStringsNoDups(s: seq<string>)
    requires NoDups(s)
    ensures NoDups(SortStrings(s))
  {
    var r := SortStrings(s);
    forall i, j | 0 <= i < j < |r| ensures r[i] != r[j] {
      if r[i] == r[j] {
        TwoOccurrences(r, i, j);
        CountOne(s, r[i]);
        assert false;
      }
    }
  }

  lemma TwoOccurrences<T>(r: seq<T>, i: nat, j: nat)
    requires i < j < |r| && r[i] == r[j]
    ensures multiset(r)[r[i]] >= 2
  {
    assert r == r[..j] + r[j..];
    assert r[i] in r[..j];
    assert r[j] in r[j..];
  }

  lemma {:induction false} CountOne<T>(s: seq<T>, x: T)
    requires NoDups(s)
    ensures multiset(s)[x] <= 1
  {
    if s != [] {
      CountOne(s[1..], x);
      assert s == [s[0]] + s[1..];
      if s[0] == x {
        assert x !in s[1..];
      }
    }
  }
}
