/** Sequences, stable sorting and the lexicographic order on strings. */
module Ordering {
  import opened Prelude

  // ---------- order of strings ----------

  /** Python's `a <= b` on strings: lexicographic by code point. */
  predicate StrLe(a: string, b: string) {
    a == [] || (b != [] && (a[0] < b[0] || (a[0] == b[0] && StrLe(a[1..], b[1..]))))
  }

  lemma {:induction false} StrLeTotal(a: string, b: string)
    ensures StrLe(a, b) || StrLe(b, a)
  {
    if a != [] && b != [] && a[0] == b[0] {
      StrLeTotal(a[1..], b[1..]);
    }
  }

  lemma {:induction false} StrLeAntisymmetric(a: string, b: string)
    requires StrLe(a, b) && StrLe(b, a)
    ensures a == b
  {
    if a != [] && b != [] {
      StrLeAntisymmetric(a[1..], b[1..]);
      assert a == [a[0]] + a[1..] && b == [b[0]] + b[1..];
    }
  }

  lemma {:induction false} StrLeTransitive(a: string, b: string, c: string)
    requires StrLe(a, b) && StrLe(b, c)
    ensures StrLe(a, c)
  {
    if a != [] && a[0] == b[0] == c[0] {
      StrLeTransitive(a[1..], b[1..], c[1..]);
    }
  }

  /** The first character in which two strings differ decides, and a prefix comes first. */
  lemma {:induction false} StrLeIff(a: string, b: string)
    ensures StrLe(a, b) <==> a <= b || exists k :: 0 <= k < |a| && k < |b| && a[..k] == b[..k] && a[k] < b[k]
  {
    if a != [] && b != [] {
      StrLeIff(a[1..], b[1..]);
      if a[0] == b[0] {
        assert a[1..] <= b[1..] <==> a <= b by { assert a == [a[0]] + a[1..] && b == [b[0]] + b[1..]; }
        if k :| 0 <= k < |a[1..]| && k < |b[1..]| && a[1..][..k] == b[1..][..k] && a[1..][k] < b[1..][k] {
          assert a[..k + 1] == [a[0]] + a[1..][..k] && b[..k + 1] == [b[0]] + b[1..][..k];
          assert a[..k + 1] == b[..k + 1] && a[k + 1] < b[k + 1];
        }
        if k :| 0 <= k < |a| && k < |b| && a[..k] == b[..k] && a[k] < b[k] {
          assert k > 0 && a[1..][..k - 1] == a[..k][1..] && b[1..][..k - 1] == b[..k][1..];
          assert a[1..][k - 1] < b[1..][k - 1];
        }
      } else if a[0] < b[0] {
        assert a[..0] == b[..0];
      } else {
        assert forall k :: 0 < k < |a| && k < |b| ==> a[..k][0] == a[0] && b[..k][0] == b[0];
      }
    }
  }

  ghost predicate TotalPreorder<T(!new)>(le: (T, T) -> bool) {
    && (forall a, b :: le(a, b) || le(b, a))
    && (forall a, b, c :: le(a, b) && le(b, c) ==> le(a, c))
  }

  lemma StringOrder()
    ensures TotalPreorder(StrLe)
    ensures forall a: string, b: string {:trigger StrLe(a, b), StrLe(b, a)} :: StrLe(a, b) && StrLe(b, a) ==> a == b
  {
    forall a: string, b: string ensures StrLe(a, b) || StrLe(b, a) { StrLeTotal(a, b); }
    forall a: string, b: string, c: string | StrLe(a, b) && StrLe(b, c) ensures StrLe(a, c) {
      StrLeTransitive(a, b, c);
    }
    forall a: string, b: string | StrLe(a, b) && StrLe(b, a) ensures a == b { StrLeAntisymmetric(a, b); }
  }

  /** The order of pairs of strings. */
  predicate PairLe(a: (string, string), b: (string, string)) {
    StrLe(a.0, b.0) && (a.0 == b.0 ==> StrLe(a.1, b.1))
  }

  lemma PairOrder()
    ensures TotalPreorder(PairLe)
    ensures forall a, b :: PairLe(a, b) && PairLe(b, a) ==> a == b
  {
    StringOrder();
  }

  predicate RealLe(a: real, b: real) { a <= b }

  // ---------- stable sorting ----------

  ghost predicate Sorted<T>(s: seq<T>, le: (T, T) -> bool) {
    forall i, j :: 0 <= i < j < |s| ==> le(s[i], s[j])
  }

  /** No two different elements of `s` are tied. */
  ghost predicate TieFree<T>(s: seq<T>, le: (T, T) -> bool) {
    forall x, y :: x in s && y in s && le(x, y) && le(y, x) ==> x == y
  }

  ghost predicate Permutation<T>(a: seq<T>, b: seq<T>) {
    multiset(a) == multiset(b)
  }

  function Insert<T>(x: T, s: seq<T>, le: (T, T) -> bool): seq<T> {
    if s == [] || le(x, s[0]) then [x] + s else [s[0]] + Insert(x, s[1..], le)
  }

  /** Python's `sorted`: stable, so tied elements keep their order. */
  function Sort<T>(s: seq<T>, le: (T, T) -> bool): seq<T> {
    if s == [] then [] else Insert(s[0], Sort(s[1..], le), le)
  }

  lemma {:induction false} InsertPermutes<T>(x: T, s: seq<T>, le: (T, T) -> bool)
    ensures Permutation(Insert(x, s, le), [x] + s)
  {
    if s != [] && !le(x, s[0]) {
      InsertPermutes(x, s[1..], le);
      assert [x] + s == [x] + [s[0]] + s[1..];
    }
  }

  lemma {:induction false} InsertSorted<T(!new)>(x: T, s: seq<T>, le: (T, T) -> bool)
    requires TotalPreorder(le) && Sorted(s, le)
    ensures Sorted(Insert(x, s, le), le)
  {
    if s != [] && !le(x, s[0]) {
      InsertSorted(x, s[1..], le);
      InsertPermutes(x, s[1..], le);
      var r := Insert(x, s[1..], le);
      forall k | 0 <= k < |r| ensures le(s[0], r[k]) {
        assert r[k] in multiset(r);
        assert r[k] in [x] + s[1..];
      }
    }
  }

  /** What a permutation preserves. */
  lemma SamePermutation<T>(a: seq<T>, b: seq<T>)
    requires Permutation(a, b)
    ensures |a| == |b|
    ensures forall x :: x in a <==> x in b
  {
    assert |multiset(a)| == |a| && |multiset(b)| == |b|;
    forall x ensures x in a <==> x in b {
      assert x in multiset(a) <==> x in multiset(b);
    }
  }

  lemma {:induction false} SortPermutes<T>(s: seq<T>, le: (T, T) -> bool)
    ensures Permutation(Sort(s, le), s)
    ensures |Sort(s, le)| == |s|
    ensures forall x :: x in Sort(s, le) <==> x in s
  {
    if s != [] {
      SortPermutes(s[1..], le);
      InsertPermutes(s[0], Sort(s[1..], le), le);
      assert s == [s[0]] + s[1..];
    }
    SamePermutation(Sort(s, le), s);
  }

  lemma {:induction false} SortSorted<T(!new)>(s: seq<T>, le: (T, T) -> bool)
    requires TotalPreorder(le)
    ensures Sorted(Sort(s, le), le)
  {
    if s != [] {
      SortSorted(s[1..], le);
      InsertSorted(s[0], Sort(s[1..], le), le);
    }
  }

  /** Sorting a sorted list changes nothing. */
  lemma {:induction false} SortOfSorted<T>(s: seq<T>, le: (T, T) -> bool)
    requires Sorted(s, le)
    ensures Sort(s, le) == s
  {
    if s != [] {
      SortOfSorted(s[1..], le);
      assert s == [s[0]] + s[1..];
      if |s| > 1 {
        assert le(s[0], s[1]);
      }
    }
  }

  lemma SortedHeads<T>(a: seq<T>, b: seq<T>, le: (T, T) -> bool)
    requires a != [] && b != [] && a[0] in b && b[0] in a
    requires Sorted(a, le) && Sorted(b, le) && TieFree(a, le)
    ensures a[0] == b[0]
  {
    var i :| 0 <= i < |b| && b[i] == a[0];
    var j :| 0 <= j < |a| && a[j] == b[0];
    if i > 0 && j > 0 {
      assert le(b[0], b[i]) && le(a[0], a[j]);
    }
  }

  lemma TailMultiset<T>(s: seq<T>)
    requires s != []
    ensures multiset(s) == multiset{s[0]} + multiset(s[1..])
  {
    assert s == [s[0]] + s[1..];
  }

  /** Without ties there is only one sorted arrangement. */
  lemma {:induction false} SortedUnique<T>(a: seq<T>, b: seq<T>, le: (T, T) -> bool)
    requires Permutation(a, b) && Sorted(a, le) && Sorted(b, le) && TieFree(a, le)
    ensures a == b
  {
    SamePermutation(a, b);
    if a != [] {
      SortedHeads(a, b, le);
      TailMultiset(a);
      TailMultiset(b);
      assert multiset(a[1..]) == multiset(a) - multiset{a[0]};
      assert multiset(b[1..]) == multiset(b) - multiset{b[0]};
      SortedUnique(a[1..], b[1..], le);
      assert a == [a[0]] + a[1..] && b == [b[0]] + b[1..];
    }
  }

  /** The result of a tie-free sort does not depend on the order of its input. */
  lemma SortOrderFree<T(!new)>(a: seq<T>, b: seq<T>, le: (T, T) -> bool)
    requires Permutation(a, b) && TotalPreorder(le) && TieFree(a, le)
    ensures Sort(a, le) == Sort(b, le)
  {
    SortPermutes(a, le);
    SortPermutes(b, le);
    SortSorted(a, le);
    SortSorted(b, le);
    SortedUnique(Sort(a, le), Sort(b, le), le);
  }

  // ---------- filters and maps ----------

  function Filter<T>(s: seq<T>, p: T -> bool): seq<T> {
    if s == [] then []
    else if p(s[0]) then [s[0]] + Filter(s[1..], p)
    else Filter(s[1..], p)
  }

  function Map<T, U>(s: seq<T>, f: T -> U): (r: seq<U>)
    ensures |r| == |s|
    ensures forall i :: 0 <= i < |s| ==> r[i] == f(s[i])
  {
    if s == [] then [] else [f(s[0])] + Map(s[1..], f)
  }

  /** `[f(x, k) for k, x in enumerate(xs, start=from)]`. */
  function Enumerate<T, U>(xs: seq<T>, f: (T, nat) -> U, from: nat): (r: seq<U>)
    ensures |r| == |xs|
    ensures forall k :: 0 <= k < |xs| ==> r[k] == f(xs[k], from + k)
  {
    if xs == [] then [] else [f(xs[0], from)] + Enumerate(xs[1..], f, from + 1)
  }

  lemma {:induction false} FilterMembers<T>(s: seq<T>, p: T -> bool)
    ensures forall x :: x in Filter(s, p) <==> x in s && p(x)
    ensures |Filter(s, p)| <= |s|
  {
    if s != [] {
      FilterMembers(s[1..], p);
      assert s == [s[0]] + s[1..];
    }
  }

  lemma FilterMember<T>(s: seq<T>, p: T -> bool, k: nat) returns (i: nat)
    requires k < |Filter(s, p)|
    ensures i < |s| && s[i] == Filter(s, p)[k] && p(s[i])
  {
    if p(s[0]) && k == 0 {
      i := 0;
    } else {
      var j := FilterMember(s[1..], p, if p(s[0]) then k - 1 else k);
      i := j + 1;
    }
  }

  lemma {:induction false} FilterAppend<T>(a: seq<T>, b: seq<T>, p: T -> bool)
    ensures Filter(a + b, p) == Filter(a, p) + Filter(b, p)
  {
    if a == [] {
      assert a + b == b;
    } else {
      FilterAppend(a[1..], b, p);
      assert (a + b)[1..] == a[1..] + b;
    }
  }

  lemma {:induction false} FilterAll<T>(s: seq<T>, p: T -> bool)
    requires forall x :: x in s ==> p(x)
    ensures Filter(s, p) == s
  {
    if s != [] {
      FilterAll(s[1..], p);
    }
  }

  lemma {:induction false} FilterNone<T>(s: seq<T>, p: T -> bool)
    requires forall x :: x in s ==> !p(x)
    ensures Filter(s, p) == []
  {
    if s != [] {
      FilterNone(s[1..], p);
    }
  }

  lemma {:induction false} FilterSame<T>(s: seq<T>, p: T -> bool, q: T -> bool)
    requires forall x :: x in s ==> p(x) == q(x)
    ensures Filter(s, p) == Filter(s, q)
  {
    if s != [] {
      FilterSame(s[1..], p, q);
    }
  }

  lemma WithoutAt<T>(s: seq<T>, k: nat)
    requires k < |s|
    ensures multiset(s) == multiset{s[k]} + multiset(s[..k] + s[k + 1..])
  {
    assert s == s[..k] + [s[k]] + s[k + 1..];
  }

  /** Where the head of a sequence sits in a permutation of it, and what is left. */
  lemma HeadIn<T>(a: seq<T>, b: seq<T>) returns (k: nat)
    requires Permutation(a, b) && a != []
    ensures k < |b| && b[k] == a[0]
    ensures Permutation(a[1..], b[..k] + b[k + 1..])
  {
    SamePermutation(a, b);
    assert a[0] in b;
    k :| 0 <= k < |b| && b[k] == a[0];
    WithoutAt(b, k);
    TailMultiset(a);
    assert multiset(a[1..]) == multiset(a) - multiset{a[0]};
    assert multiset(b[..k] + b[k + 1..]) == multiset(b) - multiset{b[k]};
  }

  lemma MiddleOut<T>(a: seq<T>, c: seq<T>, b: seq<T>)
    ensures multiset(a + (c + b)) == multiset(c) + multiset(a + b)
  {
    assert multiset(a + (c + b)) == multiset(a) + multiset(c) + multiset(b);
    assert multiset(a + b) == multiset(a) + multiset(b);
  }

  lemma FilterWithoutAt<T>(s: seq<T>, k: nat, p: T -> bool)
    requires k < |s|
    ensures multiset(Filter(s, p)) == multiset(Filter([s[k]], p)) + multiset(Filter(s[..k] + s[k + 1..], p))
  {
    assert s == s[..k] + ([s[k]] + s[k + 1..]);
    FilterAppend(s[..k], [s[k]] + s[k + 1..], p);
    FilterAppend([s[k]], s[k + 1..], p);
    FilterAppend(s[..k], s[k + 1..], p);
    MiddleOut(Filter(s[..k], p), Filter([s[k]], p), Filter(s[k + 1..], p));
  }

  lemma {:induction false} FilterPermutation<T>(a: seq<T>, b: seq<T>, p: T -> bool)
    requires Permutation(a, b)
    ensures Permutation(Filter(a, p), Filter(b, p))
    ensures |Filter(a, p)| == |Filter(b, p)|
  {
    if a == [] {
      SamePermutation(a, b);
    } else {
      var k := HeadIn(a, b);
      FilterPermutation(a[1..], b[..k] + b[k + 1..], p);
      FilterWithoutAt(b, k, p);
      FilterWithoutAt(a, 0, p);
      assert a[..0] + a[1..] == a[1..];
    }
    SamePermutation(Filter(a, p), Filter(b, p));
  }

  lemma MapAppend<T, U>(a: seq<T>, b: seq<T>, f: T -> U)
    ensures Map(a + b, f) == Map(a, f) + Map(b, f)
  {
  }

  /** Two ways round the same square. */
  lemma MapSquare<T, U, V, W>(s: seq<T>, f: T -> U, g: U -> W, p: T -> V, q: V -> W)
    requires forall x :: x in s ==> g(f(x)) == q(p(x))
    ensures Map(Map(s, f), g) == Map(Map(s, p), q)
  {
  }

  lemma MapWithoutAt<T, U>(s: seq<T>, k: nat, f: T -> U)
    requires k < |s|
    ensures multiset(Map(s, f)) == multiset{f(s[k])} + multiset(Map(s[..k] + s[k + 1..], f))
  {
    var m := Map(s, f);
    WithoutAt(m, k);
    MapAppend(s[..k], s[k + 1..], f);
    assert Map(s[..k], f) == m[..k];
    assert Map(s[k + 1..], f) == m[k + 1..];
  }

  lemma {:induction false} MapPermutation<T, U>(a: seq<T>, b: seq<T>, f: T -> U)
    requires Permutation(a, b)
    ensures Permutation(Map(a, f), Map(b, f))
  {
    if a == [] {
      SamePermutation(a, b);
    } else {
      var k := HeadIn(a, b);
      MapPermutation(a[1..], b[..k] + b[k + 1..], f);
      MapWithoutAt(b, k, f);
      MapWithoutAt(a, 0, f);
      assert a[..0] + a[1..] == a[1..];
    }
  }

  lemma {:induction false} InsertStable<T>(x: T, s: seq<T>, le: (T, T) -> bool, p: T -> bool)
    requires p(x) ==> forall y :: y in s && p(y) ==> le(x, y)
    ensures Filter(Insert(x, s, le), p) == if p(x) then [x] + Filter(s, p) else Filter(s, p)
  {
    if s == [] || le(x, s[0]) {
      assert ([x] + s)[1..] == s;
    } else {
      InsertStable(x, s[1..], le, p);
      assert ([s[0]] + Insert(x, s[1..], le))[1..] == Insert(x, s[1..], le);
    }
  }

  /** Elements that tie stay in the order they came in. */
  lemma {:induction false} SortStable<T(!new)>(s: seq<T>, le: (T, T) -> bool, p: T -> bool)
    requires forall x, y :: x in s && y in s && p(x) && p(y) ==> le(x, y)
    ensures Filter(Sort(s, le), p) == Filter(s, p)
  {
    if s != [] {
      SortStable(s[1..], le, p);
      SortPermutes(s[1..], le);
      SamePermutation(Sort(s[1..], le), s[1..]);
      InsertStable(s[0], Sort(s[1..], le), le, p);
    }
  }

  // ---------- counting ----------

  function AtMost(v: real): real -> bool { (x: real) => x <= v }

  function Below(v: real): real -> bool { (x: real) => x < v }

  function Above(v: real): real -> bool { (x: real) => x > v }

  lemma {:induction false} PrefixCount(s: seq<real>, p: real -> bool, i: nat)
    requires i <= |s| && forall k :: 0 <= k < i ==> p(s[k])
    ensures |Filter(s, p)| >= i
  {
    if i > 0 {
      PrefixCount(s[1..], p, i - 1);
    }
  }

  lemma {:induction false} SuffixCount(s: seq<real>, p: real -> bool, i: nat)
    requires i <= |s| && forall k :: i <= k < |s| ==> !p(s[k])
    ensures |Filter(s, p)| <= i
  {
    if i > 0 {
      SuffixCount(s[1..], p, i - 1);
    } else {
      FilterNone(s, p);
    }
  }

  lemma {:induction false} PrefixNone(s: seq<real>, p: real -> bool, i: nat)
    requires i <= |s| && forall k :: 0 <= k < i ==> !p(s[k])
    ensures |Filter(s, p)| <= |s| - i
  {
    if i > 0 {
      PrefixNone(s[1..], p, i - 1);
    } else {
      FilterMembers(s, p);
    }
  }

  // ---------- distinctness ----------

  ghost predicate Distinct<T>(s: seq<T>) {
    forall i, j :: 0 <= i < j < |s| ==> s[i] != s[j]
  }

  lemma {:induction false} DistinctMultiset<T>(s: seq<T>)
    ensures Distinct(s) <==> forall x :: multiset(s)[x] <= 1
  {
    if s != [] {
      DistinctMultiset(s[1..]);
      assert s == [s[0]] + s[1..];
      if Distinct(s) {
        forall x ensures multiset(s)[x] <= 1 {
          if x == s[0] { assert x !in s[1..]; }
        }
      } else {
        var i, j :| 0 <= i < j < |s| && s[i] == s[j];
        if i == 0 {
          assert s[1..][j - 1] == s[0];
          assert s[0] in multiset(s[1..]);
          assert multiset(s)[s[0]] >= 2;
        } else {
          assert s[1..][i - 1] == s[1..][j - 1];
          assert !Distinct(s[1..]);
          var x :| multiset(s[1..])[x] > 1;
          assert multiset(s)[x] > 1;
        }
      }
    }
  }

  lemma DistinctPermutation<T>(a: seq<T>, b: seq<T>)
    requires Permutation(a, b) && Distinct(a)
    ensures Distinct(b)
  {
    DistinctMultiset(a);
    DistinctMultiset(b);
  }

  lemma TailMembers<T>(a: seq<T>, b: seq<T>, k: nat)
    requires Distinct(a) && Distinct(b) && (forall s :: s in a <==> s in b) && a != [] && k < |b| && b[k] == a[0]
    ensures Distinct(a[1..]) && Distinct(b[..k] + b[k + 1..])
    ensures forall s :: s in a[1..] <==> s in b[..k] + b[k + 1..]
  {
    var rest := b[..k] + b[k + 1..];
    forall s ensures s in a[1..] <==> s in rest {
      if s in a[1..] {
        assert s in a && s != a[0];
        var j :| 0 <= j < |b| && b[j] == s;
        assert s == if j < k then rest[j] else rest[j - 1];
      }
      if s in rest {
        assert s in b && s != b[k];
        var j :| 0 <= j < |a| && a[j] == s;
        assert a[1..][j - 1] == s;
      }
    }
  }

  lemma {:induction false} DistinctSameMembers<T>(a: seq<T>, b: seq<T>)
    requires Distinct(a) && Distinct(b) && forall s :: s in a <==> s in b
    ensures Permutation(a, b)
  {
    assert b != [] ==> b[0] in b;
    if a != [] {
      assert a[0] in b;
      var k :| 0 <= k < |b| && b[k] == a[0];
      var rest := b[..k] + b[k + 1..];
      WithoutAt(b, k);
      TailMultiset(a);
      TailMembers(a, b, k);
      DistinctSameMembers(a[1..], rest);
    }
  }

  // ---------- first occurrences ----------

  /** The keys of a dictionary that is filled in the order of `s`. */
  function Dedup<T(==)>(s: seq<T>): seq<T> {
    if s == [] then []
    else
      var rest := Dedup(s[..|s| - 1]);
      if s[|s| - 1] in rest then rest else rest + [s[|s| - 1]]
  }

  lemma {:induction false} DedupIsDistinct<T>(s: seq<T>)
    ensures Distinct(Dedup(s))
    ensures forall x :: x in Dedup(s) <==> x in s
  {
    if s != [] {
      DedupIsDistinct(s[..|s| - 1]);
      assert s == s[..|s| - 1] + [s[|s| - 1]];
    }
  }

  /** `sorted(s)` for a set. */
  method SortedSet<T(==,!new)>(s: set<T>, le: (T, T) -> bool) returns (r: seq<T>)
    requires TotalPreorder(le)
    ensures forall x :: x in r <==> x in s
    ensures Sorted(r, le) && Distinct(r)
  {
    var todo, items := s, [];
    while todo != {}
      invariant forall x :: x in s <==> x in todo || x in items
      invariant forall x :: x in items ==> x !in todo
      invariant Distinct(items)
      decreases todo
    {
      var x :| x in todo;
      todo, items := todo - {x}, items + [x];
    }
    r := Sort(items, le);
    SortSorted(items, le);
    SortPermutes(items, le);
    DistinctPermutation(items, r);
  }

  /** There is one sorted list of the keys of a dictionary. */
  lemma SortedKeysUnique<T(!new)>(r: seq<T>, keys: seq<T>, le: (T, T) -> bool)
    requires TotalPreorder(le) && forall x, y :: le(x, y) && le(y, x) ==> x == y
    requires Sorted(r, le) && Distinct(r) && Distinct(keys) && forall x :: x in r <==> x in keys
    ensures r == Sort(keys, le)
  {
    DistinctSameMembers(r, keys);
    SortSorted(keys, le);
    SortPermutes(keys, le);
    SortedUnique(r, Sort(keys, le), le);
  }

  // ---------- grouping by a key ----------

  /** The keys of the elements that have one. */
  function KeyList<T, K>(xs: seq<T>, key: T -> Option<K>): seq<K> {
    if xs == [] then []
    else if key(xs[0]).Some? then [key(xs[0]).value] + KeyList(xs[1..], key)
    else KeyList(xs[1..], key)
  }

  function Group<T, K(==)>(xs: seq<T>, key: T -> Option<K>, k: K): seq<T> { Filter(xs, x => key(x) == Some(k)) }

  lemma {:induction false} KeyListMembers<T, K>(xs: seq<T>, key: T -> Option<K>, k: K)
    ensures k in KeyList(xs, key) <==> Group(xs, key, k) != []
  {
    if xs != [] {
      KeyListMembers(xs[1..], key, k);
    }
  }

  lemma GroupAppend<T, K>(a: seq<T>, b: seq<T>, key: T -> Option<K>, k: K)
    ensures Group(a + b, key, k) == Group(a, key, k) + Group(b, key, k)
  {
    FilterAppend(a, b, x => key(x) == Some(k));
  }

  lemma GroupOne<T, K>(x: T, key: T -> Option<K>, k: K)
    ensures Group([x], key, k) == if key(x) == Some(k) then [x] else []
  {
    var p := (x: T) => key(x) == Some(k);
    assert Filter([x][1..], p) == [];
    assert Filter([x], p) == if p(x) then [x] else [];
  }

  lemma GroupPermutes<T, K>(a: seq<T>, b: seq<T>, key: T -> Option<K>, k: K)
    requires Permutation(a, b)
    ensures Permutation(Group(a, key, k), Group(b, key, k))
  {
    FilterPermutation(a, b, x => key(x) == Some(k));
  }

  lemma GroupMembers<T, K>(xs: seq<T>, key: T -> Option<K>, k: K)
    ensures forall x :: x in Group(xs, key, k) <==> x in xs && key(x) == Some(k)
    ensures |Group(xs, key, k)| <= |xs|
  {
    FilterMembers(xs, x => key(x) == Some(k));
  }

  lemma KeyListPermutes<T, K>(a: seq<T>, b: seq<T>, key: T -> Option<K>)
    requires Permutation(a, b)
    ensures Permutation(Dedup(KeyList(a, key)), Dedup(KeyList(b, key)))
  {
    var ka, kb := KeyList(a, key), KeyList(b, key);
    forall k ensures k in ka <==> k in kb {
      KeyListMembers(a, key, k);
      KeyListMembers(b, key, k);
      FilterPermutation(a, b, x => key(x) == Some(k));
    }
    DedupIsDistinct(ka);
    DedupIsDistinct(kb);
    DistinctSameMembers(Dedup(ka), Dedup(kb));
  }

  // ---------- sums over keys ----------

  function Total<K>(ks: seq<K>, f: K -> nat): nat {
    if ks == [] then 0 else f(ks[0]) + Total(ks[1..], f)
  }

  lemma {:induction false} TotalPointwise<K>(ks: seq<K>, f: K -> nat, g: K -> nat, h: K -> nat)
    requires forall k :: k in ks ==> f(k) == g(k) + h(k)
    ensures Total(ks, f) == Total(ks, g) + Total(ks, h)
  {
    if ks != [] {
      TotalPointwise(ks[1..], f, g, h);
    }
  }

  lemma {:induction false} TotalOfMatch<K>(ks: seq<K>, x: K)
    requires Distinct(ks)
    ensures Total(ks, k => if k == x then 1 else 0) == if x in ks then 1 else 0
  {
    if ks != [] {
      TotalOfMatch(ks[1..], x);
      assert ks == [ks[0]] + ks[1..];
    }
  }

  function HasKeyIn<T, K(==)>(key: T -> Option<K>, ks: seq<K>, x: T): bool { key(x).Some? && key(x).value in ks }

  function Sizes<T, K(==)>(xs: seq<T>, key: T -> Option<K>): K -> nat { (k: K) => |Group(xs, key, k)| }

  function Keyed<T, K>(key: T -> Option<K>): T -> bool { (x: T) => key(x).Some? }

  lemma {:induction false} TotalZero<K>(ks: seq<K>, f: K -> nat)
    requires forall k :: k in ks ==> f(k) == 0
    ensures Total(ks, f) == 0
  {
    if ks != [] {
      TotalZero(ks[1..], f);
    }
  }

  lemma {:induction false} TotalSame<K>(ks: seq<K>, f: K -> nat, g: K -> nat)
    requires forall k :: k in ks ==> f(k) == g(k)
    ensures Total(ks, f) == Total(ks, g)
  {
    if ks != [] {
      TotalSame(ks[1..], f, g);
    }
  }

  /** The groups of different keys add up to the elements that have one of the keys. */
  lemma {:induction false} GroupsAddUp<T, K>(xs: seq<T>, key: T -> Option<K>, ks: seq<K>)
    requires Distinct(ks)
    ensures Total(ks, Sizes(xs, key)) == |Filter(xs, x => HasKeyIn(key, ks, x))|
  {
    if xs == [] {
      TotalZero(ks, Sizes(xs, key));
    } else {
      var rest := xs[1..];
      GroupsAddUp(rest, key, ks);
      if key(xs[0]).Some? {
        var v := key(xs[0]).value;
        TotalOfMatch(ks, v);
        TotalPointwise(ks, Sizes(xs, key), k => if k == v then 1 else 0, Sizes(rest, key));
      } else {
        TotalSame(ks, Sizes(xs, key), Sizes(rest, key));
      }
    }
  }

  lemma {:induction false} TotalByIndex<K, L>(xs: seq<K>, f: K -> nat, ys: seq<L>, g: L -> nat)
    requires |xs| == |ys| && forall i :: 0 <= i < |xs| ==> f(xs[i]) == g(ys[i])
    ensures Total(xs, f) == Total(ys, g)
  {
    if xs != [] {
      TotalByIndex(xs[1..], f, ys[1..], g);
    }
  }

  lemma {:induction false} FilterOfMap<K, L>(ks: seq<K>, g: K -> L, p: L -> bool, q: K -> bool)
    requires forall k :: k in ks ==> p(g(k)) == q(k)
    ensures Filter(Map(ks, g), p) == Map(Filter(ks, q), g)
  {
    if ks != [] {
      FilterOfMap(ks[1..], g, p, q);
      assert Map(ks, g)[1..] == Map(ks[1..], g);
    }
  }

  lemma {:induction false} FilterImplies<T>(s: seq<T>, p: T -> bool, q: T -> bool)
    requires forall x :: x in s && p(x) ==> q(x)
    ensures |Filter(s, p)| <= |Filter(s, q)|
  {
    if s != [] {
      FilterImplies(s[1..], p, q);
    }
  }

  lemma {:induction false} FilterDistinct<T>(s: seq<T>, p: T -> bool)
    requires Distinct(s)
    ensures Distinct(Filter(s, p))
  {
    if s != [] {
      FilterDistinct(s[1..], p);
      FilterMembers(s[1..], p);
    }
  }

  lemma {:induction false} KeyListSame<T, K>(xs: seq<T>, f: T -> Option<K>, g: T -> Option<K>)
    requires forall x :: x in xs ==> f(x) == g(x)
    ensures KeyList(xs, f) == KeyList(xs, g)
  {
    if xs != [] {
      KeyListSame(xs[1..], f, g);
    }
  }

  lemma GroupSame<T, K>(xs: seq<T>, f: T -> Option<K>, g: T -> Option<K>, k: K)
    requires forall x :: x in xs ==> f(x) == g(x)
    ensures Group(xs, f, k) == Group(xs, g, k)
  {
    FilterSame(xs, x => f(x) == Some(k), x => g(x) == Some(k));
  }

  /** With all the keys there are, the groups add up to the elements that have a key. */
  lemma GroupsCover<T, K>(xs: seq<T>, key: T -> Option<K>, ks: seq<K>)
    requires Distinct(ks) && forall k :: Group(xs, key, k) != [] ==> k in ks
    ensures Total(ks, Sizes(xs, key)) == |Filter(xs, Keyed(key))|
  {
    GroupsAddUp(xs, key, ks);
    forall x | x in xs ensures HasKeyIn(key, ks, x) == key(x).Some? {
      if key(x).Some? {
        GroupMembers(xs, key, key(x).value);
        assert x in Group(xs, key, key(x).value);
      }
    }
    FilterSame(xs, x => HasKeyIn(key, ks, x), Keyed(key));
  }

  /** If having one of these keys means being in one group of another key, these groups
      together are no larger than that one. */
  lemma GroupsWithin<T, K, L>(xs: seq<T>, key: T -> Option<K>, ks: seq<K>, other: T -> Option<L>, l: L)
    requires Distinct(ks) && forall x :: x in xs && HasKeyIn(key, ks, x) ==> other(x) == Some(l)
    ensures Total(ks, Sizes(xs, key)) <= |Group(xs, other, l)|
  {
    GroupsAddUp(xs, key, ks);
    FilterImplies(xs, x => HasKeyIn(key, ks, x), x => other(x) == Some(l));
  }

  lemma SortMember<T>(ks: seq<T>, le: (T, T) -> bool, k: T)
    ensures k in Sort(ks, le) <==> k in ks
  {
    SortPermutes(ks, le);
  }

  lemma SortDistinct<T>(ks: seq<T>, le: (T, T) -> bool)
    requires Distinct(ks)
    ensures Distinct(Sort(ks, le))
    ensures forall k :: k in Sort(ks, le) <==> k in ks
  {
    SortPermutes(ks, le);
    DistinctPermutation(ks, Sort(ks, le));
  }

  lemma {:induction false} KeyListAppend<T, K>(xs: seq<T>, x: T, key: T -> Option<K>)
    ensures KeyList(xs + [x], key) == KeyList(xs, key) + if key(x).Some? then [key(x).value] else []
  {
    if xs == [] {
      assert xs + [x] == [x] && [x][1..] == [];
    } else {
      KeyListAppend(xs[1..], x, key);
      assert (xs + [x])[1..] == xs[1..] + [x];
    }
  }

  lemma DedupAppend<T>(xs: seq<T>, x: T)
    ensures Dedup(xs + [x]) == if x in Dedup(xs) then Dedup(xs) else Dedup(xs) + [x]
  {
    assert (xs + [x])[..|xs + [x]| - 1] == xs;
  }

  lemma {:induction false} TotalAppend<K>(ks: seq<K>, k: K, f: K -> nat)
    ensures Total(ks + [k], f) == Total(ks, f) + f(k)
  {
    if ks == [] {
      assert ks + [k] == [k] && [k][1..] == [];
    } else {
      TotalAppend(ks[1..], k, f);
      assert (ks + [k])[1..] == ks[1..] + [k];
    }
  }

  lemma GroupDistinct<T, K>(xs: seq<T>, key: T -> Option<K>, k: K)
    requires Distinct(xs)
    ensures Distinct(Group(xs, key, k))
  {
    FilterDistinct(xs, x => key(x) == Some(k));
  }

  /** A weaker filter that keeps one element more is longer. */
  lemma {:induction false} FilterStrict<T>(s: seq<T>, p: T -> bool, q: T -> bool, z: T)
    requires (forall x :: x in s && p(x) ==> q(x)) && z in s && q(z) && !p(z)
    ensures |Filter(s, p)| < |Filter(s, q)|
  {
    if s[0] == z {
      FilterImplies(s[1..], p, q);
    } else {
      assert z in s[1..];
      FilterStrict(s[1..], p, q, z);
    }
  }

  lemma GroupShrinks<T, K>(xs: seq<T>, f: T -> Option<K>, g: T -> Option<K>, k: K, z: T)
    requires (forall x :: x in xs && f(x) == Some(k) ==> g(x) == Some(k)) && z in xs && g(z) == Some(k) && f(z) != Some(k)
    ensures |Group(xs, f, k)| < |Group(xs, g, k)|
  {
    FilterStrict(xs, x => f(x) == Some(k), x => g(x) == Some(k), z);
  }
}
