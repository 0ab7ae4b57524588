/** Stable sorting. JavaScript's `Array.prototype.sort` is stable, so with a
    comparator that induces a total preorder its result is fully determined:
    it is the unique sorted permutation that keeps tied elements in their
    original relative order. `Sort` is an insertion sort with that result;
    `le(a, b)` reads "a may stay in front of b" (the comparator gives <= 0). */
module Sorting {
  import opened Seqs

  /** `le` is total and transitive: a comparator the sort can rely on. */
  ghost predicate TotalPreorder<T(!new)>(le: (T, T) -> bool)
  {
    && (forall a, b :: le(a, b) || le(b, a))
    && (forall a, b, c :: le(a, b) && le(b, c) ==> le(a, c))
  }

  ghost predicate Sorted<T>(s: seq<T>, le: (T, T) -> bool)
  {
    forall i, j :: 0 <= i < j < |s| ==> le(s[i], s[j])
  }

  /** Inserts `x` in front of the first element it may precede. */
  function Insert<T>(x: T, s: seq<T>, le: (T, T) -> bool): (r: seq<T>)
    ensures |r| == |s| + 1
    ensures multiset(r) == multiset(s) + multiset{x}
  {
    if |s| == 0 || le(x, s[0]) then [x] + s
    else
      assert s == [s[0]] + s[1..];
      [s[0]] + Insert(x, s[1..], le)
  }

  function Sort<T>(s: seq<T>, le: (T, T) -> bool): (r: seq<T>)
    ensures |r| == |s|
    ensures multiset(r) == multiset(s)
  {
    if |s| == 0 then []
    else
      assert s == [s[0]] + s[1..];
      Insert(s[0], Sort(s[1..], le), le)
  }

  lemma {:induction false} InsertSorted<T(!new)>(x: T, s: seq<T>, le: (T, T) -> bool)
    requires TotalPreorder(le)
    requires Sorted(s, le)
    ensures Sorted(Insert(x, s, le), le)
  {
    if |s| > 0 && !le(x, s[0]) {
      InsertSorted(x, s[1..], le);
      var r := Insert(x, s, le);
      var t := Insert(x, s[1..], le);
      assert r == [s[0]] + t;
      assert le(s[0], x);
      forall j | 0 < j < |r|
        ensures le(s[0], r[j])
      {
        assert r[j] in multiset(t);
        assert r[j] == x || r[j] in s[1..];
      }
    }
  }

  lemma {:induction false} SortSorted<T(!new)>(s: seq<T>, le: (T, T) -> bool)
    requires TotalPreorder(le)
    ensures Sorted(Sort(s, le), le)
  {
    if |s| > 0 {
      SortSorted(s[1..], le);
      InsertSorted(s[0], Sort(s[1..], le), le);
    }
  }

  /** `a` and `b` are tied: each may precede the other. */
  predicate Tied<T>(le: (T, T) -> bool, a: T, b: T)
  {
    le(a, b) && le(b, a)
  }

  /** The elements of `s` tied with `k`, in their order in `s`. */
  function Ties<T>(s: seq<T>, le: (T, T) -> bool, k: T): seq<T>
  {
    if |s| == 0 then []
    else (if Tied(le, k, s[0]) then [s[0]] else []) + Ties(s[1..], le, k)
  }

  lemma {:induction false} TiesAppend<T>(a: seq<T>, b: seq<T>, le: (T, T) -> bool, k: T)
    ensures Ties(a + b, le, k) == Ties(a, le, k) + Ties(b, le, k)
  {
    if |a| == 0 {
      assert a + b == b;
    } else {
      var h := if Tied(le, k, a[0]) then [a[0]] else [];
      assert (a + b)[0] == a[0];
      assert (a + b)[1..] == a[1..] + b;
      assert Ties(a + b, le, k) == h + Ties(a[1..] + b, le, k);
      TiesAppend(a[1..], b, le, k);
      assert Ties(a, le, k) == h + Ties(a[1..], le, k);
    }
  }

  /** `Ties` of a sequence with a given first element. */
  lemma TiesCons<T>(y: T, t: seq<T>, le: (T, T) -> bool, k: T)
    ensures Ties([y] + t, le, k) == (if Tied(le, k, y) then [y] else []) + Ties(t, le, k)
  {
    assert ([y] + t)[0] == y;
    assert ([y] + t)[1..] == t;
  }

  /** Two elements that are not both tied with `k` may trade places
      without changing the ties of `k`. */
  lemma SwapTies<T>(x: T, y: T, t: seq<T>, le: (T, T) -> bool, k: T)
    requires !(Tied(le, k, x) && Tied(le, k, y))
    ensures Ties([y] + ([x] + t), le, k) == Ties([x] + ([y] + t), le, k)
  {
    TiesCons(y, [x] + t, le, k);
    TiesCons(x, t, le, k);
    TiesCons(x, [y] + t, le, k);
    TiesCons(y, t, le, k);
  }

  /** Under a total preorder, an element that may not precede `y` is not
      tied with `k` when `y` is. */
  lemma NotBothTied<T(!new)>(x: T, y: T, le: (T, T) -> bool, k: T)
    requires TotalPreorder(le)
    requires !le(x, y)
    ensures !(Tied(le, k, x) && Tied(le, k, y))
  {
  }

  lemma {:induction false} InsertStable<T(!new)>(x: T, s: seq<T>, le: (T, T) -> bool, k: T)
    requires TotalPreorder(le)
    ensures Ties(Insert(x, s, le), le, k) == Ties([x] + s, le, k)
  {
    if |s| > 0 && !le(x, s[0]) {
      var t := s[1..];
      InsertStable(x, t, le, k);
      NotBothTied(x, s[0], le, k);
      assert Insert(x, s, le) == [s[0]] + Insert(x, t, le);
      TiesCons(s[0], Insert(x, t, le), le, k);
      TiesCons(s[0], [x] + t, le, k);
      SwapTies(x, s[0], t, le, k);
      assert [s[0]] + t == s;
    }
  }

  /** Stability: for every `k`, the elements tied with `k` come out of the
      sort in the order they went in. */
  lemma {:induction false} SortStable<T(!new)>(s: seq<T>, le: (T, T) -> bool, k: T)
    requires TotalPreorder(le)
    ensures Ties(Sort(s, le), le, k) == Ties(s, le, k)
  {
    if |s| > 0 {
      SortStable(s[1..], le, k);
      InsertStable(s[0], Sort(s[1..], le), le, k);
      TiesAppend([s[0]], Sort(s[1..], le), le, k);
      TiesAppend([s[0]], s[1..], le, k);
      assert [s[0]] + s[1..] == s;
    }
  }

  /** Sorting does not change the sum of a measure over the elements. */
  lemma {:induction false} SortSum<T>(s: seq<T>, le: (T, T) -> bool, f: T -> real)
    ensures Sum(Sort(s, le), f) == Sum(s, f)
  {
    if |s| > 0 {
      SortSum(s[1..], le, f);
      InsertSum(s[0], Sort(s[1..], le), le, f);
    }
  }

  lemma {:induction false} InsertSum<T>(x: T, s: seq<T>, le: (T, T) -> bool, f: T -> real)
    ensures Sum(Insert(x, s, le), f) == f(x) + Sum(s, f)
  {
    if |s| > 0 && !le(x, s[0]) {
      InsertSum(x, s[1..], le, f);
    }
  }

  /** An already sorted sequence is left exactly as it is. */
  lemma {:induction false} SortOfSorted<T(!new)>(s: seq<T>, le: (T, T) -> bool)
    requires Sorted(s, le)
    ensures Sort(s, le) == s
  {
    if |s| > 0 {
      SortOfSorted(s[1..], le);
      assert s == [s[0]] + s[1..];
    }
  }
}
