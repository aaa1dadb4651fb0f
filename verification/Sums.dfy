// Sums, filters and maps over sequences: the shared vocabulary of every table
// aggregate in the model.

module Sums {

  datatype Option<+T> = None | Some(value: T)

  function Min(a: nat, b: nat): nat {
    if a <= b then a else b
  }

  /** The sum of `f` over the rows of `s`. */
  function Sum<T>(s: seq<T>, f: T -> int): int {
    if s == [] then 0 else Sum(s[..|s| - 1], f) + f(s[|s| - 1])
  }

  /** The rows of `s` that satisfy `p`, in order. */
  function Filter<T>(s: seq<T>, p: T -> bool): (r: seq<T>)
    ensures forall x :: x in r ==> x in s && p(x)
    ensures forall x :: x in s && p(x) ==> x in r
  {
    if s == [] then []
    else Filter(s[..|s| - 1], p) + (if p(s[|s| - 1]) then [s[|s| - 1]] else [])
  }

  /** Every row of `s` rewritten by `f`. */
  function Map<T, U>(s: seq<T>, f: T -> U): (r: seq<U>)
    ensures |r| == |s|
    ensures forall i :: 0 <= i < |s| ==> r[i] == f(s[i])
  {
    seq(|s|, i requires 0 <= i < |s| => f(s[i]))
  }

  lemma {:induction false} SumSnoc<T>(s: seq<T>, x: T, f: T -> int)
    ensures Sum(s + [x], f) == Sum(s, f) + f(x)
  {
    assert (s + [x])[..|s|] == s;
  }

  lemma {:induction false} SumConcat<T>(a: seq<T>, b: seq<T>, f: T -> int)
    ensures Sum(a + b, f) == Sum(a, f) + Sum(b, f)
    decreases |b|
  {
    if b == [] {
      assert a + b == a;
    } else {
      var b', x := b[..|b| - 1], b[|b| - 1];
      assert a + b == (a + b') + [x];
      SumConcat(a, b', f);
      SumSnoc(a + b', x, f);
    }
  }

  lemma {:induction false} SumCons<T>(x: T, s: seq<T>, f: T -> int)
    ensures Sum([x] + s, f) == f(x) + Sum(s, f)
  {
    SumConcat([x], s, f);
    SumSnoc([], x, f);
    assert [] + [x] == [x];
  }

  /** Row by row equal summands give equal sums. */
  lemma {:induction false} SumSame<T, U>(s: seq<T>, t: seq<U>, f: T -> int, g: U -> int)
    requires |s| == |t|
    requires forall i :: 0 <= i < |s| ==> f(s[i]) == g(t[i])
    ensures Sum(s, f) == Sum(t, g)
    decreases |s|
  {
    if s != [] {
      SumSame(s[..|s| - 1], t[..|t| - 1], f, g);
    }
  }

  lemma {:induction false} SumPlus<T>(s: seq<T>, f: T -> int, g: T -> int, h: T -> int)
    requires forall x :: x in s ==> h(x) == f(x) + g(x)
    ensures Sum(s, h) == Sum(s, f) + Sum(s, g)
    decreases |s|
  {
    if s != [] {
      SumPlus(s[..|s| - 1], f, g, h);
    }
  }

  lemma {:induction false} SumZero<T>(s: seq<T>, f: T -> int)
    requires forall x :: x in s ==> f(x) == 0
    ensures Sum(s, f) == 0
    decreases |s|
  {
    if s != [] {
      SumZero(s[..|s| - 1], f);
    }
  }

  lemma {:induction false} SumNonNegative<T>(s: seq<T>, f: T -> int)
    requires forall x :: x in s ==> f(x) >= 0
    ensures Sum(s, f) >= 0
    ensures forall x :: x in s ==> f(x) <= Sum(s, f)
    decreases |s|
  {
    if s != [] {
      var s' := s[..|s| - 1];
      SumNonNegative(s', f);
      assert forall x :: x in s ==> x in s' || x == s[|s| - 1];
    }
  }

  /** Summands of one sign that sum to zero are all zero. */
  lemma {:induction false} SumNonPositive<T>(s: seq<T>, f: T -> int)
    requires forall x :: x in s ==> f(x) <= 0
    ensures Sum(s, f) <= 0
    ensures forall x :: x in s ==> Sum(s, f) <= f(x)
    decreases |s|
  {
    if s != [] {
      var s' := s[..|s| - 1];
      SumNonPositive(s', f);
      assert forall x :: x in s ==> x in s' || x == s[|s| - 1];
    }
  }

  lemma {:induction false} SumMonotone<T>(s: seq<T>, f: T -> int, g: T -> int)
    requires forall x :: x in s ==> f(x) <= g(x)
    ensures Sum(s, f) <= Sum(s, g)
    decreases |s|
  {
    if s != [] {
      SumMonotone(s[..|s| - 1], f, g);
    }
  }

  lemma {:induction false} SumEqual<T>(s: seq<T>, f: T -> int, g: T -> int)
    requires forall x :: x in s ==> f(x) <= g(x)
    ensures Sum(s, f) == Sum(s, g) <==> forall x :: x in s ==> f(x) == g(x)
    decreases |s|
  {
    if s != [] {
      var s', x := s[..|s| - 1], s[|s| - 1];
      SumEqual(s', f, g);
      SumMonotone(s', f, g);
      assert s == s' + [x];
    }
  }

  /** Summing the selected rows is summing all rows with the others at zero. */
  lemma {:induction false} SumFilter<T>(s: seq<T>, p: T -> bool, f: T -> int, g: T -> int)
    requires forall x :: x in s ==> g(x) == if p(x) then f(x) else 0
    ensures Sum(Filter(s, p), f) == Sum(s, g)
    decreases |s|
  {
    if s != [] {
      var s', x := s[..|s| - 1], s[|s| - 1];
      SumFilter(s', p, f, g);
      if p(x) {
        SumSnoc(Filter(s', p), x, f);
      } else {
        assert Filter(s', p) + [] == Filter(s', p);
      }
    }
  }

  lemma {:induction false} SumRemoveAt<T>(s: seq<T>, k: nat, f: T -> int)
    requires k < |s|
    ensures Sum(s, f) == f(s[k]) + Sum(s[..k] + s[k + 1..], f)
  {
    assert s == s[..k] + ([s[k]] + s[k + 1..]);
    SumConcat(s[..k], [s[k]] + s[k + 1..], f);
    SumCons(s[k], s[k + 1..], f);
    SumConcat(s[..k], s[k + 1..], f);
  }

  /** A sum does not depend on the order of the rows. */
  lemma {:induction false} SumPermutation<T>(s: seq<T>, t: seq<T>, f: T -> int)
    requires multiset(s) == multiset(t)
    ensures Sum(s, f) == Sum(t, f)
    decreases |s|
  {
    if s == [] {
      assert |multiset(t)| == 0;
      assert t == [];
    } else {
      var x := s[|s| - 1];
      assert s == s[..|s| - 1] + [x];
      assert x in multiset(t);
      var k :| 0 <= k < |t| && t[k] == x;
      var t' := t[..k] + t[k + 1..];
      assert t == t[..k] + [x] + t[k + 1..];
      assert multiset(t') == multiset(t) - multiset{x};
      assert multiset(s[..|s| - 1]) == multiset(s) - multiset{x};
      SumPermutation(s[..|s| - 1], t', f);
      SumRemoveAt(t, k, f);
    }
  }

  lemma {:induction false} FilterConcat<T>(a: seq<T>, b: seq<T>, p: T -> bool)
    ensures Filter(a + b, p) == Filter(a, p) + Filter(b, p)
    decreases |b|
  {
    if b == [] {
      assert a + b == a;
    } else {
      assert (a + b)[..|a + b| - 1] == a + b[..|b| - 1];
      FilterConcat(a, b[..|b| - 1], p);
    }
  }

  lemma {:induction false} FilterSnoc<T>(s: seq<T>, x: T, p: T -> bool)
    ensures p(x) ==> Filter(s + [x], p) == Filter(s, p) + [x]
    ensures !p(x) ==> Filter(s + [x], p) == Filter(s, p)
  {
    assert (s + [x])[..|s|] == s;
    assert Filter(s, p) + [] == Filter(s, p);
  }

  /** A row that fails the test can be left out. */
  lemma {:induction false} FilterSkips<T>(a: seq<T>, x: T, b: seq<T>, p: T -> bool)
    requires !p(x)
    ensures Filter(a + [x] + b, p) == Filter(a + b, p)
  {
    FilterConcat(a + [x], b, p);
    FilterConcat(a, b, p);
    assert (a + [x])[..|a|] == a;
    assert Filter(a, p) + [] == Filter(a, p);
  }

  /** A kept row before rows that all go ends the filtered sequence. */
  lemma {:induction false} FilterAppends<T>(a: seq<T>, x: T, b: seq<T>, p: T -> bool)
    requires p(x) && forall y :: y in b ==> !p(y)
    ensures Filter(a + [x] + b, p) == Filter(a + b, p) + [x]
    decreases |b|
  {
    if b == [] {
      assert a + [x] + b == a + [x] && a + b == a;
      FilterSnoc(a, x, p);
    } else {
      var b', y := b[..|b| - 1], b[|b| - 1];
      assert a + [x] + b == (a + [x] + b') + [y] && a + b == (a + b') + [y];
      FilterAppends(a, x, b', p);
      FilterSnoc(a + [x] + b', y, p);
      FilterSnoc(a + b', y, p);
    }
  }

  lemma {:induction false} FilterAll<T>(s: seq<T>, p: T -> bool)
    requires forall x :: x in s ==> p(x)
    ensures Filter(s, p) == s
    decreases |s|
  {
    if s != [] {
      var s', x := s[..|s| - 1], s[|s| - 1];
      assert s == s' + [x];
      FilterAll(s', p);
    }
  }

  /** Filtering keeps whatever holds of every earlier row with every later one. */
  lemma {:induction false} FilterPairwise<T>(s: seq<T>, p: T -> bool, related: (T, T) -> bool)
    requires forall i, j :: 0 <= i < j < |s| ==> related(s[i], s[j])
    ensures forall i, j :: 0 <= i < j < |Filter(s, p)| ==> related(Filter(s, p)[i], Filter(s, p)[j])
    decreases |s|
  {
    if s != [] {
      var n := |s| - 1;
      FilterPairwise(s[..n], p, related);
      var r := Filter(s[..n], p);
      if p(s[n]) {
        forall i | 0 <= i < |r|
          ensures related(r[i], s[n])
        {
          assert r[i] in s[..n];
        }
      }
    }
  }

  ghost predicate Pairwise<T>(s: seq<T>, related: (T, T) -> bool) {
    forall i, j {:trigger s[i], s[j]} :: 0 <= i < j < |s| ==> related(s[i], s[j])
  }

  lemma {:induction false} PairwiseSnoc<T>(s: seq<T>, x: T, related: (T, T) -> bool)
    ensures Pairwise(s + [x], related) <==> Pairwise(s, related) && forall y :: y in s ==> related(y, x)
  {
    var r := s + [x];
    if Pairwise(r, related) {
      forall i, j | 0 <= i < j < |s|
        ensures related(s[i], s[j])
      {
        assert related(r[i], r[j]);
      }
      forall y | y in s
        ensures related(y, x)
      {
        var i :| 0 <= i < |s| && s[i] == y;
        assert related(r[i], r[|s|]);
      }
    }
  }

  /** What holds of the rows that stay, and of every pair with one that goes, holds of all. */
  lemma {:induction false} FilterPairwiseBack<T>(s: seq<T>, p: T -> bool, related: (T, T) -> bool)
    requires forall x, y :: x in s && y in s && (!p(x) || !p(y)) ==> related(x, y)
    requires Pairwise(Filter(s, p), related)
    ensures Pairwise(s, related)
    decreases |s|
  {
    if s != [] {
      var s', x := s[..|s| - 1], s[|s| - 1];
      assert s == s' + [x];
      if p(x) {
        PairwiseSnoc(Filter(s', p), x, related);
      } else {
        assert Filter(s', p) + [] == Filter(s', p);
      }
      FilterPairwiseBack(s', p, related);
      PairwiseSnoc(s', x, related);
    }
  }

  lemma {:induction false} FilterNone<T>(s: seq<T>, p: T -> bool)
    requires forall x :: x in s ==> !p(x)
    ensures Filter(s, p) == []
    decreases |s|
  {
    if s != [] {
      FilterNone(s[..|s| - 1], p);
    }
  }

  lemma {:induction false} FilterSame<T>(s: seq<T>, p: T -> bool, q: T -> bool)
    requires forall x :: x in s ==> (p(x) <==> q(x))
    ensures Filter(s, p) == Filter(s, q)
    decreases |s|
  {
    if s != [] {
      FilterSame(s[..|s| - 1], p, q);
    }
  }

  lemma {:induction false} NoMembers<T>(s: seq<T>)
    requires forall x :: x in s ==> false
    ensures s == []
  {
    var none := (x: T) => false;
    FilterAll(s, none);
    FilterNone(s, none);
  }

  lemma {:induction false} FilterTwice<T>(s: seq<T>, p: T -> bool, q: T -> bool, both: T -> bool)
    requires forall x :: x in s ==> (both(x) <==> p(x) && q(x))
    ensures Filter(Filter(s, p), q) == Filter(s, both)
    decreases |s|
  {
    if s != [] {
      var s', x := s[..|s| - 1], s[|s| - 1];
      FilterTwice(s', p, q, both);
      FilterConcat(Filter(s', p), if p(x) then [x] else [], q);
      assert [x][..0] == [];
      assert Filter([x], q) == Filter([], q) + (if q(x) then [x] else []);
    }
  }

  /** Filtering and rewriting commute when the rewriting keeps the test. */
  lemma {:induction false} FilterMap<T, U>(s: seq<T>, f: T -> U, p: T -> bool, q: U -> bool)
    requires forall x :: x in s ==> (p(x) <==> q(f(x)))
    ensures Filter(Map(s, f), q) == Map(Filter(s, p), f)
    decreases |s|
  {
    if s != [] {
      var s', x := s[..|s| - 1], s[|s| - 1];
      FilterMap(s', f, p, q);
      assert Map(s, f)[..|s| - 1] == Map(s', f);
      assert Map(Filter(s', p) + [x], f) == Map(Filter(s', p), f) + [f(x)];
    } else {
      assert Map(s, f) == [];
      assert Map(Filter(s, p), f) == [];
    }
  }

  /** Two sums in sequence can be taken in either order. */
  lemma {:induction false} SumExchange<T, U>(s: seq<T>, t: seq<U>, h: T -> (U -> int), k: U -> (T -> int),
                                             f: T -> int, g: U -> int)
    requires forall x, y :: x in s && y in t ==> h(x)(y) == k(y)(x)
    requires forall x :: x in s ==> f(x) == Sum(t, h(x))
    requires forall y :: y in t ==> g(y) == Sum(s, k(y))
    ensures Sum(s, f) == Sum(t, g)
    decreases |s|
  {
    if s == [] {
      SumZero(t, g);
    } else {
      var s', x := s[..|s| - 1], s[|s| - 1];
      var g' := (y: U) => Sum(s', k(y));
      SumExchange(s', t, h, k, f, g');
      forall y | y in t
        ensures g(y) == g'(y) + h(x)(y)
      {
        assert k(y)(x) == h(x)(y);
      }
      SumPlus(t, g', h(x), g);
    }
  }

  lemma {:induction false} FilterShorter<T>(s: seq<T>, p: T -> bool, x: T)
    requires x in s && !p(x)
    ensures |Filter(s, p)| < |s|
    decreases |s|
  {
    var s' := s[..|s| - 1];
    if x in s' {
      FilterShorter(s', p, x);
    } else {
      FilterNotLonger(s', p);
    }
  }

  lemma {:induction false} FilterNotLonger<T>(s: seq<T>, p: T -> bool)
    ensures |Filter(s, p)| <= |s|
    decreases |s|
  {
    if s != [] {
      FilterNotLonger(s[..|s| - 1], p);
    }
  }

  /** A sum to which only one row contributes. */
  lemma {:induction false} SumSingle<T>(s: seq<T>, k: nat, f: T -> int)
    requires k < |s| && forall i :: 0 <= i < |s| && i != k ==> f(s[i]) == 0
    ensures Sum(s, f) == f(s[k])
  {
    SumRemoveAt(s, k, f);
    var rest := s[..k] + s[k + 1..];
    forall x | x in rest
      ensures f(x) == 0
    {
      var i :| 0 <= i < |rest| && rest[i] == x;
      assert x == s[if i < k then i else i + 1];
    }
    SumZero(rest, f);
  }

  // ---- inserting in order

  /** `x` goes after every row whose key is not greater. */
  function InsertBy<T>(s: seq<T>, x: T, key: T -> int): seq<T> {
    if s == [] || key(s[|s| - 1]) <= key(x) then s + [x]
    else InsertBy(s[..|s| - 1], x, key) + [s[|s| - 1]]
  }

  lemma {:induction false} InsertSplits<T>(s: seq<T>, x: T, key: T -> int) returns (k: nat)
    ensures k <= |s|
    ensures InsertBy(s, x, key) == s[..k] + [x] + s[k..]
    ensures forall i :: k <= i < |s| ==> key(x) < key(s[i])
    ensures k > 0 ==> key(s[k - 1]) <= key(x)
    decreases |s|
  {
    if s == [] || key(s[|s| - 1]) <= key(x) {
      k := |s|;
      assert s[..k] == s && s[k..] == [];
    } else {
      var s' := s[..|s| - 1];
      k := InsertSplits(s', x, key);
      assert s'[..k] == s[..k];
      assert s'[k..] + [s[|s| - 1]] == s[k..];
    }
  }

  lemma {:induction false} SumInsert<T>(s: seq<T>, x: T, key: T -> int, f: T -> int)
    ensures Sum(InsertBy(s, x, key), f) == Sum(s, f) + f(x)
  {
    var k := InsertSplits(s, x, key);
    assert s == s[..k] + s[k..];
    SumConcat(s[..k], s[k..], f);
    SumConcat(s[..k] + [x], s[k..], f);
    SumSnoc(s[..k], x, f);
  }

  lemma {:induction false} InsertMembers<T>(s: seq<T>, x: T, key: T -> int)
    ensures var r := InsertBy(s, x, key); forall y :: y in r <==> y in s || y == x
    ensures multiset(InsertBy(s, x, key)) == multiset(s) + multiset{x}
  {
    var k := InsertSplits(s, x, key);
    assert s == s[..k] + s[k..];
  }

  /** Inserting into a sorted sequence keeps what holds of every two rows in order. */
  lemma {:induction false} InsertPairwise<T>(s: seq<T>, x: T, key: T -> int, related: (T, T) -> bool)
    requires forall i, j :: 0 <= i < j < |s| ==> key(s[i]) <= key(s[j])
    requires forall i, j :: 0 <= i < j < |s| ==> related(s[i], s[j])
    requires forall y :: y in s ==> if key(y) <= key(x) then related(y, x) else related(x, y)
    ensures var r := InsertBy(s, x, key); forall i, j {:trigger r[i], r[j]} :: 0 <= i < j < |r| ==> related(r[i], r[j])
  {
    var k := InsertSplits(s, x, key);
    var r := InsertBy(s, x, key);
    forall i, j | 0 <= i < j < |r|
      ensures related(r[i], r[j])
    {
      assert i < k ==> r[i] == s[i] && s[i] in s && key(s[i]) <= key(s[k - 1]);
      assert i > k ==> r[i] == s[i - 1];
      assert j < k ==> r[j] == s[j];
      assert j > k ==> r[j] == s[j - 1] && s[j - 1] in s;
    }
  }

  predicate NoRepeats<T(==)>(s: seq<T>) {
    forall i, j :: 0 <= i < j < |s| ==> s[i] != s[j]
  }
}
