// The greedy oldest-first allocator that stock deduction and debt payment share.
// A line of slots, oldest first, is given as the capacity of each slot; what is
// taken from each slot is the result.

module Fifo {
  import opened Sums

  function Total(s: seq<nat>): nat {
    if s == [] then 0 else Total(s[..|s| - 1]) + s[|s| - 1]
  }

  /** What is still needed once the slots before `i` have given all they can. */
  function Remaining(caps: seq<nat>, need: nat, i: nat): nat
    requires i <= |caps|
  {
    need - Min(need, Total(caps[..i]))
  }

  /** What a walk over the slots takes from slot `i` when `need` is asked for. */
  function TakeAt(caps: seq<nat>, need: nat, i: nat): nat
    requires i < |caps|
  {
    Min(caps[i], Remaining(caps, need, i))
  }

  /** What the walk takes from each slot. */
  function Takes(caps: seq<nat>, need: nat): (r: seq<nat>)
    ensures |r| == |caps|
    ensures forall i {:trigger r[i]} :: 0 <= i < |caps| ==> r[i] == TakeAt(caps, need, i)
  {
    seq(|caps|, i requires 0 <= i < |caps| => TakeAt(caps, need, i))
  }

  /** Each slot within its capacity, and a slot touched only if every older one is emptied. */
  ghost predicate Greedy(caps: seq<nat>, takes: seq<nat>) {
    && |takes| == |caps|
    && (forall i :: 0 <= i < |caps| ==> takes[i] <= caps[i])
    && (forall i, j :: 0 <= i < j < |caps| && takes[j] > 0 ==> takes[i] == caps[i])
  }

  lemma {:induction false} TotalPrefix(s: seq<nat>, i: nat)
    requires i < |s|
    ensures Total(s[..i + 1]) == Total(s[..i]) + s[i]
  {
    assert s[..i + 1][..i] == s[..i];
  }

  lemma {:induction false} TotalMonotone(s: seq<nat>, i: nat, j: nat)
    requires i <= j <= |s|
    ensures Total(s[..i]) <= Total(s[..j])
    decreases j
  {
    if i < j {
      TotalPrefix(s, j - 1);
      TotalMonotone(s, i, j - 1);
    }
  }

  /** The slots before `i` give the need or all they hold, whichever is less. */
  lemma {:induction false} TakesPrefix(caps: seq<nat>, need: nat, i: nat)
    requires i <= |caps|
    ensures Total(Takes(caps, need)[..i]) == Min(need, Total(caps[..i]))
    decreases i
  {
    if i > 0 {
      TakesPrefix(caps, need, i - 1);
      TotalPrefix(caps, i - 1);
      TotalPrefix(Takes(caps, need), i - 1);
    }
  }

  lemma {:induction false} TakesTotal(caps: seq<nat>, need: nat)
    ensures Total(Takes(caps, need)) == Min(need, Total(caps))
  {
    TakesPrefix(caps, need, |caps|);
    assert caps[..|caps|] == caps && Takes(caps, need)[..|caps|] == Takes(caps, need);
  }

  lemma {:induction false} TakesGreedy(caps: seq<nat>, need: nat)
    ensures Greedy(caps, Takes(caps, need))
  {
    forall i, j | 0 <= i < j < |caps| && Takes(caps, need)[j] > 0
      ensures Takes(caps, need)[i] == caps[i]
    {
      TotalPrefix(caps, i);
      TotalMonotone(caps, i + 1, j);
    }
  }

  lemma {:induction false} TotalZero(s: seq<nat>)
    requires forall i :: 0 <= i < |s| ==> s[i] == 0
    ensures Total(s) == 0
    decreases |s|
  {
    if s != [] {
      TotalZero(s[..|s| - 1]);
    }
  }

  /** The greedy allocation of a given amount is unique: it is the one the walk finds. */
  lemma {:induction false} GreedyUnique(caps: seq<nat>, takes: seq<nat>)
    requires Greedy(caps, takes)
    ensures takes == Takes(caps, Total(takes))
  {
    var need := Total(takes);
    forall i | 0 <= i < |caps|
      ensures takes[i] == TakeAt(caps, need, i)
    {
      TotalPrefix(takes, i);
      TotalMonotone(takes, i + 1, |takes|);
      assert takes[..|takes|] == takes;
      if takes[i] > 0 {
        assert takes[..i] == caps[..i];
      } else {
        TotalBound(takes, caps, i);
      }
      if takes[i] < caps[i] {
        GreedyStops(caps, takes, i);
      }
    }
  }

  lemma {:induction false} TotalBound(a: seq<nat>, b: seq<nat>, i: nat)
    requires |a| == |b| && i <= |a|
    requires forall j :: 0 <= j < |a| ==> a[j] <= b[j]
    ensures Total(a[..i]) <= Total(b[..i])
    decreases i
  {
    if i > 0 {
      TotalPrefix(a, i - 1);
      TotalPrefix(b, i - 1);
      TotalBound(a, b, i - 1);
    }
  }

  lemma {:induction false} GreedyStops(caps: seq<nat>, takes: seq<nat>, i: nat)
    requires Greedy(caps, takes) && i < |caps| && takes[i] < caps[i]
    ensures Total(takes) == Total(takes[..i + 1])
  {
    assert takes == takes[..i + 1] + takes[i + 1..];
    var rest := takes[i + 1..];
    assert forall j :: 0 <= j < |rest| ==> rest[j] == takes[i + 1 + j];
    TotalZero(rest);
    TotalConcat(takes[..i + 1], rest);
  }

  lemma {:induction false} TotalConcat(a: seq<nat>, b: seq<nat>)
    ensures Total(a + b) == Total(a) + Total(b)
    decreases |b|
  {
    if b == [] {
      assert a + b == a;
    } else {
      assert (a + b)[..|a + b| - 1] == a + b[..|b| - 1];
      TotalConcat(a, b[..|b| - 1]);
    }
  }

  lemma {:induction false} TotalMinus(a: seq<nat>, b: seq<nat>, c: seq<nat>)
    requires |a| == |b| == |c|
    requires forall i :: 0 <= i < |a| ==> c[i] + b[i] == a[i]
    ensures Total(c) + Total(b) == Total(a)
    decreases |a|
  {
    if a != [] {
      TotalMinus(a[..|a| - 1], b[..|b| - 1], c[..|c| - 1]);
    }
  }

  /** Taking `a` and then `b` from what is left takes what `a + b` takes at once. */
  lemma {:induction false} TakesAdditive(caps: seq<nat>, a: nat, b: nat, caps': seq<nat>, i: nat)
    requires i < |caps'| == |caps|
    requires forall j :: 0 <= j < |caps| ==> caps'[j] == caps[j] - Takes(caps, a)[j]
    ensures TakeAt(caps, a + b, i) == TakeAt(caps, a, i) + TakeAt(caps', b, i)
  {
    TakesPrefix(caps, a, i);
    TotalMinus(caps[..i], Takes(caps, a)[..i], caps'[..i]);
  }

  /** Capacities read off the rows of a table sum to the table's aggregate. */
  lemma {:induction false} TotalIsSum<T>(caps: seq<nat>, s: seq<T>, f: T -> int)
    requires |caps| == |s|
    requires forall i :: 0 <= i < |s| ==> f(s[i]) == caps[i]
    ensures Total(caps) == Sum(s, f)
    decreases |s|
  {
    if s != [] {
      TotalIsSum(caps[..|s| - 1], s[..|s| - 1], f);
    }
  }

  // ---- walking over a table

  /** The rows of a table once `takes` has been drawn from them. */
  function Drawn<T>(s: seq<T>, takes: seq<nat>, draw: (T, nat) -> T): (r: seq<T>)
    requires |takes| == |s|
    ensures |r| == |s| && forall i :: 0 <= i < |s| ==> r[i] == draw(s[i], takes[i])
  {
    seq(|s|, i requires 0 <= i < |s| => draw(s[i], takes[i]))
  }

  /** One record for every row something is taken from. */
  function Records<T, U>(s: seq<T>, takes: seq<nat>, record: (T, nat) -> U): seq<U>
    requires |takes| == |s|
    decreases |s|
  {
    if s == [] then []
    else
      var n := |s| - 1;
      Records(s[..n], takes[..n], record) + if takes[n] > 0 then [record(s[n], takes[n])] else []
  }

  lemma {:induction false} RecordsStep<T, U>(s: seq<T>, takes: seq<nat>, record: (T, nat) -> U, i: nat)
    requires i < |s| == |takes|
    ensures Records(s[..i + 1], takes[..i + 1], record)
            == Records(s[..i], takes[..i], record) + if takes[i] > 0 then [record(s[i], takes[i])] else []
  {
    assert s[..i + 1][..i] == s[..i] && takes[..i + 1][..i] == takes[..i];
  }

  lemma {:induction false} NoMoreRecords<T, U>(s: seq<T>, takes: seq<nat>, record: (T, nat) -> U, i: nat, n: nat)
    requires i <= n <= |s| == |takes| && forall j :: i <= j < n ==> takes[j] == 0
    ensures Records(s[..n], takes[..n], record) == Records(s[..i], takes[..i], record)
    decreases n
  {
    if i < n {
      RecordsStep(s, takes, record, n - 1);
      NoMoreRecords(s, takes, record, i, n - 1);
    }
  }

  /** Where a loop over the rows stands when it has seen `i` of them. */
  ghost predicate Walking<T, U>(s: seq<T>, caps: seq<nat>, need: nat, draw: (T, nat) -> T, record: (T, nat) -> U,
                                i: nat, now: seq<T>, remaining: nat, records: seq<U>)
  {
    && i <= |s| == |caps| == |now|
    && (forall j {:trigger now[j]} :: 0 <= j < i ==> now[j] == draw(s[j], TakeAt(caps, need, j)))
    && (forall j {:trigger now[j]} :: i <= j < |s| ==> now[j] == s[j])
    && remaining == Remaining(caps, need, i)
    && records == Records(s[..i], Takes(caps, need)[..i], record)
  }

  lemma {:induction false} WalkStarts<T, U>(s: seq<T>, caps: seq<nat>, need: nat, draw: (T, nat) -> T,
                                            record: (T, nat) -> U)
    requires |s| == |caps|
    ensures Walking(s, caps, need, draw, record, 0, s, need, [])
  {
    assert caps[..0] == [];
  }

  /** One turn of the loop takes what it can from the next row. */
  lemma {:induction false} WalkTurns<T, U>(s: seq<T>, caps: seq<nat>, need: nat, draw: (T, nat) -> T,
                                           record: (T, nat) -> U, i: nat, was: seq<T>, open: nat, written: seq<U>,
                                           next: nat, now: seq<T>, remaining: nat, records: seq<U>)
    requires i < |s| && Walking(s, caps, need, draw, record, i, was, open, written) && open > 0 && next == i + 1
    requires draw(s[i], 0) == s[i]
    requires remaining == open - Min(caps[i], open)
    requires now == if caps[i] > 0 then was[i := draw(was[i], Min(caps[i], open))] else was
    requires records == written + if caps[i] > 0 then [record(was[i], Min(caps[i], open))] else []
    ensures Walking(s, caps, need, draw, record, next, now, remaining, records)
  {
    TotalPrefix(caps, i);
    RecordsStep(s, Takes(caps, need), record, i);
    assert TakeAt(caps, need, i) == Min(caps[i], open);
  }

  lemma {:induction false} NothingLeft(caps: seq<nat>, need: nat, i: nat)
    requires i <= |caps| && (i == |caps| || Remaining(caps, need, i) == 0)
    ensures forall j :: i <= j < |caps| ==> TakeAt(caps, need, j) == 0
    ensures Remaining(caps, need, i) == need - Min(need, Total(caps))
  {
    forall j | i <= j < |caps|
      ensures TakeAt(caps, need, j) == 0
    {
      TotalMonotone(caps, i, j);
    }
    assert caps[..|caps|] == caps;
    TotalMonotone(caps, i, |caps|);
  }

  /** When the rows are over or nothing is needed, the loop has done what the walk does. */
  lemma {:induction false} WalkEnds<T, U>(s: seq<T>, caps: seq<nat>, need: nat, draw: (T, nat) -> T,
                                          record: (T, nat) -> U, i: nat, now: seq<T>, remaining: nat, records: seq<U>)
    requires Walking(s, caps, need, draw, record, i, now, remaining, records) && (i == |s| || remaining == 0)
    requires forall x :: x in s ==> draw(x, 0) == x
    ensures now == Drawn(s, Takes(caps, need), draw) && records == Records(s, Takes(caps, need), record)
    ensures remaining == need - Min(need, Total(caps))
  {
    var takes := Takes(caps, need);
    NothingLeft(caps, need, i);
    WalkDrawn(s, caps, need, draw, i, now);
    NoMoreRecords(s, takes, record, i, |s|);
    assert s[..|s|] == s && takes[..|s|] == takes;
  }

  lemma {:induction false} WalkDrawn<T>(s: seq<T>, caps: seq<nat>, need: nat, draw: (T, nat) -> T, i: nat, now: seq<T>)
    requires i <= |s| == |caps| == |now|
    requires forall j {:trigger now[j]} :: 0 <= j < i ==> now[j] == draw(s[j], TakeAt(caps, need, j))
    requires forall j {:trigger now[j]} :: i <= j < |s| ==> now[j] == s[j]
    requires forall j :: i <= j < |caps| ==> TakeAt(caps, need, j) == 0
    requires forall x :: x in s ==> draw(x, 0) == x
    ensures now == Drawn(s, Takes(caps, need), draw)
  {
    forall j | 0 <= j < |s|
      ensures now[j] == Drawn(s, Takes(caps, need), draw)[j]
    {
      assert s[j] in s;
    }
  }
}
