/** Shared vocabulary: options and results, filtering, stable sorting, and text cleanup. */
module Prelude {

  datatype Option<+T> = None | Some(value: T)

  datatype Result<+T, +E> = Success(value: T) | Failure(error: E)

  // ---------------------------------------------------------------- filtering

  /** The elements of `xs` that satisfy `p`, in their original order. */
  function Filter<T(!new)>(p: T -> bool, xs: seq<T>): (r: seq<T>)
    ensures |r| <= |xs|
    ensures forall x :: x in r <==> x in xs && p(x)
  {
    if xs == [] then []
    else if p(xs[0]) then [xs[0]] + Filter(p, xs[1..])
    else Filter(p, xs[1..])
  }

  lemma ConcatAssociates<T>(a: seq<T>, b: seq<T>, c: seq<T>)
    ensures (a + b) + c == a + (b + c)
  {
  }

  lemma FilterCons<T(!new)>(p: T -> bool, x: T, xs: seq<T>)
    ensures Filter(p, [x] + xs) == (if p(x) then [x] else []) + Filter(p, xs)
  {
    assert ([x] + xs)[1..] == xs;
  }

  lemma {:induction false} FilterConcat<T(!new)>(p: T -> bool, xs: seq<T>, ys: seq<T>)
    ensures Filter(p, xs + ys) == Filter(p, xs) + Filter(p, ys)
  {
    if xs == [] {
      assert xs + ys == ys;
    } else {
      var x, rest := xs[0], xs[1..];
      assert xs == [x] + rest;
      FilterConcat(p, rest, ys);
      FilterCons(p, x, rest);
      FilterCons(p, x, rest + ys);
      ConcatAssociates([x], rest, ys);
      ConcatAssociates(if p(x) then [x] else [], Filter(p, rest), Filter(p, ys));
    }
  }

  /** Filtering by two predicates in turn is filtering by their conjunction. */
  lemma {:induction false} FilterTwice<T(!new)>(p: T -> bool, q: T -> bool, pq: T -> bool, xs: seq<T>)
    requires forall x :: x in xs ==> (pq(x) <==> p(x) && q(x))
    ensures Filter(pq, xs) == Filter(q, Filter(p, xs))
  {
    if xs != [] {
      FilterTwice(p, q, pq, xs[1..]);
      if p(xs[0]) {
        assert Filter(p, xs) == [xs[0]] + Filter(p, xs[1..]);
        assert Filter(p, xs)[1..] == Filter(p, xs[1..]);
      }
    }
  }

  lemma {:induction false} FilterAll<T(!new)>(p: T -> bool, xs: seq<T>)
    requires forall x :: x in xs ==> p(x)
    ensures Filter(p, xs) == xs
  {
    if xs != [] {
      FilterAll(p, xs[1..]);
    }
  }

  lemma {:induction false} FilterCount<T(!new)>(p: T -> bool, xs: seq<T>, x: T)
    ensures multiset(Filter(p, xs))[x] == if p(x) then multiset(xs)[x] else 0
  {
    if xs != [] {
      assert xs == [xs[0]] + xs[1..];
      FilterCount(p, xs[1..], x);
    }
  }

  /** How many of the first `n` elements satisfy `p`. */
  function CountFirst<T>(p: T -> bool, xs: seq<T>, n: nat): (count: nat)
    requires n <= |xs|
    ensures count <= n
  {
    if n == 0 then 0 else CountFirst(p, xs, n - 1) + if p(xs[n - 1]) then 1 else 0
  }

  // ------------------------------------------------------------------ sorting

  ghost predicate TotalPreorder<T(!new)>(le: (T, T) -> bool) {
    && (forall x, y :: le(x, y) || le(y, x))
    && (forall x, y, z :: le(x, y) && le(y, z) ==> le(x, z))
  }

  predicate Sorted<T>(le: (T, T) -> bool, xs: seq<T>) {
    forall i, j :: 0 <= i < j < |xs| ==> le(xs[i], xs[j])
  }

  /** Places `x` before the first element it does not exceed, so equal elements keep their order. */
  function Insert<T>(le: (T, T) -> bool, x: T, xs: seq<T>): seq<T> {
    if xs == [] then [x]
    else if le(x, xs[0]) then [x] + xs
    else [xs[0]] + Insert(le, x, xs[1..])
  }

  /** A stable sort: what `ORDER BY` and `list.sort` promise. */
  function SortBy<T>(le: (T, T) -> bool, xs: seq<T>): seq<T> {
    if xs == [] then [] else Insert(le, xs[0], SortBy(le, xs[1..]))
  }

  lemma {:induction false} InsertIsPermutation<T>(le: (T, T) -> bool, x: T, xs: seq<T>)
    ensures multiset(Insert(le, x, xs)) == multiset(xs) + multiset{x}
  {
    if xs != [] {
      assert xs == [xs[0]] + xs[1..];
      if !le(x, xs[0]) {
        InsertIsPermutation(le, x, xs[1..]);
      }
    }
  }

  lemma {:induction false} SortIsPermutation<T(!new)>(le: (T, T) -> bool, xs: seq<T>)
    ensures multiset(SortBy(le, xs)) == multiset(xs)
    ensures |SortBy(le, xs)| == |xs|
    ensures forall x :: x in SortBy(le, xs) <==> x in xs
  {
    if xs != [] {
      assert xs == [xs[0]] + xs[1..];
      SortIsPermutation(le, xs[1..]);
      InsertIsPermutation(le, xs[0], SortBy(le, xs[1..]));
    }
    assert |SortBy(le, xs)| == |multiset(SortBy(le, xs))|;
    forall x ensures x in SortBy(le, xs) <==> x in xs {
      assert x in SortBy(le, xs) <==> x in multiset(SortBy(le, xs));
    }
  }

  lemma {:induction false} InsertIsSorted<T(!new)>(le: (T, T) -> bool, x: T, xs: seq<T>)
    requires TotalPreorder(le) && Sorted(le, xs)
    ensures Sorted(le, Insert(le, x, xs))
  {
    if xs != [] && !le(x, xs[0]) {
      InsertIsSorted(le, x, xs[1..]);
      var tail := Insert(le, x, xs[1..]);
      InsertIsPermutation(le, x, xs[1..]);
      forall k | 0 <= k < |tail| ensures le(xs[0], tail[k]) {
        assert tail[k] in multiset(tail);
        if tail[k] != x {
          assert tail[k] in xs[1..];
        }
      }
    }
  }

  lemma {:induction false} SortIsSorted<T(!new)>(le: (T, T) -> bool, xs: seq<T>)
    requires TotalPreorder(le)
    ensures Sorted(le, SortBy(le, xs))
  {
    if xs != [] {
      SortIsSorted(le, xs[1..]);
      InsertIsSorted(le, xs[0], SortBy(le, xs[1..]));
    }
  }

  lemma {:induction false} FilterOfInsert<T(!new)>(le: (T, T) -> bool, p: T -> bool, x: T, xs: seq<T>)
    requires TotalPreorder(le) && Sorted(le, xs)
    ensures Filter(p, Insert(le, x, xs))
         == if p(x) then Insert(le, x, Filter(p, xs)) else Filter(p, xs)
  {
    if xs == [] {
    } else if le(x, xs[0]) {
      assert ([x] + xs)[1..] == xs;
      if p(x) && Filter(p, xs) != [] {
        var first := Filter(p, xs)[0];
        assert first in xs;
        assert le(x, first);
      }
    } else {
      var tail := Insert(le, x, xs[1..]);
      assert Insert(le, x, xs)[1..] == tail;
      FilterOfInsert(le, p, x, xs[1..]);
      if p(xs[0]) {
        assert Filter(p, xs)[1..] == Filter(p, xs[1..]);
      } else if p(x) {
        assert Filter(p, xs) == Filter(p, xs[1..]);
      }
    }
  }

  /** Sorting and filtering commute, exactly and not only up to permutation. */
  lemma {:induction false} FilterOfSort<T(!new)>(le: (T, T) -> bool, p: T -> bool, xs: seq<T>)
    requires TotalPreorder(le)
    ensures Filter(p, SortBy(le, xs)) == SortBy(le, Filter(p, xs))
  {
    if xs != [] {
      FilterOfSort(le, p, xs[1..]);
      SortIsSorted(le, xs[1..]);
      FilterOfInsert(le, p, xs[0], SortBy(le, xs[1..]));
      if p(xs[0]) {
        assert Filter(p, xs)[1..] == Filter(p, xs[1..]);
      }
    }
  }

  // --------------------------------------------------------- lexicographic order

  predicate LexLe(a: string, b: string) {
    a == [] || (b != [] && (a[0] < b[0] || (a[0] == b[0] && LexLe(a[1..], b[1..]))))
  }

  lemma {:induction false} LexTotal(a: string, b: string)
    ensures LexLe(a, b) || LexLe(b, a)
  {
    if a != [] && b != [] && a[0] == b[0] {
      LexTotal(a[1..], b[1..]);
    }
  }

  lemma {:induction false} LexTransitive(a: string, b: string, c: string)
    requires LexLe(a, b) && LexLe(b, c)
    ensures LexLe(a, c)
  {
    if a != [] && a[0] == b[0] == c[0] {
      LexTransitive(a[1..], b[1..], c[1..]);
    }
  }

  // ------------------------------------------------------------- text cleanup

  predicate IsSpace(c: char) {
    c == ' ' || c == '\t' || c == '\n' || c == '\r'
  }

  predicate IsDigit(c: char) {
    '0' <= c <= '9'
  }

  /** `str.strip` on the ASCII blanks. */
  function Strip(s: string): (r: string)
    ensures |r| <= |s|
    ensures r != "" ==> !IsSpace(r[0]) && !IsSpace(r[|r| - 1])
    ensures (s == "" || (!IsSpace(s[0]) && !IsSpace(s[|s| - 1]))) ==> r == s
  {
    if s == "" then ""
    else if IsSpace(s[0]) then Strip(s[1..])
    else if IsSpace(s[|s| - 1]) then Strip(s[..|s| - 1])
    else s
  }

  predicate IsBlank(s: string) {
    Strip(s) == ""
  }

  // -------------------------------------------------------------------- sums

  function SumOf<T>(f: T -> int, xs: seq<T>): int {
    if xs == [] then 0 else f(xs[0]) + SumOf(f, xs[1..])
  }

  lemma {:induction false} SumOfConcat<T>(f: T -> int, xs: seq<T>, ys: seq<T>)
    ensures SumOf(f, xs + ys) == SumOf(f, xs) + SumOf(f, ys)
  {
    if xs == [] {
      assert xs + ys == ys;
    } else {
      assert (xs + ys)[1..] == xs[1..] + ys;
      SumOfConcat(f, xs[1..], ys);
    }
  }

  lemma SumOfSnoc<T>(f: T -> int, xs: seq<T>, i: nat)
    requires i < |xs|
    ensures SumOf(f, xs[..i + 1]) == SumOf(f, xs[..i]) + f(xs[i])
  {
    assert xs[..i + 1] == xs[..i] + [xs[i]];
    SumOfConcat(f, xs[..i], [xs[i]]);
  }

  predicate Distinct<T(==)>(xs: seq<T>) {
    forall i, j :: 0 <= i < j < |xs| ==> xs[i] != xs[j]
  }

  // -------------------------------------------------------------------- runs

  /** The state in which a run of events ends. */
  function Iterate<S, E>(step: (S, E) -> S, s: S, events: seq<E>): S
    decreases |events|
  {
    if events == [] then s else Iterate(step, step(s, events[0]), events[1..])
  }

  /** What the steps of a run cost together. */
  ghost function TotalCost<S, E>(step: (S, E) -> S, cost: (S, S) -> nat, s: S, events: seq<E>): nat
    decreases |events|
  {
    if events == [] then 0
    else cost(s, step(s, events[0])) + TotalCost(step, cost, step(s, events[0]), events[1..])
  }

  /** A potential that pays for every step pays for the whole run. */
  lemma {:induction false} PotentialPays<S(!new), E(!new)>(
    step: (S, E) -> S, cost: (S, S) -> nat, inv: S -> bool, potential: S -> int, s: S, events: seq<E>)
    requires inv(s)
    requires forall t, e :: inv(t) ==> inv(step(t, e)) && cost(t, step(t, e)) + potential(step(t, e)) <= potential(t)
    ensures inv(Iterate(step, s, events))
    ensures TotalCost(step, cost, s, events) + potential(Iterate(step, s, events)) <= potential(s)
    decreases |events|
  {
    if events != [] {
      var e := events[0];
      assert inv(step(s, e));
      PotentialPays(step, cost, inv, potential, step(s, e), events[1..]);
    }
  }
}
