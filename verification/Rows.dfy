/** Selecting rows of a table, in the order the table holds them. */
module Rows {

  function Filter<T(!new)>(rows: seq<T>, p: T -> bool): (kept: seq<T>)
    ensures |kept| <= |rows|
  {
    if rows == [] then []
    else
      var last := rows[|rows| - 1];
      Filter(rows[..|rows| - 1], p) + if p(last) then [last] else []
  }

  lemma {:induction false} FilterMembers<T(!new)>(rows: seq<T>, p: T -> bool)
    ensures forall x :: x in Filter(rows, p) <==> x in rows && p(x)
  {
    if rows != [] {
      FilterMembers(rows[..|rows| - 1], p);
    }
  }

  lemma FilterSnoc<T(!new)>(rows: seq<T>, x: T, p: T -> bool)
    ensures Filter(rows + [x], p) == Filter(rows, p) + if p(x) then [x] else []
  {
    assert (rows + [x])[..|rows|] == rows;
  }

  lemma {:induction false} FilterAgree<T(!new)>(rows: seq<T>, p: T -> bool, q: T -> bool)
    requires forall x :: x in rows ==> p(x) == q(x)
    ensures Filter(rows, p) == Filter(rows, q)
  {
    if rows != [] {
      FilterAgree(rows[..|rows| - 1], p, q);
    }
  }

  /** Filtering twice is filtering once by both conditions. */
  lemma {:induction false} FilterTwice<T(!new)>(rows: seq<T>, p: T -> bool, q: T -> bool, both: T -> bool)
    requires forall x :: x in rows ==> both(x) == (p(x) && q(x))
    ensures Filter(Filter(rows, p), q) == Filter(rows, both)
  {
    if rows != [] {
      var init, last := rows[..|rows| - 1], rows[|rows| - 1];
      FilterTwice(init, p, q, both);
      if p(last) {
        FilterSnoc(Filter(init, p), last, q);
      } else {
        assert Filter(rows, p) == Filter(init, p);
      }
    }
  }

  lemma {:induction false} FilterAll<T(!new)>(rows: seq<T>, p: T -> bool)
    requires forall x :: x in rows ==> p(x)
    ensures Filter(rows, p) == rows
  {
    if rows != [] {
      FilterAll(rows[..|rows| - 1], p);
      assert rows == rows[..|rows| - 1] + [rows[|rows| - 1]];
    }
  }

  /** Every earlier row stands in the relation to every later one. */
  ghost predicate Pairwise<T>(rows: seq<T>, rel: (T, T) -> bool)
  {
    forall i, j :: 0 <= i < j < |rows| ==> rel(rows[i], rows[j])
  }

  lemma {:induction false} FilterPairwise<T(!new)>(rows: seq<T>, p: T -> bool, rel: (T, T) -> bool)
    requires Pairwise(rows, rel)
    ensures Pairwise(Filter(rows, p), rel)
  {
    if rows != [] {
      var init, last := rows[..|rows| - 1], rows[|rows| - 1];
      FilterPairwise(init, p, rel);
      FilterMembers(init, p);
      forall x | x in Filter(init, p) ensures rel(x, last) {
        var i :| 0 <= i < |init| && init[i] == x;
        assert rows[i] == x;
      }
    }
  }

  // ---------------------------------------------------------------- one step after another

  function Iterate<S>(next: S -> S, s: S, n: nat): S
  {
    if n == 0 then s else next(Iterate(next, s, n - 1))
  }

  lemma {:induction false} IterateAdds<S>(next: S -> S, s: S, a: nat, b: nat)
    ensures Iterate(next, s, a + b) == Iterate(next, Iterate(next, s, a), b)
  {
    if b > 0 {
      IterateAdds(next, s, a, b - 1);
    }
  }

  /** What holds at the start and is carried from each step to the next holds after any number of steps. */
  lemma {:induction false} IterateKeeps<S(!new)>(next: S -> S, s: S, n: nat, holds: (nat, S) -> bool)
    requires holds(0, s) && forall k: nat, x :: holds(k, x) ==> holds(k + 1, next(x))
    ensures holds(n, Iterate(next, s, n))
  {
    if n > 0 {
      IterateKeeps(next, s, n - 1, holds);
    }
  }
}
