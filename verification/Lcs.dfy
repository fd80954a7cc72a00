/**
 The edit graph of two sequences and the length of their longest common subsequence.

 The graph is infinite to the right and downwards: outside the two sequences no
 diagonal exists.  The forward search may leave the grid, so its points need a
 distance there too.
 */
module Lcs {

  /** A diagonal of the edit graph leaves (x, y): the next elements agree. */
  predicate Agree<T(==)>(a: seq<T>, b: seq<T>, x: int, y: int) {
    0 <= x < |a| && 0 <= y < |b| && a[x] == b[y]
  }

  /** Length of a longest common subsequence of the first i and the first j elements. */
  function Length<T(==)>(a: seq<T>, b: seq<T>, i: int, j: int): nat
    decreases i, j
  {
    if i <= 0 || j <= 0 then 0
    else if Agree(a, b, i - 1, j - 1) then Length(a, b, i - 1, j - 1) + 1
    else if Length(a, b, i - 1, j) >= Length(a, b, i, j - 1) then Length(a, b, i - 1, j)
    else Length(a, b, i, j - 1)
  }

  /** Insertions plus deletions on a shortest way from (0, 0) to (i, j). */
  function Dist<T(==)>(a: seq<T>, b: seq<T>, i: int, j: int): int {
    i + j - 2 * Length(a, b, i, j)
  }

  /** The diagonal leaving column x on diagonal k, where y = x - k. */
  predicate Joins<T(==)>(a: seq<T>, b: seq<T>, k: int, x: int) {
    Agree(a, b, x, x - k)
  }

  /** Distance of the point in column x on diagonal k. */
  function DistOn<T(==)>(a: seq<T>, b: seq<T>, k: int, x: int): int {
    Dist(a, b, x, x - k)
  }

  datatype Pair = Pair(base: int, other: int)

  /** ms names equal elements of a and b, strictly increasing on both sides. */
  ghost predicate CommonSubsequence<T(!new)>(a: seq<T>, b: seq<T>, ms: seq<Pair>) {
    && (forall s | 0 <= s < |ms| :: Agree(a, b, ms[s].base, ms[s].other))
    && (forall s, t | 0 <= s < t < |ms| :: ms[s].base < ms[t].base && ms[s].other < ms[t].other)
  }

  lemma {:induction false} OneMore<T>(a: seq<T>, b: seq<T>, i: nat, j: nat)
    ensures Length(a, b, i, j) <= Length(a, b, i + 1, j) <= Length(a, b, i, j) + 1
    ensures Length(a, b, i, j) <= Length(a, b, i, j + 1) <= Length(a, b, i, j) + 1
    decreases i + j
  {
    if i > 0 {
      OneMore(a, b, i - 1, j);
    }
    if j > 0 {
      OneMore(a, b, i, j - 1);
    }
    if i > 0 && j > 0 {
      OneMore(a, b, i - 1, j - 1);
    }
  }

  lemma {:induction false} Monotone<T>(a: seq<T>, b: seq<T>, i: nat, j: nat, i': nat, j': nat)
    requires i <= i' && j <= j'
    ensures Length(a, b, i, j) <= Length(a, b, i', j')
    decreases i' + j'
  {
    if i < i' {
      Monotone(a, b, i, j, i' - 1, j');
      OneMore(a, b, i' - 1, j');
    } else if j < j' {
      Monotone(a, b, i, j, i', j' - 1);
      OneMore(a, b, i', j' - 1);
    }
  }

  /** No common subsequence is longer than Length says. */
  lemma {:induction false} LengthBounds<T(!new)>(a: seq<T>, b: seq<T>, ms: seq<Pair>, i: nat, j: nat)
    requires CommonSubsequence(a, b, ms)
    requires forall s | 0 <= s < |ms| :: ms[s].base < i && ms[s].other < j
    ensures |ms| <= Length(a, b, i, j)
    decreases |ms|
  {
    if ms != [] {
      var last := ms[|ms| - 1];
      LengthBounds(a, b, ms[..|ms| - 1], last.base, last.other);
      Monotone(a, b, last.base + 1, last.other + 1, i, j);
    }
  }

  /** A diagonal between two columns, cut at distance: |i - j| <= Dist <= i + j, same parity. */
  lemma {:induction false} DistBounds<T>(a: seq<T>, b: seq<T>, i: nat, j: nat)
    ensures 0 <= Length(a, b, i, j) <= i && Length(a, b, i, j) <= j
    ensures i - j <= Dist(a, b, i, j) <= i + j && j - i <= Dist(a, b, i, j)
    decreases i + j
  {
    if i > 0 {
      DistBounds(a, b, i - 1, j);
    }
    if j > 0 {
      DistBounds(a, b, i, j - 1);
    }
    if i > 0 && j > 0 {
      DistBounds(a, b, i - 1, j - 1);
    }
  }

  /** Past the end of both sequences every further step costs one edit. */
  lemma {:induction false} Beyond<T>(a: seq<T>, b: seq<T>, x: nat, y: nat)
    requires |a| <= x && |b| <= y
    ensures Length(a, b, x, y) == Length(a, b, |a|, |b|)
    decreases x + y
  {
    if x > |a| {
      Flat(a, b, x, y);
      Beyond(a, b, x - 1, y);
    } else if y > |b| {
      Flat(a, b, x, y);
      Beyond(a, b, x, y - 1);
    }
  }

  /** A column past a, or a row past b, adds nothing. */
  lemma {:induction false} Flat<T>(a: seq<T>, b: seq<T>, x: nat, y: nat)
    ensures x > |a| ==> Length(a, b, x, y) == Length(a, b, x - 1, y)
    ensures y > |b| ==> Length(a, b, x, y) == Length(a, b, x, y - 1)
    decreases x + y
  {
    if x > 0 && y > 0 {
      if x > |a| {
        Flat(a, b, x, y - 1);
        OneMore(a, b, x - 1, y - 1);
      }
      if y > |b| {
        Flat(a, b, x - 1, y);
        OneMore(a, b, x - 1, y - 1);
      }
    }
  }
}
