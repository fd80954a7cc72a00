/**
 Myers' greedy O(ND) comparison (src/diff3.ts:34-94).

 A row maps diagonals to endpoints.  Next and Path say in closed form which rows
 and which diagonal moves the loops compute; Furthest says what a row means in terms
 of edit distance.
 */
module Myers {
  import opened Lcs

  type Row = int -> int

  /** Diagonals that round d visits. */
  predicate OnRound(d: int, k: int) {
    -d <= k <= d && (d - k) % 2 == 0
  }

  /** Follow matching elements along diagonal k. */
  function Slide<T(==)>(a: seq<T>, b: seq<T>, x: int, k: int): (r: int)
    ensures r >= x
    ensures !Joins(a, b, k, r)
    ensures forall i | x <= i < r :: Joins(a, b, k, i)
    decreases |a| - x
  {
    if Joins(a, b, k, x) then Slide(a, b, x + 1, k) else x
  }

  /** Whether round d enters diagonal k from the diagonal above it, by an insertion. */
  predicate TakesAbove(d: int, k: int, left: int, right: int) {
    k == -d || (k != d && left < right)
  }

  /** The diagonal a round continues, given the endpoints of the two neighbours. */
  function From(d: int, k: int, left: int, right: int): int {
    if TakesAbove(d, k, left, right) then k + 1 else k - 1
  }

  /** Where a round enters diagonal k, given the endpoints of the two neighbours. */
  function Entry(d: int, k: int, left: int, right: int): int {
    if TakesAbove(d, k, left, right) then right else left + 1
  }

  /** The row that round d makes of the row before it. */
  function Next<T(==,!new)>(a: seq<T>, b: seq<T>, d: int, prev: Row): Row {
    k => Slide(a, b, Entry(d, k, prev(k - 1), prev(k + 1)), k)
  }

  /** The rows that rounds 0 to d start from; the first is all zero. */
  function Rows<T(==,!new)>(a: seq<T>, b: seq<T>, d: nat): (rows: seq<Row>)
    ensures |rows| == d + 1
  {
    if d == 0 then [_ => 0]
    else
      var before := Rows(a, b, d - 1);
      before + [Next(a, b, d - 1, before[d - 1])]
  }

  /** A run of diagonal moves, from column lo up to column hi. */
  function Diagonal(lo: int, hi: int, k: int): (ms: seq<Pair>)
    requires lo <= hi
    ensures |ms| == hi - lo
    ensures forall i | 0 <= i < |ms| :: ms[i] == Pair(lo + i, lo + i - k)
    decreases hi - lo
  {
    if lo == hi then [] else Diagonal(lo, hi - 1, k) + [Pair(hi - 1, hi - 1 - k)]
  }

  /** The diagonal moves on the way to the endpoint of diagonal k in round d. */
  function Path<T(==)>(a: seq<T>, b: seq<T>, rows: seq<Row>, d: nat, k: int): seq<Pair>
    requires d < |rows|
    decreases d
  {
    var left, right := rows[d](k - 1), rows[d](k + 1);
    var s := Entry(d, k, left, right);
    (if d == 0 then [] else Path(a, b, rows, d - 1, From(d, k, left, right))) + Diagonal(s, Slide(a, b, s, k), k)
  }

  /** The number of edits between all of a and all of b. */
  function Edits<T(==)>(a: seq<T>, b: seq<T>): (d: nat)
    ensures d == Dist(a, b, |a|, |b|) <= |a| + |b|
    ensures OnRound(d, |a| - |b|)
  {
    DistBounds(a, b, |a|, |b|);
    Dist(a, b, |a|, |b|)
  }

  /** What commonLines returns. */
  function Matches<T(==,!new)>(a: seq<T>, b: seq<T>): seq<Pair> {
    var d := Edits(a, b);
    Path(a, b, Rows(a, b, d), d, |a| - |b|)
  }

  // ---- furthest reach ----------------------------------------------------

  /** x is the last column on diagonal k that d edits can reach. */
  ghost predicate Furthest<T(!new)>(a: seq<T>, b: seq<T>, d: int, k: int, x: int) {
    && x >= 0 && x - k >= 0
    && DistOn(a, b, k, x) <= d
    && forall x' :: x' > x ==> DistOn(a, b, k, x') > d
  }

  /** The row names the furthest point on diagonal k, if round d visits it. */
  ghost predicate GoodCell<T(!new)>(a: seq<T>, b: seq<T>, d: nat, row: Row, k: int) {
    OnRound(d, k) ==> Furthest(a, b, d, k, row(k))
  }

  ghost predicate GoodRow<T(!new)>(a: seq<T>, b: seq<T>, d: nat, row: Row) {
    forall k :: GoodCell(a, b, d, row, k)
  }

  /** prev is a correct row for round d to start from. */
  ghost predicate Good<T(!new)>(a: seq<T>, b: seq<T>, d: nat, prev: Row) {
    if d == 0 then prev(1) == 0 else GoodRow(a, b, d - 1, prev)
  }

  /** Each row grew out of the one before it, from a correct start. */
  ghost predicate Linked<T(!new)>(a: seq<T>, b: seq<T>, rows: seq<Row>) {
    && |rows| > 0
    && (forall d | 0 <= d < |rows| :: Good(a, b, d, rows[d]))
    && (forall d | 0 < d < |rows| :: rows[d] == Next(a, b, d - 1, rows[d - 1]))
  }

  /** Beyond the entry point the point to the left is d edits away or more. */
  lemma LeftIsFar<T(!new)>(a: seq<T>, b: seq<T>, d: nat, k: int, prev: Row, s: int, x: int)
    requires OnRound(d, k) && Good(a, b, d, prev) && s == Entry(d, k, prev(k - 1), prev(k + 1))
    requires x > s >= 0 && x - k > 0
    ensures DistOn(a, b, k - 1, x - 1) >= d
  {
    if d > 0 && OnRound(d - 1, k - 1) {
      assert GoodCell(a, b, d - 1, prev, k - 1);
    } else {
      DistBounds(a, b, x - 1, x - k);
    }
  }

  /** So is the point above. */
  lemma AboveIsFar<T(!new)>(a: seq<T>, b: seq<T>, d: nat, k: int, prev: Row, s: int, x: int)
    requires OnRound(d, k) && Good(a, b, d, prev) && s == Entry(d, k, prev(k - 1), prev(k + 1))
    requires x > s >= 0 && x - k > 0
    ensures DistOn(a, b, k + 1, x) >= d
  {
    if d > 0 && OnRound(d - 1, k + 1) {
      assert GoodCell(a, b, d - 1, prev, k + 1);
    } else {
      DistBounds(a, b, x, x - k - 1);
    }
  }

  /**
   Past the entry point of a round, every point within d edits was reached by a
   diagonal: otherwise a point of round d - 1 would lie further than its furthest.
   */
  lemma OnlyByDiagonal<T(!new)>(a: seq<T>, b: seq<T>, d: nat, k: int, prev: Row, s: int, x: int)
    requires OnRound(d, k) && Good(a, b, d, prev) && s == Entry(d, k, prev(k - 1), prev(k + 1))
    requires x > s >= 0 && x - k > 0
    requires DistOn(a, b, k, x) <= d
    ensures Joins(a, b, k, x - 1)
  {
    LeftIsFar(a, b, d, k, prev, s, x);
    AboveIsFar(a, b, d, k, prev, s, x);
  }

  /** The endpoint that a round continues, and the cost of moving on from it. */
  lemma Continues<T(!new)>(a: seq<T>, b: seq<T>, d: nat, k: int, prev: Row, p: int)
    requires OnRound(d, k) && d > 0 && Good(a, b, d, prev) && p == From(d, k, prev(k - 1), prev(k + 1))
    ensures OnRound(d - 1, p) && Furthest(a, b, d - 1, p, prev(p))
    ensures var s := Entry(d, k, prev(k - 1), prev(k + 1));
            if p > k then s == prev(p) && s - k == prev(p) - p + 1 else s == prev(p) + 1 && s - k == prev(p) - p
  {
    assert OnRound(d - 1, p);
    assert GoodCell(a, b, d - 1, prev, p);
  }

  /** The entry point lies in the quadrant and costs at most d edits. */
  lemma EntryWithin<T(!new)>(a: seq<T>, b: seq<T>, d: nat, k: int, prev: Row, s: int)
    requires OnRound(d, k) && Good(a, b, d, prev) && s == Entry(d, k, prev(k - 1), prev(k + 1))
    ensures s >= 0 && s - k >= 0 && DistOn(a, b, k, s) <= d
  {
    if d > 0 {
      var p := From(d, k, prev(k - 1), prev(k + 1));
      var x := prev(p);
      Continues(a, b, d, k, prev, p);
      OneMore(a, b, x, x - p);
    }
  }

  lemma {:induction false} SlideKeepsDist<T(!new)>(a: seq<T>, b: seq<T>, k: int, lo: int, hi: int)
    requires 0 <= lo <= hi && lo - k >= 0
    requires forall i | lo <= i < hi :: Joins(a, b, k, i)
    ensures DistOn(a, b, k, hi) == DistOn(a, b, k, lo)
    ensures Length(a, b, hi, hi - k) == Length(a, b, lo, lo - k) + hi - lo
    decreases hi - lo
  {
    if lo < hi {
      SlideKeepsDist(a, b, k, lo, hi - 1);
      assert Joins(a, b, k, hi - 1);
    }
  }

  lemma DiagonalStep<T(!new)>(a: seq<T>, b: seq<T>, x: nat, y: nat)
    ensures Length(a, b, x + 1, y + 1) <= Length(a, b, x, y) + 1
  {
    OneMore(a, b, x, y);
  }

  /** Distance never falls along a diagonal. */
  lemma {:induction false} DiagonalDist<T(!new)>(a: seq<T>, b: seq<T>, k: int, lo: int, hi: int)
    requires 0 <= lo <= hi && lo - k >= 0
    ensures DistOn(a, b, k, lo) <= DistOn(a, b, k, hi)
    decreases hi - lo
  {
    if lo < hi {
      DiagonalDist(a, b, k, lo, hi - 1);
      DiagonalStep(a, b, hi - 1, hi - 1 - k);
    }
  }

  lemma NothingFurther<T(!new)>(a: seq<T>, b: seq<T>, d: nat, k: int, prev: Row, s: int, x: int, x': int)
    requires OnRound(d, k) && Good(a, b, d, prev) && s == Entry(d, k, prev(k - 1), prev(k + 1))
    requires 0 <= s <= x < x' && s - k >= 0 && !Joins(a, b, k, x)
    ensures DistOn(a, b, k, x') > d
  {
    DiagonalDist(a, b, k, x + 1, x');
    if DistOn(a, b, k, x + 1) <= d {
      OnlyByDiagonal(a, b, d, k, prev, s, x + 1);
      assert false;
    }
  }

  /** Myers' lemma: sliding from the better neighbour ends at the furthest point d edits reach. */
  lemma EndpointIsFurthest<T(!new)>(a: seq<T>, b: seq<T>, d: nat, k: int, prev: Row, s: int)
    requires OnRound(d, k) && Good(a, b, d, prev) && s == Entry(d, k, prev(k - 1), prev(k + 1))
    ensures Furthest(a, b, d, k, Slide(a, b, s, k))
  {
    var x := Slide(a, b, s, k);
    EntryWithin(a, b, d, k, prev, s);
    SlideKeepsDist(a, b, k, s, x);
    forall x' | x' > x
      ensures DistOn(a, b, k, x') > d
    {
      NothingFurther(a, b, d, k, prev, s, x, x');
    }
  }

  lemma NextIsGood<T(!new)>(a: seq<T>, b: seq<T>, d: nat, prev: Row)
    requires Good(a, b, d, prev)
    ensures Good(a, b, d + 1, Next(a, b, d, prev))
  {
    var row := Next(a, b, d, prev);
    forall k
      ensures GoodCell(a, b, d, row, k)
    {
      if OnRound(d, k) {
        EndpointIsFurthest(a, b, d, k, prev, Entry(d, k, prev(k - 1), prev(k + 1)));
      }
    }
  }

  /** Every row is correct. */
  lemma {:induction false} RowsAreLinked<T(!new)>(a: seq<T>, b: seq<T>, d: nat)
    ensures Linked(a, b, Rows(a, b, d))
  {
    if d > 0 {
      RowsAreLinked(a, b, d - 1);
      LinkOneMore(a, b, Rows(a, b, d - 1), d - 1);
    }
  }

  lemma LinkAt<T(!new)>(a: seq<T>, b: seq<T>, rows: seq<Row>, d: nat, p: int)
    requires d < |rows| && Linked(a, b, rows)
    ensures Good(a, b, d, rows[d])
    ensures d > 0 ==> rows[d](p) == Slide(a, b, Entry(d - 1, p, rows[d - 1](p - 1), rows[d - 1](p + 1)), p)
  {
    assert d > 0 ==> rows[d] == Next(a, b, d - 1, rows[d - 1]);
  }

  lemma LinkOneMore<T(!new)>(a: seq<T>, b: seq<T>, rows: seq<Row>, d: nat)
    requires Linked(a, b, rows) && |rows| == d + 1
    ensures Linked(a, b, rows + [Next(a, b, d, rows[d])])
  {
    hide Good, Next;
    NextIsGood(a, b, d, rows[d]);
  }

  // ---- the far corner ------------------------------------------------------

  /** The search cannot stop anywhere but at the far corner, and not before round Edits. */
  lemma StopsAtCorner<T(!new)>(a: seq<T>, b: seq<T>, d: nat, k: int, x: int)
    requires d <= Edits(a, b) && Furthest(a, b, d, k, x)
    requires x >= |a| && x - k >= |b|
    ensures x == |a| && k == |a| - |b| && d == Edits(a, b)
  {
    Beyond(a, b, x, x - k);
  }

  /** In round Edits the corner is the endpoint of its diagonal; in earlier rounds it is out of reach. */
  lemma CornerReached<T(!new)>(a: seq<T>, b: seq<T>, d: nat, k: int, x: int)
    requires k == |a| - |b| && Furthest(a, b, d, k, x)
    ensures d == Edits(a, b) ==> x == |a|
    ensures d < Edits(a, b) ==> x < |a|
  {
    if x > |a| {
      Beyond(a, b, x, x - k);
    } else if x < |a| {
      assert DistOn(a, b, k, |a|) > d;
    }
    if x == |a| {
      assert DistOn(a, b, k, |a|) == Edits(a, b);
    }
    DiagonalDist(a, b, k, if x < |a| then x else |a|, if x < |a| then |a| else x);
  }

  lemma {:induction false} LengthFits<T>(a: seq<T>, b: seq<T>, i: nat, j: nat)
    ensures Length(a, b, i, j) <= |a|
    decreases i
  {
    if i > |a| {
      Flat(a, b, i, j);
      LengthFits(a, b, i - 1, j);
    } else {
      DistBounds(a, b, i, j);
    }
  }

  /** Endpoints may leave the grid, but never by more than the round: no 32-bit cell overflows. */
  lemma EndpointFits<T(!new)>(a: seq<T>, b: seq<T>, d: nat, k: int, x: int)
    requires Furthest(a, b, d, k, x)
    ensures 0 <= x <= |a| + d
  {
    LengthFits(a, b, x, x - k);
    DistBounds(a, b, x, x - k);
  }

  // ---- the matches form a longest common subsequence ------------------------

  /** A diagonal run extends a common subsequence that ends before it. */
  lemma DiagonalExtends<T(!new)>(a: seq<T>, b: seq<T>, ms: seq<Pair>, lo: int, hi: int, k: int)
    requires CommonSubsequence(a, b, ms) && lo <= hi
    requires forall p <- ms :: p.base < lo && p.other < lo - k
    requires forall i | lo <= i < hi :: Joins(a, b, k, i)
    ensures CommonSubsequence(a, b, ms + Diagonal(lo, hi, k))
    ensures forall p <- ms + Diagonal(lo, hi, k) :: p.base < hi && p.other < hi - k
  {
    var run := Diagonal(lo, hi, k);
    forall s | 0 <= s < |run|
      ensures Agree(a, b, run[s].base, run[s].other)
    {
      assert Joins(a, b, k, lo + s);
    }
    forall s | 0 <= s < |ms|
      ensures ms[s].base < lo && ms[s].other < lo - k
    {
      assert ms[s] in ms;
    }
  }

  lemma NothingIsCommon<T(!new)>(a: seq<T>, b: seq<T>)
    ensures CommonSubsequence(a, b, [])
  {
  }

  /** Pairs on the way to an endpoint are matches, in order, and before the endpoint. */
  lemma {:induction false} PathIsCommon<T(!new)>(a: seq<T>, b: seq<T>, rows: seq<Row>, d: nat, k: int, x: int)
    requires d < |rows| && Linked(a, b, rows) && OnRound(d, k)
    requires x == Slide(a, b, Entry(d, k, rows[d](k - 1), rows[d](k + 1)), k)
    ensures CommonSubsequence(a, b, Path(a, b, rows, d, k))
    ensures forall p <- Path(a, b, rows, d, k) :: p.base < x && p.other < x - k
    decreases d
  {
    hide Linked, Good, Furthest, CommonSubsequence;
    var prev := rows[d];
    var ms: seq<Pair> := [];
    assert CommonSubsequence(a, b, ms) by {
      NothingIsCommon(a, b);
    }
    if d > 0 {
      var q := From(d, k, prev(k - 1), prev(k + 1));
      LinkAt(a, b, rows, d, q);
      Continues(a, b, d, k, prev, q);
      PathIsCommon(a, b, rows, d - 1, q, prev(q));
      ms := Path(a, b, rows, d - 1, q);
    }
    DiagonalExtends(a, b, ms, Entry(d, k, prev(k - 1), prev(k + 1)), x, k);
  }

  /** A run of matches costs nothing and adds its length. */
  lemma RunCosts<T(!new)>(a: seq<T>, b: seq<T>, d: nat, k: int, prev: Row, s: int, x: int)
    requires OnRound(d, k) && Good(a, b, d, prev)
    requires s == Entry(d, k, prev(k - 1), prev(k + 1)) && x == Slide(a, b, s, k)
    ensures DistOn(a, b, k, s) == DistOn(a, b, k, x)
    ensures Length(a, b, x, x - k) == Length(a, b, s, s - k) + x - s
  {
    EntryWithin(a, b, d, k, prev, s);
    SlideKeepsDist(a, b, k, s, x);
  }

  /** Where all d edits are needed, the move into the diagonal is the d-th, and matches nothing. */
  lemma EntryCosts<T(!new)>(a: seq<T>, b: seq<T>, d: nat, k: int, prev: Row, s: int, p: int)
    requires OnRound(d, k) && d > 0 && Good(a, b, d, prev)
    requires p == From(d, k, prev(k - 1), prev(k + 1)) && s == Entry(d, k, prev(k - 1), prev(k + 1))
    requires DistOn(a, b, k, s) == d
    ensures OnRound(d - 1, p) && DistOn(a, b, p, prev(p)) == d - 1
    ensures Length(a, b, s, s - k) == Length(a, b, prev(p), prev(p) - p)
  {
    Continues(a, b, d, k, prev, p);
    OneMore(a, b, prev(p), prev(p) - p);
  }

  lemma FirstEntry<T(!new)>(a: seq<T>, b: seq<T>, k: int, prev: Row)
    requires OnRound(0, k) && Good(a, b, 0, prev)
    ensures k == 0 && Entry(0, k, prev(k - 1), prev(k + 1)) == 0
  {
  }

  lemma PathSize<T(!new)>(a: seq<T>, b: seq<T>, rows: seq<Row>, d: nat, k: int, s: int, p: int)
    requires d < |rows|
    requires s == Entry(d, k, rows[d](k - 1), rows[d](k + 1)) && p == From(d, k, rows[d](k - 1), rows[d](k + 1))
    ensures |Path(a, b, rows, d, k)|
         == (if d == 0 then 0 else |Path(a, b, rows, d - 1, p)|) + Slide(a, b, s, k) - s
  {
  }

  /** On a diagonal whose endpoint needs all d edits, the path collects every common element. */
  lemma {:induction false} PathIsLongest<T(!new)>(a: seq<T>, b: seq<T>, rows: seq<Row>, d: nat, k: int, x: int, s: int)
    requires d < |rows| && Linked(a, b, rows) && OnRound(d, k)
    requires s == Entry(d, k, rows[d](k - 1), rows[d](k + 1)) && x == Slide(a, b, s, k)
    requires DistOn(a, b, k, x) == d
    ensures |Path(a, b, rows, d, k)| == Length(a, b, x, x - k)
    decreases d
  {
    hide Linked, Good, Length, Path, Slide, Entry, From, DistOn;
    var p := From(d, k, rows[d](k - 1), rows[d](k + 1));
    LinkAt(a, b, rows, d, p);
    RunCosts(a, b, d, k, rows[d], s, x);
    PathSize(a, b, rows, d, k, s, p);
    if d == 0 {
      assert s == 0 by {
        FirstEntry(a, b, k, rows[0]);
      }
      assert Length(a, b, s, s - k) == 0 by {
        DistBounds(a, b, s, s - k);
      }
    } else {
      EntryCosts(a, b, d, k, rows[d], s, p);
      PathIsLongest(a, b, rows, d - 1, p, rows[d](p), Entry(d - 1, p, rows[d - 1](p - 1), rows[d - 1](p + 1)));
    }
  }

  lemma NoLonger<T(!new)>(a: seq<T>, b: seq<T>, ms: seq<Pair>)
    requires CommonSubsequence(a, b, ms)
    ensures |ms| <= Length(a, b, |a|, |b|)
  {
    forall s | 0 <= s < |ms|
      ensures ms[s].base < |a| && ms[s].other < |b|
    {
      assert Agree(a, b, ms[s].base, ms[s].other);
    }
    LengthBounds(a, b, ms, |a|, |b|);
  }

  /** The path of round Edits leads to the far corner. */
  lemma CornerRow<T(!new)>(a: seq<T>, b: seq<T>, d: nat, k: int, prev: Row)
    requires d == Edits(a, b) && k == |a| - |b| && Good(a, b, d, prev)
    ensures Slide(a, b, Entry(d, k, prev(k - 1), prev(k + 1)), k) == |a|
  {
    EndpointIsFurthest(a, b, d, k, prev, Entry(d, k, prev(k - 1), prev(k + 1)));
    CornerReached(a, b, d, k, Slide(a, b, Entry(d, k, prev(k - 1), prev(k + 1)), k));
  }

  lemma CornerPath<T(!new)>(a: seq<T>, b: seq<T>, rows: seq<Row>, d: nat, k: int)
    requires d == Edits(a, b) && k == |a| - |b|
    requires d < |rows| && Linked(a, b, rows)
    ensures CommonSubsequence(a, b, Path(a, b, rows, d, k))
    ensures |Path(a, b, rows, d, k)| == Length(a, b, |a|, |b|)
  {
    hide Linked, Good, CommonSubsequence, Length;
    LinkAt(a, b, rows, d, k);
    CornerRow(a, b, d, k, rows[d]);
    PathIsCommon(a, b, rows, d, k, |a|);
    PathIsLongest(a, b, rows, d, k, |a|, Entry(d, k, rows[d](k - 1), rows[d](k + 1)));
  }

  /** The result of the comparison is a longest common subsequence. */
  lemma MatchesAreLongest<T(!new)>(a: seq<T>, b: seq<T>)
    ensures CommonSubsequence(a, b, Matches(a, b))
    ensures 2 * |Matches(a, b)| == |a| + |b| - Edits(a, b)
    ensures forall ms | CommonSubsequence(a, b, ms) :: |ms| <= |Matches(a, b)|
  {
    hide Linked, CommonSubsequence, Length, Path, Rows;
    var d := Edits(a, b);
    RowsAreLinked(a, b, d);
    CornerPath(a, b, Rows(a, b, d), d, |a| - |b|);
    forall ms: seq<Pair> | CommonSubsequence(a, b, ms)
      ensures |ms| <= Length(a, b, |a|, |b|)
    {
      NoLonger(a, b, ms);
    }
  }
}
