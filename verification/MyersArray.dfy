/**
 The comparison as the source runs it (src/diff3.ts:34-94): one frontier array updated in
 place, a snapshot of it for every round, and the walk back over the snapshots.
 */
module MyersArray {
  import opened Lcs
  import opened Myers

  /** A read past the end of the typed array counts as zero. */
  function At(v: seq<int>, i: int): int {
    if 0 <= i < |v| then v[i] else 0
  }

  /** The cell of diagonal k, at offset max, holds its endpoint, if round d visits it. */
  ghost predicate Cell(v: seq<int>, max: int, d: int, row: Row, k: int) {
    OnRound(d, k) ==> 0 <= k + max < |v| && v[k + max] == row(k)
  }

  /** Cells below diagonal k hold their endpoints of round d. */
  ghost predicate Holds(v: seq<int>, max: int, d: int, row: Row, k: int) {
    forall j | j < k :: Cell(v, max, d, row, j)
  }

  /** v still answers what round d asks of the row before it. */
  ghost predicate Answers(v: seq<int>, max: int, d: int, prev: Row) {
    if d == 0 then At(v, max + 1) == prev(1) else Holds(v, max, d - 1, prev, d)
  }

  /** v as it stands when round d begins. */
  ghost predicate Frontier(v: seq<int>, max: int, d: int, prev: Row) {
    |v| == 2 * max + 1 && 0 <= d <= max && Answers(v, max, d, prev)
  }

  /** v in the middle of round d: diagonals below k done, the row before still readable. */
  ghost predicate Midway(v: seq<int>, max: int, d: int, now: Row, prev: Row, k: int) {
    && |v| == 2 * max + 1 && 0 <= d <= max
    && Holds(v, max, d, now, k)
    && (d > 0 || k <= 0 ==> Answers(v, max, d, prev))
  }

  lemma ReadCell(v: seq<int>, max: int, e: int, row: Row, k: int)
    requires Holds(v, max, e, row, e + 1)
    ensures OnRound(e, k) ==> At(v, k + max) == row(k)
  {
    assert OnRound(e, k) ==> Cell(v, max, e, row, k);
  }

  /** Read off the array, the comparison of the two neighbours makes the same choice. */
  lemma ArrayChoice(v: seq<int>, max: int, d: int, prev: Row, k: int)
    requires OnRound(d, k) && d >= 0 && Answers(v, max, d, prev)
    ensures Entry(d, k, At(v, k + max - 1), At(v, k + max + 1)) == Entry(d, k, prev(k - 1), prev(k + 1))
    ensures From(d, k, At(v, k + max - 1), At(v, k + max + 1)) == From(d, k, prev(k - 1), prev(k + 1))
    ensures var p := From(d, k, prev(k - 1), prev(k + 1)); d > 0 ==> At(v, p + max) == prev(p)
  {
    if d > 0 {
      ReadCell(v, max, d - 1, prev, k - 1);
      ReadCell(v, max, d - 1, prev, k + 1);
    }
  }

  /** Writing one cell finishes its diagonal. */
  lemma WriteHere(v: seq<int>, w: seq<int>, max: int, d: int, row: Row, k: int)
    requires OnRound(d, k) && 0 <= k + max < |v| && w == v[k + max := row(k)]
    requires Holds(v, max, d, row, k)
    ensures Holds(w, max, d, row, k + 2)
  {
    forall j | j < k + 2
      ensures Cell(w, max, d, row, j)
    {
      assert j < k ==> Cell(v, max, d, row, j);
    }
  }

  /** A write on one parity leaves the row before, on the other parity, alone. */
  lemma WriteElsewhere(v: seq<int>, w: seq<int>, max: int, e: int, row: Row, k: int, x: int)
    requires OnRound(e + 1, k) && 0 <= k + max < |v| && w == v[k + max := x]
    requires Holds(v, max, e, row, e + 1)
    ensures Holds(w, max, e, row, e + 1)
  {
    forall j | j < e + 1
      ensures Cell(w, max, e, row, j)
    {
      assert Cell(v, max, e, row, j);
    }
  }

  lemma WriteEndpoint(v: seq<int>, w: seq<int>, max: int, d: int, now: Row, prev: Row, k: int)
    requires OnRound(d, k) && Midway(v, max, d, now, prev, k)
    requires w == v[k + max := now(k)]
    ensures Midway(w, max, d, now, prev, k + 2)
  {
    WriteHere(v, w, max, d, now, k);
    if d > 0 {
      WriteElsewhere(v, w, max, d - 1, prev, k, now(k));
    }
  }

  /** The corner is not the endpoint of any diagonal of round d below k. */
  ghost predicate Missed<T(!new)>(a: seq<T>, b: seq<T>, d: int, k: int) {
    OnRound(d, |a| - |b|) && |a| - |b| < k ==> Edits(a, b) > d
  }

  /** A round that ended without meeting the corner leaves it at least one edit further off. */
  lemma MissedRound<T(!new)>(a: seq<T>, b: seq<T>, d: int)
    requires Edits(a, b) >= d && Missed(a, b, d, d + 1)
    ensures Edits(a, b) >= d + 1
  {
  }

  /** What the endpoint of one more diagonal says about the corner. */
  lemma CornerMet<T(!new)>(a: seq<T>, b: seq<T>, d: nat, k: int, prev: Row, x: int)
    requires OnRound(d, k) && d <= Edits(a, b) && Good(a, b, d, prev) && Missed(a, b, d, k)
    requires x == Next(a, b, d, prev)(k)
    ensures if x >= |a| && x - k >= |b| then d == Edits(a, b) else Missed(a, b, d, k + 2)
  {
    hide Good, Furthest, Slide, Entry, Edits;
    EndpointIsFurthest(a, b, d, k, prev, Entry(d, k, prev(k - 1), prev(k + 1)));
    if x >= |a| && x - k >= |b| {
      StopsAtCorner(a, b, d, k, x);
    } else if k == |a| - |b| {
      CornerReached(a, b, d, k, x);
    }
  }

  /** One diagonal of one round: choose the entry, slide, store the endpoint. */
  method Extend<T(==,!new)>(a: seq<T>, b: seq<T>, v: array<int>, d: nat, k: int, ghost prev: Row) returns (x: int)
    requires OnRound(d, k) && v.Length == 2 * (|a| + |b|) + 1 && d <= |a| + |b|
    requires Answers(v[..], |a| + |b|, d, prev) && Good(a, b, d, prev)
    modifies v
    ensures x == Next(a, b, d, prev)(k)
    ensures v[..] == old(v[..])[k + |a| + |b| := x]
  {
    hide Good, Answers, Dist;
    var idx := k + |a| + |b|;
    if -k == d || (k != d && At(v[..], idx - 1) < At(v[..], idx + 1)) {
      x := At(v[..], idx + 1);
    } else {
      x := At(v[..], idx - 1) + 1;
    }
    var y := x - k;
    assert x == Entry(d, k, prev(k - 1), prev(k + 1)) by {
      ArrayChoice(v[..], |a| + |b|, d, prev, k);
    }
    EntryWithin(a, b, d, k, prev, x);
    ghost var s := x;
    hide Entry;
    while x < |a| && y < |b| && a[x] == b[y]
      invariant x >= 0 && y >= 0
      invariant y == x - k && Slide(a, b, x, k) == Slide(a, b, s, k)
      decreases |a| - x
    {
      x := x + 1;
      y := y + 1;
    }
    v[idx] := x;
  }

  /** One round, on every second diagonal; stops early when it meets the far corner. */
  method Round<T(==,!new)>(a: seq<T>, b: seq<T>, v: array<int>, d: nat, ghost prev: Row) returns (found: bool)
    requires v.Length == 2 * (|a| + |b|) + 1 && Frontier(v[..], |a| + |b|, d, prev) && Good(a, b, d, prev)
    requires d <= Edits(a, b)
    modifies v
    ensures found <==> d == Edits(a, b)
    ensures !found && d < |a| + |b| ==> Frontier(v[..], |a| + |b|, d + 1, Next(a, b, d, prev))
  {
    hide Good, Next, Holds, Answers, Edits;
    ghost var now := Next(a, b, d, prev);
    var k := -(d as int);
    assert Holds(v[..], |a| + |b|, d, now, k) by {
      NothingYet(v[..], |a| + |b|, d, now);
    }
    while k <= d
      invariant 0 <= k + d && k <= d + 2 && (d - k) % 2 == 0
      invariant Midway(v[..], |a| + |b|, d, now, prev, k)
      invariant Missed(a, b, d, k)
      decreases d + 2 - k
    {
      ghost var was := v[..];
      var x := Extend(a, b, v, d, k, prev);
      WriteEndpoint(was, v[..], |a| + |b|, d, now, prev, k);
      CornerMet(a, b, d, k, prev, x);
      if x >= |a| && x - k >= |b| {
        return true;
      }
      k := k + 2;
    }
    RoundOver(v[..], |a| + |b|, d, now, prev, k);
    MissedRound(a, b, d);
    return false;
  }

  lemma NothingYet(v: seq<int>, max: int, d: nat, now: Row)
    ensures Holds(v, max, d, now, -(d as int))
  {
  }

  lemma RoundOver(v: seq<int>, max: int, d: nat, now: Row, prev: Row, k: int)
    requires Midway(v, max, d, now, prev, k) && k > d
    ensures Answers(v, max, d + 1, now)
  {
    forall j | j < d + 1
      ensures Cell(v, max, d, now, j)
    {
    }
  }

  lemma RowsGrow<T(!new)>(a: seq<T>, b: seq<T>, d: nat)
    ensures Rows(a, b, d + 1) == Rows(a, b, d) + [Next(a, b, d, Rows(a, b, d)[d])]
  {
  }

  lemma FirstFrontier<T(!new)>(a: seq<T>, b: seq<T>, v: seq<int>)
    requires |v| == 2 * (|a| + |b|) + 1 && forall i | 0 <= i < |v| :: v[i] == 0
    ensures Frontier(v, |a| + |b|, 0, Rows(a, b, 0)[0])
  {
  }

  /** Forward search: rounds of growing distance until the far corner is an endpoint. */
  method Search<T(==,!new)>(a: seq<T>, b: seq<T>) returns (d: nat, trace: seq<seq<int>>)
    ensures d == Edits(a, b)
    ensures |trace| == d + 1
    ensures forall s | 0 <= s <= d :: Frontier(trace[s], |a| + |b|, s, Rows(a, b, d)[s])
  {
    hide Rows, Next, Edits, Good, Frontier;
    var max := |a| + |b|;
    trace := [];
    var v := new int[2 * max + 1](_ => 0);
    d := 0;
    ghost var rows := Rows(a, b, 0);
    FirstFrontier(a, b, v[..]);
    while d <= max
      invariant d <= max + 1 && |trace| == d && d <= Edits(a, b)
      invariant rows == Rows(a, b, d)
      invariant d <= max ==> Frontier(v[..], max, d, rows[d])
      invariant forall s | 0 <= s < d :: Frontier(trace[s], max, s, rows[s])
    {
      trace := trace + [v[..]];
      RowIsGood(a, b, d);
      var found := Round(a, b, v, d, rows[d]);
      if found {
        break;
      }
      RowsGrow(a, b, d);
      rows := rows + [Next(a, b, d, rows[d])];
      d := d + 1;
    }
  }

  lemma RowIsGood<T(!new)>(a: seq<T>, b: seq<T>, d: nat)
    ensures Good(a, b, d, Rows(a, b, d)[d])
  {
    RowsAreLinked(a, b, d);
  }

  function Reversed<X>(s: seq<X>): (r: seq<X>)
    ensures |r| == |s|
  {
    if s == [] then [] else [s[|s| - 1]] + Reversed(s[..|s| - 1])
  }

  lemma NothingReversed()
    ensures Reversed<Pair>([]) == []
  {
  }

  lemma PushReversed<X>(s: seq<X>, x: X)
    ensures Reversed(s + [x]) == [x] + Reversed(s)
  {
    assert (s + [x])[..|s|] == s;
  }

  /** The inner loop of the walk back: the run of diagonals down to an entry point, last pair first. */
  method EmitRun(x0: int, y0: int, prevX: int, prevY: int, already: seq<Pair>, ghost lo: int)
    returns (matches: seq<Pair>)
    requires lo == (if prevX >= prevY + x0 - y0 then prevX else prevY + x0 - y0) <= x0
    ensures Reversed(matches) == Diagonal(lo, x0, x0 - y0) + Reversed(already)
  {
    matches := already;
    var x, y := x0, y0;
    ghost var k := x0 - y0;
    while x > prevX && y > prevY
      invariant lo <= x <= x0 && y == x - k
      invariant Diagonal(lo, x, k) + Reversed(matches) == Diagonal(lo, x0, k) + Reversed(already)
    {
      x := x - 1;
      y := y - 1;
      PushReversed(matches, Pair(x, y));
      assert Diagonal(lo, x, k) + ([Pair(x, y)] + Reversed(matches)) == Diagonal(lo, x + 1, k) + Reversed(matches);
      matches := matches + [Pair(x, y)];
    }
    assert Diagonal(lo, lo, k) + Reversed(matches) == Reversed(matches);
  }

  /** (x, y) is the endpoint of diagonal x - y in round step, and the pairs before it are not in done. */
  ghost predicate Walking<T(!new)>(a: seq<T>, b: seq<T>, rows: seq<Row>, whole: seq<Pair>, step: nat,
                                   x: int, y: int, done: seq<Pair>)
    requires step < |rows|
  {
    var k := x - y;
    && OnRound(step, k)
    && x == Slide(a, b, Entry(step, k, rows[step](k - 1), rows[step](k + 1)), k)
    && whole == Path(a, b, rows, step, k) + done
  }

  lemma WalkStarts<T(!new)>(a: seq<T>, b: seq<T>, d: nat, rows: seq<Row>)
    requires d == Edits(a, b) && rows == Rows(a, b, d)
    ensures Walking(a, b, rows, Matches(a, b), d, |a|, |b|, [])
  {
    hide Rows, Good, Path, Edits, Entry;
    RowIsGood(a, b, d);
    CornerRow(a, b, d, |a| - |b|, rows[d]);
  }

  lemma PathUnfold<T(!new)>(a: seq<T>, b: seq<T>, rows: seq<Row>, d: nat, k: int, s: int, p: int)
    requires 0 < d < |rows|
    requires s == Entry(d, k, rows[d](k - 1), rows[d](k + 1)) && p == From(d, k, rows[d](k - 1), rows[d](k + 1))
    ensures Path(a, b, rows, d, k) == Path(a, b, rows, d - 1, p) + Diagonal(s, Slide(a, b, s, k), k)
  {
  }

  /** Emitting the run of one round leaves the path of the round before. */
  lemma WalkContinues<T(!new)>(a: seq<T>, b: seq<T>, rows: seq<Row>, whole: seq<Pair>, step: nat,
                               x: int, y: int, done: seq<Pair>, p: int, s: int, done': seq<Pair>)
    requires 0 < step < |rows| && Linked(a, b, rows) && Walking(a, b, rows, whole, step, x, y, done)
    requires p == From(step, x - y, rows[step](x - y - 1), rows[step](x - y + 1))
    requires s == Entry(step, x - y, rows[step](x - y - 1), rows[step](x - y + 1))
    requires s <= x && done' == Diagonal(s, x, x - y) + done
    ensures Walking(a, b, rows, whole, step - 1, rows[step](p), rows[step](p) - p, done')
  {
    hide Linked, Good, Furthest, Path, Entry, From, Slide, Diagonal;
    LinkAt(a, b, rows, step, p);
    Continues(a, b, step, x - y, rows[step], p);
    PathUnfold(a, b, rows, step, x - y, s, p);
    var front, run := Path(a, b, rows, step - 1, p), Diagonal(s, x, x - y);
    assert (front + run) + done == front + (run + done);
  }

  lemma WalkStands<T(!new)>(a: seq<T>, b: seq<T>, rows: seq<Row>, whole: seq<Pair>, step: nat, x: int, y: int, done: seq<Pair>)
    requires step < |rows| && Walking(a, b, rows, whole, step, x, y, done)
    ensures OnRound(step, x - y)
    ensures Entry(step, x - y, rows[step](x - y - 1), rows[step](x - y + 1)) <= x
  {
  }

  lemma WalkEnds<T(!new)>(a: seq<T>, b: seq<T>, rows: seq<Row>, whole: seq<Pair>, x: int, y: int, done: seq<Pair>)
    requires |rows| > 0 && rows[0](1) == 0 && Walking(a, b, rows, whole, 0, x, y, done)
    ensures x == y >= 0 && whole == Diagonal(0, x, 0) + done
  {
  }

  /** One step of the walk back: from an endpoint to the endpoint it grew out of. */
  method BackOne(prev: seq<int>, max: int, step: nat, x: int, y: int, already: seq<Pair>, ghost row: Row)
    returns (prevX: int, prevY: int, matches: seq<Pair>)
    requires step > 0 && OnRound(step, x - y) && Answers(prev, max, step, row)
    requires Entry(step, x - y, row(x - y - 1), row(x - y + 1)) <= x
    ensures prevX - prevY == From(step, x - y, row(x - y - 1), row(x - y + 1))
    ensures prevX == row(prevX - prevY)
    ensures Reversed(matches)
         == Diagonal(Entry(step, x - y, row(x - y - 1), row(x - y + 1)), x, x - y) + Reversed(already)
  {
    var k := x - y;
    var idx := k + max;
    var prevK := if -k == step || (k != step && At(prev, idx - 1) < At(prev, idx + 1)) then k + 1 else k - 1;
    prevX := At(prev, prevK + max);
    prevY := prevX - prevK;
    ArrayChoice(prev, max, step, row, k);
    matches := EmitRun(x, y, prevX, prevY, already, Entry(step, k, row(k - 1), row(k + 1)));
  }

  /** Backtrack over the recorded rounds, collecting the diagonal moves. */
  method WalkBack<T(==,!new)>(a: seq<T>, b: seq<T>, d: nat, trace: seq<seq<int>>) returns (matches: seq<Pair>)
    requires d == Edits(a, b) && |trace| == d + 1
    requires forall s | 0 <= s <= d :: Frontier(trace[s], |a| + |b|, s, Rows(a, b, d)[s])
    ensures matches == Matches(a, b)
  {
    hide Rows, Matches, Linked, Path, Edits, Walking, Entry, From, Answers, Reversed, Slide;
    ghost var rows, whole := Rows(a, b, d), Matches(a, b);
    RowsAreLinked(a, b, d);
    WalkStarts(a, b, d, rows);
    FirstRow(a, b, d);
    matches := [];
    NothingReversed();
    var x, y := |a|, |b|;
    var step := d;
    while step > 0
      invariant 0 <= step <= d
      invariant Walking(a, b, rows, whole, step, x, y, Reversed(matches))
    {
      assert Frontier(trace[step], |a| + |b|, step, rows[step]);
      WalkStands(a, b, rows, whole, step, x, y, Reversed(matches));
      ghost var s := Entry(step, x - y, rows[step](x - y - 1), rows[step](x - y + 1));
      var prevX, prevY, longer := BackOne(trace[step], |a| + |b|, step, x, y, matches, rows[step]);
      WalkContinues(a, b, rows, whole, step, x, y, Reversed(matches), prevX - prevY, s, Reversed(longer));
      x, y, matches := prevX, prevY, longer;
      step := step - 1;
    }
    WalkEnds(a, b, rows, whole, x, y, Reversed(matches));
    matches := EmitRun(x, y, 0, 0, matches, 0);
    matches := Reversed(matches);
  }

  lemma FirstRow<T(!new)>(a: seq<T>, b: seq<T>, d: nat)
    ensures Rows(a, b, d)[0](1) == 0
  {
    RowsAreLinked(a, b, d);
  }

  /** Myers' comparison as the source runs it. */
  method CommonLines<T(==,!new)>(a: seq<T>, b: seq<T>) returns (matches: seq<Pair>)
    ensures matches == Matches(a, b)
    ensures CommonSubsequence(a, b, matches)
    ensures 2 * |matches| == |a| + |b| - Edits(a, b)
    ensures forall ms | CommonSubsequence(a, b, ms) :: |ms| <= |matches|
  {
    var d, trace := Search(a, b);
    matches := WalkBack(a, b, d, trace);
    MatchesAreLongest(a, b);
  }
}
