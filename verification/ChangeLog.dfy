/**
 The change log and its readers (server/internal/store/store.go:159-191,
 src/sync-engine.ts:518-575, src/index-store.ts:139-157).
 */
module ChangeLog {
  import opened Content
  import opened Store
  import opened StoreLaws

  // ---- the log ---------------------------------------------------------------

  lemma OneRowPerNumber(s: State, n: int)
    requires Inv(s)
    ensures forall p, q | p in s.files && q in s.files && s.files[p].seqNo == n && s.files[q].seqNo == n :: p == q
  {
    forall p, q | p in s.files && q in s.files && s.files[p].seqNo == n && s.files[q].seqNo == n
      ensures p == q
    {
      LogNumbersAreDistinct(s, p, q);
    }
  }

  /** The row written under number n, if its path has not been written again since. */
  function RowAt(s: State, n: int): (rows: seq<File>)
    requires Inv(s)
    ensures |rows| <= 1
    ensures forall f <- rows :: f.path in s.files && s.files[f.path] == f && f.seqNo == n
    ensures forall p | p in s.files && s.files[p].seqNo == n :: rows == [s.files[p]]
  {
    OneRowPerNumber(s, n);
    if exists p :: p in s.files && s.files[p].seqNo == n then
      var p :| p in s.files && s.files[p].seqNo == n;
      assert RowRecorded(s, p);
      [s.files[p]]
    else []
  }

  /** Rows with lo < number <= hi, in order. */
  function Log(s: State, lo: int, hi: int): seq<File>
    requires Inv(s)
    decreases hi - lo
  {
    if lo >= hi then [] else RowAt(s, lo + 1) + Log(s, lo + 1, hi)
  }

  ghost predicate Ascending(rows: seq<File>) {
    forall i, j | 0 <= i < j < |rows| :: rows[i].seqNo < rows[j].seqNo
  }

  /** The log holds exactly the rows of its range, each once, in order. */
  lemma {:induction false} LogIsComplete(s: State, lo: int, hi: int)
    requires Inv(s)
    ensures Ascending(Log(s, lo, hi))
    ensures forall f <- Log(s, lo, hi) :: f.path in s.files && s.files[f.path] == f && lo < f.seqNo <= hi
    ensures forall p | p in s.files && lo < s.files[p].seqNo <= hi :: s.files[p] in Log(s, lo, hi)
    decreases hi - lo
  {
    if lo < hi {
      LogIsComplete(s, lo + 1, hi);
      hide Inv;
      var first, rest := RowAt(s, lo + 1), Log(s, lo + 1, hi);
      assert forall f <- first + rest :: f in first || f in rest;
    }
  }

  /** Cutting the log at a number. */
  lemma {:induction false} LogSplits(s: State, lo: int, mid: int, hi: int)
    requires Inv(s) && lo <= mid <= hi
    ensures Log(s, lo, hi) == Log(s, lo, mid) + Log(s, mid, hi)
    decreases mid - lo
  {
    if lo < mid {
      LogSplits(s, lo + 1, mid, hi);
    }
  }

  lemma LogUnfold(s: State, lo: int, hi: int)
    requires Inv(s)
    ensures Log(s, lo, hi) == if lo >= hi then [] else RowAt(s, lo + 1) + Log(s, lo + 1, hi)
  {
  }

  /** The first k rows are the log up to the number of the k-th. */
  lemma {:induction false} LogPrefix(s: State, lo: int, hi: int, k: int)
    requires Inv(s) && 0 < k <= |Log(s, lo, hi)|
    ensures lo < Log(s, lo, hi)[k - 1].seqNo <= hi
    ensures Log(s, lo, hi)[..k] == Log(s, lo, Log(s, lo, hi)[k - 1].seqNo)
    decreases hi - lo
  {
    hide Inv, Log, RowAt;
    LogUnfold(s, lo, hi);
    var all, first, rest := Log(s, lo, hi), RowAt(s, lo + 1), Log(s, lo + 1, hi);
    if |first| == k {
      assert all[k - 1] == first[k - 1] && first[k - 1] in first;
      LogUnfold(s, lo, lo + 1);
      LogUnfold(s, lo + 1, lo + 1);
      assert all[..k] == first + [];
    } else {
      LogPrefix(s, lo + 1, hi, k - |first|);
      assert all[k - 1] == rest[k - |first| - 1];
      LogUnfold(s, lo, all[k - 1].seqNo);
      assert all[..k] == first + rest[..k - |first|];
    }
  }

  datatype Page = Page(entries: seq<File>, nextSeq: int, hasMore: bool)

  function Clamp(limit: int): int {
    if limit <= 0 || limit > 5000 then 500 else limit
  }

  /** The delta after since, at most limit rows of it. */
  function Changes(s: State, since: int, limit: int): Page
    requires Inv(s)
  {
    var rows := Log(s, since, s.counter);
    var entries := if |rows| <= Clamp(limit) then rows else rows[..Clamp(limit)];
    if entries == [] then Page([], if s.counter < since then since else s.counter, false)
    else Page(entries, entries[|entries| - 1].seqNo, |entries| == Clamp(limit))
  }

  /** A page is the log up to its own next cursor, and the last page reaches the counter. */
  lemma PageIsPrefix(s: State, since: int, limit: int)
    requires Inv(s) && since <= s.counter
    ensures var page := Changes(s, since, limit);
            && since <= page.nextSeq <= s.counter
            && page.entries == Log(s, since, page.nextSeq)
            && (page.entries != [] ==> since < page.nextSeq)
            && (!page.hasMore ==> Log(s, page.nextSeq, s.counter) == [])
  {
    var page, rows := Changes(s, since, limit), Log(s, since, s.counter);
    if rows != [] {
      LogPrefix(s, since, s.counter, |page.entries|);
      LogSplits(s, since, page.nextSeq, s.counter);
      assert rows[..|rows|] == rows;
    }
  }

  /** A page holds exactly the rows up to its own next cursor, in order; a last page leaves none behind. */
  lemma PageIsComplete(s: State, since: int, limit: int)
    requires Inv(s) && since <= s.counter
    ensures var page := Changes(s, since, limit);
            && since <= page.nextSeq <= s.counter && Ascending(page.entries)
            && (forall f <- page.entries :: f.path in s.files && s.files[f.path] == f && since < f.seqNo <= page.nextSeq)
            && (forall p <- s.files :: since < s.files[p].seqNo <= page.nextSeq ==> s.files[p] in page.entries)
            && (page.hasMore ==> page.entries != [])
            && (!page.hasMore ==> forall p <- s.files :: !(page.nextSeq < s.files[p].seqNo <= s.counter))
  {
    var page := Changes(s, since, limit);
    assert page.hasMore ==> page.entries != [];
    hide Inv, Changes, Log, Ascending;
    PageIsPrefix(s, since, limit);
    LogIsComplete(s, since, page.nextSeq);
    if !page.hasMore {
      LogIsComplete(s, page.nextSeq, s.counter);
    }
  }

  /** A page has as many rows as were asked for, 500 where that is no number from 1 to 5000, or all that are left. */
  lemma PageIsFull(s: State, since: int, limit: int)
    requires Inv(s) && since <= s.counter
    ensures var page, most := Changes(s, since, limit), if 1 <= limit <= 5000 then limit else 500;
            && |page.entries| <= most && (page.hasMore <==> |page.entries| == most)
            && (|page.entries| < most ==> page.entries == Log(s, since, s.counter))
  {
    hide Inv, Log;
  }

  /**
   With nobody writing, paging from any cursor applies the rest of the log, each row
   once and in order, whatever the page size, and stops.
   */
  method PullAll(s: State, cursor: int, limit: int) returns (applied: seq<File>, end: int)
    requires Inv(s) && cursor <= s.counter
    ensures applied == Log(s, cursor, s.counter)
    ensures Log(s, end, s.counter) == [] && cursor <= end <= s.counter
  {
    applied := [];
    end := cursor;
    while true
      invariant cursor <= end <= s.counter
      invariant applied == Log(s, cursor, end)
      decreases |Log(s, end, s.counter)|
    {
      hide Log;
      PageIsPrefix(s, end, limit);
      var page := Changes(s, end, limit);
      LogSplits(s, cursor, end, page.nextSeq);
      LogSplits(s, end, page.nextSeq, s.counter);
      LogSplits(s, cursor, page.nextSeq, s.counter);
      applied := applied + page.entries;
      end := page.nextSeq;
      if !page.hasMore {
        return;
      }
    }
  }

  // ---- a reader among writers ---------------------------------------------------

  /** A device in the middle of a page: what it holds, what it has still to apply. */
  datatype Reader = Reader(cursor: int, pending: seq<File>, delivered: map<Path, File>)

  datatype Event =
    | Serve(op: Op)
    | Fetch(limit: int)
    | Apply
    | Restart(cursor: int)

  const NEW_READER := Reader(0, [], map[])

  /** The reader applies the first row it holds; the cursor only moves forward. */
  function Advance(r: Reader): Reader
    requires r.pending != []
  {
    var f := r.pending[0];
    Reader(if f.seqNo > r.cursor then f.seqNo else r.cursor, r.pending[1..], r.delivered[f.path := f])
  }

  /** One thing happens: anybody writes, or the reader fetches, applies one row, or is cut off. */
  function Happen(s: State, r: Reader, e: Event): (State, Reader)
    requires Inv(s)
  {
    match e
    case Serve(op) => (Step(s, op), r)
    case Fetch(limit) =>
      if r.pending != [] then (s, r)
      else
        var page := Changes(s, r.cursor, limit);
        if page.entries == [] then (s, r.(cursor := page.nextSeq))
        else (s, r.(pending := page.entries))
    case Apply =>
      if r.pending == [] then (s, r) else (s, Advance(r))
    case Restart(cursor) =>
      // Stopped or killed: the page is lost, and the cursor falls back to a checkpoint.
      if 0 <= cursor <= r.cursor then (s, r.(cursor := cursor, pending := [])) else (s, r)
  }

  function Last(r: Reader): int {
    if r.pending == [] then r.cursor else r.pending[|r.pending| - 1].seqNo
  }

  /** What the reader owes and holds for one path. */
  ghost predicate Tracked(s: State, r: Reader, p: Path) {
    p in s.files ==>
      && (s.files[p].seqNo <= r.cursor ==> p in r.delivered && r.delivered[p] == s.files[p])
      && (r.cursor < s.files[p].seqNo <= Last(r) ==> s.files[p] in r.pending)
  }

  ghost predicate Timely(s: State, r: Reader, f: File) {
    && r.cursor < f.seqNo <= Last(r)
    && (f.path in s.files ==> s.files[f.path] == f || s.files[f.path].seqNo > Last(r))
  }

  ghost predicate ReaderInv(s: State, r: Reader) {
    && 0 <= r.cursor && Last(r) <= s.counter && r.cursor <= s.counter
    && Ascending(r.pending)
    && (forall f <- r.pending :: Timely(s, r, f))
    && (forall p <- r.delivered :: r.delivered[p].seqNo <= s.counter)
    && (forall p :: Tracked(s, r, p))
  }

  lemma ServeKeepsReader(s: State, r: Reader, op: Op)
    requires Inv(s) && ReaderInv(s, r)
    ensures ReaderInv(Step(s, op), r)
  {
    var t := Step(s, op);
    CounterGrows(s, op);
    forall f <- r.pending
      ensures Timely(t, r, f)
    {
      assert Timely(s, r, f);
      StepChangesRow(s, op, f.path);
    }
    forall p
      ensures Tracked(t, r, p)
    {
      assert Tracked(s, r, p);
      StepChangesRow(s, op, p);
    }
  }

  lemma CounterGrows(s: State, op: Op)
    requires Inv(s)
    ensures s.counter <= Step(s, op).counter
  {
  }

  /** A row that is new after a step carries a number beyond the old counter. */
  lemma StepChangesRow(s: State, op: Op, p: Path)
    requires Inv(s)
    ensures p in Step(s, op).files ==>
              (p in s.files && s.files[p] == Step(s, op).files[p]) || Step(s, op).files[p].seqNo > s.counter
  {
    match op {
      case PutOp(a) => assert RowRecorded(s, a.path);
      case DeleteOp(q, _, _) => assert RowRecorded(s, q);
      case RenameOp(from, to, _, _) => assert RowRecorded(s, from) && RowRecorded(s, to);
      case CollectOp(_) =>
      case ForgetOp(_) =>
    }
  }

  /** A fetched page owes the reader exactly the rows up to its own cursor. */
  lemma PageTracks(s: State, r: Reader, page: Page, q: Reader, p: Path)
    requires Tracked(s, r, p) && r.pending == []
    requires q == if page.entries == [] then r.(cursor := page.nextSeq) else r.(pending := page.entries)
    requires page.entries != [] ==> page.entries[|page.entries| - 1].seqNo == page.nextSeq
    requires p in s.files && r.cursor < s.files[p].seqNo <= page.nextSeq ==> s.files[p] in page.entries
    ensures Tracked(s, q, p)
  {
  }

  lemma FetchKeepsReader(s: State, r: Reader, limit: int)
    requires Inv(s) && ReaderInv(s, r)
    ensures ReaderInv(s, Happen(s, r, Fetch(limit)).1)
  {
    if r.pending == [] {
      var page, q := Changes(s, r.cursor, limit), Happen(s, r, Fetch(limit)).1;
      assert page.entries != [] ==> page.entries[|page.entries| - 1].seqNo == page.nextSeq;
      assert q == if page.entries == [] then r.(cursor := page.nextSeq) else r.(pending := page.entries);
      hide Inv, Changes, Happen, ReaderInv, Ascending;
      assert r.cursor <= s.counter by {
        CursorInRange(s, r);
      }
      PageIsComplete(s, r.cursor, limit);
      PageIsTaken(s, r, page, q);
    }
  }

  lemma CursorInRange(s: State, r: Reader)
    requires ReaderInv(s, r)
    ensures r.cursor <= s.counter
  {
  }

  lemma PageIsTaken(s: State, r: Reader, page: Page, q: Reader)
    requires ReaderInv(s, r) && r.pending == []
    requires q == if page.entries == [] then r.(cursor := page.nextSeq) else r.(pending := page.entries)
    requires page.entries != [] ==> page.entries[|page.entries| - 1].seqNo == page.nextSeq
    requires r.cursor <= page.nextSeq <= s.counter && Ascending(page.entries)
    requires forall f <- page.entries :: f.path in s.files && s.files[f.path] == f && r.cursor < f.seqNo <= page.nextSeq
    requires forall p <- s.files :: r.cursor < s.files[p].seqNo <= page.nextSeq ==> s.files[p] in page.entries
    ensures ReaderInv(s, q)
  {
    hide Tracked, Timely, Ascending;
    forall f <- q.pending
      ensures Timely(s, q, f)
    {
      PageIsTimely(s, r, page, q, f);
    }
    forall p
      ensures Tracked(s, q, p)
    {
      assert Tracked(s, r, p);
      PageTracks(s, r, page, q, p);
    }
  }

  lemma PageIsTimely(s: State, r: Reader, page: Page, q: Reader, f: File)
    requires f in page.entries && q == r.(pending := page.entries)
    requires page.entries[|page.entries| - 1].seqNo == page.nextSeq
    requires r.cursor < f.seqNo <= page.nextSeq && f.path in s.files && s.files[f.path] == f
    ensures Timely(s, q, f)
  {
  }

  lemma ApplyTracks(s: State, r: Reader, p: Path)
    requires r.pending != [] && Ascending(r.pending) && Tracked(s, r, p) && Timely(s, r, r.pending[0])
    requires p in s.files ==> s.files[p].path == p
    ensures Tracked(s, Advance(r), p)
  {
  }

  lemma ApplyKeepsReader(s: State, r: Reader)
    requires Inv(s) && ReaderInv(s, r)
    ensures ReaderInv(s, Happen(s, r, Apply).1)
  {
    if r.pending != [] {
      var f, r' := r.pending[0], Happen(s, r, Apply).1;
      assert Timely(s, r, f);
      assert Last(r') == Last(r);
      forall g <- r'.pending
        ensures Timely(s, r', g)
      {
        assert Timely(s, r, g);
        var i :| 0 <= i < |r'.pending| && r'.pending[i] == g;
        assert r.pending[i + 1] == g;
      }
      forall p
        ensures Tracked(s, r', p)
      {
        assert Tracked(s, r, p) && RowRecorded(s, p);
        ApplyTracks(s, r, p);
      }
    }
  }

  lemma RestartKeepsReader(s: State, r: Reader, cursor: int)
    requires Inv(s) && ReaderInv(s, r)
    ensures ReaderInv(s, Happen(s, r, Restart(cursor)).1)
  {
    var r' := Happen(s, r, Restart(cursor)).1;
    forall p
      ensures Tracked(s, r', p)
    {
      assert Tracked(s, r, p);
    }
  }

  lemma HappenKeeps(s: State, r: Reader, e: Event)
    requires Inv(s) && ReaderInv(s, r)
    ensures Inv(Happen(s, r, e).0) && ReaderInv(Happen(s, r, e).0, Happen(s, r, e).1)
  {
    hide Inv, ReaderInv;
    match e
    case Serve(op) =>
      StepKeepsInv(s, op);
      ServeKeepsReader(s, r, op);
    case Fetch(limit) => FetchKeepsReader(s, r, limit);
    case Apply => ApplyKeepsReader(s, r);
    case Restart(cursor) => RestartKeepsReader(s, r, cursor);
  }

  /** The world after a sequence of events. */
  ghost predicate Reaches(s: State, r: Reader, es: seq<Event>, t: State, q: Reader)
    requires Inv(s) && ReaderInv(s, r)
    decreases |es|
  {
    if es == [] then t == s && q == r
    else
      HappenKeeps(s, r, es[0]);
      var next := Happen(s, r, es[0]);
      Reaches(next.0, next.1, es[1..], t, q)
  }

  lemma {:induction false} ReachesKeeps(s: State, r: Reader, es: seq<Event>, t: State, q: Reader)
    requires Inv(s) && ReaderInv(s, r) && Reaches(s, r, es, t, q)
    ensures Inv(t) && ReaderInv(t, q)
    decreases |es|
  {
    if es != [] {
      HappenKeeps(s, r, es[0]);
      var next := Happen(s, r, es[0]);
      ReachesKeeps(next.0, next.1, es[1..], t, q);
    }
  }

  /**
   However writes, renames, collections, page reads, partial pages and restarts
   interleave, the cursor never passes the counter, and every row at or before the
   cursor has been delivered in its current form.
   */
  lemma CursorIsSound(s: State, r: Reader, es: seq<Event>, t: State, q: Reader, p: Path)
    requires Inv(s) && ReaderInv(s, r) && Reaches(s, r, es, t, q)
    ensures 0 <= q.cursor <= t.counter
    ensures p in t.files && t.files[p].seqNo <= q.cursor ==> p in q.delivered && q.delivered[p] == t.files[p]
  {
    ReachesKeeps(s, r, es, t, q);
    assert Tracked(t, q, p);
  }

  /** A new device on any vault starts out sound. */
  lemma NewReaderIsSound(s: State)
    requires Inv(s)
    ensures ReaderInv(s, NEW_READER)
  {
    forall p
      ensures Tracked(s, NEW_READER, p)
    {
      assert RowRecorded(s, p);
    }
  }

  // ---- the second query of an empty page -------------------------------------------

  /**
   An empty page takes its cursor from a second query.  When others write between the
   two queries, at state s and then at state t, the reader gets this cursor.
   */
  function SplitRead(r: Reader, t: State): Reader {
    r.(cursor := if t.counter < r.cursor then r.cursor else t.counter)
  }

  lemma {:induction false} RunChangesRow(s: State, ops: seq<Op>, p: Path)
    requires Inv(s)
    ensures s.counter <= Run(s, ops).counter
    ensures p in Run(s, ops).files && Run(s, ops).files[p].seqNo <= s.counter ==>
              p in s.files && s.files[p] == Run(s, ops).files[p]
    decreases |ops|
  {
    if ops != [] {
      StepKeepsInv(s, ops[0]);
      CounterGrows(s, ops[0]);
      StepChangesRow(s, ops[0], p);
      RunChangesRow(Step(s, ops[0]), ops[1..], p);
    }
  }

  /** The split read is sound exactly when no row written in between is still in the log. */
  lemma SplitReadExactly(s: State, r: Reader, limit: int, ops: seq<Op>)
    requires Inv(s) && ReaderInv(s, r) && r.pending == []
    requires Changes(s, r.cursor, limit).entries == []
    ensures var t := Run(s, ops);
            (forall p :: Tracked(t, SplitRead(r, t), p)) <==> (forall p <- t.files :: t.files[p].seqNo <= s.counter)
  {
    var t, q := Run(s, ops), SplitRead(r, Run(s, ops));
    RunKeepsInv(s, ops);
    LogIsComplete(s, r.cursor, s.counter);
    hide Inv, Log, Run;
    forall p
      ensures p in t.files && t.files[p].seqNo <= s.counter ==> Tracked(t, q, p)
      ensures p in t.files && t.files[p].seqNo > s.counter ==> !Tracked(t, q, p)
    {
      RunChangesRow(s, ops, p);
      SplitReadRow(s, r, t, p);
    }
    if forall p <- t.files :: t.files[p].seqNo <= s.counter {
      forall p ensures Tracked(t, q, p) {
      }
    }
  }

  lemma SplitReadRow(s: State, r: Reader, t: State, p: Path)
    requires ReaderInv(s, r) && r.pending == [] && Inv(t) && s.counter <= t.counter
    requires forall f <- s.files :: !(r.cursor < s.files[f].seqNo <= s.counter)
    requires p in t.files && t.files[p].seqNo <= s.counter ==> p in s.files && s.files[p] == t.files[p]
    ensures p in t.files ==> (Tracked(t, SplitRead(r, t), p) <==> t.files[p].seqNo <= s.counter)
  {
    assert Tracked(s, r, p) && RowRecorded(t, p);
  }

  /** A write between the two queries is skipped for good. */
  lemma SplitReadSkips(hash: Hash)
    ensures var t := Put(EMPTY, PutArgs("n", 0, Some(hash), 0, 0, false, "")).0;
            && Changes(EMPTY, 0, 200).entries == []
            && "n" in t.files && t.files["n"].seqNo <= SplitRead(NEW_READER, t).cursor
            && "n" !in SplitRead(NEW_READER, t).delivered
  {
    assert Log(EMPTY, 0, 0) == [];
  }
}
