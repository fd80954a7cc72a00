/**
 A whole pass over a quiet server: what every step of it keeps, and what it leaves behind
 (src/sync-engine.ts:518-575, 949-964, 1006-1078).
 */
module EnginePass {
  import opened Content
  import opened Store
  import opened StoreLaws
  import ChangeLog
  import opened Engine
  import opened EngineQuiet

  // ---- what holds between steps -------------------------------------------------------

  /** A row the cursor has not reached. */
  predicate Unseen(w: World, p: Path) {
    p in w.server.files && w.server.files[p].seqNo > w.cursor
  }

  ghost predicate ServerReady(w: World, cfg: Config) {
    Readable(w.server, cfg) && RenamesOrdered(w.server) && w.cursor <= w.server.counter
  }

  ghost predicate AllCoherent(w: World, cfg: Config) {
    forall p | !Excluded(cfg, p) :: Coherent(w, cfg, p, !Unseen(w, p))
  }

  ghost predicate AllSighted(w: World, cfg: Config) {
    forall p | !Excluded(cfg, p) :: Sighted(w, p, !Unseen(w, p))
  }

  ghost predicate NothingMovesOn(w: World, p: Path) {
    forall q <- w.server.files :: w.server.files[q].renamedFrom == Some(p) ==> w.server.files[q].seqNo <= w.cursor
  }

  /** Settled, and nothing still to be read renames the file away. */
  ghost predicate Kept(w: World, cfg: Config, p: Path) {
    Settled(w, cfg, p) && NothingMovesOn(w, p)
  }

  ghost predicate Held(w: World, cfg: Config, p: Path, c: Bytes) {
    Kept(w, cfg, p) && Won(w, cfg, p, c)
  }

  ghost predicate Undecided(w: World, cfg: Config, p: Path, c: Bytes) {
    Waiting(w, cfg, p, c, !Unseen(w, p)) || Held(w, cfg, p, c)
  }

  /** Every edit that was waiting in w0 still is, or has won. */
  ghost predicate Promised(w0: World, w: World, cfg: Config) {
    forall p, c | !Excluded(cfg, p) && Waiting(w0, cfg, p, c, !Unseen(w0, p)) :: Undecided(w, cfg, p, c)
  }

  // ---- applying one row of a page --------------------------------------------------------

  /** The rest of a page: exactly the rows up to its end that are still unseen, in order. */
  ghost predicate RestOfPage(w: World, entries: seq<File>, end: int) {
    && w.cursor <= end <= w.server.counter
    && ChangeLog.Ascending(entries)
    && (forall f <- entries :: f.path in w.server.files && w.server.files[f.path] == f && w.cursor < f.seqNo <= end)
    && (forall p <- w.server.files :: w.cursor < w.server.files[p].seqNo <= end ==> w.server.files[p] in entries)
  }

  function CursorAt(w: World, seqNo: int): World {
    w.(cursor := if seqNo > w.cursor then seqNo else w.cursor)
  }

  /** One turn of the pull loop. */
  function Turn(w: World, cfg: Config, f: File, copy: Path, now: int): World {
    CursorAt(if Excluded(cfg, f.path) then w else ApplyRemote(w, cfg, f, copy, now).0, f.seqNo)
  }

  /** Rows written since the page was read are this device's own, settled, and no renames. */
  ghost predicate News(w: World, cfg: Config, top: int) {
    forall p | !Excluded(cfg, p) && p in w.server.files && w.server.files[p].seqNo > top ::
      Kept(w, cfg, p) && w.server.files[p].renamedFrom == None
  }

  /** How a turn changes a path other than the one it is about. */
  ghost predicate Bystander(w: World, w': World, q: Path) {
    (SameAt(w, w', q) || (UntrackedNow(w, w', q) && (IsLive(w.server, q) ==> Unseen(w', q))))
    && (Unseen(w, q) <==> Unseen(w', q))
  }

  /** All that a turn does. */
  ghost predicate Turned(w: World, w': World, cfg: Config, f: File) {
    && ServerReady(w', cfg) && Converges(w, w', cfg) && w'.cursor == f.seqNo
    && f.path in w'.server.files && Wrote(w, w', cfg, f.path)
    && (!Excluded(cfg, f.path) ==> Coherent(w', cfg, f.path, true))
    && (w'.server != w.server ==> Settled(w', cfg, f.path))
    && (forall q | q != f.path :: Bystander(w, w', q))
  }

  /** The first row of the page is the only one between the cursor and its number. */
  lemma FirstIsNext(w: World, entries: seq<File>, end: int, q: Path)
    requires Inv(w.server) && entries != [] && RestOfPage(w, entries, end)
    requires q in w.server.files && w.cursor < w.server.files[q].seqNo <= entries[0].seqNo
    ensures q == entries[0].path
  {
    assert w.server.files[q] in entries;
    LogNumbersAreDistinct(w.server, q, entries[0].path);
  }

  lemma OthersStand(w: World, w': World, cfg: Config, f: File, copy: Path, q: Path)
    requires ServerReady(w, cfg) && f.path in w.server.files && w.server.files[f.path] == f
    requires Applied(w, w', cfg, f, copy) && Free(w, copy) && q != f.path && w.cursor < f.seqNo
    requires q in w.server.files && w.cursor < w.server.files[q].seqNo ==> f.seqNo < w.server.files[q].seqNo
    ensures Bystander(w, CursorAt(w', f.seqNo), q)
  {
    hide Readable, Coherent, Converges, Settled;
    assert RenameOrdered(w.server, f.path);
    if !SameAt(w, w', q) {
      assert q in Beside(f, copy) - {f.path};
    }
  }

  lemma TurnDone(w: World, cfg: Config, entries: seq<File>, end: int, copy: Path, now: int)
    requires ServerReady(w, cfg) && AllCoherent(w, cfg) && Free(w, copy)
    requires entries != [] && RestOfPage(w, entries, end)
    ensures Turned(w, Turn(w, cfg, entries[0], copy, now), cfg, entries[0])
    ensures !Excluded(cfg, entries[0].path) ==> ApplyRemote(w, cfg, entries[0], copy, now).1 == Done
  {
    var f, w' := entries[0], Turn(w, cfg, entries[0], copy, now);
    assert f in entries;
    forall q | q != f.path
      ensures q in w.server.files && w.cursor < w.server.files[q].seqNo ==> f.seqNo < w.server.files[q].seqNo
    {
      if q in w.server.files && w.cursor < w.server.files[q].seqNo <= f.seqNo {
        FirstIsNext(w, entries, end, q);
      }
    }
    if Excluded(cfg, f.path) {
      ExcludedTurn(w, cfg, f, copy, now);
    } else {
      TurnApplies(w, cfg, f, copy, now);
    }
  }

  lemma ExcludedTurn(w: World, cfg: Config, f: File, copy: Path, now: int)
    requires ServerReady(w, cfg) && Excluded(cfg, f.path) && w.cursor < f.seqNo <= w.server.counter
    requires f.path in w.server.files && w.server.files[f.path] == f
    requires forall q | q != f.path && q in w.server.files && w.cursor < w.server.files[q].seqNo :: f.seqNo < w.server.files[q].seqNo
    ensures Turned(w, Turn(w, cfg, f, copy, now), cfg, f)
  {
    var w' := Turn(w, cfg, f, copy, now);
    hide Readable, Coherent;
    assert w' == w.(cursor := f.seqNo);
    CursorConverges(w, w', cfg);
    hide Converges, Excluded, ApplyRemote;
    forall q | q != f.path
      ensures Bystander(w, w', q)
    {
    }
  }

  lemma CursorConverges(w: World, w': World, cfg: Config)
    requires w' == w.(cursor := w'.cursor)
    ensures Converges(w, w', cfg)
  {
    UnsettledMoves(w, w', cfg);
  }

  lemma UnsettledMoves(w: World, w': World, cfg: Config)
    requires w' == w.(cursor := w'.cursor)
    ensures Unsettled(w', cfg) == Unsettled(w, cfg)
  {
  }

  lemma TurnApplies(w: World, cfg: Config, f: File, copy: Path, now: int)
    requires ServerReady(w, cfg) && AllCoherent(w, cfg) && Free(w, copy) && !Excluded(cfg, f.path)
    requires f.path in w.server.files && w.server.files[f.path] == f && w.cursor < f.seqNo <= w.server.counter
    requires forall q | q != f.path && q in w.server.files && w.cursor < w.server.files[q].seqNo :: f.seqNo < w.server.files[q].seqNo
    ensures Turned(w, Turn(w, cfg, f, copy, now), cfg, f)
    ensures ApplyRemote(w, cfg, f, copy, now).1 == Done
  {
    var v, w' := ApplyRemote(w, cfg, f, copy, now).0, Turn(w, cfg, f, copy, now);
    assert Coherent(w, cfg, f.path, false);
    RemoteApplies(w, cfg, f, copy, now);
    hide Excluded, ApplyRemote, Readable, Coherent, Settled;
    RenamesStayOrdered(w, v, cfg, f, copy);
    WriteMoves(w, v, w', cfg, f.path);
    CoherentMoves(v, w', cfg, f.path);
    SettledMoves(v, w', cfg, f.path);
    forall q | q != f.path
      ensures Bystander(w, w', q)
    {
      OthersStand(w, v, cfg, f, copy, q);
    }
    hide Applied, Bystander, RenameOrdered, Wrote, Converges;
    AppliedParts(w, v, cfg, f, copy);
  }

  lemma AppliedParts(w: World, v: World, cfg: Config, f: File, copy: Path)
    requires Applied(w, v, cfg, f, copy)
    ensures Coherent(v, cfg, f.path, true) && Readable(v.server, cfg) && f.path in v.server.files
    ensures v.server != w.server ==> Settled(v, cfg, f.path)
    ensures v.cursor == w.cursor && w.server.counter <= v.server.counter
  {
    hide Coherent, Readable, Settled, Unsettled;
  }

  lemma WriteMoves(w: World, v: World, w': World, cfg: Config, p: Path)
    requires Wrote(w, v, cfg, p) && Converges(w, v, cfg) && w' == v.(cursor := w'.cursor)
    ensures Wrote(w, w', cfg, p) && Converges(w, w', cfg)
  {
    UnsettledMoves(v, w', cfg);
    hide Unsettled;
  }

  lemma CoherentMoves(w: World, w': World, cfg: Config, p: Path)
    requires w' == w.(cursor := w'.cursor)
    ensures Coherent(w, cfg, p, true) <==> Coherent(w', cfg, p, true)
  {
  }

  lemma SettledMoves(w: World, w': World, cfg: Config, p: Path)
    requires w' == w.(cursor := w'.cursor)
    ensures Settled(w, cfg, p) <==> Settled(w', cfg, p)
  {
  }

  lemma RenamesStayOrdered(w: World, w': World, cfg: Config, f: File, copy: Path)
    requires Inv(w.server) && Applied(w, w', cfg, f, copy) && f.path in w.server.files
    requires RenamesOrdered(w.server)
    ensures RenamesOrdered(w'.server)
  {
    hide Readable, Coherent, Converges, Settled;
    forall q | q != f.path
      ensures SameRow(w, w', q)
    {
      RowElsewhere(w, w', cfg, f, copy, q);
    }
    WriteKeepsOrder(w, w', cfg, f.path);
  }

  ghost predicate SameRow(w: World, w': World, q: Path) {
    && (q in w.server.files <==> q in w'.server.files)
    && (q in w.server.files ==> w.server.files[q] == w'.server.files[q])
  }

  /** A write of its own puts a row after all others, and is no rename. */
  lemma WriteKeepsOrder(w: World, w': World, cfg: Config, p: Path)
    requires Inv(w.server) && Wrote(w, w', cfg, p)
    requires forall q | q != p :: SameRow(w, w', q)
    requires RenamesOrdered(w.server)
    ensures RenamesOrdered(w'.server)
  {
    forall q
      ensures RenameOrdered(w'.server, q)
    {
      assert RenameOrdered(w.server, q) && RowRecorded(w.server, q);
      assert q != p ==> SameRow(w, w', q);
      if q in w.server.files && w.server.files[q].renamedFrom.Some? {
        var from := w.server.files[q].renamedFrom.value;
        assert from != p ==> SameRow(w, w', from);
      }
    }
  }

  lemma RowElsewhere(w: World, w': World, cfg: Config, f: File, copy: Path, q: Path)
    requires Applied(w, w', cfg, f, copy) && q != f.path
    ensures SameRow(w, w', q)
  {
    hide Readable, Coherent, Converges, Settled;
    if !SameAt(w, w', q) {
      assert q in Beside(f, copy) - {f.path};
    }
  }

  lemma TurnKeepsCoherent(w: World, w': World, cfg: Config, f: File)
    requires AllCoherent(w, cfg) && Turned(w, w', cfg, f)
    ensures AllCoherent(w', cfg)
  {
    forall p | !Excluded(cfg, p)
      ensures Coherent(w', cfg, p, !Unseen(w', p))
    {
      if p == f.path {
        LessSeen(w', cfg, p);
      } else {
        assert Bystander(w, w', p);
        hide ServerReady, Converges, Excluded;
      }
    }
  }

  lemma LessSeen(w: World, cfg: Config, p: Path)
    requires Coherent(w, cfg, p, true)
    ensures forall seen :: Coherent(w, cfg, p, seen)
  {
  }

  lemma RowsStand(w: World, w': World, cfg: Config, f: File, q: Path)
    requires Turned(w, w', cfg, f) && q != f.path
    ensures SameRow(w, w', q)
  {
    hide ServerReady, Coherent, Converges, Excluded, Wrote, Settled;
    assert Bystander(w, w', q);
  }

  lemma LaterEntry(entries: seq<File>, g: File)
    requires entries != [] && ChangeLog.Ascending(entries) && g in entries[1..]
    ensures g in entries && entries[0].seqNo < g.seqNo
  {
    var i :| 0 <= i < |entries| - 1 && entries[1..][i] == g;
    assert entries[i + 1] == g;
  }

  lemma TurnedParts(w: World, w': World, cfg: Config, f: File)
    requires Turned(w, w', cfg, f)
    ensures w'.cursor == f.seqNo && w.server.counter <= w'.server.counter
    ensures f.path in w'.server.files && (w'.server == w.server || w'.server.files[f.path].seqNo > w.server.counter)
  {
    hide ServerReady, Coherent, Bystander, Unsettled, Settled, OwnRow;
  }

  lemma TurnKeepsPage(w: World, w': World, cfg: Config, entries: seq<File>, end: int)
    requires entries != [] && RestOfPage(w, entries, end) && Turned(w, w', cfg, entries[0])
    ensures RestOfPage(w', entries[1..], end)
  {
    var f := entries[0];
    assert f in entries;
    TurnedParts(w, w', cfg, f);
    hide Turned;
    forall g | g in entries[1..]
      ensures g.path in w'.server.files && w'.server.files[g.path] == g && w'.cursor < g.seqNo <= end
    {
      LaterEntry(entries, g);
      RowsStand(w, w', cfg, f, g.path);
    }
    forall p | p in w'.server.files && w'.cursor < w'.server.files[p].seqNo <= end
      ensures w'.server.files[p] in entries[1..]
    {
      if p != f.path {
        RowsStand(w, w', cfg, f, p);
        assert w.server.files[p] in entries;
      }
    }
  }

  lemma TurnKeepsSighted(w: World, cfg: Config, f: File, copy: Path, now: int)
    requires ServerReady(w, cfg) && AllCoherent(w, cfg) && AllSighted(w, cfg) && Free(w, copy)
    requires f.path in w.server.files && w.server.files[f.path] == f && w.cursor < f.seqNo
    requires Turned(w, Turn(w, cfg, f, copy, now), cfg, f)
    ensures AllSighted(Turn(w, cfg, f, copy, now), cfg)
  {
    var w' := Turn(w, cfg, f, copy, now);
    forall p | !Excluded(cfg, p)
      ensures Sighted(w', p, !Unseen(w', p))
    {
      if p == f.path {
        assert Coherent(w, cfg, p, false) && Sighted(w, p, false);
        RemoteSights(w, cfg, f, copy, now);
        hide ApplyRemote, Readable, Coherent, Converges, Excluded;
      } else {
        assert Bystander(w, w', p) && Sighted(w, p, !Unseen(w, p));
        hide ServerReady, Coherent, Converges, Excluded, Turn;
      }
    }
  }

  /** Past its own row, no unread row renames a path away. */
  lemma OwnTurnIsLast(w: World, w': World, cfg: Config, f: File)
    requires Turned(w, w', cfg, f) && ServerReady(w, cfg)
    requires f.path in w.server.files && w.server.files[f.path] == f
    ensures NothingMovesOn(w', f.path)
  {
    hide Readable, Converges, Excluded, Coherent, Settled;
    forall q | q in w'.server.files && w'.server.files[q].renamedFrom == Some(f.path)
      ensures w'.server.files[q].seqNo <= w'.cursor
    {
      assert RenameOrdered(w'.server, q) && RenameOrdered(w.server, q);
      assert q != f.path ==> Bystander(w, w', q);
    }
  }

  /** Applying the row of a path that has won, or of one still waiting, does not lose it. */
  lemma OwnTurn(w: World, cfg: Config, f: File, copy: Path, now: int, c: Bytes)
    requires ServerReady(w, cfg) && !Excluded(cfg, f.path) && Free(w, copy)
    requires f.path in w.server.files && w.server.files[f.path] == f && w.cursor < f.seqNo
    requires Turned(w, Turn(w, cfg, f, copy, now), cfg, f)
    requires Undecided(w, cfg, f.path, c)
    ensures Undecided(Turn(w, cfg, f, copy, now), cfg, f.path, c)
  {
    var v, w' := ApplyRemote(w, cfg, f, copy, now).0, Turn(w, cfg, f, copy, now);
    if Won(w, cfg, f.path, c) {
      RemoteKeepsWon(w, cfg, f, copy, now, c);
    } else {
      RemoteWaits(w, cfg, f, copy, now, c);
    }
    hide ApplyRemote, Readable, Converges, Excluded, Turn, Untouched, MatchesRemote;
    OwnTurnIsLast(w, w', cfg, f);
    WaitingMoves(v, w', cfg, f.path, c);
  }

  lemma WaitingMoves(w: World, w': World, cfg: Config, p: Path, c: Bytes)
    requires w' == w.(cursor := w'.cursor)
    ensures Waiting(w, cfg, p, c, true) <==> Waiting(w', cfg, p, c, true)
    ensures Won(w, cfg, p, c) <==> Won(w', cfg, p, c)
  {
  }

  lemma RowsSince(w: World, w': World, cfg: Config, f: File, q: Path)
    requires Turned(w, w', cfg, f) && q in w'.server.files
    ensures w'.server.files[q].renamedFrom == None || (q in w.server.files && w.server.files[q] == w'.server.files[q])
  {
    hide ServerReady, Coherent, Converges, Excluded;
    assert q != f.path ==> Bystander(w, w', q);
  }

  lemma StillThere(w: World, cfg: Config, f: File, copy: Path, now: int, q: Path, c: Bytes)
    requires ServerReady(w, cfg) && AllCoherent(w, cfg) && Free(w, copy) && q != f.path
    requires f.path in w.server.files && w.server.files[f.path] == f && w.cursor < f.seqNo
    requires Undecided(w, cfg, q, c)
    ensures SameAt(w, Turn(w, cfg, f, copy, now), q)
  {
    assert q != copy by {
      hide Readable, Untouched, NotMovedOn, Coherent;
    }
    if !Excluded(cfg, f.path) {
      assert Coherent(w, cfg, f.path, false);
      RemoteTouches(w, cfg, f, copy, now, q);
      hide ApplyRemote, Readable, Coherent, Excluded;
    } else {
      hide ApplyRemote, Readable, Coherent, Excluded;
    }
  }

  lemma OtherTurn(w: World, cfg: Config, f: File, copy: Path, now: int, q: Path, c: Bytes)
    requires ServerReady(w, cfg) && AllCoherent(w, cfg) && Free(w, copy) && q != f.path
    requires f.path in w.server.files && w.server.files[f.path] == f && w.cursor < f.seqNo
    requires Turned(w, Turn(w, cfg, f, copy, now), cfg, f)
    requires Undecided(w, cfg, q, c)
    ensures Undecided(Turn(w, cfg, f, copy, now), cfg, q, c)
  {
    var w' := Turn(w, cfg, f, copy, now);
    StillThere(w, cfg, f, copy, now, q, c);
    hide ServerReady, Turn, AllCoherent, Coherent, Converges, Excluded, Waiting, Won;
    assert Bystander(w, w', q);
    forall r | r in w'.server.files
      ensures w'.server.files[r].renamedFrom == None || (r in w.server.files && w.server.files[r] == w'.server.files[r])
    {
      RowsSince(w, w', cfg, f, r);
    }
    ElsewhereWaits(w, w', cfg, q, c, !Unseen(w, q));
  }

  /** A turn keeps every promise. */
  lemma TurnKeepsPromise(w0: World, w: World, cfg: Config, f: File, copy: Path, now: int)
    requires ServerReady(w, cfg) && AllCoherent(w, cfg) && Free(w, copy) && Promised(w0, w, cfg)
    requires f.path in w.server.files && w.server.files[f.path] == f && w.cursor < f.seqNo
    requires Turned(w, Turn(w, cfg, f, copy, now), cfg, f)
    ensures Promised(w0, Turn(w, cfg, f, copy, now), cfg)
  {
    var w' := Turn(w, cfg, f, copy, now);
    hide ServerReady, Turn, Turned, AllCoherent, Coherent, Converges, Excluded, Waiting, Held;
    forall p, c | !Excluded(cfg, p) && Waiting(w0, cfg, p, c, !Unseen(w0, p))
      ensures Undecided(w', cfg, p, c)
    {
      assert Undecided(w, cfg, p, c);
      if p == f.path {
        OwnTurn(w, cfg, f, copy, now, c);
      } else {
        OtherTurn(w, cfg, f, copy, now, p, c);
      }
    }
  }

  lemma KeptElsewhere(w: World, cfg: Config, f: File, copy: Path, now: int, p: Path)
    requires ServerReady(w, cfg) && AllCoherent(w, cfg) && Free(w, copy) && p != f.path
    requires f.path in w.server.files && w.server.files[f.path] == f && w.cursor < f.seqNo
    requires Turned(w, Turn(w, cfg, f, copy, now), cfg, f) && Kept(w, cfg, p)
    ensures Kept(Turn(w, cfg, f, copy, now), cfg, p)
  {
    var w' := Turn(w, cfg, f, copy, now);
    assert Undecided(w, cfg, p, w.disk[p]);
    StillThere(w, cfg, f, copy, now, p, w.disk[p]);
    hide ServerReady, Turn, AllCoherent, Coherent, Converges, Excluded, Waiting;
    forall r | r in w'.server.files && w'.server.files[r].renamedFrom == Some(p)
      ensures w'.server.files[r].seqNo <= w'.cursor
    {
      RowsSince(w, w', cfg, f, r);
    }
  }

  lemma TurnKeepsNews(w: World, cfg: Config, f: File, copy: Path, now: int, top: int)
    requires ServerReady(w, cfg) && AllCoherent(w, cfg) && Free(w, copy) && News(w, cfg, top)
    requires f.path in w.server.files && w.server.files[f.path] == f && w.cursor < f.seqNo <= top <= w.server.counter
    requires Turned(w, Turn(w, cfg, f, copy, now), cfg, f)
    ensures News(Turn(w, cfg, f, copy, now), cfg, top)
  {
    var w' := Turn(w, cfg, f, copy, now);
    OwnTurnIsLast(w, w', cfg, f);
    hide ServerReady, Turn, AllCoherent, Coherent, Converges, Excluded, Settled, NothingMovesOn;
    forall p | !Excluded(cfg, p) && p in w'.server.files && w'.server.files[p].seqNo > top
      ensures Kept(w', cfg, p) && w'.server.files[p].renamedFrom == None
    {
      if p != f.path {
        assert Bystander(w, w', p);
        hide Kept;
        KeptElsewhere(w, cfg, f, copy, now, p);
      }
    }
  }

  /** What the pull keeps from the world w0 it began in. */
  ghost predicate Pulling(w0: World, w: World, cfg: Config) {
    && ServerReady(w, cfg) && AllCoherent(w, cfg) && Promised(w0, w, cfg)
    && (AllSighted(w0, cfg) ==> AllSighted(w, cfg))
  }

  /** What it keeps within a page; nothing lies between the last page and the counter it was read at. */
  ghost predicate Paging(w: World, cfg: Config, entries: seq<File>, end: int, top: int, last: bool) {
    && RestOfPage(w, entries, end) && end <= top <= w.server.counter && News(w, cfg, top)
    && (last ==> forall p <- w.server.files :: !(end < w.server.files[p].seqNo <= top))
  }

  /** Forgetting conflicts changes nothing a pass depends on. */
  lemma PullStarts(w0: World, w: World, cfg: Config)
    requires ServerReady(w0, cfg) && AllCoherent(w0, cfg) && w == w0.(conflicts := w.conflicts)
    ensures Pulling(w0, w, cfg)
  {
    hide Readable, Excluded;
    forall p | !Excluded(cfg, p)
      ensures Coherent(w, cfg, p, !Unseen(w, p))
    {
      assert Coherent(w0, cfg, p, !Unseen(w0, p));
    }
    if AllSighted(w0, cfg) {
      forall p | !Excluded(cfg, p)
        ensures Sighted(w, p, !Unseen(w, p))
      {
        assert Sighted(w0, p, !Unseen(w0, p));
      }
    }
  }

  /** A page read in one piece. */
  lemma PageStarts(w: World, cfg: Config, limit: int)
    requires ServerReady(w, cfg)
    ensures var page := ChangeLog.Changes(w.server, w.cursor, limit);
            && Paging(w, cfg, page.entries, page.nextSeq, w.server.counter, !page.hasMore)
            && (page.hasMore ==> page.entries != [])
  {
    var s, page := w.server, ChangeLog.Changes(w.server, w.cursor, limit);
    NothingBeyond(w, cfg);
    hide Readable, ChangeLog.Changes, ChangeLog.Ascending, RenameOrdered, News;
    ReadyIsOrdered(w, cfg);
    hide Inv;
    ChangeLog.PageIsComplete(s, w.cursor, limit);
  }

  lemma ReadyIsOrdered(w: World, cfg: Config)
    requires ServerReady(w, cfg)
    ensures Inv(w.server)
  {
  }

  lemma NothingBeyond(w: World, cfg: Config)
    requires Inv(w.server)
    ensures News(w, cfg, w.server.counter)
    ensures forall p <- w.server.files :: w.server.files[p].seqNo <= w.server.counter
  {
    hide Kept, Excluded;
    forall p <- w.server.files
      ensures w.server.files[p].seqNo <= w.server.counter
    {
      assert RowRecorded(w.server, p);
    }
  }

  lemma TurnKeepsPulling(w0: World, w: World, cfg: Config, entries: seq<File>, end: int, top: int, last: bool,
                         copy: Path, now: int)
    requires Pulling(w0, w, cfg) && entries != [] && Paging(w, cfg, entries, end, top, last) && Free(w, copy)
    ensures var w' := Turn(w, cfg, entries[0], copy, now);
            && Pulling(w0, w', cfg) && Paging(w', cfg, entries[1..], end, top, last)
            && Converges(w, w', cfg) && w'.cursor == entries[0].seqNo > w.cursor
    ensures !Excluded(cfg, entries[0].path) ==> ApplyRemote(w, cfg, entries[0], copy, now).1 == Done
  {
    var f, w' := entries[0], Turn(w, cfg, entries[0], copy, now);
    assert f in entries;
    TurnDone(w, cfg, entries, end, copy, now);
    TurnKeepsCoherent(w, w', cfg, f);
    TurnKeepsPage(w, w', cfg, entries, end);
    TurnKeepsNews(w, cfg, f, copy, now, top);
    TurnKeepsPromise(w0, w, cfg, f, copy, now);
    if AllSighted(w, cfg) {
      TurnKeepsSighted(w, cfg, f, copy, now);
    }
    hide Turn, ApplyRemote, Readable, AllCoherent, AllSighted, Promised, Coherent, Excluded, News, Converges;
    assert w'.server.counter >= w.server.counter by {
      CounterNeverFalls(w, w', cfg);
    }
    if last {
      forall p | p in w'.server.files
        ensures !(end < w'.server.files[p].seqNo <= top)
      {
        if p != f.path {
          assert Bystander(w, w', p);
        }
      }
    }
  }

  lemma CounterNeverFalls(w: World, w': World, cfg: Config)
    requires Converges(w, w', cfg)
    ensures w.server.counter <= w'.server.counter
  {
  }

  lemma ConvergesOn(w: World, v: World, w': World, cfg: Config)
    requires Converges(w, v, cfg) && Converges(v, w', cfg)
    ensures Converges(w, w', cfg)
  {
    hide Unsettled;
  }

  /** The page done, the cursor may go to its end: nothing lies on the way. */
  lemma PageEnds(w0: World, w: World, cfg: Config, end: int, top: int, last: bool)
    requires Pulling(w0, w, cfg) && Paging(w, cfg, [], end, top, last)
    ensures var w' := CursorAt(w, end);
            && w'.cursor == end && Pulling(w0, w', cfg) && Converges(w, w', cfg)
            && (last ==> ReadThrough(w', cfg))
  {
    var w' := CursorAt(w, end);
    CursorConverges(w, w', cfg);
    forall p
      ensures Unseen(w, p) <==> Unseen(w', p)
    {
    }
    hide Readable, Excluded, Converges, RestOfPage, Unseen;
    forall p | !Excluded(cfg, p)
      ensures Coherent(w', cfg, p, !Unseen(w', p))
    {
      SameIsAsCoherent(w, w', cfg, p, !Unseen(w, p));
    }
    EndKeepsPromise(w0, w, w', cfg);
    EndSighted(w, w', cfg);
    if last {
      EndReadThrough(w, w', cfg, end, top);
    }
  }

  lemma EndSighted(w: World, w': World, cfg: Config)
    requires w' == w.(cursor := w'.cursor)
    requires forall p :: Unseen(w, p) <==> Unseen(w', p)
    ensures AllSighted(w, cfg) ==> AllSighted(w', cfg)
  {
    hide Excluded, Unseen;
    if AllSighted(w, cfg) {
      forall p | !Excluded(cfg, p)
        ensures Sighted(w', p, !Unseen(w', p))
      {
        assert Sighted(w, p, !Unseen(w, p));
      }
    }
  }

  lemma EndReadThrough(w: World, w': World, cfg: Config, end: int, top: int)
    requires w' == w.(cursor := end) && RestOfPage(w, [], end) && News(w, cfg, top)
    requires forall p <- w.server.files :: !(end < w.server.files[p].seqNo <= top)
    ensures ReadThrough(w', cfg)
  {
    LastPage(w, cfg, end, top);
    hide Excluded;
    forall p | !Excluded(cfg, p) && Unseen(w', p)
      ensures Settled(w', cfg, p) && w'.server.files[p].renamedFrom == None
    {
      SettledMoves(w, w', cfg, p);
    }
  }

  lemma EndKeepsPromise(w0: World, w: World, w': World, cfg: Config)
    requires Promised(w0, w, cfg) && w' == w.(cursor := w'.cursor) && w.cursor <= w'.cursor
    requires forall p :: Unseen(w, p) <==> Unseen(w', p)
    ensures Promised(w0, w', cfg)
  {
    hide Excluded, Unseen, Waiting, Won, Settled;
    forall p, c | !Excluded(cfg, p) && Waiting(w0, cfg, p, c, !Unseen(w0, p))
      ensures Undecided(w', cfg, p, c)
    {
      assert Undecided(w, cfg, p, c);
      UndecidedMoves(w, w', cfg, p, c);
    }
  }

  lemma UndecidedMoves(w: World, w': World, cfg: Config, p: Path, c: Bytes)
    requires w' == w.(cursor := w'.cursor) && w.cursor <= w'.cursor && (Unseen(w, p) <==> Unseen(w', p))
    requires Undecided(w, cfg, p, c)
    ensures Undecided(w', cfg, p, c)
  {
    hide Unseen, Untouched, MatchesRemote;
  }

  // ---- the end of the pull ---------------------------------------------------------------

  /** Everything read: what the push starts from. */
  ghost predicate AllSeen(w: World, cfg: Config) {
    ServerReady(w, cfg) && forall p | !Excluded(cfg, p) :: Coherent(w, cfg, p, true)
  }

  ghost predicate NoneMissed(w: World, cfg: Config) {
    forall p | !Excluded(cfg, p) :: Sighted(w, p, true)
  }

  ghost predicate Decided(w: World, cfg: Config, p: Path, c: Bytes) {
    (Waiting(w, cfg, p, c, true) && p in w.index) || Won(w, cfg, p, c)
  }

  /** Every edit that was waiting in w0 is tracked now, or has won. */
  ghost predicate Lined(w0: World, w: World, cfg: Config) {
    forall p, c | !Excluded(cfg, p) && Waiting(w0, cfg, p, c, !Unseen(w0, p)) :: Decided(w, cfg, p, c)
  }

  /** The last page is applied: whatever is still unseen came from this device. */
  ghost predicate ReadThrough(w: World, cfg: Config) {
    forall p | !Excluded(cfg, p) && Unseen(w, p) :: Settled(w, cfg, p) && w.server.files[p].renamedFrom == None
  }

  lemma LastPage(w: World, cfg: Config, end: int, top: int)
    requires RestOfPage(w, [], end) && News(w, cfg, top)
    requires forall p <- w.server.files :: !(end < w.server.files[p].seqNo <= top)
    ensures ReadThrough(w, cfg)
  {
    hide Settled, Excluded;
  }

  lemma PullIsOver(w: World, cfg: Config)
    requires ServerReady(w, cfg) && AllCoherent(w, cfg) && ReadThrough(w, cfg)
    ensures AllSeen(w, cfg)
    ensures AllSighted(w, cfg) ==> NoneMissed(w, cfg)
  {
    forall p | !Excluded(cfg, p)
      ensures Coherent(w, cfg, p, true)
      ensures AllSighted(w, cfg) ==> Sighted(w, p, true)
    {
      assert Coherent(w, cfg, p, !Unseen(w, p));
      assert AllSighted(w, cfg) ==> Sighted(w, p, !Unseen(w, p));
      if Unseen(w, p) {
        SettledIsCoherent(w, cfg, p);
      }
    }
  }

  lemma AdoptSees(w0: World, w: World, cfg: Config)
    requires AllSeen(w, cfg) && Promised(w0, w, cfg) && ReadThrough(w, cfg)
    ensures AllSeen(Adopt(w, cfg), cfg) && Lined(w0, Adopt(w, cfg), cfg)
    ensures NoneMissed(w, cfg) ==> NoneMissed(Adopt(w, cfg), cfg)
  {
    var w' := Adopt(w, cfg);
    hide Readable;
    forall p | !Excluded(cfg, p)
      ensures Coherent(w', cfg, p, true)
      ensures NoneMissed(w, cfg) ==> Sighted(w', p, true)
    {
      assert Coherent(w, cfg, p, true);
      assert NoneMissed(w, cfg) ==> Sighted(w, p, true);
    }
    forall p, c | !Excluded(cfg, p) && Waiting(w0, cfg, p, c, !Unseen(w0, p))
      ensures Decided(w', cfg, p, c)
    {
      assert Undecided(w, cfg, p, c);
      AdoptDecides(w, cfg, p, c);
    }
  }

  lemma AdoptDecides(w: World, cfg: Config, p: Path, c: Bytes)
    requires Undecided(w, cfg, p, c) && !Excluded(cfg, p)
    requires Unseen(w, p) ==> Settled(w, cfg, p)
    ensures Decided(Adopt(w, cfg), cfg, p, c)
  {
  }

  // ---- the push --------------------------------------------------------------------------

  /** Every path with something to send is still on the list. */
  ghost predicate Queued(w: World, cfg: Config, todo: set<Path>) {
    forall p | !Excluded(cfg, p) && p in w.index && w.index[p].dirty :: p in todo
  }

  lemma PushKeepsSeen(w: World, cfg: Config, p: Path, copy: Path, now: int)
    requires AllSeen(w, cfg) && !Excluded(cfg, p) && Free(w, copy)
    ensures var w' := PushOne(w, cfg, p, copy, now).0;
            AllSeen(w', cfg) && Pushed(w, w', cfg, p, copy) && w'.server.counter >= w.server.counter
  {
    var w' := PushOne(w, cfg, p, copy, now).0;
    assert Coherent(w, cfg, p, true);
    PushSettles(w, cfg, p, copy, now);
    hide PushOne, Excluded, Settled;
    forall q | q != p
      ensures SameRow(w, w', q)
    {
      assert q != copy ==> SameAt(w, w', q);
    }
    hide Readable;
    PushedStaysReady(w, w', cfg, p, copy);
    forall q | !Excluded(cfg, q)
      ensures Coherent(w', cfg, q, true)
    {
      assert Coherent(w, cfg, q, true);
      if q == p {
        PushedIsCoherent(w, w', cfg, p, copy);
      } else if q != copy {
        SameIsAsCoherent(w, w', cfg, q, true);
      }
    }
  }

  lemma PushedIsCoherent(w: World, w': World, cfg: Config, p: Path, copy: Path)
    requires Pushed(w, w', cfg, p, copy)
    ensures Coherent(w', cfg, p, true)
  {
    if p in w'.index {
      SettledIsCoherent(w', cfg, p);
    }
  }

  lemma PushedStaysReady(w: World, w': World, cfg: Config, p: Path, copy: Path)
    requires ServerReady(w, cfg) && Pushed(w, w', cfg, p, copy)
    requires forall q | q != p :: SameRow(w, w', q)
    ensures ServerReady(w', cfg) && w'.server.counter >= w.server.counter
  {
    hide Settled;
    WriteKeepsOrder(w, w', cfg, p);
    assert RowRecorded(w'.server, p);
  }

  lemma PushKeepsQueue(w: World, w': World, cfg: Config, todo: set<Path>, p: Path, copy: Path)
    requires Queued(w, cfg, todo) && Pushed(w, w', cfg, p, copy)
    ensures Queued(w', cfg, todo - {p})
  {
    hide Readable, Excluded;
    forall q | !Excluded(cfg, q) && q in w'.index && w'.index[q].dirty
      ensures q in todo - {p}
    {
      assert q != p && q != copy ==> SameAt(w, w', q);
    }
  }

  lemma PushMissesNone(w: World, cfg: Config, p: Path, copy: Path, now: int)
    requires AllSeen(w, cfg) && NoneMissed(w, cfg) && !Excluded(cfg, p) && Free(w, copy)
    ensures NoneMissed(PushOne(w, cfg, p, copy, now).0, cfg)
  {
    var w' := PushOne(w, cfg, p, copy, now).0;
    assert Coherent(w, cfg, p, true) && Sighted(w, p, true);
    PushSettles(w, cfg, p, copy, now);
    PushSights(w, cfg, p, copy, now);
    hide Readable, PushOne, Excluded, Coherent, Settled;
    forall q | !Excluded(cfg, q)
      ensures Sighted(w', q, true)
    {
      assert Sighted(w, q, true);
      assert q != p && q != copy ==> SameAt(w, w', q);
    }
  }

  lemma PushDecides(w0: World, w: World, cfg: Config, p: Path, copy: Path, now: int)
    requires AllSeen(w, cfg) && Lined(w0, w, cfg) && !Excluded(cfg, p) && Free(w, copy)
    ensures Lined(w0, PushOne(w, cfg, p, copy, now).0, cfg)
  {
    var w' := PushOne(w, cfg, p, copy, now).0;
    hide Readable, PushOne, Excluded, Coherent, Waiting, Won;
    forall q, c | !Excluded(cfg, q) && Waiting(w0, cfg, q, c, !Unseen(w0, q))
      ensures Decided(w', cfg, q, c)
    {
      assert Decided(w, cfg, q, c);
      PushDecidesOne(w, cfg, p, copy, now, q, c);
    }
  }

  lemma PushDecidesOne(w: World, cfg: Config, p: Path, copy: Path, now: int, q: Path, c: Bytes)
    requires AllSeen(w, cfg) && Decided(w, cfg, q, c) && !Excluded(cfg, p) && Free(w, copy)
    ensures Decided(PushOne(w, cfg, p, copy, now).0, cfg, q, c)
  {
    var w' := PushOne(w, cfg, p, copy, now).0;
    assert Coherent(w, cfg, p, true);
    if q == p {
      if Won(w, cfg, p, c) {
        PushKeepsWon(w, cfg, p, copy, now, c);
      } else {
        PushWins(w, cfg, p, copy, now, c);
      }
    } else {
      PushSettles(w, cfg, p, copy, now);
      hide Readable, PushOne, Excluded, Coherent, Untouched, Settled;
      assert q != copy;
      forall r | r in w'.server.files
        ensures w'.server.files[r].renamedFrom == None || (r in w.server.files && w.server.files[r] == w'.server.files[r])
      {
        assert r != p && r != copy ==> SameAt(w, w', r);
      }
      hide Waiting, Won;
      ElsewhereWaits(w, w', cfg, q, c, true);
    }
  }

  lemma PushKeepsWon(w: World, cfg: Config, p: Path, copy: Path, now: int, c: Bytes)
    requires Won(w, cfg, p, c)
    ensures Won(PushOne(w, cfg, p, copy, now).0, cfg, p, c)
  {
  }

  // ---- the end of the pass --------------------------------------------------------------------

  /** Device and server agree on every tracked file. */
  ghost predicate Agreed(w: World, cfg: Config) {
    forall p | !Excluded(cfg, p) && p in w.index :: Settled(w, cfg, p)
  }

  /** The push, from the world w0 the pass began in. */
  ghost predicate Pushing(w0: World, w: World, cfg: Config, todo: set<Path>) {
    && AllSeen(w, cfg) && Lined(w0, w, cfg) && Queued(w, cfg, todo)
    && (forall p <- todo :: !Excluded(cfg, p))
    && (AllSighted(w0, cfg) ==> NoneMissed(w, cfg))
  }

  /** Everything read and adopted, the push may start. */
  lemma PushStarts(w0: World, w: World, cfg: Config)
    requires Pulling(w0, w, cfg) && ReadThrough(w, cfg)
    ensures var w' := Adopt(w, cfg);
            Pushing(w0, w', cfg, set p | p in w'.index && w'.index[p].dirty && !Excluded(cfg, p))
  {
    PullIsOver(w, cfg);
    AdoptSees(w0, w, cfg);
    hide AllSeen, Lined, AllSighted, NoneMissed, AllCoherent, Promised, Adopt, Excluded;
  }

  lemma PushGoesOn(w0: World, w: World, cfg: Config, todo: set<Path>, p: Path, copy: Path, now: int)
    requires Pushing(w0, w, cfg, todo) && p in todo && Free(w, copy)
    ensures Pushing(w0, PushOne(w, cfg, p, copy, now).0, cfg, todo - {p})
    ensures PushOne(w, cfg, p, copy, now).1 == Done
  {
    var w' := PushOne(w, cfg, p, copy, now).0;
    PushKeepsSeen(w, cfg, p, copy, now);
    PushKeepsQueue(w, w', cfg, todo, p, copy);
    PushDecides(w0, w, cfg, p, copy, now);
    if NoneMissed(w, cfg) {
      PushMissesNone(w, cfg, p, copy, now);
    }
    PushSucceeds(w, cfg, p, copy, now);
    hide PushOne, AllSeen, Lined, Queued, AllSighted, NoneMissed, Pushed, Excluded;
  }

  lemma PushSucceeds(w: World, cfg: Config, p: Path, copy: Path, now: int)
    requires AllSeen(w, cfg) && !Excluded(cfg, p) && Free(w, copy)
    ensures PushOne(w, cfg, p, copy, now).1 == Done
  {
    PushSettles(w, cfg, p, copy, now);
  }

  lemma PushIsOver(w0: World, w: World, cfg: Config)
    requires Pushing(w0, w, cfg, {})
    ensures Agreed(w, cfg) && ServerReady(w, cfg) && AllCoherent(w, cfg)
    ensures AllSighted(w0, cfg) ==> NoneMissed(w, cfg)
    ensures forall p, c | !Excluded(cfg, p) && Waiting(w0, cfg, p, c, !Unseen(w0, p)) :: Won(w, cfg, p, c)
  {
    forall p | !Excluded(cfg, p)
      ensures p in w.index ==> Settled(w, cfg, p)
      ensures Coherent(w, cfg, p, !Unseen(w, p))
    {
      assert Coherent(w, cfg, p, true);
      LessSeen(w, cfg, p);
    }
    hide ServerReady, AllSeen, Excluded, NotMovedOn, AllSighted, NoneMissed;
    forall p, c | !Excluded(cfg, p) && Waiting(w0, cfg, p, c, !Unseen(w0, p))
      ensures Won(w, cfg, p, c)
    {
      assert Decided(w, cfg, p, c);
    }
  }
}
