/**
 A pass killed half-way: what index and cursor of its beginning still say of the disk and
 the server it left behind (src/sync-engine.ts:518-529, 285-331).
 */
module EngineKilled {
  import opened Content
  import opened Store
  import opened StoreLaws
  import opened Engine
  import opened EngineQuiet
  import opened EnginePass
  import opened EngineStored
  import opened EngineTrace
  import opened EngineEnds

  /** A clean entry of w0 that stands at the row the server has now. */
  predicate Vouches(w0: World, w: World, q: Path) {
    q in w0.index && !w0.index[q].dirty && q in w.server.files && w0.index[q].baseRev == w.server.files[q].rev
  }

  /** Such an entry is still right about the disk. */
  predicate Stands(w0: World, w: World, q: Path) {
    Vouches(w0, w, q) ==>
      && q in w.index && q in w.disk
      && var e, e' := w0.index[q], w.index[q];
      && !e'.dirty && e'.baseRev == e.baseRev && e'.plainHash == e.plainHash == Some(Sha256(w.disk[q]))
  }

  ghost predicate AllStand(w0: World, w: World, cfg: Config) {
    forall q | !Excluded(cfg, q) :: Stands(w0, w, q)
  }

  /** No rename still to be read takes away a file whose entry stands at its row. */
  ghost predicate Anchored(w: World, cfg: Config) {
    forall p, q | !Excluded(cfg, p) && !Excluded(cfg, q) && Unseen(w, p) && w.server.files[p].renamedFrom == Some(q) ::
      !Vouches(w, w, q)
  }

  /** This device renames nothing in a pass. */
  ghost predicate OldMoves(w0: World, w: World) {
    forall p <- w.server.files ::
      w.server.files[p].renamedFrom == None || (p in w0.server.files && w0.server.files[p] == w.server.files[p])
  }

  /** What a pass keeps from the world w0 it began in, for when it is killed. */
  ghost predicate Survives(w0: World, w: World, cfg: Config) {
    ServerReady(w0, cfg) && AllCoherent(w0, cfg) && Anchored(w0, cfg) ==>
      && w0.cursor <= w.cursor && Forward(w0.server, w.server) && OldMoves(w0, w) && AllStand(w0, w, cfg)
  }

  lemma SurvivesStart(w0: World, w: World, cfg: Config)
    requires w == w0.(conflicts := w.conflicts)
    ensures Survives(w0, w, cfg)
  {
    hide Readable, Excluded;
    if AllCoherent(w0, cfg) {
      forall q | !Excluded(cfg, q)
        ensures Stands(w0, w, q)
      {
        assert Coherent(w0, cfg, q, !Unseen(w0, q));
      }
    }
  }

  // ---- a turn of the pull ----------------------------------------------------------------------

  /** The row read next takes the file away under an entry of w0 that still stands at its row. */
  predicate TakesAway(w0: World, w: World, cfg: Config, f: File) {
    && !Excluded(cfg, f.path) && !Echo(w, cfg, f) && !f.deleted && MovesLocally(w, cfg, f)
    && Vouches(w0, w, f.renamedFrom.value)
  }

  lemma OwnStands(w0: World, w: World, cfg: Config, f: File, copy: Path, now: int)
    requires Readable(w.server, cfg) && Coherent(w, cfg, f.path, false)
    requires f.path in w.server.files && w.server.files[f.path] == f
    requires Vouches(w0, w, f.path) && Stands(w0, w, f.path)
    ensures var w' := ApplyRemote(w, cfg, f, copy, now).0; w'.server == w.server && Stands(w0, w', f.path)
  {
    RowOpens(w.server, cfg, f.path);
    DownloadSettles(w, cfg, f.path);
    hide Readable, MatchesRemote, Reconcile, Download;
  }

  lemma TurnStands(w0: World, w: World, cfg: Config, f: File, copy: Path, now: int, q: Path)
    requires ServerReady(w, cfg) && AllCoherent(w, cfg) && Free(w, copy) && Stands(w0, w, q) && !Excluded(cfg, q)
    requires f.path in w.server.files && w.server.files[f.path] == f && w.cursor < f.seqNo
    requires Turned(w, Turn(w, cfg, f, copy, now), cfg, f) && !Excluded(cfg, f.path)
    requires Vouches(w0, Turn(w, cfg, f, copy, now), q) ==> Vouches(w0, w, q)
    requires !(TakesAway(w0, w, cfg, f) && f.renamedFrom.value == q)
    ensures Stands(w0, Turn(w, cfg, f, copy, now), q)
  {
    var w' := Turn(w, cfg, f, copy, now);
    if Vouches(w0, w', q) {
      assert Coherent(w, cfg, f.path, !Unseen(w, f.path));
      hide Readable, Coherent, AllCoherent, Converges, Turned, Excluded;
      if q == f.path {
        OwnStands(w0, w, cfg, f, copy, now);
      } else {
        RemoteTouches(w, cfg, f, copy, now, q);
      }
      hide ApplyRemote, MovesLocally;
    }
  }

  /** An entry that stands at its row now has stood there since w0. */
  lemma VouchedSince(w0: World, w: World, cfg: Config, q: Path)
    requires Inv(w.server) && Coherent(w0, cfg, q, !Unseen(w0, q)) && Forward(w0.server, w.server) && Vouches(w0, w, q)
    ensures q in w0.server.files && w.server.files[q] == w0.server.files[q]
  {
    assert RowRecorded(w.server, q);
    hide Inv;
  }

  lemma VouchedBefore(w0: World, w: World, w': World, cfg: Config, q: Path)
    requires Inv(w'.server) && Coherent(w0, cfg, q, !Unseen(w0, q)) && Forward(w0.server, w.server)
    requires Forward(w.server, w'.server) && Vouches(w0, w', q)
    ensures Vouches(w0, w, q) && w'.server.files[q] == w.server.files[q]
  {
    ForwardOn(w0.server, w.server, w'.server);
    VouchedSince(w0, w', cfg, q);
    hide Coherent, Inv, Unseen;
  }

  /** A turn leaves the entries of w0 right about the disk exactly when it takes no such file away. */
  lemma TurnStandsExactly(w0: World, w: World, cfg: Config, f: File, copy: Path, now: int)
    requires AllCoherent(w0, cfg) && Forward(w0.server, w.server) && AllStand(w0, w, cfg)
    requires ServerReady(w, cfg) && AllCoherent(w, cfg) && Free(w, copy)
    requires f.path in w.server.files && w.server.files[f.path] == f && w.cursor < f.seqNo
    requires Turned(w, Turn(w, cfg, f, copy, now), cfg, f)
    ensures AllStand(w0, Turn(w, cfg, f, copy, now), cfg) <==> !TakesAway(w0, w, cfg, f)
  {
    var w' := Turn(w, cfg, f, copy, now);
    if TakesAway(w0, w, cfg, f) {
      TakenFalls(w0, w, cfg, f, copy, now);
    } else {
      TurnForward(w, cfg, f, copy, now);
      forall q | !Excluded(cfg, q)
        ensures Stands(w0, w', q)
      {
        assert Stands(w0, w, q) && Coherent(w0, cfg, q, !Unseen(w0, q));
        hide ServerReady, AllCoherent, AllStand, Coherent, Excluded, ApplyRemote, Turned, Free, MovesLocally, Forward, Unseen;
        if Vouches(w0, w', q) {
          VouchedBefore(w0, w, w', cfg, q);
        }
        if !Excluded(cfg, f.path) {
          TurnStands(w0, w, cfg, f, copy, now, q);
        }
      }
    }
  }

  lemma TakenFalls(w0: World, w: World, cfg: Config, f: File, copy: Path, now: int)
    requires TakesAway(w0, w, cfg, f)
    ensures !AllStand(w0, Turn(w, cfg, f, copy, now), cfg)
  {
    assert !Stands(w0, Turn(w, cfg, f, copy, now), f.renamedFrom.value);
  }

  lemma TurnForward(w: World, cfg: Config, f: File, copy: Path, now: int)
    requires Inv(w.server)
    ensures var t := Turn(w, cfg, f, copy, now).server; Inv(t) && Forward(w.server, t)
  {
    RemoteForward(w, cfg, f, copy, now);
    hide ApplyRemote, Inv, Excluded;
  }

  lemma TurnMovesNothing(w0: World, w: World, w': World, cfg: Config, f: File)
    requires OldMoves(w0, w) && Turned(w, w', cfg, f)
    ensures OldMoves(w0, w')
  {
    hide ServerReady, Coherent, Converges, Settled, Excluded;
    forall p | p in w'.server.files && w'.server.files[p].renamedFrom.Some?
      ensures p in w0.server.files && w0.server.files[p] == w'.server.files[p]
    {
      assert p != f.path ==> Bystander(w, w', p);
    }
  }

  /** What is anchored in the beginning is not taken away later. */
  lemma AnchorHolds(w0: World, w: World, cfg: Config, f: File)
    requires AllCoherent(w0, cfg) && Anchored(w0, cfg) && Inv(w.server) && OldMoves(w0, w) && Forward(w0.server, w.server)
    requires w0.cursor <= w.cursor < f.seqNo && f.path in w.server.files && w.server.files[f.path] == f
    ensures !TakesAway(w0, w, cfg, f)
  {
    if TakesAway(w0, w, cfg, f) {
      var q := f.renamedFrom.value;
      assert Coherent(w0, cfg, q, !Unseen(w0, q)) && Unseen(w0, f.path);
      VouchedSince(w0, w, cfg, q);
    }
  }

  lemma TurnSurvives(w0: World, w: World, cfg: Config, f: File, copy: Path, now: int)
    requires Survives(w0, w, cfg) && ServerReady(w, cfg) && AllCoherent(w, cfg) && Free(w, copy)
    requires f.path in w.server.files && w.server.files[f.path] == f && w.cursor < f.seqNo
    requires Turned(w, Turn(w, cfg, f, copy, now), cfg, f)
    ensures Survives(w0, Turn(w, cfg, f, copy, now), cfg)
  {
    var w' := Turn(w, cfg, f, copy, now);
    ReadyIsOrdered(w, cfg);
    TurnedParts(w, w', cfg, f);
    hide ServerReady, AllCoherent, Turned, Free, Turn, Anchored, AllStand, TakesAway, OldMoves, Forward, Inv;
    if ServerReady(w0, cfg) && AllCoherent(w0, cfg) && Anchored(w0, cfg) {
      AnchorHolds(w0, w, cfg, f);
      TurnStandsExactly(w0, w, cfg, f, copy, now);
      TurnMovesNothing(w0, w, w', cfg, f);
      TurnForward(w, cfg, f, copy, now);
      ForwardOn(w0.server, w.server, w'.server);
    }
  }

  lemma CursorSurvives(w0: World, w: World, w': World, cfg: Config)
    requires Survives(w0, w, cfg) && w' == w.(cursor := w'.cursor) && w.cursor <= w'.cursor
    ensures Survives(w0, w', cfg)
  {
    hide ServerReady, AllCoherent, Anchored, Excluded, Forward;
    assert forall q :: Stands(w0, w, q) == Stands(w0, w', q);
  }

  // ---- the push ------------------------------------------------------------------------------------

  lemma AdoptSurvives(w0: World, w: World, cfg: Config)
    requires Survives(w0, w, cfg)
    ensures Survives(w0, Adopt(w, cfg), cfg)
  {
    hide ServerReady, AllCoherent, Anchored, Excluded, Forward;
    assert forall q :: Stands(w0, w, q) ==> Stands(w0, Adopt(w, cfg), q);
  }

  lemma PushForward(w: World, cfg: Config, p: Path, copy: Path, now: int)
    requires Inv(w.server)
    ensures var t := PushOne(w, cfg, p, copy, now).0.server; Inv(t) && Forward(w.server, t)
  {
    PushServes(w, cfg, p, copy, now);
    hide PushOne, Inv;
    ServedForward(w, PushOne(w, cfg, p, copy, now).0);
  }

  lemma PushStands(w0: World, w: World, cfg: Config, p: Path, copy: Path, now: int, q: Path)
    requires Pushed(w, PushOne(w, cfg, p, copy, now).0, cfg, p, copy) && Free(w, copy) && Stands(w0, w, q)
    requires Vouches(w0, PushOne(w, cfg, p, copy, now).0, q) ==> Vouches(w0, w, q)
    ensures Stands(w0, PushOne(w, cfg, p, copy, now).0, q)
  {
    var w' := PushOne(w, cfg, p, copy, now).0;
    if Vouches(w0, w', q) {
      hide Readable, Settled, Upload, PushDeletion, Wrote;
      if q != p {
        hide PushOne;
        assert SameAt(w, w', q);
      }
    }
  }

  lemma PushSurvives(w0: World, w: World, cfg: Config, p: Path, copy: Path, now: int)
    requires Survives(w0, w, cfg) && AllSeen(w, cfg) && !Excluded(cfg, p) && Free(w, copy)
    ensures Survives(w0, PushOne(w, cfg, p, copy, now).0, cfg)
  {
    var w' := PushOne(w, cfg, p, copy, now).0;
    if ServerReady(w0, cfg) && AllCoherent(w0, cfg) && Anchored(w0, cfg) {
      assert Coherent(w, cfg, p, true);
      PushSettles(w, cfg, p, copy, now);
      PushForward(w, cfg, p, copy, now);
      hide PushOne, Anchored, Free, Coherent, Readable, Inv, RenameOrdered, Unseen, Settled;
      ForwardOn(w0.server, w.server, w'.server);
      PushMovesNothing(w0, w, w', cfg, p, copy);
      assert w'.cursor == w.cursor;
      forall q | !Excluded(cfg, q)
        ensures Stands(w0, w', q)
      {
        assert Stands(w0, w, q) && Coherent(w0, cfg, q, !Unseen(w0, q));
        hide Stands, Pushed, Forward, OldMoves, Excluded, Vouches;
        if Vouches(w0, w', q) {
          VouchedBefore(w0, w, w', cfg, q);
        }
        PushStands(w0, w, cfg, p, copy, now, q);
      }
    }
  }

  lemma PushMovesNothing(w0: World, w: World, w': World, cfg: Config, p: Path, copy: Path)
    requires OldMoves(w0, w) && Pushed(w, w', cfg, p, copy)
    ensures OldMoves(w0, w')
  {
    hide Settled, Readable;
    forall q | q in w'.server.files && w'.server.files[q].renamedFrom.Some?
      ensures q in w0.server.files && w0.server.files[q] == w'.server.files[q]
    {
      assert q != p && q != copy ==> SameAt(w, w', q);
    }
  }

  // ---- between passes --------------------------------------------------------------------------------

  /** Nothing still to be read is a rename. */
  ghost predicate NoMoves(w: World, cfg: Config) {
    forall p | !Excluded(cfg, p) && Unseen(w, p) :: w.server.files[p].renamedFrom == None
  }

  lemma PushKeepsNoMoves(w: World, cfg: Config, p: Path, copy: Path, now: int)
    requires NoMoves(w, cfg) && AllSeen(w, cfg) && !Excluded(cfg, p) && Free(w, copy)
    ensures NoMoves(PushOne(w, cfg, p, copy, now).0, cfg)
  {
    var w' := PushOne(w, cfg, p, copy, now).0;
    assert Coherent(w, cfg, p, true);
    PushSettles(w, cfg, p, copy, now);
    hide PushOne, Settled, Readable, Coherent, Excluded;
    forall q | !Excluded(cfg, q) && Unseen(w', q)
      ensures w'.server.files[q].renamedFrom == None
    {
      assert q != p && q != copy ==> SameAt(w, w', q);
    }
  }
}
