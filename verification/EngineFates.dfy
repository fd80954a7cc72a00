/**
 What a whole pass makes of the files that were not edited here: they follow the server,
 and a deletion takes its way (src/sync-engine.ts:618-807, 1015-1056, 1106-1139).
 */
module EngineFates {
  import opened Content
  import opened Store
  import opened StoreLaws
  import opened Engine
  import opened EngineQuiet
  import opened EnginePass

  // ---- files without an edit ----------------------------------------------------------------

  /** The file on disk is the one the index vouches for. */
  predicate Clean(w: World, p: Path) {
    p in w.disk && p in w.index && w.index[p].plainHash == Some(Sha256(w.disk[p]))
  }

  /** Not on disk, and not because it was deleted here. */
  predicate Absent(w: World, p: Path) {
    p !in w.disk && (p in w.index ==> !w.index[p].dirty)
  }

  /** A live file that was not touched here, or whose row is still to be read. */
  predicate Follows(w: World, p: Path) {
    IsLive(w.server, p) && (Clean(w, p) || (Absent(w, p) && Unseen(w, p)))
  }

  /** Deleted here at the revision the server holds; no row still to be read moves a file there. */
  predicate DeletedHere(w: World, p: Path) {
    && p !in w.disk && p in w.index && w.index[p].dirty && IsLive(w.server, p)
    && 0 < w.index[p].baseRev == w.server.files[p].rev
    && (Unseen(w, p) ==> w.server.files[p].renamedFrom == None)
  }

  /** Deleted on the server, and not edited here. */
  predicate DeletedThere(w: World, p: Path) {
    p in w.server.files && w.server.files[p].deleted && (Clean(w, p) || p !in w.disk)
  }

  /** Deleted everywhere. */
  predicate Gone(w: World, p: Path) {
    p !in w.disk && p !in w.index && p in w.server.files && w.server.files[p].deleted
  }

  // ---- during the pull --------------------------------------------------------------------------

  ghost predicate FatePulled(w0: World, w: World, p: Path) {
    && (Follows(w0, p) ==> SameRow(w0, w, p) && Follows(w, p))
    && (DeletedHere(w0, p) ==> SameRow(w0, w, p) && DeletedHere(w, p))
    && (DeletedThere(w0, p) ==> SameRow(w0, w, p) && DeletedThere(w, p))
  }

  ghost predicate FatesPulled(w0: World, w: World, cfg: Config) {
    forall p | !Excluded(cfg, p) :: FatePulled(w0, w, p)
  }

  lemma FatesStart(w0: World, w: World, cfg: Config)
    requires w == w0.(conflicts := w.conflicts)
    ensures FatesPulled(w0, w, cfg)
  {
    hide Excluded;
  }

  /** The turn of the path itself. */
  lemma OwnFate(w: World, cfg: Config, f: File, copy: Path, now: int)
    requires Readable(w.server, cfg) && Coherent(w, cfg, f.path, false)
    requires f.path in w.server.files && w.server.files[f.path] == f && Unseen(w, f.path)
    requires Follows(w, f.path) || DeletedHere(w, f.path) || DeletedThere(w, f.path)
    ensures var w' := ApplyRemote(w, cfg, f, copy, now).0;
            && w'.server == w.server
            && (Follows(w, f.path) ==> Clean(w', f.path))
            && (DeletedHere(w, f.path) ==> DeletedHere(w', f.path))
            && (DeletedThere(w, f.path) ==> f.path !in w'.disk)
  {
    if !f.deleted {
      DownloadSettles(w, cfg, f.path);
    }
    hide Readable, Reconcile, Download, MatchesRemote;
  }

  /** The turn of another path. */
  lemma OtherFate(w: World, cfg: Config, f: File, copy: Path, now: int, p: Path)
    requires ServerReady(w, cfg) && AllCoherent(w, cfg) && Free(w, copy) && p != f.path && p in w.server.files
    requires f.path in w.server.files && w.server.files[f.path] == f && w.cursor < f.seqNo
    requires Turned(w, Turn(w, cfg, f, copy, now), cfg, f)
    ensures FatePulled(w, Turn(w, cfg, f, copy, now), p) && SameRow(w, Turn(w, cfg, f, copy, now), p)
  {
    var w' := Turn(w, cfg, f, copy, now);
    TurnedElsewhere(w, w', cfg, f, p);
    assert p != copy;
    hide ServerReady, AllCoherent, Turned, Free, Bystander, FatePulled;
    MovedOrSame(w, cfg, f, copy, now, p);
    hide Turn;
    BystanderFate(w, w', p);
  }

  lemma MovedOrSame(w: World, cfg: Config, f: File, copy: Path, now: int, p: Path)
    requires ServerReady(w, cfg) && AllCoherent(w, cfg) && Free(w, copy) && p != f.path && p != copy
    requires f.path in w.server.files && w.server.files[f.path] == f && w.cursor < f.seqNo
    ensures var w' := Turn(w, cfg, f, copy, now); SameAt(w, w', p) || (p in w.disk && p !in w'.disk)
  {
    hide ServerReady, AllCoherent, Free, ApplyRemote, Excluded, MatchesRemote;
    if !Excluded(cfg, f.path) {
      TurnTouches(w, cfg, f, copy, now, p);
      if MovesLocally(w, cfg, f) && p == f.renamedFrom.value {
        MovedAway(w, cfg, f, copy, now);
      }
    }
  }

  lemma BystanderFate(w: World, w': World, p: Path)
    requires Bystander(w, w', p) && (SameAt(w, w', p) || (p in w.disk && p !in w'.disk)) && p in w.server.files
    ensures FatePulled(w, w', p) && SameRow(w, w', p)
  {
  }

  lemma TurnedElsewhere(w: World, w': World, cfg: Config, f: File, q: Path)
    requires Turned(w, w', cfg, f) && q != f.path
    ensures Bystander(w, w', q)
  {
    hide Bystander;
  }

  lemma TurnTouches(w: World, cfg: Config, f: File, copy: Path, now: int, p: Path)
    requires ServerReady(w, cfg) && AllCoherent(w, cfg) && Free(w, copy) && !Excluded(cfg, f.path) && p != f.path && p != copy
    requires f.path in w.server.files && w.server.files[f.path] == f && w.cursor < f.seqNo
    ensures SameAt(w, ApplyRemote(w, cfg, f, copy, now).0, p) || (MovesLocally(w, cfg, f) && p == f.renamedFrom.value)
  {
    assert Coherent(w, cfg, f.path, !Unseen(w, f.path));
    hide ApplyRemote, Coherent, Readable, RenameOrdered, Excluded, MovesLocally;
    RemoteTouches(w, cfg, f, copy, now, p);
  }

  lemma MovedAway(w: World, cfg: Config, f: File, copy: Path, now: int)
    requires MovesLocally(w, cfg, f)
    ensures var w' := ApplyRemote(w, cfg, f, copy, now).0;
            var from := f.renamedFrom.value;
            SameAt(w, w', from) || (from in w.disk && from !in w'.disk && from !in w'.index && w'.server == w.server)
  {
    hide MatchesRemote, Excluded;
  }

  lemma FatesOn(w0: World, w: World, w': World, p: Path)
    requires FatePulled(w0, w, p) && FatePulled(w, w', p)
    ensures FatePulled(w0, w', p)
  {
    hide Follows, DeletedHere, DeletedThere;
  }

  lemma TurnKeepsFate(w: World, cfg: Config, f: File, copy: Path, now: int, p: Path)
    requires ServerReady(w, cfg) && AllCoherent(w, cfg) && Free(w, copy) && !Excluded(cfg, p)
    requires f.path in w.server.files && w.server.files[f.path] == f && w.cursor < f.seqNo
    requires Turned(w, Turn(w, cfg, f, copy, now), cfg, f)
    ensures FatePulled(w, Turn(w, cfg, f, copy, now), p)
  {
    if p == f.path {
      assert Coherent(w, cfg, p, false);
      if Follows(w, p) || DeletedHere(w, p) || DeletedThere(w, p) {
        OwnFate(w, cfg, f, copy, now);
      }
      hide ApplyRemote, ServerReady, AllCoherent, Coherent, Turned;
    } else if p in w.server.files {
      OtherFate(w, cfg, f, copy, now, p);
    }
  }

  lemma TurnKeepsFates(w0: World, w: World, cfg: Config, f: File, copy: Path, now: int)
    requires ServerReady(w, cfg) && AllCoherent(w, cfg) && Free(w, copy) && FatesPulled(w0, w, cfg)
    requires f.path in w.server.files && w.server.files[f.path] == f && w.cursor < f.seqNo
    requires Turned(w, Turn(w, cfg, f, copy, now), cfg, f)
    ensures FatesPulled(w0, Turn(w, cfg, f, copy, now), cfg)
  {
    hide ServerReady, AllCoherent, Turned, Turn, FatePulled, Excluded, Free;
    forall p | !Excluded(cfg, p)
      ensures FatePulled(w0, Turn(w, cfg, f, copy, now), p)
    {
      TurnKeepsFate(w, cfg, f, copy, now, p);
      FatesOn(w0, w, Turn(w, cfg, f, copy, now), p);
    }
  }

  /** The cursor may pass numbers no row has. */
  lemma CursorKeepsFates(w0: World, w: World, w': World, cfg: Config)
    requires FatesPulled(w0, w, cfg) && w' == w.(cursor := w'.cursor)
    requires forall p :: Unseen(w, p) <==> Unseen(w', p)
    ensures FatesPulled(w0, w', cfg)
  {
    hide Excluded, Unseen;
  }

  // ---- during the push --------------------------------------------------------------------------

  ghost predicate FatePushed(w0: World, w: World, p: Path) {
    && (Follows(w0, p) ==> SameRow(w0, w, p) && Clean(w, p))
    && (DeletedHere(w0, p) ==> (SameRow(w0, w, p) && DeletedHere(w, p)) || Gone(w, p))
    && (DeletedThere(w0, p) ==> SameRow(w0, w, p) && p !in w.disk)
  }

  ghost predicate FatesPushed(w0: World, w: World, cfg: Config) {
    forall p | !Excluded(cfg, p) :: FatePushed(w0, w, p)
  }

  lemma AdoptKeepsFate(w0: World, w: World, cfg: Config, p: Path)
    requires Coherent(w, cfg, p, true) && FatePulled(w0, w, p) && (Unseen(w, p) ==> Settled(w, cfg, p))
    ensures FatePushed(w0, Adopt(w, cfg), p)
  {
    hide Excluded;
  }

  lemma AdoptKeepsFates(w0: World, w: World, cfg: Config)
    requires AllSeen(w, cfg) && FatesPulled(w0, w, cfg) && ReadThrough(w, cfg)
    ensures FatesPushed(w0, Adopt(w, cfg), cfg)
  {
    hide FatePulled, FatePushed, Adopt, Excluded, Settled, Coherent, Unseen, ServerReady;
    forall p | !Excluded(cfg, p)
      ensures FatePushed(w0, Adopt(w, cfg), p)
    {
      AdoptKeepsFate(w0, w, cfg, p);
    }
  }

  lemma OwnFatePushed(w0: World, w: World, cfg: Config, p: Path, copy: Path, now: int)
    requires Inv(w.server) && FatePushed(w0, w, p)
    ensures FatePushed(w0, PushOne(w, cfg, p, copy, now).0, p)
  {
    OwnPath(w.server, p);
    hide Inv, Upload;
  }

  lemma PushKeepsFates(w0: World, w: World, cfg: Config, q: Path, copy: Path, now: int)
    requires AllSeen(w, cfg) && FatesPushed(w0, w, cfg) && !Excluded(cfg, q) && Free(w, copy)
    ensures FatesPushed(w0, PushOne(w, cfg, q, copy, now).0, cfg)
  {
    var w' := PushOne(w, cfg, q, copy, now).0;
    assert Coherent(w, cfg, q, true);
    PushSettles(w, cfg, q, copy, now);
    hide PushOne, Coherent, Excluded, Settled;
    forall p | !Excluded(cfg, p)
      ensures FatePushed(w0, w', p)
    {
      if p == q {
        OwnFatePushed(w0, w, cfg, p, copy, now);
      } else {
        OtherFatePushed(w0, w, w', cfg, q, copy, p);
      }
    }
  }

  lemma OtherFatePushed(w0: World, w: World, w': World, cfg: Config, q: Path, copy: Path, p: Path)
    requires FatePushed(w0, w, p) && Pushed(w, w', cfg, q, copy) && Free(w, copy) && p != q
    ensures FatePushed(w0, w', p)
  {
    hide Readable, Settled, Wrote;
    if p != copy {
      assert SameAt(w, w', p);
    }
  }

  // ---- how they end -------------------------------------------------------------------------------

  /** A file without an edit is the server's, or deleted everywhere. */
  ghost predicate Fated(w0: World, w: World, cfg: Config, p: Path) {
    && (Follows(w0, p) ==> SameRow(w0, w, p) && Settled(w, cfg, p))
    && (DeletedHere(w0, p) || DeletedThere(w0, p) ==> Gone(w, p))
  }

  lemma FatesEnd(w0: World, w: World, cfg: Config)
    requires Queued(w, cfg, {}) && Agreed(w, cfg) && FatesPushed(w0, w, cfg)
    ensures forall p | !Excluded(cfg, p) :: Fated(w0, w, cfg, p)
  {
    hide Excluded;
    forall p | !Excluded(cfg, p)
      ensures Fated(w0, w, cfg, p)
    {
      assert FatePushed(w0, w, p);
    }
  }
}
