/**
 How passes come to rest: a device without edits writes nothing, and a pass that began
 with new files at most leaves none behind (src/sync-engine.ts:518-575, 949-1056).
 */
module EngineStill {
  import opened Content
  import opened Store
  import opened StoreLaws
  import opened Engine
  import opened EngineQuiet
  import opened EnginePass
  import opened EngineFates

  /** Every file here is one the index vouches for, and every entry has its file. */
  ghost predicate EditFree(w: World, cfg: Config) {
    forall p | !Excluded(cfg, p) :: (p in w.disk ==> Clean(w, p)) && (p in w.index ==> p in w.disk)
  }

  /** Every entry stands for the file on disk, or for one that has no rival on the server. */
  ghost predicate Tidy(w: World, cfg: Config) {
    forall p | !Excluded(cfg, p) && p in w.index :: p in w.disk && (Clean(w, p) || !IsLive(w.server, p))
  }

  ghost predicate AllTracked(w: World, cfg: Config) {
    forall p | !Excluded(cfg, p) && p in w.disk :: p in w.index
  }

  // ---- a device without edits ------------------------------------------------------------------

  lemma CleanApplies(w: World, cfg: Config, f: File, copy: Path, now: int)
    requires Readable(w.server, cfg) && Coherent(w, cfg, f.path, false)
    requires f.path in w.server.files && w.server.files[f.path] == f && Unseen(w, f.path)
    requires (f.path in w.disk ==> Clean(w, f.path)) && (f.path in w.index ==> f.path in w.disk)
    ensures var w' := ApplyRemote(w, cfg, f, copy, now).0;
            && w'.server == w.server
            && (f.path in w'.disk ==> Clean(w', f.path)) && (f.path in w'.index ==> f.path in w'.disk)
            && forall q | q != f.path :: SameAt(w, w', q) || (q !in w'.disk && q !in w'.index)
  {
    if !f.deleted {
      DownloadSettles(w, cfg, f.path);
    }
    hide Readable, Reconcile, Download, MatchesRemote;
  }

  lemma TurnIsStill(w: World, cfg: Config, f: File, copy: Path, now: int)
    requires ServerReady(w, cfg) && AllCoherent(w, cfg) && EditFree(w, cfg)
    requires f.path in w.server.files && w.server.files[f.path] == f && w.cursor < f.seqNo
    ensures EditFree(Turn(w, cfg, f, copy, now), cfg) && Turn(w, cfg, f, copy, now).server == w.server
  {
    var w' := Turn(w, cfg, f, copy, now);
    if !Excluded(cfg, f.path) {
      assert Coherent(w, cfg, f.path, !Unseen(w, f.path));
      CleanApplies(w, cfg, f, copy, now);
      hide ApplyRemote, Readable, Coherent, Excluded;
      forall p | !Excluded(cfg, p)
        ensures (p in w'.disk ==> Clean(w', p)) && (p in w'.index ==> p in w'.disk)
      {
        assert p != f.path ==> SameAt(w, w', p) || (p !in w'.disk && p !in w'.index);
      }
    } else {
      hide ApplyRemote, Excluded;
    }
  }

  lemma AdoptIsStill(w: World, cfg: Config)
    requires EditFree(w, cfg)
    ensures EditFree(Adopt(w, cfg), cfg) && Adopt(w, cfg).server == w.server
  {
    hide Excluded;
  }

  lemma PushIsStill(w: World, cfg: Config, p: Path, copy: Path, now: int)
    requires EditFree(w, cfg) && !Excluded(cfg, p)
    ensures EditFree(PushOne(w, cfg, p, copy, now).0, cfg) && PushOne(w, cfg, p, copy, now).0.server == w.server
  {
    hide Excluded, Upload, PushDeletion;
  }

  // ---- a device with new files at most ---------------------------------------------------------

  lemma OwnTidy(w: World, cfg: Config, f: File, copy: Path, now: int)
    requires Readable(w.server, cfg) && Coherent(w, cfg, f.path, false) && Free(w, copy)
    requires f.path in w.server.files && w.server.files[f.path] == f && Unseen(w, f.path)
    requires f.path in w.index ==> f.path in w.disk && (Clean(w, f.path) || f.deleted)
    ensures var w' := ApplyRemote(w, cfg, f, copy, now).0;
            f.path in w'.index ==> f.path in w'.disk && (Clean(w', f.path) || !IsLive(w'.server, f.path))
  {
    if !f.deleted {
      DownloadSettles(w, cfg, f.path);
      if f.path in w.disk && !MatchesRemote(cfg, w.disk[f.path], f.hash) && f.path !in w.index {
        ReconcileSettles(w, cfg, f.path, 0, copy, now);
      }
    }
    hide Readable, Reconcile, Download, MatchesRemote, Converges;
  }

  lemma TurnKeepsTidy(w: World, cfg: Config, f: File, copy: Path, now: int)
    requires ServerReady(w, cfg) && AllCoherent(w, cfg) && Free(w, copy) && Tidy(w, cfg)
    requires f.path in w.server.files && w.server.files[f.path] == f && w.cursor < f.seqNo
    requires Turned(w, Turn(w, cfg, f, copy, now), cfg, f)
    ensures Tidy(Turn(w, cfg, f, copy, now), cfg)
  {
    var w' := Turn(w, cfg, f, copy, now);
    if !Excluded(cfg, f.path) {
      assert Coherent(w, cfg, f.path, !Unseen(w, f.path));
      OwnTidy(w, cfg, f, copy, now);
    }
    hide ApplyRemote, ServerReady, AllCoherent, Coherent, Converges, Excluded, Settled, Wrote;
    forall p | !Excluded(cfg, p) && p in w'.index
      ensures p in w'.disk && (Clean(w', p) || !IsLive(w'.server, p))
    {
      assert p != f.path ==> Bystander(w, w', p);
    }
  }

  lemma AdoptTracks(w: World, cfg: Config)
    requires Tidy(w, cfg) && NoneMissed(w, cfg)
    ensures Tidy(Adopt(w, cfg), cfg) && AllTracked(Adopt(w, cfg), cfg)
  {
    var w' := Adopt(w, cfg);
    hide Excluded;
    forall p | !Excluded(cfg, p) && p in w'.index
      ensures p in w'.disk && (Clean(w', p) || !IsLive(w'.server, p))
    {
      assert Sighted(w, p, true);
    }
  }

  /** A file without a rival goes up as it is. */
  lemma UnopposedPush(w: World, cfg: Config, p: Path, copy: Path, now: int)
    requires Inv(w.server) && Coherent(w, cfg, p, true) && p in w.index && p in w.disk && (Clean(w, p) || !IsLive(w.server, p))
    ensures PushOne(w, cfg, p, copy, now).0.disk == w.disk
  {
    CurrentRev(w.server, p);
    OwnPath(w.server, p);
    hide Reconcile, Inv;
  }

  lemma PushKeepsTidy(w: World, cfg: Config, p: Path, copy: Path, now: int)
    requires AllSeen(w, cfg) && Tidy(w, cfg) && AllTracked(w, cfg) && !Excluded(cfg, p) && Free(w, copy)
    ensures var w' := PushOne(w, cfg, p, copy, now).0; Tidy(w', cfg) && AllTracked(w', cfg)
  {
    var w' := PushOne(w, cfg, p, copy, now).0;
    assert Coherent(w, cfg, p, true);
    PushSettles(w, cfg, p, copy, now);
    if p in w.index {
      UnopposedPush(w, cfg, p, copy, now);
      PushKeepsEntry(w, cfg, p, copy, now);
    }
    hide PushOne, Readable, Coherent, Excluded;
    forall q | !Excluded(cfg, q)
      ensures q in w'.disk ==> q in w'.index
      ensures q in w'.index ==> q in w'.disk && (Clean(w', q) || !IsLive(w'.server, q))
    {
      assert q != p && q != copy ==> SameAt(w, w', q);
    }
  }

  lemma PushKeepsEntry(w: World, cfg: Config, p: Path, copy: Path, now: int)
    requires Readable(w.server, cfg) && Coherent(w, cfg, p, true) && p in w.index && p in w.disk && Free(w, copy)
    ensures p in PushOne(w, cfg, p, copy, now).0.index
  {
    if w.index[p].plainHash != Some(Sha256(w.disk[p])) {
      UploadTracks(w, cfg, p, copy, now);
    }
    hide Upload, Readable;
  }

  lemma TidyEnds(w: World, cfg: Config)
    requires Agreed(w, cfg) && AllTracked(w, cfg)
    ensures EditFree(w, cfg)
  {
    hide Excluded;
  }

  // ---- over a whole pass -----------------------------------------------------------------------------

  ghost predicate StillPulled(w0: World, w: World, cfg: Config) {
    && (EditFree(w0, cfg) ==> EditFree(w, cfg) && w.server == w0.server)
    && (Tidy(w0, cfg) ==> Tidy(w, cfg))
  }

  ghost predicate StillPushed(w0: World, w: World, cfg: Config) {
    && (EditFree(w0, cfg) ==> EditFree(w, cfg) && w.server == w0.server)
    && (Tidy(w0, cfg) && AllSighted(w0, cfg) ==> Tidy(w, cfg) && AllTracked(w, cfg))
  }

  lemma StillStarts(w0: World, w: World, cfg: Config)
    requires w == w0.(conflicts := w.conflicts)
    ensures StillPulled(w0, w, cfg)
  {
    hide Excluded;
  }

  lemma TurnKeepsStill(w0: World, w: World, cfg: Config, f: File, copy: Path, now: int)
    requires ServerReady(w, cfg) && AllCoherent(w, cfg) && Free(w, copy) && StillPulled(w0, w, cfg)
    requires f.path in w.server.files && w.server.files[f.path] == f && w.cursor < f.seqNo
    requires Turned(w, Turn(w, cfg, f, copy, now), cfg, f)
    ensures StillPulled(w0, Turn(w, cfg, f, copy, now), cfg)
  {
    hide ServerReady, AllCoherent, Turn, Turned, EditFree, Tidy, Free;
    if EditFree(w0, cfg) {
      TurnIsStill(w, cfg, f, copy, now);
    }
    if Tidy(w0, cfg) {
      TurnKeepsTidy(w, cfg, f, copy, now);
    }
  }

  lemma CursorKeepsStill(w0: World, w: World, w': World, cfg: Config)
    requires StillPulled(w0, w, cfg) && w' == w.(cursor := w'.cursor)
    ensures StillPulled(w0, w', cfg)
  {
    hide Excluded;
  }

  lemma AdoptKeepsStill(w0: World, w: World, cfg: Config)
    requires StillPulled(w0, w, cfg) && (AllSighted(w0, cfg) ==> NoneMissed(w, cfg))
    ensures StillPushed(w0, Adopt(w, cfg), cfg)
  {
    hide EditFree, Tidy, AllTracked, AllSighted, NoneMissed, Adopt;
    if EditFree(w0, cfg) {
      AdoptIsStill(w, cfg);
    }
    if Tidy(w0, cfg) && AllSighted(w0, cfg) {
      AdoptTracks(w, cfg);
    }
  }

  lemma PushKeepsStill(w0: World, w: World, cfg: Config, p: Path, copy: Path, now: int)
    requires AllSeen(w, cfg) && StillPushed(w0, w, cfg) && !Excluded(cfg, p) && Free(w, copy)
    ensures StillPushed(w0, PushOne(w, cfg, p, copy, now).0, cfg)
  {
    hide EditFree, Tidy, AllTracked, AllSighted, AllSeen, PushOne, Excluded, Free;
    if EditFree(w0, cfg) {
      PushIsStill(w, cfg, p, copy, now);
    }
    if Tidy(w0, cfg) && AllSighted(w0, cfg) {
      PushKeepsTidy(w, cfg, p, copy, now);
    }
  }
}
