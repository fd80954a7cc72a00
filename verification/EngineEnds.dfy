/**
 Whatever state a device is in, its pull comes to an end: each row it writes takes one
 disagreement away (src/sync-engine.ts:518-575).
 */
module EngineEnds {
  import opened Content
  import opened Store
  import opened StoreLaws
  import opened Engine
  import opened EngineQuiet
  import opened EnginePass
  import opened EngineStored
  import opened EngineTrace
  import ChangeLog
  import EngineEdits
  import Diff3

  // ---- one row -----------------------------------------------------------------------------

  /** An upload on top of the current row settles its path, whatever else the vault holds. */
  lemma SendLands(w: World, cfg: Config, p: Path, now: int)
    requires Inv(w.server) && p in w.disk && IsLive(w.server, p)
    ensures var r := Send(w, cfg, p, w.server.files[p].rev, w.disk[p], now);
            && r.1.Ok? && Settled(r.0, cfg, p) && OnlyTouches(w, r.0, {p})
            && w.server.counter <= r.0.server.counter
  {
    SealOpens(cfg.cipher, w.disk[p]);
    OwnPath(w.server, p);
    hide Inv, Committed, Size;
  }

  lemma MergedLands(w: World, cfg: Config, p: Path, merged: Bytes, now: int)
    requires Inv(w.server) && p in w.disk && !Settled(w, cfg, p) && IsLive(w.server, p)
    ensures Converges(w, SendMerged(w, cfg, p, w.server.files[p].rev, merged, now).0, cfg)
  {
    var written := w.(disk := w.disk[p := merged]);
    SendLands(written, cfg, p, now);
    var w' := SendMerged(w, cfg, p, w.server.files[p].rev, merged, now).0;
    hide Settled, Send, Inv;
    assert OnlyTouches(w, w', {p});
    SettlingConverges(w, w', cfg, p);
  }

  lemma KeptLands(w: World, cfg: Config, p: Path, plain: Bytes, baseRev: int, mergeable: bool, copy: Path)
    requires p in w.disk && !Settled(w, cfg, p) && Free(w, copy)
    requires IsLive(w.server, p) && Opens(cfg, w.server.files[p].hash, plain)
    ensures var f := w.server.files[p];
            Converges(w, KeepBoth(w, p, w.disk[p], plain, f.hash.value, f.rev, baseRev, mergeable, copy), cfg)
  {
    var f := w.server.files[p];
    KeepBothSettles(w, cfg, p, plain, baseRev, mergeable, copy);
    hide Settled, OnlyTouches, KeepBoth, Free;
    KeepBothConverges(w, KeepBoth(w, p, w.disk[p], plain, f.hash.value, f.rev, baseRev, mergeable, copy), cfg, p, copy);
  }

  lemma NothingLands(w: World, cfg: Config)
    ensures Converges(w, w, cfg)
  {
  }

  lemma ReconcileLands(w: World, cfg: Config, p: Path, baseRev: int, copy: Path, now: int)
    requires Inv(w.server) && p in w.disk && !Settled(w, cfg, p) && IsLive(w.server, p) && Free(w, copy)
    ensures Converges(w, Reconcile(w, cfg, p, w.disk[p], w.server.files[p].rev, baseRev, copy, now).0, cfg)
  {
    var f := w.server.files[p];
    assert RowRecorded(w.server, p);
    var g := Fetch(w, cfg, p, f.rev);
    assert g.Got? ==> g.hash == f.hash.value && Opens(cfg, f.hash, g.plain);
    hide Inv, Settled, Converges, Reconcile, Fetch, Opens;
    NothingLands(w, cfg);
    if g.Got? {
      OpenedLands(w, cfg, p, g, baseRev, copy, now);
    } else {
      NothingFetched(w, cfg, p, baseRev, copy, now);
    }
  }

  lemma NothingFetched(w: World, cfg: Config, p: Path, baseRev: int, copy: Path, now: int)
    requires p in w.disk && p in w.server.files && !Fetch(w, cfg, p, w.server.files[p].rev).Got?
    ensures Reconcile(w, cfg, p, w.disk[p], w.server.files[p].rev, baseRev, copy, now).0 == w
  {
    hide Fetch, AncestorText, Diff3.Merge, Mergeable;
  }

  lemma OpenedLands(w: World, cfg: Config, p: Path, g: Fetched, baseRev: int, copy: Path, now: int)
    requires Inv(w.server) && p in w.disk && !Settled(w, cfg, p) && IsLive(w.server, p) && Free(w, copy)
    requires g == Fetch(w, cfg, p, w.server.files[p].rev) && g.Got?
    requires w.server.files[p].hash == Some(g.hash) && Opens(cfg, w.server.files[p].hash, g.plain)
    ensures Converges(w, Reconcile(w, cfg, p, w.disk[p], w.server.files[p].rev, baseRev, copy, now).0, cfg)
  {
    var local, base := w.disk[p], AncestorText(w, cfg, p, baseRev);
    hide Inv, Settled, Converges, KeepBoth, SendMerged, AncestorText, Diff3.Merge, Mergeable, Fetch, Free, Opens;
    NothingLands(w, cfg);
    KeptLands(w, cfg, p, g.plain, baseRev, false, copy);
    KeptLands(w, cfg, p, g.plain, baseRev, true, copy);
    if Mergeable(local) && Mergeable(g.plain) && base.Base? {
      MergeableIsText(local);
      MergeableIsText(g.plain);
      MergedLands(w, cfg, p, Text(MergedText(cfg, base.text, local.text, g.plain.text).text), now);
    }
  }

  /** A step that settles its path, or leaves it unsettled, and writes nothing. */
  lemma SilentLands(w: World, w': World, cfg: Config, touched: set<Path>)
    requires OnlyTouches(w, w', touched) && w'.server == w.server
    requires forall q <- touched :: q in w'.disk && !Settled(w', cfg, q) ==> q in w.disk && !Settled(w, cfg, q)
    ensures Converges(w, w', cfg)
  {
    hide Settled;
    UnsettledShrinks(w, w', cfg, touched);
  }

  lemma DownloadLands(w: World, cfg: Config, p: Path)
    requires Inv(w.server) && IsLive(w.server, p)
    ensures Converges(w, Download(w, cfg, w.server.files[p]).0, cfg)
  {
    var w' := Download(w, cfg, w.server.files[p]).0;
    assert RowRecorded(w.server, p);
    if w' != w {
      assert Settled(w', cfg, p) && OnlyTouches(w, w', {p});
      hide Settled, Inv, Download, OnlyTouches;
      SilentLands(w, w', cfg, {p});
    }
  }

  lemma DeletionLands(w: World, cfg: Config, f: File)
    requires f.path in w.server.files && w.server.files[f.path] == f && f.deleted
    ensures Converges(w, ApplyDeletion(w, cfg, f), cfg)
  {
    var w' := ApplyDeletion(w, cfg, f);
    assert OnlyTouches(w, w', {f.path}) && !Settled(w, cfg, f.path) && (f.path in w'.disk ==> f.path in w.disk);
    hide Settled, OnlyTouches, ApplyDeletion;
    SilentLands(w, w', cfg, {f.path});
  }

  lemma MoveLands(w: World, cfg: Config, f: File)
    requires f.path in w.server.files && w.server.files[f.path] == f && !f.deleted && MovesLocally(w, cfg, f)
    ensures Converges(w, MoveLocal(w, f), cfg)
  {
    var from, w' := f.renamedFrom.value, MoveLocal(w, f);
    SealOpens(cfg.cipher, w.disk[from]);
    assert Settled(w', cfg, f.path) && OnlyTouches(w, w', {f.path, from}) && from !in w'.disk;
    hide Settled, OnlyTouches, MoveLocal;
    SilentLands(w, w', cfg, {f.path, from});
  }

  lemma ContentLands(w: World, cfg: Config, f: File, copy: Path, now: int)
    requires Inv(w.server) && f.path in w.server.files && w.server.files[f.path] == f && !f.deleted && Free(w, copy)
    ensures Converges(w, ApplyContent(w, cfg, f, copy, now).0, cfg)
  {
    var p := f.path;
    hide Inv, Converges, Download, Reconcile, Free;
    NothingLands(w, cfg);
    if p !in w.disk {
      DownloadLands(w, cfg, p);
    } else if MatchesRemote(cfg, w.disk[p], f.hash) {
      var w' := SetEntry(w, p, Entry(f.rev, f.hash, Some(Sha256(w.disk[p])), false));
      SealOpens(cfg.cipher, w.disk[p]);
      assert Settled(w', cfg, p) && OnlyTouches(w, w', {p});
      hide Settled, OnlyTouches;
      SilentLands(w, w', cfg, {p});
    } else if p in w.index && w.index[p].plainHash == Some(Sha256(w.disk[p])) {
      DownloadLands(w, cfg, p);
    } else {
      ReconcileLands(w, cfg, p, if p in w.index then w.index[p].baseRev else 0, copy, now);
    }
  }

  /** Applying the current row of a path converges. */
  lemma RemoteLands(w: World, cfg: Config, f: File, copy: Path, now: int)
    requires Inv(w.server) && f.path in w.server.files && w.server.files[f.path] == f && Free(w, copy)
    ensures Converges(w, ApplyRemote(w, cfg, f, copy, now).0, cfg)
  {
    hide Inv, Converges, ApplyContent, ApplyDeletion, MoveLocal, Free;
    NothingLands(w, cfg);
    if Echo(w, cfg, f) {
    } else if f.deleted {
      DeletionLands(w, cfg, f);
    } else if MovesLocally(w, cfg, f) {
      MoveLands(w, cfg, f);
    } else {
      ContentLands(w, cfg, f, copy, now);
    }
  }

  // ---- one page ------------------------------------------------------------------------------

  lemma RowsElsewhere(w: World, cfg: Config, f: File, copy: Path, now: int, q: Path)
    requires Inv(w.server) && q != f.path
    ensures SameRow(w, ApplyRemote(w, cfg, f, copy, now).0, q)
  {
    EngineEdits.RemoteWrites(w, cfg, f, copy, now, q);
    OwnPath(w.server, f.path);
    hide ApplyRemote, Inv;
  }

  lemma RemoteForward(w: World, cfg: Config, f: File, copy: Path, now: int)
    requires Inv(w.server)
    ensures var t := ApplyRemote(w, cfg, f, copy, now).0.server; Inv(t) && Forward(w.server, t)
  {
    ApplyRemoteServes(w, cfg, f, copy, now);
    hide ApplyRemote, Inv;
    ServedForward(w, ApplyRemote(w, cfg, f, copy, now).0);
  }

  /** One turn leaves the rest of the page as it was read. */
  lemma TurnLands(w: World, cfg: Config, entries: seq<File>, end: int, copy: Path, now: int)
    requires Inv(w.server) && entries != [] && RestOfPage(w, entries, end) && Free(w, copy)
    ensures var w' := Turn(w, cfg, entries[0], copy, now);
            && Inv(w'.server) && RestOfPage(w', entries[1..], end) && Converges(w, w', cfg)
            && w'.cursor == entries[0].seqNo > w.cursor
  {
    var f, w' := entries[0], Turn(w, cfg, entries[0], copy, now);
    assert f in entries;
    if Excluded(cfg, f.path) {
      CursorConverges(w, w', cfg);
    } else {
      RemoteLands(w, cfg, f, copy, now);
      RemoteForward(w, cfg, f, copy, now);
      KeepsCursor(w, cfg, f, copy, now);
      hide Converges;
      CursorConverges(ApplyRemote(w, cfg, f, copy, now).0, w', cfg);
      ConvergesOn(w, ApplyRemote(w, cfg, f, copy, now).0, w', cfg);
    }
    hide Inv, Converges, Excluded, ApplyRemote;
    forall g | g in entries[1..]
      ensures g.path in w'.server.files && w'.server.files[g.path] == g && w'.cursor < g.seqNo <= end
    {
      LaterEntry(entries, g);
      if !Excluded(cfg, f.path) {
        RowsElsewhere(w, cfg, f, copy, now, g.path);
      }
    }
    forall p | p in w'.server.files && w'.cursor < w'.server.files[p].seqNo <= end
      ensures w'.server.files[p] in entries[1..]
    {
      assert w.server.files[p] in entries;
    }
  }

  lemma KeepsCursor(w: World, cfg: Config, f: File, copy: Path, now: int)
    ensures ApplyRemote(w, cfg, f, copy, now).0.cursor == w.cursor
  {
    hide Put, Diff3.Merge, Fetch, AncestorText, Mergeable, MatchesRemote;
  }

  /** A page as it was read, whatever the cursor. */
  lemma PageReads(w: World, limit: int)
    requires Inv(w.server)
    ensures var page := ChangeLog.Changes(w.server, w.cursor, limit);
            && (page.entries == [] || RestOfPage(w, page.entries, page.nextSeq))
            && (page.hasMore ==> page.entries != [])
  {
    if w.cursor <= w.server.counter {
      hide Inv, ChangeLog.Changes, ChangeLog.Ascending;
      ChangeLog.PageIsComplete(w.server, w.cursor, limit);
    } else {
      assert ChangeLog.Log(w.server, w.cursor, w.server.counter) == [];
    }
  }
}
