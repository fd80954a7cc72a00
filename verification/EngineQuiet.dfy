/**
 What one path looks like to the engine, and how one step settles it
 (src/sync-engine.ts:618-807, 966-1247).
 */
module EngineQuiet {
  import opened Content
  import opened Store
  import opened StoreLaws
  import opened Engine
  import Diff3

  // ---- a vault this device can read ---------------------------------------------------

  predicate Opens(cfg: Config, h: Option<Hash>, c: Bytes) {
    h.Some? && Unseal(cfg.cipher, h.value.content) == Some(c)
  }

  /** A live file names a content, and no row is a folder. */
  ghost predicate PlainFile(s: State, p: Path) {
    p in s.files ==> !s.files[p].folder && (!s.files[p].deleted ==> s.files[p].hash.Some?)
  }

  ghost predicate OpensAt(s: State, cfg: Config, k: (Path, int)) {
    k in s.revisions && s.revisions[k].hash.Some? ==>
      Unseal(cfg.cipher, s.revisions[k].hash.value.content).Some?
  }

  /** Every stored revision opens with the key in force. */
  ghost predicate Readable(s: State, cfg: Config) {
    && Inv(s)
    && (forall p :: PlainFile(s, p))
    && (forall k :: OpensAt(s, cfg, k))
  }

  // ---- one path ------------------------------------------------------------------------

  /** Disk, index and server agree about a path, and nothing is waiting to be sent. */
  ghost predicate Settled(w: World, cfg: Config, p: Path) {
    && p in w.index && p in w.disk && IsLive(w.server, p)
    && var e, f := w.index[p], w.server.files[p];
    && !e.dirty && e.baseRev == f.rev
    && e.plainHash == Some(Sha256(w.disk[p]))
    && Opens(cfg, f.hash, w.disk[p])
  }

  /**
   What the index may say of a path.  A clean entry stands for the file on disk, unless a
   newer row is still to be read; once the current row has been seen, a file on disk that
   the index can vouch for was vouched for at the current revision.
   */
  ghost predicate Coherent(w: World, cfg: Config, p: Path, seen: bool) {
    p in w.index ==>
      var e := w.index[p];
      && 0 <= e.baseRev
      && (e.baseRev > 0 ==> p in w.server.files && e.baseRev <= w.server.files[p].rev)
      && (e.plainHash.Some? ==>
            && p in w.server.files
            && (e.baseRev == w.server.files[p].rev ==>
                  IsLive(w.server, p) && Opens(cfg, w.server.files[p].hash, e.plainHash.value.content)))
      && (!e.dirty && (seen || p !in w.server.files || e.baseRev == w.server.files[p].rev) ==>
            p in w.disk && e.plainHash == Some(Sha256(w.disk[p])))
      && (seen && p in w.disk && e.plainHash.Some? ==> e.baseRev == w.server.files[p].rev)
  }

  lemma SettledIsCoherent(w: World, cfg: Config, p: Path)
    requires Readable(w.server, cfg) && Settled(w, cfg, p)
    ensures Coherent(w, cfg, p, true)
  {
    assert RowRecorded(w.server, p);
  }

  /** Two worlds look the same at a path. */
  ghost predicate SameAt(w: World, w': World, q: Path) {
    && (q in w.disk <==> q in w'.disk) && (q in w.disk ==> w.disk[q] == w'.disk[q])
    && (q in w.index <==> q in w'.index) && (q in w.index ==> w.index[q] == w'.index[q])
    && (q in w.server.files <==> q in w'.server.files)
    && (q in w.server.files ==> w.server.files[q] == w'.server.files[q])
  }

  ghost predicate OnlyTouches(w: World, w': World, touched: set<Path>) {
    w.cursor == w'.cursor && forall q | q !in touched :: SameAt(w, w', q)
  }

  lemma SameIsAsCoherent(w: World, w': World, cfg: Config, q: Path, seen: bool)
    requires SameAt(w, w', q)
    ensures Coherent(w, cfg, q, seen) <==> Coherent(w', cfg, q, seen)
    ensures Settled(w, cfg, q) <==> Settled(w', cfg, q)
  {
  }

  /** A row this device has written: its own path, no rename. */
  predicate OwnRow(w: World, cfg: Config, p: Path) {
    p in w.server.files && w.server.files[p].updatedBy == cfg.device && w.server.files[p].renamedFrom == None
  }

  /** What a step did to the server: nothing, or one write of its own at p. */
  ghost predicate Wrote(w: World, w': World, cfg: Config, p: Path) {
    || w'.server == w.server
    || (OwnRow(w', cfg, p) && w'.server.files[p].seqNo > w.server.counter
        && w'.server.files[p].rev > Current(w.server, p).rev)
  }

  // ---- one write ---------------------------------------------------------------------------

  lemma RowOpens(s: State, cfg: Config, p: Path)
    requires Readable(s, cfg) && IsLive(s, p)
    ensures s.files[p].rev >= 1 && s.files[p].path == p
    ensures RevisionHash(s, p, s.files[p].rev) == s.files[p].hash
    ensures s.files[p].hash.Some? && Unseal(cfg.cipher, s.files[p].hash.value.content).Some?
  {
    assert RowRecorded(s, p) && PlainFile(s, p) && OpensAt(s, cfg, (p, s.files[p].rev));
  }

  /** A row whose content opens keeps the vault readable. */
  lemma CommitIsReadable(s: State, cfg: Config, f: File)
    requires Readable(s, cfg) && NextRow(s, f) && !f.folder
    requires if f.deleted then f.hash == None else f.hash.Some? && Unseal(cfg.cipher, f.hash.value.content).Some?
    ensures Readable(Commit(s, f), cfg)
  {
    var t := Commit(s, f);
    CommitKeepsInv(s, f);
    forall p ensures PlainFile(t, p) {
      assert PlainFile(s, p);
    }
    forall k ensures OpensAt(t, cfg, k) {
      assert OpensAt(s, cfg, k);
    }
  }

  /** A vault with rows and revisions gone stays readable. */
  lemma FewerIsReadable(s: State, t: State, cfg: Config)
    requires Readable(s, cfg) && Inv(t)
    requires forall p <- t.files :: p in s.files && t.files[p] == s.files[p]
    requires forall k <- t.revisions :: k in s.revisions && t.revisions[k] == s.revisions[k]
    ensures Readable(t, cfg)
  {
    forall p ensures PlainFile(t, p) {
      assert PlainFile(s, p);
    }
    forall k ensures OpensAt(t, cfg, k) {
      assert OpensAt(s, cfg, k);
    }
  }

  /** An upload on top of the current row settles the path it was read from. */
  lemma SendSettles(w: World, cfg: Config, p: Path, baseRev: int, now: int)
    requires Readable(w.server, cfg) && p in w.disk
    requires baseRev == Current(w.server, p).rev || SameContent(w.server, SendArgs(cfg, p, baseRev, w.disk[p], now))
    ensures var r := Send(w, cfg, p, baseRev, w.disk[p], now);
            && r.1.Ok? && Settled(r.0, cfg, p) && Readable(r.0.server, cfg)
            && r.0.disk == w.disk && OnlyTouches(w, r.0, {p})
            && w.server.counter <= r.0.server.counter
            && Wrote(w, r.0, cfg, p)
  {
    var a := SendArgs(cfg, p, baseRev, w.disk[p], now);
    SealOpens(cfg.cipher, w.disk[p]);
    CurrentRev(w.server, p);
    if !SameContent(w.server, a) {
      CommitIsReadable(w.server, cfg, PutRow(w.server, a));
    }
  }

  // ---- how a step leaves the rest ---------------------------------------------------------

  /** A name nothing on this device or on the server goes by. */
  predicate Free(w: World, copy: Path) {
    && copy !in w.disk && copy !in w.index && copy !in w.server.files
    && forall q <- w.server.files :: w.server.files[q].renamedFrom != Some(copy)
  }

  /** Paths on disk that do not agree with the server. */
  ghost function Unsettled(w: World, cfg: Config): set<Path> {
    set p | p in w.disk && !Settled(w, cfg, p)
  }

  /** A step adds no disagreement, and each write it makes takes one away. */
  ghost predicate Converges(w: World, w': World, cfg: Config) {
    && |Unsettled(w', cfg)| <= |Unsettled(w, cfg)|
    && w.server.counter <= w'.server.counter
    && (w.server.counter != w'.server.counter ==> |Unsettled(w', cfg)| < |Unsettled(w, cfg)|)
  }

  /** What remains unsettled after a step, path by path. */
  lemma UnsettledShrinks(w: World, w': World, cfg: Config, touched: set<Path>)
    requires OnlyTouches(w, w', touched)
    requires forall q <- touched :: q in Unsettled(w', cfg) ==> q in Unsettled(w, cfg)
    ensures Unsettled(w', cfg) <= Unsettled(w, cfg)
    ensures |Unsettled(w', cfg)| <= |Unsettled(w, cfg)|
  {
    hide Settled;
    forall q | q in Unsettled(w', cfg)
      ensures q in Unsettled(w, cfg)
    {
      if q !in touched {
        SameIsAsCoherent(w, w', cfg, q, true);
      }
    }
    Subset(Unsettled(w', cfg), Unsettled(w, cfg));
  }

  lemma {:induction false} Subset(a: set<Path>, b: set<Path>)
    requires a <= b
    ensures |a| <= |b| && (a != b ==> |a| < |b|)
  {
    assert b == a + (b - a);
    if a != b {
      var x :| x in b - a;
      assert |b - a| > 0;
    }
  }

  /** A write that settles its own unsettled path converges. */
  lemma SettlingConverges(w: World, w': World, cfg: Config, p: Path)
    requires OnlyTouches(w, w', {p}) && p in w.disk && !Settled(w, cfg, p) && Settled(w', cfg, p)
    requires w.server.counter <= w'.server.counter
    ensures Converges(w, w', cfg)
  {
    hide Settled, OnlyTouches;
    assert p in Unsettled(w, cfg) && p !in Unsettled(w', cfg);
    UnsettledShrinks(w, w', cfg, {p});
    Subset(Unsettled(w', cfg), Unsettled(w, cfg));
  }

  /** Keeping both settles the path and sets one new file aside. */
  lemma KeepBothSettles(w: World, cfg: Config, p: Path, plain: Bytes, baseRev: int, mergeable: bool, copy: Path)
    requires p in w.disk && IsLive(w.server, p) && Opens(cfg, w.server.files[p].hash, plain) && Free(w, copy)
    ensures var f := w.server.files[p];
            var w' := KeepBoth(w, p, w.disk[p], plain, f.hash.value, f.rev, baseRev, mergeable, copy);
            && Settled(w', cfg, p) && OnlyTouches(w, w', {p, copy}) && copy !in w'.index
            && w'.server == w.server
  {
  }

  lemma KeepBothConverges(w: World, w': World, cfg: Config, p: Path, copy: Path)
    requires OnlyTouches(w, w', {p, copy}) && p in w.disk && !Settled(w, cfg, p) && Settled(w', cfg, p)
    requires Free(w, copy) && w'.server == w.server
    ensures Converges(w, w', cfg)
  {
    hide Settled;
    var u, u' := Unsettled(w, cfg), Unsettled(w', cfg);
    forall q | q in u'
      ensures q in (u - {p}) + {copy}
    {
      if q != p && q != copy {
        SameIsAsCoherent(w, w', cfg, q, true);
      }
    }
    assert p in u;
    Subset(u', (u - {p}) + {copy});
    assert |(u - {p}) + {copy}| <= |u - {p}| + 1 == |u|;
  }

  /** Both sides changed: afterwards the path is settled, one way or another. */
  ghost predicate Reconciled(w: World, w': World, cfg: Config, p: Path, copy: Path) {
    && Settled(w', cfg, p) && Readable(w'.server, cfg)
    && OnlyTouches(w, w', {p, copy}) && copy !in w'.index
    && Converges(w, w', cfg)
    && copy !in w'.server.files
    && Wrote(w, w', cfg, p)
  }

  lemma KeepBothReconciles(w: World, cfg: Config, p: Path, plain: Bytes, baseRev: int, mergeable: bool, copy: Path)
    requires Readable(w.server, cfg) && p in w.disk && !Settled(w, cfg, p)
    requires IsLive(w.server, p) && Opens(cfg, w.server.files[p].hash, plain) && Free(w, copy)
    ensures var f := w.server.files[p];
            Reconciled(w, KeepBoth(w, p, w.disk[p], plain, f.hash.value, f.rev, baseRev, mergeable, copy), cfg, p, copy)
  {
    var f := w.server.files[p];
    var w' := KeepBoth(w, p, w.disk[p], plain, f.hash.value, f.rev, baseRev, mergeable, copy);
    KeepBothSettles(w, cfg, p, plain, baseRev, mergeable, copy);
    hide Settled, OnlyTouches, Readable, KeepBoth;
    KeepBothConverges(w, w', cfg, p, copy);
  }

  lemma MergedReconciles(w: World, cfg: Config, p: Path, merged: Bytes, copy: Path, now: int)
    requires Readable(w.server, cfg) && p in w.disk && !Settled(w, cfg, p)
    requires IsLive(w.server, p) && Free(w, copy)
    ensures var r := SendMerged(w, cfg, p, w.server.files[p].rev, merged, now);
            r.1 == Done && Reconciled(w, r.0, cfg, p, copy)
  {
    var written := w.(disk := w.disk[p := merged]);
    SendSettles(written, cfg, p, w.server.files[p].rev, now);
    var w' := SendMerged(w, cfg, p, w.server.files[p].rev, merged, now).0;
    hide Settled, Readable, Send;
    assert OnlyTouches(w, w', {p});
    SettlingConverges(w, w', cfg, p);
  }

  lemma ReconcileSettles(w: World, cfg: Config, p: Path, baseRev: int, copy: Path, now: int)
    requires Readable(w.server, cfg) && p in w.disk && !Settled(w, cfg, p)
    requires IsLive(w.server, p) && Free(w, copy)
    ensures var r := Reconcile(w, cfg, p, w.disk[p], w.server.files[p].rev, baseRev, copy, now);
            r.1 == Done && Reconciled(w, r.0, cfg, p, copy)
  {
    var local, f := w.disk[p], w.server.files[p];
    RowOpens(w.server, cfg, p);
    AncestorReads(w, cfg, p, baseRev);
    var plain := Fetch(w, cfg, p, f.rev).plain;
    hide Readable, Settled, Reconciled, KeepBoth, SendMerged, AncestorText, Diff3.Merge, Mergeable;
    KeepBothReconciles(w, cfg, p, plain, baseRev, false, copy);
    KeepBothReconciles(w, cfg, p, plain, baseRev, true, copy);
    var base := AncestorText(w, cfg, p, baseRev);
    if Mergeable(local) && Mergeable(plain) && base.Base? {
      MergeableIsText(local);
      MergeableIsText(plain);
      MergedReconciles(w, cfg, p, Text(MergedText(cfg, base.text, local.text, plain.text).text), copy, now);
    }
  }

  lemma MergeableIsText(b: Bytes)
    requires Mergeable(b)
    ensures b.Text?
  {
  }

  lemma AncestorReads(w: World, cfg: Config, p: Path, baseRev: int)
    requires Readable(w.server, cfg)
    ensures !AncestorText(w, cfg, p, baseRev).Broken?
  {
    assert OpensAt(w.server, cfg, (p, baseRev));
  }

  // ---- applying the current row of a path ------------------------------------------------

  /** Where a step may act besides its own path. */
  function Beside(f: File, copy: Path): set<Path> {
    {f.path, copy} + if f.renamedFrom.Some? then {f.renamedFrom.value} else {}
  }

  /** The step has dealt with the row, and whatever else it touched is no longer tracked. */
  ghost predicate Applied(w: World, w': World, cfg: Config, f: File, copy: Path) {
    && Coherent(w', cfg, f.path, true) && Readable(w'.server, cfg)
    && OnlyTouches(w, w', Beside(f, copy))
    && (forall q <- Beside(f, copy) - {f.path} :: SameAt(w, w', q) || UntrackedNow(w, w', q))
    && Converges(w, w', cfg)
    && f.path in w'.server.files && Wrote(w, w', cfg, f.path)
    && (w'.server != w.server ==> Settled(w', cfg, f.path))
  }

  /** A name dropped from the index; what the server has under it is untouched. */
  ghost predicate UntrackedNow(w: World, w': World, q: Path) {
    && q !in w'.index
    && (q in w.server.files <==> q in w'.server.files)
    && (q in w.server.files ==> w.server.files[q] == w'.server.files[q])
  }

  /** A step that only settles its path. */
  lemma SettledIsApplied(w: World, w': World, cfg: Config, f: File, copy: Path)
    requires Settled(w', cfg, f.path) && Readable(w.server, cfg) && w'.server == w.server
    requires OnlyTouches(w, w', {f.path})
    ensures Applied(w, w', cfg, f, copy)
  {
    SettledIsCoherent(w', cfg, f.path);
    hide Settled, Readable, Coherent;
    UnsettledShrinks(w, w', cfg, {f.path});
  }

  lemma NothingApplied(w: World, cfg: Config, f: File, copy: Path)
    requires Coherent(w, cfg, f.path, true) && Readable(w.server, cfg) && f.path in w.server.files
    ensures Applied(w, w, cfg, f, copy)
  {
  }

  lemma DownloadSettles(w: World, cfg: Config, p: Path)
    requires Readable(w.server, cfg) && IsLive(w.server, p)
    ensures var r := Download(w, cfg, w.server.files[p]);
            r.1 == Done && Settled(r.0, cfg, p) && r.0.server == w.server && OnlyTouches(w, r.0, {p})
  {
    RowOpens(w.server, cfg, p);
  }

  lemma DeletionApplies(w: World, cfg: Config, f: File, copy: Path)
    requires Readable(w.server, cfg) && f.path in w.server.files && w.server.files[f.path] == f && f.deleted
    ensures Applied(w, ApplyDeletion(w, cfg, f), cfg, f, copy)
  {
    var w' := ApplyDeletion(w, cfg, f);
    DeletionDrops(w, cfg, f);
    hide Readable, Coherent, Settled, ApplyDeletion;
    UnsettledShrinks(w, w', cfg, {f.path});
  }

  lemma DeletionDrops(w: World, cfg: Config, f: File)
    requires Readable(w.server, cfg) && f.path in w.server.files && w.server.files[f.path] == f && f.deleted
    ensures var w' := ApplyDeletion(w, cfg, f);
            && Coherent(w', cfg, f.path, true) && OnlyTouches(w, w', {f.path}) && w'.server == w.server
            && !Settled(w, cfg, f.path) && !Settled(w', cfg, f.path) && (f.path in w'.disk ==> f.path in w.disk)
  {
    assert RowRecorded(w.server, f.path);
    hide Untouched;
  }

  lemma MoveApplies(w: World, cfg: Config, f: File, copy: Path)
    requires Readable(w.server, cfg) && IsLive(w.server, f.path) && w.server.files[f.path] == f
    requires MovesLocally(w, cfg, f)
    ensures Applied(w, MoveLocal(w, f), cfg, f, copy) && Settled(MoveLocal(w, f), cfg, f.path)
  {
    var from, w' := f.renamedFrom.value, MoveLocal(w, f);
    SealOpens(cfg.cipher, w.disk[from]);
    assert Settled(w', cfg, f.path);
    SettledIsCoherent(w', cfg, f.path);
    hide Readable, Coherent, MatchesRemote;
    assert OnlyTouches(w, w', {f.path, from});
    assert from !in w'.disk;
    hide Settled, MoveLocal;
    UnsettledShrinks(w, w', cfg, {f.path, from});
  }

  lemma ReconcileApplies(w: World, w': World, cfg: Config, f: File, copy: Path)
    requires Reconciled(w, w', cfg, f.path, copy) && Free(w, copy)
    ensures Applied(w, w', cfg, f, copy)
  {
    SettledIsCoherent(w', cfg, f.path);
    hide Settled, Readable, Coherent, Converges;
  }

  lemma ContentApplies(w: World, cfg: Config, f: File, copy: Path, now: int)
    requires Readable(w.server, cfg) && IsLive(w.server, f.path) && w.server.files[f.path] == f
    requires Coherent(w, cfg, f.path, false) && Free(w, copy)
    ensures var r := ApplyContent(w, cfg, f, copy, now); r.1 == Done && Applied(w, r.0, cfg, f, copy)
  {
    var p, w' := f.path, ApplyContent(w, cfg, f, copy, now).0;
    DownloadSettles(w, cfg, p);
    hide Readable, Applied, OnlyTouches, Reconcile, Download;
    if p !in w.disk {
      if p in w.index && w.index[p].dirty {
        NothingApplied(w, cfg, f, copy);
      } else {
        SettledIsApplied(w, w', cfg, f, copy);
      }
    } else if MatchesRemote(cfg, w.disk[p], f.hash) {
      SealOpens(cfg.cipher, w.disk[p]);
      assert OnlyTouches(w, w', {p}) by { SetEntryTouches(w, p, w'.index[p]); }
      SettledIsApplied(w, w', cfg, f, copy);
    } else if p in w.index && w.index[p].plainHash == Some(Sha256(w.disk[p])) {
      SettledIsApplied(w, w', cfg, f, copy);
    } else {
      ReconcileSettles(w, cfg, p, if p in w.index then w.index[p].baseRev else 0, copy, now);
      ReconcileApplies(w, w', cfg, f, copy);
    }
  }

  lemma SetEntryTouches(w: World, p: Path, e: Entry)
    ensures OnlyTouches(w, SetEntry(w, p, e), {p})
  {
  }

  /** Applying a path's current row never fails and leaves nothing unseen there. */
  lemma RemoteApplies(w: World, cfg: Config, f: File, copy: Path, now: int)
    requires Readable(w.server, cfg) && f.path in w.server.files && w.server.files[f.path] == f
    requires Coherent(w, cfg, f.path, false) && Free(w, copy)
    ensures var r := ApplyRemote(w, cfg, f, copy, now); r.1 == Done && Applied(w, r.0, cfg, f, copy)
  {
    hide Readable, Applied, ApplyContent, ApplyDeletion, MoveLocal;
    if Echo(w, cfg, f) {
      NothingApplied(w, cfg, f, copy);
    } else if f.deleted {
      DeletionApplies(w, cfg, f, copy);
    } else if MovesLocally(w, cfg, f) {
      MoveApplies(w, cfg, f, copy);
    } else {
      ContentApplies(w, cfg, f, copy, now);
    }
  }

  /** Besides its own path and a conflict copy, a row only ever touches the source of a move. */
  lemma RemoteTouches(w: World, cfg: Config, f: File, copy: Path, now: int, q: Path)
    requires Readable(w.server, cfg) && f.path in w.server.files && w.server.files[f.path] == f
    requires Coherent(w, cfg, f.path, false) && Free(w, copy)
    requires q != f.path && q != copy
    ensures SameAt(w, ApplyRemote(w, cfg, f, copy, now).0, q) || (MovesLocally(w, cfg, f) && q == f.renamedFrom.value)
  {
    if !f.deleted {
      ContentTouches(w, cfg, f, copy, now);
    }
    hide Readable, ApplyContent, Coherent, MatchesRemote;
  }

  lemma ContentTouches(w: World, cfg: Config, f: File, copy: Path, now: int)
    requires Readable(w.server, cfg) && IsLive(w.server, f.path) && w.server.files[f.path] == f
    requires Coherent(w, cfg, f.path, false) && Free(w, copy)
    ensures OnlyTouches(w, ApplyContent(w, cfg, f, copy, now).0, {f.path, copy})
  {
    var p := f.path;
    DownloadSettles(w, cfg, p);
    if p in w.disk && !(p in w.index && w.index[p].plainHash == Some(Sha256(w.disk[p]))) {
      ReconcileSettles(w, cfg, p, if p in w.index then w.index[p].baseRev else 0, copy, now);
    }
    hide Readable, Reconcile, Download, Settled, Converges, MatchesRemote;
  }

  // ---- pushing one path ----------------------------------------------------------------------

  /** The path is settled or no longer tracked; a conflict copy, if any, is on disk only. */
  ghost predicate Pushed(w: World, w': World, cfg: Config, p: Path, copy: Path) {
    && (p in w'.index ==> Settled(w', cfg, p)) && Readable(w'.server, cfg)
    && OnlyTouches(w, w', {p, copy}) && copy !in w'.index && copy !in w'.server.files
    && Wrote(w, w', cfg, p)
  }

  lemma UploadSettles(w: World, cfg: Config, p: Path, copy: Path, now: int)
    requires Readable(w.server, cfg) && p in w.disk && p in w.index
    requires Coherent(w, cfg, p, true) && !Settled(w, cfg, p) && Free(w, copy)
    ensures var r := Upload(w, cfg, p, w.disk[p], w.index[p].baseRev, copy, now);
            r.1 == Done && Pushed(w, r.0, cfg, p, copy) && p in r.0.index
  {
    var baseRev, cur := w.index[p].baseRev, Current(w.server, p);
    CurrentRev(w.server, p);
    OwnPath(w.server, p);
    if baseRev == cur.rev || SameContent(w.server, SendArgs(cfg, p, baseRev, w.disk[p], now)) {
      SendSettles(w, cfg, p, baseRev, now);
    } else if cur.deleted {
      SendSettles(w, cfg, p, cur.rev, now);
    } else {
      ReconcileSettles(w, cfg, p, baseRev, copy, now);
    }
    hide Readable, Settled, Reconcile;
  }

  lemma PushDeletionSettles(w: World, cfg: Config, p: Path, copy: Path)
    requires Readable(w.server, cfg) && p in w.index && p !in w.disk && w.index[p].baseRev > 0
    requires Coherent(w, cfg, p, true) && Free(w, copy)
    ensures var r := PushDeletion(w, cfg, p, w.index[p].baseRev); r.1 == Done && Pushed(w, r.0, cfg, p, copy)
  {
    var cur := Current(w.server, p);
    OwnPath(w.server, p);
    if cur.deleted {
    } else if cur.rev == w.index[p].baseRev {
      assert PlainFile(w.server, p);
      CommitIsReadable(w.server, cfg, Tombstone(cur, w.server.counter + 1, cfg.device));
    } else {
      RowOpens(w.server, cfg, p);
    }
    hide Readable;
  }

  /** Pushing a path never fails either. */
  lemma PushSettles(w: World, cfg: Config, p: Path, copy: Path, now: int)
    requires Readable(w.server, cfg) && Coherent(w, cfg, p, true) && Free(w, copy)
    ensures var r := PushOne(w, cfg, p, copy, now); r.1 == Done && Pushed(w, r.0, cfg, p, copy)
  {
    hide Readable, Upload, PushDeletion;
    if p in w.index {
      if p !in w.disk {
        if w.index[p].baseRev > 0 {
          PushDeletionSettles(w, cfg, p, copy);
        }
      } else if w.index[p].plainHash != Some(Sha256(w.disk[p])) {
        UploadSettles(w, cfg, p, copy, now);
      }
    }
  }

  // ---- nothing on the server goes unnoticed ---------------------------------------------------

  /**
   A live row that was seen is tracked.  The one way to lose sight of it is an entry
   that was never sent for a file that is gone, so there must be none.
   */
  ghost predicate Sighted(w: World, p: Path, seen: bool) {
    && (p in w.index && p !in w.disk && IsLive(w.server, p) ==> w.index[p].baseRev > 0)
    && (seen && IsLive(w.server, p) ==> p in w.index)
  }

  lemma RemoteSights(w: World, cfg: Config, f: File, copy: Path, now: int)
    requires Readable(w.server, cfg) && f.path in w.server.files && w.server.files[f.path] == f
    requires Coherent(w, cfg, f.path, false) && Sighted(w, f.path, false) && Free(w, copy)
    ensures Sighted(ApplyRemote(w, cfg, f, copy, now).0, f.path, true)
  {
    var p, w' := f.path, ApplyRemote(w, cfg, f, copy, now).0;
    if f.deleted {
      DeletionSights(w, cfg, f);
    }
    hide Readable, ApplyDeletion, MoveLocal;
    if !Echo(w, cfg, f) && !f.deleted {
      if MovesLocally(w, cfg, f) {
        MoveApplies(w, cfg, f, copy);
      } else if p in w.disk || p !in w.index || !w.index[p].dirty {
        ContentSettles(w, cfg, f, copy, now);
      }
    }
  }

  lemma DeletionSights(w: World, cfg: Config, f: File)
    requires Inv(w.server) && f.path in w.server.files && w.server.files[f.path] == f && f.deleted
    ensures Sighted(ApplyDeletion(w, cfg, f), f.path, true)
  {
  }

  lemma ContentSettles(w: World, cfg: Config, f: File, copy: Path, now: int)
    requires Readable(w.server, cfg) && IsLive(w.server, f.path) && w.server.files[f.path] == f
    requires Coherent(w, cfg, f.path, false) && Free(w, copy)
    requires f.path in w.disk || f.path !in w.index || !w.index[f.path].dirty
    ensures Settled(ApplyContent(w, cfg, f, copy, now).0, cfg, f.path)
  {
    var p := f.path;
    DownloadSettles(w, cfg, p);
    hide Readable, OnlyTouches, Reconcile, Download;
    if p in w.disk {
      if MatchesRemote(cfg, w.disk[p], f.hash) {
        SealOpens(cfg.cipher, w.disk[p]);
      } else if !(p in w.index && w.index[p].plainHash == Some(Sha256(w.disk[p]))) {
        ReconcileSettles(w, cfg, p, if p in w.index then w.index[p].baseRev else 0, copy, now);
      }
    }
  }

  lemma PushSights(w: World, cfg: Config, p: Path, copy: Path, now: int)
    requires Readable(w.server, cfg) && Coherent(w, cfg, p, true) && Sighted(w, p, true) && Free(w, copy)
    ensures Sighted(PushOne(w, cfg, p, copy, now).0, p, true)
  {
    PushSettles(w, cfg, p, copy, now);
    OwnPathOfRow(w.server, cfg, p);
    assert p in w.index ==> 0 <= w.index[p].baseRev;
    hide Readable, Coherent, Upload, PushDeletion, OnlyTouches;
    if p in w.index {
      if p in w.disk {
        if w.index[p].plainHash != Some(Sha256(w.disk[p])) {
          UploadTracks(w, cfg, p, copy, now);
        }
      } else if w.index[p].baseRev > 0 {
        PushDeletionSights(w, cfg, p, w.index[p].baseRev);
      }
    }
  }

  lemma UploadTracks(w: World, cfg: Config, p: Path, copy: Path, now: int)
    requires Readable(w.server, cfg) && Coherent(w, cfg, p, true) && p in w.index && p in w.disk && Free(w, copy)
    requires w.index[p].plainHash != Some(Sha256(w.disk[p]))
    ensures p in Upload(w, cfg, p, w.disk[p], w.index[p].baseRev, copy, now).0.index
  {
    UploadSettles(w, cfg, p, copy, now);
  }

  lemma OwnPathOfRow(s: State, cfg: Config, p: Path)
    requires Readable(s, cfg)
    ensures Current(s, p).path == p
  {
    OwnPath(s, p);
  }

  lemma PushDeletionSights(w: World, cfg: Config, p: Path, baseRev: int)
    requires Current(w.server, p).path == p && p in w.index
    ensures var w' := PushDeletion(w, cfg, p, baseRev).0; IsLive(w'.server, p) ==> p in w'.index
  {
  }

  // ---- an edit beats a deletion ------------------------------------------------------------------

  /** Path p is up, here and on the server, with content c. */
  ghost predicate Won(w: World, cfg: Config, p: Path, c: Bytes) {
    Settled(w, cfg, p) && w.disk[p] == c
  }

  /** A content on disk, edited or new here, under a name the server counts as deleted or never had. */
  ghost predicate EditedHere(w: World, cfg: Config, p: Path, c: Bytes, seen: bool) {
    && p in w.disk && w.disk[p] == c && !IsLive(w.server, p)
    && (p in w.index ==>
          && w.index[p].plainHash != Some(Sha256(c))
          && (seen || !Engine.Untouched(cfg, c, w.index[p])))
    && NotMovedOn(w, cfg, p, c)
  }

  /** No other device has renamed this very content away from p. */
  ghost predicate NotMovedOn(w: World, cfg: Config, p: Path, c: Bytes) {
    forall q <- w.server.files ::
      w.server.files[q].renamedFrom == Some(p) ==> !MatchesRemote(cfg, c, w.server.files[q].hash)
  }

  /** Deleted here from an older revision, and edited on the server to content c. */
  ghost predicate EditedThere(w: World, cfg: Config, p: Path, c: Bytes) {
    && p !in w.disk && IsLive(w.server, p) && Opens(cfg, w.server.files[p].hash, c)
    && p in w.index && w.index[p].dirty && 0 < w.index[p].baseRev != w.server.files[p].rev
  }

  /** An edit of a live file on top of the revision the server holds. */
  ghost predicate EditedOnTop(w: World, cfg: Config, p: Path, c: Bytes, seen: bool) {
    && seen && p in w.disk && w.disk[p] == c && IsLive(w.server, p)
    && p in w.index && w.index[p].baseRev == w.server.files[p].rev && w.index[p].plainHash != Some(Sha256(c))
    && NotMovedOn(w, cfg, p, c)
  }

  /** An edit that is to win as it is. */
  ghost predicate Waiting(w: World, cfg: Config, p: Path, c: Bytes, seen: bool) {
    EditedHere(w, cfg, p, c, seen) || EditedThere(w, cfg, p, c) || EditedOnTop(w, cfg, p, c, seen)
  }

  /** Applying the row of the path itself does not lose the edit. */
  lemma RemoteWaits(w: World, cfg: Config, f: File, copy: Path, now: int, c: Bytes)
    requires Readable(w.server, cfg) && f.path in w.server.files && w.server.files[f.path] == f
    requires Waiting(w, cfg, f.path, c, false)
    ensures var w' := ApplyRemote(w, cfg, f, copy, now).0;
            w'.server == w.server && (Waiting(w', cfg, f.path, c, true) || Won(w', cfg, f.path, c))
  {
    hide Readable, Reconcile, Download;
    if !Echo(w, cfg, f) && !f.deleted && MovesLocally(w, cfg, f) {
      MoveApplies(w, cfg, f, copy);
      SealOpens(cfg.cipher, w.disk[f.renamedFrom.value]);
    }
  }

  lemma RemoteKeepsWon(w: World, cfg: Config, f: File, copy: Path, now: int, c: Bytes)
    requires Readable(w.server, cfg) && f.path in w.server.files && w.server.files[f.path] == f
    requires Won(w, cfg, f.path, c)
    ensures Won(ApplyRemote(w, cfg, f, copy, now).0, cfg, f.path, c)
  {
    DownloadSettles(w, cfg, f.path);
    SealOpens(cfg.cipher, c);
    hide Readable, Reconcile;
  }

  lemma PushWins(w: World, cfg: Config, p: Path, copy: Path, now: int, c: Bytes)
    requires Readable(w.server, cfg) && Coherent(w, cfg, p, true) && p in w.index
    requires Waiting(w, cfg, p, c, true)
    ensures Won(PushOne(w, cfg, p, copy, now).0, cfg, p, c)
  {
    CurrentRev(w.server, p);
    OwnPathOfRow(w.server, cfg, p);
    if EditedHere(w, cfg, p, c, true) {
      var base := w.index[p].baseRev;
      SendSettles(w, cfg, p, if base == Current(w.server, p).rev then base else Current(w.server, p).rev, now);
      hide Readable, Reconcile;
    } else if EditedOnTop(w, cfg, p, c, true) {
      SendSettles(w, cfg, p, w.index[p].baseRev, now);
      hide Readable, Reconcile;
    } else {
      RowOpens(w.server, cfg, p);
      hide Readable, Upload;
    }
  }

  /** Neither does a step elsewhere, unless it moves the file away. */
  lemma ElsewhereWaits(w: World, w': World, cfg: Config, p: Path, c: Bytes, seen: bool)
    requires SameAt(w, w', p)
    requires forall q <- w'.server.files :: w'.server.files[q].renamedFrom == None
                                              || (q in w.server.files && w.server.files[q] == w'.server.files[q])
    ensures Waiting(w, cfg, p, c, seen) ==> Waiting(w', cfg, p, c, seen)
    ensures Won(w, cfg, p, c) ==> Won(w', cfg, p, c)
  {
  }

  // ---- where the engine does not converge ---------------------------------------------------------

  /**
   A file created and deleted here before it was ever sent, while another device put a
   file under the same name: the engine forgets the path, and exactly then the live
   file is left unnoticed.
   */
  lemma UnsentDeletionHidesFile(w: World, cfg: Config, p: Path, copy: Path, now: int)
    requires Readable(w.server, cfg) && Coherent(w, cfg, p, true) && p in w.index && IsLive(w.server, p) && Free(w, copy)
    ensures var w' := PushOne(w, cfg, p, copy, now).0;
            IsLive(w'.server, p) && p !in w'.index <==> p !in w.disk && w.index[p].baseRev == 0
  {
    if p in w.disk || w.index[p].baseRev > 0 {
      PushSights(w, cfg, p, copy, now);
    }
  }

  /**
   A deletion that was noticed while a newer revision went by, and was then undone: the
   push takes the file for unchanged, and it is settled only if nothing newer went by.
   */
  lemma ChangedBackSettlesExactly(w: World, cfg: Config, p: Path, copy: Path, now: int)
    requires Coherent(w, cfg, p, false) && p in w.index && p in w.disk
    requires w.index[p].plainHash == Some(Sha256(w.disk[p]))
    ensures Settled(PushOne(w, cfg, p, copy, now).0, cfg, p) <==> w.index[p].baseRev == w.server.files[p].rev
  {
  }

  /**
   A path the server has forgotten while this device still holds a revision of it can
   neither be sent nor deleted: every push of it fails and changes nothing.
   */
  lemma ForgottenPathFailsExactly(w: World, cfg: Config, p: Path, copy: Path, now: int)
    requires Readable(w.server, cfg) && p in w.index && w.index[p].baseRev > 0 && Free(w, copy)
    requires p in w.disk ==> w.index[p].plainHash != Some(Sha256(w.disk[p]))
    requires p in w.server.files ==> Coherent(w, cfg, p, true)
    ensures PushOne(w, cfg, p, copy, now) == (w, Failed) <==> p !in w.server.files
  {
    if p in w.server.files {
      PushSettles(w, cfg, p, copy, now);
    } else {
      assert Fetch(w, cfg, p, 0) == Missing && FetchCurrent(w, cfg, p) == Missing;
    }
  }

  /** A retry is passed over when the index has caught up, or finds a deletion not yet sent and nothing to move. */
  predicate RetryIsIdle(w: World, cfg: Config, f: File) {
    f.path in w.index && (w.index[f.path].baseRev >= f.rev || !MovesLocally(w, cfg, f))
  }

  /**
   An entry that failed and is tried again after a newer row of its path was applied:
   it changes nothing exactly when the retry is idle.  If the path has left the index
   the newer row was a deletion, and the old content reappears as if it were current.
   */
  lemma RetryRollsBackExactly(w: World, cfg: Config, f: File, copy: Path, copy': Path, now: int)
    requires Readable(w.server, cfg) && f.path in w.server.files && Coherent(w, cfg, f.path, false)
    requires Free(w, copy) && f.rev < w.server.files[f.path].rev
    requires !f.deleted && f.hash.Some? && RevisionHash(w.server, f.path, f.rev) == f.hash
    ensures var p, g := f.path, w.server.files[f.path];
            var w' := ApplyRemote(w, cfg, g, copy, now).0;
            var r := Retry(w', cfg, f, copy', now).0;
            && (r == w' <==> RetryIsIdle(w', cfg, f))
            && (p !in w'.index ==>
                  && g.deleted && p in r.disk && Opens(cfg, f.hash, r.disk[p])
                  && p in r.index && !r.index[p].dirty && r.index[p].baseRev == f.rev)
  {
    var p, g := f.path, w.server.files[f.path];
    var w' := ApplyRemote(w, cfg, g, copy, now).0;
    assert RowRecorded(w.server, p) && OpensAt(w.server, cfg, (p, f.rev));
    RemoteKnows(w, cfg, g, copy, now);
    if p !in w'.index {
      hide Inv, Readable, ApplyRemote;
      assert Retry(w', cfg, f, copy', now) == ApplyRemote(w', cfg, f, copy', now);
      AppearsAgain(w', cfg, f, copy', now);
    } else {
      hide ApplyRemote, MovesLocally, Readable;
      IdleExactly(w', cfg, f, copy', now);
    }
  }

  /** After a path's current row, the index is up to it, or holds a deletion not yet sent, or has dropped it. */
  lemma RemoteKnows(w: World, cfg: Config, g: File, copy: Path, now: int)
    requires Readable(w.server, cfg) && g.path in w.server.files && w.server.files[g.path] == g
    requires Coherent(w, cfg, g.path, false) && Free(w, copy)
    ensures var w' := ApplyRemote(w, cfg, g, copy, now).0;
            if g.path in w'.index
            then w'.index[g.path].baseRev >= g.rev || (g.path !in w'.disk && w'.index[g.path].dirty)
            else g.deleted && w'.server == w.server && g.path !in w'.disk
  {
    if !g.deleted {
      ContentKnows(w, cfg, g, copy, now);
    }
    hide Readable, ApplyContent;
  }

  lemma ContentKnows(w: World, cfg: Config, g: File, copy: Path, now: int)
    requires Readable(w.server, cfg) && IsLive(w.server, g.path) && w.server.files[g.path] == g
    requires Coherent(w, cfg, g.path, false) && Free(w, copy)
    ensures var w' := ApplyContent(w, cfg, g, copy, now).0;
            g.path in w'.index && (w'.index[g.path].baseRev >= g.rev || (g.path !in w'.disk && w'.index[g.path].dirty))
  {
    if g.path in w.disk || g.path !in w.index || !w.index[g.path].dirty {
      ContentSettles(w, cfg, g, copy, now);
      ContentAdvances(w, cfg, g, copy, now);
    }
  }

  lemma AppearsAgain(w: World, cfg: Config, f: File, copy: Path, now: int)
    requires f.path !in w.disk && f.path !in w.index && f.path in w.server.files
    requires !f.deleted && f.hash.Some? && RevisionHash(w.server, f.path, f.rev) == f.hash
    requires Unseal(cfg.cipher, f.hash.value.content).Some?
    ensures var r := ApplyRemote(w, cfg, f, copy, now).0;
            && f.path in r.disk && Opens(cfg, f.hash, r.disk[f.path])
            && f.path in r.index && !r.index[f.path].dirty && r.index[f.path].baseRev == f.rev
  {
    if MovesLocally(w, cfg, f) {
      SealOpens(cfg.cipher, w.disk[f.renamedFrom.value]);
    }
  }

  lemma IdleExactly(w: World, cfg: Config, f: File, copy: Path, now: int)
    requires !f.deleted && f.path in w.index
    requires w.index[f.path].baseRev >= f.rev || (f.path !in w.disk && w.index[f.path].dirty)
    ensures Retry(w, cfg, f, copy, now).0 == w <==> RetryIsIdle(w, cfg, f)
  {
  }

  lemma ContentAdvances(w: World, cfg: Config, g: File, copy: Path, now: int)
    requires Readable(w.server, cfg) && IsLive(w.server, g.path) && w.server.files[g.path] == g
    requires Coherent(w, cfg, g.path, false) && Free(w, copy)
    ensures var w' := ApplyContent(w, cfg, g, copy, now).0;
            g.path in w'.server.files && w'.server.files[g.path].rev >= g.rev
  {
    ContentApplies(w, cfg, g, copy, now);
    hide Readable, ApplyContent, Coherent, Converges;
  }
}
