/**
 The engine's steps told by what a person would see: the files, the entries field by
 field, and what the server was asked (src/sync-engine.ts:618-807, 906-936, 1015-1139;
 src/crypto.ts:249-255).
 */
module EngineSteps {
  import opened Content
  import opened Store
  import opened StoreLaws
  import opened Engine
  import opened EngineSafety
  import opened EngineStored

  /** An envelope of another key opens to nothing, one of this key to what is in it, and anything else is itself. */
  lemma OpensExactly(c: Cipher, b: Bytes)
    ensures Unseal(c, b) == None <==> c.Key? && b.Envelope? && b.key != c.key
    ensures Unseal(c, b).Some? ==> Unseal(c, b).value == if c.Key? && b.Envelope? then b.inner else b
    ensures Seal(c, b) == if c.Key? then Envelope(c.key, b) else b
  {
  }

  // ---- entries of the log -------------------------------------------------------------------

  /** A row this device wrote, at the revision its entry stands at, is passed over. */
  predicate OwnEcho(w: World, cfg: Config, f: File) {
    f.path in w.index && w.index[f.path].baseRev == f.rev && f.updatedBy == cfg.device
  }

  /**
   A deletion takes the file exactly when its bytes, plain or sealed, are those the entry
   remembers; otherwise the file stays, as an edit on top of the deletion.
   */
  lemma DeletionTakesExactly(w: World, cfg: Config, f: File, copy: Path, now: int)
    requires f.deleted && !OwnEcho(w, cfg, f)
    ensures var r, p := ApplyRemote(w, cfg, f, copy, now), f.path;
            var known := p in w.disk && p in w.index
                         && (w.index[p].plainHash == Some(Sha256(w.disk[p]))
                             || w.index[p].baseHash == Some(Sha256(Seal(cfg.cipher, w.disk[p]))));
            && r.1 == Done
            && r.0 == if p in w.disk && !known
                      then w.(index := w.index[p := Entry(f.rev, None, None, true)])
                      else w.(disk := w.disk - {p}, index := w.index - {p})
  {
    assert f.path !in w.disk ==> w.disk - {f.path} == w.disk;
  }

  /**
   A rename moves the file along exactly when the file is here under the old name with the
   renamed content, the new name is free, and the old one is not excluded.
   */
  lemma RenameMovesExactly(w: World, cfg: Config, f: File, copy: Path, now: int)
    requires !f.deleted && !OwnEcho(w, cfg, f) && f.renamedFrom.Some? && f.renamedFrom.value != ""
    ensures var r, p, from := ApplyRemote(w, cfg, f, copy, now), f.path, f.renamedFrom.value;
            if from in w.disk && p !in w.disk && f.hash == Some(Sha256(Seal(cfg.cipher, w.disk[from]))) && !Excluded(cfg, from)
            then r == (w.(disk := w.disk[p := w.disk[from]] - {from},
                          index := w.index[p := Entry(f.rev, f.hash, Some(Sha256(w.disk[from])), false)] - {from}), Done)
            else r == ApplyRemote(w, cfg, f.(renamedFrom := None), copy, now)
  {
    hide Reconcile, Excluded;
    var p, from := f.path, f.renamedFrom.value;
    if from in w.disk && p !in w.disk {
      assert from != p;
      assert w.disk[p := w.disk[from]] - {from} == (w.disk - {from})[p := w.disk[from]];
      var e := Entry(f.rev, f.hash, Some(Sha256(w.disk[from])), false);
      assert w.index[p := e] - {from} == (w.index - {from})[p := e];
    }
  }

  /** The revision the row names, as the tables have it, where it opens and is the row's content. */
  predicate Offered(w: World, cfg: Config, f: File, b: Bytes) {
    && f.path in w.server.files && (f.path, f.rev) in w.server.revisions
    && var h := w.server.revisions[(f.path, f.rev)].hash;
    && h.Some? && Unseal(cfg.cipher, h.value.content) == Some(b) && (f.hash.Some? ==> f.hash == h)
  }

  /** Disk and entry are the row's. */
  predicate TakenFrom(w: World, w': World, f: File, b: Bytes) {
    && (f.path, f.rev) in w.server.revisions
    && w' == w.(disk := w.disk[f.path := b],
                index := w.index[f.path := Entry(f.rev, w.server.revisions[(f.path, f.rev)].hash, Some(Sha256(b)), false)])
  }

  /**
   A content that is missing here is fetched, unless its file was deleted here and that is
   still to be sent; what cannot be fetched whole is not taken at all.
   */
  lemma MissingIsFetched(w: World, cfg: Config, f: File, copy: Path, now: int)
    requires !f.deleted && !OwnEcho(w, cfg, f) && f.renamedFrom == None && f.path !in w.disk
    ensures var r := ApplyRemote(w, cfg, f, copy, now);
            if f.path in w.index && w.index[f.path].dirty then r == (w, Done)
            else if b :| Offered(w, cfg, f, b) then r.1 == Done && TakenFrom(w, r.0, f, b)
            else r == (w, Failed)
  {
    hide Reconcile;
    FetchOffers(w, cfg, f);
  }

  lemma FetchOffers(w: World, cfg: Config, f: File)
    ensures var g := Fetch(w, cfg, f.path, f.rev);
            && (forall b | Offered(w, cfg, f, b) ::
                  g == Got(b, w.server.revisions[(f.path, f.rev)].hash.value) && !(f.hash.Some? && f.hash.value != g.hash))
            && (g.Got? && !(f.hash.Some? && f.hash.value != g.hash) ==> Offered(w, cfg, f, g.plain))
  {
  }

  /** A content that is here already is entered; one the entry vouches for is replaced. */
  lemma PresentIsTaken(w: World, cfg: Config, f: File, copy: Path, now: int)
    requires !f.deleted && !OwnEcho(w, cfg, f) && f.path in w.disk
    ensures var r, p := ApplyRemote(w, cfg, f, copy, now), f.path;
            && (f.hash == Some(Sha256(Seal(cfg.cipher, w.disk[p]))) ==>
                  r == (w.(index := w.index[p := Entry(f.rev, f.hash, Some(Sha256(w.disk[p])), false)]), Done))
            && (f.hash != Some(Sha256(Seal(cfg.cipher, w.disk[p])))
                && p in w.index && w.index[p].plainHash == Some(Sha256(w.disk[p])) ==>
                  if b :| Offered(w, cfg, f, b) then r.1 == Done && TakenFrom(w, r.0, f, b) else r == (w, Failed))
  {
    hide Reconcile;
    FetchOffers(w, cfg, f);
  }

  /** A kept entry is tried again exactly when the index stands below its revision. */
  lemma RetriesExactly(w: World, cfg: Config, f: File, copy: Path, now: int)
    ensures Retry(w, cfg, f, copy, now) ==
            if f.path in w.index && !(w.index[f.path].baseRev < f.rev) then (w, Done) else ApplyRemote(w, cfg, f, copy, now)
  {
    hide ApplyRemote;
  }

  // ---- sending -----------------------------------------------------------------------------------

  /** One write of a sealed content under this device's name, and what index and server make of it. */
  ghost predicate Uploaded(w: World, w': World, cfg: Config, p: Path, baseRev: int, plain: Bytes, now: int, answer: Outcome) {
    var sealed := Seal(cfg.cipher, plain);
    var r := Put(w.server, PutArgs(p, baseRev, Some(Sha256(sealed)), Size(sealed), now, false, cfg.device));
    && answer == r.1 && w'.server == r.0
    && w'.disk == w.disk && w'.conflicts == w.conflicts && w'.cursor == w.cursor
    && w'.index == if answer.Ok? then w.index[p := Entry(answer.file.rev, answer.file.hash, Some(Sha256(plain)), false)]
                   else w.index
  }

  lemma SendUploads(w: World, cfg: Config, p: Path, baseRev: int, plain: Bytes, now: int)
    ensures var r := Send(w, cfg, p, baseRev, plain, now); Uploaded(w, r.0, cfg, p, baseRev, plain, now, r.1)
  {
  }

  /** An edit goes up on its own base, or over the tombstone that turned out to be current. */
  lemma EditGoesUp(w: World, cfg: Config, p: Path, copy: Path, now: int)
    requires Inv(w.server) && p in w.index && p in w.disk && w.index[p].plainHash != Some(Sha256(w.disk[p]))
    requires IsLive(w.server, p) ==>
               || w.server.files[p].rev == w.index[p].baseRev
               || (w.server.files[p].hash == Some(Sha256(Seal(cfg.cipher, w.disk[p]))) && !w.server.files[p].folder)
    requires p !in w.server.files ==> w.index[p].baseRev == 0
    ensures var r := PushOne(w, cfg, p, copy, now);
            var baseRev := if p in w.server.files && w.server.files[p].deleted then w.server.files[p].rev
                           else w.index[p].baseRev;
            r.1 == Done && exists answer: Outcome :: answer.Ok? && Uploaded(w, r.0, cfg, p, baseRev, w.disk[p], now, answer)
  {
    var e, local := w.index[p], w.disk[p];
    assert RowRecorded(w.server, p);
    SendUploads(w, cfg, p, e.baseRev, local, now);
    if p in w.server.files && w.server.files[p].deleted {
      SendUploads(w, cfg, p, w.server.files[p].rev, local, now);
    }
    hide Reconcile, Uploaded, Inv, Committed, Size, Seal;
  }

  /** A file found as the entry remembers it is only unmarked; one that never went up and is gone is only forgotten. */
  lemma NothingToSend(w: World, cfg: Config, p: Path, copy: Path, now: int)
    requires p in w.index
    ensures var e, r := w.index[p], PushOne(w, cfg, p, copy, now);
            && (p in w.disk && e.plainHash == Some(Sha256(w.disk[p])) ==>
                  r == (w.(index := w.index[p := Entry(e.baseRev, e.baseHash, e.plainHash, false)]), Done))
            && (p !in w.disk && e.baseRev == 0 ==> r == (w.(index := w.index - {p}), Done))
  {
    hide Upload, PushDeletion;
  }

  /**
   A deletion is sent under this device's name on its own base.  Refused, the server's
   content comes back and counts as read; a path the server does not know, or cannot give
   back, leaves everything as it was.
   */
  lemma DeletionGoesUp(w: World, cfg: Config, p: Path, copy: Path, now: int)
    requires Inv(w.server) && p in w.index && p !in w.disk && w.index[p].baseRev > 0
    ensures var r, known := PushOne(w, cfg, p, copy, now), p in w.server.files;
            if known && (w.server.files[p].deleted || w.server.files[p].rev == w.index[p].baseRev) then
              && r.1 == Done && r.0.index == w.index - {p} && r.0.disk == w.disk
              && r.0.conflicts == w.conflicts && r.0.cursor == w.cursor
              && r.0.server == Delete(w.server, p, w.index[p].baseRev, cfg.device).0
              && p in r.0.server.files && r.0.server.files[p].deleted
              && (!w.server.files[p].deleted ==> r.0.server.files[p].updatedBy == cfg.device)
            else if known && w.server.files[p].hash.Some? && Unseal(cfg.cipher, w.server.files[p].hash.value.content).Some? then
              var f := w.server.files[p];
              var b := Unseal(cfg.cipher, f.hash.value.content).value;
              r == (w.(disk := w.disk[p := b], index := w.index[p := Entry(f.rev, f.hash, Some(Sha256(b)), false)]), Done)
            else r == (w, Failed)
  {
    assert RowRecorded(w.server, p);
    hide Unseal;
  }

  /** A deletion of something the server never had is settled by forgetting it. */
  lemma UnknownIsForgotten(w: World, cfg: Config, p: Path)
    requires p !in w.server.files
    ensures PushDeletion(w, cfg, p, 0) == (w.(index := w.index - {p}), Done)
  {
  }

  // ---- entries are whole --------------------------------------------------------------------------

  /** An entry has both hashes or neither, and one that is not marked has both. */
  predicate Whole(e: Entry) {
    (e.baseHash.Some? <==> e.plainHash.Some?) && (e.dirty || e.plainHash.Some?)
  }

  predicate AllWhole(index: map<Path, Entry>) {
    forall p <- index :: Whole(index[p])
  }

  lemma SendKeepsWhole(w: World, cfg: Config, p: Path, baseRev: int, plain: Bytes, now: int)
    requires AllWhole(w.index)
    ensures AllWhole(Send(w, cfg, p, baseRev, plain, now).0.index)
  {
    hide Committed, Size;
  }

  lemma ReconcileKeepsWhole(w: World, cfg: Config, p: Path, local: Bytes, serverRev: int, baseRev: int, copy: Path, now: int)
    requires AllWhole(w.index)
    ensures AllWhole(Reconcile(w, cfg, p, local, serverRev, baseRev, copy, now).0.index)
  {
    hide Send, Fetch, AncestorText, Mergeable, MergedText;
    forall merged
      ensures AllWhole(SendMerged(w, cfg, p, serverRev, merged, now).0.index)
    {
      SendKeepsWhole(w.(disk := w.disk[p := merged]), cfg, p, serverRev, merged, now);
    }
    hide SendMerged;
  }

  lemma RemoteKeepsWhole(w: World, cfg: Config, f: File, copy: Path, now: int)
    requires AllWhole(w.index)
    ensures AllWhole(ApplyRemote(w, cfg, f, copy, now).0.index)
  {
    if f.path in w.disk {
      ReconcileKeepsWhole(w, cfg, f.path, w.disk[f.path], f.rev,
                          if f.path in w.index then w.index[f.path].baseRev else 0, copy, now);
    }
    hide Reconcile, Excluded;
  }

  lemma PushKeepsWhole(w: World, cfg: Config, p: Path, copy: Path, now: int)
    requires AllWhole(w.index)
    ensures AllWhole(PushOne(w, cfg, p, copy, now).0.index)
  {
    if p in w.index && p in w.disk {
      var first := Send(w, cfg, p, w.index[p].baseRev, w.disk[p], now);
      SendKeepsWhole(w, cfg, p, w.index[p].baseRev, w.disk[p], now);
      if first.1.Conflict? {
        SendKeepsWhole(w, cfg, p, first.1.serverRev, w.disk[p], now);
        ReconcileKeepsWhole(w, cfg, p, w.disk[p], first.1.serverRev, w.index[p].baseRev, copy, now);
      }
    }
    hide Send, Reconcile, Delete, Committed;
  }

  /** After any run every entry is whole, so a file is told from an edit by either hash. */
  lemma {:induction false} EveryRunKeepsWhole(l: Life, cfg: Config, actions: seq<Action>)
    requires AllWhole(l.w.index) && AllWhole(l.saved)
    ensures AllWhole(RunLife(l, cfg, actions).w.index) && AllWhole(RunLife(l, cfg, actions).saved)
    decreases |actions|
  {
    if actions != [] {
      match actions[0] {
        case Pull(f, copy, now) => RemoteKeepsWhole(l.w, cfg, f, copy, now);
        case Push(p, copy, now) => PushKeepsWhole(l.w, cfg, p, copy, now);
        case _ =>
      }
      hide ApplyRemote, PushOne;
      EveryRunKeepsWhole(Act(l, cfg, actions[0]), cfg, actions[1..]);
    }
  }
}
