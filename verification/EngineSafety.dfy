/**
 Nothing is overwritten silently (src/sync-engine.ts:13-22): whatever an engine step
 takes off the disk is in a server revision, elsewhere on disk, or was merged.
 */
module EngineSafety {
  import opened Content
  import opened Store
  import opened StoreLaws
  import opened Engine
  import opened Lines
  import Diff3
  import MergeLaws

  // ---- what the index knows is backed by the server ---------------------------------

  /** The recorded hash is that revision's hash, and the recorded plain hash opens it. */
  ghost predicate Backed(w: World, cfg: Config, p: Path, e: Entry) {
    && (e.baseHash.Some? ==> (p, e.baseRev, e.baseHash.value) in w.accepted)
    && (e.plainHash.Some? ==>
          e.baseHash.Some? && Unseal(cfg.cipher, e.baseHash.value.content) == Some(e.plainHash.value.content))
  }

  ghost predicate AllBacked(w: World, cfg: Config, index: map<Path, Entry>) {
    forall p <- index :: Backed(w, cfg, p, index[p])
  }

  ghost predicate ServerOk(w: World) {
    Inv(w.server) && Committed(w.server) <= w.accepted
  }

  ghost predicate WorldOk(w: World, cfg: Config) {
    ServerOk(w) && AllBacked(w, cfg, w.index)
  }

  /** An entry of the change log: a row the server held at some time. */
  ghost predicate WasLogged(w: World, f: File) {
    f.hash.Some? ==> (f.path, f.rev, f.hash.value) in w.accepted
  }

  lemma ServeIsOk(w: World, op: Op)
    requires ServerOk(w)
    ensures ServerOk(Serve(w, op)) && w.accepted <= Serve(w, op).accepted
  {
    StepKeepsInv(w.server, op);
  }

  lemma FetchedWasCommitted(w: World, cfg: Config, p: Path, rev: int)
    requires ServerOk(w)
    ensures var g := Fetch(w, cfg, p, rev);
            g.Got? ==> (p, rev, g.hash) in w.accepted && Unseal(cfg.cipher, g.hash.content) == Some(g.plain)
  {
    if Fetch(w, cfg, p, rev).Got? {
      assert (p, rev) in w.server.revisions;
      assert (p, rev, Fetch(w, cfg, p, rev).hash) in Committed(w.server);
    }
  }

  lemma CurrentWasCommitted(w: World, cfg: Config, p: Path)
    requires ServerOk(w)
    ensures var g := FetchCurrent(w, cfg, p);
            g.Got? ==>
              && (p, w.server.files[p].rev, g.hash) in w.accepted
              && Unseal(cfg.cipher, g.hash.content) == Some(g.plain)
  {
    var g := FetchCurrent(w, cfg, p);
    if g.Got? {
      assert RowRecorded(w.server, p);
      assert (p, w.server.files[p].rev, g.hash) in Committed(w.server);
    }
  }

  /** Whatever the server answers to an upload with Ok is committed under that revision. */
  lemma SentIsCommitted(w: World, cfg: Config, p: Path, baseRev: int, plain: Bytes, now: int)
    requires ServerOk(w)
    ensures var r := Send(w, cfg, p, baseRev, plain, now);
            && ServerOk(r.0) && w.accepted <= r.0.accepted && r.0.disk == w.disk
            && (r.1.Ok? ==>
                  && r.1.file.hash == Some(Sha256(Seal(cfg.cipher, plain)))
                  && (p, r.1.file.rev, Sha256(Seal(cfg.cipher, plain))) in r.0.accepted)
  {
    var a := SendArgs(cfg, p, baseRev, plain, now);
    var t := Put(w.server, a).0;
    StepKeepsInv(w.server, PutOp(a));
    if Put(w.server, a).1.Ok? {
      assert RowRecorded(t, p);
      assert (p, t.files[p].rev, Sha256(Seal(cfg.cipher, plain))) in Committed(t);
    }
  }

  /** Indexing one more path keeps the rest backed. */
  lemma SetBacked(w: World, cfg: Config, w': World, p: Path, e: Entry)
    requires AllBacked(w, cfg, w.index) && w.accepted <= w'.accepted
    requires w'.index == w.index[p := e] && Backed(w', cfg, p, e)
    ensures AllBacked(w', cfg, w'.index)
  {
    forall q <- w'.index
      ensures Backed(w', cfg, q, w'.index[q])
    {
      assert q != p ==> Backed(w, cfg, q, w.index[q]);
    }
  }

  lemma FewerBacked(w: World, cfg: Config, w': World)
    requires AllBacked(w, cfg, w.index) && w.accepted <= w'.accepted
    requires forall q <- w'.index :: q in w.index && w'.index[q] == w.index[q]
    ensures AllBacked(w', cfg, w'.index)
  {
    forall q <- w'.index
      ensures Backed(w', cfg, q, w'.index[q])
    {
      assert Backed(w, cfg, q, w.index[q]);
    }
  }

  // ---- what a step may do to the disk -------------------------------------------------

  /** No line is lost against the ancestor, from either side. */
  ghost predicate LinesKept(out: string, base: string, mine: string, theirs: string) {
    forall l | l != "" && NEWLINE !in l ::
      && Count(SplitLines(out), l) + Count(SplitLines(base), l) >= Count(SplitLines(mine), l)
      && Count(SplitLines(out), l) + Count(SplitLines(base), l) >= Count(SplitLines(theirs), l)
  }

  /**
   c stood at p in w, and what stands there in w' is its clean merge with a revision of p,
   from the very ancestor that the index of w names.
   */
  ghost predicate MergedInto(w: World, w': World, cfg: Config, p: Path, c: Bytes, theirs: string) {
    && Decode(c).Some? && p in w'.disk && AncestorAt(w, cfg, p).Base?
    && (exists t <- w.accepted :: t.0 == p && Unseal(cfg.cipher, t.2.content) == Some(Text(theirs)))
    && var base := AncestorAt(w, cfg, p).text;
       var m := MergedText(cfg, base, c.text, theirs);
       m.clean && w'.disk[p] == Text(m.text) && LinesKept(m.text, base, c.text, theirs)
  }

  ghost predicate OnServer(w: World, cfg: Config, c: Bytes) {
    exists t <- w.accepted :: Unseal(cfg.cipher, t.2.content) == Some(c)
  }

  ghost predicate OnDisk(w: World, c: Bytes) {
    exists q <- w.disk :: w.disk[q] == c
  }

  /** A content that stood at p in w, seen from w'. */
  ghost predicate Recoverable(w: World, w': World, cfg: Config, p: Path, c: Bytes) {
    || OnServer(w', cfg, c)
    || OnDisk(w', c)
    || exists theirs :: MergedInto(w, w', cfg, p, c, theirs)
  }

  /** Nothing that was on disk is lost between two worlds. */
  ghost predicate Lossless(w: World, w': World, cfg: Config) {
    forall p <- w.disk :: (p in w'.disk && w'.disk[p] == w.disk[p]) || Recoverable(w, w', cfg, p, w.disk[p])
  }

  lemma SameDiskIsLossless(w: World, w': World, cfg: Config)
    requires forall p <- w.disk :: p in w'.disk && w'.disk[p] == w.disk[p]
    ensures Lossless(w, w', cfg)
  {
  }

  /** A step that changes the disk at one path only loses nothing if that content is recoverable. */
  lemma OnePathLossless(w: World, w': World, cfg: Config, p: Path)
    requires forall q <- w.disk | q != p :: q in w'.disk && w'.disk[q] == w.disk[q]
    requires p in w.disk ==> Recoverable(w, w', cfg, p, w.disk[p])
    ensures Lossless(w, w', cfg)
  {
  }

  lemma BackedContent(w: World, cfg: Config, p: Path, e: Entry, c: Bytes)
    requires Backed(w, cfg, p, e) && e.plainHash == Some(Sha256(c))
    ensures OnServer(w, cfg, c)
  {
    var t := (p, e.baseRev, e.baseHash.value);
    assert t in w.accepted && Unseal(cfg.cipher, t.2.content) == Some(c);
  }

  lemma UntouchedContent(w: World, cfg: Config, p: Path, e: Entry, c: Bytes)
    requires Backed(w, cfg, p, e) && Engine.Untouched(cfg, c, e)
    ensures OnServer(w, cfg, c)
  {
    if e.plainHash == Some(Sha256(c)) {
      BackedContent(w, cfg, p, e, c);
    } else {
      SealOpens(cfg.cipher, c);
      var t := (p, e.baseRev, e.baseHash.value);
      assert t in w.accepted && Unseal(cfg.cipher, t.2.content) == Some(c);
    }
  }

  // ---- the steps ------------------------------------------------------------------------

  /** A world left sound, with no less on record. */
  ghost predicate Sound(w: World, w': World, cfg: Config) {
    WorldOk(w', cfg) && w.accepted <= w'.accepted
  }

  lemma DownloadIsSafe(w: World, cfg: Config, f: File)
    requires WorldOk(w, cfg)
    requires f.path in w.disk ==> OnServer(w, cfg, w.disk[f.path])
    ensures var w' := Download(w, cfg, f).0; Sound(w, w', cfg) && Lossless(w, w', cfg)
  {
    FetchedWasCommitted(w, cfg, f.path, f.rev);
    var w' := Download(w, cfg, f).0;
    hide Inv, Committed, Fetch;
    if Download(w, cfg, f).1.Done? {
      SetBacked(w, cfg, w', f.path, w'.index[f.path]);
      if f.path in w.disk {
        var t :| t in w.accepted && Unseal(cfg.cipher, t.2.content) == Some(w.disk[f.path]);
        assert OnServer(w', cfg, w.disk[f.path]);
      }
      OnePathLossless(w, w', cfg, f.path);
    } else {
      SameDiskIsLossless(w, w', cfg);
    }
  }

  lemma KeepBothIsSafe(w: World, cfg: Config, p: Path, local: Bytes, plain: Bytes, hash: Hash, serverRev: int,
                       baseRev: int, mergeable: bool, copy: Path)
    requires WorldOk(w, cfg) && p in w.disk && w.disk[p] == local && copy !in w.disk
    requires (p, serverRev, hash) in w.accepted && Unseal(cfg.cipher, hash.content) == Some(plain)
    ensures var w' := KeepBoth(w, p, local, plain, hash, serverRev, baseRev, mergeable, copy);
            && Sound(w, w', cfg) && Lossless(w, w', cfg)
            && w'.disk[copy] == local && w'.disk[p] == plain
            && p in w'.conflicts && w'.conflicts[p].copy == copy
  {
    var w' := KeepBoth(w, p, local, plain, hash, serverRev, baseRev, mergeable, copy);
    var e := Entry(serverRev, Some(hash), Some(Sha256(plain)), false);
    hide Inv;
    forall q <- w'.index
      ensures Backed(w', cfg, q, w'.index[q])
    {
      assert q != p ==> Backed(w, cfg, q, w.index[q]);
    }
    assert OnDisk(w', local) by {
      assert copy in w'.disk && w'.disk[copy] == local;
    }
    OnePathLossless(w, w', cfg, p);
  }

  lemma MergeKeepsBoth(cfg: Config, base: string, mine: string, theirs: string)
    ensures LinesKept(MergedText(cfg, base, mine, theirs).text, base, mine, theirs)
  {
    hide SplitLines, Count, Diff3.Merge;
    forall l | l != "" && NEWLINE !in l
      ensures var out := MergedText(cfg, base, mine, theirs).text;
              && Count(SplitLines(out), l) + Count(SplitLines(base), l) >= Count(SplitLines(mine), l)
              && Count(SplitLines(out), l) + Count(SplitLines(base), l) >= Count(SplitLines(theirs), l)
    {
      MergeLaws.MergeKeepsLines(base, mine, theirs, Diff3.Labels(cfg.device, "server"), l);
    }
  }

  lemma SendMergedIsSafe(w: World, cfg: Config, p: Path, theirs: string, serverRev: int, now: int)
    requires WorldOk(w, cfg) && p in w.disk && Decode(w.disk[p]).Some? && AncestorAt(w, cfg, p).Base?
    requires exists t <- w.accepted :: t.0 == p && Unseal(cfg.cipher, t.2.content) == Some(Text(theirs))
    requires MergedText(cfg, AncestorAt(w, cfg, p).text, w.disk[p].text, theirs).clean
    ensures var merged := Text(MergedText(cfg, AncestorAt(w, cfg, p).text, w.disk[p].text, theirs).text);
            var w' := SendMerged(w, cfg, p, serverRev, merged, now).0;
            Sound(w, w', cfg) && Lossless(w, w', cfg)
  {
    var local, base := w.disk[p], AncestorAt(w, cfg, p).text;
    var merged := Text(MergedText(cfg, base, local.text, theirs).text);
    var written := w.(disk := w.disk[p := merged]);
    var w' := SendMerged(w, cfg, p, serverRev, merged, now).0;
    hide Inv, Committed, Diff3.Merge, AncestorAt, LinesKept;
    MergeKeepsBoth(cfg, base, local.text, theirs);
    SentIsCommitted(written, cfg, p, serverRev, merged, now);
    SealOpens(cfg.cipher, merged);
    forall q <- w.index ensures Backed(written, cfg, q, w.index[q]) {
      assert Backed(w, cfg, q, w.index[q]);
    }
    if Send(written, cfg, p, serverRev, merged, now).1.Ok? {
      SetBacked(written, cfg, w', p, w'.index[p]);
    }
    assert MergedInto(w, w', cfg, p, local, theirs);
    OnePathLossless(w, w', cfg, p);
  }

  lemma ReconcileIsSafe(w: World, cfg: Config, p: Path, local: Bytes, serverRev: int, baseRev: int, copy: Path, now: int)
    requires WorldOk(w, cfg) && p in w.disk && w.disk[p] == local && copy !in w.disk
    requires baseRev == if p in w.index then w.index[p].baseRev else 0
    ensures var w' := Reconcile(w, cfg, p, local, serverRev, baseRev, copy, now).0;
            Sound(w, w', cfg) && Lossless(w, w', cfg)
  {
    AncestorIsIndexed(w, cfg, p);
    hide Inv, Committed, Lossless, AllBacked, Diff3.Merge, SendMerged, KeepBoth, AncestorText, AncestorAt, Fetch, Utf8Length;
    var g := Fetch(w, cfg, p, serverRev);
    FetchedWasCommitted(w, cfg, p, serverRev);
    NothingDone(w, cfg);
    if g.Got? {
      KeepBothIsSafe(w, cfg, p, local, g.plain, g.hash, serverRev, baseRev, false, copy);
      KeepBothIsSafe(w, cfg, p, local, g.plain, g.hash, serverRev, baseRev, true, copy);
      if Mergeable(local) && Mergeable(g.plain) {
        var base := AncestorText(w, cfg, p, baseRev);
        assert (p, serverRev, g.hash) in w.accepted && Unseal(cfg.cipher, g.hash.content) == Some(Text(g.plain.text));
        if base.Base? && MergedText(cfg, base.text, local.text, g.plain.text).clean {
          SendMergedIsSafe(w, cfg, p, g.plain.text, serverRev, now);
        }
      }
    }
  }

  lemma NothingDone(w: World, cfg: Config)
    requires WorldOk(w, cfg)
    ensures Sound(w, w, cfg) && Lossless(w, w, cfg)
  {
  }

  lemma DeletionIsSafe(w: World, cfg: Config, f: File)
    requires WorldOk(w, cfg)
    ensures Sound(w, ApplyDeletion(w, cfg, f), cfg) && Lossless(w, ApplyDeletion(w, cfg, f), cfg)
  {
    var p, w' := f.path, ApplyDeletion(w, cfg, f);
    hide Inv;
    if p in w.disk && !(p in w.index && Engine.Untouched(cfg, w.disk[p], w.index[p])) {
      SetBacked(w, cfg, w', p, Entry(f.rev, None, None, true));
      SameDiskIsLossless(w, w', cfg);
    } else {
      FewerBacked(w, cfg, w');
      if p in w.disk {
        assert Backed(w, cfg, p, w.index[p]);
        UntouchedContent(w, cfg, p, w.index[p], w.disk[p]);
        assert OnServer(w', cfg, w.disk[p]);
        OnePathLossless(w, w', cfg, p);
      } else {
        SameDiskIsLossless(w, w', cfg);
      }
    }
  }

  lemma MoveIsSafe(w: World, cfg: Config, f: File)
    requires WorldOk(w, cfg) && WasLogged(w, f) && MovesLocally(w, cfg, f)
    ensures Sound(w, MoveLocal(w, f), cfg) && Lossless(w, MoveLocal(w, f), cfg)
  {
    var from, w' := f.renamedFrom.value, MoveLocal(w, f);
    var local := w.disk[from];
    hide Inv;
    SealOpens(cfg.cipher, local);
    forall q <- w'.index
      ensures Backed(w', cfg, q, w'.index[q])
    {
      assert q != f.path ==> Backed(w, cfg, q, w.index[q]);
    }
    assert OnDisk(w', local) by {
      assert f.path in w'.disk && w'.disk[f.path] == local;
    }
    OnePathLossless(w, w', cfg, from);
  }

  lemma ContentIsSafe(w: World, cfg: Config, f: File, copy: Path, now: int)
    requires WorldOk(w, cfg) && WasLogged(w, f) && copy !in w.disk
    ensures var w' := ApplyContent(w, cfg, f, copy, now).0; Sound(w, w', cfg) && Lossless(w, w', cfg)
  {
    hide Inv, Committed, Lossless, Download, Reconcile;
    var p := f.path;
    NothingDone(w, cfg);
    if p !in w.disk {
      DownloadIsSafe(w, cfg, f);
    } else {
      var local := w.disk[p];
      if MatchesRemote(cfg, local, f.hash) {
        var e := Entry(f.rev, f.hash, Some(Sha256(local)), false);
        SealOpens(cfg.cipher, local);
        SetBacked(w, cfg, SetEntry(w, p, e), p, e);
        SameDiskIsLossless(w, SetEntry(w, p, e), cfg);
      } else if p in w.index && w.index[p].plainHash == Some(Sha256(local)) {
        assert Backed(w, cfg, p, w.index[p]);
        BackedContent(w, cfg, p, w.index[p], local);
        DownloadIsSafe(w, cfg, f);
      } else {
        ReconcileIsSafe(w, cfg, p, local, f.rev, if p in w.index then w.index[p].baseRev else 0, copy, now);
      }
    }
  }

  /** Applying any entry of the log, old or new, in any order, loses nothing. */
  lemma ApplyRemoteIsSafe(w: World, cfg: Config, f: File, copy: Path, now: int)
    requires WorldOk(w, cfg) && WasLogged(w, f) && copy !in w.disk
    ensures var w' := ApplyRemote(w, cfg, f, copy, now).0; Sound(w, w', cfg) && Lossless(w, w', cfg)
  {
    hide WorldOk, Lossless, ApplyContent, ApplyDeletion, MoveLocal;
    NothingDone(w, cfg);
    if Echo(w, cfg, f) {
    } else if f.deleted {
      DeletionIsSafe(w, cfg, f);
    } else if MovesLocally(w, cfg, f) {
      MoveIsSafe(w, cfg, f);
    } else {
      ContentIsSafe(w, cfg, f, copy, now);
    }
  }

  lemma SendIsSafe(w: World, cfg: Config, p: Path, baseRev: int, plain: Bytes, now: int)
    requires WorldOk(w, cfg)
    ensures var w' := Send(w, cfg, p, baseRev, plain, now).0; Sound(w, w', cfg) && Lossless(w, w', cfg)
  {
    var r := Send(w, cfg, p, baseRev, plain, now);
    hide Inv, Committed;
    SentIsCommitted(w, cfg, p, baseRev, plain, now);
    SealOpens(cfg.cipher, plain);
    if r.1.Ok? {
      SetBacked(w, cfg, r.0, p, r.0.index[p]);
    }
    SameDiskIsLossless(w, r.0, cfg);
  }

  lemma UploadIsSafe(w: World, cfg: Config, p: Path, baseRev: int, copy: Path, now: int)
    requires WorldOk(w, cfg) && p in w.disk && copy !in w.disk
    requires baseRev == if p in w.index then w.index[p].baseRev else 0
    ensures var w' := Upload(w, cfg, p, w.disk[p], baseRev, copy, now).0; Sound(w, w', cfg) && Lossless(w, w', cfg)
  {
    hide WorldOk, Lossless, Reconcile;
    var local := w.disk[p];
    SendIsSafe(w, cfg, p, baseRev, local, now);
    var first := Send(w, cfg, p, baseRev, local, now);
    if first.1.Conflict? {
      if first.1.deleted {
        SendIsSafe(w, cfg, p, first.1.serverRev, local, now);
      } else {
        ReconcileIsSafe(w, cfg, p, local, first.1.serverRev, baseRev, copy, now);
      }
    }
  }

  lemma PushDeletionIsSafe(w: World, cfg: Config, p: Path, baseRev: int)
    requires WorldOk(w, cfg) && p !in w.disk
    ensures var w' := PushDeletion(w, cfg, p, baseRev).0; Sound(w, w', cfg) && Lossless(w, w', cfg)
  {
    var w' := PushDeletion(w, cfg, p, baseRev).0;
    ServeIsOk(w, DeleteOp(p, baseRev, cfg.device));
    CurrentWasCommitted(w, cfg, p);
    hide Inv, Committed, FetchCurrent;
    var r := Delete(w.server, p, baseRev, cfg.device).1;
    if r.Ok? || r.NotFound? {
      FewerBacked(w, cfg, w');
    } else if FetchCurrent(w, cfg, p).Got? {
      SetBacked(w, cfg, w', p, w'.index[p]);
    }
    SameDiskIsLossless(w, w', cfg);
  }

  /** Sending any path loses nothing. */
  lemma PushOneIsSafe(w: World, cfg: Config, p: Path, copy: Path, now: int)
    requires WorldOk(w, cfg) && copy !in w.disk
    ensures var w' := PushOne(w, cfg, p, copy, now).0; Sound(w, w', cfg) && Lossless(w, w', cfg)
  {
    var w' := PushOne(w, cfg, p, copy, now).0;
    hide Inv, Committed, Upload, PushDeletion, Lossless;
    NothingDone(w, cfg);
    if p in w.index {
      var e := w.index[p];
      if p !in w.disk {
        if e.baseRev == 0 {
          FewerBacked(w, cfg, w');
          SameDiskIsLossless(w, w', cfg);
        } else {
          PushDeletionIsSafe(w, cfg, p, e.baseRev);
        }
      } else if e.plainHash == Some(Sha256(w.disk[p])) {
        assert Backed(w, cfg, p, e);
        SetBacked(w, cfg, w', p, e.(dirty := false));
        SameDiskIsLossless(w, w', cfg);
      } else {
        UploadIsSafe(w, cfg, p, e.baseRev, copy, now);
      }
    }
  }

  // ---- every run ---------------------------------------------------------------------------

  /** A device over time: its world, and the index as last written to disk. */
  datatype Life = Life(w: World, saved: map<Path, Entry>)

  datatype Action =
    | Edit(path: Path, content: Bytes, noticed: bool)
    | Erase(path: Path, noticed: bool)
    | Others(op: Op)
    | Pull(f: File, copy: Path, now: int)
    | Push(path: Path, copy: Path, now: int)
    | AdoptUnknown
    | Note(conflicts: map<Path, Pending>, cursor: int)
    | Checkpoint
    | Crash

  /** The watcher marks a path; it may also miss a change (src/main.ts:753-776). */
  function Mark(w: World, p: Path, noticed: bool): World {
    if !noticed || (p !in w.index && p !in w.disk) then w
    else SetEntry(w, p, if p in w.index then w.index[p].(dirty := true) else Entry(0, None, None, true))
  }

  function Act(l: Life, cfg: Config, a: Action): Life {
    match a
    case Edit(p, content, noticed) => l.(w := Mark(l.w.(disk := l.w.disk[p := content]), p, noticed))
    case Erase(p, noticed) => l.(w := Mark(l.w.(disk := l.w.disk - {p}), p, noticed))
    case Others(op) => l.(w := Serve(l.w, op))
    case Pull(f, copy, now) => l.(w := ApplyRemote(l.w, cfg, f, copy, now).0)
    case Push(p, copy, now) => l.(w := PushOne(l.w, cfg, p, copy, now).0)
    case AdoptUnknown => l.(w := Adopt(l.w, cfg))
    case Note(conflicts, cursor) => l.(w := l.w.(conflicts := conflicts, cursor := cursor))
    case Checkpoint => l.(saved := l.w.index)
    case Crash => l.(w := l.w.(index := l.saved))
  }

  /** Log entries were rows once; the name of a conflict copy is not taken. */
  ghost predicate Allowed(l: Life, a: Action) {
    match a
    case Pull(f, copy, _) => WasLogged(l.w, f) && copy !in l.w.disk
    case Push(_, copy, _) => copy !in l.w.disk
    case _ => true
  }

  predicate ByUser(a: Action) {
    a.Edit? || a.Erase?
  }

  ghost predicate LifeOk(l: Life, cfg: Config) {
    WorldOk(l.w, cfg) && AllBacked(l.w, cfg, l.saved)
  }

  lemma SavedStaysBacked(l: Life, w': World, cfg: Config)
    requires AllBacked(l.w, cfg, l.saved) && l.w.accepted <= w'.accepted
    ensures AllBacked(w', cfg, l.saved)
  {
    forall p <- l.saved
      ensures Backed(w', cfg, p, l.saved[p])
    {
      assert Backed(l.w, cfg, p, l.saved[p]);
    }
  }

  lemma MarkIsBacked(w: World, w0: World, cfg: Config, p: Path, noticed: bool)
    requires WorldOk(w, cfg) && w0 == w.(disk := w0.disk)
    ensures Sound(w, Mark(w0, p, noticed), cfg)
  {
    hide Inv, Committed;
    var w' := Mark(w0, p, noticed);
    forall q <- w'.index
      ensures Backed(w', cfg, q, w'.index[q])
    {
      assert q in w.index ==> Backed(w, cfg, q, w.index[q]);
    }
  }

  lemma AdoptIsBacked(w: World, cfg: Config)
    requires WorldOk(w, cfg)
    ensures Sound(w, Adopt(w, cfg), cfg) && Lossless(w, Adopt(w, cfg), cfg)
  {
    hide Inv, Committed;
    var w' := Adopt(w, cfg);
    forall q <- w'.index
      ensures Backed(w', cfg, q, w'.index[q])
    {
      assert q in w.index ==> Backed(w, cfg, q, w.index[q]);
    }
    SameDiskIsLossless(w, w', cfg);
  }

  /** One action keeps the world sound, and unless the user takes it, loses nothing. */
  lemma ActIsSafe(l: Life, cfg: Config, a: Action)
    requires LifeOk(l, cfg) && Allowed(l, a)
    ensures LifeOk(Act(l, cfg, a), cfg)
    ensures !ByUser(a) ==> Lossless(l.w, Act(l, cfg, a).w, cfg)
  {
    var w' := Act(l, cfg, a).w;
    ActKeepsWorld(l, cfg, a);
    hide WorldOk, Lossless, Act;
    if a.Checkpoint? {
      SavedIsIndex(l, cfg);
    } else {
      SavedStaysBacked(l, w', cfg);
      SavedUnchanged(l, cfg, a);
    }
  }

  lemma SavedUnchanged(l: Life, cfg: Config, a: Action)
    requires !a.Checkpoint?
    ensures Act(l, cfg, a).saved == l.saved
  {
  }

  lemma SavedIsIndex(l: Life, cfg: Config)
    requires LifeOk(l, cfg)
    ensures LifeOk(Act(l, cfg, Checkpoint), cfg)
  {
  }

  lemma ActKeepsWorld(l: Life, cfg: Config, a: Action)
    requires LifeOk(l, cfg) && Allowed(l, a)
    ensures var w' := Act(l, cfg, a).w;
            Sound(l.w, w', cfg) && (!ByUser(a) ==> Lossless(l.w, w', cfg))
  {
    hide Inv, Committed, ApplyRemote, PushOne, Adopt;
    match a
    case Edit(p, content, noticed) =>
      MarkIsBacked(l.w, l.w.(disk := l.w.disk[p := content]), cfg, p, noticed);
    case Erase(p, noticed) =>
      MarkIsBacked(l.w, l.w.(disk := l.w.disk - {p}), cfg, p, noticed);
    case Others(op) =>
      ServeIsOk(l.w, op);
      FewerBacked(l.w, cfg, Serve(l.w, op));
      SameDiskIsLossless(l.w, Serve(l.w, op), cfg);
    case Pull(f, copy, now) => ApplyRemoteIsSafe(l.w, cfg, f, copy, now);
    case Push(p, copy, now) => PushOneIsSafe(l.w, cfg, p, copy, now);
    case AdoptUnknown => AdoptIsBacked(l.w, cfg);
    case Note(conflicts, cursor) =>
      FewerBacked(l.w, cfg, Act(l, cfg, a).w);
      SameDiskIsLossless(l.w, Act(l, cfg, a).w, cfg);
    case Checkpoint => NothingDone(l.w, cfg);
    case Crash => SameDiskIsLossless(l.w, l.w.(index := l.saved), cfg);
  }

  /** Along a whole run, every step the user did not take loses nothing. */
  ghost predicate NeverLoses(l: Life, cfg: Config, actions: seq<Action>)
    decreases |actions|
  {
    actions == [] ||
    (Allowed(l, actions[0]) ==>
       && (ByUser(actions[0]) || Lossless(l.w, Act(l, cfg, actions[0]).w, cfg))
       && NeverLoses(Act(l, cfg, actions[0]), cfg, actions[1..]))
  }

  lemma {:induction false} EveryRunNeverLoses(l: Life, cfg: Config, actions: seq<Action>)
    requires LifeOk(l, cfg)
    ensures NeverLoses(l, cfg, actions)
    decreases |actions|
  {
    hide LifeOk, Lossless, Act;
    if actions != [] && Allowed(l, actions[0]) {
      ActIsSafe(l, cfg, actions[0]);
      EveryRunNeverLoses(Act(l, cfg, actions[0]), cfg, actions[1..]);
    }
  }

  /** A fresh device beside any vault is a good start. */
  lemma NewDeviceIsOk(disk: map<Path, Bytes>, s: State, cfg: Config)
    requires Inv(s)
    ensures LifeOk(Life(World(disk, map[], map[], 0, s, Committed(s)), map[]), cfg)
  {
  }
}
