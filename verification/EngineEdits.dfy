/**
 What a whole pass makes of an edit: it goes up as it is, is merged with the server's
 content from its true ancestor, or stands aside whole (src/sync-engine.ts:618-807, 1080-1247).
 */
module EngineEdits {
  import opened Content
  import opened Store
  import opened StoreLaws
  import opened Engine
  import opened EngineQuiet
  import opened EnginePass
  import Diff3

  // ---- an edit and what becomes of it ---------------------------------------------------

  /** A content on disk that the index does not know, and that no other device has moved on. */
  ghost predicate Edited(w: World, cfg: Config, p: Path, c: Bytes) {
    && p in w.disk && w.disk[p] == c && NotMovedOn(w, cfg, p, c)
    && (p in w.index ==> !Engine.Untouched(cfg, c, w.index[p]))
  }

  /** The merge of an edit with the server's content, where there is one without conflict. */
  function CleanMerge(w: World, cfg: Config, p: Path, c: Bytes): Option<Bytes> {
    var g, base := FetchCurrent(w, cfg, p), AncestorAt(w, cfg, p);
    if g.Got? && Mergeable(c) && Mergeable(g.plain) && base.Base? then
      var m := MergedText(cfg, base.text, c.text, g.plain.text);
      if m.clean then Some(Text(m.text)) else None
    else None
  }

  /** A conflict copy as it was written: known to nobody. */
  ghost predicate SetAside(w: World, copy: Path, c: Bytes) {
    && copy in w.disk && w.disk[copy] == c && copy !in w.index && copy !in w.server.files
    && forall q <- w.server.files :: w.server.files[q].renamedFrom != Some(copy)
  }

  datatype Stage = Meeting | Sending | Over

  /** A copy the pull made, of the edit of a row that was still to be read, is adopted like any new file. */
  predicate GoesUp(w0: World, cfg: Config, p: Path, copy: Path) {
    Unseen(w0, p) && !Excluded(cfg, copy)
  }

  /**
   A conflict copy: set aside where the edit meets the server's content; in the push on its
   way up or not; and in the end up or not, whole on disk in any case.
   */
  ghost predicate Aside(w0: World, w: World, cfg: Config, p: Path, copy: Path, c: Bytes, stage: Stage) {
    match stage
    case Meeting => SetAside(w, copy, c)
    case Sending => if GoesUp(w0, cfg, p, copy) then Decided(w, cfg, copy, c) else SetAside(w, copy, c)
    case Over => copy in w.disk && w.disk[copy] == c && (IsLive(w.server, copy) <==> GoesUp(w0, cfg, p, copy))
  }

  /**
   The edit of w0 met a live content: what stands at p is their clean merge, or the
   server's content, with the edit whole at the copy that the conflict names.
   */
  ghost predicate Met(w0: World, w: World, cfg: Config, p: Path, c: Bytes, stage: Stage) {
    && p in w.disk && FetchCurrent(w0, cfg, p).Got?
    && var m := CleanMerge(w0, cfg, p, c);
       if m.Some? then w.disk[p] == m.value
       else
         && w.disk[p] == FetchCurrent(w0, cfg, p).plain && p in w.conflicts
         && Aside(w0, w, cfg, p, w.conflicts[p].copy, c, stage)
  }

  /** The end of an edit; a conflict copy goes up in the same pass exactly when the pull made it. */
  ghost predicate Ended(w0: World, w: World, cfg: Config, p: Path, c: Bytes) {
    Won(w, cfg, p, c) || (Settled(w, cfg, p) && Met(w0, w, cfg, p, c, Over))
  }

  // ---- a step elsewhere --------------------------------------------------------------------

  /** The server has the same revisions of a path. */
  ghost predicate SameHistory(w: World, w': World, p: Path) {
    && (p in w.server.files <==> p in w'.server.files)
    && forall r :: RevisionHash(w.server, p, r) == RevisionHash(w'.server, p, r)
  }

  ghost predicate SameConflict(w: World, w': World, p: Path) {
    (p in w.conflicts <==> p in w'.conflicts) && (p in w.conflicts ==> w.conflicts[p] == w'.conflicts[p])
  }

  /** The server was left alone, or took one write at p. */
  ghost predicate WroteAt(w: World, w': World, p: Path) {
    || w'.server == w.server
    || (exists a: PutArgs :: a.path == p && w'.server == Put(w.server, a).0)
    || (exists b, author :: w'.server == Delete(w.server, p, b, author).0)
  }

  lemma WriteLeavesHistory(w: World, w': World, p: Path, q: Path)
    requires Inv(w.server) && WroteAt(w, w', p) && q != p
    ensures SameHistory(w, w', q)
  {
    OwnPath(w.server, p);
  }

  lemma SendWrites(w: World, cfg: Config, p: Path, baseRev: int, plain: Bytes, now: int)
    ensures WroteAt(w, Send(w, cfg, p, baseRev, plain, now).0, p)
    ensures Send(w, cfg, p, baseRev, plain, now).0.conflicts == w.conflicts
  {
    var a := SendArgs(cfg, p, baseRev, plain, now);
    assert a.path == p;
    hide Put, Committed;
  }

  lemma MergedWrites(w: World, cfg: Config, p: Path, serverRev: int, merged: Bytes, now: int)
    ensures WroteAt(w, SendMerged(w, cfg, p, serverRev, merged, now).0, p)
    ensures SendMerged(w, cfg, p, serverRev, merged, now).0.conflicts == w.conflicts
  {
    SendWrites(w.(disk := w.disk[p := merged]), cfg, p, serverRev, merged, now);
    hide Send;
  }

  lemma ReconcileWrites(w: World, cfg: Config, p: Path, local: Bytes, serverRev: int, baseRev: int, copy: Path,
                        now: int, q: Path)
    requires q != p
    ensures var w' := Reconcile(w, cfg, p, local, serverRev, baseRev, copy, now).0;
            WroteAt(w, w', p) && SameConflict(w, w', q)
  {
    hide SendMerged, Fetch, Diff3.Merge, Mergeable, AncestorText, Put, Delete;
    var g := Fetch(w, cfg, p, serverRev);
    if g.Got? && Mergeable(local) && Mergeable(g.plain) && AncestorText(w, cfg, p, baseRev).Base? {
      MergeableIsText(local);
      MergeableIsText(g.plain);
      MergedWrites(w, cfg, p, serverRev,
                   Text(MergedText(cfg, AncestorText(w, cfg, p, baseRev).text, local.text, g.plain.text).text), now);
    }
  }

  /** Applying an entry writes and asks about its own path only. */
  lemma RemoteWrites(w: World, cfg: Config, f: File, copy: Path, now: int, q: Path)
    requires q != f.path
    ensures var w' := ApplyRemote(w, cfg, f, copy, now).0; WroteAt(w, w', f.path) && SameConflict(w, w', q)
  {
    hide Reconcile, Fetch, MatchesRemote, Put, Delete, Excluded;
    if f.path in w.disk {
      ReconcileWrites(w, cfg, f.path, w.disk[f.path], f.rev,
                      if f.path in w.index then w.index[f.path].baseRev else 0, copy, now, q);
    }
  }

  lemma UploadWrites(w: World, cfg: Config, p: Path, local: Bytes, baseRev: int, copy: Path, now: int, q: Path)
    requires q != p
    ensures var w' := Upload(w, cfg, p, local, baseRev, copy, now).0; WroteAt(w, w', p) && SameConflict(w, w', q)
  {
    var first := Send(w, cfg, p, baseRev, local, now);
    SendWrites(w, cfg, p, baseRev, local, now);
    hide Send, Reconcile, Put, Delete;
    if first.1.Conflict? {
      SendWrites(w, cfg, p, first.1.serverRev, local, now);
      ReconcileWrites(w, cfg, p, local, first.1.serverRev, baseRev, copy, now, q);
    }
  }

  lemma PushWrites(w: World, cfg: Config, p: Path, copy: Path, now: int, q: Path)
    requires q != p
    ensures var w' := PushOne(w, cfg, p, copy, now).0; WroteAt(w, w', p) && SameConflict(w, w', q)
  {
    hide Upload, Put, Delete, FetchCurrent;
    if p in w.index && p in w.disk {
      UploadWrites(w, cfg, p, w.disk[p], w.index[p].baseRev, copy, now, q);
    }
  }

  // ---- meeting the server's content -----------------------------------------------------------

  lemma KeptIsAside(w: World, p: Path, plain: Bytes, hash: Hash, serverRev: int, baseRev: int, mergeable: bool, copy: Path)
    requires p in w.disk && Free(w, copy)
    ensures var w' := KeepBoth(w, p, w.disk[p], plain, hash, serverRev, baseRev, mergeable, copy);
            && p in w'.disk && w'.disk[p] == plain
            && p in w'.conflicts && w'.conflicts[p].copy == copy && SetAside(w', copy, w.disk[p])
  {
  }

  lemma MergedStands(w: World, cfg: Config, p: Path, serverRev: int, merged: Bytes, now: int)
    ensures var w' := SendMerged(w, cfg, p, serverRev, merged, now).0; p in w'.disk && w'.disk[p] == merged
  {
  }

  lemma ReconcileMeets(w: World, cfg: Config, p: Path, baseRev: int, copy: Path, now: int)
    requires Readable(w.server, cfg) && p in w.disk && IsLive(w.server, p) && Free(w, copy)
    requires baseRev == if p in w.index then w.index[p].baseRev else 0
    ensures Met(w, Reconcile(w, cfg, p, w.disk[p], w.server.files[p].rev, baseRev, copy, now).0, cfg, p, w.disk[p], Meeting)
  {
    RowOpens(w.server, cfg, p);
    AncestorReads(w, cfg, p, baseRev);
    var g := Fetch(w, cfg, p, w.server.files[p].rev);
    assert g == FetchCurrent(w, cfg, p) && g.Got?;
    hide Readable, Fetch, FetchCurrent, Reconcile, Met, Free, AncestorText;
    OpenedMeets(w, cfg, p, g, w.server.files[p].rev, baseRev, copy, now);
  }

  lemma KeptMeets(w: World, cfg: Config, p: Path, g: Fetched, serverRev: int, baseRev: int, mergeable: bool, copy: Path)
    requires p in w.disk && Free(w, copy) && g.Got? && g == FetchCurrent(w, cfg, p)
    requires CleanMerge(w, cfg, p, w.disk[p]) == None
    ensures Met(w, KeepBoth(w, p, w.disk[p], g.plain, g.hash, serverRev, baseRev, mergeable, copy), cfg, p, w.disk[p], Meeting)
  {
    KeptIsAside(w, p, g.plain, g.hash, serverRev, baseRev, mergeable, copy);
    hide KeepBoth, CleanMerge, FetchCurrent, SetAside, Free;
  }

  lemma MergedMeets(w: World, cfg: Config, p: Path, serverRev: int, merged: Bytes, now: int)
    requires p in w.disk && FetchCurrent(w, cfg, p).Got? && CleanMerge(w, cfg, p, w.disk[p]) == Some(merged)
    ensures Met(w, SendMerged(w, cfg, p, serverRev, merged, now).0, cfg, p, w.disk[p], Meeting)
  {
    MergedStands(w, cfg, p, serverRev, merged, now);
    hide SendMerged, CleanMerge, FetchCurrent;
  }

  lemma OpenedMeets(w: World, cfg: Config, p: Path, g: Fetched, serverRev: int, baseRev: int, copy: Path, now: int)
    requires p in w.disk && Free(w, copy) && g.Got? && !AncestorText(w, cfg, p, baseRev).Broken?
    requires g == Fetch(w, cfg, p, serverRev) == FetchCurrent(w, cfg, p)
    requires baseRev == if p in w.index then w.index[p].baseRev else 0
    ensures Met(w, Reconcile(w, cfg, p, w.disk[p], serverRev, baseRev, copy, now).0, cfg, p, w.disk[p], Meeting)
  {
    var merged := CleanMerge(w, cfg, p, w.disk[p]);
    AncestorIsIndexed(w, cfg, p);
    hide AncestorText, AncestorAt, Diff3.Merge, Mergeable, Fetch, FetchCurrent, KeepBoth, SendMerged, Met, Free;
    if merged == None {
      KeptMeets(w, cfg, p, g, serverRev, baseRev, false, copy);
      KeptMeets(w, cfg, p, g, serverRev, baseRev, true, copy);
    } else {
      MergeableIsText(w.disk[p]);
      MergeableIsText(g.plain);
      MergedMeets(w, cfg, p, serverRev, merged.value, now);
    }
  }

  lemma SameMeeting(w0: World, w: World, w': World, cfg: Config, p: Path, c: Bytes)
    requires SameHistory(w0, w, p) && SameRow(w0, w, p) && AncestorAt(w0, cfg, p) == AncestorAt(w, cfg, p)
    requires Met(w, w', cfg, p, c, Meeting)
    ensures Met(w0, w', cfg, p, c, Meeting)
  {
    hide AncestorAt, Mergeable, Diff3.Merge, SetAside;
  }

  lemma SameAncestor(w0: World, w: World, cfg: Config, p: Path)
    requires SameHistory(w0, w, p)
    requires (if p in w0.index then w0.index[p].baseRev else 0) == (if p in w.index then w.index[p].baseRev else 0)
    ensures AncestorAt(w0, cfg, p) == AncestorAt(w, cfg, p)
  {
    AncestorIsIndexed(w0, cfg, p);
    AncestorIsIndexed(w, cfg, p);
    hide AncestorAt;
  }

  // ---- during the pull ----------------------------------------------------------------------------

  /** Nothing has happened to the edit's path since w0. */
  ghost predicate Pending(w0: World, w: World, cfg: Config, p: Path, c: Bytes) {
    && SameAt(w0, w, p) && SameHistory(w0, w, p) && (Unseen(w0, p) <==> Unseen(w, p))
    && Edited(w, cfg, p, c)
  }

  ghost predicate EditState(w0: World, w: World, cfg: Config, p: Path, c: Bytes) {
    || Pending(w0, w, cfg, p, c)
    || Undecided(w, cfg, p, c)
    || (Unseen(w0, p) && Kept(w, cfg, p) && Met(w0, w, cfg, p, c, Meeting))
  }

  ghost predicate EditsPulled(w0: World, w: World, cfg: Config) {
    forall p, c | !Excluded(cfg, p) && Edited(w0, cfg, p, c) :: EditState(w0, w, cfg, p, c)
  }

  lemma EditsStart(w0: World, w: World, cfg: Config)
    requires w == w0.(conflicts := w.conflicts)
    ensures EditsPulled(w0, w, cfg)
  {
    hide Excluded, Engine.Untouched, MatchesRemote;
  }

  /** The turn of the edit's own path. */
  lemma OwnEdit(w0: World, w: World, cfg: Config, f: File, copy: Path, now: int, c: Bytes)
    requires ServerReady(w, cfg) && !Excluded(cfg, f.path) && Free(w, copy)
    requires f.path in w.server.files && w.server.files[f.path] == f && w.cursor < f.seqNo
    requires Turned(w, Turn(w, cfg, f, copy, now), cfg, f)
    requires Pending(w0, w, cfg, f.path, c)
    ensures EditState(w0, Turn(w, cfg, f, copy, now), cfg, f.path, c)
  {
    if f.deleted {
      assert EditedHere(w, cfg, f.path, c, false);
      OwnTurn(w, cfg, f, copy, now, c);
    } else if Echo(w, cfg, f) {
      EchoIsOnTop(w, cfg, f, copy, now, c);
    } else if MatchesRemote(cfg, c, f.hash) {
      SameIsWon(w, cfg, f, copy, now, c);
    } else {
      OwnMeets(w0, w, cfg, f, copy, now, c);
    }
  }

  lemma EchoIsOnTop(w: World, cfg: Config, f: File, copy: Path, now: int, c: Bytes)
    requires !Excluded(cfg, f.path) && Echo(w, cfg, f) && !f.deleted && Edited(w, cfg, f.path, c)
    requires f.path in w.server.files && w.server.files[f.path] == f && w.cursor < f.seqNo
    ensures Undecided(Turn(w, cfg, f, copy, now), cfg, f.path, c)
  {
    var w' := Turn(w, cfg, f, copy, now);
    hide Excluded, MatchesRemote;
    assert w' == w.(cursor := f.seqNo);
    assert EditedOnTop(w', cfg, f.path, c, true);
  }

  lemma SameIsWon(w: World, cfg: Config, f: File, copy: Path, now: int, c: Bytes)
    requires ServerReady(w, cfg) && !Excluded(cfg, f.path)
    requires f.path in w.server.files && w.server.files[f.path] == f && w.cursor < f.seqNo && !f.deleted
    requires Turned(w, Turn(w, cfg, f, copy, now), cfg, f)
    requires !Echo(w, cfg, f) && Edited(w, cfg, f.path, c) && MatchesRemote(cfg, c, f.hash)
    ensures Undecided(Turn(w, cfg, f, copy, now), cfg, f.path, c)
  {
    var v, w' := ApplyRemote(w, cfg, f, copy, now).0, Turn(w, cfg, f, copy, now);
    OwnTurnIsLast(w, w', cfg, f);
    SealOpens(cfg.cipher, c);
    assert Settled(v, cfg, f.path);
    hide ApplyRemote, ServerReady, Turned;
    SettledMoves(v, w', cfg, f.path);
  }

  lemma OwnMeets(w0: World, w: World, cfg: Config, f: File, copy: Path, now: int, c: Bytes)
    requires ServerReady(w, cfg) && !Excluded(cfg, f.path) && Free(w, copy)
    requires f.path in w.server.files && w.server.files[f.path] == f && w.cursor < f.seqNo && !f.deleted
    requires Turned(w, Turn(w, cfg, f, copy, now), cfg, f)
    requires !Echo(w, cfg, f) && Pending(w0, w, cfg, f.path, c) && !MatchesRemote(cfg, c, f.hash)
    ensures EditState(w0, Turn(w, cfg, f, copy, now), cfg, f.path, c)
  {
    var p, v, w' := f.path, ApplyRemote(w, cfg, f, copy, now).0, Turn(w, cfg, f, copy, now);
    var baseRev := if p in w.index then w.index[p].baseRev else 0;
    assert v == Reconcile(w, cfg, p, c, f.rev, baseRev, copy, now).0;
    assert !Settled(w, cfg, p);
    hide ApplyRemote, Reconcile, Excluded, Engine.Untouched, MatchesRemote;
    ReconcileSettles(w, cfg, p, baseRev, copy, now);
    ReconcileMeets(w, cfg, p, baseRev, copy, now);
    OwnTurnIsLast(w, w', cfg, f);
    hide Turned, ServerReady, Readable, Converges, OnlyTouches;
    SettledMoves(v, w', cfg, p);
    SameAncestor(w0, w, cfg, p);
    SameMeeting(w0, w, v, cfg, p, c);
    MetMoves(w0, v, w', cfg, p, c);
  }

  lemma MetMoves(w0: World, w: World, w': World, cfg: Config, p: Path, c: Bytes)
    requires w' == w.(cursor := w'.cursor)
    ensures Met(w0, w, cfg, p, c, Meeting) <==> Met(w0, w', cfg, p, c, Meeting)
  {
    hide CleanMerge, FetchCurrent;
  }

  // ---- the turns of other paths ------------------------------------------------------------------

  /** A file nothing moves on stays as it is when another path has its turn. */
  lemma EditStands(w: World, cfg: Config, f: File, copy: Path, now: int, q: Path, c: Bytes)
    requires ServerReady(w, cfg) && AllCoherent(w, cfg) && Free(w, copy) && q != f.path
    requires f.path in w.server.files && w.server.files[f.path] == f && w.cursor < f.seqNo
    requires q in w.disk && w.disk[q] == c && NotMovedOn(w, cfg, q, c)
    ensures SameAt(w, Turn(w, cfg, f, copy, now), q)
  {
    assert q != copy;
    if !Excluded(cfg, f.path) {
      assert Coherent(w, cfg, f.path, false);
      RemoteTouches(w, cfg, f, copy, now, q);
    }
    hide ApplyRemote, Readable, Coherent, Excluded;
  }

  lemma TurnHistory(w: World, cfg: Config, f: File, copy: Path, now: int, q: Path)
    requires Inv(w.server) && q != f.path
    ensures SameHistory(w, Turn(w, cfg, f, copy, now), q) && SameConflict(w, Turn(w, cfg, f, copy, now), q)
  {
    if !Excluded(cfg, f.path) {
      RemoteWrites(w, cfg, f, copy, now, q);
      WriteLeavesHistory(w, ApplyRemote(w, cfg, f, copy, now).0, f.path, q);
    }
    hide ApplyRemote, Inv, WroteAt;
  }

  lemma PendingStands(w0: World, w: World, cfg: Config, f: File, copy: Path, now: int, q: Path, c: Bytes)
    requires ServerReady(w, cfg) && AllCoherent(w, cfg) && Free(w, copy) && q != f.path
    requires f.path in w.server.files && w.server.files[f.path] == f && w.cursor < f.seqNo
    requires Turned(w, Turn(w, cfg, f, copy, now), cfg, f) && Pending(w0, w, cfg, q, c)
    ensures Pending(w0, Turn(w, cfg, f, copy, now), cfg, q, c)
  {
    var w' := Turn(w, cfg, f, copy, now);
    EditStands(w, cfg, f, copy, now, q, c);
    TurnHistory(w, cfg, f, copy, now, q);
    hide ServerReady, Turn, AllCoherent, Coherent, Converges, Excluded, Engine.Untouched, MatchesRemote;
    assert Bystander(w, w', q);
    forall r | r in w'.server.files
      ensures w'.server.files[r].renamedFrom == None || (r in w.server.files && w.server.files[r] == w'.server.files[r])
    {
      RowsSince(w, w', cfg, f, r);
    }
  }

  lemma AsideStands(w: World, cfg: Config, f: File, copy: Path, now: int, aside: Path, c: Bytes)
    requires ServerReady(w, cfg) && AllCoherent(w, cfg) && Free(w, copy)
    requires f.path in w.server.files && w.server.files[f.path] == f && w.cursor < f.seqNo
    requires Turned(w, Turn(w, cfg, f, copy, now), cfg, f) && SetAside(w, aside, c)
    ensures SetAside(Turn(w, cfg, f, copy, now), aside, c)
  {
    var w' := Turn(w, cfg, f, copy, now);
    EditStands(w, cfg, f, copy, now, aside, c);
    hide ServerReady, Turn, AllCoherent, Coherent, Converges, Excluded;
    forall r | r in w'.server.files
      ensures w'.server.files[r].renamedFrom == None || (r in w.server.files && w.server.files[r] == w'.server.files[r])
    {
      RowsSince(w, w', cfg, f, r);
    }
  }

  lemma MetStands(w0: World, w: World, cfg: Config, f: File, copy: Path, now: int, q: Path, c: Bytes)
    requires ServerReady(w, cfg) && AllCoherent(w, cfg) && Free(w, copy) && q != f.path
    requires f.path in w.server.files && w.server.files[f.path] == f && w.cursor < f.seqNo
    requires Turned(w, Turn(w, cfg, f, copy, now), cfg, f)
    requires Kept(w, cfg, q) && Met(w0, w, cfg, q, c, Meeting)
    ensures Kept(Turn(w, cfg, f, copy, now), cfg, q) && Met(w0, Turn(w, cfg, f, copy, now), cfg, q, c, Meeting)
  {
    var w' := Turn(w, cfg, f, copy, now);
    KeptElsewhere(w, cfg, f, copy, now, q);
    assert Undecided(w, cfg, q, w.disk[q]);
    StillThere(w, cfg, f, copy, now, q, w.disk[q]);
    TurnHistory(w, cfg, f, copy, now, q);
    hide ServerReady, Turn, AllCoherent, Turned, Excluded, Kept, Waiting, CleanMerge, FetchCurrent, SameHistory;
    if CleanMerge(w0, cfg, q, c) == None {
      AsideStands(w, cfg, f, copy, now, w.conflicts[q].copy, c);
    }
  }

  /** A turn keeps every edit on its way. */
  lemma TurnKeepsEdits(w0: World, w: World, cfg: Config, f: File, copy: Path, now: int)
    requires ServerReady(w, cfg) && AllCoherent(w, cfg) && Free(w, copy) && EditsPulled(w0, w, cfg)
    requires f.path in w.server.files && w.server.files[f.path] == f && w.cursor < f.seqNo
    requires Turned(w, Turn(w, cfg, f, copy, now), cfg, f)
    ensures EditsPulled(w0, Turn(w, cfg, f, copy, now), cfg)
  {
    var w' := Turn(w, cfg, f, copy, now);
    OwnTurnIsLast(w, w', cfg, f);
    hide ServerReady, Turn, Turned, AllCoherent, Excluded, Edited, Free;
    forall p, c | !Excluded(cfg, p) && Edited(w0, cfg, p, c)
      ensures EditState(w0, w', cfg, p, c)
    {
      assert EditState(w0, w, cfg, p, c);
      EditTurns(w0, w, cfg, f, copy, now, p, c);
    }
  }

  lemma EditTurns(w0: World, w: World, cfg: Config, f: File, copy: Path, now: int, p: Path, c: Bytes)
    requires ServerReady(w, cfg) && AllCoherent(w, cfg) && Free(w, copy) && !Excluded(cfg, p)
    requires f.path in w.server.files && w.server.files[f.path] == f && w.cursor < f.seqNo
    requires Turned(w, Turn(w, cfg, f, copy, now), cfg, f) && EditState(w0, w, cfg, p, c)
    ensures EditState(w0, Turn(w, cfg, f, copy, now), cfg, p, c)
  {
    hide ServerReady, Turn, Turned, AllCoherent, Excluded, Free, Pending, Undecided, Kept, Met;
    if p == f.path {
      if Pending(w0, w, cfg, p, c) {
        OwnEdit(w0, w, cfg, f, copy, now, c);
      } else if Undecided(w, cfg, p, c) {
        OwnTurn(w, cfg, f, copy, now, c);
      } else {
        OwnMet(w0, w, cfg, f, copy, now, c);
      }
    } else if Pending(w0, w, cfg, p, c) {
      PendingStands(w0, w, cfg, f, copy, now, p, c);
    } else if Undecided(w, cfg, p, c) {
      OtherTurn(w, cfg, f, copy, now, p, c);
    } else {
      MetStands(w0, w, cfg, f, copy, now, p, c);
    }
  }

  /** The row this device wrote comes round; it is settled and stays so. */
  lemma OwnMet(w0: World, w: World, cfg: Config, f: File, copy: Path, now: int, c: Bytes)
    requires ServerReady(w, cfg) && AllCoherent(w, cfg) && Free(w, copy) && !Excluded(cfg, f.path)
    requires f.path in w.server.files && w.server.files[f.path] == f && w.cursor < f.seqNo
    requires Turned(w, Turn(w, cfg, f, copy, now), cfg, f)
    requires Kept(w, cfg, f.path) && Met(w0, w, cfg, f.path, c, Meeting)
    ensures Kept(Turn(w, cfg, f, copy, now), cfg, f.path) && Met(w0, Turn(w, cfg, f, copy, now), cfg, f.path, c, Meeting)
  {
    var p, v, w' := f.path, ApplyRemote(w, cfg, f, copy, now).0, Turn(w, cfg, f, copy, now);
    RemoteKeepsWon(w, cfg, f, copy, now, w.disk[p]);
    SettledAsks(w, cfg, f, copy, now);
    OwnTurnIsLast(w, w', cfg, f);
    hide ApplyRemote, Turned, ServerReady, AllCoherent, Excluded;
    SettledMoves(v, w', cfg, p);
    if CleanMerge(w0, cfg, p, c) == None {
      AsideStands(w, cfg, f, copy, now, w.conflicts[p].copy, c);
    }
    hide CleanMerge, FetchCurrent;
  }

  lemma SettledAsks(w: World, cfg: Config, f: File, copy: Path, now: int)
    requires Readable(w.server, cfg) && f.path in w.server.files && w.server.files[f.path] == f && Settled(w, cfg, f.path)
    ensures ApplyRemote(w, cfg, f, copy, now).0.conflicts == w.conflicts
  {
    DownloadSettles(w, cfg, f.path);
    hide Readable, Reconcile;
  }

  /** The cursor may pass numbers no row has. */
  lemma CursorKeepsEdits(w0: World, w: World, w': World, cfg: Config)
    requires EditsPulled(w0, w, cfg) && w' == w.(cursor := w'.cursor) && w.cursor <= w'.cursor
    requires forall p :: Unseen(w, p) <==> Unseen(w', p)
    ensures EditsPulled(w0, w', cfg)
  {
    hide Excluded, Unseen, Edited, Waiting, Won, Settled;
    forall p, c | !Excluded(cfg, p) && Edited(w0, cfg, p, c)
      ensures EditState(w0, w', cfg, p, c)
    {
      assert EditState(w0, w, cfg, p, c);
      CursorKeepsEdit(w0, w, w', cfg, p, c);
    }
  }

  lemma CursorKeepsEdit(w0: World, w: World, w': World, cfg: Config, p: Path, c: Bytes)
    requires w' == w.(cursor := w'.cursor) && w.cursor <= w'.cursor && (Unseen(w, p) <==> Unseen(w', p))
    requires EditState(w0, w, cfg, p, c)
    ensures EditState(w0, w', cfg, p, c)
  {
    hide Unseen, MatchesRemote, Engine.Untouched, CleanMerge, FetchCurrent;
    if Undecided(w, cfg, p, c) {
      UndecidedMoves(w, w', cfg, p, c);
    } else {
      SettledMoves(w, w', cfg, p);
    }
  }

  // ---- during the push ---------------------------------------------------------------------------

  /** A seen edit that has still to meet the server's content, which is not what it started from. */
  ghost predicate Facing(w0: World, w: World, cfg: Config, p: Path, c: Bytes) {
    && p in w.disk && w.disk[p] == c && p in w.index && w.index[p].plainHash != Some(Sha256(c)) && IsLive(w.server, p)
    && !Unseen(w0, p) && SameRow(w0, w, p) && SameHistory(w0, w, p) && AncestorAt(w0, cfg, p) == AncestorAt(w, cfg, p)
  }

  ghost predicate PushState(w0: World, w: World, cfg: Config, p: Path, c: Bytes) {
    || Facing(w0, w, cfg, p, c)
    || Decided(w, cfg, p, c)
    || (Settled(w, cfg, p) && Met(w0, w, cfg, p, c, Sending))
  }

  ghost predicate EditsPushed(w0: World, w: World, cfg: Config) {
    forall p, c | !Excluded(cfg, p) && Edited(w0, cfg, p, c) :: PushState(w0, w, cfg, p, c)
  }

  lemma AdoptFaces(w0: World, w: World, cfg: Config, p: Path, c: Bytes)
    requires !Excluded(cfg, p) && Pending(w0, w, cfg, p, c) && (Unseen(w, p) ==> Settled(w, cfg, p))
    ensures PushState(w0, Adopt(w, cfg), cfg, p, c)
  {
    var w' := Adopt(w, cfg);
    if IsLive(w.server, p) {
      SameAncestor(w0, w', cfg, p);
      hide AncestorAt, MatchesRemote;
      assert Facing(w0, w', cfg, p, c);
    } else {
      assert EditedHere(w', cfg, p, c, true);
    }
  }

  lemma AdoptMet(w0: World, w: World, cfg: Config, p: Path, c: Bytes)
    requires Unseen(w0, p) && Settled(w, cfg, p) && Met(w0, w, cfg, p, c, Meeting)
    ensures Settled(Adopt(w, cfg), cfg, p) && Met(w0, Adopt(w, cfg), cfg, p, c, Sending)
  {
    hide CleanMerge, FetchCurrent, MatchesRemote, Excluded;
    if CleanMerge(w0, cfg, p, c) == None {
      AdoptAside(w, cfg, w.conflicts[p].copy, c);
    }
    hide SetAside, Decided;
  }

  lemma AdoptAside(w: World, cfg: Config, copy: Path, c: Bytes)
    requires SetAside(w, copy, c)
    ensures if Excluded(cfg, copy) then SetAside(Adopt(w, cfg), copy, c) else Decided(Adopt(w, cfg), cfg, copy, c)
  {
    hide Excluded, MatchesRemote;
    if !Excluded(cfg, copy) {
      assert EditedHere(Adopt(w, cfg), cfg, copy, c, true);
    }
  }

  lemma AdoptKeepsEdits(w0: World, w: World, cfg: Config)
    requires EditsPulled(w0, w, cfg) && ReadThrough(w, cfg)
    ensures EditsPushed(w0, Adopt(w, cfg), cfg)
  {
    hide Excluded, Edited, Pending, Met, Adopt, Settled, Waiting, Facing, Won;
    forall p, c | !Excluded(cfg, p) && Edited(w0, cfg, p, c)
      ensures PushState(w0, Adopt(w, cfg), cfg, p, c)
    {
      assert EditState(w0, w, cfg, p, c);
      if Pending(w0, w, cfg, p, c) {
        AdoptFaces(w0, w, cfg, p, c);
      } else if Undecided(w, cfg, p, c) {
        AdoptDecides(w, cfg, p, c);
      } else {
        AdoptMet(w0, w, cfg, p, c);
      }
    }
  }

  /** The push of a path that faces the server's content. */
  lemma PushMeets(w0: World, w: World, cfg: Config, p: Path, copy: Path, now: int, c: Bytes)
    requires AllSeen(w, cfg) && !Excluded(cfg, p) && Free(w, copy) && Facing(w0, w, cfg, p, c)
    ensures PushState(w0, PushOne(w, cfg, p, copy, now).0, cfg, p, c)
  {
    var w', e := PushOne(w, cfg, p, copy, now).0, w.index[p];
    assert Coherent(w, cfg, p, true);
    if e.baseRev == w.server.files[p].rev || SameContent(w.server, SendArgs(cfg, p, e.baseRev, c, now)) {
      SendSettles(w, cfg, p, e.baseRev, now);
      assert Won(w', cfg, p, c);
    } else {
      OwnPathOfRow(w.server, cfg, p);
      var v := Reconcile(w, cfg, p, c, w.server.files[p].rev, e.baseRev, copy, now).0;
      assert w' == v;
      hide PushOne, Reconcile, Excluded, AncestorAt, SameContent;
      ReconcileSettles(w, cfg, p, e.baseRev, copy, now);
      ReconcileMeets(w, cfg, p, e.baseRev, copy, now);
      SameMeeting(w0, w, v, cfg, p, c);
      hide Readable, Converges, OnlyTouches, Coherent, Settled;
      LooksAside(w0, v, cfg, p, c);
    }
  }

  lemma LooksAside(w0: World, w: World, cfg: Config, p: Path, c: Bytes)
    requires Met(w0, w, cfg, p, c, Meeting) && !Unseen(w0, p)
    ensures Met(w0, w, cfg, p, c, Sending)
  {
    hide CleanMerge, FetchCurrent, SetAside;
  }

  lemma PushHistory(w: World, cfg: Config, q: Path, copy: Path, now: int, p: Path)
    requires Inv(w.server) && q != p
    ensures SameHistory(w, PushOne(w, cfg, q, copy, now).0, p) && SameConflict(w, PushOne(w, cfg, q, copy, now).0, p)
  {
    PushWrites(w, cfg, q, copy, now, p);
    WriteLeavesHistory(w, PushOne(w, cfg, q, copy, now).0, q, p);
    hide PushOne, Inv, WroteAt;
  }

  lemma FacingStands(w0: World, w: World, cfg: Config, q: Path, copy: Path, now: int, p: Path, c: Bytes)
    requires AllSeen(w, cfg) && !Excluded(cfg, q) && Free(w, copy) && q != p && Facing(w0, w, cfg, p, c)
    ensures Facing(w0, PushOne(w, cfg, q, copy, now).0, cfg, p, c)
  {
    var w' := PushOne(w, cfg, q, copy, now).0;
    assert Coherent(w, cfg, q, true);
    PushSettles(w, cfg, q, copy, now);
    PushHistory(w, cfg, q, copy, now, p);
    hide PushOne, Excluded, Readable, Coherent, Settled;
    assert SameAt(w, w', p);
    SameAncestor(w, w', cfg, p);
    hide AncestorAt;
  }

  lemma SetAsidePushed(w: World, cfg: Config, q: Path, copy: Path, now: int, aside: Path, c: Bytes)
    requires AllSeen(w, cfg) && !Excluded(cfg, q) && Free(w, copy) && SetAside(w, aside, c)
    ensures SetAside(PushOne(w, cfg, q, copy, now).0, aside, c)
  {
    var w' := PushOne(w, cfg, q, copy, now).0;
    assert Coherent(w, cfg, q, true);
    if q != aside {
      PushSettles(w, cfg, q, copy, now);
      hide PushOne, Excluded, Readable, Coherent, Settled;
      assert SameAt(w, w', aside);
      forall r | r in w'.server.files
        ensures w'.server.files[r].renamedFrom == None || (r in w.server.files && w.server.files[r] == w'.server.files[r])
      {
        assert r != q && r != copy ==> SameAt(w, w', r);
      }
    }
  }

  lemma AsidePushed(w0: World, w: World, cfg: Config, q: Path, copy: Path, now: int, p: Path, aside: Path, c: Bytes)
    requires AllSeen(w, cfg) && !Excluded(cfg, q) && Free(w, copy) && Aside(w0, w, cfg, p, aside, c, Sending)
    ensures Aside(w0, PushOne(w, cfg, q, copy, now).0, cfg, p, aside, c, Sending)
  {
    hide AllSeen, PushOne, Decided, SetAside, GoesUp, Excluded, Free;
    if GoesUp(w0, cfg, p, aside) {
      PushDecidesOne(w, cfg, q, copy, now, aside, c);
    } else {
      SetAsidePushed(w, cfg, q, copy, now, aside, c);
    }
  }

  lemma MetPushed(w0: World, w: World, cfg: Config, q: Path, copy: Path, now: int, p: Path, c: Bytes)
    requires AllSeen(w, cfg) && !Excluded(cfg, q) && Free(w, copy)
    requires Settled(w, cfg, p) && Met(w0, w, cfg, p, c, Sending)
    ensures var w' := PushOne(w, cfg, q, copy, now).0; Settled(w', cfg, p) && Met(w0, w', cfg, p, c, Sending)
  {
    var w' := PushOne(w, cfg, q, copy, now).0;
    assert Coherent(w, cfg, q, true);
    if q == p {
      PushKeepsWon(w, cfg, p, copy, now, w.disk[p]);
      assert w'.conflicts == w.conflicts;
    } else {
      PushSettles(w, cfg, q, copy, now);
      PushHistory(w, cfg, q, copy, now, p);
    }
    hide AllSeen, PushOne, Excluded, CleanMerge, FetchCurrent, SameHistory, Aside;
    if CleanMerge(w0, cfg, p, c) == None {
      AsidePushed(w0, w, cfg, q, copy, now, p, w.conflicts[p].copy, c);
    }
    assert q != p ==> SameAt(w, w', p);
  }

  lemma PushKeepsEdits(w0: World, w: World, cfg: Config, q: Path, copy: Path, now: int)
    requires AllSeen(w, cfg) && EditsPushed(w0, w, cfg) && !Excluded(cfg, q) && Free(w, copy)
    ensures EditsPushed(w0, PushOne(w, cfg, q, copy, now).0, cfg)
  {
    var w' := PushOne(w, cfg, q, copy, now).0;
    hide AllSeen, Excluded, Edited, Facing, Decided, Met, Settled, PushOne, Free;
    forall p, c | !Excluded(cfg, p) && Edited(w0, cfg, p, c)
      ensures PushState(w0, w', cfg, p, c)
    {
      assert PushState(w0, w, cfg, p, c);
      if Facing(w0, w, cfg, p, c) {
        if p == q {
          PushMeets(w0, w, cfg, p, copy, now, c);
        } else {
          FacingStands(w0, w, cfg, q, copy, now, p, c);
        }
      } else if Decided(w, cfg, p, c) {
        PushDecidesOne(w, cfg, q, copy, now, p, c);
      } else {
        MetPushed(w0, w, cfg, q, copy, now, p, c);
      }
    }
  }

  /** Every edit has come to its end when nothing is left to send. */
  lemma EditsEnd(w0: World, w: World, cfg: Config)
    requires AllSeen(w, cfg) && Queued(w, cfg, {}) && EditsPushed(w0, w, cfg)
    ensures forall p, c | !Excluded(cfg, p) && Edited(w0, cfg, p, c) :: Ended(w0, w, cfg, p, c)
  {
    hide Excluded, Edited, Met, AllSeen, Queued, Won, Settled, Facing, Decided;
    forall p, c | !Excluded(cfg, p) && Edited(w0, cfg, p, c)
      ensures Ended(w0, w, cfg, p, c)
    {
      assert PushState(w0, w, cfg, p, c);
      EditEnds(w0, w, cfg, p, c);
    }
  }

  lemma EditEnds(w0: World, w: World, cfg: Config, p: Path, c: Bytes)
    requires AllSeen(w, cfg) && Queued(w, cfg, {}) && !Excluded(cfg, p) && PushState(w0, w, cfg, p, c)
    ensures Ended(w0, w, cfg, p, c)
  {
    hide Excluded, Met, NotMovedOn, ServerReady;
    assert Coherent(w, cfg, p, true);
    if Settled(w, cfg, p) && Met(w0, w, cfg, p, c, Sending) {
      MetEnds(w0, w, cfg, p, c);
    }
  }

  lemma MetEnds(w0: World, w: World, cfg: Config, p: Path, c: Bytes)
    requires AllSeen(w, cfg) && Queued(w, cfg, {}) && Met(w0, w, cfg, p, c, Sending)
    ensures Met(w0, w, cfg, p, c, Over)
  {
    hide Excluded, CleanMerge, FetchCurrent, NotMovedOn, ServerReady;
    if CleanMerge(w0, cfg, p, c) == None && !Excluded(cfg, w.conflicts[p].copy) {
      assert Coherent(w, cfg, w.conflicts[p].copy, true);
    }
  }
}
