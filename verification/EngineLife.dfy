/**
 The time between passes: local changes that are noticed, and other devices' writes,
 leave a device ready for its next pass (src/main.ts:738-776).
 */
module EngineLife {
  import opened Content
  import opened Store
  import opened StoreLaws
  import opened Engine
  import opened EngineQuiet
  import opened EnginePass
  import opened EngineKilled
  import opened EngineWhole
  import ChangeLog
  import opened EngineTrace
  import EngineSafety

  /** Once its row has been read, an entry that can vouch for a content does so at that row. */
  ghost predicate Vouched(w: World, p: Path) {
    p in w.index && w.index[p].plainHash.Some? && p in w.server.files && !Unseen(w, p) ==>
      w.index[p].baseRev == w.server.files[p].rev
  }

  ghost predicate Ready(w: World, cfg: Config) {
    Able(w, cfg) && Anchored(w, cfg) && forall p | !Excluded(cfg, p) :: Vouched(w, p)
  }

  /** What a pass leaves behind is ready for the next one. */
  lemma AgreedIsReady(w: World, cfg: Config)
    requires Able(w, cfg) && Agreed(w, cfg) && NoMoves(w, cfg)
    ensures Ready(w, cfg)
  {
    hide ServerReady, AllCoherent, Excluded;
  }

  lemma NewDeviceIsReady(disk: map<Path, Bytes>, s: State, cfg: Config)
    requires Readable(s, cfg) && RenamesOrdered(s)
    ensures Ready(World(disk, map[], map[], 0, s, Committed(s)), cfg)
    ensures AllSighted(World(disk, map[], map[], 0, s, Committed(s)), cfg)
  {
    hide Excluded;
    forall p
      ensures p in s.files ==> s.files[p].seqNo >= 1
    {
      assert RowRecorded(s, p);
    }
  }

  // ---- local changes -----------------------------------------------------------------

  /** The user writes or removes a file, and the watcher marks it. */
  function Change(w: World, cfg: Config, p: Path, content: Option<Bytes>): World {
    var changed := w.(disk := if content.Some? then w.disk[p := content.value] else w.disk - {p});
    if Excluded(cfg, p) then changed else EngineSafety.Mark(changed, p, true)
  }

  /** What the watcher makes of it: the file, and a mark on its entry, which is new where there is a file to send. */
  lemma ChangeMarks(w: World, cfg: Config, p: Path, content: Option<Bytes>)
    ensures var w' := Change(w, cfg, p, content);
            && w'.disk == (if content.Some? then w.disk[p := content.value] else w.disk - {p})
            && w'.index == (if Excluded(cfg, p) || (p !in w.index && content == None) then w.index
                            else w.index[p := if p in w.index
                                              then Entry(w.index[p].baseRev, w.index[p].baseHash, w.index[p].plainHash, true)
                                              else Entry(0, None, None, true)])
            && w' == w.(disk := w'.disk, index := w'.index)
  {
  }

  /**
   Bringing a file back whose newer revision went by while it was deleted: the index can
   vouch for it, but not at the revision the server holds.
   */
  predicate Resurrects(w: World, cfg: Config, p: Path, content: Option<Bytes>) {
    && content.Some? && !Excluded(cfg, p) && p in w.index && w.index[p].plainHash.Some?
    && p in w.server.files && !Unseen(w, p) && w.index[p].baseRev != w.server.files[p].rev
  }

  lemma ChangeAt(w: World, cfg: Config, p: Path, content: Option<Bytes>, q: Path)
    requires Coherent(w, cfg, q, !Unseen(w, q)) && !Excluded(cfg, q)
    ensures var w' := Change(w, cfg, p, content);
            && (Coherent(w', cfg, q, !Unseen(w', q)) <==> !(q == p && Resurrects(w, cfg, p, content)))
            && (Vouched(w, q) ==> Vouched(w', q)) && (Vouches(w', w', q) ==> Vouches(w, w, q))
  {
    hide Excluded, IsLive, Opens;
  }

  /** A change leaves the next pass what it needs exactly when it resurrects nothing. */
  lemma ChangeStaysCoherentExactly(w: World, cfg: Config, p: Path, content: Option<Bytes>)
    requires AllCoherent(w, cfg)
    ensures AllCoherent(Change(w, cfg, p, content), cfg) <==> !Resurrects(w, cfg, p, content)
  {
    var w' := Change(w, cfg, p, content);
    forall q | !Excluded(cfg, q)
      ensures Coherent(w', cfg, q, !Unseen(w', q)) <==> !(q == p && Resurrects(w, cfg, p, content))
    {
      assert Coherent(w, cfg, q, !Unseen(w, q));
      ChangeAt(w, cfg, p, content, q);
    }
    hide Coherent, Change, Unseen, Excluded;
  }

  lemma ChangeStaysReady(w: World, cfg: Config, p: Path, content: Option<Bytes>)
    requires Ready(w, cfg)
    ensures Ready(Change(w, cfg, p, content), cfg)
  {
    var w' := Change(w, cfg, p, content);
    ReadyNeverResurrects(w, cfg, p, content);
    ChangeStaysCoherentExactly(w, cfg, p, content);
    forall q | !Excluded(cfg, q)
      ensures Vouched(w', q) && (Vouches(w', w', q) ==> Vouches(w, w, q))
    {
      assert Coherent(w, cfg, q, !Unseen(w, q)) && Vouched(w, q);
      ChangeAt(w, cfg, p, content, q);
    }
    hide Readable, Coherent, Vouched, Vouches, Excluded, Resurrects;
  }

  /** After complete passes only, there is nothing to resurrect. */
  lemma ReadyNeverResurrects(w: World, cfg: Config, p: Path, content: Option<Bytes>)
    requires Ready(w, cfg)
    ensures !Resurrects(w, cfg, p, content)
  {
    assert !Excluded(cfg, p) ==> Vouched(w, p);
  }

  // ---- other devices -------------------------------------------------------------------

  /** A write this device can read; a collection that forgets no path it tracks. */
  predicate Permitted(w: World, cfg: Config, op: Op) {
    match op
    case PutOp(a) => !a.folder && a.hash.Some? && Unseal(cfg.cipher, a.hash.value.content).Some?
    case DeleteOp(_, _, _) => true
    case RenameOp(_, _, _, _) => true
    case CollectOp(_) => forall p <- w.index :: p in w.server.files ==> p in Step(w.server, op).files
    case ForgetOp(_) => forall p <- w.index :: p in w.server.files ==> p in Step(w.server, op).files
  }

  lemma TombstoneIsReadable(s: State, cfg: Config, p: Path, author: string)
    requires Readable(s, cfg) && p in s.files
    ensures Readable(Commit(s, Tombstone(s.files[p], s.counter + 1, author)), cfg)
  {
    assert RowRecorded(s, p) && PlainFile(s, p);
    CommitIsReadable(s, cfg, Tombstone(s.files[p], s.counter + 1, author));
  }

  lemma RenameIsReadable(s: State, cfg: Config, from: Path, to: Path, baseRev: int, author: string)
    requires Readable(s, cfg)
    ensures Readable(Rename(s, from, to, baseRev, author).0, cfg)
  {
    if Rename(s, from, to, baseRev, author).1.Ok? {
      RowOpens(s, cfg, from);
      assert PlainFile(s, from);
      CommitIsReadable(s, cfg, Store.Moved(s, from, to, author));
      TombstoneIsReadable(Commit(s, Store.Moved(s, from, to, author)), cfg, from, author);
    }
  }

  lemma OthersStayReadable(w: World, cfg: Config, op: Op)
    requires Readable(w.server, cfg) && Permitted(w, cfg, op)
    ensures Readable(Step(w.server, op), cfg)
  {
    var s := w.server;
    StepKeepsInv(s, op);
    match op
    case PutOp(a) =>
      if Put(s, a).0 != s {
        hide Readable;
        CommitIsReadable(s, cfg, PutRow(s, a));
      }
    case DeleteOp(p, baseRev, author) =>
      hide Readable;
      if Delete(s, p, baseRev, author).0 != s {
        TombstoneIsReadable(s, cfg, p, author);
      }
    case RenameOp(from, to, baseRev, author) =>
      RenameIsReadable(s, cfg, from, to, baseRev, author);
    case CollectOp(g) =>
      FewerIsReadable(s, Step(s, op), cfg);
    case ForgetOp(cutoff) =>
      FewerIsReadable(s, Step(s, op), cfg);
  }

  lemma OthersStayCoherent(w: World, cfg: Config, op: Op, p: Path)
    requires Inv(w.server) && Permitted(w, cfg, op)
    requires Coherent(w, cfg, p, !Unseen(w, p)) && w.cursor <= w.server.counter
    ensures var w' := Engine.Serve(w, op); Coherent(w', cfg, p, !Unseen(w', p)) && (Vouched(w, p) ==> Vouched(w', p))
  {
    var t := Step(w.server, op);
    StepKeepsInv(w.server, op);
    assert RowRecorded(t, p) && RowRecorded(w.server, p);
    if p in w.index && p in w.server.files {
      StaysListed(w, cfg, op, p);
    }
    if p in t.files {
      ChangeLog.StepChangesRow(w.server, op, p);
      if p in w.server.files {
        StepMovesForward(w.server, op, p);
      }
    }
    hide Inv, Step, Permitted;
  }

  lemma StaysListed(w: World, cfg: Config, op: Op, p: Path)
    requires Permitted(w, cfg, op) && p in w.index && p in w.server.files
    ensures p in Step(w.server, op).files
  {
  }

  lemma OthersStayAble(w: World, cfg: Config, op: Op)
    requires Able(w, cfg) && Permitted(w, cfg, op)
    ensures Able(Engine.Serve(w, op), cfg)
  {
    OthersStayReadable(w, cfg, op);
    StepKeepsRenamesOrdered(w.server, op);
    ChangeLog.CounterGrows(w.server, op);
    forall p | !Excluded(cfg, p)
      ensures Coherent(Engine.Serve(w, op), cfg, p, !Unseen(Engine.Serve(w, op), p))
    {
      assert Coherent(w, cfg, p, !Unseen(w, p));
      OthersStayCoherent(w, cfg, op, p);
    }
    hide Inv, Readable, Excluded, Coherent, Step, Committed, RenameOrdered;
  }

  /** A rename leaves a tombstone in place of its source. */
  lemma MovesComeWithTombstones(s: State, op: Op, p: Path, q: Path)
    requires Inv(s) && p in Step(s, op).files && Step(s, op).files[p].renamedFrom == Some(q) && q in Step(s, op).files
    ensures (p in s.files && s.files[p] == Step(s, op).files[p]) || Step(s, op).files[q].deleted
  {
    if op.RenameOp? {
      OwnPath(s, op.from);
    }
    hide Inv;
  }

  lemma OthersStayAnchored(w: World, cfg: Config, op: Op)
    requires Able(w, cfg) && Anchored(w, cfg) && Permitted(w, cfg, op)
    ensures Anchored(Engine.Serve(w, op), cfg)
  {
    var w' := Engine.Serve(w, op);
    StepKeepsInv(w.server, op);
    forall p, q | !Excluded(cfg, p) && !Excluded(cfg, q) && Unseen(w', p) && w'.server.files[p].renamedFrom == Some(q)
      ensures !Vouches(w', w', q)
    {
      assert Coherent(w, cfg, q, !Unseen(w, q)) && Coherent(w', cfg, q, !Unseen(w', q)) by {
        OthersStayCoherent(w, cfg, op, q);
      }
      if Vouches(w', w', q) {
        MovesComeWithTombstones(w.server, op, p, q);
        NotMovedYet(w, cfg, op, q);
      }
    }
  }

  lemma NotMovedYet(w: World, cfg: Config, op: Op, q: Path)
    requires Inv(w.server) && Coherent(w, cfg, q, !Unseen(w, q)) && Vouches(w, Engine.Serve(w, op), q)
    ensures Vouches(w, w, q)
  {
    StepKeepsInv(w.server, op);
    assert RowRecorded(Step(w.server, op), q);
    if q in w.server.files {
      StepMovesForward(w.server, op, q);
    }
    hide Inv, Step;
  }

  lemma OthersStayReady(w: World, cfg: Config, op: Op)
    requires Ready(w, cfg) && Permitted(w, cfg, op)
    ensures Ready(Engine.Serve(w, op), cfg)
  {
    OthersStayAble(w, cfg, op);
    OthersStayAnchored(w, cfg, op);
    forall p | !Excluded(cfg, p)
      ensures Vouched(Engine.Serve(w, op), p)
    {
      assert Coherent(w, cfg, p, !Unseen(w, p)) && Vouched(w, p);
      OthersStayCoherent(w, cfg, op, p);
    }
    hide Inv, Readable, Excluded, Coherent, Vouched, Step, Committed, RenameOrdered, Anchored;
  }

  // ---- the server moves on under another device ---------------------------------------------

  lemma ForwardStaysCoherent(w: World, t: State, cfg: Config, p: Path)
    requires Inv(w.server) && Inv(t) && Forward(w.server, t) && w.cursor <= w.server.counter
    requires Coherent(w, cfg, p, !Unseen(w, p))
    ensures var w' := w.(server := t); Coherent(w', cfg, p, !Unseen(w', p)) && (Vouched(w, p) ==> Vouched(w', p))
  {
    assert RowRecorded(w.server, p) && RowRecorded(t, p);
    hide Inv;
  }

  /** Whatever another device's pass did to the server, this one is able as before. */
  lemma ForwardStaysAble(w: World, t: State, cfg: Config)
    requires Able(w, cfg) && Forward(w.server, t) && Readable(t, cfg) && RenamesOrdered(t)
    ensures Able(w.(server := t), cfg)
  {
    var w' := w.(server := t);
    forall p | !Excluded(cfg, p)
      ensures Coherent(w', cfg, p, !Unseen(w', p))
    {
      assert Coherent(w, cfg, p, !Unseen(w, p));
      ForwardStaysCoherent(w, t, cfg, p);
    }
    hide Readable, Excluded, Coherent, RenameOrdered;
  }

  /** No file was deleted here before it was ever sent. */
  ghost predicate NoneUnsent(w: World, cfg: Config) {
    forall p | !Excluded(cfg, p) && p in w.index && p !in w.disk :: w.index[p].baseRev > 0
  }

  /** Nor does it lose sight of a file, as long as no deletion here was of an unsent one. */
  lemma ForwardStaysSighted(w: World, t: State, cfg: Config)
    requires w.cursor <= w.server.counter && Forward(w.server, t) && AllSighted(w, cfg) && NoneUnsent(w, cfg)
    ensures AllSighted(w.(server := t), cfg)
  {
    hide Excluded;
    var w' := w.(server := t);
    forall p | !Excluded(cfg, p)
      ensures Sighted(w', p, !Unseen(w', p))
    {
      assert Sighted(w, p, !Unseen(w, p));
    }
  }

  // ---- a crash -------------------------------------------------------------------------------

  /** The app is killed: index, conflicts and cursor are those last written to disk. */
  function Crashed(w: World, saved: World): World {
    w.(index := saved.index, conflicts := saved.conflicts, cursor := saved.cursor)
  }

  /** Since a world was saved, the server has moved forward, and forgotten no path the index of that world tracks. */
  ghost predicate ForwardSince(saved: World, t: State) {
    && saved.server.counter <= t.counter
    && (forall p <- saved.index :: p in saved.server.files ==> p in t.files && SameOrLater(saved.server, t, p))
    && (forall p <- t.files :: (p in saved.server.files && t.files[p] == saved.server.files[p])
                               || t.files[p].seqNo > saved.server.counter)
  }

  ghost predicate SameOrLater(s: State, t: State, p: Path)
    requires p in s.files && p in t.files
  {
    t.files[p] == s.files[p] || (t.files[p].rev > s.files[p].rev && t.files[p].seqNo > s.counter)
  }

  lemma ForwardSinceOn(saved: World, t: State, u: State)
    requires ForwardSince(saved, t) && Forward(t, u)
    ensures ForwardSince(saved, u)
  {
  }

  lemma CollectedSince(saved: World, t: State, op: Op)
    requires ForwardSince(saved, t) && Collects(op)
    requires forall p <- saved.index :: p in t.files ==> p in Step(t, op).files
    ensures ForwardSince(saved, Step(t, op))
  {
  }

  lemma SavedNow(w: World)
    ensures w.server.counter >= 0 ==> ForwardSince(w, w.server)
  {
  }

  /** A clean entry, past any row that would say otherwise, for a file that is no longer as it vouches. */
  predicate MarkLost(w: World, p: Path) {
    && p in w.index && !w.index[p].dirty && !(p in w.disk && w.index[p].plainHash == Some(Sha256(w.disk[p])))
    && (!Unseen(w, p) || (p in w.server.files && w.index[p].baseRev == w.server.files[p].rev))
  }

  /** A file is back on disk whose newer revision went by while it was deleted. */
  predicate Reappeared(w: World, p: Path) {
    && p in w.index && p in w.disk && w.index[p].plainHash.Some?
    && p in w.server.files && !Unseen(w, p) && w.index[p].baseRev != w.server.files[p].rev
  }

  predicate LosesMarks(w: World, cfg: Config) {
    exists p <- w.index :: !Excluded(cfg, p) && (MarkLost(w, p) || Reappeared(w, p))
  }

  /**
   Starting again from an earlier index and cursor, with the later disk and server: the
   next pass has what it needs exactly when no mark was lost with the crash.
   */
  lemma CrashStaysCoherentExactly(w: World, saved: World, cfg: Config)
    requires Inv(saved.server) && Inv(w.server) && saved.cursor <= saved.server.counter
    requires AllCoherent(saved, cfg) && ForwardSince(saved, w.server)
    ensures AllCoherent(Crashed(w, saved), cfg) <==> !LosesMarks(Crashed(w, saved), cfg)
  {
    var c := Crashed(w, saved);
    forall p | !Excluded(cfg, p)
      ensures Coherent(c, cfg, p, !Unseen(c, p)) <==> p !in c.index || !(MarkLost(c, p) || Reappeared(c, p))
    {
      assert Coherent(saved, cfg, p, !Unseen(saved, p));
      CrashAt(w, saved, cfg, p);
    }
    hide Coherent, MarkLost, Reappeared, Inv, Excluded, Unseen, ForwardSince;
    if !LosesMarks(c, cfg) {
      forall p | !Excluded(cfg, p)
        ensures Coherent(c, cfg, p, !Unseen(c, p))
      {
      }
    }
  }

  lemma CrashAt(w: World, saved: World, cfg: Config, p: Path)
    requires Inv(saved.server) && Inv(w.server) && ForwardSince(saved, w.server) && saved.cursor <= saved.server.counter
    requires Coherent(saved, cfg, p, !Unseen(saved, p))
    ensures var c := Crashed(w, saved);
            Coherent(c, cfg, p, !Unseen(c, p)) <==> p !in c.index || !(MarkLost(c, p) || Reappeared(c, p))
  {
    assert RowRecorded(saved.server, p) && RowRecorded(w.server, p);
    hide Inv;
  }

  // ---- a pass killed anywhere ------------------------------------------------------------------

  lemma KilledLosesNothing(w: World, w0: World, cfg: Config, q: Path)
    requires Ready(w0, cfg) && Survives(w0, w, cfg) && !Excluded(cfg, q) && q in w0.index
    ensures var c := Crashed(w, w0); !MarkLost(c, q) && !Reappeared(c, q) && Vouched(c, q)
  {
    hide Readable, Excluded, Anchored, OldMoves;
    assert Coherent(w0, cfg, q, !Unseen(w0, q)) && Vouched(w0, q) && Stands(w0, w, q);
  }

  lemma KilledStaysAnchored(w: World, w0: World, cfg: Config)
    requires Able(w0, cfg) && Anchored(w0, cfg) && Survives(w0, w, cfg) && Inv(w.server)
    ensures Anchored(Crashed(w, w0), cfg)
  {
    var c := Crashed(w, w0);
    forall p, q | !Excluded(cfg, p) && !Excluded(cfg, q) && Unseen(c, p) && c.server.files[p].renamedFrom == Some(q)
      ensures !Vouches(c, c, q)
    {
      assert Coherent(w0, cfg, q, !Unseen(w0, q)) && Unseen(w0, p);
      if Vouches(w0, w, q) {
        VouchedSince(w0, w, cfg, q);
      }
    }
  }

  /** Killed anywhere, a pass can be taken up again from what was saved before it. */
  lemma KilledIsReady(w: World, w0: World, cfg: Config)
    requires Ready(w0, cfg) && Survives(w0, w, cfg) && Able(w, cfg)
    ensures !LosesMarks(Crashed(w, w0), cfg) && Ready(Crashed(w, w0), cfg)
  {
    var c := Crashed(w, w0);
    KilledStaysAnchored(w, w0, cfg);
    ForwardIsSince(w0, w.server, cfg);
    forall q | !Excluded(cfg, q)
      ensures Vouched(c, q) && (q in c.index ==> !MarkLost(c, q) && !Reappeared(c, q))
    {
      if q in w0.index {
        KilledLosesNothing(w, w0, cfg, q);
      }
    }
    hide MarkLost, Reappeared, Vouched, Anchored, Excluded, Coherent, Readable, AllStand, Forward;
    CrashStaysCoherentExactly(w, w0, cfg);
  }

  lemma ForwardIsSince(w: World, t: State, cfg: Config)
    requires Inv(w.server) && Forward(w.server, t)
    ensures ForwardSince(w, t)
  {
    hide Inv;
  }

  // ---- two devices -----------------------------------------------------------------------------

  /** Two devices that agree with the same server hold the same files with the same contents. */
  lemma TwoDevicesAgree(w: World, v: World, cfg: Config, cfg': Config, p: Path)
    requires w.server == v.server && cfg.cipher == cfg'.cipher && !Excluded(cfg, p) && !Excluded(cfg', p)
    requires Agreed(w, cfg) && NoneMissed(w, cfg) && Agreed(v, cfg') && NoneMissed(v, cfg')
    ensures p in w.index <==> p in v.index
    ensures p in w.index ==> p in w.disk && p in v.disk && w.disk[p] == v.disk[p]
  {
    hide Excluded;
    assert Sighted(w, p, true) && Sighted(v, p, true);
    assert p in w.index ==> Settled(w, cfg, p);
    assert p in v.index ==> Settled(v, cfg', p);
  }
}
