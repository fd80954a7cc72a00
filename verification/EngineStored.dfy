/**
 Where a content that left the disk is kept: in a revision that is still stored, unless
 collection has dropped it by policy (server/internal/store/gc.go:32-82, 103-126).
 */
module EngineStored {
  import opened Content
  import opened Store
  import opened StoreLaws
  import opened Engine
  import opened EngineSafety
  import Diff3

  /** Every revision ever accepted is stored. */
  ghost predicate AllStored(w: World) {
    w.accepted == Committed(w.server)
  }

  /** A stored revision opens to this content. */
  ghost predicate StoredContent(s: State, cfg: Config, c: Bytes) {
    exists k <- s.revisions :: s.revisions[k].hash.Some? && Unseal(cfg.cipher, s.revisions[k].hash.value.content) == Some(c)
  }

  /** As Lossless, with the server's tables in the place of its history. */
  ghost predicate KeptForGood(w: World, w': World, cfg: Config) {
    forall p <- w.disk ::
      || (p in w'.disk && w'.disk[p] == w.disk[p])
      || StoredContent(w'.server, cfg, w.disk[p])
      || OnDisk(w', w.disk[p])
      || exists theirs :: MergedInto(w, w', cfg, p, w.disk[p], theirs)
  }

  lemma StoredIsKept(w: World, w': World, cfg: Config)
    requires Lossless(w, w', cfg) && AllStored(w')
    ensures KeptForGood(w, w', cfg)
  {
    hide MergedInto;
    forall p <- w.disk
      ensures OnServer(w', cfg, w.disk[p]) ==> StoredContent(w'.server, cfg, w.disk[p])
    {
      if OnServer(w', cfg, w.disk[p]) {
        var t :| t in w'.accepted && Unseal(cfg.cipher, t.2.content) == Some(w.disk[p]);
        assert (t.0, t.1) in w'.server.revisions;
      }
    }
  }

  // ---- what one operation of the server drops -------------------------------------------

  /** The revisions collection takes: old and deep ones, and all of an expired tombstone. */
  predicate Drops(s: State, op: Op, k: (Path, int)) {
    match op
    case CollectOp(g) =>
      && !g.dryRun && k in s.revisions && k.0 in s.files
      && var f := s.files[k.0];
         || (k.1 != f.rev && k.1 <= f.rev - g.keepRevisions && s.revisions[k].mtime < g.cutoff)
         || (f.deleted && f.mtime < g.tombCutoff)
    case ForgetOp(cutoff) => k.0 in s.files && s.files[k.0].deleted && s.files[k.0].mtime < cutoff
    case _ => false
  }

  /** A stored revision is gone after an operation exactly when collection takes it; others stay as they are. */
  lemma DropsExactly(s: State, op: Op, k: (Path, int))
    requires Inv(s) && k in s.revisions
    ensures k !in Step(s, op).revisions <==> Drops(s, op, k)
    ensures k in Step(s, op).revisions ==> Step(s, op).revisions[k] == s.revisions[k]
  {
    StepKeepsHistory(s, op, k);
  }

  /** What was accepted before and is missing from the tables now, by path and revision. */
  ghost predicate Missing(w: World, t: (Path, int, Hash)) {
    t in w.accepted && t !in Committed(w.server)
  }

  /** One operation makes exactly the dropped revisions missing. */
  lemma ServeLoses(w: World, op: Op, t: (Path, int, Hash))
    requires ServerOk(w) && Missing(Serve(w, op), t)
    ensures Missing(w, t) || Drops(w.server, op, (t.0, t.1))
  {
    if t in Committed(w.server) {
      DropsExactly(w.server, op, (t.0, t.1));
    }
  }

  // ---- the engine's own steps drop nothing -------------------------------------------------

  /** The server was left alone, or carried out one operation that is no collection. */
  ghost predicate ServedOnce(w: World, w': World) {
    || (w'.server == w.server && w'.accepted == w.accepted)
    || exists op :: !Collects(op) && w'.server == Step(w.server, op) && w'.accepted == w.accepted + Committed(w'.server)
  }

  lemma SendServes(w: World, cfg: Config, p: Path, baseRev: int, plain: Bytes, now: int)
    ensures ServedOnce(w, Send(w, cfg, p, baseRev, plain, now).0)
  {
    var a := SendArgs(cfg, p, baseRev, plain, now);
    assert !Collects(PutOp(a)) && Step(w.server, PutOp(a)) == Put(w.server, a).0;
    hide Put, Committed, Step, SendArgs;
  }

  lemma ReconcileServes(w: World, cfg: Config, p: Path, local: Bytes, serverRev: int, baseRev: int, copy: Path, now: int)
    ensures ServedOnce(w, Reconcile(w, cfg, p, local, serverRev, baseRev, copy, now).0)
  {
    hide ServedOnce, Send, Fetch, Diff3.Merge, Committed, Mergeable, AncestorText;
    Unserved(w);
    var g := Fetch(w, cfg, p, serverRev);
    if g.Got? && Mergeable(local) && Mergeable(g.plain) && AncestorText(w, cfg, p, baseRev).Base? {
      MergeableText(local);
      MergeableText(g.plain);
      var merged := Text(MergedText(cfg, AncestorText(w, cfg, p, baseRev).text, local.text, g.plain.text).text);
      MergedServes(w, cfg, p, serverRev, merged, now);
      hide SendMerged;
    }
  }

  lemma MergeableText(b: Bytes)
    requires Mergeable(b)
    ensures b.Text?
  {
  }

  /** Changes away from the server serve nothing. */
  lemma Unserved(w: World)
    ensures forall v: World :: v.server == w.server && v.accepted == w.accepted ==> ServedOnce(w, v)
  {
  }

  lemma MergedServes(w: World, cfg: Config, p: Path, serverRev: int, merged: Bytes, now: int)
    ensures ServedOnce(w, SendMerged(w, cfg, p, serverRev, merged, now).0)
  {
    var written := w.(disk := w.disk[p := merged]);
    SendServes(written, cfg, p, serverRev, merged, now);
    hide Send, Committed, Step;
  }

  lemma ApplyRemoteServes(w: World, cfg: Config, f: File, copy: Path, now: int)
    ensures ServedOnce(w, ApplyRemote(w, cfg, f, copy, now).0)
  {
    hide ServedOnce, Fetch, Committed, Reconcile, MatchesRemote, Excluded;
    Unserved(w);
    if f.path in w.disk {
      ReconcileServes(w, cfg, f.path, w.disk[f.path], f.rev,
                      if f.path in w.index then w.index[f.path].baseRev else 0, copy, now);
    }
  }

  lemma UploadServes(w: World, cfg: Config, p: Path, local: Bytes, baseRev: int, copy: Path, now: int)
    ensures ServedOnce(w, Upload(w, cfg, p, local, baseRev, copy, now).0)
  {
    var first := Send(w, cfg, p, baseRev, local, now);
    SendServes(w, cfg, p, baseRev, local, now);
    hide ServedOnce, Send, Reconcile;
    if first.1.Conflict? {
      SendServes(w, cfg, p, first.1.serverRev, local, now);
      ReconcileServes(w, cfg, p, local, first.1.serverRev, baseRev, copy, now);
    }
  }

  lemma DeletionServes(w: World, cfg: Config, p: Path, baseRev: int)
    ensures ServedOnce(w, PushDeletion(w, cfg, p, baseRev).0)
  {
    var op := DeleteOp(p, baseRev, cfg.device);
    assert !Collects(op) && Step(w.server, op) == Delete(w.server, p, baseRev, cfg.device).0;
    hide Delete, Committed, Step, FetchCurrent;
  }

  lemma PushServes(w: World, cfg: Config, p: Path, copy: Path, now: int)
    ensures ServedOnce(w, PushOne(w, cfg, p, copy, now).0)
  {
    hide ServedOnce, Upload, PushDeletion;
    Unserved(w);
    if p in w.index {
      DeletionServes(w, cfg, p, w.index[p].baseRev);
      if p in w.disk {
        UploadServes(w, cfg, p, w.disk[p], w.index[p].baseRev, copy, now);
      }
    }
  }

  lemma ServedLoses(w: World, w': World, t: (Path, int, Hash))
    requires ServerOk(w) && ServedOnce(w, w') && Missing(w', t)
    ensures Missing(w, t)
  {
    if w'.server != w.server || w'.accepted != w.accepted {
      var op :| !Collects(op) && w'.server == Step(w.server, op) && w'.accepted == w.accepted + Committed(w'.server);
      if t in Committed(w.server) {
        DropsExactly(w.server, op, (t.0, t.1));
      }
    }
  }

  // ---- every run ----------------------------------------------------------------------------

  function RunLife(l: Life, cfg: Config, actions: seq<Action>): Life
    decreases |actions|
  {
    if actions == [] then l else RunLife(Act(l, cfg, actions[0]), cfg, actions[1..])
  }

  ghost predicate AllAllowed(l: Life, cfg: Config, actions: seq<Action>)
    decreases |actions|
  {
    actions == [] || (Allowed(l, actions[0]) && AllAllowed(Act(l, cfg, actions[0]), cfg, actions[1..]))
  }

  lemma {:induction false} RunLifeOn(l: Life, cfg: Config, actions: seq<Action>, a: Action)
    ensures RunLife(l, cfg, actions + [a]) == Act(RunLife(l, cfg, actions), cfg, a)
    ensures AllAllowed(l, cfg, actions) && Allowed(RunLife(l, cfg, actions), a) ==> AllAllowed(l, cfg, actions + [a])
    decreases |actions|
  {
    hide Act, Allowed;
    if actions == [] {
      assert [a][1..] == [];
      assert actions + [a] == [a];
    } else {
      assert (actions + [a])[1..] == actions[1..] + [a];
      RunLifeOn(Act(l, cfg, actions[0]), cfg, actions[1..], a);
    }
  }

  /** Somewhere along the run another party's collection took this revision. */
  ghost predicate Dropped(l: Life, cfg: Config, actions: seq<Action>, k: (Path, int))
    decreases |actions|
  {
    actions != [] &&
    ((actions[0].Others? && Drops(l.w.server, actions[0].op, k)) || Dropped(Act(l, cfg, actions[0]), cfg, actions[1..], k))
  }

  lemma ActLoses(l: Life, cfg: Config, a: Action, t: (Path, int, Hash))
    requires ServerOk(l.w) && Missing(Act(l, cfg, a).w, t)
    ensures Missing(l.w, t) || (a.Others? && Drops(l.w.server, a.op, (t.0, t.1)))
  {
    hide Committed, Drops, ApplyRemote, PushOne, Inv;
    match a
    case Others(op) => ServeLoses(l.w, op, t);
    case Pull(f, copy, now) =>
      ApplyRemoteServes(l.w, cfg, f, copy, now);
      ServedLoses(l.w, Act(l, cfg, a).w, t);
    case Push(p, copy, now) =>
      PushServes(l.w, cfg, p, copy, now);
      ServedLoses(l.w, Act(l, cfg, a).w, t);
    case _ =>
  }

  /** An accepted revision that the tables no longer have was taken by a collection along the run. */
  lemma {:induction false} GoneOnlyByCollection(l: Life, cfg: Config, actions: seq<Action>, t: (Path, int, Hash))
    requires LifeOk(l, cfg) && AllAllowed(l, cfg, actions)
    requires Missing(RunLife(l, cfg, actions).w, t)
    ensures Missing(l.w, t) || Dropped(l, cfg, actions, (t.0, t.1))
    decreases |actions|
  {
    hide LifeOk, Act, Missing, Drops, Allowed;
    if actions != [] {
      ActIsSafe(l, cfg, actions[0]);
      GoneOnlyByCollection(Act(l, cfg, actions[0]), cfg, actions[1..], t);
      if Missing(Act(l, cfg, actions[0]).w, t) {
        LifeHasServer(l, cfg);
        ActLoses(l, cfg, actions[0], t);
      }
    }
  }

  lemma LifeHasServer(l: Life, cfg: Config)
    requires LifeOk(l, cfg)
    ensures ServerOk(l.w)
  {
  }

  /** No other party collects. */
  predicate Uncollected(actions: seq<Action>) {
    forall a <- actions :: a.Others? ==> !Collects(a.op)
  }

  /** Along a run, every step the user did not take keeps each content on disk, merged, or in a stored revision. */
  ghost predicate AlwaysKept(l: Life, cfg: Config, actions: seq<Action>)
    decreases |actions|
  {
    actions == [] ||
    (Allowed(l, actions[0]) ==>
       && (ByUser(actions[0]) || KeptForGood(l.w, Act(l, cfg, actions[0]).w, cfg))
       && AlwaysKept(Act(l, cfg, actions[0]), cfg, actions[1..]))
  }

  lemma ActStaysStored(l: Life, cfg: Config, a: Action)
    requires LifeOk(l, cfg) && Allowed(l, a) && AllStored(l.w) && (a.Others? ==> !Collects(a.op))
    ensures AllStored(Act(l, cfg, a).w)
  {
    var w' := Act(l, cfg, a).w;
    ActIsSafe(l, cfg, a);
    LifeHasServer(l, cfg);
    LifeHasServer(Act(l, cfg, a), cfg);
    hide LifeOk, Act, Allowed, Inv;
    forall t | t in w'.accepted
      ensures t in Committed(w'.server)
    {
      if Missing(w', t) {
        ActLoses(l, cfg, a, t);
      }
    }
  }

  /**
   Without collection, in every run: whatever an engine step takes off the disk is in a
   revision the server still stores, elsewhere on disk, or merged from its true ancestor.
   */
  lemma {:induction false} EveryRunKeepsForGood(l: Life, cfg: Config, actions: seq<Action>)
    requires LifeOk(l, cfg) && AllStored(l.w) && Uncollected(actions)
    ensures AlwaysKept(l, cfg, actions)
    decreases |actions|
  {
    hide LifeOk, Lossless, KeptForGood, Act, AllStored, Allowed;
    if actions != [] && Allowed(l, actions[0]) {
      assert actions[0] in actions;
      ActIsSafe(l, cfg, actions[0]);
      ActStaysStored(l, cfg, actions[0]);
      if !ByUser(actions[0]) {
        StoredIsKept(l.w, Act(l, cfg, actions[0]).w, cfg);
      }
      EveryRunKeepsForGood(Act(l, cfg, actions[0]), cfg, actions[1..]);
    }
  }
}
