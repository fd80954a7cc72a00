/**
 Two devices of one vault, passing in turn: they come to hold the same files, and then
 rest (src/sync-engine.ts:279-331).
 */
module TwoDevices {
  import opened Content
  import opened Store
  import opened StoreLaws
  import opened Engine
  import opened EngineQuiet
  import opened EnginePass
  import opened EngineWhole
  import opened EngineStill
  import EngineFates
  import opened EngineTrace
  import opened EngineLife
  import opened Device

  /** Two engines at one server, with the same key. */
  predicate Paired(a: SyncEngine, b: SyncEngine) {
    a != b && a.server == b.server && a.cfg.cipher == b.cfg.cipher
  }

  /** What a device brings to its first pass. */
  ghost predicate Fit(w: World, cfg: Config) {
    Able(w, cfg) && AllSighted(w, cfg) && NoneUnsent(w, cfg)
  }

  /** What a complete pass leaves a fit device in. */
  ghost predicate Synced(w: World, cfg: Config) {
    Able(w, cfg) && Agreed(w, cfg) && NoneMissed(w, cfg)
  }

  ghost predicate Resting(w: World, cfg: Config) {
    Synced(w, cfg) && EditFree(w, cfg)
  }

  /** What both devices sync is the same on both. */
  ghost predicate SameFiles(w: World, v: World, cfg: Config, cfg': Config) {
    forall p | !Excluded(cfg, p) && !Excluded(cfg', p) ::
      (p in w.disk <==> p in v.disk) && (p in w.disk ==> w.disk[p] == v.disk[p])
  }

  // ---- what the other device's pass leaves standing ----------------------------------------

  lemma OtherKeyReads(s: State, cfg: Config, cfg': Config)
    requires Readable(s, cfg) && cfg.cipher == cfg'.cipher
    ensures Readable(s, cfg')
  {
    forall k
      ensures OpensAt(s, cfg', k)
    {
      assert OpensAt(s, cfg, k);
    }
  }

  lemma StillFit(w: World, v: World, cfg: Config, cfg': Config)
    requires Fit(w, cfg) && Able(v, cfg') && cfg.cipher == cfg'.cipher && Forward(w.server, v.server)
    ensures Fit(w.(server := v.server), cfg)
  {
    OtherKeyReads(v.server, cfg', cfg);
    hide AllSighted, AllCoherent, Readable, RenameOrdered, Forward, Excluded;
    ForwardStaysAble(w, v.server, cfg);
    ForwardStaysSighted(w, v.server, cfg);
  }

  lemma SyncedIsFit(w: World, cfg: Config)
    requires Synced(w, cfg)
    ensures Fit(w, cfg) && Tidy(w, cfg)
  {
    hide Able, Excluded;
    forall p | !Excluded(cfg, p)
      ensures Sighted(w, p, !Unseen(w, p))
      ensures p in w.index ==> p in w.disk && EngineFates.Clean(w, p)
    {
      assert Sighted(w, p, true);
      assert p in w.index ==> Settled(w, cfg, p);
    }
  }

  lemma Elsewhere(w: World, t: State, cfg: Config)
    requires Tidy(w, cfg) && Agreed(w, cfg)
    ensures Tidy(w.(server := t), cfg) && (EditFree(w, cfg) ==> EditFree(w.(server := t), cfg))
  {
    hide Excluded;
    forall p | !Excluded(cfg, p) && p in w.index
      ensures EngineFates.Clean(w, p)
    {
      assert Settled(w, cfg, p);
    }
  }

  /** What the next pass of a synced device starts from, after a pass of the other one. */
  lemma HandedOver(w: World, v: World, cfg: Config, cfg': Config)
    requires Synced(w, cfg) && Able(v, cfg') && cfg.cipher == cfg'.cipher && Forward(w.server, v.server)
    ensures var w' := w.(server := v.server);
            Fit(w', cfg) && Tidy(w', cfg) && (EditFree(w, cfg) ==> EditFree(w', cfg))
  {
    SyncedIsFit(w, cfg);
    Elsewhere(w, v.server, cfg);
    hide Able, Agreed, NoneMissed, Tidy, EditFree, Fit, Forward;
    StillFit(w, v, cfg, cfg');
  }

  lemma RestingAgree(w: World, v: World, cfg: Config, cfg': Config)
    requires w.server == v.server && cfg.cipher == cfg'.cipher && Resting(w, cfg) && Resting(v, cfg')
    ensures SameFiles(w, v, cfg, cfg')
  {
    hide Able, Excluded, Agreed, NoneMissed;
    forall p | !Excluded(cfg, p) && !Excluded(cfg', p)
      ensures (p in w.disk <==> p in v.disk) && (p in w.disk ==> w.disk[p] == v.disk[p])
    {
      TwoDevicesAgree(w, v, cfg, cfg', p);
    }
  }

  // ---- the passes ----------------------------------------------------------------------------

  /** A complete pass of a fit device. */
  method PassOnce(a: SyncEngine, now: int)
    requires Fit(a.Now(), a.cfg) && a.AllPassed()
    modifies a`disk, a`index, a`conflicts, a`cursor, a`deferred, a`accepted, a.server
    ensures Synced(a.Now(), a.cfg) && a.deferred == map[] && Forward(old(a.Now()).server, a.Now().server)
    ensures old(Tidy(a.Now(), a.cfg)) ==> EditFree(a.Now(), a.cfg)
    ensures old(EditFree(a.Now(), a.cfg)) ==> EditFree(a.Now(), a.cfg) && a.Now().server == old(a.Now()).server
  {
    ghost var w := a.Now();
    AbleServer(w, a.cfg);
    hide Able, Agreed, NoneMissed, AllSighted, NoneUnsent, Tidy, EditFree, Forward, EngineFates.Fated, Excluded;
    var _, _, _ := a.Sync(now, None);
  }

  lemma AbleServer(w: World, cfg: Config)
    requires Able(w, cfg)
    ensures Inv(w.server)
  {
  }

  /**
   With nobody else writing, two devices that pass in turn are the same after five passes:
   each has synced what it had, each has merged what the other sent, and the first has
   read the second's merges.
   */
  method Converge(a: SyncEngine, b: SyncEngine, now: int)
    requires Paired(a, b) && Fit(a.Now(), a.cfg) && Fit(b.Now(), b.cfg) && a.AllPassed() && b.AllPassed()
    modifies a`disk, a`index, a`conflicts, a`cursor, a`deferred, a`accepted
    modifies b`disk, b`index, b`conflicts, b`cursor, b`deferred, b`accepted, b.server
    ensures Resting(a.Now(), a.cfg) && Resting(b.Now(), b.cfg) && a.AllPassed() && b.AllPassed()
    ensures SameFiles(a.Now(), b.Now(), a.cfg, b.cfg)
  {
    hide Fit, Synced, Tidy, EditFree, Forward, SameFiles, Able;
    ghost var v := b.Now();
    PassOnce(a, now);
    SyncedIsAble(a.Now(), a.cfg);
    StillFit(v, a.Now(), b.cfg, a.cfg);
    ghost var w := a.Now();
    PassOnce(b, now);
    SyncedIsAble(b.Now(), b.cfg);
    HandedOver(w, b.Now(), a.cfg, b.cfg);
    v := b.Now();
    PassOnce(a, now);
    SyncedIsAble(a.Now(), a.cfg);
    HandedOver(v, a.Now(), b.cfg, a.cfg);
    w := a.Now();
    PassOnce(b, now);
    SyncedIsAble(b.Now(), b.cfg);
    HandedOver(w, b.Now(), a.cfg, b.cfg);
    v := b.Now();
    PassOnce(a, now);
    RestingAgree(a.Now(), v, a.cfg, b.cfg);
  }

  /** And from then on a pass of either changes neither the server nor what both sync. */
  method StayInStep(a: SyncEngine, b: SyncEngine, now: int)
    requires Paired(a, b) && Resting(a.Now(), a.cfg) && Resting(b.Now(), b.cfg) && a.AllPassed() && b.AllPassed()
    modifies a`disk, a`index, a`conflicts, a`cursor, a`deferred, a`accepted, a.server
    ensures Resting(a.Now(), a.cfg) && Resting(b.Now(), b.cfg) && a.AllPassed() && b.AllPassed()
    ensures a.Now().server == old(a.Now()).server && b.Now() == old(b.Now())
    ensures SameFiles(a.Now(), old(a.Now()), a.cfg, a.cfg) && SameFiles(a.Now(), b.Now(), a.cfg, b.cfg)
  {
    hide Fit, Synced, Tidy, EditFree, Forward, SameFiles, Able;
    ghost var w, v := a.Now(), b.Now();
    SyncedIsFit(w, a.cfg);
    PassOnce(a, now);
    assert b.Now() == v;
    RestingAgree(a.Now(), w, a.cfg, a.cfg);
    RestingAgree(a.Now(), v, a.cfg, b.cfg);
  }

  lemma SyncedIsAble(w: World, cfg: Config)
    requires Synced(w, cfg)
    ensures Able(w, cfg)
  {
  }
}
