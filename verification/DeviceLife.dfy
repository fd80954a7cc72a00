/**
 The life of a device between and during its passes, as the program lives it
 (src/main.ts:738-795, src/sync-engine.ts:285-331, 519-529).
 */
module DeviceLife {
  import opened Content
  import opened Store
  import opened StoreLaws
  import opened Engine
  import opened EngineQuiet
  import opened EnginePass
  import opened EngineWhole
  import opened EngineStill
  import opened EngineKilled
  import opened EngineTrace
  import opened EngineLife
  import opened Device

  datatype Happening =
    | Local(path: Path, content: Option<Bytes>)
    | Others(op: Op)
    | Pass(now: int, stop: Option<nat>)
    | Save
    | Crash

  /** What stands in the way of a happening, as far as this project promises anything after it. */
  predicate Hindered(w: World, saved: World, cfg: Config, h: Happening) {
    match h
    case Local(p, content) => Resurrects(w, cfg, p, content)
    case Others(op) => !Permitted(w, cfg, op) || !Permitted(Crashed(w, saved), cfg, op)
    case Crash => LosesMarks(Crashed(w, saved), cfg)
    case _ => false
  }

  /** What a happening makes of the device and the server. */
  ghost predicate Happened(w: World, saved: World, cfg: Config, h: Happening, w': World) {
    match h
    case Local(p, content) => w' == Change(w, cfg, p, content)
    case Others(op) => w' == Engine.Serve(w, op)
    case Pass(_, stop) => Forward(w.server, w'.server) && Survives(w, w', cfg) && (stop == None ==> Passed(w, w', cfg))
    case Save => w' == w
    case Crash => w' == Crashed(w, saved)
  }

  /** The world in which index and cursor were last written to disk; in the beginning they were. */
  ghost function LastSaved(hs: seq<Happening>, ws: seq<World>, i: nat): World
    requires i <= |hs| && i < |ws|
  {
    if i == 0 then ws[0] else if hs[i - 1].Save? then ws[i - 1] else LastSaved(hs, ws, i - 1)
  }

  /** The worlds of a history, one for each moment: in each a pass may start. */
  ghost predicate LivedThrough(cfg: Config, hs: seq<Happening>, ws: seq<World>) {
    && 0 < |ws| <= |hs| + 1
    && (forall i | 0 <= i < |ws| :: Able(ws[i], cfg))
    && (forall i | 0 <= i < |ws| - 1 :: Stepped(cfg, hs, ws, i))
  }

  ghost predicate Stepped(cfg: Config, hs: seq<Happening>, ws: seq<World>, i: nat)
    requires i < |hs| && i < |ws| - 1
  {
    var saved := LastSaved(hs, ws, i);
    !Hindered(ws[i], saved, cfg, hs[i]) && Happened(ws[i], saved, cfg, hs[i], ws[i + 1])
  }

  lemma LastSavedOn(hs: seq<Happening>, ws: seq<World>, w: World, i: nat)
    requires i <= |hs| && i < |ws|
    ensures LastSaved(hs, ws + [w], i) == LastSaved(hs, ws, i)
  {
  }

  lemma SteppedOn(cfg: Config, hs: seq<Happening>, ws: seq<World>, w: World, i: nat)
    requires i < |hs| && i < |ws| - 1 && Stepped(cfg, hs, ws, i)
    ensures Stepped(cfg, hs, ws + [w], i)
  {
    LastSavedOn(hs, ws, w, i);
    hide Hindered, Happened, LastSaved;
  }

  lemma NewestStep(cfg: Config, hs: seq<Happening>, ws: seq<World>, saved: World, w: World)
    requires 0 < |ws| <= |hs| && saved == LastSaved(hs, ws, |ws| - 1)
    requires !Hindered(ws[|ws| - 1], saved, cfg, hs[|ws| - 1]) && Happened(ws[|ws| - 1], saved, cfg, hs[|ws| - 1], w)
    ensures Stepped(cfg, hs, ws + [w], |ws| - 1)
  {
    LastSavedOn(hs, ws, w, |ws| - 1);
    hide Happened, Hindered, LastSaved;
  }

  lemma StepsOn(cfg: Config, hs: seq<Happening>, ws: seq<World>, saved: World, w: World)
    requires LivedThrough(cfg, hs, ws) && |ws| <= |hs| && saved == LastSaved(hs, ws, |ws| - 1)
    requires !Hindered(ws[|ws| - 1], saved, cfg, hs[|ws| - 1]) && Happened(ws[|ws| - 1], saved, cfg, hs[|ws| - 1], w)
    ensures forall i | 0 <= i < |ws| :: Stepped(cfg, hs, ws + [w], i)
  {
    hide Able, Happened, Hindered, LastSaved, Stepped;
    forall i | 0 <= i < |ws|
      ensures Stepped(cfg, hs, ws + [w], i)
    {
      if i == |ws| - 1 {
        NewestStep(cfg, hs, ws, saved, w);
      } else {
        SteppedOn(cfg, hs, ws, w, i);
      }
    }
  }

  lemma LivedOn(cfg: Config, hs: seq<Happening>, ws: seq<World>, saved: World, w: World)
    requires LivedThrough(cfg, hs, ws) && |ws| <= |hs| && Able(w, cfg) && saved == LastSaved(hs, ws, |ws| - 1)
    requires !Hindered(ws[|ws| - 1], saved, cfg, hs[|ws| - 1]) && Happened(ws[|ws| - 1], saved, cfg, hs[|ws| - 1], w)
    ensures LivedThrough(cfg, hs, ws + [w])
  {
    hide Able, Happened, Hindered, LastSaved, Stepped;
    StepsOn(cfg, hs, ws, saved, w);
  }

  lemma SavedOn(hs: seq<Happening>, ws: seq<World>, saved: World, w: World)
    requires 0 < |ws| <= |hs| && saved == LastSaved(hs, ws, |ws| - 1)
    ensures LastSaved(hs, ws + [w], |ws|) == if hs[|ws| - 1].Save? then ws[|ws| - 1] else saved
  {
    LastSavedOn(hs, ws, w, |ws| - 1);
  }

  // ---- the steps ------------------------------------------------------------------------------

  /** The user writes or removes a file, and the watcher marks it. */
  method ChangeFile(engine: SyncEngine, p: Path, content: Option<Bytes>)
    modifies engine`disk, engine`index
    ensures engine.Now() == Change(old(engine.Now()), engine.cfg, p, content)
  {
    engine.disk := if content.Some? then engine.disk[p := content.value] else engine.disk - {p};
    if !Excluded(engine.cfg, p) && (p in engine.index || p in engine.disk) {
      engine.index :=
        engine.index[p := if p in engine.index then engine.index[p].(dirty := true) else Entry(0, None, None, true)];
    }
  }

  /** Another device's transaction. */
  method ServeOther(engine: SyncEngine, op: Op)
    modifies engine`accepted, engine.server
    ensures engine.Now() == Engine.Serve(old(engine.Now()), op)
  {
    match op {
      case PutOp(args) => var _ := engine.server.PutFile(args);
      case DeleteOp(p, baseRev, author) => var _ := engine.server.DeleteFile(p, baseRev, author);
      case RenameOp(from, to, baseRev, author) => var _ := engine.server.RenameFile(from, to, baseRev, author);
      case CollectOp(g) => engine.server.CollectHistory(g);
      case ForgetOp(cutoff) => engine.server.ForgetDeletedBefore(cutoff);
    }
    engine.accepted := engine.accepted + Committed(engine.server.Snapshot());
  }

  class Living {
    const engine: SyncEngine
    /** What was last written to disk. */
    var index: map<Path, Entry>
    var conflicts: map<Path, Pending>
    var cursor: int
    var deferred: map<Path, File>
    ghost var saved: World

    ghost predicate Valid()
      reads this, engine, engine.server
    {
      && Able(engine.Now(), engine.cfg) && engine.AllPassed()
      && Able(saved, engine.cfg) && ForwardSince(saved, engine.server.Snapshot())
      && saved.index == index && saved.conflicts == conflicts && saved.cursor == cursor && Overtaken(deferred, index)
    }

    constructor (engine: SyncEngine)
      requires Able(engine.Now(), engine.cfg) && engine.AllPassed()
      ensures Valid() && this.engine == engine && saved == engine.Now()
    {
      this.engine := engine;
      index, conflicts, cursor, deferred := engine.index, engine.conflicts, engine.cursor, engine.deferred;
      saved := engine.Now();
      SavedIsNow(engine.Now(), engine.cfg);
    }

    /** Whether something stands in the way; what the server ever accepted does not matter for it. */
    method IsHindered(h: Happening) returns (b: bool)
      requires Valid()
      ensures b == Hindered(engine.Now(), saved, engine.cfg, h)
    {
      var w := World(engine.disk, engine.index, engine.conflicts, engine.cursor, engine.server.Snapshot(), {});
      var s := World(map[], index, conflicts, cursor, EMPTY, {});
      HinderedAnyhow(engine.Now(), w, saved, s, engine.cfg, h);
      b := Hindered(w, s, engine.cfg, h);
    }

    /** One happening, unless something stands in its way. */
    method LiveOne(h: Happening) returns (lived: bool)
      requires Valid()
      modifies this, engine, engine.server
      ensures Valid() && lived == !old(Hindered(engine.Now(), saved, engine.cfg, h))
      ensures if lived then Happened(old(engine.Now()), old(saved), engine.cfg, h, engine.Now())
              else engine.Now() == old(engine.Now())
      ensures saved == if lived && h.Save? then old(engine.Now()) else old(saved)
    {
      hide Able, Hindered, ForwardSince, Passed, Survives, Forward, EditFree, Overtaken, Permitted, Resurrects, LosesMarks;
      ghost var w := engine.Now();
      var b := IsHindered(h);
      if b {
        return false;
      }
      lived := true;
      match h
      case Local(p, content) =>
        LocalIsLived(w, engine.cfg, engine.deferred, p, content, saved);
        ChangeFile(engine, p, content);
      case Others(op) =>
        OtherIsLived(w, saved, engine.cfg, op);
        ServeOther(engine, op);
      case Pass(now, stop) =>
        AbleIsSound(w, engine.cfg);
        var _, _, _ := engine.Sync(now, stop);
        NoneKept(engine.index);
        ForwardSinceOn(saved, w.server, engine.server.Snapshot());
      case Save =>
        index, conflicts, cursor, deferred := engine.index, engine.conflicts, engine.cursor, engine.deferred;
        saved := w;
        SavedIsNow(w, engine.cfg);
      case Crash =>
        CrashIsLived(w, saved, engine.cfg);
        engine.index, engine.conflicts, engine.cursor, engine.deferred := index, conflicts, cursor, deferred;
    }

    /** A whole history, as far as nothing stands in its way. */
    method Live(hs: seq<Happening>) returns (ghost ws: seq<World>, lived: nat)
      requires Valid() && saved == engine.Now()
      modifies this, engine, engine.server
      ensures Valid() && LivedThrough(engine.cfg, hs, ws) && |ws| == lived + 1
      ensures ws[0] == old(engine.Now()) && ws[lived] == engine.Now()
      ensures lived < |hs| ==> Hindered(ws[lived], LastSaved(hs, ws, lived), engine.cfg, hs[lived])
    {
      hide Able, Hindered, Happened, ForwardSince, Overtaken, Stepped;
      ws, lived := [engine.Now()], 0;
      while lived < |hs|
        invariant lived <= |hs| && Valid() && LivedThrough(engine.cfg, hs, ws) && |ws| == lived + 1
        invariant ws[0] == old(engine.Now()) && ws[lived] == engine.Now() && saved == LastSaved(hs, ws, lived)
      {
        ghost var before := saved;
        var ok := LiveOne(hs[lived]);
        if !ok {
          return;
        }
        LivedOn(engine.cfg, hs, ws, before, engine.Now());
        SavedOn(hs, ws, before, engine.Now());
        ws := ws + [engine.Now()];
        lived := lived + 1;
      }
    }
  }

  lemma SavedIsNow(w: World, cfg: Config)
    requires Able(w, cfg)
    ensures ForwardSince(w, w.server)
  {
    SavedNow(w);
  }

  lemma AbleIsSound(w: World, cfg: Config)
    requires Able(w, cfg)
    ensures Inv(w.server)
  {
  }

  lemma NoneKept(index: map<Path, Entry>)
    ensures Overtaken(map[], index)
  {
  }

  lemma HinderedAnyhow(w: World, w': World, saved: World, saved': World, cfg: Config, h: Happening)
    requires w' == w.(accepted := w'.accepted)
    requires saved'.index == saved.index && saved'.conflicts == saved.conflicts && saved'.cursor == saved.cursor
    ensures Hindered(w, saved, cfg, h) == Hindered(w', saved', cfg, h)
  {
    hide Excluded, Step;
    if h.Crash? {
      var c, c' := Crashed(w, saved), Crashed(w', saved');
      assert forall p :: MarkLost(c, p) == MarkLost(c', p) && Reappeared(c, p) == Reappeared(c', p);
      hide MarkLost, Reappeared;
    }
  }

  lemma LocalIsLived(w: World, cfg: Config, kept: map<Path, File>, p: Path, content: Option<Bytes>, saved: World)
    requires Able(w, cfg) && Overtaken(kept, w.index) && !Hindered(w, saved, cfg, Local(p, content))
    ensures Able(Change(w, cfg, p, content), cfg) && Overtaken(kept, Change(w, cfg, p, content).index)
    ensures Change(w, cfg, p, content).server == w.server
  {
    ChangeStaysCoherentExactly(w, cfg, p, content);
    hide Readable, AllCoherent, Excluded;
  }

  lemma OtherIsLived(w: World, saved: World, cfg: Config, op: Op)
    requires Able(w, cfg) && ForwardSince(saved, w.server) && !Hindered(w, saved, cfg, Others(op))
    ensures Able(Engine.Serve(w, op), cfg) && ForwardSince(saved, Engine.Serve(w, op).server)
  {
    OthersStayAble(w, cfg, op);
    AbleIsSound(w, cfg);
    if Collects(op) {
      CollectedSince(saved, w.server, op);
    } else {
      StepForward(w.server, op);
      ForwardSinceOn(saved, w.server, Step(w.server, op));
    }
    hide Able, ForwardSince, Inv, Committed;
  }

  lemma CrashIsLived(w: World, saved: World, cfg: Config)
    requires Able(w, cfg) && Able(saved, cfg) && ForwardSince(saved, w.server) && !Hindered(w, saved, cfg, Crash)
    ensures Able(Crashed(w, saved), cfg)
  {
    CrashStaysCoherentExactly(w, saved, cfg);
    hide AllCoherent, LosesMarks, Readable, RenameOrdered;
  }

  // ---- passes that end, or are killed ---------------------------------------------------------------

  predicate CutOff(hs: seq<Happening>, i: int) {
    0 <= i < |hs| && hs[i].Pass? && hs[i].stop.Some?
  }

  /** The app is only ever killed in a pass or right after it, with what was saved before the pass. */
  predicate Orderly(hs: seq<Happening>) {
    && (forall i | 0 <= i < |hs| - 1 && CutOff(hs, i) :: hs[i + 1].Crash?)
    && (forall i | 0 <= i < |hs| && hs[i].Crash? :: KillAt(hs, i))
  }

  predicate KillAt(hs: seq<Happening>, i: nat)
    requires i < |hs|
  {
    i >= 2 && hs[i - 1].Pass? && hs[i - 2].Save?
  }

  /** Then each moment outside a pass is ready for the next one. */
  lemma {:induction false} OrderlyIsReady(cfg: Config, hs: seq<Happening>, ws: seq<World>, i: nat)
    requires LivedThrough(cfg, hs, ws) && Ready(ws[0], cfg) && Orderly(hs) && i < |ws| && !CutOff(hs, i - 1)
    ensures Ready(ws[i], cfg)
    decreases i, 1
  {
    if i > 0 {
      assert Stepped(cfg, hs, ws, i - 1) && Able(ws[i], cfg);
      if hs[i - 1].Crash? {
        KillCostsNothing(cfg, hs, ws, i - 1);
      } else {
        assert !CutOff(hs, i - 2);
        OrderlyIsReady(cfg, hs, ws, i - 1);
        StepIsReady(ws[i - 1], LastSaved(hs, ws, i - 1), cfg, hs[i - 1], ws[i]);
      }
    }
  }

  /** A kill costs nothing: the pass is taken up again from what was saved before it. */
  lemma {:induction false} KillCostsNothing(cfg: Config, hs: seq<Happening>, ws: seq<World>, i: nat)
    requires LivedThrough(cfg, hs, ws) && Ready(ws[0], cfg) && Orderly(hs) && i < |ws| && i < |hs| && hs[i].Crash?
    ensures var again := Crashed(ws[i], LastSaved(hs, ws, i)); !LosesMarks(again, cfg) && Ready(again, cfg)
    decreases i, 0
  {
    assert KillAt(hs, i) && Stepped(cfg, hs, ws, i - 1) && Stepped(cfg, hs, ws, i - 2) && Able(ws[i], cfg);
    assert !CutOff(hs, i - 3);
    OrderlyIsReady(cfg, hs, ws, i - 2);
    hide Orderly, Ready, Able, Hindered, LosesMarks, Forward, Passed, Survives;
    SavedAt(hs, ws, i);
    KilledIsReady(ws[i], ws[i - 2], cfg);
  }

  lemma SavedAt(hs: seq<Happening>, ws: seq<World>, i: nat)
    requires 2 <= i <= |hs| && i < |ws| && hs[i - 2].Save? && !hs[i - 1].Save?
    ensures LastSaved(hs, ws, i) == ws[i - 2]
  {
  }

  lemma StepIsReady(w: World, saved: World, cfg: Config, h: Happening, w': World)
    requires Ready(w, cfg) && !Hindered(w, saved, cfg, h) && Happened(w, saved, cfg, h, w') && Able(w', cfg)
    requires !h.Crash? && (h.Pass? ==> h.stop == None)
    ensures Ready(w', cfg)
  {
    hide Ready, Able, LosesMarks, Permitted, Forward, Survives, Agreed, NoMoves, Excluded;
    match h
    case Local(p, content) => ChangeStaysReady(w, cfg, p, content);
    case Others(op) => OthersStayReady(w, cfg, op);
    case Pass(_, _) => AgreedIsReady(w', cfg);
    case Save =>
  }

  /** And nothing but another device's operation can stand in the way of what happens next. */
  lemma OrderlyIsNeverHindered(cfg: Config, hs: seq<Happening>, ws: seq<World>)
    requires LivedThrough(cfg, hs, ws) && Ready(ws[0], cfg) && Orderly(hs) && |ws| <= |hs|
    requires Hindered(ws[|ws| - 1], LastSaved(hs, ws, |ws| - 1), cfg, hs[|ws| - 1])
    ensures hs[|ws| - 1].Others?
  {
    var i := |ws| - 1;
    var w, h := ws[i], hs[i];
    if h.Local? {
      assert !CutOff(hs, i - 1);
      OrderlyIsReady(cfg, hs, ws, i);
      ReadyNeverResurrects(w, cfg, h.path, h.content);
    } else if h.Crash? {
      KillCostsNothing(cfg, hs, ws, i);
    }
  }
}
