/**
 The whole pass as its loops carry it: agreement, edits, files without an edit, and rest
 (src/sync-engine.ts:285-331, 518-575, 995-1078).
 */
module EngineWhole {
  import opened Content
  import opened Store
  import opened Engine
  import opened EngineQuiet
  import opened EnginePass
  import opened EngineEdits
  import opened EngineFates
  import opened EngineStill
  import opened EngineKilled

  /** All that a pass needs. */
  ghost predicate Able(w: World, cfg: Config) {
    ServerReady(w, cfg) && AllCoherent(w, cfg)
  }

  ghost predicate OnPull(w0: World, w: World, cfg: Config) {
    && Pulling(w0, w, cfg) && EditsPulled(w0, w, cfg) && FatesPulled(w0, w, cfg) && StillPulled(w0, w, cfg)
    && Survives(w0, w, cfg)
  }

  ghost predicate OnPush(w0: World, w: World, cfg: Config, todo: set<Path>) {
    && Pushing(w0, w, cfg, todo) && EditsPushed(w0, w, cfg) && FatesPushed(w0, w, cfg) && StillPushed(w0, w, cfg)
    && Survives(w0, w, cfg) && NoMoves(w, cfg)
  }

  lemma PassStarts(w0: World, w: World, cfg: Config)
    requires Able(w0, cfg) && w == w0.(conflicts := w.conflicts)
    ensures OnPull(w0, w, cfg)
  {
    PullStarts(w0, w, cfg);
    EditsStart(w0, w, cfg);
    FatesStart(w0, w, cfg);
    StillStarts(w0, w, cfg);
    SurvivesStart(w0, w, cfg);
  }

  lemma PassTurns(w0: World, w: World, cfg: Config, entries: seq<File>, end: int, top: int, last: bool,
                  copy: Path, now: int)
    requires OnPull(w0, w, cfg) && entries != [] && Paging(w, cfg, entries, end, top, last) && Free(w, copy)
    ensures var w' := Turn(w, cfg, entries[0], copy, now);
            OnPull(w0, w', cfg) && Paging(w', cfg, entries[1..], end, top, last)
    ensures !Excluded(cfg, entries[0].path) ==> ApplyRemote(w, cfg, entries[0], copy, now).1 == Status.Done
  {
    var f := entries[0];
    TurnKeepsPulling(w0, w, cfg, entries, end, top, last, copy, now);
    TurnDone(w, cfg, entries, end, copy, now);
    assert f in entries;
    hide Turn, Turned, ApplyRemote, ServerReady, AllCoherent, EditsPulled, FatesPulled, StillPulled, Survives, Converges,
      Excluded, News;
    TurnKeepsEdits(w0, w, cfg, f, copy, now);
    TurnKeepsFates(w0, w, cfg, f, copy, now);
    TurnKeepsStill(w0, w, cfg, f, copy, now);
    TurnSurvives(w0, w, cfg, f, copy, now);
  }

  lemma PassReadsOn(w0: World, w: World, cfg: Config, end: int, top: int, last: bool)
    requires OnPull(w0, w, cfg) && Paging(w, cfg, [], end, top, last)
    ensures var w' := CursorAt(w, end);
            w'.cursor == end && OnPull(w0, w', cfg) && (last ==> ReadThrough(w', cfg))
  {
    PageEnds(w0, w, cfg, end, top, last);
    forall p
      ensures Unseen(w, p) <==> Unseen(CursorAt(w, end), p)
    {
    }
    hide Pulling, Unseen, EditsPulled, FatesPulled, StillPulled, Survives;
    CursorKeepsEdits(w0, w, CursorAt(w, end), cfg);
    CursorKeepsFates(w0, w, CursorAt(w, end), cfg);
    CursorKeepsStill(w0, w, CursorAt(w, end), cfg);
    CursorSurvives(w0, w, CursorAt(w, end), cfg);
  }

  lemma PassPushes(w0: World, w: World, cfg: Config)
    requires OnPull(w0, w, cfg) && ReadThrough(w, cfg)
    ensures var w' := Adopt(w, cfg);
            OnPush(w0, w', cfg, set p | p in w'.index && w'.index[p].dirty && !Excluded(cfg, p))
  {
    PushStarts(w0, w, cfg);
    PullIsOver(w, cfg);
    ReadMovesNothing(w, cfg);
    hide AllSighted, NoneMissed, AllCoherent, AllSeen, ReadThrough, Excluded, Promised, Lined, Queued, Adopt;
    hide EditsPulled, EditsPushed, FatesPulled, FatesPushed, StillPulled, StillPushed, Survives, NoMoves;
    AdoptKeepsEdits(w0, w, cfg);
    AdoptKeepsFates(w0, w, cfg);
    AdoptKeepsStill(w0, w, cfg);
    AdoptSurvives(w0, w, cfg);
  }

  lemma ReadMovesNothing(w: World, cfg: Config)
    requires ReadThrough(w, cfg)
    ensures NoMoves(Adopt(w, cfg), cfg)
  {
    hide Excluded, Settled;
    forall p | !Excluded(cfg, p) && Unseen(Adopt(w, cfg), p)
      ensures w.server.files[p].renamedFrom == None
    {
      assert Unseen(w, p);
    }
  }

  lemma PassGoesOn(w0: World, w: World, cfg: Config, todo: set<Path>, p: Path, copy: Path, now: int)
    requires OnPush(w0, w, cfg, todo) && p in todo && Free(w, copy)
    ensures OnPush(w0, PushOne(w, cfg, p, copy, now).0, cfg, todo - {p})
    ensures PushOne(w, cfg, p, copy, now).1 == Status.Done
  {
    PushGoesOn(w0, w, cfg, todo, p, copy, now);
    hide EditsPushed, FatesPushed, StillPushed, AllSeen, Lined, Queued, AllSighted, NoneMissed, PushOne, Free, Excluded;
    hide Survives, NoMoves;
    PushKeepsEdits(w0, w, cfg, p, copy, now);
    PushKeepsFates(w0, w, cfg, p, copy, now);
    PushKeepsStill(w0, w, cfg, p, copy, now);
    PushSurvives(w0, w, cfg, p, copy, now);
    PushKeepsNoMoves(w, cfg, p, copy, now);
  }

  /** What a pass that was not stopped has brought about. */
  ghost predicate Passed(w0: World, w: World, cfg: Config) {
    && Agreed(w, cfg) && NoMoves(w, cfg)
    && (forall p, c | !Excluded(cfg, p) && Waiting(w0, cfg, p, c, !Unseen(w0, p)) :: Won(w, cfg, p, c))
    && (forall p, c | !Excluded(cfg, p) && Edited(w0, cfg, p, c) :: Ended(w0, w, cfg, p, c))
    && (forall p | !Excluded(cfg, p) :: Fated(w0, w, cfg, p))
    && (AllSighted(w0, cfg) ==> NoneMissed(w, cfg))
    && (AllSighted(w0, cfg) && Tidy(w0, cfg) ==> EditFree(w, cfg))
  }

  lemma PassIsOver(w0: World, w: World, cfg: Config)
    requires OnPush(w0, w, cfg, {})
    ensures Passed(w0, w, cfg)
  {
    PushIsOver(w0, w, cfg);
    EditsEnd(w0, w, cfg);
    hide Waiting, Won, Edited, Ended, Fated, Excluded, AllSeen, Queued, Lined, EditsPushed, FatesPushed, EditFree, Tidy;
    hide Agreed, AllSighted, NoneMissed, AllTracked, Survives, NoMoves;
    FatesEnd(w0, w, cfg);
    if AllSighted(w0, cfg) && Tidy(w0, cfg) {
      TidyEnds(w, cfg);
    }
  }

  // ---- a pass cut off ---------------------------------------------------------------------------------

  /** Wherever a pass stops, the next one may start. */
  lemma StoppedIsAble(w0: World, w: World, cfg: Config)
    requires OnPull(w0, w, cfg)
    ensures Able(Adopt(w, cfg), cfg) && Survives(w0, Adopt(w, cfg), cfg)
    ensures EditFree(w0, cfg) ==> EditFree(Adopt(w, cfg), cfg) && Adopt(w, cfg).server == w0.server
  {
    StoppedIsCoherent(w, cfg);
    AdoptSurvives(w0, w, cfg);
    hide Survives;
    if EditFree(w0, cfg) {
      AdoptIsStill(w, cfg);
    }
  }

  lemma StoppedIsCoherent(w: World, cfg: Config)
    requires Able(w, cfg)
    ensures Able(Adopt(w, cfg), cfg)
  {
    var w' := Adopt(w, cfg);
    hide Readable;
    forall p | !Excluded(cfg, p)
      ensures Coherent(w', cfg, p, !Unseen(w', p))
    {
      assert Coherent(w, cfg, p, !Unseen(w, p));
    }
  }

  lemma PushedIsAble(w0: World, w: World, cfg: Config, todo: set<Path>)
    requires OnPush(w0, w, cfg, todo)
    ensures Able(w, cfg) && Survives(w0, w, cfg) && (EditFree(w0, cfg) ==> EditFree(w, cfg) && w.server == w0.server)
  {
    hide Survives, NoMoves;
    forall p | !Excluded(cfg, p)
      ensures Coherent(w, cfg, p, !Unseen(w, p))
    {
      LessSeen(w, cfg, p);
    }
  }
}
