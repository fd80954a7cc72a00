/**
 A pass as the steps it is made of: what they are, and that the server only moves forward
 under them (src/sync-engine.ts:285-331, 518-575, 995-1056).
 */
module EngineTrace {
  import opened Store
  import opened StoreLaws
  import opened Engine
  import opened EngineSafety
  import opened EngineStored
  import ChangeLog

  // ---- what one device did by itself ------------------------------------------------------------

  /** What the engine does in a pass. */
  predicate OfEngine(a: Action) {
    a.Pull? || a.Push? || a.AdoptUnknown? || a.Note?
  }

  /** Entries kept for later were rows once. */
  ghost predicate Logged(w: World, kept: map<Path, File>) {
    forall p <- kept :: WasLogged(w, kept[p])
  }

  /** The world came about from l by what the engine did; from a sound start, each step was allowed. */
  ghost predicate Ran(sound: bool, l: Life, cfg: Config, trace: seq<Action>, w: World, kept: map<Path, File>) {
    && RunLife(l, cfg, trace) == l.(w := w) && (forall a <- trace :: OfEngine(a))
    && (sound ==> LifeOk(l, cfg) && AllAllowed(l, cfg, trace) && LifeOk(l.(w := w), cfg) && Logged(w, kept))
  }

  lemma RanStarts(sound: bool, l: Life, cfg: Config, kept: map<Path, File>)
    requires sound ==> LifeOk(l, cfg) && Logged(l.w, kept)
    ensures Ran(sound, l, cfg, [], l.w, kept)
  {
  }

  lemma RanMore(sound: bool, l: Life, cfg: Config, trace: seq<Action>, w: World, kept: map<Path, File>, a: Action)
    requires Ran(sound, l, cfg, trace, w, kept) && OfEngine(a)
    requires sound ==> Allowed(l.(w := w), a)
    ensures Ran(sound, l, cfg, trace + [a], Act(l.(w := w), cfg, a).w, kept)
  {
    RunLifeOn(l, cfg, trace, a);
    SavedUnchanged(l.(w := w), cfg, a);
    if sound {
      ActIsSafe(l.(w := w), cfg, a);
      ActKeepsWorld(l.(w := w), cfg, a);
    }
    hide LifeOk, Act, Allowed, Lossless;
  }

  /** Fewer entries kept, or one more that was logged. */
  lemma RanKept(sound: bool, l: Life, cfg: Config, trace: seq<Action>, w: World,
                kept: map<Path, File>, kept': map<Path, File>)
    requires Ran(sound, l, cfg, trace, w, kept)
    requires sound ==> forall p <- kept' :: (p in kept && kept'[p] == kept[p]) || WasLogged(w, kept'[p])
    ensures Ran(sound, l, cfg, trace, w, kept')
  {
    hide LifeOk;
  }

  lemma RowsAreLogged(sound: bool, l: Life, cfg: Config, trace: seq<Action>, w: World, kept: map<Path, File>, f: File)
    requires Ran(sound, l, cfg, trace, w, kept) && f.path in w.server.files && w.server.files[f.path] == f
    ensures sound ==> WasLogged(w, f)
  {
    if sound {
      assert RowRecorded(w.server, f.path);
      assert f.hash.Some? ==> (f.path, f.rev, f.hash.value) in Committed(w.server);
    }
  }

  lemma RanIsSafe(sound: bool, l: Life, cfg: Config, trace: seq<Action>, w: World, kept: map<Path, File>)
    requires Ran(sound, l, cfg, trace, w, kept)
    ensures RunLife(l, cfg, trace).w == w && (forall a <- trace :: OfEngine(a))
    ensures sound ==> AllAllowed(l, cfg, trace) && NeverLoses(l, cfg, trace) && Logged(w, kept)
  {
    if sound {
      EveryRunNeverLoses(l, cfg, trace);
    }
  }

  // ---- the server moves forward -------------------------------------------------------------------

  /** Rows stay, and those that changed or came since have a later revision and number. */
  ghost predicate Forward(s: State, t: State) {
    && s.counter <= t.counter
    && (forall p <- s.files ::
          p in t.files && (t.files[p] == s.files[p] || (t.files[p].rev > s.files[p].rev && t.files[p].seqNo > s.counter)))
    && (forall p <- t.files :: p in s.files || t.files[p].seqNo > s.counter)
  }

  lemma ForwardOn(s: State, t: State, u: State)
    requires Forward(s, t) && Forward(t, u)
    ensures Forward(s, u)
  {
  }

  lemma ServedForward(w: World, w': World)
    requires Inv(w.server) && ServedOnce(w, w')
    ensures Inv(w'.server) && Forward(w.server, w'.server)
  {
    if w'.server != w.server {
      var op :| !Collects(op) && w'.server == Step(w.server, op);
      StepKeepsInv(w.server, op);
      StepForward(w.server, op);
    }
  }

  lemma StepForward(s: State, op: Op)
    requires Inv(s) && !Collects(op)
    ensures Forward(s, Step(s, op))
  {
    var t := Step(s, op);
    ChangeLog.CounterGrows(s, op);
    forall p
      ensures p in s.files ==>
                && p in t.files
                && (t.files[p] == s.files[p] || (t.files[p].rev > s.files[p].rev && t.files[p].seqNo > s.counter))
      ensures p in t.files ==> p in s.files || t.files[p].seqNo > s.counter
    {
      StepForwardAt(s, op, p);
    }
    hide Inv, Step;
  }

  lemma StepForwardAt(s: State, op: Op, p: Path)
    requires Inv(s) && !Collects(op)
    ensures var t := Step(s, op);
            && (p in s.files ==>
                  && p in t.files
                  && (t.files[p] == s.files[p] || (t.files[p].rev > s.files[p].rev && t.files[p].seqNo > s.counter)))
            && (p in t.files ==> p in s.files || t.files[p].seqNo > s.counter)
  {
    StaysInLog(s, op, p);
    if p in s.files {
      StepMovesForward(s, op, p);
    }
    if p in Step(s, op).files {
      ChangeLog.StepChangesRow(s, op, p);
    }
    hide Inv, Step;
  }

  lemma StaysInLog(s: State, op: Op, p: Path)
    requires !Collects(op)
    ensures p in s.files ==> p in Step(s, op).files
  {
  }

  lemma ActServes(l: Life, cfg: Config, a: Action)
    requires OfEngine(a)
    ensures ServedOnce(l.w, Act(l, cfg, a).w)
  {
    Unserved(l.w);
    match a
    case Pull(f, copy, now) => ApplyRemoteServes(l.w, cfg, f, copy, now);
    case Push(p, copy, now) => PushServes(l.w, cfg, p, copy, now);
    case _ =>
    hide ServedOnce, ApplyRemote, PushOne, Adopt;
  }

  /** What a device does by itself only moves the server forward. */
  lemma {:induction false} OwnRunForward(l: Life, cfg: Config, trace: seq<Action>)
    requires Inv(l.w.server) && forall a <- trace :: OfEngine(a)
    ensures Inv(RunLife(l, cfg, trace).w.server) && Forward(l.w.server, RunLife(l, cfg, trace).w.server)
    decreases |trace|
  {
    if trace != [] {
      assert trace[0] in trace;
      ActServes(l, cfg, trace[0]);
      hide Act, Inv;
      ServedForward(l.w, Act(l, cfg, trace[0]).w);
      OwnRunForward(Act(l, cfg, trace[0]), cfg, trace[1..]);
      ForwardOn(l.w.server, Act(l, cfg, trace[0]).w.server, RunLife(l, cfg, trace).w.server);
    }
  }
}
