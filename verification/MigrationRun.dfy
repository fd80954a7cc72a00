/**
 The run that encrypts a vault in place, among the requests of other devices
 (src/sync-engine.ts:352-487, server/internal/api/api.go:539-619).

 The predicates say what holds while the readable files are taken in, while everything
 goes up sealed, and while the readable copies are erased.  They hold as long as the
 marker stays with the device that runs; what the run does to the disk is safe anyway.
 */
module MigrationRun {
  import opened Content
  import opened Store
  import opened StoreLaws
  import opened Engine
  import opened EngineQuiet
  import opened Device
  import opened Marker
  import opened Migration
  import opened VaultNames
  import opened EngineSafety
  import opened EngineStored
  import ChangeLog
  import EngineEdits

  /** The live rows of a listing: readable ones in order, sealed ones by local name. */
  ghost predicate ListedAs(s: State, n: Names, readable: seq<File>, hidden: map<Path, File>) {
    && ChangeLog.Ascending(readable)
    && (forall f <- readable :: !Hidden(n, f.path) && IsLive(s, f.path) && s.files[f.path] == f)
    && (forall x | !Hidden(n, x) && IsLive(s, x) :: s.files[x] in readable)
    && (forall p :: p in hidden <==> IsLive(s, n.seal(p)))
    && (forall p <- hidden :: hidden[p] == s.files[n.seal(p)])
  }

  /** A run: the world it starts from, the two configurations, the names, and what it listed. */
  datatype Plan = Plan(
    w0: World, cfg: Config, sealed: Config, names: Names, readable: seq<File>, hidden: map<Path, File>, now: int)

  ghost predicate Sensible(m: Plan) {
    && m.cfg.cipher.Plain? && m.sealed == m.cfg.(cipher := m.sealed.cipher) && Honest(m.names)
    && Inv(m.w0.server) && Canonical(m.names, m.w0.server)
    && ListedAs(m.w0.server, m.names, m.readable, m.hidden)
  }

  // ---- which files stop a run -----------------------------------------------------------

  /** The pull sends a merge of this file, so that its listed revision is no longer the current one. */
  predicate Merges(m: Plan, f: File) {
    !Excluded(m.cfg, f.path) && MergesIn(m.w0, m.cfg, f)
  }

  /** And no row has moved the local file away before. */
  ghost predicate Blocks(m: Plan, f: File) {
    Merges(m, f) && !TakenBy(m.w0, m.cfg, m.readable, f.path)
  }

  /** Ordinary rows, none of them under a sealed name that was deleted. */
  ghost predicate Ordinary(s: State, cfg: Config, n: Names) {
    Readable(s, cfg) && forall x <- s.files :: Hidden(n, x) ==> !s.files[x].deleted
  }

  ghost predicate Promising(m: Plan) {
    Ordinary(m.w0.server, m.cfg, m.names) && RenamesOrdered(m.w0.server)
  }

  // ---- while the readable files are taken in ------------------------------------------------

  ghost predicate Upheld(m: Plan, w: World) {
    && Steady(m.w0.server, w.server, m.names) && StillReadable(m.w0.server, w.server, m.names)
    && (Dated(m.w0.server) && m.now < MAX_INT64 ==> Dated(w.server))
  }

  /** After its turn: the revision has moved on if the file blocks, and stands unless it merged. */
  ghost predicate Stands(m: Plan, w: World, f: File) {
    && IsLive(w.server, f.path)
    && (Blocks(m, f) ==> w.server.files[f.path].rev != f.rev)
    && (!Merges(m, f) ==> w.server.files[f.path].rev == f.rev)
  }

  /** Where nothing stands in the way: the first i files have had their turn. */
  ghost predicate OnCourse(m: Plan, w: World, i: nat) {
    && Ordinary(w.server, m.cfg, m.names)
    && forall j | 0 <= j < i && j < |m.readable| :: Stands(m, w, m.readable[j])
  }

  ghost predicate Waits(m: Plan, w: World, i: nat) {
    forall j | i <= j < |m.readable| :: Awaits(m.w0, w, m.readable[j])
  }

  ghost predicate Pulling(m: Plan, w: World) {
    Upheld(m, w) && SameSealed(m.w0.server, w.server, m.names)
  }

  ghost predicate Taking(m: Plan, w: World, i: nat) {
    && Sensible(m) && i <= |m.readable| && Pulling(m, w) && Waits(m, w, i)
    && (RenamesOrdered(m.w0.server) ==> TakenIn(m.w0, w, m.cfg, m.readable, i))
    && (Promising(m) ==> OnCourse(m, w, i))
  }

  function TakeOne(w: World, cfg: Config, f: File, copy: Path, now: int): (World, Status) {
    if Excluded(cfg, f.path) then (w, Done) else ApplyRemote(w, cfg, f, copy, now)
  }

  /** Other devices' requests, while they cannot write. */
  ghost predicate Thins(w: World, w': World) {
    w' == w.(server := w'.server, accepted := w'.accepted) && Thinned(w.server, w'.server)
  }

  lemma TakingStarts(m: Plan, w: World)
    requires Sensible(m) && Thins(m.w0, w)
    ensures Taking(m, w, 0)
  {
    var s := m.w0.server;
    SteadyStarts(s, m.names);
    hide Inv, Canonical, TakenIn, Steady, StillReadable, SameSealed, Readable, RenamesOrdered, Thinned;
    NoneTakenIn(m.w0, m.cfg, m.readable);
    assert Upheld(m, m.w0);
    forall j | 0 <= j < |m.readable|
      ensures Awaits(m.w0, m.w0, m.readable[j])
    {
      assert m.readable[j] in m.readable;
    }
    assert Taking(m, m.w0, 0);
    TakingThins(m, m.w0, w, 0);
  }

  // ---- what other devices' requests leave alone -------------------------------------------------

  lemma UpheldThins(m: Plan, w: World, w': World)
    requires Upheld(m, w) && Thins(w, w')
    ensures Upheld(m, w')
  {
    hide Inv;
  }

  lemma SteadyThins(s: State, t: State, u: State, n: Names)
    requires Steady(s, t, n) && Thinned(t, u)
    ensures Steady(s, u, n) && (Dated(t) ==> Dated(u))
  {
    hide Inv;
  }

  lemma OrdinaryThins(m: Plan, w: World, w': World)
    requires Ordinary(w.server, m.cfg, m.names) && Thins(w, w')
    ensures Ordinary(w'.server, m.cfg, m.names)
  {
    FewerIsReadable(w.server, w'.server, m.cfg);
    hide Inv, Readable;
  }

  lemma LiveThins(s: State, t: State, x: Path)
    requires Thinned(s, t)
    ensures IsLive(s, x) <==> IsLive(t, x)
    ensures IsLive(s, x) ==> t.files[x] == s.files[x] && forall r :: RevisionHash(s, x, r) == RevisionHash(t, x, r)
  {
    hide Inv;
  }

  lemma WaitsThins(m: Plan, w: World, w': World, i: nat)
    requires Sensible(m) && Waits(m, w, i) && Thins(w, w')
    ensures Waits(m, w', i)
  {
    hide Thinned, Inv, Canonical;
    forall j | i <= j < |m.readable|
      ensures Awaits(m.w0, w', m.readable[j])
    {
      assert m.readable[j] in m.readable && Awaits(m.w0, w, m.readable[j]);
      LiveThins(w.server, w'.server, m.readable[j].path);
    }
  }

  lemma CourseThins(m: Plan, w: World, w': World, i: nat)
    requires OnCourse(m, w, i) && Thins(w, w')
    ensures OnCourse(m, w', i)
  {
    OrdinaryThins(m, w, w');
    hide Ordinary, Thinned, Blocks, Merges;
    forall j | 0 <= j < i && j < |m.readable|
      ensures Stands(m, w', m.readable[j])
    {
      assert Stands(m, w, m.readable[j]);
      LiveThins(w.server, w'.server, m.readable[j].path);
    }
  }

  lemma TakingThins(m: Plan, w: World, w': World, i: nat)
    requires Taking(m, w, i) && Thins(w, w')
    ensures Taking(m, w', i)
  {
    UpheldThins(m, w, w');
    forall x
      ensures IsLive(w.server, x) <==> IsLive(w'.server, x)
      ensures IsLive(w.server, x) ==> w'.server.files[x] == w.server.files[x]
    {
      LiveThins(w.server, w'.server, x);
    }
    WaitsThins(m, w, w', i);
    if Promising(m) {
      CourseThins(m, w, w', i);
    }
    hide OnCourse, Thinned, Upheld, Sensible, RenamesOrdered, Promising, Waits, Brought, LeftBehind, TakenBy;
  }

  // ---- the turn of one readable file ---------------------------------------------------------

  lemma PathsDiffer(m: Plan, i: nat, j: nat)
    requires Sensible(m) && i < |m.readable| && j < |m.readable| && i != j
    ensures m.readable[i].path != m.readable[j].path
  {
    assert m.readable[i] in m.readable && m.readable[j] in m.readable;
    assert if i < j then m.readable[i].seqNo < m.readable[j].seqNo else m.readable[j].seqNo < m.readable[i].seqNo;
  }

  lemma PullingGoesOn(m: Plan, w: World, i: nat, copy: Path)
    requires Taking(m, w, i) && i < |m.readable|
    ensures Pulling(m, TakeOne(w, m.cfg, m.readable[i], copy, m.now).0)
  {
    var f := m.readable[i];
    assert f in m.readable;
    hide ApplyRemote, Steady, StillReadable, SameSealed, Dated, Inv, Canonical, TakenIn, OnCourse, RenamesOrdered;
    if !Excluded(m.cfg, f.path) {
      PullIsSteady(m.w0.server, w, m.cfg, m.names, f, copy, m.now);
    }
  }

  /** Whether a file merges is decided by the start of the run, unless it was moved away since. */
  lemma MergesAsBefore(m: Plan, w: World, f: File)
    requires Awaits(m.w0, w, f) && StillToCome(m.w0, w, m.cfg, m.readable, f.path)
    ensures Blocks(m, f) ==> MergesIn(w, m.cfg, f)
    ensures !Merges(m, f) && !Excluded(m.cfg, f.path) ==> !MergesIn(w, m.cfg, f)
  {
    if SameLocal(m.w0, w, f.path) {
      EngineEdits.SameAncestor(m.w0, w, m.cfg, f.path);
      assert MergesIn(m.w0, m.cfg, f) == MergesIn(w, m.cfg, f) by {
        hide AncestorAt, Mergeable, MergedText, MatchesRemote, Excluded;
      }
    }
    hide MergesIn, TakenBy, Excluded, SameLocal;
  }

  lemma WaitsGoesOn(m: Plan, w: World, i: nat, copy: Path)
    requires Sensible(m) && Inv(w.server) && i < |m.readable| && Waits(m, w, i)
    ensures Waits(m, TakeOne(w, m.cfg, m.readable[i], copy, m.now).0, i + 1)
  {
    hide Sensible, TakeOne, Awaits, Inv;
    forall j | i < j < |m.readable|
      ensures Awaits(m.w0, TakeOne(w, m.cfg, m.readable[i], copy, m.now).0, m.readable[j])
    {
      PathsDiffer(m, i, j);
      CourseElsewhere(m, w, m.readable[i], copy, m.readable[j]);
    }
  }

  lemma CourseGoesOn(m: Plan, w: World, i: nat, copy: Path)
    requires Taking(m, w, i) && i < |m.readable| && Promising(m) && Free(w, copy)
    ensures var r := TakeOne(w, m.cfg, m.readable[i], copy, m.now); r.1 == Done && OnCourse(m, r.0, i + 1)
  {
    var f := m.readable[i];
    assert f in m.readable && Awaits(m.w0, w, f);
    assert StillToCome(m.w0, w, m.cfg, m.readable, f.path);
    MergesAsBefore(m, w, f);
    hide Pulling, TakenIn, Stands, Ordinary, Canonical, ListedAs, TakeOne, Blocks, Merges, MergesIn, StillToCome, Free;
    hide Sensible, Waits;
    CourseHere(m, w, f, copy);
    CourseOthers(m, w, i, copy);
  }

  lemma CourseOthers(m: Plan, w: World, i: nat, copy: Path)
    requires Sensible(m) && i < |m.readable| && OnCourse(m, w, i)
    ensures forall j | 0 <= j < i :: Stands(m, TakeOne(w, m.cfg, m.readable[i], copy, m.now).0, m.readable[j])
  {
    OrdinaryIsSound(w.server, m.cfg, m.names);
    hide Sensible, Ordinary, TakeOne, Stands;
    forall j | 0 <= j < i
      ensures Stands(m, TakeOne(w, m.cfg, m.readable[i], copy, m.now).0, m.readable[j])
    {
      PathsDiffer(m, i, j);
      CourseElsewhere(m, w, m.readable[i], copy, m.readable[j]);
    }
  }

  lemma OrdinaryIsSound(s: State, cfg: Config, n: Names)
    requires Ordinary(s, cfg, n)
    ensures Inv(s)
  {
  }

  lemma CourseHere(m: Plan, w: World, f: File, copy: Path)
    requires Ordinary(w.server, m.cfg, m.names) && Free(w, copy) && !Hidden(m.names, f.path) && !f.deleted
    requires Awaits(m.w0, w, f)
    requires Blocks(m, f) ==> MergesIn(w, m.cfg, f)
    requires !Merges(m, f) && !Excluded(m.cfg, f.path) ==> !MergesIn(w, m.cfg, f)
    ensures var r := TakeOne(w, m.cfg, f, copy, m.now);
            r.1 == Done && Ordinary(r.0.server, m.cfg, m.names) && Stands(m, r.0, f)
  {
    hide MergesIn, TakenBy;
    if !Excluded(m.cfg, f.path) {
      CurrentApplies(w, m.cfg, f, copy, m.now);
      MergesInExactly(w, m.cfg, f, copy, m.now);
      RemoteWrites(w, m.cfg, f, copy, m.now);
      var t := ApplyRemote(w, m.cfg, f, copy, m.now).0.server;
      hide ApplyRemote, Readable;
      if t != w.server {
        var a: PutArgs :| a.path == f.path && a.mtime == m.now && t == Put(w.server, a).0;
        forall x | x != f.path
          ensures x in w.server.files <==> x in t.files
          ensures x in t.files ==> t.files[x] == w.server.files[x]
        {
          PutElsewhere(w.server, a, x);
        }
        hide Put;
      }
    }
  }

  lemma CourseElsewhere(m: Plan, w: World, f: File, copy: Path, g: File)
    requires Inv(w.server) && g.path != f.path
    ensures var w' := TakeOne(w, m.cfg, f, copy, m.now).0;
            && (Stands(m, w, g) ==> Stands(m, w', g)) && (Awaits(m.w0, w, g) ==> Awaits(m.w0, w', g))
  {
    if !Excluded(m.cfg, f.path) {
      RemoteWrites(w, m.cfg, f, copy, m.now);
      EngineEdits.RemoteWrites(w, m.cfg, f, copy, m.now, g.path);
      var w' := ApplyRemote(w, m.cfg, f, copy, m.now).0;
      EngineEdits.WriteLeavesHistory(w, w', f.path, g.path);
      hide ApplyRemote, Inv, Blocks, Merges, EngineEdits.WroteAt;
      if w'.server != w.server {
        var a: PutArgs :| a.path == f.path && a.mtime == m.now && w'.server == Put(w.server, a).0;
        PutElsewhere(w.server, a, g.path);
        hide Put;
      }
    }
  }

  lemma TakingGoesOn(m: Plan, w: World, i: nat, copy: Path)
    requires Taking(m, w, i) && i < |m.readable| && Free(w, copy)
    ensures var r := TakeOne(w, m.cfg, m.readable[i], copy, m.now);
            && Pulling(m, r.0) && (r.1 == Done ==> Taking(m, r.0, i + 1)) && (Promising(m) ==> r.1 == Done)
  {
    var f := m.readable[i];
    PullingGoesOn(m, w, i, copy);
    PullingIsSound(m, w);
    WaitsGoesOn(m, w, i, copy);
    if Promising(m) {
      CourseGoesOn(m, w, i, copy);
    }
    assert Awaits(m.w0, w, f);
    if RenamesOrdered(m.w0.server) {
      if Excluded(m.cfg, f.path) {
        ExcludedTakenIn(m.w0, w, m.cfg, m.readable, i);
      } else if TakeOne(w, m.cfg, f, copy, m.now).1 == Done {
        OneTakenIn(m.w0, w, m.cfg, m.names, m.readable, i, copy, m.now);
      }
    }
    hide Pulling, TakenIn, OnCourse, RenamesOrdered, ApplyRemote, Waits;
  }

  lemma PullingIsSound(m: Plan, w: World)
    requires Pulling(m, w)
    ensures Inv(w.server)
  {
  }

  // ---- while everything on disk goes up sealed --------------------------------------------------

  /** One file goes up under its sealed name, unless it was listed there with this content. */
  function SealPath(w: World, sealed: Config, n: Names, listed: Option<File>, p: Path, now: int): (World, bool)
    requires p in w.disk
  {
    var data := w.disk[p];
    if listed.Some? && MatchesRemote(sealed, data, listed.value.hash) then
      (SetEntry(w, p, Entry(listed.value.rev, listed.value.hash, Some(Sha256(data)), false)), true)
    else
      var a := SendArgs(sealed, n.seal(p), if listed.Some? then listed.value.rev else 0, data, now);
      var r := Put(w.server, a).1;
      if r.Ok? then
        (SetEntry(Serve(w, PutOp(a)), p, Entry(r.file.rev, r.file.hash, Some(Sha256(data)), false)), true)
      else (w, false)
  }

  function ListedAt(m: Plan, p: Path): Option<File> {
    if p in m.hidden then Some(m.hidden[p]) else None
  }

  /** A sealed name is live only where it was live before, or where it belongs to a file on disk. */
  ghost predicate NewFromDisk(w0: World, w: World, sealed: Config, n: Names) {
    forall p | IsLive(w.server, n.seal(p)) :: IsLive(w0.server, n.seal(p)) || (p in w.disk && !Excluded(sealed, p))
  }

  /** Files on disk that may go up, the sealed rows of which are still as listed. */
  ghost predicate Eligible(m: Plan, w: World, todo: set<Path>) {
    forall p <- todo :: p in w.disk && !Excluded(m.sealed, p) && Fresh(w.server, m.names, m.hidden, p)
  }

  /** The pull ended in w1; of what was on disk then, todo is not sealed yet. */
  ghost predicate OnSealing(m: Plan, w1: World, w: World, todo: set<Path>) {
    && Taking(m, w1, |m.readable|) && w.disk == w1.disk && Eligible(m, w, todo)
    && Upheld(m, w) && AllSealed(w, m.sealed, m.names, todo) && NewFromDisk(m.w0, w, m.sealed, m.names)
    && (Promising(m) ==> OnCourse(m, w, |m.readable|))
  }

  lemma SealingStarts(m: Plan, w1: World, w: World)
    requires Taking(m, w1, |m.readable|) && w == w1.(index := w.index)
    ensures OnSealing(m, w1, w, set p | p in w.disk && !Excluded(m.sealed, p))
  {
    FreshAtStart(m, w1);
    NewAtStart(m, w1, w);
    hide NewFromDisk;
    hide Steady, StillReadable, Dated, Inv, Canonical, TakenIn, RenamesOrdered, Excluded, SealedSettled, Fresh, Readable;
  }

  lemma NewAtStart(m: Plan, w1: World, w: World)
    requires Taking(m, w1, |m.readable|) && w.server == w1.server
    ensures NewFromDisk(m.w0, w, m.sealed, m.names)
  {
    forall p
      ensures IsLive(w.server, m.names.seal(p)) ==> IsLive(m.w0.server, m.names.seal(p))
    {
      SealedIsHidden(m.names, p);
    }
    hide Upheld, TakenIn, OnCourse, Waits, Excluded, ListedAs, Inv, Canonical;
  }

  lemma NewThins(m: Plan, w: World, w': World)
    requires NewFromDisk(m.w0, w, m.sealed, m.names) && Thins(w, w')
    ensures NewFromDisk(m.w0, w', m.sealed, m.names)
  {
    forall p
      ensures IsLive(w.server, m.names.seal(p)) <==> IsLive(w'.server, m.names.seal(p))
    {
      LiveThins(w.server, w'.server, m.names.seal(p));
    }
    hide Thinned, Excluded;
  }

  lemma NewSeals(m: Plan, w: World, w': World, p: Path)
    requires Honest(m.names) && NewFromDisk(m.w0, w, m.sealed, m.names) && p in w.disk && !Excluded(m.sealed, p)
    requires Sealed1(w, w', m.names, p)
    ensures NewFromDisk(m.w0, w', m.sealed, m.names)
  {
    hide Excluded;
    forall q | q != p
      ensures IsLive(w'.server, m.names.seal(q)) <==> IsLive(w.server, m.names.seal(q))
    {
      SealedElsewhere(m, w, w', p, q);
    }
    hide Sealed1;
  }

  lemma SealedElsewhere(m: Plan, w: World, w': World, p: Path, q: Path)
    requires Honest(m.names) && Sealed1(w, w', m.names, p) && q != p
    ensures w'.disk == w.disk && (IsLive(w'.server, m.names.seal(q)) <==> IsLive(w.server, m.names.seal(q)))
  {
    if m.names.seal(p) == m.names.seal(q) {
      SealsApart(m.names, p, q);
    }
    if w'.server != w.server {
      var a: PutArgs :| a.path == m.names.seal(p) && w'.server == Put(w.server, a).0;
      PutElsewhere(w.server, a, m.names.seal(q));
      hide Put;
    }
  }

  lemma FreshAtStart(m: Plan, w: World)
    requires Taking(m, w, |m.readable|)
    ensures forall p :: Fresh(w.server, m.names, m.hidden, p)
  {
    var s := m.w0.server;
    assert forall p <- m.hidden :: IsLive(s, m.names.seal(p));
    ListingIsFresh(s, m.names, m.hidden);
    hide Steady, StillReadable, Dated, Inv, Canonical, TakenIn, RenamesOrdered, OnCourse, Fresh, Promising, SameSealed;
    FreshStays(s, w.server, m.names, m.hidden);
  }

  lemma SealingThins(m: Plan, w1: World, w: World, w': World, todo: set<Path>)
    requires OnSealing(m, w1, w, todo) && Thins(w, w')
    ensures OnSealing(m, w1, w', todo)
  {
    UpheldThins(m, w, w');
    if Promising(m) {
      CourseThins(m, w, w', |m.readable|);
    }
    SealedThins(w, w', m.sealed, m.names, todo);
    NewThins(m, w, w');
    hide NewFromDisk, Excluded;
    forall p <- todo
      ensures p in w'.disk && !Excluded(m.sealed, p) && Fresh(w'.server, m.names, m.hidden, p)
    {
      LiveThins(w.server, w'.server, m.names.seal(p));
    }
    hide Upheld, Taking, Thinned, OnCourse, Promising, AllSealed;
  }

  lemma SealedThins(w: World, w': World, sealed: Config, n: Names, todo: set<Path>)
    requires AllSealed(w, sealed, n, todo) && Thins(w, w')
    ensures AllSealed(w', sealed, n, todo)
  {
    forall p | !Excluded(sealed, p) && p in w.disk && p !in todo
      ensures SealedSettled(w', sealed, n, p)
    {
      LiveThins(w.server, w'.server, n.seal(p));
      assert SealedSettled(w, sealed, n, p);
    }
    hide Excluded, Thinned;
  }

  /** What sealing one path does: if it succeeds the path is settled, and nothing else is touched. */
  lemma SealPathSeals(w: World, sealed: Config, n: Names, hidden: map<Path, File>, p: Path, now: int)
    requires Inv(w.server) && Honest(n) && p in w.disk && Fresh(w.server, n, hidden, p)
    ensures var listed := if p in hidden then Some(hidden[p]) else None;
            var r := SealPath(w, sealed, n, listed, p, now);
            && Sealed1(w, r.0, n, p) && (r.1 ==> SealedSettled(r.0, sealed, n, p))
            && (n.seal(p) !in w.server.files || !w.server.files[n.seal(p)].deleted ==> r.1)
  {
    var listed := if p in hidden then Some(hidden[p]) else None;
    if listed.Some? && MatchesRemote(sealed, w.disk[p], listed.value.hash) {
      SealOpens(sealed.cipher, w.disk[p]);
      hide Inv, Seal, Unseal;
    } else {
      SendSeals(w, sealed, n, listed, p, now);
      hide Inv, Put, Committed, SealedSettled, MatchesRemote;
    }
  }

  lemma SendSeals(w: World, sealed: Config, n: Names, listed: Option<File>, p: Path, now: int)
    requires Inv(w.server) && p in w.disk && (listed.Some? <==> IsLive(w.server, n.seal(p)))
    requires listed.Some? ==> listed.value == w.server.files[n.seal(p)]
    ensures var a := SendArgs(sealed, n.seal(p), if listed.Some? then listed.value.rev else 0, w.disk[p], now);
            var r := Put(w.server, a).1;
            && a.path == n.seal(p) && (n.seal(p) !in w.server.files || !w.server.files[n.seal(p)].deleted ==> r.Ok?)
            && (r.Ok? ==> SealedSettled(SetEntry(Serve(w, PutOp(a)), p, Entry(r.file.rev, r.file.hash, Some(Sha256(w.disk[p])), false)),
                                        sealed, n, p))
  {
    var a := SendArgs(sealed, n.seal(p), if listed.Some? then listed.value.rev else 0, w.disk[p], now);
    SealOpens(sealed.cipher, w.disk[p]);
    PutConflictsExactly(w.server, a);
    hide Inv, Committed;
  }

  lemma UpheldSeals(m: Plan, w: World, p: Path)
    requires Sensible(m) && Upheld(m, w) && p in w.disk
    ensures Upheld(m, SealPath(w, m.sealed, m.names, ListedAt(m, p), p, m.now).0)
  {
    var listed := ListedAt(m, p);
    var a := SendArgs(m.sealed, m.names.seal(p), if listed.Some? then listed.value.rev else 0, w.disk[p], m.now);
    SealedIsHidden(m.names, p);
    PutKeepsSteady(m.w0.server, w.server, m.names, a);
    hide Put, Steady, StillReadable, Dated, Inv, Committed, Canonical, ListedAs;
  }

  lemma CourseSeals(m: Plan, w: World, p: Path)
    requires Sensible(m) && OnCourse(m, w, |m.readable|) && p in w.disk
    ensures OnCourse(m, SealPath(w, m.sealed, m.names, ListedAt(m, p), p, m.now).0, |m.readable|)
  {
    var listed := ListedAt(m, p);
    var w' := SealPath(w, m.sealed, m.names, listed, p, m.now).0;
    var a := SendArgs(m.sealed, m.names.seal(p), if listed.Some? then listed.value.rev else 0, w.disk[p], m.now);
    SealedIsHidden(m.names, p);
    OrdinaryPut(m, w, w', a);
    hide Ordinary, Stands, Sensible, Hidden, Put, Committed;
    if w'.server != w.server {
      forall j | 0 <= j < |m.readable|
        ensures Stands(m, w', m.readable[j])
      {
        ListedIsReadable(m, j);
        StandsElsewhere(m, w, w', a, m.readable[j]);
      }
    }
  }

  lemma OrdinaryPut(m: Plan, w: World, w': World, a: PutArgs)
    requires Ordinary(w.server, m.cfg, m.names) && m.cfg.cipher.Plain? && !a.folder && a.hash.Some?
    requires w'.server == w.server || w'.server == Put(w.server, a).0
    ensures Ordinary(w'.server, m.cfg, m.names)
  {
    hide Readable;
    if w'.server != w.server {
      CommitIsReadable(w.server, m.cfg, PutRow(w.server, a));
    }
  }

  lemma StandsElsewhere(m: Plan, w: World, w': World, a: PutArgs, f: File)
    requires Stands(m, w, f) && a.path != f.path && w'.server == Put(w.server, a).0
    ensures Stands(m, w', f)
  {
    PutElsewhere(w.server, a, f.path);
    hide Blocks, Merges;
  }

  lemma SealingGoesOn(m: Plan, w1: World, w: World, todo: set<Path>, p: Path)
    requires OnSealing(m, w1, w, todo) && p in todo && p in w.disk
    ensures var r := SealPath(w, m.sealed, m.names, ListedAt(m, p), p, m.now);
            && Upheld(m, r.0) && (r.1 ==> OnSealing(m, w1, r.0, todo - {p})) && (Promising(m) ==> r.1)
  {
    var r := SealPath(w, m.sealed, m.names, ListedAt(m, p), p, m.now);
    hide SealPath, Steady, StillReadable, Dated, Inv, Canonical, Excluded, SealedSettled, Fresh, Sealed1, ListedAs, Pulling;
    hide OnCourse, Ordinary, RenamesOrdered, AllSealed, NewFromDisk, Waits, TakenIn;
    assert p in w.disk && Fresh(w.server, m.names, m.hidden, p);
    hide Eligible;
    UpheldSeals(m, w, p);
    SealsOne(m, w, p);
    if r.1 {
      SealingRest(m, w, r.0, todo, p);
    }
  }

  lemma SealsOne(m: Plan, w: World, p: Path)
    requires Sensible(m) && Upheld(m, w) && p in w.disk && Fresh(w.server, m.names, m.hidden, p)
    requires Promising(m) ==> OnCourse(m, w, |m.readable|)
    ensures var r := SealPath(w, m.sealed, m.names, ListedAt(m, p), p, m.now);
            && Sealed1(w, r.0, m.names, p) && (r.1 ==> SealedSettled(r.0, m.sealed, m.names, p))
            && (Promising(m) ==> r.1 && OnCourse(m, r.0, |m.readable|))
  {
    SteadyIsSound(m.w0.server, w.server, m.names);
    hide Inv, Canonical, ListedAs, RenamesOrdered, Readable, Sealed1, SealedSettled, Fresh, Upheld, SealPath;
    SealPathSeals(w, m.sealed, m.names, m.hidden, p, m.now);
    if Promising(m) {
      CourseSeals(m, w, p);
      SealedIsHidden(m.names, p);
    }
  }

  /** Once p is sealed, the others are as far as they were. */
  lemma SealingRest(m: Plan, w: World, w': World, todo: set<Path>, p: Path)
    requires Honest(m.names) && Sealed1(w, w', m.names, p) && SealedSettled(w', m.sealed, m.names, p)
    requires AllSealed(w, m.sealed, m.names, todo) && NewFromDisk(m.w0, w, m.sealed, m.names)
    requires p in todo && Eligible(m, w, todo)
    ensures w'.disk == w.disk && AllSealed(w', m.sealed, m.names, todo - {p}) && NewFromDisk(m.w0, w', m.sealed, m.names)
    ensures Eligible(m, w', todo - {p})
  {
    DiskSealed(w, w', m.names, p);
    hide Sealed1, SealedSettled, AllSealed, Fresh, NewFromDisk, Excluded;
    SealingKeepsRest(w, w', m.sealed, m.names, p, todo, m.hidden);
    NewSeals(m, w, w', p);
  }

  lemma DiskSealed(w: World, w': World, n: Names, p: Path)
    requires Sealed1(w, w', n, p)
    ensures w'.disk == w.disk
  {
  }

  // ---- while the readable copies are erased --------------------------------------------------------

  /** Everything that was on disk when the pull ended in w1 is sealed. */
  ghost predicate Secured(m: Plan, w1: World, w: World) {
    && Taking(m, w1, |m.readable|) && w.disk == w1.disk
    && Steady(m.w0.server, w.server, m.names) && AllSealed(w, m.sealed, m.names, {})
    && NewFromDisk(m.w0, w, m.sealed, m.names)
  }

  /** And of the listed files the first i are erased. */
  ghost predicate OnErasing(m: Plan, w1: World, w: World, i: nat) {
    && Secured(m, w1, w) && i <= |m.readable|
    && (Dated(m.w0.server) && m.now < MAX_INT64 ==> Dated(w.server))
    && (forall x | !Hidden(m.names, x) && IsLive(w.server, x) :: Listed(m.readable, i, x))
    && (i == 0 && m.readable != [] ==> IsLive(w.server, m.readable[0].path))
    && (Promising(m) ==> Unblocked(m, i) && Standing(m, w, i))
  }

  ghost predicate Unblocked(m: Plan, i: nat) {
    forall j | 0 <= j < i && j < |m.readable| :: !Blocks(m, m.readable[j])
  }

  ghost predicate Standing(m: Plan, w: World, i: nat) {
    forall j | i <= j < |m.readable| :: Stands(m, w, m.readable[j])
  }

  lemma ErasingStarts(m: Plan, w1: World, w: World)
    requires OnSealing(m, w1, w, {})
    ensures OnErasing(m, w1, w, 0)
  {
    ReadableIsListed(m.w0.server, w.server, m.names, m.readable);
    FirstIsLive(m.w0.server, w.server, m.names, m.readable);
    hide Steady, StillReadable, Dated, Inv, Canonical, AllSealed, TakenIn, RenamesOrdered, Readable, Stands, Awaits, Listed;
  }

  lemma ErasingThins(m: Plan, w1: World, w: World, w': World, i: nat)
    requires OnErasing(m, w1, w, i) && Thins(w, w')
    ensures OnErasing(m, w1, w', i)
  {
    SteadyThins(m.w0.server, w.server, w'.server, m.names);
    SealedThins(w, w', m.sealed, m.names, {});
    forall x
      ensures IsLive(w.server, x) <==> IsLive(w'.server, x)
      ensures IsLive(w.server, x) ==> w'.server.files[x] == w.server.files[x]
    {
      LiveThins(w.server, w'.server, x);
    }
    hide Taking, Steady, Dated, AllSealed, Thinned, Promising, Blocks, Merges, Listed;
  }

  /** Erasing the next file: it succeeds when the file did not merge, and not when it blocks. */
  lemma ErasingGoesOn(m: Plan, w1: World, w: World, w': World, i: nat)
    requires OnErasing(m, w1, w, i) && i < |m.readable|
    requires var f := m.readable[i]; w' == w.(server := Delete(w.server, f.path, f.rev, m.cfg.device).0)
    ensures var f := m.readable[i];
            var r := Delete(w.server, f.path, f.rev, m.cfg.device).1;
            && Secured(m, w1, w')
            && (r.Ok? ==> OnErasing(m, w1, w', i + 1)) && (Promising(m) && !Merges(m, f) ==> r.Ok?)
  {
    var f := m.readable[i];
    ListedIsReadable(m, i);
    assert Sensible(m);
    hide Delete, Steady, Dated, AllSealed, Promising, Standing, Unblocked, Merges, Listed, Hidden, IsLive, Taking, Sensible;
    hide NewFromDisk;
    ErasesOne(m, w, w', i);
    if Promising(m) {
      OthersStand(m, w, w', i);
    }
  }

  lemma ErasesOne(m: Plan, w: World, w': World, i: nat)
    requires Sensible(m) && i < |m.readable| && Steady(m.w0.server, w.server, m.names) && AllSealed(w, m.sealed, m.names, {})
    requires NewFromDisk(m.w0, w, m.sealed, m.names)
    requires forall x | !Hidden(m.names, x) && IsLive(w.server, x) :: Listed(m.readable, i, x)
    requires var f := m.readable[i]; w' == w.(server := Delete(w.server, f.path, f.rev, m.cfg.device).0)
    ensures Inv(w.server) && Steady(m.w0.server, w'.server, m.names) && AllSealed(w', m.sealed, m.names, {})
    ensures NewFromDisk(m.w0, w', m.sealed, m.names)
    ensures Dated(w.server) ==> Dated(w'.server)
    ensures var f := m.readable[i];
            Delete(w.server, f.path, f.rev, m.cfg.device).1.Ok? ==>
              forall x | !Hidden(m.names, x) && IsLive(w'.server, x) :: Listed(m.readable, i + 1, x)
  {
    var f := m.readable[i];
    ListedIsReadable(m, i);
    hide Delete, Steady, Dated, Inv, AllSealed, Listed, Hidden, IsLive, Sensible;
    SteadyIsSound(m.w0.server, w.server, m.names);
    EraseKeepsSteady(m.w0.server, w.server, m.names, f.path, f.rev, m.cfg.device);
    EraseKeepsAll(w, w', m.sealed, m.names, f.path, f.rev, m.cfg.device);
    NewErased(m, w, w', f.path);
    forall x | !Hidden(m.names, x) && IsLive(w'.server, x)
      ensures Delete(w.server, f.path, f.rev, m.cfg.device).1.Ok? ==> Listed(m.readable, i + 1, x)
    {
      if x != f.path {
        ListedLater(m.readable, i, x);
      }
    }
  }

  lemma NewErased(m: Plan, w: World, w': World, x: Path)
    requires NewFromDisk(m.w0, w, m.sealed, m.names) && w' == w.(server := w'.server)
    requires forall y | y != x && IsLive(w'.server, y) :: IsLive(w.server, y)
    requires Honest(m.names) && !Hidden(m.names, x)
    ensures NewFromDisk(m.w0, w', m.sealed, m.names)
  {
    forall p | IsLive(w'.server, m.names.seal(p))
      ensures IsLive(w.server, m.names.seal(p))
    {
      SealedIsHidden(m.names, p);
    }
    hide Excluded;
  }

  lemma ListedIsReadable(m: Plan, i: nat)
    requires Sensible(m) && i < |m.readable|
    ensures Honest(m.names) && !Hidden(m.names, m.readable[i].path)
  {
    assert m.readable[i] in m.readable;
  }

  lemma OthersStand(m: Plan, w: World, w': World, i: nat)
    requires Sensible(m) && Inv(w.server) && i < |m.readable| && Unblocked(m, i) && Standing(m, w, i)
    requires var f := m.readable[i]; w' == w.(server := Delete(w.server, f.path, f.rev, m.cfg.device).0)
    ensures Standing(m, w', i + 1)
    ensures var f := m.readable[i];
            var r := Delete(w.server, f.path, f.rev, m.cfg.device).1;
            (r.Ok? ==> Unblocked(m, i + 1)) && (!Merges(m, f) ==> r.Ok?)
  {
    var f := m.readable[i];
    assert Stands(m, w, f);
    hide Sensible, Blocks, Merges;
    forall j | i < j < |m.readable|
      ensures Stands(m, w', m.readable[j])
    {
      PathsDiffer(m, i, j);
      DeleteElsewhere(w.server, f.path, f.rev, m.cfg.device, m.readable[j].path);
      assert Stands(m, w, m.readable[j]);
      hide Delete, Inv;
    }
    hide Inv;
  }

  // ---- wherever the run ends ---------------------------------------------------------------------------

  /** No sealed file is lost, and a readable one only to a sealed one, unless the pull had to leave it behind. */
  ghost predicate Safe(w0: World, w: World, cfg: Config, sealed: Config, n: Names) {
    && Canonical(n, w.server) && SealedStay(w0.server, w.server, n)
    && DiskOnlySealed(w0.server, w, sealed, n)
    && (RenamesOrdered(w0.server) ==> ErasedOnlySealed(w0, w, sealed, cfg, n))
  }

  /** A sealed name is live exactly where it was before, or where it belongs to a file on disk that is not excluded. */
  ghost predicate SealedExactly(w0: World, w: World, sealed: Config, n: Names) {
    forall p :: IsLive(w.server, n.seal(p)) <==> IsLive(w0.server, n.seal(p)) || (p in w.disk && !Excluded(sealed, p))
  }

  /** The cursor moves when the run has ended by itself, and to the newest number there is. */
  predicate CursorKept(before: int, after: int, counter: int, end: Ending) {
    before >= 0 ==> after == before || (end.Finished? && after == counter)
  }

  /** A run that ended by itself. */
  ghost predicate Complete(w0: World, w: World, cfg: Config, sealed: Config, n: Names, now: int) {
    && AllSealed(w, sealed, n, {}) && SealedExactly(w0, w, sealed, n)
    && w.index.Keys <= w.disk.Keys && Purged(w.server, n)
    && (RenamesOrdered(w0.server) ==> SealedOrLeft(w0, w, sealed, cfg, n))
    && (SomeReadable(w0.server, n) ==> w.cursor >= w.server.counter)
    && (Dated(w0.server) && now < MAX_INT64 ==> AllHidden(w.server, n))
  }

  lemma UpheldIsSafe(m: Plan, w: World)
    requires Upheld(m, w)
    ensures Safe(m.w0, w, m.cfg, m.sealed, m.names)
  {
    NothingErased(m.w0, w, m.sealed, m.cfg, m.names);
    SteadyIsSound(m.w0.server, w.server, m.names);
    hide Inv, Canonical, SealedStay, NoNewReadable, DiskOnlySealed, ErasedOnlySealed, RenamesOrdered, StillReadable, Dated;
  }

  lemma SealedIsSafe(m: Plan, w1: World, w: World)
    requires Taking(m, w1, |m.readable|) && w.disk == w1.disk
    requires Steady(m.w0.server, w.server, m.names) && AllSealed(w, m.sealed, m.names, {})
    ensures Safe(m.w0, w, m.cfg, m.sealed, m.names)
    ensures RenamesOrdered(m.w0.server) ==> SealedOrLeft(m.w0, w, m.sealed, m.cfg, m.names)
  {
    SealedIsEnough(m.w0.server, w, m.sealed, m.names);
    assert forall x | !Hidden(m.names, x) && IsLive(m.w0.server, x) :: m.w0.server.files[x] in m.readable;
    if RenamesOrdered(m.w0.server) {
      EverythingSealed(m.w0, w1, w, m.sealed, m.cfg, m.names, m.readable);
      hide Excluded, SealedSettled, LeftBehind, RenamesOrdered;
    }
    hide Inv, Canonical, SealedStay, NoNewReadable, DiskOnlySealed, RenamesOrdered, StillReadable, Dated;
  }

  // ---- what the run did to the disk ----------------------------------------------------------------

  /** Requests of others, and entries of readable files that were listed live. */
  predicate TakesIn(a: Action, n: Names) {
    a.Others? || (a.Pull? && !a.f.deleted && !Hidden(n, a.f.path))
  }

  /** The world came about from l by such actions, each of them allowed. */
  ghost predicate Told(l: Life, cfg: Config, n: Names, readable: seq<File>, trace: seq<Action>, w: World) {
    && RunLife(l, cfg, trace).w == w && (forall a <- trace :: TakesIn(a, n) && (a.Pull? ==> a.f in readable))
    && (LifeOk(l, cfg) ==>
          && AllAllowed(l, cfg, trace) && LifeOk(RunLife(l, cfg, trace), cfg)
          && forall f <- readable :: WasLogged(w, f))
  }

  function ServeAll(w: World, ops: seq<Op>): World {
    if ops == [] then w else Engine.Serve(ServeAll(w, ops[..|ops| - 1]), ops[|ops| - 1])
  }

  lemma ToldMore(l: Life, cfg: Config, n: Names, readable: seq<File>, trace: seq<Action>, w: World, a: Action)
    requires Told(l, cfg, n, readable, trace, w) && TakesIn(a, n) && (a.Pull? ==> a.f in readable)
    requires LifeOk(l, cfg) ==> Allowed(RunLife(l, cfg, trace), a)
    requires w.accepted <= Act(RunLife(l, cfg, trace), cfg, a).w.accepted
    ensures Told(l, cfg, n, readable, trace + [a], Act(RunLife(l, cfg, trace), cfg, a).w)
  {
    RunLifeOn(l, cfg, trace, a);
    hide LifeOk, Act, Allowed;
    if LifeOk(l, cfg) {
      ActIsSafe(RunLife(l, cfg, trace), cfg, a);
    }
  }

  function Heard(ops: seq<Op>): seq<Action> {
    if ops == [] then [] else Heard(ops[..|ops| - 1]) + [Others(ops[|ops| - 1])]
  }

  lemma ToldServe(l: Life, cfg: Config, n: Names, readable: seq<File>, trace: seq<Action>, w: World, op: Op)
    requires Told(l, cfg, n, readable, trace, w)
    ensures Told(l, cfg, n, readable, trace + [Others(op)], Engine.Serve(w, op))
  {
    hide LifeOk, Committed;
    ToldMore(l, cfg, n, readable, trace, w, Others(op));
  }

  lemma {:induction false} ToldHears(l: Life, cfg: Config, n: Names, readable: seq<File>, trace: seq<Action>, w: World,
                                     ops: seq<Op>)
    requires Told(l, cfg, n, readable, trace, w)
    ensures Told(l, cfg, n, readable, trace + Heard(ops), ServeAll(w, ops))
    decreases |ops|
  {
    hide Told, Engine.Serve;
    if ops == [] {
      assert trace + Heard(ops) == trace;
    } else {
      var front, op := ops[..|ops| - 1], ops[|ops| - 1];
      ToldHears(l, cfg, n, readable, trace, w, front);
      ToldServe(l, cfg, n, readable, trace + Heard(front), ServeAll(w, front), op);
      assert trace + Heard(front) + [Others(op)] == trace + Heard(ops);
    }
  }

  lemma ToldPull(l: Life, cfg: Config, n: Names, readable: seq<File>, trace: seq<Action>, w: World, f: File, copy: Path, now: int)
    requires Told(l, cfg, n, readable, trace, w) && f in readable && !f.deleted && !Hidden(n, f.path) && Free(w, copy)
    ensures Told(l, cfg, n, readable, trace + [EngineSafety.Pull(f, copy, now)], ApplyRemote(w, cfg, f, copy, now).0)
  {
    ApplyRemoteServes(w, cfg, f, copy, now);
    hide LifeOk, ApplyRemote, Committed;
    ToldMore(l, cfg, n, readable, trace, w, EngineSafety.Pull(f, copy, now));
  }

  /** A listing reads rows that the server has recorded. */
  lemma ToldListing(l: Life, cfg: Config, n: Names, trace: seq<Action>, w: World, readable: seq<File>)
    requires Told(l, cfg, n, [], trace, w)
    requires forall f <- readable :: IsLive(w.server, f.path) && w.server.files[f.path] == f
    ensures Told(l, cfg, n, readable, trace, w)
  {
    if LifeOk(l, cfg) {
      forall f <- readable
        ensures WasLogged(w, f)
      {
        assert RowRecorded(w.server, f.path);
        assert f.hash.Some? ==> (f.path, f.rev, f.hash.value) in Committed(w.server);
      }
    }
  }

  /** Every pull is of a row the server had when the run began. */
  ghost predicate OfStart(s: State, trace: seq<Action>) {
    forall a <- trace :: a.Pull? ==> IsLive(s, a.f.path) && s.files[a.f.path] == a.f
  }

  lemma ToldOfStart(m: Plan, l: Life, trace: seq<Action>, w: World)
    requires Sensible(m) && Told(l, m.cfg, m.names, m.readable, trace, w)
    ensures OfStart(m.w0.server, trace)
  {
    hide LifeOk, Canonical, Inv;
  }

  lemma ToldStarts(l: Life, cfg: Config, n: Names)
    ensures Told(l, cfg, n, [], [], l.w)
  {
  }

  lemma ServeAllOn(w: World, ops: seq<Op>, op: Op)
    ensures ServeAll(w, ops + [op]) == Engine.Serve(ServeAll(w, ops), op)
  {
    assert (ops + [op])[..|ops|] == ops;
  }

  lemma RemoteKeepsInv(w: World, cfg: Config, f: File, copy: Path, now: int)
    requires Inv(w.server)
    ensures Inv(ApplyRemote(w, cfg, f, copy, now).0.server)
  {
    RemoteWrites(w, cfg, f, copy, now);
    var t := ApplyRemote(w, cfg, f, copy, now).0.server;
    hide ApplyRemote, Inv;
    if t != w.server {
      var a: PutArgs :| a.path == f.path && a.mtime == now && t == Put(w.server, a).0;
      StepKeepsInv(w.server, PutOp(a));
    }
  }

  lemma SealKeepsInv(w: World, sealed: Config, n: Names, listed: Option<File>, p: Path, now: int)
    requires Inv(w.server) && p in w.disk
    ensures Inv(SealPath(w, sealed, n, listed, p, now).0.server)
  {
    var a := SendArgs(sealed, n.seal(p), if listed.Some? then listed.value.rev else 0, w.disk[p], now);
    StepKeepsInv(w.server, PutOp(a));
    hide Inv, Put, Committed;
  }

  // ---- the last steps ----------------------------------------------------------------------------------

  /** No readable name but behind tombstones that no purge reaches. */
  ghost predicate Purged(s: State, n: Names) {
    forall x <- s.files :: !Hidden(n, x) ==> s.files[x].deleted && s.files[x].mtime >= MAX_INT64
  }

  ghost predicate AllHidden(s: State, n: Names) {
    (forall x <- s.files :: Hidden(n, x)) && forall k <- s.revisions :: Hidden(n, k.0)
  }

  lemma SecuredThins(m: Plan, w1: World, w: World, w': World)
    requires Secured(m, w1, w) && Thins(w, w')
    ensures Secured(m, w1, w') && (Purged(w.server, m.names) ==> Purged(w'.server, m.names))
    ensures AllHidden(w.server, m.names) ==> AllHidden(w'.server, m.names)
  {
    SteadyThins(m.w0.server, w.server, w'.server, m.names);
    SealedThins(w, w', m.sealed, m.names, {});
    hide Taking, Steady, AllSealed, Inv;
  }

  /** The purge of a vault whose readable copies are erased. */
  lemma SecuredPurged(m: Plan, w1: World, w: World, w': World)
    requires OnErasing(m, w1, w, |m.readable|) && w' == w.(server := ForgetAll(w.server))
    ensures Secured(m, w1, w') && Purged(w'.server, m.names) && w'.server.counter == w.server.counter
    ensures Dated(w.server) ==> AllHidden(w'.server, m.names)
  {
    NothingListed(m.readable);
    hide Taking, Listed, Unblocked, Standing, Promising, Steady, AllSealed, Forget, Dated;
    PurgeEnds(m.w0.server, w, w', m.sealed, m.names);
    PurgeKeepsCounter(w.server);
    NewPurged(m, w, w');
  }

  lemma NewPurged(m: Plan, w: World, w': World)
    requires NewFromDisk(m.w0, w, m.sealed, m.names) && w' == w.(server := ForgetAll(w.server))
    ensures NewFromDisk(m.w0, w', m.sealed, m.names)
  {
    hide Excluded;
  }

  lemma DroppingKeepsErasing(m: Plan, w1: World, w: World, w': World)
    requires OnErasing(m, w1, w, |m.readable|)
    requires w' == w.(index := map p | p in w.index && p in w.disk :: w.index[p])
    ensures OnErasing(m, w1, w', |m.readable|)
  {
    DroppingKeepsSealed(w, w', m.sealed, m.names);
    hide Taking, Listed, Steady, AllSealed, Dated, Unblocked, Blocks, Merges;
  }

  lemma CursorKeepsSecured(m: Plan, w1: World, w: World, w': World)
    requires Secured(m, w1, w) && w' == w.(cursor := w'.cursor)
    ensures Secured(m, w1, w')
  {
    CursorKeepsSealed(w, w', m.sealed, m.names);
    hide Taking, Steady, AllSealed;
  }

  // ---- when the run is refused ------------------------------------------------------------------------

  /** Some readable file merges in. */
  ghost predicate SomeMerges(w: World, cfg: Config, n: Names) {
    exists x | !Hidden(n, x) && IsLive(w.server, x) :: !Excluded(cfg, x) && MergesIn(w, cfg, w.server.files[x])
  }

  /** And one of them no other device has renamed away with the content it has here. */
  ghost predicate Stuck(w: World, cfg: Config, n: Names) {
    exists x | !Hidden(n, x) && IsLive(w.server, x) ::
      var f := w.server.files[x];
      !Excluded(cfg, x) && MergesIn(w, cfg, f) && NotMovedOn(w, cfg, f.path, w.disk[f.path])
  }

  lemma StuckBlocks(m: Plan)
    requires Sensible(m) && Stuck(m.w0, m.cfg, m.names)
    ensures !Unblocked(m, |m.readable|)
  {
    var s := m.w0.server;
    var x :| !Hidden(m.names, x) && IsLive(s, x) && !Excluded(m.cfg, x) && MergesIn(m.w0, m.cfg, s.files[x])
             && NotMovedOn(m.w0, m.cfg, s.files[x].path, m.w0.disk[s.files[x].path]);
    var f := s.files[x];
    OwnPath(s, x);
    assert f in m.readable;
    var j :| 0 <= j < |m.readable| && m.readable[j] == f;
    hide MergesIn, Excluded, MatchesRemote, Inv, Canonical;
    assert !TakenBy(m.w0, m.cfg, m.readable, f.path);
    assert Blocks(m, m.readable[j]);
  }

  lemma MergesAreSome(m: Plan, f: File)
    requires Sensible(m) && f in m.readable && Merges(m, f)
    ensures SomeMerges(m.w0, m.cfg, m.names)
  {
    hide MergesIn, Excluded, Inv, Canonical;
  }

  function Tick(left: Option<nat>): Option<nat> {
    if left.Some? && left.value > 0 then Some(left.value - 1) else left
  }

  /** After so many steps this is what is left of them. */
  predicate Left(stop: Option<nat>, left: Option<nat>, steps: nat) {
    if stop == None then left == None else stop.value >= steps && left == Some(stop.value - steps)
  }

  /** A phase stops early only if its steps were not allowed, and otherwise takes so many. */
  predicate Counted(stop: Option<nat>, left: Option<nat>, end: Ending, steps: nat) {
    && (end.Stopped? ==> stop.Some? && stop.value < steps)
    && (end.Finished? ==> Left(stop, left, steps))
  }

  class Migrator {
    const engine: SyncEngine
    const sealed: Config
    const names: Names
    /** The device that runs, and all devices of the vault. */
    const me: Peer
    const fleet: set<Peer>
    var marker: Option<string>
    /** What other devices will ask, ahead of each coming step of the run. */
    var traffic: seq<seq<Ask>>

    /** The engine reads and writes readable content; the second configuration has the key. */
    ghost predicate Valid()
      reads this, engine, engine.server
    {
      && engine.cfg.cipher.Plain? && sealed == engine.cfg.(cipher := sealed.cipher) && Honest(names)
      && Inv(engine.server.Snapshot())
      && me.name == engine.cfg.device
      && forall i, a | 0 <= i < |traffic| && a in traffic[i] :: Foreign(a, me, fleet)
    }

    /** No other device has this one's name, and none of the traffic takes the marker over or clears it. */
    ghost predicate Unclaimed()
      reads this
    {
      Named(me.name, me, fleet) && forall i, a | 0 <= i < |traffic| && a in traffic[i] :: !Ends(a)
    }

    ghost predicate Held()
      reads this
    {
      marker == Some(engine.cfg.device) && Unclaimed()
    }

    /** Another device has the marker. */
    predicate Locked()
      reads this
    {
      marker.Some? && marker.value != engine.cfg.device
    }

    function Asked(): Gate
      reads this, engine, engine.server
    {
      Gate(engine.server.Snapshot(), marker)
    }

    ghost predicate Runs(m: Plan) {
      m.cfg == engine.cfg && m.sealed == sealed && m.names == names
    }

    constructor (engine: SyncEngine, key: int, names: Names, id: nat, fleet: set<Peer>, traffic: seq<seq<Ask>>)
      requires engine.cfg.cipher.Plain? && Honest(names) && Inv(engine.server.Snapshot())
      requires forall i, a | 0 <= i < |traffic| && a in traffic[i] :: Foreign(a, Peer(id, engine.cfg.device), fleet)
      ensures Valid() && this.engine == engine && this.names == names && sealed == engine.cfg.(cipher := Key(key))
      ensures me == Peer(id, engine.cfg.device) && this.fleet == fleet
      ensures marker == None && this.traffic == traffic
    {
      this.engine, this.names, this.sealed, marker := engine, names, engine.cfg.(cipher := Key(key)), None;
      this.me, this.fleet, this.traffic := Peer(id, engine.cfg.device), fleet, traffic;
    }

    // ---- other devices --------------------------------------------------------------------------

    /** One request of another device, at the server's door. */
    method ServeAsk(a: Ask) returns (ghost ops: seq<Op>)
      modifies `marker, engine`accepted, engine.server
      ensures Asked() == Request(old(Asked()), a).0
      ensures ops == [] || |ops| == 1
      ensures engine.Now() == if ops == [] then old(engine.Now()) else Engine.Serve(old(engine.Now()), ops[0])
    {
      ops := [];
      match a
      case Write(sender, op) =>
        if IsWrite(op) && !(marker.Some? && marker.value != sender.name) {
          match op {
            case PutOp(args) =>
              var _ := engine.server.PutFile(args);
            case DeleteOp(p, baseRev, author) =>
              var _ := engine.server.DeleteFile(p, baseRev, author);
            case RenameOp(from, to, baseRev, author) =>
              var _ := engine.server.RenameFile(from, to, baseRev, author);
            case _ =>
          }
          ops := [op];
          engine.accepted := engine.accepted + Committed(engine.server.Snapshot());
        }
      case ForgetDeleted(cutoff) =>
        engine.server.ForgetDeletedBefore(cutoff);
        ops := [ForgetOp(cutoff)];
        engine.accepted := engine.accepted + Committed(engine.server.Snapshot());
      case TakeOver(sender) =>
        marker := Some(sender.name);
      case ClearMarker(_) =>
        marker := None;
    }

    /** Whatever other devices ask before the next step. */
    method OthersAct() returns (ghost ops: seq<Op>)
      requires Valid()
      modifies `marker, `traffic, engine`accepted, engine.server
      ensures Valid() && engine.Now() == ServeAll(old(engine.Now()), ops)
      ensures Asked() == Requests(old(Asked()), if old(traffic) == [] then [] else old(traffic)[0])
      ensures traffic == if old(traffic) == [] then [] else old(traffic)[1..]
      ensures old(Held()) ==> Held() && !Locked() && Thins(old(engine.Now()), engine.Now())
    {
      ops := [];
      if traffic == [] {
        ThinnedSame(engine.server.Snapshot());
        return;
      }
      hide Inv, Thinned, Request, Engine.Serve;
      ghost var g0, w0, held := Asked(), engine.Now(), Held();
      var asks := traffic[0];
      traffic := traffic[1..];
      if held {
        TrafficThins(g0, me, fleet, asks);
      }
      var i := 0;
      while i < |asks|
        invariant 0 <= i <= |asks| && traffic == old(traffic)[1..]
        invariant Requests(Asked(), asks[i..]) == Requests(g0, asks)
        invariant Inv(engine.server.Snapshot()) && engine.Now() == ServeAll(w0, ops)
      {
        assert asks[i..][0] == asks[i] && asks[i..][1..] == asks[i + 1..];
        RequestKeepsInv(Asked(), asks[i]);
        ghost var more := ServeAsk(asks[i]);
        if more != [] {
          ServeAllOn(w0, ops, more[0]);
          ops := ops + [more[0]];
        }
        i := i + 1;
      }
      assert asks[i..] == [];
    }

    // ---- the steps of the run -----------------------------------------------------------------------

    /** The live rows, readable ones apart from sealed ones. */
    method Listing() returns (readable: seq<File>, hidden: map<Path, File>)
      requires Valid()
      ensures forall f <- readable ::
                var s := engine.server.Snapshot(); !Hidden(names, f.path) && IsLive(s, f.path) && s.files[f.path] == f
      ensures Canonical(names, engine.server.Snapshot()) ==> ListedAs(engine.server.Snapshot(), names, readable, hidden)
    {
      var s := engine.server.Snapshot();
      var entries, _ := ChangeLog.PullAll(s, 0, 500);
      ChangeLog.LogIsComplete(s, 0, s.counter);
      hide ChangeLog.Log, ChangeLog.Ascending, Inv, Canonical;
      readable, hidden := SortEntries(names, entries);
      if Canonical(names, s) {
        ListingParts(s, names, entries, readable, hidden);
      }
    }

    /** Takes in what the device does not have, through the ordinary pull. */
    method PullReadable(ghost held: bool, ghost m: Plan, ghost l: Life, ghost told: seq<Action>, readable: seq<File>,
                        stop: Option<nat>, now: int)
      returns (left: Option<nat>, end: Ending, ghost trace: seq<Action>)
      requires Valid() && Told(l, engine.cfg, names, readable, told, engine.Now())
      requires forall f <- readable :: !f.deleted && !Hidden(names, f.path)
      requires held ==> Held() && Runs(m) && m.readable == readable && m.now == now && Taking(m, engine.Now(), 0)
      modifies `marker, `traffic, engine, engine.server
      ensures Valid() && Told(l, engine.cfg, names, readable, trace, engine.Now())
      ensures held ==> Held() && Pulling(m, engine.Now())
      ensures held && end.Finished? ==> Taking(m, engine.Now(), |readable|)
      ensures held && Promising(m) ==> !end.Refused?
      ensures Counted(stop, left, end, |readable|) && engine.cursor == old(engine.cursor)
    {
      hide Taking, Pulling, Told, Promising, Inv, ApplyRemote, Excluded, Free, Thins, ServeAll;
      left, end, trace := stop, Finished, told;
      for i := 0 to |readable|
        invariant Valid() && Told(l, engine.cfg, names, readable, trace, engine.Now())
        invariant held ==> Held() && Taking(m, engine.Now(), i)
        invariant Left(stop, left, i) && engine.cursor == old(engine.cursor)
      {
        ghost var w := engine.Now();
        ghost var ops := OthersAct();
        ToldHears(l, engine.cfg, names, readable, trace, w, ops);
        trace := trace + Heard(ops);
        if held {
          TakingThins(m, w, engine.Now(), i);
          TakingIsPulling(m, engine.Now(), i);
        }
        if left == Some(0) {
          end := Stopped;
          return;
        }
        left := Tick(left);
        if Locked() {
          end := Refused;
          return;
        }
        var f := readable[i];
        var copy := engine.ConflictName();
        w := engine.Now();
        if held {
          TakingGoesOn(m, w, i, copy);
        }
        if !Excluded(engine.cfg, f.path) {
          RemoteKeepsInv(w, engine.cfg, f, copy, now);
          ToldPull(l, engine.cfg, names, readable, trace, w, f, copy, now);
          var st := engine.ApplyEntry(f, copy, now);
          trace := trace + [EngineSafety.Pull(f, copy, now)];
          if st.Failed? {
            end := Refused;
            return;
          }
        }
      }
      if held {
        TakingIsPulling(m, engine.Now(), |readable|);
      }
    }

    method SealOne(p: Path, listed: Option<File>, now: int) returns (ok: bool)
      requires p in engine.disk
      modifies engine`index, engine`accepted, engine.server
      ensures (engine.Now(), ok) == SealPath(old(engine.Now()), sealed, names, listed, p, now)
    {
      var data := engine.disk[p];
      if listed.Some? && MatchesRemote(sealed, data, listed.value.hash) {
        engine.index := engine.index[p := Entry(listed.value.rev, listed.value.hash, Some(Sha256(data)), false)];
        return true;
      }
      var content := Seal(sealed.cipher, data);
      var r := engine.server.PutFile(
        PutArgs(names.seal(p), if listed.Some? then listed.value.rev else 0, Some(Sha256(content)), Size(content), now,
                false, sealed.device));
      if !r.Ok? {
        return false;
      }
      engine.accepted := engine.accepted + Committed(engine.server.Snapshot());
      engine.index := engine.index[p := Entry(r.file.rev, r.file.hash, Some(Sha256(data)), false)];
      return true;
    }

    method SealNext(ghost held: bool, ghost m: Plan, ghost w1: World, ghost todo: set<Path>,
                    hidden: map<Path, File>, p: Path, now: int)
      returns (ok: bool)
      requires Valid() && p in engine.disk
      requires held ==> Runs(m) && m.hidden == hidden && m.now == now && p in todo && OnSealing(m, w1, engine.Now(), todo)
      modifies engine`index, engine`accepted, engine.server
      ensures Valid() && (held ==> Upheld(m, engine.Now()))
      ensures held && ok ==> OnSealing(m, w1, engine.Now(), todo - {p})
      ensures held && Promising(m) ==> ok
    {
      hide OnSealing, Upheld, Promising, Inv, SealPath;
      var listed := if p in hidden then Some(hidden[p]) else None;
      SealKeepsInv(engine.Now(), sealed, names, listed, p, now);
      if held {
        SealingGoesOn(m, w1, engine.Now(), todo, p);
      }
      ok := SealOne(p, listed, now);
    }

    /** The turn of one file, unless the run is stopped or another device has the marker. */
    method SealTurn(ghost held: bool, ghost m: Plan, ghost w1: World, ghost todo: set<Path>,
                    hidden: map<Path, File>, p: Path, left: Option<nat>, now: int)
      returns (end: Ending)
      requires Valid() && p in engine.disk && p in todo
      requires held ==> Held() && Runs(m) && m.hidden == hidden && m.now == now && OnSealing(m, w1, engine.Now(), todo)
      modifies `marker, `traffic, engine`index, engine`accepted, engine.server
      ensures Valid() && (held ==> Held() && Upheld(m, engine.Now()))
      ensures held && end.Finished? ==> OnSealing(m, w1, engine.Now(), todo - {p})
      ensures held && Promising(m) ==> !end.Refused?
      ensures end.Stopped? <==> left == Some(0)
    {
      hide OnSealing, Upheld, Promising, Inv, Thins, ServeAll, Valid, Held, Locked;
      ghost var w := engine.Now();
      ghost var _ := OthersAct();
      if held {
        SealingThins(m, w1, w, engine.Now(), todo);
        SealingIsUpheld(m, w1, engine.Now(), todo);
      }
      if left == Some(0) {
        return Stopped;
      }
      if Locked() {
        return Refused;
      }
      var ok := SealNext(held, m, w1, todo, hidden, p, now);
      return if ok then Finished else Refused;
    }

    /** Everything on disk goes up sealed, in any order. */
    method SealAll(ghost held: bool, ghost m: Plan, ghost w1: World, hidden: map<Path, File>, stop: Option<nat>, now: int)
      returns (left: Option<nat>, end: Ending, ghost steps: nat)
      requires Valid()
      requires held ==>
                 && Held() && Runs(m) && m.hidden == hidden && m.now == now
                 && OnSealing(m, w1, engine.Now(), set p | p in engine.disk && !Excluded(sealed, p))
      modifies `marker, `traffic, engine`index, engine`accepted, engine.server
      ensures Valid()
      ensures held ==> Held() && Upheld(m, engine.Now())
      ensures held && end.Finished? ==> OnSealing(m, w1, engine.Now(), {})
      ensures held && Promising(m) ==> !end.Refused?
      ensures steps <= |engine.disk| && Counted(stop, left, end, steps)
    {
      hide OnSealing, Upheld, Promising, Inv, Excluded, Thins, ServeAll, SealPath, Valid, Held, Locked;
      left, end := stop, Finished;
      var todo := set p | p in engine.disk && !Excluded(sealed, p);
      ghost var done := 0;
      steps := |todo|;
      Subset(todo, engine.disk.Keys);
      while todo != {}
        invariant Valid() && todo <= engine.disk.Keys && end.Finished?
        invariant held ==> Held() && OnSealing(m, w1, engine.Now(), todo)
        invariant done + |todo| == steps && Left(stop, left, done)
        decreases todo
      {
        var p :| p in todo;
        end := SealTurn(held, m, w1, todo, hidden, p, left, now);
        if !end.Finished? {
          return;
        }
        left := Tick(left);
        todo, done := todo - {p}, done + 1;
      }
      if held {
        SealingIsUpheld(m, w1, engine.Now(), {});
      }
    }

    /** The readable copies go. */
    method EraseReadable(ghost held: bool, ghost m: Plan, ghost w1: World, readable: seq<File>, stop: Option<nat>)
      returns (left: Option<nat>, end: Ending, lastSeq: int)
      requires Valid()
      requires held ==> Held() && Runs(m) && m.readable == readable && OnErasing(m, w1, engine.Now(), 0)
      modifies `marker, `traffic, engine`accepted, engine.server
      ensures Valid()
      ensures held ==> Held() && Secured(m, w1, engine.Now())
      ensures held && end.Finished? ==> OnErasing(m, w1, engine.Now(), |readable|)
      ensures held && end.Finished? ==> lastSeq == if readable == [] then 0 else engine.server.counter
      ensures held && Promising(m) && end.Refused? ==> exists f <- readable :: Merges(m, f)
      ensures Counted(stop, left, end, |readable|)
    {
      hide OnErasing, Secured, Promising, Inv, Thinned, ServeAll, Merges, Delete, IsLive;
      left, end, lastSeq := stop, Finished, 0;
      for i := 0 to |readable|
        invariant Valid()
        invariant held ==> Held() && OnErasing(m, w1, engine.Now(), i)
        invariant held ==> if i == 0 then lastSeq == 0 else lastSeq == engine.server.counter
        invariant Left(stop, left, i)
      {
        ghost var w := engine.Now();
        ghost var _ := OthersAct();
        if held {
          ErasingThins(m, w1, w, engine.Now(), i);
          ErasingIsSecured(m, w1, engine.Now(), i);
          ThinnedCounts(w.server, engine.server.Snapshot());
        }
        if left == Some(0) {
          end := Stopped;
          return;
        }
        left := Tick(left);
        if Locked() {
          end := Refused;
          return;
        }
        var f := readable[i];
        w := engine.Now();
        StepKeepsInv(w.server, DeleteOp(f.path, f.rev, engine.cfg.device));
        EraseNumber(w.server, f.path, f.rev, engine.cfg.device);
        var r := engine.server.DeleteFile(f.path, f.rev, engine.cfg.device);
        if held {
          ErasingGoesOn(m, w1, w, engine.Now(), i);
          FirstErased(m, w1, w, i);
        }
        if !r.Ok? {
          end := Refused;
          return;
        }
        lastSeq := if r.file.seqNo > lastSeq then r.file.seqNo else lastSeq;
      }
      if held {
        ErasingIsSecured(m, w1, engine.Now(), |readable|);
      }
    }

    /** Entries of files that are not on disk go. */
    method DropMissing(ghost held: bool, ghost m: Plan, ghost w1: World)
      requires held ==> OnErasing(m, w1, engine.Now(), |m.readable|)
      modifies engine`index
      ensures held ==> OnErasing(m, w1, engine.Now(), |m.readable|)
      ensures engine.index == map p | p in old(engine.index) && p in engine.disk :: old(engine.index)[p]
    {
      hide OnErasing;
      ghost var w := engine.Now();
      engine.index := map p | p in engine.index && p in engine.disk :: engine.index[p];
      if held {
        DroppingKeepsErasing(m, w1, w, engine.Now());
      }
    }

    method PurgeHistory(ghost held: bool, ghost m: Plan, ghost w1: World)
      requires Valid() && (held ==> m.names == names && OnErasing(m, w1, engine.Now(), |m.readable|))
      modifies engine.server
      ensures Valid() && engine.server.Snapshot() == ForgetAll(old(engine.server.Snapshot()))
      ensures held ==> Secured(m, w1, engine.Now()) && engine.server.counter == old(engine.server.counter)
      ensures held ==> Purged(engine.server.Snapshot(), names)
      ensures held && Dated(old(engine.server.Snapshot())) ==> AllHidden(engine.server.Snapshot(), names)
    {
      hide OnErasing, Secured, Inv, Purged, AllHidden, Dated, Forget;
      ghost var w := engine.Now();
      ForgetKeepsInv(w.server, MAX_INT64);
      engine.server.ForgetAllDeleted();
      if held {
        SecuredPurged(m, w1, w, engine.Now());
      }
    }

    /** With no live readable file left: index, history, marker, cursor. */
    method Finish(ghost held: bool, ghost m: Plan, ghost w1: World, lastSeq: int, stop: Option<nat>) returns (end: Ending)
      requires Valid()
      requires held ==> Held() && Runs(m) && OnErasing(m, w1, engine.Now(), |m.readable|)
      modifies `marker, `traffic, engine`index, engine`cursor, engine`accepted, engine.server
      ensures Valid() && !end.Refused? && (end.Stopped? ==> stop.Some? && stop.value < 2)
      ensures held ==> marker == if end.Finished? then None else Some(engine.cfg.device)
      ensures held ==> Secured(m, w1, engine.Now()) && engine.server.counter == old(engine.server.counter)
      ensures end.Finished? ==> engine.cursor >= lastSeq && engine.index.Keys <= engine.disk.Keys
      ensures engine.cursor == if end.Finished? && lastSeq > old(engine.cursor) then lastSeq else old(engine.cursor)
      ensures held && end.Finished? ==> Purged(engine.server.Snapshot(), names)
      ensures held && end.Finished? && Dated(old(engine.server.Snapshot())) ==> AllHidden(engine.server.Snapshot(), names)
    {
      hide OnErasing, Secured, Inv, Thinned, ServeAll, Purged, AllHidden, Dated, Forget;
      DropMissing(held, m, w1);
      ghost var w := engine.Now();
      ghost var _ := OthersAct();
      if held {
        ErasingThins(m, w1, w, engine.Now(), |m.readable|);
        ErasingIsSecured(m, w1, engine.Now(), |m.readable|);
        ThinnedCounts(w.server, engine.server.Snapshot());
      }
      if stop == Some(0) {
        return Stopped;
      }
      PurgeHistory(held, m, w1);
      w := engine.Now();
      ghost var _ := OthersAct();
      if held {
        SecuredThins(m, w1, w, engine.Now());
        ThinnedCounts(w.server, engine.server.Snapshot());
      }
      if stop == Some(1) {
        return Stopped;
      }
      marker := None;
      w := engine.Now();
      engine.SetLastSeq(lastSeq);
      if held {
        CursorKeepsSecured(m, w1, w, engine.Now());
      }
      return Finished;
    }

    /** After the pull: everything goes up sealed, then the readable copies go. */
    method SealAndErase(ghost held: bool, ghost m: Plan, ghost w1: World, readable: seq<File>, hidden: map<Path, File>,
                        stop: Option<nat>, now: int)
      returns (end: Ending)
      requires Valid()
      requires held ==>
                 && Held() && Runs(m) && m.readable == readable && m.hidden == hidden && m.now == now
                 && Taking(m, w1, |readable|) && engine.Now() == w1.(index := engine.index)
      modifies `marker, `traffic, engine`index, engine`cursor, engine`accepted, engine.server
      ensures Valid()
      ensures held ==>
                && marker == (if end.Finished? then None else Some(engine.cfg.device))
                && Safe(m.w0, engine.Now(), engine.cfg, sealed, names)
      ensures held && end.Finished? ==> Complete(m.w0, engine.Now(), engine.cfg, sealed, names, now)
      ensures end.Stopped? ==> stop.Some? && stop.value < |engine.disk| + |readable| + 2
      ensures held ==> CursorKept(old(engine.cursor), engine.cursor, engine.server.counter, end)
      ensures held && Promising(m) && Stuck(m.w0, engine.cfg, names) ==> !end.Finished?
      ensures held && Promising(m) && end.Refused? ==> SomeMerges(m.w0, engine.cfg, names)
    {
      hide Taking, OnSealing, OnErasing, Secured, Upheld, Inv, Sensible, Merges, Safe, Complete, Promising, Stuck, SomeMerges;
      hide Purged, AllHidden, Dated, Excluded;
      if held {
        SealingStarts(m, w1, engine.Now());
      }
      var left;
      ghost var steps;
      left, end, steps := SealAll(held, m, w1, hidden, stop, now);
      if held {
        UpheldIsSafe(m, engine.Now());
      }
      if !end.Finished? {
        return;
      }
      if held {
        ErasingStarts(m, w1, engine.Now());
      }
      var lastSeq;
      left, end, lastSeq := EraseReadable(held, m, w1, readable, left);
      if held {
        SecuredIsSafe(m, w1, engine.Now());
        SomeAreSome(m, w1);
      }
      if !end.Finished? {
        return;
      }
      ghost var w2 := engine.Now();
      end := Finish(held, m, w1, lastSeq, left);
      if held {
        SecuredIsSafe(m, w1, engine.Now());
        ErasedAll(m, w1, w2);
        if end.Finished? {
          RunIsComplete(m, w1, w2, engine.Now(), lastSeq);
        }
      }
    }

    /**
     One run, stopped after so many steps or never, with other devices' requests before
     every step.

     Whatever they ask, each change of the disk is the pull of a listed file or nothing,
     and no step loses a content.  As long as they neither take the marker over nor clear
     it: wherever the run ends, a readable file is gone from the server only where it is
     sealed there, unless the pull had to leave it behind; when it ends by itself,
     everything on disk is sealed, the marker is gone, and no readable name is left but
     behind tombstones that carry the largest time there is.  A run that is not stopped
     ends by itself if no file merges in, and is refused if one does.
     */
    method EncryptInPlace(stop: Option<nat>, now: int) returns (end: Ending, ghost trace: seq<Action>)
      requires Valid()
      modifies `marker, `traffic, engine, engine.server
      ensures Valid()
      ensures var l := Life(old(engine.Now()), old(engine.index));
              && engine.disk == RunLife(l, engine.cfg, trace).w.disk
              && engine.conflicts == RunLife(l, engine.cfg, trace).w.conflicts && (forall a <- trace :: TakesIn(a, names))
              && (LifeOk(l, engine.cfg) ==> AllAllowed(l, engine.cfg, trace) && NeverLoses(l, engine.cfg, trace))
      ensures old(Unclaimed() && Canonical(names, engine.server.Snapshot())) ==>
                && marker == (if end.Finished? then None else Some(engine.cfg.device))
                && OfStart(old(engine.server.Snapshot()), trace)
                && Safe(old(engine.Now()), engine.Now(), engine.cfg, sealed, names)
      ensures old(Unclaimed() && Canonical(names, engine.server.Snapshot())) && end.Finished? ==>
                Complete(old(engine.Now()), engine.Now(), engine.cfg, sealed, names, now)
      ensures old(Unclaimed() && Canonical(names, engine.server.Snapshot())) ==>
                CursorKept(old(engine.cursor), engine.cursor, engine.server.counter, end)
      ensures end.Stopped? ==> stop.Some?
      ensures old(Unclaimed() && Canonical(names, engine.server.Snapshot())) && end.Stopped? ==>
                stop.value < 2 * |old(engine.server.files)| + |engine.disk| + 2
      ensures old(Unclaimed() && Canonical(names, engine.server.Snapshot())) && !end.Stopped?
              && old(Ordinary(engine.server.Snapshot(), engine.cfg, names) && RenamesOrdered(engine.server.Snapshot())) ==>
                && (Stuck(old(engine.Now()), engine.cfg, names) ==> end.Refused?)
                && (end.Refused? ==> SomeMerges(old(engine.Now()), engine.cfg, names))
    {
      hide Told, Taking, Pulling, OnSealing, OnErasing, Secured, Upheld, Inv, Canonical, Thins, ServeAll, Sensible, ListedAs;
      hide Safe, Complete, Stuck, SomeMerges, RenamesOrdered, Ordinary, LifeOk, NeverLoses, AllAllowed, OfStart;
      ghost var w0, held := engine.Now(), Unclaimed() && Canonical(names, engine.server.Snapshot());
      ghost var l := Life(w0, engine.index);
      marker := Some(engine.cfg.device);
      ToldStarts(l, engine.cfg, names);
      ghost var ops := OthersAct();
      ToldHears(l, engine.cfg, names, [], [], w0, ops);
      var readable, hidden := Listing();
      ghost var told, m := [] + Heard(ops), Plan(w0, engine.cfg, sealed, names, readable, hidden, now);
      ToldListing(l, engine.cfg, names, told, engine.Now(), readable);
      if held {
        ListingHolds(m, engine.Now());
        ListingFits(m);
        TakingStarts(m, engine.Now());
      }
      var left;
      left, end, trace := PullReadable(held, m, l, told, readable, stop, now);
      ghost var w1 := engine.Now();
      ToldIsSafe(l, engine.cfg, names, readable, trace, w1);
      if held {
        PullingIsSafe(m, w1);
        ToldOfStart(m, l, trace, w1);
      }
      if !end.Finished? {
        return;
      }
      engine.AdoptUnknownFiles();
      end := SealAndErase(held, m, w1, readable, hidden, left, now);
    }
  }

  lemma SealingIsUpheld(m: Plan, w1: World, w: World, todo: set<Path>)
    requires OnSealing(m, w1, w, todo)
    ensures Upheld(m, w)
  {
  }

  lemma ErasingIsSecured(m: Plan, w1: World, w: World, i: nat)
    requires OnErasing(m, w1, w, i)
    ensures Secured(m, w1, w)
  {
  }

  lemma ThinnedCounts(s: State, t: State)
    requires Thinned(s, t)
    ensures s.counter == t.counter && (Dated(s) ==> Dated(t))
  {
    hide Inv;
  }

  /** A listing taken after requests that thin the vault lists the files of the start. */
  lemma ListingHolds(m: Plan, w: World)
    requires m.cfg.cipher.Plain? && m.sealed == m.cfg.(cipher := m.sealed.cipher) && Honest(m.names)
    requires Inv(m.w0.server) && Canonical(m.names, m.w0.server) && Thins(m.w0, w)
    requires Canonical(m.names, w.server) ==> ListedAs(w.server, m.names, m.readable, m.hidden)
    ensures Sensible(m)
  {
    hide Inv;
    forall x
      ensures IsLive(m.w0.server, x) <==> IsLive(w.server, x)
      ensures IsLive(w.server, x) ==> m.w0.server.files[x] == w.server.files[x]
    {
      LiveThins(m.w0.server, w.server, x);
    }
    assert Canonical(m.names, w.server);
    hide Thinned, Canonical;
  }

  lemma ListingFits(m: Plan)
    requires Sensible(m)
    ensures |m.readable| <= |m.w0.server.files|
  {
    forall i, j | 0 <= i < j < |m.readable|
      ensures m.readable[i].path != m.readable[j].path
    {
      PathsDiffer(m, i, j);
    }
    DistinctFit(m.readable, m.w0.server.files.Keys);
  }

  /** Rows in ascending order have distinct paths, so no more of them fit than there are paths. */
  lemma {:induction false} DistinctFit(rows: seq<File>, paths: set<Path>)
    requires forall i, j | 0 <= i < j < |rows| :: rows[i].path != rows[j].path
    requires forall f <- rows :: f.path in paths
    ensures |rows| <= |paths|
  {
    if rows != [] {
      var last := rows[|rows| - 1];
      DistinctFit(rows[..|rows| - 1], paths - {last.path});
    }
  }

  lemma ToldIsSafe(l: Life, cfg: Config, n: Names, readable: seq<File>, trace: seq<Action>, w: World)
    requires Told(l, cfg, n, readable, trace, w)
    ensures RunLife(l, cfg, trace).w == w && (forall a <- trace :: TakesIn(a, n))
    ensures LifeOk(l, cfg) ==> AllAllowed(l, cfg, trace) && NeverLoses(l, cfg, trace)
  {
    if LifeOk(l, cfg) {
      EveryRunNeverLoses(l, cfg, trace);
    }
  }

  lemma PullingIsSafe(m: Plan, w: World)
    requires Pulling(m, w)
    ensures Safe(m.w0, w, m.cfg, m.sealed, m.names)
  {
    UpheldIsSafe(m, w);
  }

  lemma SecuredIsSafe(m: Plan, w1: World, w: World)
    requires Secured(m, w1, w)
    ensures Safe(m.w0, w, m.cfg, m.sealed, m.names) && AllSealed(w, m.sealed, m.names, {})
    ensures RenamesOrdered(m.w0.server) ==> SealedOrLeft(m.w0, w, m.sealed, m.cfg, m.names)
  {
    SealedIsSafe(m, w1, w);
  }

  /** The whole list was erased, so nothing in it blocked. */
  lemma ErasedAll(m: Plan, w1: World, w: World)
    requires OnErasing(m, w1, w, |m.readable|)
    ensures Promising(m) ==> !Stuck(m.w0, m.cfg, m.names)
    ensures SomeReadable(m.w0.server, m.names) ==> m.readable != []
    ensures Dated(m.w0.server) && m.now < MAX_INT64 ==> Dated(w.server)
  {
    if Promising(m) && Stuck(m.w0, m.cfg, m.names) {
      StuckBlocks(m);
    }
    hide Stuck, Promising, Unblocked, Standing;
  }

  lemma RunIsComplete(m: Plan, w1: World, w2: World, w: World, lastSeq: int)
    requires OnErasing(m, w1, w2, |m.readable|) && Secured(m, w1, w) && Purged(w.server, m.names)
    requires m.readable != [] ==> lastSeq == w2.server.counter
    requires w.server.counter == w2.server.counter && w.cursor >= lastSeq && w.index.Keys <= w.disk.Keys
    requires Dated(w2.server) ==> AllHidden(w.server, m.names)
    ensures Complete(m.w0, w, m.cfg, m.sealed, m.names, m.now)
  {
    ErasedAll(m, w1, w2);
    SecuredIsSafe(m, w1, w);
    SecuredIsExact(m, w1, w);
    hide SealedExactly;
    hide OnErasing, Secured, Promising, Stuck, RenamesOrdered, SealedOrLeft, SomeReadable, Dated, AllSealed, Purged, AllHidden;
  }

  lemma SecuredIsExact(m: Plan, w1: World, w: World)
    requires Secured(m, w1, w)
    ensures SealedExactly(m.w0, w, m.sealed, m.names)
  {
    hide Taking, Excluded, Inv, Canonical;
    forall p
      ensures IsLive(w.server, m.names.seal(p)) <==>
                IsLive(m.w0.server, m.names.seal(p)) || (p in w.disk && !Excluded(m.sealed, p))
    {
      SealedLives(m, w1, w, p);
    }
    hide Secured;
  }

  lemma SealedLives(m: Plan, w1: World, w: World, p: Path)
    requires Secured(m, w1, w)
    ensures IsLive(w.server, m.names.seal(p)) <==>
              IsLive(m.w0.server, m.names.seal(p)) || (p in w.disk && !Excluded(m.sealed, p))
  {
    SealedIsHidden(m.names, p);
    if p in w.disk && !Excluded(m.sealed, p) {
      assert SealedSettled(w, m.sealed, m.names, p);
    }
    hide Inv, Canonical, ListedAs, TakenIn, RenamesOrdered, Excluded, Pulling, Waits, OnCourse;
  }

  /**
   A readable file that a complete run leaves under neither name: exactly one that was
   not sealed before and is excluded here or not on disk.  Of those that are not excluded
   it is only the ones the pull had to leave behind.
   */
  lemma VanishesExactly(w0: World, w: World, cfg: Config, sealed: Config, n: Names, now: int, p: Path)
    requires Complete(w0, w, cfg, sealed, n, now) && sealed == cfg.(cipher := sealed.cipher)
    requires !Hidden(n, p) && IsLive(w0.server, p)
    ensures !IsLive(w.server, p)
    ensures !IsLive(w.server, n.seal(p)) <==> !IsLive(w0.server, n.seal(p)) && (Excluded(cfg, p) || p !in w.disk)
    ensures RenamesOrdered(w0.server) && !IsLive(w.server, n.seal(p)) && !Excluded(cfg, p) ==>
              LeftBehind(w0, cfg, w0.server.files[p])
  {
    assert Excluded(cfg, p) == Excluded(sealed, p);
    hide AllSealed, AllHidden, Dated, SomeReadable, LeftBehind, Brought, RenamesOrdered;
  }

  lemma SomeAreSome(m: Plan, w1: World)
    requires Taking(m, w1, |m.readable|)
    ensures (exists f <- m.readable :: Merges(m, f)) ==> SomeMerges(m.w0, m.cfg, m.names)
  {
    hide Merges, SomeMerges;
    if f :| f in m.readable && Merges(m, f) {
      MergesAreSome(m, f);
    }
  }

  lemma FirstErased(m: Plan, w1: World, w: World, i: nat)
    requires OnErasing(m, w1, w, i) && i < |m.readable|
    ensures i == 0 ==> IsLive(w.server, m.readable[0].path)
  {
  }

  lemma TakingIsPulling(m: Plan, w: World, i: nat)
    requires Taking(m, w, i)
    ensures Pulling(m, w)
  {
  }

  lemma RequestKeepsInv(g: Gate, a: Ask)
    requires Inv(g.meta)
    ensures Inv(Request(g, a).0.meta)
  {
    hide Inv;
    match a
    case Write(_, op) => StepKeepsInv(g.meta, op);
    case ForgetDeleted(cutoff) => ForgetKeepsInv(g.meta, cutoff);
    case _ =>
  }
}
