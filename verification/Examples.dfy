/**
 Short histories of a new device that end where the code falls short of its promise: one
 for each property that holds only under a condition.
 */
module Examples {
  import opened Content
  import opened Store
  import opened StoreLaws
  import opened Engine
  import opened EngineQuiet
  import opened EngineSafety
  import opened EngineStored
  import opened Migration
  import opened MigrationRun
  import opened Device
  import opened VaultNames
  import EngineEdits
  import Diff3

  const ME := Config("a", Plain, [])

  /** A new device beside a new vault. */
  const NEW := Life(World(map[], map[], map[], 0, EMPTY, {}), map[])

  /** What another device uploads. */
  function Theirs(baseRev: int, text: string): PutArgs {
    PutArgs("n", baseRev, Some(Sha256(Text(text))), |text|, 0, false, "b")
  }

  function Row(rev: int, text: string, author: string): File {
    File("n", rev, rev, Some(Sha256(Text(text))), Size(Text(text)), 0, false, false, author, None)
  }

  /** A vault with one revision of one file. */
  function One(f: File): State {
    State(map[f.path := f], map[(f.path, f.rev) := Revision(f.hash, f.mtime, f.seqNo)], f.seqNo)
  }

  // ---- actions in the cases that occur here -------------------------------------------------

  /** The actions lead through these lives. */
  ghost predicate Leads(actions: seq<Action>, lives: seq<Life>) {
    && |lives| == |actions| + 1 && lives[0] == NEW
    && forall i | 0 <= i < |actions| :: Allowed(lives[i], actions[i]) && lives[i + 1] == Act(lives[i], ME, actions[i])
  }

  lemma {:induction false} Chain(actions: seq<Action>, lives: seq<Life>)
    requires Leads(actions, lives)
    ensures RunLife(NEW, ME, actions) == lives[|actions|] && AllAllowed(NEW, ME, actions)
  {
    hide Allowed, Act;
    if actions != [] {
      var n := |actions| - 1;
      Chain(actions[..n], lives[..n + 1]);
      RunLifeOn(NEW, ME, actions[..n], actions[n]);
      assert actions == actions[..n] + [actions[n]];
    }
  }

  function Edited(l: Life, text: string): Life {
    l.(w := l.w.(disk := l.w.disk["n" := Text(text)],
                 index := l.w.index["n" := if "n" in l.w.index then l.w.index["n"].(dirty := true) else Entry(0, None, None, true)]))
  }

  lemma Edits(l: Life, text: string)
    ensures Act(l, ME, Edit("n", Text(text), true)) == Edited(l, text) && Allowed(l, Edit("n", Text(text), true))
  {
  }

  function Erased(l: Life): Life
    requires "n" in l.w.index
  {
    l.(w := l.w.(disk := l.w.disk - {"n"}, index := l.w.index["n" := l.w.index["n"].(dirty := true)]))
  }

  lemma Erases(l: Life)
    requires "n" in l.w.index
    ensures Act(l, ME, Erase("n", true)) == Erased(l) && Allowed(l, Erase("n", true))
  {
  }

  function Served(l: Life, t: State): Life {
    l.(w := l.w.(server := t, accepted := l.w.accepted + Committed(t)))
  }

  lemma FirstPut(l: Life, text: string)
    requires l.w.server == EMPTY && |text| == Size(Text(text))
    ensures Act(l, ME, Others(PutOp(Theirs(0, text)))) == Served(l, One(Row(1, text, "b")))
    ensures Allowed(l, Others(PutOp(Theirs(0, text))))
    ensures WasLogged(Served(l, One(Row(1, text, "b"))).w, Row(1, text, "b"))
  {
    var t := One(Row(1, text, "b"));
    assert Put(EMPTY, Theirs(0, text)).0 == t;
    assert ("n", 1, Sha256(Text(text))) in Committed(t);
    hide Put;
  }

  function Uploaded(l: Life, text: string): Life {
    var f := Row(1, text, "a");
    Served(l.(w := l.w.(index := l.w.index["n" := Entry(1, f.hash, f.hash, false)])), One(f))
  }

  lemma FirstPush(l: Life, text: string)
    requires l.w.server == EMPTY && l.w.disk == map["n" := Text(text)]
    requires "n" in l.w.index && l.w.index["n"] == Entry(0, None, None, true)
    ensures Act(l, ME, Push("n", "c", 0)) == Uploaded(l, text) && Allowed(l, Push("n", "c", 0))
  {
    var a := SendArgs(ME, "n", 0, Text(text), 0);
    assert Put(EMPTY, a) == (One(Row(1, text, "a")), Ok(Row(1, text, "a")));
    hide Put, Committed, Reconcile, Size;
  }

  /** The pull passes over a file that is deleted here and not yet sent. */
  lemma Skips(l: Life, f: File)
    requires l.w.disk == map[] && "n" in l.w.index && l.w.index["n"].dirty && l.w.index["n"].baseRev != f.rev
    requires f.path == "n" && !f.deleted && f.renamedFrom == None && WasLogged(l.w, f)
    ensures Act(l, ME, Pull(f, "c", 0)) == l && Allowed(l, Pull(f, "c", 0))
  {
    hide Reconcile, Download;
  }

  /** A vault with one file, and that file deleted, is one the device can read. */
  lemma OneIsReadable(text: string, author: string, rev: int)
    requires rev >= 1
    ensures Readable(One(Row(rev, text, author)), ME) && RenamesOrdered(One(Row(rev, text, author)))
  {
  }

  // ---- the engine --------------------------------------------------------------------------

  /** An unsent file is removed again while another device puts its own under that name. */
  lemma UnsentDeletionHides()
    ensures var actions :=
              [Edit("n", Text("a"), true), Erase("n", true), Others(PutOp(Theirs(0, "b"))), Pull(Row(1, "b", "b"), "c", 0)];
            var w := RunLife(NEW, ME, actions).w;
            var w' := PushOne(w, ME, "n", "c", 0).0;
            && AllAllowed(NEW, ME, actions) && Readable(w.server, ME) && Coherent(w, ME, "n", true) && Free(w, "c")
            && IsLive(w'.server, "n") && "n" !in w'.index
  {
    var row := Row(1, "b", "b");
    var l1 := Edited(NEW, "a");
    var l2 := Erased(l1);
    var l3 := Served(l2, One(row));
    Edits(NEW, "a");
    Erases(l1);
    assert Size(Text("b")) == 1;
    FirstPut(l2, "b");
    Skips(l3, row);
    OneIsReadable("b", "b", 1);
    Hides(l3.w);
    hide Readable, PushOne;
    hide Act, Allowed, Edited, Erased, Served, Uploaded, Downloaded, One, Second, Gone;
    Chain([Edit("n", Text("a"), true), Erase("n", true), Others(PutOp(Theirs(0, "b"))), Pull(row, "c", 0)],
          [NEW, l1, l2, l3, l3]);
  }

  lemma Hides(w: World)
    requires w.disk == map[] && w.index == map["n" := Entry(0, None, None, true)] && w.server == One(Row(1, "b", "b"))
    ensures Coherent(w, ME, "n", true) && Free(w, "c")
    ensures PushOne(w, ME, "n", "c", 0).0 == DropEntry(w, "n")
  {
    hide Upload, PushDeletion;
  }

  function Second(first: File, text: string): State {
    var f := Row(2, text, "b");
    State(map["n" := f],
          map[("n", 1) := Revision(first.hash, 0, 1), ("n", 2) := Revision(f.hash, 0, 2)], 2)
  }

  lemma SecondPut(l: Life, first: string, author: string, text: string)
    requires l.w.server == One(Row(1, first, author)) && |text| == Size(Text(text)) && first != text
    ensures Act(l, ME, Others(PutOp(Theirs(1, text)))) == Served(l, Second(Row(1, first, author), text))
    ensures Allowed(l, Others(PutOp(Theirs(1, text))))
    ensures WasLogged(Served(l, Second(Row(1, first, author), text)).w, Row(2, text, "b"))
  {
    var t := Second(Row(1, first, author), text);
    assert Put(l.w.server, Theirs(1, text)).0 == t;
    assert ("n", 2) in t.revisions && t.revisions[("n", 2)].hash == Some(Sha256(Text(text)));
    assert ("n", 2, Sha256(Text(text))) in Committed(t);
    hide Put;
  }

  const SENT := Uploaded(Edited(NEW, "a"), "a")

  /** A file was sent, and then removed here while another device edited it. */
  const OVERTAKEN := Served(Erased(SENT), Second(Row(1, "a", "a"), "b"))

  const OVERTAKING := [Edit("n", Text("a"), true), Push("n", "c", 0), Erase("n", true), Others(PutOp(Theirs(1, "b")))]

  lemma Overtakes()
    ensures Leads(OVERTAKING, [NEW, Edited(NEW, "a"), SENT, Erased(SENT), OVERTAKEN])
    ensures WasLogged(OVERTAKEN.w, Row(2, "b", "b"))
  {
    Edits(NEW, "a");
    FirstPush(Edited(NEW, "a"), "a");
    Erases(SENT);
    assert Size(Text("b")) == 1;
    SecondPut(Erased(SENT), "a", "a", "b");
    hide Act, Allowed, Edited, Erased, Served, Uploaded, Second, WasLogged;
  }

  lemma OvertakenLooks()
    ensures var w := OVERTAKEN.w;
            && w.disk == map[] && w.server == Second(Row(1, "a", "a"), "b")
            && w.index == map["n" := Entry(1, Some(Sha256(Text("a"))), Some(Sha256(Text("a"))), true)]
  {
    hide Second;
  }

  /** A deletion is undone after a newer revision went by: the push leaves the device on the old content. */
  lemma ChangedBackStaysOld()
    ensures var actions := OVERTAKING + [Pull(Row(2, "b", "b"), "c", 0), Edit("n", Text("a"), true)];
            var w := RunLife(NEW, ME, actions).w;
            var w' := PushOne(w, ME, "n", "c", 0).0;
            && AllAllowed(NEW, ME, actions) && Coherent(w, ME, "n", false)
            && w'.disk == map["n" := Text("a")] && "n" in w'.index && !w'.index["n"].dirty
            && w'.server == w.server && IsLive(w.server, "n") && w.server.files["n"].hash == Some(Sha256(Text("b")))
  {
    var row, end := Row(2, "b", "b"), Edited(OVERTAKEN, "a");
    Overtakes();
    OvertakenLooks();
    Skips(OVERTAKEN, row);
    Edits(OVERTAKEN, "a");
    StaysOld(end.w);
    hide Act, Allowed, Edited, Erased, SENT, OVERTAKEN, PushOne, Coherent;
    Chain(OVERTAKING + [Pull(row, "c", 0), Edit("n", Text("a"), true)],
          [NEW, Edited(NEW, "a"), SENT, Erased(SENT), OVERTAKEN, OVERTAKEN, end]);
  }

  lemma StaysOld(w: World)
    requires w.disk == map["n" := Text("a")] && w.server == Second(Row(1, "a", "a"), "b")
    requires w.index == map["n" := Entry(1, Some(Sha256(Text("a"))), Some(Sha256(Text("a"))), true)]
    ensures Coherent(w, ME, "n", false) && IsLive(w.server, "n") && w.server.files["n"].hash == Some(Sha256(Text("b")))
    ensures PushOne(w, ME, "n", "c", 0).0 == w.(index := map["n" := w.index["n"].(dirty := false)])
  {
    hide Upload, PushDeletion;
  }

  function Gone(first: File): State {
    var f := Tombstone(first, 2, "b");
    State(map["n" := f],
          map[("n", 1) := Revision(first.hash, 0, 1), ("n", 2) := Revision(None, 0, 2)], 2)
  }

  lemma Deletes(l: Life, first: File)
    requires l.w.server == One(first) && first.path == "n" && first.rev == first.seqNo == 1 && first.mtime == 0 && !first.deleted
    ensures Act(l, ME, Others(DeleteOp("n", 1, "b"))) == Served(l, Gone(first)) && Allowed(l, Others(DeleteOp("n", 1, "b")))
  {
    assert Delete(l.w.server, "n", 1, "b").0 == Gone(first);
    hide Delete, Committed;
  }

  const DROPPED := Served(Served(SENT, Gone(Row(1, "a", "a"))), State(map[], map[], 2))

  lemma Drops()
    ensures Leads([Edit("n", Text("a"), true), Push("n", "c", 0), Others(DeleteOp("n", 1, "b")), Others(ForgetOp(1))],
                  [NEW, Edited(NEW, "a"), SENT, Served(SENT, Gone(Row(1, "a", "a"))), DROPPED])
  {
    Edits(NEW, "a");
    FirstPush(Edited(NEW, "a"), "a");
    Deletes(SENT, Row(1, "a", "a"));
    Forgets(Served(SENT, Gone(Row(1, "a", "a"))), Row(1, "a", "a"));
    hide Act, Allowed, Edited, Served, Uploaded, Gone;
  }

  lemma DroppedLooks()
    ensures var w := Edited(DROPPED, "b").w;
            && w.disk == map["n" := Text("b")] && w.server == State(map[], map[], 2)
            && w.index == map["n" := Entry(1, Some(Sha256(Text("a"))), Some(Sha256(Text("a"))), true)]
  {
    hide Gone;
  }

  /** The server forgets a path of which this device still has a revision: an edit of it never goes up. */
  lemma ForgottenPathFails()
    ensures var actions :=
              [Edit("n", Text("a"), true), Push("n", "c", 0), Others(DeleteOp("n", 1, "b")), Others(ForgetOp(1)),
               Edit("n", Text("b"), true)];
            var w := RunLife(NEW, ME, actions).w;
            && AllAllowed(NEW, ME, actions) && Readable(w.server, ME) && Free(w, "c")
            && "n" in w.index && w.index["n"].baseRev == 1
            && w.disk == map["n" := Text("b")] && PushOne(w, ME, "n", "c", 0) == (w, Failed)
  {
    Drops();
    DroppedLooks();
    Edits(DROPPED, "b");
    NeverGoesUp(Edited(DROPPED, "b").w);
    hide Act, Allowed, Edited, Served, SENT, DROPPED, Readable, PushOne;
    Chain([Edit("n", Text("a"), true), Push("n", "c", 0), Others(DeleteOp("n", 1, "b")), Others(ForgetOp(1)),
           Edit("n", Text("b"), true)],
          [NEW, Edited(NEW, "a"), SENT, Served(SENT, Gone(Row(1, "a", "a"))), DROPPED, Edited(DROPPED, "b")]);
  }

  lemma NeverGoesUp(w: World)
    requires w.disk == map["n" := Text("b")] && w.server == State(map[], map[], 2)
    requires w.index == map["n" := Entry(1, Some(Sha256(Text("a"))), Some(Sha256(Text("a"))), true)]
    ensures Readable(w.server, ME) && Free(w, "c") && PushOne(w, ME, "n", "c", 0) == (w, Failed)
  {
    ForgottenPathFailsExactly(w, ME, "n", "c", 0);
    hide PushOne;
  }

  lemma Forgets(l: Life, first: File)
    requires l.w.server == Gone(first) && first.mtime == 0
    ensures Act(l, ME, Others(ForgetOp(1))) == Served(l, State(map[], map[], 2)) && Allowed(l, Others(ForgetOp(1)))
  {
    assert Forget(l.w.server, 1) == State(map[], map[], 2);
    hide Forget, Committed;
  }

  /** An entry is kept for a retry while the file is deleted: the retry brings its content back as current. */
  lemma RetryBringsBack()
    ensures var actions := [Others(PutOp(Theirs(0, "b"))), Others(DeleteOp("n", 1, "b"))];
            var w := RunLife(NEW, ME, actions).w;
            var kept, current := Row(1, "b", "b"), Tombstone(Row(1, "b", "b"), 2, "b");
            var w' := ApplyRemote(w, ME, current, "c", 0).0;
            var r := Retry(w', ME, kept, "d", 0).0;
            && AllAllowed(NEW, ME, actions) && Coherent(w, ME, "n", false) && Free(w, "c")
            && w.server.files == map["n" := current] && w'.disk == map[]
            && r.disk == map["n" := Text("b")] && "n" in r.index && !r.index["n"].dirty
  {
    var row := Row(1, "b", "b");
    var l1 := Served(NEW, One(row));
    var l2 := Served(l1, Gone(row));
    assert Size(Text("b")) == 1;
    FirstPut(NEW, "b");
    Deletes(l1, row);
    BringsBack(l2.w);
    hide ApplyRemote, Retry;
    hide Act, Allowed, Edited, Erased, Served, Uploaded, Downloaded, One, Second, Gone;
    Chain([Others(PutOp(Theirs(0, "b"))), Others(DeleteOp("n", 1, "b"))], [NEW, l1, l2]);
  }

  lemma BringsBack(w: World)
    requires w.disk == map[] && w.index == map[] && w.server == Gone(Row(1, "b", "b"))
    ensures Coherent(w, ME, "n", false) && Free(w, "c")
    ensures var kept, current := Row(1, "b", "b"), Tombstone(Row(1, "b", "b"), 2, "b");
            var w' := ApplyRemote(w, ME, current, "c", 0).0;
            var r := Retry(w', ME, kept, "d", 0).0;
            && w' == w && r.disk == map["n" := Text("b")]
            && r.index == map["n" := Entry(1, kept.hash, kept.hash, false)]
  {
    var kept := Row(1, "b", "b");
    assert ApplyRemote(w, ME, Tombstone(kept, 2, "b"), "c", 0).0 == w;
    assert RevisionHash(w.server, "n", 1) == kept.hash;
    hide Reconcile;
  }

  // ---- the encryption in place --------------------------------------------------------------------

  /** Sealed names begin with a mark that readable ones do not have. */
  function Marked(): Names {
    Names(p => "#" + p, x => if x != "" && x[0] == '#' then Some(x[1..]) else None)
  }

  lemma MarkedIsHonest()
    ensures Honest(Marked()) && !Hidden(Marked(), "n")
  {
    forall p: Path
      ensures Marked().open(Marked().seal(p)) == Some(p)
    {
      assert ("#" + p)[1..] == p;
    }
  }

  function Downloaded(l: Life, f: File, text: string): Life {
    l.(w := l.w.(disk := l.w.disk["n" := Text(text)],
                 index := l.w.index["n" := Entry(f.rev, f.hash, Some(Sha256(Text(text))), false)]))
  }

  lemma Downloads(l: Life, text: string)
    requires l.w.server == One(Row(1, text, "b")) && l.w.disk == map[] && "n" !in l.w.index
    requires WasLogged(l.w, Row(1, text, "b"))
    ensures Act(l, ME, Pull(Row(1, text, "b"), "c", 0)) == Downloaded(l, Row(1, text, "b"), text)
    ensures Allowed(l, Pull(Row(1, text, "b"), "c", 0))
  {
    assert RevisionHash(l.w.server, "n", 1) == Some(Sha256(Text(text)));
    hide Reconcile, Size;
  }

  const TAKEN := Downloaded(Served(NEW, One(Row(1, "b", "b"))), Row(1, "b", "b"), "b")

  lemma Takes()
    ensures Leads([Others(PutOp(Theirs(0, "b"))), Pull(Row(1, "b", "b"), "c", 0), Edit("n", Text("e"), true)],
                  [NEW, Served(NEW, One(Row(1, "b", "b"))), TAKEN, Edited(TAKEN, "e")])
    ensures var w := Edited(TAKEN, "e").w;
            w.disk == map["n" := Text("e")] && w.conflicts == map[] && w.server == One(Row(1, "b", "b"))
  {
    assert Size(Text("b")) == 1;
    FirstPut(NEW, "b");
    Downloads(Served(NEW, One(Row(1, "b", "b"))), "b");
    Edits(TAKEN, "e");
    hide Act, Allowed, WasLogged, One;
  }

  /**
   A run is interrupted after the edit of a file was sealed: the next one puts the older
   readable content over the edit, without a trace of it on disk.
   */
  lemma RerunDropsEdit()
    ensures var actions :=
              [Others(PutOp(Theirs(0, "b"))), Pull(Row(1, "b", "b"), "c", 0), Edit("n", Text("e"), true)];
            var sealed := ME.(cipher := Key(1));
            var w := SealPath(RunLife(NEW, ME, actions).w, sealed, Marked(), None, "n", 0).0;
            var w' := ApplyRemote(w, ME, Row(1, "b", "b"), "c", 0).0;
            && AllAllowed(NEW, ME, actions)
            && SealedSettled(w, sealed, Marked(), "n") && w.disk == map["n" := Text("e")]
            && w'.disk == map["n" := Text("b")] && w'.conflicts == map[]
  {
    Takes();
    hide Act, Allowed, Edited, TAKEN, SealPath, ApplyRemote, SealedSettled;
    Chain([Others(PutOp(Theirs(0, "b"))), Pull(Row(1, "b", "b"), "c", 0), Edit("n", Text("e"), true)],
          [NEW, Served(NEW, One(Row(1, "b", "b"))), TAKEN, Edited(TAKEN, "e")]);
    var w := Edited(TAKEN, "e").w;
    SealsEdit(w);
    DropsEdit(SealPath(w, ME.(cipher := Key(1)), Marked(), None, "n", 0).0);
  }

  lemma SealsEdit(w: World)
    requires w.disk == map["n" := Text("e")] && w.conflicts == map[] && w.server == One(Row(1, "b", "b"))
    ensures var sealed := ME.(cipher := Key(1));
            var r := SealPath(w, sealed, Marked(), None, "n", 0);
            && r.1 && SealedSettled(r.0, sealed, Marked(), "n") && r.0.disk == w.disk && r.0.conflicts == w.conflicts
            && "n" in r.0.index && r.0.index["n"].plainHash == Some(Sha256(Text("e"))) && r.0.index["n"].baseRev == 1
            && "n" in r.0.server.files && ("n", 1) in r.0.server.revisions
            && r.0.server.revisions[("n", 1)] == w.server.revisions[("n", 1)]
  {
    assert "#" + "n" == "#n";
    assert "#n" !in w.server.files;
    SealOpens(Key(1), Text("e"));
    hide Committed, Size;
  }

  lemma DropsEdit(w: World)
    requires w.disk == map["n" := Text("e")] && w.conflicts == map[] && "n" in w.server.files
    requires "n" in w.index && w.index["n"].plainHash == Some(Sha256(Text("e"))) && w.index["n"].baseRev == 1
    requires ("n", 1) in w.server.revisions && w.server.revisions[("n", 1)].hash == Some(Sha256(Text("b")))
    ensures var w' := ApplyRemote(w, ME, Row(1, "b", "b"), "c", 0).0;
            w'.disk == map["n" := Text("b")] && w'.conflicts == map[]
  {
    assert RevisionHash(w.server, "n", 1) == Some(Sha256(Text("b")));
    hide Reconcile;
  }

  /** A file is deleted here and edited on another device: the run leaves it off the disk, and then erases it. */
  lemma LeavesBehind()
    ensures var w := RunLife(NEW, ME, OVERTAKING).w;
            var f := Row(2, "b", "b");
            && AllAllowed(NEW, ME, OVERTAKING) && Coherent(w, ME, "n", false) && Free(w, "c")
            && IsLive(w.server, "n") && w.server.files["n"] == f
            && LeftBehind(w, ME, f) && ApplyRemote(w, ME, f, "c", 0) == (w, Done) && w.disk == map[]
  {
    Overtakes();
    OvertakenLooks();
    StaysOff(OVERTAKEN.w);
    hide Act, Allowed, Edited, Erased, SENT, OVERTAKEN, ApplyRemote, Coherent;
    Chain(OVERTAKING, [NEW, Edited(NEW, "a"), SENT, Erased(SENT), OVERTAKEN]);
  }

  lemma StaysOff(w: World)
    requires w.disk == map[] && w.server == Second(Row(1, "a", "a"), "b")
    requires w.index == map["n" := Entry(1, Some(Sha256(Text("a"))), Some(Sha256(Text("a"))), true)]
    ensures var f := Row(2, "b", "b");
            && Coherent(w, ME, "n", false) && Free(w, "c")
            && IsLive(w.server, "n") && w.server.files["n"] == f
            && LeftBehind(w, ME, f) && ApplyRemote(w, ME, f, "c", 0) == (w, Done)
  {
    hide Reconcile;
  }

  /** The one file of a vault is excluded on the device that encrypts it: the run ends well, and the file is gone. */
  method ErasesExcluded() returns (engine: SyncEngine, before: State, end: Ending)
    ensures engine.cfg.excludes == ["n"] && before == One(Row(1, "b", "b")) && IsLive(before, "n")
    ensures end.Finished?
    ensures !IsLive(engine.server.Snapshot(), "n") && !IsLive(engine.server.Snapshot(), Marked().seal("n"))
  {
    var server := new Tables();
    var _ := server.PutFile(Theirs(0, "b"));
    before := server.Snapshot();
    assert before == One(Row(1, "b", "b")) by {
      assert Size(Text("b")) == 1;
    }
    OneIsReadable("b", "b", 1);
    MarkedIsHonest();
    engine := new SyncEngine(ME.(excludes := ["n"]), server, map[]);
    var run := new Migrator(engine, 1, Marked(), 0, {}, []);
    ghost var w0 := engine.Now();
    NothingMergesIn(w0, engine.cfg);
    hide Readable, RenamesOrdered, Complete, Safe, Stuck, SomeMerges, LifeOk, AllAllowed, NeverLoses, Size, Marked;
    ghost var trace;
    end, trace := run.EncryptInPlace(None, 0);
    VanishesExactly(w0, engine.Now(), engine.cfg, run.sealed, Marked(), 0, "n");
  }

  lemma NothingMergesIn(w: World, cfg: Config)
    requires w.disk == map[] && w.server == One(Row(1, "b", "b"))
    requires cfg == ME.(excludes := ["n"])
    ensures !SomeMerges(w, cfg, Marked()) && Excluded(cfg, "n")
    ensures Canonical(Marked(), w.server) && Ordinary(w.server, cfg, Marked()) && RenamesOrdered(w.server)
    ensures !IsLive(w.server, Marked().seal("n")) && !Hidden(Marked(), "n")
  {
    assert cfg.excludes[0] == "n" && "n" <= "n";
    assert cfg.excludes[0] in cfg.excludes;
    assert Marked().seal("n") == "#n";
    OneIsReadable("b", "b", 1);
    MarkedIsHonest();
    hide MergesIn;
  }

  /** Another device's empty file is filled here before a run: the run sends the merge and is then refused. */
  lemma MergeStalls()
    ensures var actions := [Others(PutOp(Theirs(0, ""))), Edit("n", Text("m"), true)];
            var w := RunLife(NEW, ME, actions).w;
            && AllAllowed(NEW, ME, actions)
            && Canonical(Marked(), w.server) && Ordinary(w.server, ME, Marked()) && RenamesOrdered(w.server)
            && Stuck(w, ME, Marked())
  {
    var row := Row(1, "", "b");
    var l1 := Served(NEW, One(row));
    var l2 := Edited(l1, "m");
    assert Size(Text("")) == 0;
    FirstPut(NEW, "");
    Edits(l1, "m");
    OneIsReadable("", "b", 1);
    OneIsOrdinary(row);
    IsStuck(l2.w);
    hide Readable, RenamesOrdered, Stuck, Canonical, Ordinary, Marked;
    hide Act, Allowed, Edited, Erased, Served, Uploaded, Downloaded, One, Second, Gone;
    Chain([Others(PutOp(Theirs(0, ""))), Edit("n", Text("m"), true)], [NEW, l1, l2]);
  }

  lemma OneIsOrdinary(row: File)
    requires row == Row(1, "", "b")
    ensures Canonical(Marked(), One(row)) && Ordinary(One(row), ME, Marked())
  {
    MarkedIsHonest();
  }

  lemma IsStuck(w: World)
    requires w.disk == map["n" := Text("m")] && w.index == map["n" := Entry(0, None, None, true)]
    requires w.server == One(Row(1, "", "b"))
    ensures Stuck(w, ME, Marked())
  {
    var f := Row(1, "", "b");
    FillsEmpty(w);
    MarkedIsHonest();
    assert IsLive(w.server, "n") && w.server.files["n"] == f && f.path == "n";
    hide EngineEdits.CleanMerge, Marked, Size;
    assert MergesIn(w, ME, f);
  }

  lemma FillsEmpty(w: World)
    requires w.disk == map["n" := Text("m")] && w.index == map["n" := Entry(0, None, None, true)]
    requires w.server == One(Row(1, "", "b"))
    ensures EngineEdits.CleanMerge(w, ME, "n", Text("m")) == Some(Text("m"))
  {
    EmptyGivesMine("m");
    assert FetchCurrent(w, ME, "n") == Got(Text(""), Sha256(Text(""))) && AncestorAt(w, ME, "n") == Base("");
    hide Diff3.Merge, FetchCurrent, AncestorAt;
    assert Utf8Length("m") == 1 && Utf8Length("") == 0;
  }

  lemma EmptyGivesMine(mine: string)
    ensures MergedText(ME, "", mine, "") == Diff3.MergeResult(true, mine, 0)
  {
    hide Diff3.MergeRegions;
  }
}
