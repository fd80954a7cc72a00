/**
 Short histories in which an edit or a file falls behind: the app is killed, or an entry
 that failed is tried again.
 */
module CrashExamples {
  import opened Content
  import opened Store
  import opened Engine
  import opened StoreLaws
  import opened EngineSafety
  import opened EngineStored
  import opened EnginePass
  import opened EngineKilled
  import opened EngineRetry
  import opened EngineLife
  import opened Examples

  function Saved(l: Life): Life {
    l.(saved := l.w.index)
  }

  function Restored(l: Life): Life {
    l.(w := l.w.(index := l.saved))
  }

  lemma SavesAndRestores(l: Life)
    ensures Act(l, ME, Checkpoint) == Saved(l) && Act(l, ME, EngineSafety.Crash) == Restored(l)
    ensures Allowed(l, Checkpoint) && Allowed(l, EngineSafety.Crash)
  {
  }

  const FORGETTING :=
    [Edit("n", Text("a"), true), Push("n", "c", 0), Checkpoint, Edit("n", Text("b"), true), EngineSafety.Crash]

  /** An edit is noticed, but the app is killed before the index is written again: it is not sent. */
  lemma CrashForgetsEdit()
    ensures var w := RunLife(NEW, ME, FORGETTING).w;
            && AllAllowed(NEW, ME, FORGETTING) && LosesMarks(w, ME)
            && w.disk == map["n" := Text("b")] && IsLive(w.server, "n") && w.server.files["n"] == Row(1, "a", "a")
            && ApplyRemote(w, ME, Row(1, "a", "a"), "c", 0) == (w, Done) && Adopt(w, ME) == w
            && forall p <- w.index :: !w.index[p].dirty
  {
    var l3 := Saved(SENT);
    var l4 := Edited(l3, "b");
    Edits(NEW, "a");
    FirstPush(Edited(NEW, "a"), "a");
    SavesAndRestores(SENT);
    Edits(l3, "b");
    SavesAndRestores(l4);
    Forgotten(Restored(l4).w);
    hide Act, Allowed, Edited, SENT, Uploaded, Saved, Restored, ApplyRemote, Adopt, LosesMarks;
    Chain(FORGETTING, [NEW, Edited(NEW, "a"), SENT, l3, l4, Restored(l4)]);
  }

  lemma Forgotten(w: World)
    requires w.disk == map["n" := Text("b")] && w.server == One(Row(1, "a", "a"))
    requires w.index == map["n" := Entry(1, Some(Sha256(Text("a"))), Some(Sha256(Text("a"))), false)]
    ensures LosesMarks(w, ME) && ApplyRemote(w, ME, Row(1, "a", "a"), "c", 0) == (w, Done) && Adopt(w, ME) == w
  {
    assert MarkLost(w, "n");
    hide ApplyContent, ApplyDeletion, MoveLocal;
  }

  // ---- a file taken away before the kill -----------------------------------------------------------

  /** The other device edits the file and renames it, and this one sends the same edit under the old name. */
  const EDITED := Second(Row(1, "a", "a"), "b")
  const RENAMED := Rename(EDITED, "n", "m", 2, "b").0
  const ARRIVED := File("m", 1, 3, Some(Sha256(Text("b"))), Size(Text("b")), 0, false, false, "b", Some("n"))
  const SENT_AGAIN := File("n", 4, 5, Some(Sha256(Text("b"))), Size(Text("b")), 0, false, false, "a", None)
  const REVIVED := Commit(RENAMED, SENT_AGAIN)

  lemma Renames()
    ensures RENAMED.files == map["m" := ARRIVED, "n" := Tombstone(Row(2, "b", "b"), 4, "b")] && RENAMED.counter == 4
    ensures REVIVED.files == map["m" := ARRIVED, "n" := SENT_AGAIN]
  {
  }

  lemma RenamesServed(l: Life)
    requires l.w.server == EDITED
    ensures Act(l, ME, Others(RenameOp("n", "m", 2, "b"))) == Served(l, RENAMED)
    ensures Allowed(l, Others(RenameOp("n", "m", 2, "b")))
  {
    hide Rename, Committed, Second;
  }

  function SentAgain(l: Life): Life {
    Served(l.(w := l.w.(index := l.w.index["n" := Entry(4, SENT_AGAIN.hash, SENT_AGAIN.hash, false)])), REVIVED)
  }

  lemma PushesAgain(l: Life)
    requires l.w.server == RENAMED && l.w.disk == map["n" := Text("b")]
    requires "n" in l.w.index && l.w.index["n"].baseRev == 1 && l.w.index["n"].plainHash == Some(Sha256(Text("a")))
    ensures Act(l, ME, Push("n", "c", 0)) == SentAgain(l) && Allowed(l, Push("n", "c", 0))
  {
    ServerTakesAgain();
    hide Put, SendArgs, Committed, Reconcile, Size, RENAMED, REVIVED, SENT_AGAIN;
    SendsAgain(l.w);
  }

  lemma ServerTakesAgain()
    ensures Put(RENAMED, SendArgs(ME, "n", 1, Text("b"), 0)).1 == Conflict("n", 3, None, true, "b")
    ensures Put(RENAMED, SendArgs(ME, "n", 3, Text("b"), 0)) == (REVIVED, Ok(SENT_AGAIN))
  {
    Renames();
    hide RENAMED, Committed, Size;
  }

  lemma SendsAgain(w: World)
    requires w.server == RENAMED
    ensures Send(w, ME, "n", 1, Text("b"), 0) == (w, Conflict("n", 3, None, true, "b"))
    ensures Send(w, ME, "n", 3, Text("b"), 0) ==
              (SetEntry(Engine.Serve(w, PutOp(SendArgs(ME, "n", 3, Text("b"), 0))), "n",
                        Entry(4, SENT_AGAIN.hash, SENT_AGAIN.hash, false)), Ok(SENT_AGAIN))
  {
    ServerTakesAgain();
    hide Put, Committed, Size, RENAMED, REVIVED;
  }

  /** The actions are allowed and lead to this life. */
  ghost predicate Reaches(actions: seq<Action>, l: Life) {
    RunLife(NEW, ME, actions) == l && AllAllowed(NEW, ME, actions)
  }

  lemma ReachesOn(actions: seq<Action>, l: Life, a: Action, l': Life)
    requires Reaches(actions, l) && Allowed(l, a) && l' == Act(l, ME, a)
    ensures Reaches(actions + [a], l')
  {
    RunLifeOn(NEW, ME, actions, a);
    hide Allowed, Act;
  }

  const BEHIND := Served(SENT, EDITED)
  const LEFT := Served(BEHIND, RENAMED)
  const SAME := Edited(LEFT, "b")
  const SETTLED := SentAgain(SAME)

  const TRADING := [Edit("n", Text("a"), true), Push("n", "c", 0), Others(PutOp(Theirs(1, "b")))]
  const MOVING :=
    TRADING + [Others(RenameOp("n", "m", 2, "b"))] + [Edit("n", Text("b"), true)] + [Push("n", "c", 0)] + [Checkpoint]

  lemma Trading()
    ensures Reaches(TRADING, BEHIND)
  {
    Edits(NEW, "a");
    FirstPush(Edited(NEW, "a"), "a");
    assert Size(Text("b")) == 1;
    SecondPut(SENT, "a", "a", "b");
    hide Act, Allowed, Edited, Served, Uploaded, Second, WasLogged;
    Chain(TRADING, [NEW, Edited(NEW, "a"), SENT, BEHIND]);
  }

  lemma SameLooks()
    ensures BEHIND.w.server == EDITED && LEFT.w.server == RENAMED
    ensures var w := SAME.w;
            && w.server == RENAMED && w.disk == map["n" := Text("b")]
            && w.index == map["n" := Entry(1, Some(Sha256(Text("a"))), Some(Sha256(Text("a"))), true)]
  {
    hide EDITED, RENAMED, Committed;
  }

  lemma Moving()
    ensures Reaches(MOVING, Saved(SETTLED))
  {
    Trading();
    SameLooks();
    RenamesServed(BEHIND);
    Edits(LEFT, "b");
    PushesAgain(SAME);
    SavesAndRestores(SETTLED);
    hide Act, Allowed, Reaches, Saved, BEHIND, LEFT, SAME, SETTLED, TRADING, Edited, SENT, RENAMED, EDITED, Served, SentAgain;
    ReachesOn(TRADING, BEHIND, Others(RenameOp("n", "m", 2, "b")), LEFT);
    var first := TRADING + [Others(RenameOp("n", "m", 2, "b"))];
    ReachesOn(first, LEFT, Edit("n", Text("b"), true), SAME);
    ReachesOn(first + [Edit("n", Text("b"), true)], SAME, Push("n", "c", 0), SETTLED);
    ReachesOn(first + [Edit("n", Text("b"), true)] + [Push("n", "c", 0)], SETTLED, Checkpoint, Saved(SETTLED));
  }

  /** What a world looks like whose file m is the one that was n. */
  function Taken(l: Life): Life {
    l.(w := l.w.(disk := map["m" := Text("b")],
                 index := l.w.index - {"n"} + map["m" := Entry(1, ARRIVED.hash, ARRIVED.hash, false)]))
  }

  /** With the file taken away the entry comes back, and takes its own row for an echo: the file does not. */
  lemma KillTakesFile()
    ensures var actions :=
              MOVING + [Pull(ARRIVED, "c", 0)] + [EngineSafety.Crash] + [Pull(ARRIVED, "c", 0)] + [Pull(SENT_AGAIN, "c", 0)];
            var v, w := RunLife(NEW, ME, MOVING).w, RunLife(NEW, ME, actions).w;
            && AllAllowed(NEW, ME, actions) && TakesAway(v, v, ME, ARRIVED)
            && w.server.files == map["m" := ARRIVED, "n" := SENT_AGAIN] && w.disk == map["m" := Text("b")]
            && Adopt(w, ME) == w && forall p <- w.index :: !w.index[p].dirty
  {
    var l7 := Saved(SETTLED);
    var l8 := Taken(l7);
    var l9 := Restored(l8);
    Moving();
    SettledLooks();
    Takes(l7);
    SavesAndRestores(l8);
    ComesBack(l9);
    Ends(l7);
    Reached(MOVING, l7);
    hide TakesAway, Act, Allowed, Reaches, SETTLED, MOVING, Saved, Restored, Taken, Arrived, ARRIVED, SENT_AGAIN;
    hide Adopt, WasLogged;
    ReachesOn(MOVING, l7, Pull(ARRIVED, "c", 0), l8);
    var taken := MOVING + [Pull(ARRIVED, "c", 0)];
    ReachesOn(taken, l8, EngineSafety.Crash, l9);
    ReachesOn(taken + [EngineSafety.Crash], l9, Pull(ARRIVED, "c", 0), Arrived(l9));
    ReachesOn(taken + [EngineSafety.Crash] + [Pull(ARRIVED, "c", 0)], Arrived(l9), Pull(SENT_AGAIN, "c", 0), Arrived(l9));
    Reached(taken + [EngineSafety.Crash] + [Pull(ARRIVED, "c", 0)] + [Pull(SENT_AGAIN, "c", 0)], Arrived(l9));
  }

  lemma Reached(actions: seq<Action>, l: Life)
    requires Reaches(actions, l)
    ensures RunLife(NEW, ME, actions) == l && AllAllowed(NEW, ME, actions)
  {
  }

  lemma Ends(l: Life)
    requires l.saved == l.w.index == map["n" := Entry(4, SENT_AGAIN.hash, SENT_AGAIN.hash, false)]
    ensures var w := Arrived(Restored(Taken(l))).w;
            && w.disk == map["m" := Text("b")] && w.server == l.w.server && (forall p <- w.index :: !w.index[p].dirty)
            && Restored(Taken(l)).w.accepted == l.w.accepted && Restored(Taken(l)).w.index == l.w.index
  {
    hide ARRIVED, SENT_AGAIN;
  }

  function Arrived(l: Life): Life {
    l.(w := SetEntry(l.w, "m", Entry(1, ARRIVED.hash, ARRIVED.hash, false)))
  }

  lemma SettledLooks()
    ensures var w := SETTLED.w;
            && w.disk == map["n" := Text("b")]
            && w.server == REVIVED && REVIVED.files == map["m" := ARRIVED, "n" := SENT_AGAIN]
            && w.index == map["n" := Entry(4, SENT_AGAIN.hash, SENT_AGAIN.hash, false)]
            && WasLogged(w, ARRIVED) && WasLogged(w, SENT_AGAIN)
  {
    SameLooks();
    Renames();
    BothStored();
    hide SAME, RENAMED, REVIVED, ARRIVED, Committed, Size;
  }

  lemma BothStored()
    ensures ARRIVED.hash.Some? && SENT_AGAIN.hash.Some?
    ensures (ARRIVED.path, ARRIVED.rev, ARRIVED.hash.value) in Committed(REVIVED)
    ensures (SENT_AGAIN.path, SENT_AGAIN.rev, SENT_AGAIN.hash.value) in Committed(REVIVED)
  {
    assert ("m", 1) in REVIVED.revisions && REVIVED.revisions[("m", 1)].hash == ARRIVED.hash;
    assert ("n", 4) in REVIVED.revisions && REVIVED.revisions[("n", 4)].hash == SENT_AGAIN.hash;
    hide Size, Row;
  }

  lemma Takes(l: Life)
    requires l.w.disk == map["n" := Text("b")] && WasLogged(l.w, ARRIVED)
    requires l.w.server.files == map["m" := ARRIVED, "n" := SENT_AGAIN]
    requires l.w.index == map["n" := Entry(4, SENT_AGAIN.hash, SENT_AGAIN.hash, false)]
    ensures Act(l, ME, Pull(ARRIVED, "c", 0)) == Taken(l) && Allowed(l, Pull(ARRIVED, "c", 0))
    ensures TakesAway(l.w, l.w, ME, ARRIVED)
    ensures Taken(l).w.index == map["m" := Entry(1, ARRIVED.hash, ARRIVED.hash, false)]
  {
    hide ApplyContent, WasLogged;
  }

  lemma ComesBack(l: Life)
    requires l.w.disk == map["m" := Text("b")] && WasLogged(l.w, ARRIVED) && WasLogged(l.w, SENT_AGAIN)
    requires l.w.index == map["n" := Entry(4, SENT_AGAIN.hash, SENT_AGAIN.hash, false)]
    ensures Act(l, ME, Pull(ARRIVED, "c", 0)) == Arrived(l) && Allowed(l, Pull(ARRIVED, "c", 0))
    ensures Act(Arrived(l), ME, Pull(SENT_AGAIN, "c", 0)) == Arrived(l) && Allowed(Arrived(l), Pull(SENT_AGAIN, "c", 0))
    ensures Adopt(Arrived(l).w, ME) == Arrived(l).w
  {
    StaysLogged(l, SENT_AGAIN);
    hide Reconcile, Download, WasLogged;
  }

  lemma StaysLogged(l: Life, f: File)
    requires WasLogged(l.w, f)
    ensures WasLogged(Arrived(l).w, f)
  {
  }

  // ---- a file taken away by a retry ------------------------------------------------------------------

  /** The rename was kept; meanwhile its old name is in use again, here with the renamed content, and that row is read. */
  lemma RetryTakesFile()
    ensures var actions := MOVING + [Note(map[], 5)];
            var w := RunLife(NEW, ME, actions).w;
            var w' := Retry(w, ME, ARRIVED, "c", 0).0;
            && AllAllowed(NEW, ME, actions) && w.disk == map["n" := Text("b")]
            && w.server.files == map["m" := ARRIVED, "n" := SENT_AGAIN] && MovesRead(w, ME, ARRIVED)
            && w'.disk == map["m" := Text("b")] && "n" !in w'.index && IsLive(w'.server, "n") && !Unseen(w', "n")
  {
    var l7 := Saved(SETTLED);
    var l8 := Read(l7);
    Moving();
    SettledLooks();
    TakesAgain(l8.w);
    Reads(l7);
    hide Act, Allowed, Reaches, SETTLED, MOVING, Saved, Read, ARRIVED, SENT_AGAIN, MovesRead, Retry, WasLogged, REVIVED;
    ReachesOn(MOVING, l7, Note(map[], 5), l8);
    Reached(MOVING + [Note(map[], 5)], l8);
  }

  function Read(l: Life): Life {
    l.(w := l.w.(conflicts := map[], cursor := 5))
  }

  lemma Reads(l: Life)
    ensures Act(l, ME, Note(map[], 5)) == Read(l) && Allowed(l, Note(map[], 5))
  {
  }

  lemma TakesAgain(w: World)
    requires w.disk == map["n" := Text("b")] && w.server.files == map["m" := ARRIVED, "n" := SENT_AGAIN] && w.cursor == 5
    requires w.index == map["n" := Entry(4, SENT_AGAIN.hash, SENT_AGAIN.hash, false)]
    ensures MovesRead(w, ME, ARRIVED)
    ensures var w' := Retry(w, ME, ARRIVED, "c", 0).0;
            w'.disk == map["m" := Text("b")] && "n" !in w'.index && w'.server == w.server && w'.cursor == 5
  {
    hide ApplyContent;
  }
}
