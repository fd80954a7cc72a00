/**
 Encrypting a vault in place: what a run must keep, step by step
 (src/sync-engine.ts:352-487, server/internal/api/api.go:539-619).

 One server holds readable names and sealed ones side by side until the last readable
 copy is gone.  MigrationRun has the run itself.
 */
module Migration {
  import opened Content
  import opened Store
  import opened StoreLaws
  import opened Engine
  import opened EngineQuiet
  import opened VaultNames
  import ChangeLog
  import EngineEdits
  import Diff3

  // ---- names -----------------------------------------------------------------------

  predicate Hidden(n: Names, x: Path) {
    n.open(x).Some?
  }

  /** Every name on the server that opens is one the cipher makes. */
  ghost predicate Canonical(n: Names, s: State) {
    forall x <- s.files :: Hidden(n, x) ==> x == n.seal(n.open(x).value)
  }

  lemma SealsApart(n: Names, p: Path, q: Path)
    requires Honest(n) && n.seal(p) == n.seal(q)
    ensures p == q
  {
    assert n.open(n.seal(p)) == Some(p) && n.open(n.seal(q)) == Some(q);
  }

  lemma SealedIsHidden(n: Names, p: Path)
    requires Honest(n)
    ensures Hidden(n, n.seal(p)) && n.open(n.seal(p)) == Some(p)
  {
  }

  // ---- what the run keeps ----------------------------------------------------------------

  /** The disk content of a path is live on the server under its sealed name. */
  ghost predicate SealedCopy(w: World, sealed: Config, n: Names, p: Path) {
    && p in w.disk && IsLive(w.server, n.seal(p))
    && Opens(sealed, w.server.files[n.seal(p)].hash, w.disk[p])
  }

  /** And the index stands at that row. */
  ghost predicate SealedSettled(w: World, sealed: Config, n: Names, p: Path) {
    && SealedCopy(w, sealed, n, p) && p in w.index
    && var f := w.server.files[n.seal(p)];
       w.index[p] == Entry(f.rev, f.hash, Some(Sha256(w.disk[p])), false)
  }

  ghost predicate SealedStay(s: State, t: State, n: Names) {
    forall x | Hidden(n, x) && IsLive(s, x) :: IsLive(t, x)
  }

  /** Readable rows live now were live before. */
  ghost predicate NoNewReadable(s: State, t: State, n: Names) {
    forall x | !Hidden(n, x) && IsLive(t, x) :: IsLive(s, x)
  }

  /** The live sealed rows are the same. */
  ghost predicate SameSealed(s: State, t: State, n: Names) {
    forall x | Hidden(n, x) :: (IsLive(s, x) <==> IsLive(t, x)) && (IsLive(s, x) ==> s.files[x] == t.files[x])
  }

  // ---- one write on the server ---------------------------------------------------------------

  /** A write at one path leaves every other row as it was. */
  lemma PutElsewhere(s: State, a: PutArgs, x: Path)
    requires x != a.path
    ensures var t := Put(s, a).0; (x in s.files <==> x in t.files) && (x in s.files ==> s.files[x] == t.files[x])
  {
  }

  lemma DeleteElsewhere(s: State, p: Path, baseRev: int, author: string, x: Path)
    requires Inv(s) && x != p
    ensures var t := Delete(s, p, baseRev, author).0;
            (x in s.files <==> x in t.files) && (x in s.files ==> s.files[x] == t.files[x])
  {
    OwnPath(s, p);
  }

  /** Applying a log entry writes, if anything, a new content at the entry's own path. */
  lemma RemoteWrites(w: World, cfg: Config, f: File, copy: Path, now: int)
    ensures var t := ApplyRemote(w, cfg, f, copy, now).0.server;
            t == w.server || exists a: PutArgs :: a.path == f.path && a.mtime == now && t == Put(w.server, a).0
  {
    hide Put, Diff3.Merge, Mergeable, Fetch, AncestorText, Untouched;
    if !Echo(w, cfg, f) && !f.deleted && !MovesLocally(w, cfg, f) {
      ContentWrites(w, cfg, f, copy, now);
    }
  }

  lemma ContentWrites(w: World, cfg: Config, f: File, copy: Path, now: int)
    ensures var t := ApplyContent(w, cfg, f, copy, now).0.server;
            t == w.server || exists a: PutArgs :: a.path == f.path && a.mtime == now && t == Put(w.server, a).0
  {
    hide Diff3.Merge, Mergeable, Fetch, AncestorText;
    if f.path in w.disk {
      ReconcileWrites(w, cfg, f.path, w.disk[f.path], f.rev,
                      if f.path in w.index then w.index[f.path].baseRev else 0, copy, now);
    }
    hide Reconcile;
  }

  lemma ReconcileWrites(w: World, cfg: Config, p: Path, local: Bytes, serverRev: int, baseRev: int, copy: Path, now: int)
    ensures var t := Reconcile(w, cfg, p, local, serverRev, baseRev, copy, now).0.server;
            t == w.server || exists a: PutArgs :: a.path == p && a.mtime == now && t == Put(w.server, a).0
  {
    hide Diff3.Merge, Fetch, Put;
    var g := Fetch(w, cfg, p, serverRev);
    if g.Got? && Mergeable(local) && Mergeable(g.plain) {
      var base := AncestorText(w, cfg, p, baseRev);
      if base.Base? {
        var m := MergedText(cfg, base.text, local.text, g.plain.text);
        var a := SendArgs(cfg, p, serverRev, Text(m.text), now);
        assert a.path == p;
      }
    }
  }

  // ---- the phases -----------------------------------------------------------------------------

  ghost predicate Steady(s: State, t: State, n: Names) {
    && Inv(t) && Canonical(n, t) && SealedStay(s, t, n) && NoNewReadable(s, t, n)
  }

  /** Nothing readable has been erased yet. */
  ghost predicate StillReadable(s: State, t: State, n: Names) {
    forall x | !Hidden(n, x) && IsLive(s, x) :: IsLive(t, x)
  }

  predicate Dated(s: State) {
    forall x <- s.files :: s.files[x].mtime < MAX_INT64
  }

  lemma PutKeepsSteady(s: State, t: State, n: Names, a: PutArgs)
    requires Honest(n) && Steady(s, t, n) && (if Hidden(n, a.path) then a.path == n.seal(n.open(a.path).value) else IsLive(t, a.path))
    ensures var u := Put(t, a).0;
            && Steady(s, u, n) && (StillReadable(s, t, n) ==> StillReadable(s, u, n))
            && (Dated(t) && a.mtime < MAX_INT64 ==> Dated(u))
  {
    StepKeepsInv(t, PutOp(a));
    var u := Put(t, a).0;
    hide Inv;
    forall x
      ensures x != a.path ==> (x in t.files <==> x in u.files) && (x in t.files ==> t.files[x] == u.files[x])
      ensures IsLive(t, x) ==> IsLive(u, x)
    {
      if x != a.path {
        PutElsewhere(t, a, x);
      }
    }
    hide Put;
  }

  lemma EraseKeepsSteady(s: State, t: State, n: Names, p: Path, baseRev: int, author: string)
    requires Steady(s, t, n) && !Hidden(n, p)
    ensures var u := Delete(t, p, baseRev, author).0;
            && Steady(s, u, n) && (Dated(t) ==> Dated(u))
            && (forall x | x != p && IsLive(u, x) :: IsLive(t, x))
            && (Delete(t, p, baseRev, author).1.Ok? ==> !IsLive(u, p))
  {
    StepKeepsInv(t, DeleteOp(p, baseRev, author));
    OwnPath(t, p);
    var u := Delete(t, p, baseRev, author).0;
    hide Inv;
    forall x
      ensures x != p ==> (x in t.files <==> x in u.files) && (x in t.files ==> t.files[x] == u.files[x])
      ensures IsLive(u, x) ==> IsLive(t, x)
    {
    }
  }

  /** The answer to a deletion carries the newest number, unless the file was deleted before. */
  lemma EraseNumber(t: State, p: Path, baseRev: int, author: string)
    requires Inv(t)
    ensures var r := Delete(t, p, baseRev, author);
            && 0 <= t.counter <= r.0.counter
            && (r.1.Ok? ==>
                  && 0 < r.1.file.seqNo <= r.0.counter
                  && (IsLive(t, p) ==> r.1.file.seqNo == r.0.counter)
                  && (!IsLive(t, p) ==> r.0 == t))
  {
    assert RowRecorded(t, p);
  }

  lemma EraseKeepsSealed(w: World, w': World, sealed: Config, n: Names, p: Path, q: Path, baseRev: int, author: string)
    requires Inv(w.server) && Honest(n) && !Hidden(n, p) && SealedSettled(w, sealed, n, q)
    requires w'.disk == w.disk && w'.index == w.index && w'.server == Delete(w.server, p, baseRev, author).0
    ensures SealedSettled(w', sealed, n, q)
  {
    SealedIsHidden(n, q);
    DeleteElsewhere(w.server, p, baseRev, author, n.seal(q));
    hide Inv, Delete;
  }

  // ---- the run -----------------------------------------------------------------------------------

  datatype Ending = Finished | Stopped | Refused

  /** Entries by name: readable ones in order, sealed ones under their local name. */
  method SortEntries(n: Names, entries: seq<File>) returns (readable: seq<File>, hidden: map<Path, File>)
    requires ChangeLog.Ascending(entries)
    ensures ChangeLog.Ascending(readable)
    ensures forall f <- readable :: f in entries && !f.deleted && !Hidden(n, f.path)
    ensures forall f <- entries :: !f.deleted && !Hidden(n, f.path) ==> f in readable
    ensures forall p <- hidden :: hidden[p] in entries && !hidden[p].deleted && n.open(hidden[p].path) == Some(p)
    ensures forall f <- entries :: !f.deleted && Hidden(n, f.path) ==> n.open(f.path).value in hidden
  {
    readable, hidden := [], map[];
    for i := 0 to |entries|
      invariant ChangeLog.Ascending(readable)
      invariant forall f <- readable, j | i <= j < |entries| :: f.seqNo < entries[j].seqNo
      invariant forall f <- readable :: f in entries && !f.deleted && !Hidden(n, f.path)
      invariant forall f <- entries[..i] :: !f.deleted && !Hidden(n, f.path) ==> f in readable
      invariant forall p <- hidden :: hidden[p] in entries && !hidden[p].deleted && n.open(hidden[p].path) == Some(p)
      invariant forall f <- entries[..i] :: !f.deleted && Hidden(n, f.path) ==> n.open(f.path).value in hidden
    {
      var f := entries[i];
      assert entries[..i + 1] == entries[..i] + [f];
      if !f.deleted {
        if Hidden(n, f.path) {
          hidden := hidden[n.open(f.path).value := f];
        } else {
          readable := readable + [f];
        }
      }
    }
  }

  lemma ListingParts(s: State, n: Names, entries: seq<File>, readable: seq<File>, hidden: map<Path, File>)
    requires Inv(s) && Honest(n) && Canonical(n, s)
    requires forall f <- entries :: f.path in s.files && s.files[f.path] == f
    requires forall p | p in s.files && 0 < s.files[p].seqNo <= s.counter :: s.files[p] in entries
    requires forall f <- readable :: f in entries && !f.deleted && !Hidden(n, f.path)
    requires forall f <- entries :: !f.deleted && !Hidden(n, f.path) ==> f in readable
    requires forall p <- hidden :: hidden[p] in entries && !hidden[p].deleted && n.open(hidden[p].path) == Some(p)
    requires forall f <- entries :: !f.deleted && Hidden(n, f.path) ==> n.open(f.path).value in hidden
    ensures forall f <- readable :: !Hidden(n, f.path) && IsLive(s, f.path) && s.files[f.path] == f
    ensures forall x | !Hidden(n, x) && IsLive(s, x) :: s.files[x] in readable
    ensures forall p :: p in hidden <==> IsLive(s, n.seal(p))
    ensures forall p <- hidden :: hidden[p] == s.files[n.seal(p)]
  {
    forall x | IsLive(s, x)
      ensures s.files[x] in entries && s.files[x].path == x
    {
      assert RowRecorded(s, x);
    }
    hide Inv;
    forall p | IsLive(s, n.seal(p))
      ensures p in hidden
    {
      SealedIsHidden(n, p);
      assert s.files[n.seal(p)] in entries;
    }
  }

  // ---- taking the readable files in -----------------------------------------------------------

  /** Deleted here without the server knowing, or taken for this device's own echo: the pull leaves it off the disk. */
  ghost predicate LeftBehind(w: World, cfg: Config, f: File) {
    f.path !in w.disk && f.path in w.index && (w.index[f.path].dirty || Echo(w, cfg, f))
  }

  ghost predicate SameLocal(w: World, w': World, q: Path) {
    && (q in w.disk <==> q in w'.disk) && (q in w.disk ==> w.disk[q] == w'.disk[q])
    && (q in w.index <==> q in w'.index) && (q in w.index ==> w.index[q] == w'.index[q])
  }

  /** Another device renamed exactly this content away from q. */
  ghost predicate TakenBy(w0: World, cfg: Config, readable: seq<File>, q: Path) {
    exists g <- readable :: g.renamedFrom == Some(q) && q in w0.disk && MatchesRemote(cfg, w0.disk[q], g.hash)
  }

  /** A path whose turn is still to come: as it was in w0, or moved away since. */
  ghost predicate StillToCome(w0: World, w: World, cfg: Config, readable: seq<File>, q: Path) {
    SameLocal(w0, w, q) || (q !in w.disk && q !in w.index && TakenBy(w0, cfg, readable, q))
  }

  /**
   The disk has the content of this row, or its clean merge with what was here before, or
   what this device made of its own revision since.
   */
  ghost predicate Brought(w0: World, w: World, cfg: Config, f: File) {
    var p := f.path;
    && p in w.disk
    && (|| Opens(cfg, f.hash, w.disk[p])
        || (p in w0.disk && EngineEdits.CleanMerge(w0, cfg, p, w0.disk[p]) == Some(w.disk[p]))
        || (p in w0.disk && Echo(w0, cfg, f) && w.disk[p] == w0.disk[p]))
  }

  /** The first i readable files are on disk unless left behind, the others still to come. */
  ghost predicate TakenIn(w0: World, w: World, cfg: Config, readable: seq<File>, i: nat) {
    && (forall j | 0 <= j < i && j < |readable| && !Excluded(cfg, readable[j].path) ::
          Brought(w0, w, cfg, readable[j]) || LeftBehind(w0, cfg, readable[j]))
    && (forall j | i <= j < |readable| :: StillToCome(w0, w, cfg, readable, readable[j].path))
  }

  lemma NoneTakenIn(w: World, cfg: Config, readable: seq<File>)
    ensures TakenIn(w, w, cfg, readable, 0)
  {
  }

  lemma ExcludedTakenIn(w0: World, w: World, cfg: Config, readable: seq<File>, i: nat)
    requires TakenIn(w0, w, cfg, readable, i) && i < |readable| && Excluded(cfg, readable[i].path)
    ensures TakenIn(w0, w, cfg, readable, i + 1)
  {
    hide Excluded, LeftBehind;
  }

  /** The row is the one the run started with, and so is its history. */
  ghost predicate Awaits(w0: World, w: World, f: File) {
    && f.path in w0.server.files && w0.server.files[f.path] == f
    && f.path in w.server.files && w.server.files[f.path] == f && EngineEdits.SameHistory(w0, w, f.path)
  }

  /** Once its entry was applied, the disk has made something of a live file, unless it is one that stays off. */
  lemma PulledOrLeft(w: World, cfg: Config, f: File, copy: Path, now: int)
    requires Inv(w.server) && IsLive(w.server, f.path) && w.server.files[f.path] == f && Free(w, copy)
    requires ApplyRemote(w, cfg, f, copy, now).1 == Done
    ensures Brought(w, ApplyRemote(w, cfg, f, copy, now).0, cfg, f) || LeftBehind(w, cfg, f)
  {
    assert RowRecorded(w.server, f.path);
    assert Fetch(w, cfg, f.path, f.rev) == Opened(cfg.cipher, f.hash) == FetchCurrent(w, cfg, f.path);
    var p := f.path;
    hide Inv, Put, Mergeable, AncestorText, Diff3.Merge, Fetch, FetchCurrent, EngineEdits.CleanMerge, Reconcile;
    if p in w.disk {
      SealOpens(cfg.cipher, w.disk[p]);
      ReconcileBrings(w, cfg, f, if p in w.index then w.index[p].baseRev else 0, copy, now);
    } else if MovesLocally(w, cfg, f) {
      SealOpens(cfg.cipher, w.disk[f.renamedFrom.value]);
    }
  }

  lemma ReconcileBrings(w: World, cfg: Config, f: File, baseRev: int, copy: Path, now: int)
    requires f.path in w.disk && Free(w, copy)
    requires Fetch(w, cfg, f.path, f.rev) == Opened(cfg.cipher, f.hash) == FetchCurrent(w, cfg, f.path)
    requires baseRev == if f.path in w.index then w.index[f.path].baseRev else 0
    ensures var r := Reconcile(w, cfg, f.path, w.disk[f.path], f.rev, baseRev, copy, now);
            r.1 == Done ==> Brought(w, r.0, cfg, f)
  {
    var p, local, g := f.path, w.disk[f.path], Fetch(w, cfg, f.path, f.rev);
    AncestorIsIndexed(w, cfg, p);
    hide Fetch, FetchCurrent, AncestorText, AncestorAt, Diff3.Merge, Mergeable, SendMerged, Echo;
    if g.Got? && Mergeable(local) && Mergeable(g.plain) && AncestorText(w, cfg, p, baseRev).Base? {
      MergeableIsText(local);
      MergeableIsText(g.plain);
      EngineEdits.MergedStands(
        w, cfg, p, f.rev, Text(MergedText(cfg, AncestorText(w, cfg, p, baseRev).text, local.text, g.plain.text).text), now);
    }
  }

  /** What a world that looks the same at a path brings is brought from the start. */
  lemma BroughtFromStart(w0: World, w: World, w': World, cfg: Config, readable: seq<File>, f: File)
    requires Awaits(w0, w, f) && StillToCome(w0, w, cfg, readable, f.path)
    ensures Brought(w, w', cfg, f) ==> Brought(w0, w', cfg, f)
    ensures LeftBehind(w, cfg, f) ==> LeftBehind(w0, cfg, f)
  {
    if SameLocal(w0, w, f.path) {
      EngineEdits.SameAncestor(w0, w, cfg, f.path);
    }
    hide TakenBy, AncestorAt, Mergeable, Diff3.Merge;
  }

  /** Away from its own path and the copy, an entry touches this device only where it moves a file from. */
  lemma TouchesLocally(w: World, cfg: Config, f: File, copy: Path, now: int, q: Path)
    requires q != f.path && q != copy
    ensures var w' := ApplyRemote(w, cfg, f, copy, now).0;
            || SameLocal(w, w', q)
            || (MovesLocally(w, cfg, f) && q == f.renamedFrom.value && q !in w'.disk && q !in w'.index)
  {
    ContentTouchesLocally(w, cfg, f, copy, now, q);
    hide ApplyContent, MatchesRemote, Untouched;
  }

  lemma ContentTouchesLocally(w: World, cfg: Config, f: File, copy: Path, now: int, q: Path)
    requires q != f.path && q != copy
    ensures SameLocal(w, ApplyContent(w, cfg, f, copy, now).0, q)
  {
    hide MatchesRemote, Fetch, Put, Mergeable, AncestorText, Diff3.Merge;
  }

  /** The source of a rename comes later in the listing than its destination. */
  lemma SourceComesLater(s: State, readable: seq<File>, i: nat, j: nat)
    requires RenamesOrdered(s) && ChangeLog.Ascending(readable) && i < |readable| && j < |readable|
    requires forall f <- readable :: IsLive(s, f.path) && s.files[f.path] == f
    requires readable[i].renamedFrom == Some(readable[j].path)
    ensures i < j
  {
    assert readable[i] in readable && readable[j] in readable;
    assert RenameOrdered(s, readable[i].path);
    assert readable[i].seqNo < readable[j].seqNo;
  }

  lemma OneTakenIn(w0: World, w: World, cfg: Config, n: Names, readable: seq<File>, i: nat, copy: Path, now: int)
    requires RenamesOrdered(w0.server) && ChangeLog.Ascending(readable) && i < |readable|
    requires forall f <- readable :: !Hidden(n, f.path) && IsLive(w0.server, f.path) && w0.server.files[f.path] == f
    requires Inv(w.server) && StillReadable(w0.server, w.server, n) && TakenIn(w0, w, cfg, readable, i) && Free(w, copy)
    requires Awaits(w0, w, readable[i]) && ApplyRemote(w, cfg, readable[i], copy, now).1 == Done
    ensures TakenIn(w0, ApplyRemote(w, cfg, readable[i], copy, now).0, cfg, readable, i + 1)
  {
    var f, w' := readable[i], ApplyRemote(w, cfg, readable[i], copy, now).0;
    assert f in readable && !f.deleted;
    PulledOrLeft(w, cfg, f, copy, now);
    assert StillToCome(w0, w, cfg, readable, f.path);
    BroughtFromStart(w0, w, w', cfg, readable, f);
    hide ApplyRemote, Excluded, RenamesOrdered, MovesLocally, TakenBy, MatchesRemote, Inv, EngineEdits.CleanMerge, Echo;
    forall j | 0 <= j < |readable| && j != i
      ensures SameLocal(w, w', readable[j].path) || (j > i && StillToCome(w0, w', cfg, readable, readable[j].path))
    {
      OtherTakenIn(w0, w, cfg, n, readable, i, j, copy, now);
    }
    hide LeftBehind;
  }

  lemma OtherTakenIn(w0: World, w: World, cfg: Config, n: Names, readable: seq<File>, i: nat, j: nat, copy: Path, now: int)
    requires RenamesOrdered(w0.server) && ChangeLog.Ascending(readable) && i < |readable| && j < |readable| && j != i
    requires forall f <- readable :: !Hidden(n, f.path) && IsLive(w0.server, f.path) && w0.server.files[f.path] == f
    requires StillReadable(w0.server, w.server, n) && Free(w, copy) && TakenIn(w0, w, cfg, readable, i)
    ensures var w' := ApplyRemote(w, cfg, readable[i], copy, now).0;
            SameLocal(w, w', readable[j].path) || (j > i && StillToCome(w0, w', cfg, readable, readable[j].path))
  {
    var f, q := readable[i], readable[j].path;
    assert f in readable && readable[j] in readable;
    assert q != f.path && q != copy by {
      hide ApplyRemote;
      assert if i < j then readable[i].seqNo < readable[j].seqNo else readable[j].seqNo < readable[i].seqNo;
      assert IsLive(w.server, q);
    }
    TouchesLocally(w, cfg, f, copy, now, q);
    hide ApplyRemote, RenamesOrdered, LeftBehind, Excluded, MatchesRemote, Brought;
    if MovesLocally(w, cfg, f) && q == f.renamedFrom.value {
      SourceComesLater(w0.server, readable, i, j);
      assert StillToCome(w0, w, cfg, readable, q);
      assert TakenBy(w0, cfg, readable, q);
    }
  }

  /** A readable file of the start that the disk has taken in and the server has under its sealed name. */
  ghost predicate MadeSealed(w0: World, w: World, sealed: Config, cfg: Config, n: Names, p: Path)
    requires p in w0.server.files
  {
    Brought(w0, w, cfg, w0.server.files[p]) && SealedSettled(w, sealed, n, p)
  }

  /** A file loses its readable copy only to a sealed one, unless the pull had to leave it behind. */
  ghost predicate ErasedOnlySealed(w0: World, w: World, sealed: Config, cfg: Config, n: Names) {
    forall p | !Excluded(cfg, p) && !Hidden(n, p) && IsLive(w0.server, p) && !IsLive(w.server, p) ::
      MadeSealed(w0, w, sealed, cfg, n, p) || LeftBehind(w0, cfg, w0.server.files[p])
  }

  /** Every file that was readable at the start is sealed, or was left behind. */
  ghost predicate SealedOrLeft(w0: World, w: World, sealed: Config, cfg: Config, n: Names) {
    forall p | !Excluded(cfg, p) && !Hidden(n, p) && IsLive(w0.server, p) ::
      MadeSealed(w0, w, sealed, cfg, n, p) || LeftBehind(w0, cfg, w0.server.files[p])
  }

  /** And what is on disk is sealed in any case. */
  ghost predicate DiskOnlySealed(s: State, w: World, sealed: Config, n: Names) {
    forall p | !Excluded(sealed, p) && !Hidden(n, p) && p in w.disk && IsLive(s, p) && !IsLive(w.server, p) ::
      SealedCopy(w, sealed, n, p)
  }

  ghost predicate SomeReadable(s: State, n: Names) {
    exists x :: !Hidden(n, x) && IsLive(s, x)
  }

  lemma EverythingSealed(w0: World, w1: World, w: World, sealed: Config, cfg: Config, n: Names, readable: seq<File>)
    requires TakenIn(w0, w1, cfg, readable, |readable|) && w.disk == w1.disk && AllSealed(w, sealed, n, {})
    requires sealed == cfg.(cipher := sealed.cipher) && Inv(w0.server)
    requires forall x | !Hidden(n, x) && IsLive(w0.server, x) :: w0.server.files[x] in readable
    ensures ErasedOnlySealed(w0, w, sealed, cfg, n) && SealedOrLeft(w0, w, sealed, cfg, n)
  {
    forall p | !Excluded(cfg, p) && !Hidden(n, p) && IsLive(w0.server, p)
      ensures MadeSealed(w0, w, sealed, cfg, n, p) || LeftBehind(w0, cfg, w0.server.files[p])
    {
      assert RowRecorded(w0.server, p);
      assert w0.server.files[p] in readable;
      assert Excluded(cfg, p) == Excluded(sealed, p);
      hide Inv, SealedSettled, LeftBehind, Excluded, EngineEdits.CleanMerge, Echo;
    }
    hide MadeSealed, LeftBehind, Excluded;
  }

  lemma NothingErased(w0: World, w: World, sealed: Config, cfg: Config, n: Names)
    requires StillReadable(w0.server, w.server, n)
    ensures ErasedOnlySealed(w0, w, sealed, cfg, n) && DiskOnlySealed(w0.server, w, sealed, n)
  {
    hide Excluded;
  }

  lemma SealedIsEnough(s: State, w: World, sealed: Config, n: Names)
    requires AllSealed(w, sealed, n, {})
    ensures DiskOnlySealed(s, w, sealed, n)
  {
    hide Excluded;
  }

  /** The first file to erase is still live, so erasing it takes a new number. */
  lemma FirstIsLive(s: State, t: State, n: Names, readable: seq<File>)
    requires Inv(s) && StillReadable(s, t, n)
    requires forall f <- readable :: !Hidden(n, f.path) && IsLive(s, f.path) && s.files[f.path] == f
    requires forall x | !Hidden(n, x) && IsLive(s, x) :: s.files[x] in readable
    ensures readable != [] ==> IsLive(t, readable[0].path)
    ensures SomeReadable(s, n) ==> readable != []
  {
    if readable != [] {
      assert readable[0] in readable;
    }
  }

  /** The sealed rows as they were listed. */
  ghost predicate Fresh(s: State, n: Names, hidden: map<Path, File>, p: Path) {
    && (p in hidden <==> IsLive(s, n.seal(p)))
    && (p in hidden ==> hidden[p] == s.files[n.seal(p)])
  }

  ghost predicate AllSealed(w: World, sealed: Config, n: Names, todo: set<Path>) {
    forall p | !Excluded(sealed, p) && p in w.disk && p !in todo :: SealedSettled(w, sealed, n, p)
  }

  ghost predicate Listed(readable: seq<File>, from: nat, x: Path) {
    exists j :: from <= j < |readable| && readable[j].path == x
  }

  lemma ListingIsFresh(s: State, n: Names, hidden: map<Path, File>)
    requires forall p :: p in hidden <==> IsLive(s, n.seal(p))
    requires forall p <- hidden :: IsLive(s, n.seal(p)) && hidden[p] == s.files[n.seal(p)]
    ensures forall p :: Fresh(s, n, hidden, p)
  {
  }

  /** The pull leaves the sealed rows as they were listed. */
  lemma FreshStays(s: State, t: State, n: Names, hidden: map<Path, File>)
    requires Honest(n) && SameSealed(s, t, n) && forall p :: Fresh(s, n, hidden, p)
    ensures forall p :: Fresh(t, n, hidden, p)
  {
    forall p
      ensures Fresh(t, n, hidden, p)
    {
      assert Fresh(s, n, hidden, p);
      SealedIsHidden(n, p);
    }
  }

  /** Sealing one path leaves the others as they are, and nothing on disk is touched. */
  lemma SealingKeepsRest(w: World, w': World, sealed: Config, n: Names, p: Path, todo: set<Path>, hidden: map<Path, File>)
    requires Honest(n) && Sealed1(w, w', n, p) && AllSealed(w, sealed, n, todo) && SealedSettled(w', sealed, n, p)
    requires forall q <- todo :: Fresh(w.server, n, hidden, q)
    ensures AllSealed(w', sealed, n, todo - {p})
    ensures forall q <- todo - {p} :: Fresh(w'.server, n, hidden, q)
  {
    hide Excluded, SealedSettled, Fresh;
    forall q | q != p
      ensures SealedSettled(w, sealed, n, q) ==> SealedSettled(w', sealed, n, q)
      ensures Fresh(w.server, n, hidden, q) ==> Fresh(w'.server, n, hidden, q)
    {
      OtherSealKept(w, w', sealed, n, p, q, hidden);
    }
    hide Sealed1;
  }

  lemma OtherSealKept(w: World, w': World, sealed: Config, n: Names, p: Path, q: Path, hidden: map<Path, File>)
    requires Honest(n) && Sealed1(w, w', n, p) && q != p
    ensures SealedSettled(w, sealed, n, q) ==> SealedSettled(w', sealed, n, q)
    ensures Fresh(w.server, n, hidden, q) ==> Fresh(w'.server, n, hidden, q)
  {
    if n.seal(p) == n.seal(q) {
      SealsApart(n, p, q);
    }
    if w'.server != w.server {
      var a: PutArgs :| a.path == n.seal(p) && w'.server == Put(w.server, a).0;
      PutElsewhere(w.server, a, n.seal(q));
    }
    assert SameIndex(w, w', q);
    hide Put;
  }

  lemma EraseKeepsAll(w: World, w': World, sealed: Config, n: Names, p: Path, baseRev: int, author: string)
    requires Inv(w.server) && Honest(n) && !Hidden(n, p) && AllSealed(w, sealed, n, {})
    requires w'.disk == w.disk && w'.index == w.index && w'.server == Delete(w.server, p, baseRev, author).0
    ensures AllSealed(w', sealed, n, {})
  {
    hide Inv, Excluded, SealedSettled, Delete;
    forall q | !Excluded(sealed, q) && q in w.disk
      ensures SealedSettled(w', sealed, n, q)
    {
      EraseKeepsSealed(w, w', sealed, n, p, q, baseRev, author);
    }
  }

  lemma ListedLater(readable: seq<File>, i: nat, x: Path)
    requires i < |readable| && Listed(readable, i, x) && x != readable[i].path
    ensures Listed(readable, i + 1, x)
  {
    var j :| i <= j < |readable| && readable[j].path == x;
    assert j != i;
  }

  lemma NothingListed(readable: seq<File>)
    ensures forall x :: !Listed(readable, |readable|, x)
  {
  }

  lemma ReadableIsListed(s: State, t: State, n: Names, readable: seq<File>)
    requires Inv(s) && Steady(s, t, n)
    requires forall x | !Hidden(n, x) && IsLive(s, x) :: s.files[x] in readable
    ensures forall x | !Hidden(n, x) && IsLive(t, x) :: Listed(readable, 0, x)
  {
    forall x | !Hidden(n, x) && IsLive(t, x)
      ensures Listed(readable, 0, x)
    {
      assert RowRecorded(s, x);
      assert s.files[x] in readable;
    }
  }

  /** With no live readable file left, the purge leaves sealed names and undatable tombstones. */
  lemma PurgeEnds(s: State, w: World, w': World, sealed: Config, n: Names)
    requires Steady(s, w.server, n) && AllSealed(w, sealed, n, {})
    requires forall x | !Hidden(n, x) :: !IsLive(w.server, x)
    requires w' == w.(server := ForgetAll(w.server))
    ensures Steady(s, w'.server, n) && AllSealed(w', sealed, n, {}) && Inv(w'.server) && Canonical(n, w'.server)
    ensures forall x <- w'.server.files :: !Hidden(n, x) ==> w'.server.files[x].deleted && w'.server.files[x].mtime >= MAX_INT64
    ensures Dated(w.server) ==> (forall x <- w'.server.files :: Hidden(n, x)) && (forall k <- w'.server.revisions :: Hidden(n, k.0))
  {
    var t, u := w.server, w'.server;
    ForgetKeepsInv(t, MAX_INT64);
    forall x
      ensures IsLive(t, x) ==> IsLive(u, x) && u.files[x] == t.files[x]
      ensures x in u.files ==> x in t.files && u.files[x] == t.files[x] && !Expired(t, x, MAX_INT64)
    {
    }
    PurgeKeepsSealed(w, w', sealed, n);
    forall k <- u.revisions
      ensures k.0 in u.files
    {
      assert RevisionOwned(u, k);
    }
    hide Inv, Forget, SealedSettled, Excluded;
  }

  /** Entries of files that are not on disk may go. */
  lemma DroppingKeepsSealed(w: World, w': World, sealed: Config, n: Names)
    requires AllSealed(w, sealed, n, {}) && w'.disk == w.disk && w'.server == w.server
    requires w'.index == map p | p in w.index && p in w.disk :: w.index[p]
    ensures AllSealed(w', sealed, n, {})
  {
    hide Excluded;
  }

  lemma CursorKeepsSealed(w: World, w': World, sealed: Config, n: Names)
    requires w' == w.(cursor := w'.cursor) && AllSealed(w, sealed, n, {})
    ensures AllSealed(w', sealed, n, {})
  {
    hide Excluded;
  }

  lemma PurgeKeepsCounter(t: State)
    ensures ForgetAll(t).counter == t.counter
  {
  }

  lemma PurgeKeepsSealed(w: World, w': World, sealed: Config, n: Names)
    requires AllSealed(w, sealed, n, {}) && w'.disk == w.disk && w'.index == w.index
    requires forall x :: IsLive(w.server, x) ==> IsLive(w'.server, x) && w'.server.files[x] == w.server.files[x]
    ensures AllSealed(w', sealed, n, {})
  {
    hide Excluded;
  }

  /** Sealing p changes the index at p and the server by one write at its sealed name, if at all. */
  ghost predicate Sealed1(w: World, w': World, n: Names, p: Path) {
    && w'.disk == w.disk && (forall q | q != p :: SameIndex(w, w', q))
    && (w'.server == w.server || exists a: PutArgs :: a.path == n.seal(p) && w'.server == Put(w.server, a).0)
  }

  ghost predicate SameIndex(w: World, w': World, q: Path) {
    (q in w.index <==> q in w'.index) && (q in w.index ==> w.index[q] == w'.index[q])
  }

  lemma SteadyStarts(s: State, n: Names)
    requires Inv(s) && Canonical(n, s)
    ensures Steady(s, s, n) && StillReadable(s, s, n) && SameSealed(s, s, n)
  {
  }

  lemma SteadyIsSound(s: State, t: State, n: Names)
    requires Steady(s, t, n)
    ensures Inv(t) && Canonical(n, t)
  {
  }

  /** Applying a readable entry changes nothing but readable content. */
  lemma PullIsSteady(s: State, w: World, cfg: Config, n: Names, f: File, copy: Path, now: int)
    requires Honest(n) && Steady(s, w.server, n) && StillReadable(s, w.server, n) && SameSealed(s, w.server, n)
    requires !Hidden(n, f.path) && IsLive(s, f.path)
    ensures var t := ApplyRemote(w, cfg, f, copy, now).0.server;
            && Steady(s, t, n) && StillReadable(s, t, n) && SameSealed(s, t, n)
            && (Dated(w.server) && now < MAX_INT64 ==> Dated(t))
  {
    RemoteWrites(w, cfg, f, copy, now);
    var t := ApplyRemote(w, cfg, f, copy, now).0.server;
    hide ApplyRemote, Steady, Inv;
    if t != w.server {
      var a: PutArgs :| a.path == f.path && a.mtime == now && t == Put(w.server, a).0;
      hide Put;
      PutKeepsSteady(s, w.server, n, a);
      PutKeepsHidden(s, w.server, n, a);
    }
  }

  lemma PutKeepsHidden(s: State, t: State, n: Names, a: PutArgs)
    requires SameSealed(s, t, n) && !Hidden(n, a.path)
    ensures SameSealed(s, Put(t, a).0, n)
  {
  }

  // ---- where a run falls short --------------------------------------------------------------------

  /**
   A rerun after an interrupted one: an edit made after the file was sealed, and sealed
   itself, survives on disk exactly when the readable copy already has it.  Otherwise the
   older readable content takes its place, and the sealed copy follows.
   */
  lemma RerunKeepsEditExactly(w: World, cfg: Config, f: File, copy: Path, now: int)
    requires Readable(w.server, cfg) && cfg.cipher.Plain? && IsLive(w.server, f.path) && w.server.files[f.path] == f
    requires f.path in w.disk && f.path in w.index && w.index[f.path].plainHash == Some(Sha256(w.disk[f.path]))
    requires !Echo(w, cfg, f)
    ensures var w' := ApplyRemote(w, cfg, f, copy, now).0;
            && f.path in w'.disk && Opens(cfg, f.hash, w'.disk[f.path])
            && (w'.disk[f.path] == w.disk[f.path] <==> Opens(cfg, f.hash, w.disk[f.path]))
  {
    DownloadSettles(w, cfg, f.path);
    RowOpens(w.server, cfg, f.path);
    hide Readable, Reconcile, Download;
  }

  /**
   A file deleted here and edited on another device: a sync would bring the edit back,
   the run does not.  The path is off the disk when the files are sealed exactly when it
   was gone before and its entry is dirty or already at this device's own revision, and
   its readable copies are then erased with the rest.
   */
  lemma LeftBehindExactly(w: World, cfg: Config, f: File, copy: Path, now: int)
    requires Readable(w.server, cfg) && IsLive(w.server, f.path) && w.server.files[f.path] == f
    requires Coherent(w, cfg, f.path, false) && Free(w, copy)
    ensures f.path !in ApplyRemote(w, cfg, f, copy, now).0.disk <==>
              && f.path !in w.disk && !(!Echo(w, cfg, f) && MovesLocally(w, cfg, f))
              && (Echo(w, cfg, f) || (f.path in w.index && w.index[f.path].dirty))
  {
    if f.path in w.disk || f.path !in w.index || !w.index[f.path].dirty {
      ContentSettles(w, cfg, f, copy, now);
    }
    hide Readable, Reconcile, Download;
  }

  // ---- files that are merged on the way in -----------------------------------------------------------

  /**
   The pull merges a file and sends the merge: it is on disk, unknown to the index in this
   content, different from the row, mergeable without conflict, and the merge is news.
   */
  predicate MergesIn(w: World, cfg: Config, f: File) {
    && f.path in w.disk && !Echo(w, cfg, f)
    && var c := w.disk[f.path];
    && !MatchesRemote(cfg, c, f.hash)
    && !(f.path in w.index && w.index[f.path].plainHash == Some(Sha256(c)))
    && var m := EngineEdits.CleanMerge(w, cfg, f.path, c);
       m.Some? && !MatchesRemote(cfg, m.value, f.hash)
  }

  /** Applying a current live row writes to the server exactly when the file merges in; then its revision moves on. */
  lemma MergesInExactly(w: World, cfg: Config, f: File, copy: Path, now: int)
    requires Readable(w.server, cfg) && IsLive(w.server, f.path) && w.server.files[f.path] == f
    ensures var t := ApplyRemote(w, cfg, f, copy, now).0.server;
            && (t == w.server <==> !MergesIn(w, cfg, f))
            && (MergesIn(w, cfg, f) ==> IsLive(t, f.path) && t.files[f.path].rev == f.rev + 1)
  {
    if !Echo(w, cfg, f) && f.path in w.disk && !MatchesRemote(cfg, w.disk[f.path], f.hash)
       && !(f.path in w.index && w.index[f.path].plainHash == Some(Sha256(w.disk[f.path]))) {
      ReconcileMergesExactly(w, cfg, f, if f.path in w.index then w.index[f.path].baseRev else 0, copy, now);
    }
    hide Readable, Reconcile, EngineEdits.CleanMerge, MatchesRemote, Fetch;
  }

  lemma ReconcileMergesExactly(w: World, cfg: Config, f: File, baseRev: int, copy: Path, now: int)
    requires Readable(w.server, cfg) && IsLive(w.server, f.path) && w.server.files[f.path] == f && f.path in w.disk
    requires baseRev == if f.path in w.index then w.index[f.path].baseRev else 0
    ensures var t := Reconcile(w, cfg, f.path, w.disk[f.path], f.rev, baseRev, copy, now).0.server;
            var m := EngineEdits.CleanMerge(w, cfg, f.path, w.disk[f.path]);
            var news := m.Some? && !MatchesRemote(cfg, m.value, f.hash);
            && (t == w.server <==> !news)
            && (news ==> IsLive(t, f.path) && t.files[f.path].rev == f.rev + 1)
  {
    RowOpens(w.server, cfg, f.path);
    AncestorReads(w, cfg, f.path, baseRev);
    assert PlainFile(w.server, f.path);
    assert Fetch(w, cfg, f.path, f.rev) == FetchCurrent(w, cfg, f.path);
    var g := FetchCurrent(w, cfg, f.path);
    AncestorIsIndexed(w, cfg, f.path);
    hide Readable, Fetch, FetchCurrent, AncestorText, AncestorAt, Diff3.Merge, Mergeable, SendMerged;
    if Mergeable(w.disk[f.path]) && Mergeable(g.plain) {
      MergeableIsText(w.disk[f.path]);
      MergeableIsText(g.plain);
      var base := AncestorText(w, cfg, f.path, baseRev);
      if base.Base? {
        SendMergedExactly(w, cfg, f, Text(MergedText(cfg, base.text, w.disk[f.path].text, g.plain.text).text), now);
      }
    }
  }

  lemma SendMergedExactly(w: World, cfg: Config, f: File, merged: Bytes, now: int)
    requires f.path in w.server.files && w.server.files[f.path] == f && !f.deleted && !f.folder
    ensures var t := SendMerged(w, cfg, f.path, f.rev, merged, now).0.server;
            && (t == w.server <==> MatchesRemote(cfg, merged, f.hash))
            && (t != w.server ==> IsLive(t, f.path) && t.files[f.path].rev == f.rev + 1)
  {
  }

  /** The listed revision of a readable file can be erased exactly when the pull did not merge the file. */
  lemma MergeStallsRunExactly(w: World, cfg: Config, f: File, copy: Path, now: int)
    requires Readable(w.server, cfg) && IsLive(w.server, f.path) && w.server.files[f.path] == f
    ensures Delete(ApplyRemote(w, cfg, f, copy, now).0.server, f.path, f.rev, cfg.device).1.Ok? <==> !MergesIn(w, cfg, f)
  {
    MergesInExactly(w, cfg, f, copy, now);
    hide ApplyRemote, MergesIn, Readable;
  }

  /** The pull of a current live row never fails, and leaves the vault readable. */
  lemma CurrentApplies(w: World, cfg: Config, f: File, copy: Path, now: int)
    requires Readable(w.server, cfg) && IsLive(w.server, f.path) && w.server.files[f.path] == f && Free(w, copy)
    ensures var r := ApplyRemote(w, cfg, f, copy, now); r.1 == Done && Readable(r.0.server, cfg)
  {
    var p := f.path;
    DownloadSettles(w, cfg, p);
    if p in w.disk && !MatchesRemote(cfg, w.disk[p], f.hash)
       && !(p in w.index && w.index[p].plainHash == Some(Sha256(w.disk[p]))) {
      ReconcileSettles(w, cfg, p, if p in w.index then w.index[p].baseRev else 0, copy, now);
    }
    hide Readable, Reconcile, Download, MatchesRemote;
  }
}
