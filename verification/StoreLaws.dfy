/** What the store keeps over every run (server/internal/store/store.go:5-9, gc.go:32-36). */
module StoreLaws {
  import opened Content
  import opened Store

  datatype Op =
    | PutOp(a: PutArgs)
    | DeleteOp(path: Path, baseRev: int, author: string)
    | RenameOp(from: Path, to: Path, baseRev: int, author: string)
    | CollectOp(policy: Policy)
    | ForgetOp(cutoff: int)

  function Step(s: State, op: Op): State {
    match op
    case PutOp(a) => Put(s, a).0
    case DeleteOp(p, baseRev, author) => Delete(s, p, baseRev, author).0
    case RenameOp(from, to, baseRev, author) => Rename(s, from, to, baseRev, author).0
    case CollectOp(g) => Collect(s, g)
    case ForgetOp(cutoff) => Forget(s, cutoff)
  }

  function Run(s: State, ops: seq<Op>): State
    decreases |ops|
  {
    if ops == [] then s else Run(Step(s, ops[0]), ops[1..])
  }

  // ---- the invariant ------------------------------------------------------------

  /** The row stands under its own path and its state is recorded as a revision. */
  ghost predicate RowRecorded(s: State, p: Path) {
    p in s.files ==>
      && var f := s.files[p];
      && f.path == p && f.rev >= 1 && 1 <= f.seqNo <= s.counter
      && (p, f.rev) in s.revisions
      && s.revisions[(p, f.rev)].hash == f.hash && s.revisions[(p, f.rev)].seqNo == f.seqNo
      && (f.deleted ==> f.hash == None)
  }

  /** A revision belongs to a path that still has a row, and is not ahead of it. */
  ghost predicate RevisionOwned(s: State, k: (Path, int)) {
    k in s.revisions ==>
      && k.0 in s.files && 1 <= k.1 <= s.files[k.0].rev
      && 1 <= s.revisions[k].seqNo <= s.files[k.0].seqNo
  }

  /** Numbers of two revisions are distinct, and within a path they follow the revisions. */
  ghost predicate Ordered(s: State, k: (Path, int), l: (Path, int)) {
    k in s.revisions && l in s.revisions ==>
      && (s.revisions[k].seqNo == s.revisions[l].seqNo ==> k == l)
      && (k.0 == l.0 && k.1 < l.1 ==> s.revisions[k].seqNo < s.revisions[l].seqNo)
  }

  ghost predicate Inv(s: State) {
    && s.counter >= 0
    && (forall p :: RowRecorded(s, p))
    && (forall k :: RevisionOwned(s, k))
    && (forall k, l :: Ordered(s, k, l))
  }

  /** A row that may be written next: one revision on, under a number not yet used. */
  ghost predicate NextRow(s: State, f: File) {
    && f.rev == Current(s, f.path).rev + 1
    && f.seqNo == s.counter + 1
    && (f.deleted ==> f.hash == None)
  }

  lemma CurrentRev(s: State, p: Path)
    requires Inv(s)
    ensures Current(s, p).rev >= 0 && (Current(s, p).rev > 0 <==> p in s.files)
  {
    assert RowRecorded(s, p);
  }

  /** The insert of a new revision never meets an existing one. */
  lemma NextRevisionIsFresh(s: State, f: File)
    requires Inv(s) && NextRow(s, f)
    ensures (f.path, f.rev) !in s.revisions
  {
    assert RevisionOwned(s, (f.path, f.rev));
    CurrentRev(s, f.path);
  }

  lemma CommitRecords(s: State, f: File, p: Path)
    requires Inv(s) && NextRow(s, f)
    ensures RowRecorded(Commit(s, f), p)
  {
    NextRevisionIsFresh(s, f);
    CurrentRev(s, f.path);
    assert RowRecorded(s, p);
  }

  lemma CommitOwns(s: State, f: File, k: (Path, int))
    requires Inv(s) && NextRow(s, f)
    ensures RevisionOwned(Commit(s, f), k)
  {
    NextRevisionIsFresh(s, f);
    CurrentRev(s, f.path);
    assert RevisionOwned(s, k) && RowRecorded(s, k.0);
  }

  lemma CommitOrders(s: State, f: File, k: (Path, int), l: (Path, int))
    requires Inv(s) && NextRow(s, f)
    ensures Ordered(Commit(s, f), k, l)
  {
    NextRevisionIsFresh(s, f);
    assert RevisionOwned(s, k) && RevisionOwned(s, l) && Ordered(s, k, l);
    assert RowRecorded(s, k.0) && RowRecorded(s, l.0);
  }

  lemma CommitKeepsInv(s: State, f: File)
    requires Inv(s) && NextRow(s, f)
    ensures Inv(Commit(s, f))
  {
    forall p ensures RowRecorded(Commit(s, f), p) {
      CommitRecords(s, f, p);
    }
    forall k ensures RevisionOwned(Commit(s, f), k) {
      CommitOwns(s, f, k);
    }
    forall k, l ensures Ordered(Commit(s, f), k, l) {
      CommitOrders(s, f, k, l);
    }
  }

  lemma OwnPath(s: State, p: Path)
    requires Inv(s)
    ensures Current(s, p).path == p
  {
    assert RowRecorded(s, p);
  }

  lemma RenameKeepsInv(s: State, from: Path, to: Path, baseRev: int, author: string)
    requires Inv(s)
    ensures Inv(Rename(s, from, to, baseRev, author).0)
  {
    if Rename(s, from, to, baseRev, author).1.Ok? {
      var arrived := Commit(s, Moved(s, from, to, author));
      OwnPath(s, from);
      CommitKeepsInv(s, Moved(s, from, to, author));
      CommitKeepsInv(arrived, Tombstone(Current(s, from), s.counter + 2, author));
    }
  }

  lemma PruneKeepsInv(s: State, cutoff: int, keep: int)
    requires Inv(s)
    ensures Inv(Prune(s, cutoff, keep))
  {
    var t := Prune(s, cutoff, keep);
    forall p ensures RowRecorded(t, p) {
      assert RowRecorded(s, p);
    }
    forall k ensures RevisionOwned(t, k) {
      assert RevisionOwned(s, k);
    }
    forall k, l ensures Ordered(t, k, l) {
      assert Ordered(s, k, l);
    }
  }

  lemma ForgetKeepsInv(s: State, cutoff: int)
    requires Inv(s)
    ensures Inv(Forget(s, cutoff))
  {
    var t := Forget(s, cutoff);
    forall p ensures RowRecorded(t, p) {
      assert RowRecorded(s, p);
    }
    forall k ensures RevisionOwned(t, k) {
      assert RevisionOwned(s, k);
    }
    forall k, l ensures Ordered(t, k, l) {
      assert Ordered(s, k, l);
    }
  }

  lemma StepKeepsInv(s: State, op: Op)
    requires Inv(s)
    ensures Inv(Step(s, op))
  {
    hide Inv;
    match op
    case PutOp(a) =>
      if Put(s, a).0 != s {
        CommitKeepsInv(s, PutRow(s, a));
      }
    case DeleteOp(p, baseRev, author) =>
      if Delete(s, p, baseRev, author).0 != s {
        OwnPath(s, p);
        CommitKeepsInv(s, Tombstone(Current(s, p), s.counter + 1, author));
      }
    case RenameOp(from, to, baseRev, author) =>
      RenameKeepsInv(s, from, to, baseRev, author);
    case CollectOp(g) =>
      PruneKeepsInv(s, g.cutoff, g.keepRevisions);
      ForgetKeepsInv(Prune(s, g.cutoff, g.keepRevisions), g.tombCutoff);
    case ForgetOp(cutoff) =>
      ForgetKeepsInv(s, cutoff);
  }

  /** The invariant holds after every run from the empty vault, indeed from any good state. */
  lemma {:induction false} RunKeepsInv(s: State, ops: seq<Op>)
    requires Inv(s)
    ensures Inv(Run(s, ops))
    decreases |ops|
  {
    if ops != [] {
      StepKeepsInv(s, ops[0]);
      RunKeepsInv(Step(s, ops[0]), ops[1..]);
    }
  }

  lemma EveryRunIsSound(ops: seq<Op>)
    ensures Inv(Run(EMPTY, ops))
  {
    RunKeepsInv(EMPTY, ops);
  }

  /** No two rows of the log share a number, and no number is ahead of the counter. */
  lemma LogNumbersAreDistinct(s: State, p: Path, q: Path)
    requires Inv(s) && p in s.files && q in s.files
    ensures 1 <= s.files[p].seqNo <= s.counter
    ensures s.files[p].seqNo == s.files[q].seqNo ==> p == q
  {
    assert RowRecorded(s, p) && RowRecorded(s, q);
    assert Ordered(s, (p, s.files[p].rev), (q, s.files[q].rev));
  }

  // ---- history -------------------------------------------------------------------

  predicate Collects(op: Op) {
    op.CollectOp? || op.ForgetOp?
  }

  /** A recorded revision is never rewritten, and only collection removes one. */
  lemma StepKeepsHistory(s: State, op: Op, k: (Path, int))
    requires Inv(s) && k in s.revisions
    ensures k in Step(s, op).revisions ==> Step(s, op).revisions[k] == s.revisions[k]
    ensures !Collects(op) ==> k in Step(s, op).revisions
  {
  }

  lemma {:induction false} RunKeepsHistory(s: State, ops: seq<Op>, k: (Path, int))
    requires Inv(s) && k in s.revisions
    requires forall op <- ops :: !Collects(op)
    ensures k in Run(s, ops).revisions && Run(s, ops).revisions[k] == s.revisions[k]
    decreases |ops|
  {
    if ops != [] {
      StepKeepsInv(s, ops[0]);
      StepKeepsHistory(s, ops[0], k);
      RunKeepsHistory(Step(s, ops[0]), ops[1..], k);
    }
  }

  /** What a path held at any moment of an uncollected run can still be fetched at its end. */
  lemma EveryStateStaysFetchable(before: seq<Op>, after: seq<Op>, p: Path)
    requires forall op <- after :: !Collects(op)
    requires p in Run(EMPTY, before).files
    ensures var f := Run(EMPTY, before).files[p];
            RevisionHash(Run(Run(EMPTY, before), after), p, f.rev) == f.hash
  {
    var s := Run(EMPTY, before);
    EveryRunIsSound(before);
    assert RowRecorded(s, p);
    RunKeepsHistory(s, after, (p, s.files[p].rev));
  }

  /** Revisions of a path only move forward, as long as its tombstone is not forgotten. */
  lemma StepMovesForward(s: State, op: Op, p: Path)
    requires Inv(s) && p in s.files && p in Step(s, op).files
    ensures s.files[p].rev <= Step(s, op).files[p].rev
    ensures s.files[p].rev == Step(s, op).files[p].rev ==> s.files[p] == Step(s, op).files[p]
    ensures s.files[p] != Step(s, op).files[p] ==> Step(s, op).files[p].seqNo > s.counter
  {
    assert RowRecorded(s, p);
    match op {
      case PutOp(a) => assert RowRecorded(s, a.path);
      case DeleteOp(q, _, _) => assert RowRecorded(s, q);
      case RenameOp(from, to, _, _) => assert RowRecorded(s, from) && RowRecorded(s, to);
      case CollectOp(_) =>
      case ForgetOp(_) =>
    }
  }

  // ---- retries --------------------------------------------------------------------

  /** Sending an accepted write again changes nothing, the counter included, whatever the base. */
  lemma PutAgain(s: State, a: PutArgs, baseRev: int)
    requires Put(s, a).1.Ok?
    ensures Put(Put(s, a).0, a.(baseRev := baseRev)) == Put(s, a)
  {
  }

  lemma DeleteAgain(s: State, p: Path, baseRev: int, baseRev': int, author: string)
    requires Inv(s) && Delete(s, p, baseRev, author).1.Ok?
    ensures Delete(Delete(s, p, baseRev, author).0, p, baseRev', author) == Delete(s, p, baseRev, author)
  {
    OwnPath(s, p);
  }

  /** A write that was not accepted leaves everything as it was. */
  lemma RefusedChangesNothing(s: State, op: Op)
    requires match op
             case PutOp(a) => !Put(s, a).1.Ok?
             case DeleteOp(p, baseRev, author) => !Delete(s, p, baseRev, author).1.Ok?
             case RenameOp(from, to, baseRev, author) => !Rename(s, from, to, baseRev, author).1.Ok?
             case _ => false
    ensures Step(s, op) == s
  {
  }

  /** A content write is refused exactly when it is news and its base is not the current revision. */
  lemma PutConflictsExactly(s: State, a: PutArgs)
    requires Inv(s)
    ensures Put(s, a).1.Conflict? <==>
              if a.path in s.files
              then a.baseRev != s.files[a.path].rev
                   && !(!s.files[a.path].deleted && s.files[a.path].hash == a.hash && s.files[a.path].folder == a.folder)
              else a.baseRev != 0
    ensures Put(s, a).1.Ok? ==>
              && a.path in Put(s, a).0.files
              && Put(s, a).0.files[a.path] == Put(s, a).1.file
              && SameContent(Put(s, a).0, a)
  {
  }

  // ---- renaming --------------------------------------------------------------------

  predicate IsLive(s: State, p: Path) {
    p in s.files && !s.files[p].deleted
  }

  /** What the vault holds alive: contents by path. */
  function Live(s: State): map<Path, Option<Hash>> {
    map p | p in s.files && IsLive(s, p) :: s.files[p].hash
  }

  /** A rename moves one content to a free name and touches nothing else. */
  lemma RenameMoves(s: State, from: Path, to: Path, baseRev: int, author: string)
    requires Inv(s)
    requires Rename(s, from, to, baseRev, author).1.Ok?
    ensures var t := Rename(s, from, to, baseRev, author).0;
            && from in Live(s) && to !in Live(s)
            && Live(t) == (Live(s) - {from})[to := Live(s)[from]]
            && t.files[to].seqNo < t.files[from].seqNo
            && t.files[from].deleted && t.files[to].renamedFrom == Some(from)
  {
    CurrentRev(s, to);
    OwnPath(s, from);
  }

  /** A reader's picture of a path: the rows of t up to number n, over whatever it knew before. */
  function Seen(known: map<Path, File>, t: State, n: int, p: Path): Option<File> {
    if p in t.files && t.files[p].seqNo <= n then Some(t.files[p])
    else if p in known then Some(known[p])
    else None
  }

  predicate Shows(f: Option<File>, h: Option<Hash>) {
    f.Some? && !f.value.deleted && f.value.hash == h
  }

  /**
   However far a reader has come in the log, and however stale the rest of what it knows:
   if it knew the file at its old name, it never misses its content at both names.
   */
  lemma RenameNeverHides(s: State, from: Path, to: Path, baseRev: int, author: string, known: map<Path, File>, n: int)
    requires Inv(s) && Rename(s, from, to, baseRev, author).1.Ok?
    requires from in known && Shows(Some(known[from]), s.files[from].hash)
    ensures var t := Rename(s, from, to, baseRev, author).0;
            Shows(Seen(known, t, n, from), s.files[from].hash) || Shows(Seen(known, t, n, to), s.files[from].hash)
  {
    OwnPath(s, from);
  }

  // ---- collection -------------------------------------------------------------------

  /**
   Collection never touches a live row, and of what still has a row, live or deleted, it
   keeps exactly the revisions that are current, among the most recent, or young.
   */
  lemma CollectSpares(s: State, g: Policy, p: Path)
    requires Inv(s) && p in s.files
    ensures !s.files[p].deleted || g.dryRun ==> p in Collect(s, g).files
    ensures var t, f := Collect(s, g), s.files[p];
            p in t.files ==>
              && t.files[p] == f
              && (forall r :: (p, r) in t.revisions ==> (p, r) in s.revisions && t.revisions[(p, r)] == s.revisions[(p, r)])
              && (forall r | (p, r) in s.revisions ::
                    (p, r) in t.revisions <==>
                      g.dryRun || r == f.rev || r > f.rev - g.keepRevisions || s.revisions[(p, r)].mtime >= g.cutoff)
  {
  }

  /** Collection removes whole paths only behind an expired tombstone. */
  lemma CollectForgetsExactly(s: State, g: Policy, p: Path)
    requires Inv(s) && p in s.files && !g.dryRun
    ensures p !in Collect(s, g).files <==> s.files[p].deleted && s.files[p].mtime < g.tombCutoff
    ensures p !in Collect(s, g).files ==> forall r :: (p, r) !in Collect(s, g).revisions
  {
  }

  /**
   The purge is meant to erase every tombstone.  It does so exactly when none of them
   carries the largest time a client can report.
   */
  lemma PurgeErasesAll(s: State)
    requires Inv(s)
    ensures (forall p <- ForgetAll(s).files :: !ForgetAll(s).files[p].deleted)
       <==> (forall p <- s.files :: s.files[p].deleted ==> s.files[p].mtime < MAX_INT64)
    ensures forall p <- s.files :: !s.files[p].deleted ==> p in ForgetAll(s).files
  {
    if exists p :: p in s.files && s.files[p].deleted && s.files[p].mtime >= MAX_INT64 {
      var p :| p in s.files && s.files[p].deleted && s.files[p].mtime >= MAX_INT64;
      assert p in ForgetAll(s).files;
    }
  }

  lemma PurgeCanMiss(hash: Hash)
    ensures var a := PutArgs("n", 0, Some(hash), 0, MAX_INT64, false, "");
            var s := Delete(Put(EMPTY, a).0, "n", 1, "").0;
            "n" in ForgetAll(s).files && ForgetAll(s).files["n"].deleted
  {
  }

  // ---- renames in the log ------------------------------------------------------------

  /** The row at a rename's source is always later in the log than the row at its destination. */
  ghost predicate RenameOrdered(s: State, p: Path) {
    p in s.files && s.files[p].renamedFrom.Some? && s.files[p].renamedFrom.value in s.files ==>
      s.files[p].seqNo < s.files[s.files[p].renamedFrom.value].seqNo
  }

  ghost predicate RenamesOrdered(s: State) {
    forall p :: RenameOrdered(s, p)
  }

  lemma StepKeepsRenamesOrdered(s: State, op: Op)
    requires Inv(s) && RenamesOrdered(s)
    ensures RenamesOrdered(Step(s, op))
  {
    forall p
      ensures RenameOrdered(Step(s, op), p)
    {
      StepKeepsRenameOrdered(s, op, p);
    }
  }

  lemma StepKeepsRenameOrdered(s: State, op: Op, p: Path)
    requires Inv(s) && RenameOrdered(s, p)
    ensures RenameOrdered(Step(s, op), p)
  {
    assert RowRecorded(s, p);
    if p in s.files && s.files[p].renamedFrom.Some? {
      assert RowRecorded(s, s.files[p].renamedFrom.value);
    }
    match op {
      case PutOp(a) => OwnPath(s, a.path);
      case DeleteOp(q, _, _) => OwnPath(s, q);
      case RenameOp(from, to, _, _) => OwnPath(s, from);
      case CollectOp(_) =>
      case ForgetOp(_) =>
    }
  }
}
