/**
 The vault's metadata (server/internal/store/store.go, server/internal/store/gc.go).

 State is a snapshot of the three tables; the functions say what each transaction does
 to a snapshot, and the class runs the transactions on its own tables.
 */
module Store {
  import opened Content

  type Path = string

  datatype File = File(
    path: Path, rev: int, seqNo: int, hash: Option<Hash>, size: int, mtime: int,
    deleted: bool, folder: bool, updatedBy: string, renamedFrom: Option<Path>)

  datatype Revision = Revision(hash: Option<Hash>, mtime: int, seqNo: int)

  datatype State = State(files: map<Path, File>, revisions: map<(Path, int), Revision>, counter: int)

  datatype PutArgs = PutArgs(
    path: Path, baseRev: int, hash: Option<Hash>, size: int, mtime: int, folder: bool, updatedBy: string)

  datatype Outcome =
    | Ok(file: File)
    | Conflict(path: Path, serverRev: int, serverHash: Option<Hash>, deleted: bool, updatedBy: string)
    | NotFound
    | Invalid

  const EMPTY := State(map[], map[], 0)

  /** The current row of a path, or a blank one at revision 0. */
  function Current(s: State, p: Path): File {
    if p in s.files then s.files[p] else File(p, 0, 0, None, 0, 0, false, false, "", None)
  }

  function Stale(f: File): Outcome {
    Conflict(f.path, f.rev, f.hash, f.deleted, f.updatedBy)
  }

  function Upsert(s: State, f: File): State {
    s.(files := s.files[f.path := f],
       revisions := if (f.path, f.rev) in s.revisions then s.revisions
                    else s.revisions[(f.path, f.rev) := Revision(f.hash, f.mtime, f.seqNo)])
  }

  /** A row written under the next sequence number. */
  function Commit(s: State, f: File): State {
    Upsert(s.(counter := s.counter + 1), f)
  }

  predicate SameContent(s: State, a: PutArgs) {
    a.path in s.files && var f := s.files[a.path]; !f.deleted && f.hash == a.hash && f.folder == a.folder
  }

  function PutRow(s: State, a: PutArgs): File {
    File(a.path, Current(s, a.path).rev + 1, s.counter + 1, a.hash, a.size, a.mtime, false, a.folder, a.updatedBy, None)
  }

  function Put(s: State, a: PutArgs): (State, Outcome) {
    var cur := Current(s, a.path);
    if SameContent(s, a) then (s, Ok(cur))
    else if cur.rev != a.baseRev then (s, Stale(cur))
    else (Commit(s, PutRow(s, a)), Ok(PutRow(s, a)))
  }

  function Tombstone(f: File, seqNo: int, author: string): File {
    File(f.path, f.rev + 1, seqNo, None, 0, f.mtime, true, f.folder, author, None)
  }

  function Delete(s: State, p: Path, baseRev: int, author: string): (State, Outcome) {
    var cur := Current(s, p);
    if p in s.files && cur.deleted then (s, Ok(cur))
    else if cur.rev != baseRev then (s, Stale(cur))
    else if p !in s.files then (s, NotFound)
    else (Commit(s, Tombstone(cur, s.counter + 1, author)), Ok(Tombstone(cur, s.counter + 1, author)))
  }

  function Moved(s: State, from: Path, to: Path, author: string): File {
    var src := Current(s, from);
    File(to, Current(s, to).rev + 1, s.counter + 1, src.hash, src.size, src.mtime, false, src.folder, author, Some(from))
  }

  function Rename(s: State, from: Path, to: Path, baseRev: int, author: string): (State, Outcome) {
    var src, dst := Current(s, from), Current(s, to);
    if from == to then (s, Invalid)
    else if from !in s.files || src.deleted then (s, NotFound)
    else if src.rev != baseRev then (s, Stale(src))
    else if !dst.deleted && dst.rev > 0 then (s, Stale(dst))
    else
      var arrived := Commit(s, Moved(s, from, to, author));
      (Commit(arrived, Tombstone(src, s.counter + 2, author)), Ok(Moved(s, from, to, author)))
  }

  // ---- collection -------------------------------------------------------------

  datatype Policy = Policy(cutoff: int, keepRevisions: int, tombCutoff: int, dryRun: bool)

  /** Old and deep history of a file that still has a row. */
  predicate Prunable(s: State, k: (Path, int), cutoff: int, keep: int) {
    && k in s.revisions && k.0 in s.files
    && k.1 != s.files[k.0].rev
    && s.revisions[k].mtime < cutoff
    && k.1 <= s.files[k.0].rev - keep
  }

  predicate Expired(s: State, p: Path, cutoff: int) {
    p in s.files && s.files[p].deleted && s.files[p].mtime < cutoff
  }

  function Prune(s: State, cutoff: int, keep: int): State {
    s.(revisions := map k | k in s.revisions && !Prunable(s, k, cutoff, keep) :: s.revisions[k])
  }

  /** Tombstones before the cutoff go, with every revision of their paths. */
  function Forget(s: State, cutoff: int): State {
    s.(files := map p | p in s.files && !Expired(s, p, cutoff) :: s.files[p],
       revisions := map k | k in s.revisions && !Expired(s, k.0, cutoff) :: s.revisions[k])
  }

  function Collect(s: State, g: Policy): State {
    if g.dryRun then s else Forget(Prune(s, g.cutoff, g.keepRevisions), g.tombCutoff)
  }

  const MAX_INT64 := 0x7FFF_FFFF_FFFF_FFFF

  /** Every tombstone, whatever its age. */
  function ForgetAll(s: State): State {
    Forget(s, MAX_INT64)
  }

  /** The hashes that occur in a row or in a revision. */
  function LiveHashes(s: State): set<Hash> {
    (set p | p in s.files && s.files[p].hash.Some? :: s.files[p].hash.value)
    + (set k | k in s.revisions && s.revisions[k].hash.Some? :: s.revisions[k].hash.value)
  }

  /** What a recorded revision holds, if it holds a content. */
  function RevisionHash(s: State, p: Path, rev: int): Option<Hash> {
    if (p, rev) in s.revisions then s.revisions[(p, rev)].hash else None
  }

  // ---- the transactions ---------------------------------------------------------

  class Tables {
    var files: map<Path, File>
    var revisions: map<(Path, int), Revision>
    var counter: int

    function Snapshot(): State
      reads this
    {
      State(files, revisions, counter)
    }

    constructor ()
      ensures Snapshot() == EMPTY
    {
      files, revisions, counter := map[], map[], 0;
    }

    method NextSeq() returns (next: int)
      modifies `counter
      ensures next == old(counter) + 1 == counter
    {
      next := counter + 1;
      counter := next;
    }

    method UpsertRow(f: File)
      modifies `files, `revisions
      ensures Snapshot() == Upsert(old(Snapshot()), f)
    {
      files := files[f.path := f];
      if (f.path, f.rev) !in revisions {
        revisions := revisions[(f.path, f.rev) := Revision(f.hash, f.mtime, f.seqNo)];
      }
    }

    method PutFile(a: PutArgs) returns (r: Outcome)
      modifies this
      ensures (Snapshot(), r) == Put(old(Snapshot()), a)
    {
      var cur := Current(Snapshot(), a.path);
      if SameContent(Snapshot(), a) {
        return Ok(cur);
      }
      if cur.rev != a.baseRev {
        return Stale(cur);
      }
      var next := NextSeq();
      var row := File(a.path, cur.rev + 1, next, a.hash, a.size, a.mtime, false, a.folder, a.updatedBy, None);
      UpsertRow(row);
      return Ok(row);
    }

    method DeleteFile(p: Path, baseRev: int, author: string) returns (r: Outcome)
      modifies this
      ensures (Snapshot(), r) == Delete(old(Snapshot()), p, baseRev, author)
    {
      var cur := Current(Snapshot(), p);
      if p in files && cur.deleted {
        return Ok(cur);
      }
      if cur.rev != baseRev {
        return Stale(cur);
      }
      // The rollback of a transaction that found nothing also undoes its sequence number.
      if p !in files {
        return NotFound;
      }
      var next := NextSeq();
      var row := Tombstone(cur, next, author);
      UpsertRow(row);
      return Ok(row);
    }

    method RenameFile(from: Path, to: Path, baseRev: int, author: string) returns (r: Outcome)
      modifies this
      ensures (Snapshot(), r) == Rename(old(Snapshot()), from, to, baseRev, author)
    {
      if from == to {
        return Invalid;
      }
      var src, dst := Current(Snapshot(), from), Current(Snapshot(), to);
      if from !in files || src.deleted {
        return NotFound;
      }
      if src.rev != baseRev {
        return Stale(src);
      }
      if !dst.deleted && dst.rev > 0 {
        return Stale(dst);
      }
      var seqDst := NextSeq();
      var row := File(to, dst.rev + 1, seqDst, src.hash, src.size, src.mtime, false, src.folder, author, Some(from));
      UpsertRow(row);
      var seqSrc := NextSeq();
      UpsertRow(Tombstone(src, seqSrc, author));
      return Ok(row);
    }

    method CollectHistory(g: Policy)
      modifies `files, `revisions
      ensures Snapshot() == Collect(old(Snapshot()), g)
    {
      if g.dryRun {
        return;
      }
      revisions := map k | k in revisions && !Prunable(Snapshot(), k, g.cutoff, g.keepRevisions) :: revisions[k];
      ForgetDeletedBefore(g.tombCutoff);
    }

    method ForgetAllDeleted()
      modifies `files, `revisions
      ensures Snapshot() == ForgetAll(old(Snapshot()))
    {
      ForgetDeletedBefore(MAX_INT64);
    }

    method ForgetDeletedBefore(cutoff: int)
      modifies `files, `revisions
      ensures Snapshot() == Forget(old(Snapshot()), cutoff)
    {
      revisions := map k | k in revisions && !Expired(Snapshot(), k.0, cutoff) :: revisions[k];
      files := map p | p in files && !Expired(Snapshot(), p, cutoff) :: files[p];
    }

    /** Two queries, one row at a time. */
    method CollectLive() returns (live: set<Hash>)
      ensures live == LiveHashes(Snapshot())
    {
      live := {};
      var rows := files.Keys;
      while rows != {}
        invariant rows <= files.Keys
        invariant live == set p | p in files && p !in rows && files[p].hash.Some? :: files[p].hash.value
        decreases rows
      {
        var p :| p in rows;
        if files[p].hash.Some? {
          live := live + {files[p].hash.value};
        }
        rows := rows - {p};
      }
      ghost var named := live;
      var revs := revisions.Keys;
      while revs != {}
        invariant revs <= revisions.Keys
        invariant live == named + set k | k in revisions && k !in revs && revisions[k].hash.Some? :: revisions[k].hash.value
        decreases revs
      {
        var k :| k in revs;
        if revisions[k].hash.Some? {
          live := live + {revisions[k].hash.value};
        }
        revs := revs - {k};
      }
    }
  }
}
