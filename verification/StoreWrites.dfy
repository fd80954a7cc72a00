/**
 The rows and the refusals of each transaction, field by field
 (server/internal/store/store.go:209-305, 340-399).
 */
module StoreWrites {
  import opened Content
  import opened Store
  import opened StoreLaws

  /** A new row, its revision beside it, and everything else as it was. */
  ghost predicate Written(s: State, t: State, f: File) {
    && t.files == s.files[f.path := f] && t.counter == f.seqNo
    && t.revisions == s.revisions[(f.path, f.rev) := Revision(f.hash, f.mtime, f.seqNo)]
  }

  /** An accepted content write found its content there, or wrote all that it was given on top of the row before. */
  lemma PutWrites(s: State, a: PutArgs)
    requires Inv(s) && Put(s, a).1.Ok?
    ensures var r, known := Put(s, a), a.path in s.files;
            var rev := if known then s.files[a.path].rev else 0;
            if known && !s.files[a.path].deleted && s.files[a.path].hash == a.hash && s.files[a.path].folder == a.folder
            then r == (s, Ok(s.files[a.path]))
            else a.baseRev == rev && Written(s, r.0, r.1.file)
                 && r.1.file == File(a.path, rev + 1, s.counter + 1, a.hash, a.size, a.mtime, false, a.folder, a.updatedBy, None)
  {
    assert RowRecorded(s, a.path);
    NextRevisionIsNew(s, a.path);
  }

  lemma NextRevisionIsNew(s: State, p: Path)
    requires Inv(s)
    ensures (p, Current(s, p).rev + 1) !in s.revisions
  {
    assert RevisionOwned(s, (p, Current(s, p).rev + 1)) && RowRecorded(s, p);
  }

  /** An accepted deletion found a tombstone, or wrote one that keeps the file's time. */
  lemma DeleteWrites(s: State, p: Path, baseRev: int, author: string)
    requires Inv(s) && Delete(s, p, baseRev, author).1.Ok?
    ensures var r := Delete(s, p, baseRev, author);
            && p in s.files && var f := s.files[p];
            if f.deleted then r == (s, Ok(f))
            else baseRev == f.rev && Written(s, r.0, r.1.file)
                 && r.1.file == File(p, f.rev + 1, s.counter + 1, None, 0, f.mtime, true, f.folder, author, None)
  {
    assert RowRecorded(s, p);
    NextRevisionIsNew(s, p);
  }

  /** An accepted rename wrote the file under its new name, and then a tombstone in its place. */
  lemma RenameWrites(s: State, from: Path, to: Path, baseRev: int, author: string)
    requires Inv(s) && Rename(s, from, to, baseRev, author).1.Ok?
    ensures var r := Rename(s, from, to, baseRev, author);
            && from != to && from in s.files && !s.files[from].deleted && s.files[from].rev == baseRev
            && (to in s.files ==> s.files[to].deleted)
            && var f, rev, n := s.files[from], if to in s.files then s.files[to].rev else 0, s.counter;
               var gone := File(from, f.rev + 1, n + 2, None, 0, f.mtime, true, f.folder, author, None);
            && r.1.file == File(to, rev + 1, n + 1, f.hash, f.size, f.mtime, false, f.folder, author, Some(from))
            && exists mid :: Written(s, mid, r.1.file) && Written(mid, r.0, gone)
  {
    assert RowRecorded(s, from) && RowRecorded(s, to);
    NextRevisionIsNew(s, from);
    NextRevisionIsNew(s, to);
    assert Written(s, Commit(s, Moved(s, from, to, author)), Moved(s, from, to, author));
  }

  /** A refusal on account of a path names the row that stands there, or a blank one. */
  predicate Names(s: State, r: Outcome, p: Path) {
    r == if p in s.files
         then Conflict(p, s.files[p].rev, s.files[p].hash, s.files[p].deleted, s.files[p].updatedBy)
         else Conflict(p, 0, None, false, "")
  }

  lemma RefusalNamesRow(s: State, a: PutArgs, p: Path, to: Path, baseRev: int, author: string)
    requires Inv(s)
    ensures Put(s, a).1.Conflict? ==> Names(s, Put(s, a).1, a.path)
    ensures Delete(s, p, baseRev, author).1.Conflict? ==> Names(s, Delete(s, p, baseRev, author).1, p)
    ensures var r := Rename(s, p, to, baseRev, author).1;
            r.Conflict? ==> Names(s, r, if s.files[p].rev != baseRev then p else to)
  {
    assert RowRecorded(s, a.path) && RowRecorded(s, p) && RowRecorded(s, to);
  }

  /** Which refusal is given: for no path at all, for one that is not there, or on account of a row. */
  lemma RefusalsAre(s: State, a: PutArgs, p: Path, to: Path, baseRev: int, author: string)
    requires Inv(s)
    ensures Put(s, a).1.Ok? || Put(s, a).1.Conflict?
    ensures Delete(s, p, baseRev, author).1.NotFound? <==> p !in s.files && baseRev == 0
    ensures Delete(s, p, baseRev, author).1.Conflict? <==>
              if p in s.files then !s.files[p].deleted && s.files[p].rev != baseRev else baseRev != 0
    ensures !Delete(s, p, baseRev, author).1.Invalid?
    ensures var r := Rename(s, p, to, baseRev, author).1;
            && (r.Invalid? <==> p == to)
            && (r.NotFound? <==> p != to && !IsLive(s, p))
            && (r.Conflict? <==> p != to && IsLive(s, p) && (s.files[p].rev != baseRev || IsLive(s, to)))
  {
    assert RowRecorded(s, p) && RowRecorded(s, to);
  }

  // ---- the time of a deletion ---------------------------------------------------------

  /**
   A deletion is meant to be kept for a number of days.  Its tombstone has the time of the
   file's last write, so it has expired exactly when that write was before the cutoff,
   whenever the file was deleted.
   */
  lemma ExpiresByWriteExactly(s: State, p: Path, author: string, cutoff: int)
    requires Inv(s) && p in s.files && !s.files[p].deleted
    ensures var t := Delete(s, p, s.files[p].rev, author).0;
            && p in t.files && t.files[p].deleted
            && (p !in Forget(t, cutoff).files <==> s.files[p].mtime < cutoff)
  {
    OwnPath(s, p);
  }

  /** Written on day 1 and deleted on day 100: a window of 90 days that ends on day 101 has it forgotten. */
  lemma DeletionIsForgottenEarly(hash: Hash)
    ensures var s := Put(EMPTY, PutArgs("n", 0, Some(hash), 0, 1, false, "")).0;
            var t := Delete(s, "n", 1, "").0;
            IsLive(s, "n") && "n" in t.files && "n" !in Forget(t, 101 - 90).files
  {
  }
}
