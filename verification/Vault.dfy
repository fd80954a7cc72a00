/**
 Content-addressed blobs beside the metadata, and the requests that touch both
 (server/internal/blob/blob.go:44-152, server/internal/api/api.go:318-493, 592-619,
 server/cmd/sync-server/gc.go:56-78, server/internal/vault/sweeper.go:51-86).
 */
module Vault {
  import opened Content
  import opened Store
  import opened StoreLaws

  /** A file name under the blob directory: a hash, or something else that lies there. */
  datatype Name = Named(hash: Hash) | Stray(name: string)

  type Disk = map<Name, Bytes>

  /** Content lands under its own hash; content already stored stays as it is. */
  function StoreBlob(d: Disk, content: Bytes): Disk {
    if Named(Sha256(content)) in d then d else d[Named(Sha256(content)) := content]
  }

  function Garbage(d: Disk, live: set<Hash>): set<Name> {
    set n | n in d && n.Named? && n.hash !in live
  }

  /** One more name looked at by the walk. */
  lemma GarbageStep(d: Disk, live: set<Hash>, names: set<Name>, n: Name)
    requires n in names && names <= d.Keys
    ensures var before, after := Garbage(d, live) - names, Garbage(d, live) - (names - {n});
            if n.Named? && n.hash !in live then after == before + {n} && n !in before else after == before
  {
  }

  lemma GarbageWhole(d: Disk, live: set<Hash>)
    ensures Garbage(d, live) - d.Keys == {} && Garbage(d, live) - {} == Garbage(d, live)
  {
  }

  class BlobStore {
    var disk: Disk

    constructor ()
      ensures disk == map[]
    {
      disk := map[];
    }

    method PutBlob(content: Bytes, limit: int) returns (r: Option<(Hash, nat)>)
      modifies this
      ensures limit > 0 && Size(content) > limit ==> r == None && disk == old(disk)
      ensures !(limit > 0 && Size(content) > limit) ==>
                r == Some((Sha256(content), Size(content))) && disk == StoreBlob(old(disk), content)
    {
      var size := Size(content);
      if limit > 0 && size > limit {
        return None;
      }
      var hash := Sha256(content);
      if Named(hash) !in disk {
        disk := disk[Named(hash) := content];
      }
      return Some((hash, size));
    }

    /** The walk over the directory; a dry run counts and leaves everything. */
    method Sweep(live: set<Hash>, dryRun: bool) returns (removed: nat)
      modifies this
      ensures removed == |Garbage(old(disk), live)|
      ensures disk == if dryRun then old(disk) else old(disk) - Garbage(old(disk), live)
    {
      hide Garbage;
      ghost var before := disk;
      var names := disk.Keys;
      removed := 0;
      GarbageWhole(before, live);
      ghost var gone: set<Name> := {};
      while names != {}
        invariant names <= before.Keys
        invariant gone == Garbage(before, live) - names
        invariant removed == |gone|
        invariant disk == if dryRun then before else before - gone
        decreases names
      {
        var n :| n in names;
        GarbageStep(before, live, names, n);
        names := names - {n};
        if n.Named? && n.hash !in live {
          removed := removed + 1;
          gone := gone + {n};
          if !dryRun {
            disk := disk - {n};
          }
        }
      }
    }
  }

  // ---- the requests -------------------------------------------------------------

  datatype Server = Server(meta: State, blobs: Disk)

  const EMPTY_SERVER := Server(EMPTY, map[])

  datatype Request =
    | Upload(path: Path, baseRev: int, content: Bytes, mtime: int, folder: bool, author: string)
    | Remove(path: Path, baseRev: int, author: string)
    | Move(from: Path, to: Path, baseRev: int, author: string)
    | CollectGarbage(policy: Policy)
    | PurgeDeleted
    | Retention(cutoff: int)

  function UploadArgs(path: Path, baseRev: int, content: Bytes, mtime: int, folder: bool, author: string): PutArgs {
    if folder then PutArgs(path, baseRev, None, 0, mtime, true, author)
    else PutArgs(path, baseRev, Some(Sha256(content)), Size(content), mtime, false, author)
  }

  function Swept(v: Server): Server {
    v.(blobs := v.blobs - Garbage(v.blobs, LiveHashes(v.meta)))
  }

  /** One request, served to its end before the next. */
  function Serve(v: Server, q: Request): Server {
    match q
    case Upload(path, baseRev, content, mtime, folder, author) =>
      Server(Put(v.meta, UploadArgs(path, baseRev, content, mtime, folder, author)).0,
             if folder then v.blobs else StoreBlob(v.blobs, content))
    case Remove(path, baseRev, author) => v.(meta := Delete(v.meta, path, baseRev, author).0)
    case Move(from, to, baseRev, author) => v.(meta := Rename(v.meta, from, to, baseRev, author).0)
    case CollectGarbage(g) =>
      var collected := v.(meta := Collect(v.meta, g));
      if g.dryRun then collected else Swept(collected)
    case PurgeDeleted => Swept(v.(meta := ForgetAll(v.meta)))
    case Retention(cutoff) =>
      var forgotten := Forget(v.meta, cutoff);
      if |forgotten.files| == |v.meta.files| then v.(meta := forgotten) else Swept(v.(meta := forgotten))
  }

  function ServeAll(v: Server, qs: seq<Request>): Server
    decreases |qs|
  {
    if qs == [] then v else ServeAll(Serve(v, qs[0]), qs[1..])
  }

  // ---- every revision can be opened -----------------------------------------------

  ghost predicate Genuine(d: Disk) {
    forall n <- d :: n.Named? ==> n.hash == Sha256(d[n])
  }

  ghost predicate Backed(v: Server) {
    forall h <- LiveHashes(v.meta) :: Named(h) in v.blobs
  }

  ghost predicate Sound(v: Server) {
    Inv(v.meta) && Genuine(v.blobs) && Backed(v)
  }

  /** Hashes a write may add: those of the row it writes. */
  lemma CommitHashes(s: State, f: File)
    ensures LiveHashes(Commit(s, f)) <= LiveHashes(s) + if f.hash.Some? then {f.hash.value} else {}
  {
  }

  lemma RenameHashes(s: State, from: Path, to: Path, baseRev: int, author: string)
    ensures LiveHashes(Rename(s, from, to, baseRev, author).0) <= LiveHashes(s)
  {
    if Rename(s, from, to, baseRev, author).1.Ok? {
      var moved := Moved(s, from, to, author);
      SourceHash(s, from);
      hide Commit, LiveHashes, Current;
      MoveHashes(s, moved, Tombstone(Current(s, from), s.counter + 2, author));
    }
  }

  lemma SourceHash(s: State, from: Path)
    requires from in s.files
    ensures Current(s, from).hash.Some? ==> Current(s, from).hash.value in LiveHashes(s)
  {
  }

  lemma MoveHashes(s: State, moved: File, gone: File)
    requires moved.hash.Some? ==> moved.hash.value in LiveHashes(s)
    requires gone.hash == None
    ensures LiveHashes(Commit(Commit(s, moved), gone)) <= LiveHashes(s)
  {
    hide Commit, LiveHashes;
    CommitHashes(s, moved);
    CommitHashes(Commit(s, moved), gone);
  }

  lemma CollectHashes(s: State, g: Policy)
    ensures LiveHashes(Collect(s, g)) <= LiveHashes(s)
  {
    ForgetHashes(Prune(s, g.cutoff, g.keepRevisions), g.tombCutoff);
    assert LiveHashes(Prune(s, g.cutoff, g.keepRevisions)) <= LiveHashes(s);
  }

  lemma ForgetHashes(s: State, cutoff: int)
    ensures LiveHashes(Forget(s, cutoff)) <= LiveHashes(s)
  {
  }

  /** A sweep after the metadata shrank leaves exactly the referenced blobs. */
  lemma SweepKeepsSound(v: Server, meta: State)
    requires Sound(v) && Inv(meta) && LiveHashes(meta) <= LiveHashes(v.meta)
    ensures Sound(v.(meta := meta)) && Sound(Swept(v.(meta := meta)))
    ensures forall h :: Named(h) in Swept(v.(meta := meta)).blobs <==> h in LiveHashes(meta)
  {
  }

  lemma ServeKeepsSound(v: Server, q: Request)
    requires Sound(v)
    ensures Sound(Serve(v, q))
  {
    hide Inv, LiveHashes;
    match q
    case Upload(path, baseRev, content, mtime, folder, author) =>
      var a := UploadArgs(path, baseRev, content, mtime, folder, author);
      StepKeepsInv(v.meta, PutOp(a));
      CommitHashes(v.meta, PutRow(v.meta, a));
    case Remove(path, baseRev, author) =>
      StepKeepsInv(v.meta, DeleteOp(path, baseRev, author));
      CommitHashes(v.meta, Tombstone(Current(v.meta, path), v.meta.counter + 1, author));
    case Move(from, to, baseRev, author) =>
      StepKeepsInv(v.meta, RenameOp(from, to, baseRev, author));
      RenameHashes(v.meta, from, to, baseRev, author);
    case CollectGarbage(g) =>
      StepKeepsInv(v.meta, CollectOp(g));
      CollectHashes(v.meta, g);
      SweepKeepsSound(v, Collect(v.meta, g));
    case PurgeDeleted =>
      StepKeepsInv(v.meta, ForgetOp(MAX_INT64));
      ForgetHashes(v.meta, MAX_INT64);
      SweepKeepsSound(v, ForgetAll(v.meta));
    case Retention(cutoff) =>
      StepKeepsInv(v.meta, ForgetOp(cutoff));
      ForgetHashes(v.meta, cutoff);
      SweepKeepsSound(v, Forget(v.meta, cutoff));
  }

  lemma {:induction false} ServeAllKeepsSound(v: Server, qs: seq<Request>)
    requires Sound(v)
    ensures Sound(ServeAll(v, qs))
    decreases |qs|
  {
    if qs != [] {
      ServeKeepsSound(v, qs[0]);
      ServeAllKeepsSound(Serve(v, qs[0]), qs[1..]);
    }
  }

  datatype Response =
    | Content200(content: Bytes, rev: int)
    | NotFound404
    | Gone410
    | NoContent204
    | BlobMissing500

  /** A file, or one revision of it. */
  function GetFile(v: Server, p: Path, rev: Option<int>): Response {
    if p !in v.meta.files then NotFound404
    else
      var f := v.meta.files[p];
      if rev.Some? then
        var hash := RevisionHash(v.meta, p, rev.value);
        if hash == None then NotFound404 else Open(v, hash.value, rev.value)
      else if f.deleted then Gone410
      else if f.folder then NoContent204
      else if f.hash == None then BlobMissing500
      else Open(v, f.hash.value, f.rev)
  }

  function Open(v: Server, h: Hash, rev: int): Response {
    if Named(h) in v.blobs then Content200(v.blobs[Named(h)], rev) else BlobMissing500
  }

  /** After any requests, each row and each revision that names a hash yields that very content. */
  lemma EveryRevisionOpens(qs: seq<Request>, p: Path, rev: int)
    ensures var v := ServeAll(EMPTY_SERVER, qs);
            && (p in v.meta.files && !v.meta.files[p].folder && v.meta.files[p].hash.Some? ==>
                  GetFile(v, p, None) == Content200(v.meta.files[p].hash.value.content, v.meta.files[p].rev))
            && (RevisionHash(v.meta, p, rev).Some? ==>
                  GetFile(v, p, Some(rev)) == Content200(RevisionHash(v.meta, p, rev).value.content, rev))
  {
    var v := ServeAll(EMPTY_SERVER, qs);
    ServeAllKeepsSound(EMPTY_SERVER, qs);
    hide Serve, ServeAll;
    assert RowRecorded(v.meta, p) && RevisionOwned(v.meta, (p, rev));
    if p in v.meta.files && v.meta.files[p].hash.Some? {
      assert v.meta.files[p].hash.value in LiveHashes(v.meta);
    }
    if RevisionHash(v.meta, p, rev).Some? {
      assert v.meta.revisions[(p, rev)].hash.value in LiveHashes(v.meta);
    }
  }

  /** What is answered when there is no content to give. */
  lemma NoContentAnswers(v: Server, p: Path, rev: int)
    ensures GetFile(v, p, None) == NotFound404 <==> p !in v.meta.files
    ensures GetFile(v, p, None) == Gone410 <==> p in v.meta.files && v.meta.files[p].deleted
    ensures GetFile(v, p, None) == NoContent204 <==> p in v.meta.files && !v.meta.files[p].deleted && v.meta.files[p].folder
    ensures var known := p in v.meta.files && (p, rev) in v.meta.revisions && v.meta.revisions[(p, rev)].hash.Some?;
            GetFile(v, p, Some(rev)) == NotFound404 <==> !known
  {
  }

  /** The purge leaves one blob for each hash still named, and no other. */
  lemma PurgeLeavesReferenced(v: Server, h: Hash)
    requires Sound(v)
    ensures Named(h) in Serve(v, PurgeDeleted).blobs <==> h in LiveHashes(Serve(v, PurgeDeleted).meta)
  {
    StepKeepsInv(v.meta, ForgetOp(MAX_INT64));
    ForgetHashes(v.meta, MAX_INT64);
    SweepKeepsSound(v, ForgetAll(v.meta));
  }

  /** What a sweep leaves: whatever is no blob, and each blob something still names. */
  ghost predicate OnlyNamed(before: Disk, after: Disk, meta: State) {
    forall n | n in before || n in after ::
      && (n in after <==> n in before && (n.Stray? || n.hash in LiveHashes(meta)))
      && (n in after ==> after[n] == before[n])
  }

  /** Collection by hand prunes and sweeps; tried dry, it does neither. */
  lemma CollectionSweeps(v: Server, g: Policy)
    ensures var v' := Serve(v, CollectGarbage(g));
            if g.dryRun then v' == v else v'.meta == Collect(v.meta, g) && OnlyNamed(v.blobs, v'.blobs, v'.meta)
  {
  }

  /** The retention sweep forgets and sweeps; with no deletion past the cutoff it does neither. */
  lemma RetentionSweeps(v: Server, cutoff: int)
    requires Inv(v.meta)
    ensures var v' := Serve(v, Retention(cutoff));
            if exists p :: p in v.meta.files && v.meta.files[p].deleted && v.meta.files[p].mtime < cutoff
            then v'.meta == Forget(v.meta, cutoff) && OnlyNamed(v.blobs, v'.blobs, v'.meta)
            else v' == v
  {
    var forgotten := Forget(v.meta, cutoff);
    if p :| p in v.meta.files && v.meta.files[p].deleted && v.meta.files[p].mtime < cutoff {
      FewerRows(forgotten.files.Keys, v.meta.files.Keys, p);
      hide Inv, LiveHashes;
    } else {
      assert forgotten.files == v.meta.files;
      forall k | k in v.meta.revisions
        ensures k in forgotten.revisions
      {
        assert RevisionOwned(v.meta, k);
      }
      assert forgotten.revisions == v.meta.revisions;
    }
  }

  lemma FewerRows(a: set<Path>, b: set<Path>, p: Path)
    requires a <= b && p in b && p !in a
    ensures |a| < |b|
  {
    assert b == a + (b - a) && p in b - a;
  }

  /**
   An upload writes its blob before its row.  A sweep that slips in between keeps the
   vault sound exactly when the content was already named, or the write starts from
   another revision than the current one and so is refused.
   */
  lemma SweepDuringUpload(v: Server, path: Path, baseRev: int, content: Bytes, mtime: int, author: string)
    requires Sound(v)
    ensures var a := UploadArgs(path, baseRev, content, mtime, false, author);
            var between := Swept(v.(blobs := StoreBlob(v.blobs, content)));
            Sound(between.(meta := Put(between.meta, a).0))
            <==> Sha256(content) in LiveHashes(v.meta) || baseRev != Current(v.meta, path).rev
  {
    var a := UploadArgs(path, baseRev, content, mtime, false, author);
    var between := Swept(v.(blobs := StoreBlob(v.blobs, content)));
    var after := Put(v.meta, a).0;
    StepKeepsInv(v.meta, PutOp(a));
    CommitHashes(v.meta, PutRow(v.meta, a));
    hide Inv;
    if Put(v.meta, a).1.Ok? {
      assert after.files[path].hash == Some(Sha256(content));
      assert after.files[path].hash.value in LiveHashes(after);
    }
  }
}
