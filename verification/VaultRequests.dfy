/**
 What a device finds after its own request (server/internal/api/api.go:319-493).
 */
module VaultRequests {
  import opened Content
  import opened Store
  import opened StoreLaws
  import opened StoreWrites
  import opened Vault

  /** An accepted upload is there to be fetched, under the revision the answer names. */
  lemma UploadIsServed(v: Server, path: Path, baseRev: int, content: Bytes, mtime: int, author: string)
    requires Sound(v)
    ensures var r := Put(v.meta, PutArgs(path, baseRev, Some(Sha256(content)), Size(content), mtime, false, author));
            var v' := Serve(v, Upload(path, baseRev, content, mtime, false, author));
            && v'.meta == r.0
            && (r.1.Ok? ==> GetFile(v', path, None) == Content200(content, r.1.file.rev))
  {
    var a := PutArgs(path, baseRev, Some(Sha256(content)), Size(content), mtime, false, author);
    var v' := Serve(v, Upload(path, baseRev, content, mtime, false, author));
    ServeKeepsSound(v, Upload(path, baseRev, content, mtime, false, author));
    if Put(v.meta, a).1.Ok? {
      PutWrites(v.meta, a);
      assert v'.meta.files[path].hash.value in LiveHashes(v'.meta);
    }
    hide Inv, LiveHashes;
  }

  /** A folder leaves a row and no content. */
  lemma FolderIsServed(v: Server, path: Path, baseRev: int, content: Bytes, mtime: int, author: string)
    requires Inv(v.meta)
    ensures var r := Put(v.meta, PutArgs(path, baseRev, None, 0, mtime, true, author));
            var v' := Serve(v, Upload(path, baseRev, content, mtime, true, author));
            && v' == Server(r.0, v.blobs) && (r.1.Ok? ==> GetFile(v', path, None) == NoContent204)
  {
    var a := PutArgs(path, baseRev, None, 0, mtime, true, author);
    if Put(v.meta, a).1.Ok? {
      PutWrites(v.meta, a);
    }
    hide Inv;
  }

  /** What was removed is gone, and its revisions are there as before. */
  lemma RemovalIsServed(v: Server, path: Path, baseRev: int, author: string, rev: int)
    requires Inv(v.meta)
    ensures var r := Delete(v.meta, path, baseRev, author);
            var v' := Serve(v, Remove(path, baseRev, author));
            && v' == Server(r.0, v.blobs)
            && (r.1.Ok? ==>
                  && GetFile(v', path, None) == Gone410
                  && (GetFile(v, path, Some(rev)).Content200? ==> GetFile(v', path, Some(rev)) == GetFile(v, path, Some(rev))))
  {
    if Delete(v.meta, path, baseRev, author).1.Ok? {
      DeleteWrites(v.meta, path, baseRev, author);
      NextRevisionIsNew(v.meta, path);
      assert RowRecorded(v.meta, path);
    }
    hide Inv;
  }

  /** What was moved is found under its new name, and gone under the old one. */
  lemma MoveIsServed(v: Server, from: Path, to: Path, baseRev: int, author: string)
    requires Inv(v.meta)
    ensures var r := Rename(v.meta, from, to, baseRev, author);
            var v' := Serve(v, Move(from, to, baseRev, author));
            && v' == Server(r.0, v.blobs)
            && (r.1.Ok? ==>
                  && GetFile(v', from, None) == Gone410
                  && (GetFile(v, from, None).Content200? ==>
                        GetFile(v', to, None) == Content200(GetFile(v, from, None).content, r.1.file.rev)))
  {
    if Rename(v.meta, from, to, baseRev, author).1.Ok? {
      RenameWrites(v.meta, from, to, baseRev, author);
    }
    hide Inv, Rename;
  }
}
