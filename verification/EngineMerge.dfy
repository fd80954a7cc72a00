/**
 What a reconciliation starts from and what it leaves, read off the tables and the disk
 (src/sync-engine.ts:25, 1147-1247).
 */
module EngineMerge {
  import opened Content
  import opened Store
  import opened Engine
  import Diff3

  /** The server has this revision of the path, and it opens to these bytes. */
  ghost predicate Holds(w: World, cfg: Config, p: Path, rev: int, b: Bytes) {
    && p in w.server.files && (p, rev) in w.server.revisions && w.server.revisions[(p, rev)].hash.Some?
    && Unseal(cfg.cipher, w.server.revisions[(p, rev)].hash.value.content) == Some(b)
  }

  /** There is no such revision, or it names no content. */
  ghost predicate Lacks(w: World, p: Path, rev: int) {
    p !in w.server.files || (p, rev) !in w.server.revisions || w.server.revisions[(p, rev)].hash == None
  }

  /** The lines merging needs are text of at most a megabyte. */
  ghost predicate Readily(b: Bytes) {
    b.Text? && '\0' !in b.text && Size(b) <= 1_048_576
  }

  /** Whether bytes are text, and which; what is no text counts as empty where an ancestor is wanted. */
  ghost predicate ReadsAs(b: Bytes, text: string) {
    text == if b.Text? && '\0' !in b.text then b.text else ""
  }

  /** The text of the revision a merge starts from; revision 0 stands for none and gives the empty text. */
  ghost predicate StartsFrom(w: World, cfg: Config, p: Path, baseRev: int, base: string) {
    if baseRev <= 0 then base == "" else exists b :: Holds(w, cfg, p, baseRev, b) && ReadsAs(b, base)
  }

  /** The server's bytes under the name, the local ones whole beside them, and the conflict on record. */
  ghost predicate BothKept(w: World, w': World, p: Path, local: Bytes, theirs: Bytes, serverRev: int,
                           baseRev: int, mergeable: bool, copy: Path) {
    && (p, serverRev) in w.server.revisions
    && w' == w.(disk := w.disk[copy := local][p := theirs],
                index := w.index[p := Entry(serverRev, w.server.revisions[(p, serverRev)].hash, Some(Sha256(theirs)), false)]
                         - {copy},
                conflicts := w.conflicts[p := Pending(copy, baseRev, serverRev, mergeable)])
  }

  /** Sent on top of that revision, or refused; either way these bytes are on disk. */
  ghost predicate MergeSent(w: World, w': World, cfg: Config, p: Path, serverRev: int, merged: Bytes, now: int, st: Status) {
    var sealed := Seal(cfg.cipher, merged);
    var r := Put(w.server, PutArgs(p, serverRev, Some(Sha256(sealed)), Size(sealed), now, false, cfg.device));
    && w'.disk == w.disk[p := merged] && w'.conflicts == w.conflicts && w'.cursor == w.cursor && w'.server == r.0
    && if r.1.Ok?
       then st == Done && w'.index == w.index[p := Entry(r.1.file.rev, r.1.file.hash, Some(Sha256(merged)), false)]
       else st == Failed && w'.index == w.index
  }

  /** Texts are merged from the text of the revision they started from, and kept both where that gives a conflict. */
  lemma MergesFromBase(w: World, cfg: Config, p: Path, local: Bytes, theirs: Bytes, base: string, serverRev: int,
                       baseRev: int, copy: Path, now: int)
    requires Holds(w, cfg, p, serverRev, theirs) && Readily(local) && Readily(theirs) && StartsFrom(w, cfg, p, baseRev, base)
    ensures var r := Reconcile(w, cfg, p, local, serverRev, baseRev, copy, now);
            var m := Diff3.Merge(base, local.text, theirs.text, Diff3.Labels(cfg.device, "server"));
            if m.clean then MergeSent(w, r.0, cfg, p, serverRev, Text(m.text), now, r.1)
            else r.1 == Done && BothKept(w, r.0, p, local, theirs, serverRev, baseRev, true, copy)
  {
    Fetches(w, cfg, p, serverRev);
    Ancestors(w, cfg, p, baseRev);
    var m := Diff3.Merge(base, local.text, theirs.text, Diff3.Labels(cfg.device, "server"));
    SendsMerged(w, cfg, p, serverRev, Text(m.text), now);
    hide Diff3.Merge, Fetch, AncestorText, Put, SendMerged, MergeSent;
  }

  lemma SendsMerged(w: World, cfg: Config, p: Path, serverRev: int, merged: Bytes, now: int)
    ensures var r := SendMerged(w, cfg, p, serverRev, merged, now); MergeSent(w, r.0, cfg, p, serverRev, merged, now, r.1)
  {
  }

  /** What cannot be merged, or has lost the revision it started from, is kept in both versions. */
  lemma KeepsBothOtherwise(w: World, cfg: Config, p: Path, local: Bytes, theirs: Bytes, serverRev: int,
                           baseRev: int, copy: Path, now: int)
    requires Holds(w, cfg, p, serverRev, theirs)
    requires !Readily(local) || !Readily(theirs) || (baseRev > 0 && Lacks(w, p, baseRev))
    ensures var r := Reconcile(w, cfg, p, local, serverRev, baseRev, copy, now);
            r.1 == Done && BothKept(w, r.0, p, local, theirs, serverRev, baseRev, false, copy)
  {
    Fetches(w, cfg, p, serverRev);
    Ancestors(w, cfg, p, baseRev);
    hide Diff3.Merge, Fetch, AncestorText, Put;
  }

  /** A revision that is not there or does not open stops it before anything is touched. */
  lemma FailsWhole(w: World, cfg: Config, p: Path, local: Bytes, serverRev: int, baseRev: int, copy: Path, now: int)
    requires (forall b :: !Holds(w, cfg, p, serverRev, b))
             || (exists b :: Holds(w, cfg, p, serverRev, b) && Readily(local) && Readily(b) && baseRev > 0
                             && !Lacks(w, p, baseRev) && forall a :: !Holds(w, cfg, p, baseRev, a))
    ensures Reconcile(w, cfg, p, local, serverRev, baseRev, copy, now) == (w, Failed)
  {
    Fetches(w, cfg, p, serverRev);
    Ancestors(w, cfg, p, baseRev);
    var g := Fetch(w, cfg, p, serverRev);
    assert g.Got? ==> Holds(w, cfg, p, serverRev, g.plain);
    hide Diff3.Merge, Fetch, AncestorText, Put;
  }

  lemma Fetches(w: World, cfg: Config, p: Path, rev: int)
    ensures var g := Fetch(w, cfg, p, rev);
            && (g.Got? <==> exists b :: Holds(w, cfg, p, rev, b))
            && (forall b | Holds(w, cfg, p, rev, b) :: g == Got(b, w.server.revisions[(p, rev)].hash.value))
            && (g.Missing? <==> Lacks(w, p, rev))
  {
    var g := Fetch(w, cfg, p, rev);
    assert g.Got? ==> Holds(w, cfg, p, rev, g.plain);
  }

  lemma Ancestors(w: World, cfg: Config, p: Path, baseRev: int)
    ensures var a := AncestorText(w, cfg, p, baseRev);
            && (forall base | StartsFrom(w, cfg, p, baseRev, base) :: a == Base(base))
            && (baseRev > 0 ==>
                  && (a.Gone? <==> Lacks(w, p, baseRev))
                  && (a.Broken? <==> !Lacks(w, p, baseRev) && forall b :: !Holds(w, cfg, p, baseRev, b)))
  {
    Fetches(w, cfg, p, baseRev);
    hide Fetch;
  }

  /** A row taken in over an edit is merged from the revision the index stands at. */
  lemma PullMergesFromIndex(w: World, cfg: Config, f: File, theirs: Bytes, base: string, copy: Path, now: int)
    requires !f.deleted && f.path in w.disk && Holds(w, cfg, f.path, f.rev, theirs)
    requires f.hash != Some(Sha256(Seal(cfg.cipher, w.disk[f.path])))
    requires f.path in w.index ==>
               && w.index[f.path].plainHash != Some(Sha256(w.disk[f.path]))
               && !(w.index[f.path].baseRev == f.rev && f.updatedBy == cfg.device)
    requires Readily(w.disk[f.path]) && Readily(theirs)
    requires StartsFrom(w, cfg, f.path, if f.path in w.index then w.index[f.path].baseRev else 0, base)
    ensures var r := ApplyRemote(w, cfg, f, copy, now);
            var m := Diff3.Merge(base, w.disk[f.path].text, theirs.text, Diff3.Labels(cfg.device, "server"));
            if m.clean then MergeSent(w, r.0, cfg, f.path, f.rev, Text(m.text), now, r.1)
            else BothKept(w, r.0, f.path, w.disk[f.path], theirs, f.rev,
                          if f.path in w.index then w.index[f.path].baseRev else 0, true, copy)
  {
    var baseRev := if f.path in w.index then w.index[f.path].baseRev else 0;
    PullReconciles(w, cfg, f, copy, now);
    MergesFromBase(w, cfg, f.path, w.disk[f.path], theirs, base, f.rev, baseRev, copy, now);
    hide Diff3.Merge, Reconcile, ApplyRemote, Readily, Holds, StartsFrom, MergeSent, BothKept, Seal;
  }

  lemma PullReconciles(w: World, cfg: Config, f: File, copy: Path, now: int)
    requires !f.deleted && f.path in w.disk && f.hash != Some(Sha256(Seal(cfg.cipher, w.disk[f.path])))
    requires f.path in w.index ==>
               && w.index[f.path].plainHash != Some(Sha256(w.disk[f.path]))
               && !(w.index[f.path].baseRev == f.rev && f.updatedBy == cfg.device)
    ensures ApplyRemote(w, cfg, f, copy, now) ==
            Reconcile(w, cfg, f.path, w.disk[f.path], f.rev,
                      if f.path in w.index then w.index[f.path].baseRev else 0, copy, now)
  {
    hide Reconcile, Seal;
  }

  /** And so is an edit that is sent and refused because another device's revision is current. */
  lemma PushMergesFromIndex(w: World, cfg: Config, p: Path, theirs: Bytes, base: string, copy: Path, now: int)
    requires p in w.disk && p in w.index && p in w.server.files && var e, f := w.index[p], w.server.files[p];
             && e.plainHash != Some(Sha256(w.disk[p])) && !f.deleted && f.rev != e.baseRev
             && !(f.hash == Some(Sha256(Seal(cfg.cipher, w.disk[p]))) && !f.folder)
             && Holds(w, cfg, p, f.rev, theirs) && StartsFrom(w, cfg, p, e.baseRev, base)
    requires Readily(w.disk[p]) && Readily(theirs)
    ensures var r, rev := PushOne(w, cfg, p, copy, now), w.server.files[p].rev;
            var m := Diff3.Merge(base, w.disk[p].text, theirs.text, Diff3.Labels(cfg.device, "server"));
            if m.clean then MergeSent(w, r.0, cfg, p, rev, Text(m.text), now, r.1)
            else BothKept(w, r.0, p, w.disk[p], theirs, rev, w.index[p].baseRev, true, copy)
  {
    MergesFromBase(w, cfg, p, w.disk[p], theirs, base, w.server.files[p].rev, w.index[p].baseRev, copy, now);
    hide Diff3.Merge, Reconcile, Readily, Holds, StartsFrom, Size;
  }

  // ---- sizes ------------------------------------------------------------------------------

  /** The size of a text is that of its UTF-8 form: character by character, between one byte and four. */
  lemma {:induction false} SizeOfText(s: string, i: nat)
    requires i < |s|
    ensures Size(Text(s)) == Size(Text(s[..i])) + Size(Text([s[i]])) + Size(Text(s[i + 1..]))
    ensures var c := s[i] as int;
            Size(Text([s[i]])) == if c < 0x80 then 1 else if c < 0x800 then 2 else if c < 0x10000 then 3 else 4
    decreases |s|
  {
    assert [s[i]][1..] == "";
    if i == 0 {
      assert s[..0] == "";
    } else {
      SizeOfText(s[1..], i - 1);
      assert s[..i][1..] == s[1..][..i - 1] && s[i + 1..] == s[1..][i..];
    }
  }
}
