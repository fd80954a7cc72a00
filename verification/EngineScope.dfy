/**
 What is excluded stays on the device: it is not indexed, not sent and not taken in
 (src/sync-engine.ts:275-277, 543-547, 949-964, 1006-1013).
 */
module EngineScope {
  import opened Content
  import opened Store
  import opened StoreLaws
  import opened Engine
  import opened EngineQuiet
  import opened EnginePass
  import Diff3

  /** A path that begins with one of the excluded prefixes. */
  ghost predicate Shut(cfg: Config, q: Path) {
    exists x, n: nat :: x in cfg.excludes && n <= |q| && q[..n] == x
  }

  /** So whatever follows an excluded prefix is excluded, and nothing else is. */
  lemma ExcludedExactly(cfg: Config, q: Path)
    ensures Excluded(cfg, q) <==> Shut(cfg, q)
  {
    if Excluded(cfg, q) {
      var x :| x in cfg.excludes && x <= q;
      assert q[..|x|] == x;
    }
  }

  lemma TailIsShut(cfg: Config, x: string, tail: string)
    requires x in cfg.excludes
    ensures Shut(cfg, x + tail) && Excluded(cfg, x + tail)
  {
    assert (x + tail)[..|x|] == x;
    ExcludedExactly(cfg, x + tail);
  }

  ghost predicate SameEntry(w: World, w': World, q: Path) {
    (q in w.index <==> q in w'.index) && (q in w.index ==> w.index[q] == w'.index[q])
  }

  /** Nothing excluded is indexed, forgotten or written, except at the given paths. */
  ghost predicate LeftOut(w: World, w': World, cfg: Config, except: set<Path>) {
    forall q | Shut(cfg, q) && q !in except :: SameEntry(w, w', q) && SameRow(w, w', q)
  }

  lemma LeftOutOn(w: World, v: World, w': World, cfg: Config, except: set<Path>)
    requires LeftOut(w, v, cfg, except) && (LeftOut(v, w', cfg, except) || LeftOut(v, w', cfg, {}))
    ensures LeftOut(w, w', cfg, except)
  {
    hide Shut;
  }

  lemma NothingWritten(w: World, w': World, cfg: Config, except: set<Path>)
    requires w'.index == w.index && w'.server == w.server
    ensures LeftOut(w, w', cfg, except) && (w'.conflicts == w.conflicts ==> Recorded(w, w'))
  {
  }

  /** The paths of entries kept from earlier passes, which are tried whatever is excluded by now. */
  function Tried(kept: map<Path, File>): set<Path> {
    set p | p in kept :: kept[p].path
  }

  // ---- adoption --------------------------------------------------------------------------

  /** A file nobody knows is queued exactly when it is not excluded; entries stay as they are. */
  lemma AdoptsExactly(w: World, cfg: Config, q: Path)
    ensures var w' := Adopt(w, cfg);
            && (q in w.index ==> q in w'.index && w'.index[q] == w.index[q])
            && (q !in w.index ==>
                  if q in w.disk && !Shut(cfg, q) then q in w'.index && w'.index[q] == Entry(0, None, None, true)
                  else q !in w'.index)
            && w' == w.(index := w'.index)
  {
    ExcludedExactly(cfg, q);
    hide Excluded, Shut;
  }

  lemma AdoptLeavesOut(w: World, cfg: Config)
    ensures LeftOut(w, Adopt(w, cfg), cfg, {})
  {
    forall q | Shut(cfg, q)
      ensures SameEntry(w, Adopt(w, cfg), q)
    {
      AdoptsExactly(w, cfg, q);
    }
    hide Shut, Adopt;
  }

  // ---- steps of a pass ---------------------------------------------------------------------

  /** A row of an excluded path moves the cursor on and changes nothing else. */
  lemma TurnPassesOver(w: World, cfg: Config, f: File, copy: Path, now: int)
    requires Shut(cfg, f.path)
    ensures Turn(w, cfg, f, copy, now) == w.(cursor := if f.seqNo > w.cursor then f.seqNo else w.cursor)
  {
    ExcludedExactly(cfg, f.path);
    hide Shut, Excluded, ApplyRemote;
  }

  lemma SendElsewhere(w: World, cfg: Config, p: Path, baseRev: int, plain: Bytes, now: int, q: Path)
    requires q != p
    ensures var w' := Send(w, cfg, p, baseRev, plain, now).0;
            SameEntry(w, w', q) && SameRow(w, w', q)
  {
  }

  lemma ReconcileElsewhere(w: World, cfg: Config, p: Path, local: Bytes, serverRev: int, baseRev: int, copy: Path,
                           now: int, q: Path)
    requires q != p && copy !in w.index
    ensures var w' := Reconcile(w, cfg, p, local, serverRev, baseRev, copy, now).0;
            SameEntry(w, w', q) && SameRow(w, w', q)
  {
    hide Send, Fetch, Diff3.Merge, Mergeable, AncestorText;
    var g := Fetch(w, cfg, p, serverRev);
    if g.Got? && Mergeable(local) && Mergeable(g.plain) && AncestorText(w, cfg, p, baseRev).Base? {
      MergeableIsText(local);
      MergeableIsText(g.plain);
      var merged := Text(MergedText(cfg, AncestorText(w, cfg, p, baseRev).text, local.text, g.plain.text).text);
      SendElsewhere(w.(disk := w.disk[p := merged]), cfg, p, serverRev, merged, now, q);
    }
  }

  lemma RemoteElsewhere(w: World, cfg: Config, f: File, copy: Path, now: int, q: Path)
    requires q != f.path && copy !in w.index && Excluded(cfg, q)
    ensures var w' := ApplyRemote(w, cfg, f, copy, now).0; SameEntry(w, w', q) && SameRow(w, w', q)
  {
    hide Reconcile, Fetch, MatchesRemote;
    if f.path in w.disk {
      ReconcileElsewhere(w, cfg, f.path, w.disk[f.path], f.rev,
                         if f.path in w.index then w.index[f.path].baseRev else 0, copy, now, q);
    }
  }

  /** A turn of the pull, of whatever row, leaves out what is excluded. */
  lemma TurnLeavesOut(w: World, cfg: Config, f: File, copy: Path, now: int)
    requires Free(w, copy)
    ensures LeftOut(w, Turn(w, cfg, f, copy, now), cfg, {})
  {
    if Shut(cfg, f.path) {
      TurnPassesOver(w, cfg, f, copy, now);
    } else {
      RemoteLeavesOut(w, cfg, f, copy, now);
      ExcludedExactly(cfg, f.path);
    }
    hide Shut, Excluded, ApplyRemote, Free;
  }

  lemma RemoteLeavesOut(w: World, cfg: Config, f: File, copy: Path, now: int)
    requires Free(w, copy)
    ensures LeftOut(w, ApplyRemote(w, cfg, f, copy, now).0, cfg, {f.path})
  {
    forall q | Shut(cfg, q) && q != f.path
      ensures var w' := ApplyRemote(w, cfg, f, copy, now).0; SameEntry(w, w', q) && SameRow(w, w', q)
    {
      ExcludedExactly(cfg, q);
      RemoteElsewhere(w, cfg, f, copy, now, q);
    }
    hide Shut, Excluded, ApplyRemote, Free;
  }

  lemma UploadElsewhere(w: World, cfg: Config, p: Path, local: Bytes, baseRev: int, copy: Path, now: int, q: Path)
    requires q != p && copy !in w.index
    ensures var w' := Upload(w, cfg, p, local, baseRev, copy, now).0; SameEntry(w, w', q) && SameRow(w, w', q)
  {
    var first := Send(w, cfg, p, baseRev, local, now);
    SendElsewhere(w, cfg, p, baseRev, local, now, q);
    hide Send, Reconcile;
    if first.1.Conflict? {
      SendElsewhere(w, cfg, p, first.1.serverRev, local, now, q);
      ReconcileElsewhere(w, cfg, p, local, first.1.serverRev, baseRev, copy, now, q);
    }
  }

  lemma PushElsewhere(w: World, cfg: Config, p: Path, copy: Path, now: int, q: Path)
    requires Inv(w.server) && q != p && copy !in w.index
    ensures var w' := PushOne(w, cfg, p, copy, now).0; SameEntry(w, w', q) && SameRow(w, w', q)
  {
    OwnPath(w.server, p);
    if p in w.index && p in w.disk {
      UploadElsewhere(w, cfg, p, w.disk[p], w.index[p].baseRev, copy, now, q);
    }
    hide Upload, Inv;
  }

  lemma RetryLeavesOut(w: World, cfg: Config, kept: map<Path, File>, f: File, copy: Path, now: int)
    requires Free(w, copy) && f.path in Tried(kept)
    ensures LeftOut(w, Retry(w, cfg, f, copy, now).0, cfg, Tried(kept))
  {
    RemoteLeavesOut(w, cfg, f, copy, now);
    hide Shut, Excluded, ApplyRemote, Free, Tried;
  }

  /** Sending a path that is not excluded leaves out what is. */
  lemma PushLeavesOut(w: World, cfg: Config, p: Path, copy: Path, now: int)
    requires Inv(w.server) && Free(w, copy) && !Excluded(cfg, p)
    ensures LeftOut(w, PushOne(w, cfg, p, copy, now).0, cfg, {})
  {
    forall q | Shut(cfg, q)
      ensures var w' := PushOne(w, cfg, p, copy, now).0; SameEntry(w, w', q) && SameRow(w, w', q)
    {
      ExcludedExactly(cfg, q);
      PushElsewhere(w, cfg, p, copy, now, q);
    }
    hide Shut, Excluded, PushOne, Free;
  }

  // ---- conflicts on record ------------------------------------------------------------------

  /** No step takes a conflict off the record. */
  ghost predicate Recorded(w: World, w': World) {
    w.conflicts.Keys <= w'.conflicts.Keys
  }

  lemma RecordedOn(w: World, v: World, w': World)
    requires Recorded(w, v) && Recorded(v, w')
    ensures Recorded(w, w')
  {
  }

  lemma ReconcileRecords(w: World, cfg: Config, p: Path, local: Bytes, serverRev: int, baseRev: int, copy: Path, now: int)
    ensures Recorded(w, Reconcile(w, cfg, p, local, serverRev, baseRev, copy, now).0)
  {
    hide Fetch, Diff3.Merge, Mergeable, AncestorText, Put, Committed;
  }

  lemma RemoteRecords(w: World, cfg: Config, f: File, copy: Path, now: int)
    ensures Recorded(w, ApplyRemote(w, cfg, f, copy, now).0)
  {
    if f.path in w.disk {
      ReconcileRecords(w, cfg, f.path, w.disk[f.path], f.rev,
                       if f.path in w.index then w.index[f.path].baseRev else 0, copy, now);
    }
    hide Reconcile, Fetch, MatchesRemote, Excluded;
  }

  lemma TurnRecords(w: World, cfg: Config, f: File, copy: Path, now: int)
    ensures Recorded(w, Turn(w, cfg, f, copy, now)) && Recorded(w, Retry(w, cfg, f, copy, now).0)
  {
    RemoteRecords(w, cfg, f, copy, now);
    hide ApplyRemote, Excluded;
  }

  lemma PushRecords(w: World, cfg: Config, p: Path, copy: Path, now: int)
    ensures Recorded(w, PushOne(w, cfg, p, copy, now).0)
  {
    if p in w.index && p in w.disk {
      var first := Send(w, cfg, p, w.index[p].baseRev, w.disk[p], now);
      if first.1.Conflict? {
        ReconcileRecords(w, cfg, p, w.disk[p], first.1.serverRev, w.index[p].baseRev, copy, now);
      }
    }
    hide Reconcile, Put, Delete, Committed, FetchCurrent;
  }
}
