/**
 Entries that failed in an earlier pass, tried again ahead of the pull: what the pull then
 starts from (src/sync-engine.ts:578-616).
 */
module EngineRetry {
  import opened Content
  import opened Store
  import opened StoreLaws
  import opened Engine
  import opened EngineQuiet
  import opened EnginePass

  /** A kept entry the index has overtaken. */
  predicate Past(w: World, f: File) {
    f.path in w.index && w.index[f.path].baseRev >= f.rev
  }

  /** A kept entry that is the path's row to this day. */
  predicate Due(w: World, kept: map<Path, File>, p: Path) {
    p in kept && kept[p].path == p && p in w.server.files && w.server.files[p] == kept[p]
  }

  /** What its retry has to wait for: nothing else is kept under the name it moves away from. */
  predicate Retriable(w: World, cfg: Config, kept: map<Path, File>, p: Path)
    requires p in kept
  {
    kept[p].path == p
    && (Past(w, kept[p])
        || (Due(w, kept, p) && !Excluded(cfg, p) && (kept[p].renamedFrom.Some? ==> kept[p].renamedFrom.value !in kept)))
  }

  /** All that a pass needs, with the kept entries counted among those still to be read. */
  ghost predicate AbleWith(w: World, cfg: Config, kept: map<Path, File>) {
    && ServerReady(w, cfg) && (forall p <- kept :: Retriable(w, cfg, kept, p))
    && (forall p | !Excluded(cfg, p) :: Coherent(w, cfg, p, !Unseen(w, p) && !Due(w, kept, p)))
  }

  /** Files that are neither kept nor moved away by a kept entry are as they were. */
  ghost predicate Undisturbed(w0: World, w: World, kept: map<Path, File>) {
    w.cursor == w0.cursor
    && forall q | q in w0.disk && q !in kept && (forall p <- kept :: kept[p].renamedFrom != Some(q)) :: SameAt(w0, w, q)
  }

  lemma AbleIsAbleWith(w: World, cfg: Config, kept: map<Path, File>)
    requires ServerReady(w, cfg) && AllCoherent(w, cfg) && forall p <- kept :: kept[p].path == p && Past(w, kept[p])
    ensures AbleWith(w, cfg, kept)
  {
    hide ServerReady, Due, Past, Excluded, Unseen;
    forall p | !Excluded(cfg, p)
      ensures Coherent(w, cfg, p, !Unseen(w, p) && !Due(w, kept, p))
    {
      assert Coherent(w, cfg, p, !Unseen(w, p));
    }
  }

  lemma NothingKept(w: World, cfg: Config)
    requires AbleWith(w, cfg, map[])
    ensures ServerReady(w, cfg) && AllCoherent(w, cfg)
  {
    hide ServerReady, Coherent, Excluded, Unseen;
    forall p | !Excluded(cfg, p)
      ensures Coherent(w, cfg, p, !Unseen(w, p))
    {
      assert !Due(w, map[], p);
    }
  }

  // ---- one retry ------------------------------------------------------------------------------

  /** The index is past it: it is dropped, and the path is as if its row had been read. */
  lemma PassedOver(w: World, cfg: Config, kept: map<Path, File>, p: Path)
    requires AbleWith(w, cfg, kept) && p in kept && Past(w, kept[p])
    ensures AbleWith(w, cfg, kept - {p})
  {
    var rest := kept - {p};
    forall q | q in rest
      ensures Retriable(w, cfg, rest, q)
    {
      assert Retriable(w, cfg, kept, q);
    }
    assert RowRecorded(w.server, p) && Retriable(w, cfg, kept, p);
    forall q | !Excluded(cfg, q)
      ensures Coherent(w, cfg, q, !Unseen(w, q) && !Due(w, rest, q))
    {
      assert Coherent(w, cfg, q, !Unseen(w, q) && !Due(w, kept, q));
      hide ServerReady;
      assert q != p ==> Due(w, rest, q) == Due(w, kept, q);
    }
  }

  lemma AppliedElsewhere(w: World, w': World, cfg: Config, f: File, copy: Path, q: Path)
    requires Applied(w, w', cfg, f, copy) && q != f.path
    ensures (SameAt(w, w', q) || q !in w'.index) && SameRow(w, w', q)
  {
    hide Coherent, Readable, Converges, Settled, Wrote;
    assert !SameAt(w, w', q) ==> q in Beside(f, copy) - {f.path};
  }

  lemma RetryTouches(w: World, cfg: Config, kept: map<Path, File>, p: Path, copy: Path, now: int, q: Path)
    requires AbleWith(w, cfg, kept) && p in kept && !Past(w, kept[p]) && Free(w, copy) && q != p
    ensures var w' := ApplyRemote(w, cfg, kept[p], copy, now).0;
            && (SameAt(w, w', q) || (q !in w'.index && q !in kept)) && SameRow(w, w', q)
            && (q in w.disk && kept[p].renamedFrom != Some(q) ==> SameAt(w, w', q))
  {
    var f, w' := kept[p], ApplyRemote(w, cfg, kept[p], copy, now).0;
    assert Retriable(w, cfg, kept, p) && Coherent(w, cfg, p, !Unseen(w, p) && !Due(w, kept, p));
    CopyIsNotKept(w, cfg, kept, copy);
    RemoteApplies(w, cfg, f, copy, now);
    hide ApplyRemote, Applied, Coherent, ServerReady, Excluded, Unseen, AbleWith;
    AppliedElsewhere(w, w', cfg, f, copy, q);
    ServerReads(w, cfg, kept);
    if q != copy {
      RemoteTouches(w, cfg, f, copy, now, q);
    }
    hide Readable, SameAt, MatchesRemote;
  }

  lemma ServerReads(w: World, cfg: Config, kept: map<Path, File>)
    requires AbleWith(w, cfg, kept)
    ensures Readable(w.server, cfg)
  {
  }

  lemma CopyIsNotKept(w: World, cfg: Config, kept: map<Path, File>, copy: Path)
    requires AbleWith(w, cfg, kept) && Free(w, copy)
    ensures copy !in kept
  {
    assert copy in kept ==> Retriable(w, cfg, kept, copy);
  }

  lemma RetryApplies(w: World, cfg: Config, kept: map<Path, File>, p: Path, copy: Path, now: int)
    requires AbleWith(w, cfg, kept) && p in kept && !Past(w, kept[p]) && Free(w, copy)
    ensures var r := ApplyRemote(w, cfg, kept[p], copy, now);
            r.1 == Done && Coherent(r.0, cfg, p, true) && ServerReady(r.0, cfg) && r.0.cursor == w.cursor
  {
    assert Retriable(w, cfg, kept, p) && Coherent(w, cfg, p, !Unseen(w, p) && !Due(w, kept, p));
    var f, w' := kept[p], ApplyRemote(w, cfg, kept[p], copy, now).0;
    RemoteApplies(w, cfg, f, copy, now);
    AppliedParts(w, w', cfg, f, copy);
    hide ApplyRemote, Applied, Coherent, Readable, RenameOrdered, Excluded, Unseen;
    RenamesStayOrdered(w, w', cfg, f, copy);
  }

  /** A kept entry that is still the row of its path is applied, and the others wait as before. */
  lemma RetryGoesOn(w: World, cfg: Config, kept: map<Path, File>, p: Path, copy: Path, now: int)
    requires AbleWith(w, cfg, kept) && p in kept && Free(w, copy)
    ensures var r := Retry(w, cfg, kept[p], copy, now); r.1 == Done && AbleWith(r.0, cfg, kept - {p})
  {
    if Past(w, kept[p]) {
      PassedOver(w, cfg, kept, p);
    } else {
      var w', rest := ApplyRemote(w, cfg, kept[p], copy, now).0, kept - {p};
      RetryApplies(w, cfg, kept, p, copy, now);
      forall q | q in rest
        ensures Retriable(w', cfg, rest, q)
      {
        assert Retriable(w, cfg, kept, q);
        RetryTouches(w, cfg, kept, p, copy, now, q);
      }
      forall q | !Excluded(cfg, q)
        ensures Coherent(w', cfg, q, !Unseen(w', q) && !Due(w', rest, q))
      {
        RetryLeaves(w, cfg, kept, p, copy, now, q);
      }
      hide ApplyRemote, ServerReady, Coherent, Retriable;
    }
  }

  lemma RetryLeaves(w: World, cfg: Config, kept: map<Path, File>, p: Path, copy: Path, now: int, q: Path)
    requires AbleWith(w, cfg, kept) && p in kept && !Past(w, kept[p]) && Free(w, copy) && !Excluded(cfg, q)
    ensures var w' := ApplyRemote(w, cfg, kept[p], copy, now).0;
            Coherent(w', cfg, q, !Unseen(w', q) && !Due(w', kept - {p}, q))
  {
    var w' := ApplyRemote(w, cfg, kept[p], copy, now).0;
    RetryApplies(w, cfg, kept, p, copy, now);
    assert Coherent(w, cfg, q, !Unseen(w, q) && !Due(w, kept, q));
    if q == p {
      LessSeen(w', cfg, p);
    } else {
      RetryTouches(w, cfg, kept, p, copy, now, q);
    }
    hide ApplyRemote, ServerReady, Retriable;
  }

  lemma RetryDisturbs(w0: World, w: World, cfg: Config, kept0: map<Path, File>, kept: map<Path, File>,
                      p: Path, copy: Path, now: int)
    requires AbleWith(w, cfg, kept) && p in kept && Free(w, copy)
    requires kept.Keys <= kept0.Keys && (forall q <- kept :: kept[q] == kept0[q]) && Undisturbed(w0, w, kept0)
    ensures Undisturbed(w0, Retry(w, cfg, kept[p], copy, now).0, kept0)
  {
    if !Past(w, kept[p]) {
      var w' := ApplyRemote(w, cfg, kept[p], copy, now).0;
      RetryApplies(w, cfg, kept, p, copy, now);
      forall q | q in w0.disk && q !in kept0 && (forall p <- kept0 :: kept0[p].renamedFrom != Some(q))
        ensures SameAt(w0, w', q)
      {
        assert SameAt(w0, w, q) && kept0[p].renamedFrom != Some(q);
        RetryTouches(w, cfg, kept, p, copy, now, q);
      }
      hide ApplyRemote, AbleWith;
    }
  }

  // ---- what a retry may lose sight of -----------------------------------------------------------

  ghost predicate SightedWith(w: World, cfg: Config, kept: map<Path, File>) {
    forall p | !Excluded(cfg, p) :: Sighted(w, p, !Unseen(w, p) && !Due(w, kept, p))
  }

  /** The kept rename moves away a file whose own row was read long ago. */
  predicate MovesRead(w: World, cfg: Config, f: File) {
    && !Past(w, f) && !Echo(w, cfg, f) && !f.deleted && MovesLocally(w, cfg, f)
    && IsLive(w.server, f.renamedFrom.value) && !Unseen(w, f.renamedFrom.value)
  }

  /** A retry loses sight of a live file exactly when it moves such a file away. */
  lemma RetrySightsExactly(w: World, cfg: Config, kept: map<Path, File>, p: Path, copy: Path, now: int)
    requires AbleWith(w, cfg, kept) && SightedWith(w, cfg, kept) && p in kept && Free(w, copy)
    ensures SightedWith(Retry(w, cfg, kept[p], copy, now).0, cfg, kept - {p}) <==> !MovesRead(w, cfg, kept[p])
  {
    var f, w', rest := kept[p], Retry(w, cfg, kept[p], copy, now).0, kept - {p};
    assert Retriable(w, cfg, kept, p);
    if MovesRead(w, cfg, f) {
      MovedIsUnsighted(w, cfg, kept, p, copy, now);
    } else {
      forall q | !Excluded(cfg, q)
        ensures Sighted(w', q, !Unseen(w', q) && !Due(w', rest, q))
      {
        assert Sighted(w, q, !Unseen(w, q) && !Due(w, kept, q));
        if Past(w, f) {
          hide AbleWith, ApplyRemote;
        } else {
          assert Sighted(w, p, !Unseen(w, p) && !Due(w, kept, p));
          RetrySights(w, cfg, kept, p, copy, now, q);
        }
      }
    }
  }

  lemma MovedIsUnsighted(w: World, cfg: Config, kept: map<Path, File>, p: Path, copy: Path, now: int)
    requires AbleWith(w, cfg, kept) && p in kept && MovesRead(w, cfg, kept[p])
    ensures !SightedWith(Retry(w, cfg, kept[p], copy, now).0, cfg, kept - {p})
  {
    var from, w' := kept[p].renamedFrom.value, Retry(w, cfg, kept[p], copy, now).0;
    assert Retriable(w, cfg, kept, p);
    hide ServerReady, Coherent;
    assert !Sighted(w', from, !Unseen(w', from) && !Due(w', kept - {p}, from));
  }

  lemma RetrySights(w: World, cfg: Config, kept: map<Path, File>, p: Path, copy: Path, now: int, q: Path)
    requires AbleWith(w, cfg, kept) && p in kept && Free(w, copy) && !Past(w, kept[p]) && !MovesRead(w, cfg, kept[p])
    requires Sighted(w, q, !Unseen(w, q) && !Due(w, kept, q)) && Sighted(w, p, !Unseen(w, p) && !Due(w, kept, p))
    ensures var w' := ApplyRemote(w, cfg, kept[p], copy, now).0;
            Sighted(w', q, !Unseen(w', q) && !Due(w', kept - {p}, q))
  {
    var f, w' := kept[p], ApplyRemote(w, cfg, kept[p], copy, now).0;
    assert Retriable(w, cfg, kept, p) && Coherent(w, cfg, p, !Unseen(w, p) && !Due(w, kept, p));
    if q == p {
      RemoteSights(w, cfg, f, copy, now);
    } else {
      RetryTouches(w, cfg, kept, p, copy, now, q);
      if q != copy {
        RemoteTouches(w, cfg, f, copy, now, q);
      }
    }
    hide ApplyContent, ApplyDeletion, MoveLocal, Readable, Coherent, MatchesRemote;
  }
}
