/**
 The sync engine as it runs: one device, its disk and its index, against the server's
 tables (src/sync-engine.ts:285-331, 504-1247; src/index-store.ts:139-157, 205-230).
 */
module Device {
  import opened Content
  import opened Store
  import opened StoreLaws
  import ChangeLog
  import opened Engine
  import opened EngineQuiet
  import opened EnginePass
  import opened EngineWhole
  import opened EngineStill
  import opened EngineRetry
  import opened EngineScope
  import opened EngineKilled
  import opened EngineEnds
  import opened EngineTrace
  import opened EngineSafety
  import opened EngineStored
  import Diff3

  /** Names in use are finite, so a conflict copy can always be given an unused one. */
  lemma {:induction false} SomeNameIsFree(used: set<Path>)
    ensures exists p: Path :: p !in used
  {
    var longest := LongestOf(used);
    var p := seq(longest + 1, _ => 'x');
    assert p !in used;
  }

  ghost function LongestOf(used: set<Path>): (n: nat)
    ensures forall p <- used :: |p| <= n
  {
    if used == {} then 0
    else
      var p :| p in used;
      var rest := LongestOf(used - {p});
      assert forall q <- used :: q == p || q in used - {p};
      if |p| > rest then |p| else rest
  }

  /** The index is past each of these entries. */
  predicate Overtaken(kept: map<Path, File>, index: map<Path, Entry>) {
    forall p <- kept :: kept[p].path == p && p in index && index[p].baseRev >= kept[p].rev
  }

  class SyncEngine {
    const cfg: Config
    const server: Tables
    var disk: map<Path, Bytes>
    var index: map<Path, Entry>
    var conflicts: map<Path, Pending>
    var cursor: int
    var deferred: map<Path, File>
    ghost var accepted: set<(Path, int, Hash)>

    ghost function Now(): World
      reads this, server
    {
      World(disk, index, conflicts, cursor, server.Snapshot(), accepted)
    }

    /** A device that has never synced, over whatever lies on its disk. */
    constructor (cfg: Config, server: Tables, disk: map<Path, Bytes>)
      ensures this.cfg == cfg && this.server == server
      ensures Now() == World(disk, map[], map[], 0, server.Snapshot(), Committed(server.Snapshot()))
      ensures deferred == map[]
    {
      this.cfg, this.server, this.disk := cfg, server, disk;
      index, conflicts, cursor, deferred, accepted := map[], map[], 0, map[], Committed(server.Snapshot());
    }

    method SetLastSeq(seqNo: int)
      modifies `cursor
      ensures Now() == CursorAt(old(Now()), seqNo)
    {
      if seqNo > cursor {
        cursor := seqNo;
      }
    }

    // ---- reading ----------------------------------------------------------------

    method FetchRevision(p: Path, rev: int) returns (got: Fetched)
      ensures got == Fetch(Now(), cfg, p, rev)
    {
      if p !in server.files {
        return Missing;
      }
      var hash := RevisionHash(server.Snapshot(), p, rev);
      if hash == None {
        return Missing;
      }
      var plain := Unseal(cfg.cipher, hash.value.content);
      return if plain == None then Unreadable else Got(plain.value, hash.value);
    }

    method DownloadFile(f: File) returns (st: Status)
      modifies `disk, `index
      ensures (Now(), st) == Download(old(Now()), cfg, f)
    {
      var got := FetchRevision(f.path, f.rev);
      if !got.Got? || (f.hash.Some? && f.hash.value != got.hash) {
        return Failed;
      }
      disk := disk[f.path := got.plain];
      index := index[f.path := Entry(f.rev, Some(got.hash), Some(Sha256(got.plain)), false)];
      return Done;
    }

    // ---- writing ----------------------------------------------------------------

    method SendFile(p: Path, baseRev: int, plain: Bytes, now: int) returns (r: Outcome)
      modifies `index, `accepted, server
      ensures (Now(), r) == Send(old(Now()), cfg, p, baseRev, plain, now)
    {
      var sealed := Seal(cfg.cipher, plain);
      r := server.PutFile(PutArgs(p, baseRev, Some(Sha256(sealed)), Size(sealed), now, false, cfg.device));
      if r.Ok? {
        accepted := accepted + Committed(server.Snapshot());
        index := index[p := Entry(r.file.rev, r.file.hash, Some(Sha256(plain)), false)];
      }
    }

    method KeepBothFiles(p: Path, local: Bytes, plain: Bytes, hash: Hash, serverRev: int,
                         baseRev: int, mergeable: bool, copy: Path)
      modifies `disk, `index, `conflicts
      ensures Now() == KeepBoth(old(Now()), p, local, plain, hash, serverRev, baseRev, mergeable, copy)
    {
      disk := disk[copy := local];
      disk := disk[p := plain];
      index := index[p := Entry(serverRev, Some(hash), Some(Sha256(plain)), false)];
      index := index - {copy};
      conflicts := conflicts[p := Pending(copy, baseRev, serverRev, mergeable)];
    }

    method ReconcileFile(p: Path, local: Bytes, serverRev: int, baseRev: int, copy: Path, now: int) returns (st: Status)
      modifies `disk, `index, `conflicts, `accepted, server
      ensures (Now(), st) == Reconcile(old(Now()), cfg, p, local, serverRev, baseRev, copy, now)
    {
      hide Send, KeepBoth, Diff3.Merge;
      var got := FetchRevision(p, serverRev);
      if !got.Got? {
        return Failed;
      }
      if !Mergeable(local) || !Mergeable(got.plain) {
        KeepBothFiles(p, local, got.plain, got.hash, serverRev, baseRev, false, copy);
        return Done;
      }
      var base := "";
      if baseRev > 0 {
        var ancestor := FetchRevision(p, baseRev);
        if ancestor.Missing? {
          KeepBothFiles(p, local, got.plain, got.hash, serverRev, baseRev, false, copy);
          return Done;
        }
        if ancestor.Unreadable? {
          return Failed;
        }
        base := if Decode(ancestor.plain).Some? then Decode(ancestor.plain).value else "";
      }
      var merged := Diff3.Merge3(base, local.text, got.plain.text, Diff3.Labels(cfg.device, "server"));
      if merged.clean {
        disk := disk[p := Text(merged.text)];
        var r := SendFile(p, serverRev, Text(merged.text), now);
        return StatusOf(r);
      }
      KeepBothFiles(p, local, got.plain, got.hash, serverRev, baseRev, true, copy);
      return Done;
    }

    // ---- applying one entry of the log ------------------------------------------------

    method ApplyRemoteDeletion(f: File)
      modifies `disk, `index
      ensures Now() == ApplyDeletion(old(Now()), cfg, f)
    {
      var p := f.path;
      if p !in disk {
        index := index - {p};
        return;
      }
      var local := disk[p];
      var matchesBase := p in index && MatchesRemote(cfg, local, index[p].baseHash);
      var matchesPlain := p in index && index[p].plainHash == Some(Sha256(local));
      if matchesBase || matchesPlain {
        disk := disk - {p};
        index := index - {p};
        return;
      }
      index := index[p := Entry(f.rev, None, None, true)];
    }

    method ApplyEntry(f: File, copy: Path, now: int) returns (st: Status)
      modifies `disk, `index, `conflicts, `accepted, server
      ensures (Now(), st) == ApplyRemote(old(Now()), cfg, f, copy, now)
    {
      hide Reconcile, Download, ApplyDeletion;
      var p := f.path;
      if p in index && index[p].baseRev == f.rev && f.updatedBy == cfg.device {
        return Done;
      }
      if f.deleted {
        ApplyRemoteDeletion(f);
        return Done;
      }
      if f.renamedFrom.Some? && f.renamedFrom.value != "" {
        var from := f.renamedFrom.value;
        if !Excluded(cfg, from) && from in disk && p !in disk && MatchesRemote(cfg, disk[from], f.hash) {
          var local := disk[from];
          disk := (disk - {from})[p := local];
          index := index - {from};
          index := index[p := Entry(f.rev, f.hash, Some(Sha256(local)), false)];
          return Done;
        }
      }
      if p !in disk {
        if p in index && index[p].dirty {
          return Done;
        }
        st := DownloadFile(f);
        return;
      }
      var local := disk[p];
      if MatchesRemote(cfg, local, f.hash) {
        index := index[p := Entry(f.rev, f.hash, Some(Sha256(local)), false)];
        return Done;
      }
      if p in index && index[p].plainHash == Some(Sha256(local)) {
        st := DownloadFile(f);
        return;
      }
      st := ReconcileFile(p, local, f.rev, if p in index then index[p].baseRev else 0, copy, now);
    }

    // ---- sending one path ---------------------------------------------------------------

    method AdoptUnknownFiles()
      modifies `index
      ensures Now() == Adopt(old(Now()), cfg)
    {
      var paths := disk.Keys;
      while paths != {}
        invariant paths <= disk.Keys
        invariant old(index).Keys <= index.Keys <= old(index).Keys + disk.Keys
        invariant forall p <- index :: index[p] == if p in old(index) then old(index[p]) else Entry(0, None, None, true)
        invariant forall p <- disk :: p !in old(index) ==> (p in index <==> p !in paths && !Excluded(cfg, p))
        decreases paths
      {
        var p :| p in paths;
        paths := paths - {p};
        if !Excluded(cfg, p) && p !in index {
          index := index[p := Entry(0, None, None, true)];
        }
      }
    }

    method UploadFile(p: Path, local: Bytes, baseRev: int, copy: Path, now: int) returns (st: Status)
      modifies `disk, `index, `conflicts, `accepted, server
      ensures (Now(), st) == Upload(old(Now()), cfg, p, local, baseRev, copy, now)
    {
      hide Reconcile;
      var r := SendFile(p, baseRev, local, now);
      if !r.Conflict? {
        return StatusOf(r);
      }
      if r.deleted {
        r := SendFile(p, r.serverRev, local, now);
        return StatusOf(r);
      }
      st := ReconcileFile(p, local, r.serverRev, baseRev, copy, now);
    }

    method PushDeletionOf(p: Path, baseRev: int) returns (st: Status)
      modifies `disk, `index, `accepted, server
      ensures (Now(), st) == PushDeletion(old(Now()), cfg, p, baseRev)
    {
      var r := server.DeleteFile(p, baseRev, cfg.device);
      if r.Ok? {
        accepted := accepted + Committed(server.Snapshot());
        index := index - {p};
        return Done;
      }
      if r.NotFound? {
        index := index - {p};
        return Done;
      }
      if p !in server.files || server.files[p].deleted || server.files[p].hash == None {
        return Failed;
      }
      var f := server.files[p];
      var plain := Unseal(cfg.cipher, f.hash.value.content);
      if plain == None {
        return Failed;
      }
      disk := disk[p := plain.value];
      index := index[p := Entry(f.rev, f.hash, Some(Sha256(plain.value)), false)];
      return Done;
    }

    method PushPath(p: Path, copy: Path, now: int) returns (st: Status)
      modifies `disk, `index, `conflicts, `accepted, server
      ensures (Now(), st) == PushOne(old(Now()), cfg, p, copy, now)
    {
      hide Upload, PushDeletion;
      if p !in index {
        return Done;
      }
      var e := index[p];
      if p !in disk {
        if e.baseRev == 0 {
          index := index - {p};
          return Done;
        }
        st := PushDeletionOf(p, e.baseRev);
        return;
      }
      var local := disk[p];
      if e.plainHash == Some(Sha256(local)) {
        index := index[p := e.(dirty := false)];
        return Done;
      }
      st := UploadFile(p, local, e.baseRev, copy, now);
    }

    /** The name of a conflict copy is assumed to be in use nowhere. */
    method ConflictName() returns (copy: Path)
      ensures Free(Now(), copy)
    {
      var used := disk.Keys + index.Keys + server.files.Keys
                  + set q | q in server.files && server.files[q].renamedFrom.Some? :: server.files[q].renamedFrom.value;
      SomeNameIsFree(used);
      copy :| copy !in used;
    }

    // ---- the pass -----------------------------------------------------------------------

    /** An entry that failed is kept, so that the cursor can move on. */
    method Defer(f: File)
      modifies `deferred
      ensures deferred == old(deferred)[f.path := f]
    {
      deferred := deferred[f.path := f];
    }

    /** One entry of a page: applied, or kept for later; the cursor moves on either way. */
    method PullEntry(f: File, copy: Path, now: int)
      modifies `disk, `index, `conflicts, `cursor, `deferred, `accepted, server
      ensures Now() == Turn(old(Now()), cfg, f, copy, now)
      ensures deferred == if !Excluded(cfg, f.path) && ApplyRemote(old(Now()), cfg, f, copy, now).1.Failed?
                          then old(deferred)[f.path := f] else old(deferred)
    {
      hide ApplyRemote, Excluded;
      if !Excluded(cfg, f.path) {
        var st := ApplyEntry(f, copy, now);
        if st.Failed? {
          Defer(f);
        }
      }
      SetLastSeq(f.seqNo);
    }

    /** The entries of one page; a device that is stopped leaves the rest for another time. */
    method PullPage(ghost w0: World, ghost ready: bool, ghost sound: bool, ghost l: Life, ghost told: seq<Action>,
                    page: ChangeLog.Page, now: int, stop: Option<nat>)
      returns (left: Option<nat>, stopped: bool, ghost trace: seq<Action>)
      requires Inv(server.Snapshot()) && Ran(sound, l, cfg, told, Now(), deferred)
      requires page.entries == [] || RestOfPage(Now(), page.entries, page.nextSeq)
      requires page.hasMore ==> page.entries != []
      requires ready ==> OnPull(w0, Now(), cfg) && deferred == map[]
      requires ready ==> Paging(Now(), cfg, page.entries, page.nextSeq, server.counter, !page.hasMore)
      modifies `disk, `index, `conflicts, `cursor, `deferred, `accepted, server
      ensures Inv(server.Snapshot()) && Ran(sound, l, cfg, trace, Now(), deferred)
      ensures ready ==> OnPull(w0, Now(), cfg) && deferred == map[]
      ensures !stopped ==> Converges(old(Now()), Now(), cfg) && (page.hasMore ==> cursor > old(cursor))
      ensures ready && !stopped && !page.hasMore ==> ReadThrough(Now(), cfg)
      ensures stopped ==> stop.Some?
      ensures stop == None ==> left == None
      ensures LeftOut(old(Now()), Now(), cfg, {}) && Recorded(old(Now()), Now())
    {
      hide OnPull, Paging, RestOfPage, Converges, ReadThrough, Turn, ApplyRemote, Free, Excluded, Inv, Ran, CursorAt, LeftOut,
        Recorded;
      ghost var w1, top := Now(), server.counter;
      CursorConverges(w1, w1, cfg);
      NothingWritten(w1, w1, cfg, {});
      left, stopped, trace := stop, false, told;
      var i := 0;
      while i < |page.entries|
        invariant 0 <= i <= |page.entries| && (stop == None ==> left == None)
        invariant Inv(server.Snapshot()) && Ran(sound, l, cfg, trace, Now(), deferred)
        invariant page.entries[i..] == [] || RestOfPage(Now(), page.entries[i..], page.nextSeq)
        invariant ready ==> OnPull(w0, Now(), cfg) && deferred == map[]
        invariant ready ==> Paging(Now(), cfg, page.entries[i..], page.nextSeq, top, !page.hasMore)
        invariant Converges(w1, Now(), cfg) && cursor >= old(cursor) && (i > 0 ==> cursor > old(cursor))
        invariant LeftOut(w1, Now(), cfg, {}) && Recorded(w1, Now())
      {
        if left == Some(0) {
          return left, true, trace;
        }
        left := if left.Some? then Some(left.value - 1) else None;
        ghost var w := Now();
        var copy := ConflictName();
        assert page.entries[i..][0] == page.entries[i] && page.entries[i..][1..] == page.entries[i + 1..];
        TurnLands(w, cfg, page.entries[i..], page.nextSeq, copy, now);
        if ready {
          PassTurns(w0, w, cfg, page.entries[i..], page.nextSeq, top, !page.hasMore, copy, now);
        }
        NextIsCurrent(w, page.entries[i..], page.nextSeq);
        TurnRan(sound, l, cfg, trace, w, deferred, page.entries[i], copy, now);
        TurnLeavesOut(w, cfg, page.entries[i], copy, now);
        TurnRecords(w, cfg, page.entries[i], copy, now);
        PullEntry(page.entries[i], copy, now);
        LeftOutOn(w1, w, Now(), cfg, {});
        RecordedOn(w1, w, Now());
        trace := trace + TurnActions(w, cfg, page.entries[i], copy, now);
        ConvergesOn(w1, w, Now(), cfg);
        i := i + 1;
      }
      assert page.entries[i..] == [];
      ghost var w := Now();
      if ready {
        PassReadsOn(w0, w, cfg, page.nextSeq, top, !page.hasMore);
      }
      CursorRan(sound, l, cfg, trace, w, deferred, page.nextSeq);
      SetLastSeq(page.nextSeq);
      trace := trace + [Note(w.conflicts, cursor)];
      CursorMoves(w, page.nextSeq);
      CursorConverges(w, Now(), cfg);
      ConvergesOn(w1, w, Now(), cfg);
      NothingWritten(w, Now(), cfg, {});
      LeftOutOn(w1, w, Now(), cfg, {});
      RecordedOn(w1, w, Now());
    }

    /** The index is past every kept entry. */
    ghost predicate AllPassed()
      reads this
    {
      Overtaken(deferred, index)
    }

    /** One entry that failed before, tried again. */
    method RetryOne(ghost v: World, ghost kept: map<Path, File>, ghost ready: bool, ghost sound: bool, ghost l: Life,
                    ghost told: seq<Action>, p: Path, now: int)
      returns (ghost trace: seq<Action>)
      requires p in deferred && deferred.Keys <= kept.Keys && (forall q <- deferred :: deferred[q] == kept[q])
      requires Inv(server.Snapshot()) && Ran(sound, l, cfg, told, Now(), deferred)
      requires ready ==> AbleWith(Now(), cfg, deferred) && Undisturbed(v, Now(), kept)
      requires LeftOut(v, Now(), cfg, Tried(kept)) && Recorded(v, Now())
      modifies `disk, `index, `conflicts, `deferred, `accepted, server
      ensures deferred == old(deferred) || deferred == old(deferred) - {p}
      ensures Inv(server.Snapshot()) && Ran(sound, l, cfg, trace, Now(), deferred)
      ensures ready ==> deferred == old(deferred) - {p} && AbleWith(Now(), cfg, deferred) && Undisturbed(v, Now(), kept)
      ensures old(AllPassed()) ==> Now() == old(Now()) && deferred == old(deferred) - {p} && AllPassed()
      ensures LeftOut(v, Now(), cfg, Tried(kept)) && Recorded(v, Now())
    {
      hide Retry, Inv, Ran, AbleWith, Undisturbed, LeftOut, Recorded, Overtaken;
      ghost var w := Now();
      if AllPassed() {
        PassedIsIdle(w, cfg, deferred, p);
      }
      var copy := ConflictName();
      if ready {
        RetryGoesOn(w, cfg, deferred, p, copy, now);
        RetryDisturbs(v, w, cfg, kept, deferred, p, copy, now);
      }
      RetryRan(sound, l, cfg, told, w, deferred, p, copy, now);
      RetryLeavesOut(w, cfg, kept, deferred[p], copy, now);
      TurnRecords(w, cfg, deferred[p], copy, now);
      var st := RetryEntry(deferred[p], copy, now);
      LeftOutOn(v, w, Now(), cfg, Tried(kept));
      RecordedOn(v, w, Now());
      trace := told + RetryActions(w, deferred[p], copy, now);
      if st.Done? {
        RanKept(sound, l, cfg, trace, Now(), deferred, deferred - {p});
        deferred := deferred - {p};
      }
    }

    /** Entries that failed before, tried again ahead of the pull. */
    method RetryDeferred(ghost ready: bool, ghost sound: bool, ghost l: Life, ghost told: seq<Action>, now: int)
      returns (ghost trace: seq<Action>)
      requires Inv(server.Snapshot()) && Ran(sound, l, cfg, told, Now(), deferred)
      requires ready ==> AbleWith(Now(), cfg, deferred)
      modifies `disk, `index, `conflicts, `deferred, `accepted, server
      ensures Inv(server.Snapshot()) && Ran(sound, l, cfg, trace, Now(), deferred)
      ensures ready ==> deferred == map[] && Able(Now(), cfg) && Undisturbed(old(Now()), Now(), old(deferred))
      ensures old(AllPassed()) ==> Now() == old(Now()) && deferred == map[]
      ensures LeftOut(old(Now()), Now(), cfg, Tried(old(deferred))) && Recorded(old(Now()), Now())
    {
      hide Retry, Inv, Ran, AbleWith, Undisturbed, Able, LeftOut, Recorded, Overtaken;
      ghost var passed, v, kept := AllPassed(), Now(), deferred;
      trace := told;
      var paths := deferred.Keys;
      NothingDisturbed(v, kept);
      NothingWritten(v, v, cfg, Tried(kept));
      while paths != {}
        invariant paths <= deferred.Keys <= kept.Keys && forall p <- deferred :: deferred[p] == kept[p]
        invariant Inv(server.Snapshot()) && Ran(sound, l, cfg, trace, Now(), deferred)
        invariant passed ==> Now() == v && deferred.Keys == paths && AllPassed()
        invariant ready ==> deferred.Keys == paths && AbleWith(Now(), cfg, deferred) && Undisturbed(v, Now(), kept)
        invariant LeftOut(v, Now(), cfg, Tried(kept)) && Recorded(v, Now())
        decreases paths
      {
        var p :| p in paths;
        paths := paths - {p};
        trace := RetryOne(v, kept, ready, sound, l, trace, p, now);
      }
      if ready {
        assert deferred == map[];
        NoneWaits(Now(), cfg);
      }
    }

    /** The same, with the world w0 that the pull then begins in. */
    method RetryAll(ghost v0: World, ghost ready: bool, ghost sound: bool, ghost l: Life, ghost told: seq<Action>, now: int)
      returns (ghost trace: seq<Action>, ghost w0: World)
      requires Inv(server.Snapshot()) && Ran(sound, l, cfg, told, Now(), deferred)
      requires Now() == v0.(conflicts := conflicts) && (ready ==> AbleWith(Now(), cfg, deferred))
      modifies `disk, `index, `conflicts, `deferred, `accepted, server
      ensures Inv(server.Snapshot()) && Ran(sound, l, cfg, trace, Now(), deferred)
      ensures ready ==> Able(w0, cfg) && Undisturbed(v0, w0, old(deferred)) && OnPull(w0, Now(), cfg) && deferred == map[]
      ensures old(AllPassed()) ==> w0 == v0
      ensures LeftOut(old(Now()), Now(), cfg, Tried(old(deferred))) && Recorded(old(Now()), Now())
    {
      hide Able, AbleWith, Undisturbed, Overtaken, OnPull, Inv, Ran, LeftOut;
      trace := RetryDeferred(ready, sound, l, told, now);
      w0 := if old(AllPassed()) then v0 else Now();
      if ready {
        Restarted(v0, old(Now()), w0, Now(), cfg, old(deferred));
      }
    }

    method RetryEntry(f: File, copy: Path, now: int) returns (st: Status)
      modifies `disk, `index, `conflicts, `accepted, server
      ensures (Now(), st) == Retry(old(Now()), cfg, f, copy, now)
    {
      hide ApplyRemote;
      if f.path in index && index[f.path].baseRev >= f.rev {
        return Done;
      }
      st := ApplyEntry(f, copy, now);
    }

    /** Reads the log page by page; the loop ends because every own write settles a path. */
    method Pull(ghost v0: World, ghost ready: bool, ghost sound: bool, ghost l: Life, ghost told: seq<Action>,
                now: int, stop: Option<nat>)
      returns (left: Option<nat>, stopped: bool, ghost trace: seq<Action>, ghost w0: World)
      requires Inv(server.Snapshot()) && Ran(sound, l, cfg, told, Now(), deferred)
      requires Now() == v0.(conflicts := conflicts) && (ready ==> AbleWith(Now(), cfg, deferred))
      modifies `disk, `index, `conflicts, `cursor, `deferred, `accepted, server
      ensures Inv(server.Snapshot()) && Ran(sound, l, cfg, trace, Now(), deferred)
      ensures ready ==> Able(w0, cfg) && Undisturbed(v0, w0, old(deferred))
      ensures old(AllPassed()) ==> w0 == v0
      ensures ready ==> OnPull(w0, Now(), cfg) && deferred == map[] && (!stopped ==> ReadThrough(Now(), cfg))
      ensures stop == None ==> !stopped && left == None
      ensures LeftOut(old(Now()), Now(), cfg, Tried(old(deferred))) && Recorded(old(Now()), Now())
    {
      hide LeftOut, AllCoherent, OnPull, Paging, ReadThrough, Readable, ChangeLog.Changes, Inv, Ran, Converges, ServerReady;
      hide Able, AbleWith, Undisturbed, Overtaken, Unsettled;
      trace, w0 := RetryAll(v0, ready, sound, l, told, now);
      left, stopped := stop, false;
      while true
        invariant Inv(server.Snapshot()) && Ran(sound, l, cfg, trace, Now(), deferred)
        invariant ready ==> OnPull(w0, Now(), cfg) && deferred == map[]
        invariant stop == None ==> left == None
        invariant LeftOut(old(Now()), Now(), cfg, Tried(old(deferred))) && Recorded(old(Now()), Now())
        decreases |Unsettled(Now(), cfg)|, server.counter - cursor
      {
        ghost var w := Now();
        var page := ChangeLog.Changes(server.Snapshot(), cursor, 200);
        PageReads(w, 200);
        if ready {
          PullingIsReady(w0, w, cfg);
          PageStarts(w, cfg, 200);
        }
        left, stopped, trace := PullPage(w0, ready, sound, l, trace, page, now, left);
        LeftOutOn(old(Now()), w, Now(), cfg, Tried(old(deferred)));
        if stopped || !page.hasMore {
          break;
        }
        Decreases(w, Now(), cfg);
      }
    }

    /** Sends every dirty path, in any order, until it is stopped. */
    method Push(ghost w0: World, ghost ready: bool, ghost sound: bool, ghost l: Life, ghost told: seq<Action>,
                now: int, stop: Option<nat>)
      returns (stopped: bool, ghost trace: seq<Action>, ghost rest: set<Path>)
      requires Inv(server.Snapshot()) && Ran(sound, l, cfg, told, Now(), deferred)
      requires ready ==> OnPush(w0, Now(), cfg, set p | p in index && index[p].dirty && !Excluded(cfg, p))
      modifies `disk, `index, `conflicts, `accepted, server
      ensures Inv(server.Snapshot()) && Ran(sound, l, cfg, trace, Now(), deferred)
      ensures ready ==> OnPush(w0, Now(), cfg, rest)
      ensures !stopped ==> rest == {}
      ensures stop == None ==> !stopped
      ensures LeftOut(old(Now()), Now(), cfg, {}) && Recorded(old(Now()), Now())
    {
      hide OnPush, PushOne, Excluded, Inv, Ran, Free, LeftOut;
      var todo := set p | p in index && index[p].dirty && !Excluded(cfg, p);
      var left := stop;
      trace := told;
      NothingWritten(Now(), Now(), cfg, {});
      while todo != {}
        invariant forall p <- todo :: !Excluded(cfg, p)
        invariant LeftOut(old(Now()), Now(), cfg, {}) && Recorded(old(Now()), Now())
        invariant Inv(server.Snapshot()) && Ran(sound, l, cfg, trace, Now(), deferred)
        invariant ready ==> OnPush(w0, Now(), cfg, todo)
        invariant stop == None ==> left == None
        decreases todo
      {
        if left == Some(0) {
          return true, trace, todo;
        }
        left := if left.Some? then Some(left.value - 1) else None;
        var p :| p in todo;
        var copy := ConflictName();
        if ready {
          PassGoesOn(w0, Now(), cfg, todo, p, copy, now);
        }
        PushRan(sound, l, cfg, trace, Now(), deferred, p, copy, now);
        ghost var w := Now();
        PushLeavesOut(w, cfg, p, copy, now);
        PushRecords(w, cfg, p, copy, now);
        var _ := PushPath(p, copy, now);
        LeftOutOn(old(Now()), w, Now(), cfg, {});
        trace := trace + [EngineSafety.Push(p, copy, now)];
        todo := todo - {p};
      }
      return false, trace, {};
    }

    method PruneConflicts()
      modifies `conflicts
      ensures conflicts == map p | p in old(conflicts) && old(conflicts)[p].copy in disk :: old(conflicts)[p]
    {
      conflicts := map p | p in conflicts && conflicts[p].copy in disk :: conflicts[p];
    }

    /** After the pull: unknown files are queued, and everything queued is sent unless the pull was cut off. */
    method SendAll(ghost w0: World, ghost ready: bool, ghost sound: bool, ghost l: Life, ghost told: seq<Action>,
                   cut: bool, now: int, stop: Option<nat>)
      returns (stopped: bool, ghost trace: seq<Action>)
      requires Inv(server.Snapshot()) && Ran(sound, l, cfg, told, Now(), deferred)
      requires ready ==> OnPull(w0, Now(), cfg) && (!cut ==> ReadThrough(Now(), cfg))
      modifies `disk, `index, `conflicts, `accepted, server
      ensures Inv(server.Snapshot()) && Ran(sound, l, cfg, trace, Now(), deferred)
      ensures ready ==> Able(Now(), cfg) && Survives(w0, Now(), cfg) && (!stopped ==> Passed(w0, Now(), cfg))
      ensures ready && EditFree(w0, cfg) ==> EditFree(Now(), cfg) && server.Snapshot() == w0.server
      ensures stop == None && !cut ==> !stopped
      ensures LeftOut(old(Now()), Now(), cfg, {}) && Recorded(old(Now()), Now())
    {
      hide LeftOut, Able, OnPull, OnPush, ReadThrough, Adopt, EditFree, Excluded, Passed, Survives, Inv, Ran;
      ghost var w1 := Now();
      AdoptRan(sound, l, cfg, told, w1, deferred);
      if ready {
        StoppedIsAble(w0, w1, cfg);
        if !cut {
          PassPushes(w0, w1, cfg);
        }
      }
      AdoptLeavesOut(w1, cfg);
      AdoptUnknownFiles();
      stopped, trace := cut, told + [AdoptUnknown];
      if !cut {
        ghost var rest;
        ghost var w2 := Now();
        stopped, trace, rest := Push(w0, ready, sound, l, trace, now, stop);
        LeftOutOn(w1, w2, Now(), cfg, {});
        if ready {
          PushedIsAble(w0, Now(), cfg, rest);
          if !stopped {
            PassIsOver(w0, Now(), cfg);
          }
        }
      }
    }

    /**
     One pass, stopped after so many entries and sends, or never, with nobody else writing.

     From any state it ends, it is a run of engine steps, none of which loses a content,
     and the server only moves forward.  From a state a pass needs it leaves one, wherever
     it stops, and so does a restart from where it began.  When it is not stopped, device
     and server agree on every tracked file; every edit on top of the server's revision or
     against a deletion has won, every other edit is merged from its true ancestor or stands
     whole beside the server's content; files without an edit are the server's, and
     deletions stand on both sides.

     Entries kept from earlier passes come first: the rest is promised of the world that
     they leave, which is the one the pass began in when the index is past all of them.
     */
    method Sync(now: int, stop: Option<nat>) returns (stopped: bool, ghost trace: seq<Action>, ghost begun: World)
      requires Inv(server.Snapshot())
      modifies `disk, `index, `conflicts, `cursor, `deferred, `accepted, server
      ensures Inv(server.Snapshot()) && Forward(old(server.Snapshot()), server.Snapshot())
      ensures var l := Life(old(Now()), old(index));
              && RunLife(l, cfg, trace).w == Now() && (forall a <- trace :: OfEngine(a))
              && (LifeOk(l, cfg) && Logged(old(Now()), old(deferred)) ==>
                    && AllAllowed(l, cfg, trace) && NeverLoses(l, cfg, trace)
                    && EngineSafety.WorldOk(Now(), cfg) && Logged(Now(), deferred))
      ensures stop == None ==> !stopped
      ensures LeftOut(old(Now()), Now(), cfg, Tried(old(deferred)))
      ensures forall p <- old(conflicts) :: old(conflicts[p].copy in disk) ==> p in conflicts
      ensures old(AbleWith(Now(), cfg, deferred)) ==>
                && Able(begun, cfg) && Undisturbed(old(Now()), begun, old(deferred))
                && Able(Now(), cfg) && deferred == map[] && Survives(begun, Now(), cfg)
                && (!stopped ==> Passed(begun, Now(), cfg))
                && (EditFree(begun, cfg) ==> EditFree(Now(), cfg) && server.Snapshot() == begun.server)
      ensures old(Able(Now(), cfg) && AllPassed()) ==> old(AbleWith(Now(), cfg, deferred)) && begun == old(Now())
    {
      hide Able, OnPull, OnPush, ReadThrough, Adopt, EditFree, Excluded, Passed, Survives, Inv, Ran, Forward, StillPulled;
      hide LifeOk, Logged, RunLife, AllAllowed, NeverLoses, OfEngine, EngineSafety.WorldOk, AbleWith, Undisturbed, Overtaken;
      hide LeftOut;
      ghost var v0, ready := Now(), AbleWith(Now(), cfg, deferred);
      ghost var l, sound := Life(v0, index), LifeOk(Life(v0, index), cfg) && Logged(v0, deferred);
      RanStarts(sound, l, cfg, deferred);
      AbleOrPassed(Now(), cfg, deferred);
      PruneConflicts();
      NoteRan(sound, l, cfg, [], v0, deferred, conflicts, cursor);
      NothingWritten(v0, Now(), cfg, Tried(deferred));
      ghost var v := Now();
      if ready {
        ConflictsApart(v0, Now(), cfg, deferred);
      }
      var left;
      left, stopped, trace, begun := Pull(v0, ready, sound, l, [] + [Note(conflicts, cursor)], now, stop);
      ghost var w := Now();
      LeftOutOn(v0, v, w, cfg, Tried(old(deferred)));
      stopped, trace := SendAll(begun, ready, sound, l, trace, stopped, now, left);
      LeftOutOn(v0, w, Now(), cfg, Tried(old(deferred)));
      SyncRan(sound, l, cfg, trace, Now(), deferred);
    }
  }

  lemma NothingDisturbed(w: World, kept: map<Path, File>)
    ensures Undisturbed(w, w, kept)
  {
  }

  lemma Restarted(v0: World, v: World, w0: World, w: World, cfg: Config, kept: map<Path, File>)
    requires v == v0.(conflicts := v.conflicts) && Able(w, cfg) && Undisturbed(v, w, kept)
    requires w0 == w || (w == v && w0 == v0)
    ensures Able(w0, cfg) && OnPull(w0, w, cfg) && Undisturbed(v0, w0, kept)
  {
    ConflictsAside(w, w0, cfg);
    hide Able;
    PassStarts(w0, w, cfg);
    hide OnPull;
  }

  /** The list of conflicts has no part in what a pass needs. */
  lemma ConflictsAside(w: World, w': World, cfg: Config)
    requires Able(w, cfg) && w' == w.(conflicts := w'.conflicts)
    ensures Able(w', cfg)
  {
    hide Readable, Excluded;
    forall p | !Excluded(cfg, p)
      ensures Coherent(w', cfg, p, !Unseen(w', p))
    {
      assert Coherent(w, cfg, p, !Unseen(w, p));
    }
  }

  lemma ConflictsApart(w: World, w': World, cfg: Config, kept: map<Path, File>)
    requires AbleWith(w, cfg, kept) && w' == w.(conflicts := w'.conflicts)
    ensures AbleWith(w', cfg, kept)
  {
    hide Readable, Excluded;
    assert forall p <- kept :: Retriable(w', cfg, kept, p) == Retriable(w, cfg, kept, p);
    forall p | !Excluded(cfg, p)
      ensures Coherent(w', cfg, p, !Unseen(w', p) && !Due(w', kept, p))
    {
      assert Coherent(w, cfg, p, !Unseen(w, p) && !Due(w, kept, p));
    }
    hide ServerReady, Coherent;
  }

  lemma AbleOrPassed(w: World, cfg: Config, kept: map<Path, File>)
    ensures Able(w, cfg) && Overtaken(kept, w.index) ==> AbleWith(w, cfg, kept)
  {
    if Able(w, cfg) && Overtaken(kept, w.index) {
      AbleIsAbleWith(w, cfg, kept);
    }
  }

  lemma NoneWaits(w: World, cfg: Config)
    requires AbleWith(w, cfg, map[])
    ensures Able(w, cfg)
  {
    NothingKept(w, cfg);
  }

  lemma PullingIsReady(w0: World, w: World, cfg: Config)
    requires OnPull(w0, w, cfg)
    ensures ServerReady(w, cfg)
  {
  }

  /** An entry the index has overtaken does nothing, and the others are overtaken without it. */
  lemma PassedIsIdle(w: World, cfg: Config, kept: map<Path, File>, p: Path)
    requires p in kept && Overtaken(kept, w.index)
    ensures forall copy, now :: Retry(w, cfg, kept[p], copy, now) == (w, Done)
    ensures Overtaken(kept - {p}, w.index)
  {
  }

  lemma NextIsCurrent(w: World, entries: seq<File>, end: int)
    requires entries != [] && RestOfPage(w, entries, end)
    ensures entries[0].path in w.server.files && w.server.files[entries[0].path] == entries[0] && w.cursor < entries[0].seqNo
  {
    assert entries[0] in entries;
  }

  lemma CursorMoves(w: World, end: int)
    ensures CursorAt(w, end) == w.(cursor := CursorAt(w, end).cursor) && CursorAt(w, end).cursor >= w.cursor
  {
  }

  lemma Decreases(w: World, w': World, cfg: Config)
    requires Converges(w, w', cfg) && w'.cursor > w.cursor
    ensures |Unsettled(w', cfg)| < |Unsettled(w, cfg)|
            || (|Unsettled(w', cfg)| == |Unsettled(w, cfg)| && w'.server.counter - w'.cursor < w.server.counter - w.cursor)
  {
    hide Unsettled;
  }

  // ---- a pass as a run of engine steps --------------------------------------------------------

  function TurnActions(w: World, cfg: Config, f: File, copy: Path, now: int): seq<Action> {
    if Excluded(cfg, f.path) then [Note(w.conflicts, CursorAt(w, f.seqNo).cursor)]
    else
      var v := ApplyRemote(w, cfg, f, copy, now).0;
      [EngineSafety.Pull(f, copy, now), Note(v.conflicts, CursorAt(v, f.seqNo).cursor)]
  }

  lemma NoteRan(sound: bool, l: Life, cfg: Config, trace: seq<Action>, w: World, kept: map<Path, File>,
                conflicts: map<Path, Pending>, cursor: int)
    requires Ran(sound, l, cfg, trace, w, kept)
    ensures Ran(sound, l, cfg, trace + [Note(conflicts, cursor)], w.(conflicts := conflicts, cursor := cursor), kept)
  {
    hide Ran;
    RanMore(sound, l, cfg, trace, w, kept, Note(conflicts, cursor));
  }

  lemma CursorRan(sound: bool, l: Life, cfg: Config, trace: seq<Action>, w: World, kept: map<Path, File>, end: int)
    requires Ran(sound, l, cfg, trace, w, kept)
    ensures Ran(sound, l, cfg, trace + [Note(w.conflicts, CursorAt(w, end).cursor)], CursorAt(w, end), kept)
  {
    hide Ran;
    NoteRan(sound, l, cfg, trace, w, kept, w.conflicts, CursorAt(w, end).cursor);
  }

  lemma PullRan(sound: bool, l: Life, cfg: Config, trace: seq<Action>, w: World, kept: map<Path, File>,
                f: File, copy: Path, now: int)
    requires Ran(sound, l, cfg, trace, w, kept) && (sound ==> WasLogged(w, f)) && Free(w, copy)
    ensures Ran(sound, l, cfg, trace + [EngineSafety.Pull(f, copy, now)], ApplyRemote(w, cfg, f, copy, now).0, kept)
  {
    hide Ran, WasLogged, ApplyRemote;
    RanMore(sound, l, cfg, trace, w, kept, EngineSafety.Pull(f, copy, now));
  }

  lemma TurnRan(sound: bool, l: Life, cfg: Config, trace: seq<Action>, w: World, kept: map<Path, File>,
                f: File, copy: Path, now: int)
    requires Ran(sound, l, cfg, trace, w, kept) && Free(w, copy)
    requires f.path in w.server.files && w.server.files[f.path] == f
    ensures Ran(sound, l, cfg, trace + TurnActions(w, cfg, f, copy, now), Turn(w, cfg, f, copy, now), kept)
    ensures Ran(sound, l, cfg, trace + TurnActions(w, cfg, f, copy, now), Turn(w, cfg, f, copy, now), kept[f.path := f])
  {
    RowsAreLogged(sound, l, cfg, trace, w, kept, f);
    hide Ran, WasLogged, ApplyRemote, Excluded, CursorAt, Free;
    RanKept(sound, l, cfg, trace, w, kept, kept[f.path := f]);
    var more := TurnActions(w, cfg, f, copy, now);
    if Excluded(cfg, f.path) {
      CursorRan(sound, l, cfg, trace, w, kept, f.seqNo);
      CursorRan(sound, l, cfg, trace, w, kept[f.path := f], f.seqNo);
    } else {
      var v := ApplyRemote(w, cfg, f, copy, now).0;
      PullRan(sound, l, cfg, trace, w, kept, f, copy, now);
      PullRan(sound, l, cfg, trace, w, kept[f.path := f], f, copy, now);
      CursorRan(sound, l, cfg, trace + [more[0]], v, kept, f.seqNo);
      CursorRan(sound, l, cfg, trace + [more[0]], v, kept[f.path := f], f.seqNo);
      assert trace + [more[0]] + [more[1]] == trace + more;
    }
  }

  function RetryActions(w: World, f: File, copy: Path, now: int): seq<Action> {
    if f.path in w.index && w.index[f.path].baseRev >= f.rev then [] else [EngineSafety.Pull(f, copy, now)]
  }

  lemma RetryRan(sound: bool, l: Life, cfg: Config, trace: seq<Action>, w: World, kept: map<Path, File>,
                 p: Path, copy: Path, now: int)
    requires Inv(w.server) && Ran(sound, l, cfg, trace, w, kept) && p in kept && Free(w, copy)
    ensures var w' := Retry(w, cfg, kept[p], copy, now).0;
            Inv(w'.server) && Ran(sound, l, cfg, trace + RetryActions(w, kept[p], copy, now), w', kept)
  {
    assert sound ==> WasLogged(w, kept[p]);
    hide Ran, WasLogged, ApplyRemote, Inv, Free;
    PullRan(sound, l, cfg, trace, w, kept, kept[p], copy, now);
    RemoteForward(w, cfg, kept[p], copy, now);
    assert trace + [] == trace;
  }

  lemma PushRan(sound: bool, l: Life, cfg: Config, trace: seq<Action>, w: World, kept: map<Path, File>,
                p: Path, copy: Path, now: int)
    requires Inv(w.server) && Ran(sound, l, cfg, trace, w, kept) && Free(w, copy)
    ensures var w' := PushOne(w, cfg, p, copy, now).0;
            Inv(w'.server) && Ran(sound, l, cfg, trace + [EngineSafety.Push(p, copy, now)], w', kept)
  {
    EngineStored.PushServes(w, cfg, p, copy, now);
    hide Ran, PushOne, Inv;
    ServedForward(w, PushOne(w, cfg, p, copy, now).0);
    RanMore(sound, l, cfg, trace, w, kept, EngineSafety.Push(p, copy, now));
  }

  lemma AdoptRan(sound: bool, l: Life, cfg: Config, trace: seq<Action>, w: World, kept: map<Path, File>)
    requires Ran(sound, l, cfg, trace, w, kept)
    ensures Ran(sound, l, cfg, trace + [AdoptUnknown], Adopt(w, cfg), kept)
  {
    hide Ran, Adopt;
    RanMore(sound, l, cfg, trace, w, kept, AdoptUnknown);
  }

  lemma SyncRan(sound: bool, l: Life, cfg: Config, trace: seq<Action>, w: World, kept: map<Path, File>)
    requires Inv(l.w.server) && Ran(sound, l, cfg, trace, w, kept)
    ensures RunLife(l, cfg, trace).w == w && (forall a <- trace :: OfEngine(a)) && Forward(l.w.server, w.server)
    ensures sound ==>
              AllAllowed(l, cfg, trace) && NeverLoses(l, cfg, trace) && EngineSafety.WorldOk(w, cfg) && Logged(w, kept)
  {
    RanIsSafe(sound, l, cfg, trace, w, kept);
    OwnRunForward(l, cfg, trace);
    hide Inv, Forward, NeverLoses, AllAllowed, RunLife;
  }
}
