/**
 Moves made between two syncs: how they are queued, and how the queue is sent
 (src/index-store.ts:190-205, src/main.ts:778-795, src/sync-engine.ts:966-994).
 */
module RenameQueue {
  import opened Content
  import opened Store
  import opened StoreLaws
  import opened Engine

  datatype Move = Move(from: Path, to: Path, baseRev: int)

  /** Where in the queue a move ends at this name. */
  function Find(q: seq<Move>, name: Path): (i: nat)
    ensures i <= |q| && (forall j | 0 <= j < i :: q[j].to != name) && (i < |q| ==> q[i].to == name)
  {
    if q == [] || q[0].to == name then 0 else 1 + Find(q[1..], name)
  }

  /** A file moved again travels as one move. */
  function Queued(q: seq<Move>, m: Move): seq<Move> {
    var i := Find(q, m.from);
    if i < |q| then q[i := q[i].(to := m.to)] else q + [m]
  }

  /** What the device knows: the files on disk by name, the index, the queue. */
  datatype Local = Local(disk: set<Path>, index: map<Path, Entry>, renames: seq<Move>)

  predicate Known(l: Local, p: Path) {
    p in l.index && l.index[p].baseRev > 0
  }

  /** The user moves a file; a name the server has is queued, any other goes up as a new file. */
  function OnRename(l: Local, from: Path, to: Path): Local {
    var moved := l.(disk := l.disk - {from} + {to});
    if Known(l, from) then
      moved.(renames := Queued(l.renames, Move(from, to, l.index[from].baseRev)),
             index := l.index[to := l.index[from]] - {from})
    else
      moved.(index := l.index[to := if to in l.index then l.index[to].(dirty := true) else Entry(0, None, None, true)])
  }

  class LocalIndex {
    var files: map<Path, Entry>
    var renames: seq<Move>

    constructor ()
      ensures files == map[] && renames == []
    {
      files, renames := map[], [];
    }

    method QueueRename(m: Move)
      modifies `renames
      ensures renames == Queued(old(renames), m)
    {
      var i := 0;
      while i < |renames| && renames[i].to != m.from
        invariant 0 <= i <= |renames| && forall j | 0 <= j < i :: renames[j].to != m.from
      {
        i := i + 1;
      }
      if i < |renames| {
        renames := renames[i := renames[i].(to := m.to)];
      } else {
        renames := renames + [m];
      }
    }

    /** The queue goes to the server in order; a move it refuses is forgotten as well. */
    method FlushRenames(server: Tables, author: string)
      modifies this, server
      ensures server.Snapshot() == Sent(old(server.Snapshot()), old(renames), author)
      ensures files == LandedAll(old(files), old(server.Snapshot()), old(renames), author)
      ensures renames == []
    {
      var s0, files0, q := server.Snapshot(), files, renames;
      for i := 0 to |q|
        invariant renames == q[i..]
        invariant Sent(s0, q, author) == Sent(server.Snapshot(), q[i..], author)
        invariant LandedAll(files0, s0, q, author) == LandedAll(files, server.Snapshot(), q[i..], author)
      {
        hide Rename;
        var m := q[i];
        var r := server.RenameFile(m.from, m.to, m.baseRev, author);
        renames := renames[1..];
        if r.Ok? {
          var moved := if m.to in files then files[m.to] else Entry(0, None, None, false);
          files := files[m.to := Entry(r.file.rev, if r.file.hash.Some? then r.file.hash else moved.baseHash,
                                       moved.plainHash, moved.dirty)];
          files := files - {m.from};
        }
      }
    }

    method FileRenamed(from: Path, to: Path, ghost disk: set<Path>)
      modifies this
      ensures var l := OnRename(Local(disk, old(files), old(renames)), from, to);
              files == l.index && renames == l.renames
    {
      if from in files && files[from].baseRev > 0 {
        QueueRename(Move(from, to, files[from].baseRev));
        var known := files[from];
        files := files[to := known];
        files := files - {from};
      } else {
        files := files[to := if to in files then files[to].(dirty := true) else Entry(0, None, None, true)];
      }
    }
  }

  // ---- the queue is the composition of the moves ---------------------------------------

  /** Where a name ends up. */
  function Follow(x: Path, moves: seq<(Path, Path)>): Path
    decreases |moves|
  {
    if moves == [] then x else Follow(if x == moves[0].0 then moves[0].1 else x, moves[1..])
  }

  function After(l: Local, moves: seq<(Path, Path)>): Local
    decreases |moves|
  {
    if moves == [] then l else After(OnRename(l, moves[0].0, moves[0].1), moves[1..])
  }

  /** Each move takes a file that is there to a name that is free. */
  ghost predicate Possible(l: Local, moves: seq<(Path, Path)>)
    decreases |moves|
  {
    moves == [] ||
    (moves[0].0 in l.disk && moves[0].1 !in l.disk && Possible(OnRename(l, moves[0].0, moves[0].1), moves[1..]))
  }

  /** Where a server name is now, by the queue. */
  function Now(q: seq<Move>, x: Path): Path
    decreases |q|
  {
    if q == [] then x else if q[0].from == x then q[0].to else Now(q[1..], x)
  }

  ghost predicate Distinct(q: seq<Move>) {
    && (forall i, j | 0 <= i < j < |q| :: q[i].from != q[j].from)
    && (forall i, j | 0 <= i < j < |q| :: q[i].to != q[j].to)
  }

  lemma {:induction false} NowOfQueued(q: seq<Move>, i: nat)
    requires Distinct(q) && i < |q|
    ensures Now(q, q[i].from) == q[i].to
    decreases |q|
  {
    if i > 0 {
      NowOfQueued(q[1..], i - 1);
    }
  }

  lemma {:induction false} NowOfOther(q: seq<Move>, x: Path)
    requires forall i | 0 <= i < |q| :: q[i].from != x
    ensures Now(q, x) == x
    decreases |q|
  {
    if q != [] {
      NowOfOther(q[1..], x);
    }
  }

  /** The queue against the names the server has: revs gives each one's revision. */
  ghost predicate Tracks(l: Local, revs: map<Path, int>) {
    && Distinct(l.renames)
    && (forall m <- l.renames :: m.from in revs && m.baseRev == revs[m.from])
    && (forall x <- revs :: Placed(l, revs, x))
    && (forall x, y | x in revs && y in revs && Now(l.renames, x) == Now(l.renames, y) :: x == y)
    && (forall p :: Known(l, p) ==> exists x :: x in revs && Now(l.renames, x) == p)
  }

  /** The file of server name x is on disk under its present name, and the index says so. */
  ghost predicate Placed(l: Local, revs: map<Path, int>, x: Path)
    requires x in revs
  {
    var p := Now(l.renames, x);
    p in l.disk && p in l.index && l.index[p].baseRev == revs[x] > 0
  }

  ghost function Sources(q: seq<Move>): set<Path> {
    set i | 0 <= i < |q| :: q[i].from
  }

  lemma NowInUpdated(q: seq<Move>, i: nat, to: Path, k: nat)
    requires Distinct(q) && i < |q| && k < |q|
    ensures Now(q[i := q[i].(to := to)], q[k].from) == if k == i then to else q[k].to
  {
    NowAt(q[i := q[i].(to := to)], k);
  }

  /** The first entry from a name decides; with distinct sources, any entry does. */
  lemma {:induction false} NowAt(q: seq<Move>, k: nat)
    requires k < |q| && forall i, j | 0 <= i < j < |q| :: q[i].from != q[j].from
    ensures Now(q, q[k].from) == q[k].to
    decreases |q|
  {
    if k > 0 {
      NowAt(q[1..], k - 1);
    }
  }

  lemma {:induction false} NowInLonger(q: seq<Move>, m: Move, x: Path)
    ensures Now(q + [m], x) == if x in Sources(q) then Now(q, x) else if x == m.from then m.to else x
    decreases |q|
  {
    if q != [] {
      assert (q + [m])[1..] == q[1..] + [m];
      NowInLonger(q[1..], m, x);
      assert q[0].from in Sources(q);
      assert forall y :: y in Sources(q) <==> y == q[0].from || y in Sources(q[1..]) by {
        SourcesSplit(q);
      }
      if x !in Sources(q) {
        assert x != q[0].from;
      }
    }
  }

  lemma SourcesSplit(q: seq<Move>)
    requires q != []
    ensures Sources(q) == {q[0].from} + Sources(q[1..])
  {
    forall y | y in Sources(q)
      ensures y in {q[0].from} + Sources(q[1..])
    {
      var i :| 0 <= i < |q| && q[i].from == y;
      if i > 0 {
        assert q[1..][i - 1].from == y;
      }
    }
    forall y | y in Sources(q[1..])
      ensures y in Sources(q)
    {
      var i :| 0 <= i < |q| - 1 && q[1..][i].from == y;
      assert q[i + 1].from == y;
    }
  }

  lemma NotASource(q: seq<Move>, x: Path)
    requires x !in Sources(q)
    ensures Now(q, x) == x
  {
    forall i | 0 <= i < |q|
      ensures q[i].from != x
    {
      assert q[i].from in Sources(q);
    }
    NowOfOther(q, x);
  }

  /** The entry found for a name is the one of the file that is there now; if none is, the file never moved. */
  lemma FoundIsMoved(l: Local, revs: map<Path, int>, from: Path, x: Path)
    requires Tracks(l, revs) && x in revs && Now(l.renames, x) == from
    ensures var i := Find(l.renames, from);
            if i < |l.renames| then l.renames[i].from == x else x == from && x !in Sources(l.renames)
  {
    var q := l.renames;
    var i := Find(q, from);
    if i < |q| {
      assert q[i] in q;
      NowOfQueued(q, i);
    } else if x in Sources(q) {
      var k: nat :| k < |q| && q[k].from == x;
      NowOfQueued(q, k);
    } else {
      NotASource(q, x);
    }
  }

  /** Queuing a move changes where one file is, and no other. */
  lemma QueuedMoves(l: Local, revs: map<Path, int>, m: Move, x0: Path, x: Path)
    requires Tracks(l, revs) && x0 in revs && Now(l.renames, x0) == m.from && x in revs
    ensures Now(Queued(l.renames, m), x) == if x == x0 then m.to else Now(l.renames, x)
  {
    var q, i := l.renames, Find(l.renames, m.from);
    FoundIsMoved(l, revs, m.from, x0);
    if i < |q| {
      if x in Sources(q) {
        var k: nat :| k < |q| && q[k].from == x;
        NowInUpdated(q, i, m.to, k);
        NowOfQueued(q, k);
      } else {
        NotASource(q, x);
        NotASource(Queued(q, m), x);
      }
    } else {
      NowInLonger(q, m, x);
      if x !in Sources(q) {
        NotASource(q, x);
      }
    }
  }

  lemma QueuedStaysDistinct(l: Local, revs: map<Path, int>, m: Move, x0: Path)
    requires Tracks(l, revs) && x0 in revs && Now(l.renames, x0) == m.from && m.to !in l.disk && m.baseRev == revs[x0]
    ensures Distinct(Queued(l.renames, m))
    ensures forall n <- Queued(l.renames, m) :: n.from in revs && n.baseRev == revs[n.from]
  {
    var q := l.renames;
    FoundIsMoved(l, revs, m.from, x0);
    forall j | 0 <= j < |q|
      ensures q[j].to != m.to && q[j].from in Sources(q)
    {
      QueuedElsewhere(l, revs, m.to, j);
    }
    hide Find, Now, Placed;
    if Find(q, m.from) < |q| {
      UpdateStaysDistinct(q, Find(q, m.from), m.to);
    } else {
      AppendStaysDistinct(q, m);
    }
  }

  lemma UpdateStaysDistinct(q: seq<Move>, i: nat, to: Path)
    requires Distinct(q) && i < |q| && forall j | 0 <= j < |q| :: q[j].to != to
    ensures Distinct(q[i := q[i].(to := to)])
  {
  }

  lemma AppendStaysDistinct(q: seq<Move>, m: Move)
    requires Distinct(q) && m.from !in Sources(q)
    requires forall j | 0 <= j < |q| :: q[j].to != m.to && q[j].from in Sources(q)
    ensures Distinct(q + [m])
  {
    hide Sources;
  }

  lemma QueuedElsewhere(l: Local, revs: map<Path, int>, to: Path, j: nat)
    requires Tracks(l, revs) && to !in l.disk && j < |l.renames|
    ensures l.renames[j].to != to && l.renames[j].from in Sources(l.renames)
  {
    assert l.renames[j] in l.renames;
    NowOfQueued(l.renames, j);
    assert Placed(l, revs, l.renames[j].from);
  }

  lemma NobodyIsAt(l: Local, revs: map<Path, int>, from: Path, to: Path, x: Path)
    requires Tracks(l, revs) && to !in l.disk && x in revs
    ensures Now(l.renames, x) != to && (Now(l.renames, x) == from ==> Known(l, from) && l.index[from].baseRev == revs[x])
  {
    assert Placed(l, revs, x);
  }

  /** What the queue says of every name after one move. */
  lemma NamesAfterMove(l: Local, revs: map<Path, int>, from: Path, to: Path)
    requires Tracks(l, revs) && from in l.disk && to !in l.disk
    ensures var q := OnRename(l, from, to).renames;
            && Distinct(q) && (forall m <- q :: m.from in revs && m.baseRev == revs[m.from])
            && forall x <- revs :: Now(q, x) == if Now(l.renames, x) == from then to else Now(l.renames, x)
  {
    hide Distinct, Queued, Now;
    forall x <- revs
      ensures Now(l.renames, x) == from ==> Known(l, from)
    {
      NobodyIsAt(l, revs, from, to, x);
    }
    if Known(l, from) {
      var m := Move(from, to, l.index[from].baseRev);
      var x0 :| x0 in revs && Now(l.renames, x0) == from;
      NobodyIsAt(l, revs, from, to, x0);
      QueuedStaysDistinct(l, revs, m, x0);
      forall x <- revs
        ensures Now(Queued(l.renames, m), x) == if x == x0 then to else Now(l.renames, x)
      {
        QueuedMoves(l, revs, m, x0, x);
      }
    }
  }

  lemma PlacedAfterMove(l: Local, revs: map<Path, int>, from: Path, to: Path, x: Path)
    requires x in revs && Placed(l, revs, x) && from in l.disk && to !in l.disk
    requires Now(OnRename(l, from, to).renames, x) == if Now(l.renames, x) == from then to else Now(l.renames, x)
    ensures Placed(OnRename(l, from, to), revs, x)
  {
    hide Now, Queued;
  }

  lemma KnownAfterMove(l: Local, revs: map<Path, int>, from: Path, to: Path, p: Path)
    requires Tracks(l, revs) && from in l.disk && to !in l.disk && Known(OnRename(l, from, to), p)
    requires forall x <- revs :: Now(OnRename(l, from, to).renames, x) ==
                                 if Now(l.renames, x) == from then to else Now(l.renames, x)
    ensures exists x :: x in revs && Now(OnRename(l, from, to).renames, x) == p
  {
    hide Now, Queued, Distinct, Placed;
    var before := if Known(l, from) && p == to then from else p;
    assert Known(l, before);
    var x :| x in revs && Now(l.renames, x) == before;
    assert before == p ==> p != from || !Known(l, from);
    assert Now(OnRename(l, from, to).renames, x) == p;
  }

  /** One move by the user. */
  lemma MoveTracks(l: Local, revs: map<Path, int>, from: Path, to: Path)
    requires Tracks(l, revs) && from in l.disk && to !in l.disk
    ensures var l' := OnRename(l, from, to);
            && Tracks(l', revs)
            && forall x <- revs :: Now(l'.renames, x) == if Now(l.renames, x) == from then to else Now(l.renames, x)
  {
    var l' := OnRename(l, from, to);
    NamesAfterMove(l, revs, from, to);
    hide Now, Distinct, OnRename, Known;
    forall x <- revs
      ensures Placed(l', revs, x) && Now(l.renames, x) != to
    {
      NobodyIsAt(l, revs, from, to, x);
      PlacedAfterMove(l, revs, from, to, x);
    }
    hide Placed;
    forall p | Known(l', p)
      ensures exists x :: x in revs && Now(l'.renames, x) == p
    {
      KnownAfterMove(l, revs, from, to, p);
    }
  }

  /**
   Between two syncs, for any moves onto free names, the queue read as a map from server
   name to local name is the composition of those moves, each server name once and each
   local name once.
   */
  lemma {:induction false} QueueIsComposition(l: Local, revs: map<Path, int>, moves: seq<(Path, Path)>)
    requires Tracks(l, revs) && Possible(l, moves)
    ensures Tracks(After(l, moves), revs)
    ensures forall x <- revs :: Now(After(l, moves).renames, x) == Follow(Now(l.renames, x), moves)
    decreases |moves|
  {
    if moves != [] {
      MoveTracks(l, revs, moves[0].0, moves[0].1);
      QueueIsComposition(OnRename(l, moves[0].0, moves[0].1), revs, moves[1..]);
    }
  }

  /** After a sync the queue is empty and every tracked name is its own. */
  lemma SyncedTracks(disk: set<Path>, index: map<Path, Entry>)
    requires forall p <- index :: index[p].baseRev > 0 ==> p in disk
    ensures Tracks(Local(disk, index, []), map p | p in index && index[p].baseRev > 0 :: index[p].baseRev)
  {
    var l, revs := Local(disk, index, []), map p | p in index && index[p].baseRev > 0 :: index[p].baseRev;
    forall p | Known(l, p)
      ensures exists x :: x in revs && Now(l.renames, x) == p
    {
      assert p in revs && Now(l.renames, p) == p;
    }
  }

  // ---- sending the queue -------------------------------------------------------------------

  /** The server after the whole queue; a move it refuses is dropped. */
  function Sent(s: State, q: seq<Move>, author: string): State
    decreases |q|
  {
    if q == [] then s else Sent(Rename(s, q[0].from, q[0].to, q[0].baseRev, author).0, q[1..], author)
  }

  predicate AllAccepted(s: State, q: seq<Move>, author: string)
    decreases |q|
  {
    q == [] ||
    (var r := Rename(s, q[0].from, q[0].to, q[0].baseRev, author); r.1.Ok? && AllAccepted(r.0, q[1..], author))
  }

  /** The source is live at the queued revision; the target is free, or an earlier move makes it free. */
  ghost predicate Sendable(s: State, q: seq<Move>, i: nat)
    requires i < |q|
  {
    && q[i].from != q[i].to && q[i].from in Live(s) && s.files[q[i].from].rev == q[i].baseRev
    && (q[i].to in Live(s) ==> q[i].to in Sources(q[..i]))
  }

  /** The device holds no revision the server has not reached. */
  ghost predicate NotAhead(s: State, q: seq<Move>) {
    forall m <- q :: m.baseRev <= Current(s, m.from).rev
  }

  lemma FirstAccepted(s: State, q: seq<Move>, author: string)
    requires Inv(s) && q != []
    ensures Rename(s, q[0].from, q[0].to, q[0].baseRev, author).1.Ok? <==> Sendable(s, q, 0)
  {
    CurrentRev(s, q[0].from);
    CurrentRev(s, q[0].to);
    assert q[..0] == [];
  }

  /** An accepted first move leaves the rest as sendable as it was. */
  lemma RestSendable(s: State, q: seq<Move>, author: string, i: nat)
    requires Inv(s) && Distinct(q) && NotAhead(s, q) && 0 < i < |q|
    requires Rename(s, q[0].from, q[0].to, q[0].baseRev, author).1.Ok?
    ensures var t := Rename(s, q[0].from, q[0].to, q[0].baseRev, author).0;
            Sendable(t, q[1..], i - 1) <==> Sendable(s, q, i)
  {
    var t := Rename(s, q[0].from, q[0].to, q[0].baseRev, author).0;
    RenameMoves(s, q[0].from, q[0].to, q[0].baseRev, author);
    OwnPath(s, q[0].from);
    var m := q[i];
    assert m in q && q[1..][i - 1] == m && m.from != q[0].from && m.to != q[0].to;
    assert m.baseRev <= Current(s, m.from).rev;
    assert t.files[q[0].to].rev == Current(s, q[0].to).rev + 1;
    assert m.from != q[0].to ==> (m.from in s.files ==> t.files[m.from] == s.files[m.from]);
    SourcesSplit(q[..i]);
    assert q[..i][1..] == q[1..][..i - 1];
    hide Inv, Rename, Sources;
  }

  lemma RestNotAhead(s: State, q: seq<Move>, author: string)
    requires Inv(s) && Distinct(q) && q != [] && NotAhead(s, q)
    requires Rename(s, q[0].from, q[0].to, q[0].baseRev, author).1.Ok?
    ensures NotAhead(Rename(s, q[0].from, q[0].to, q[0].baseRev, author).0, q[1..]) && Distinct(q[1..])
  {
    OwnPath(s, q[0].from);
    CurrentRev(s, q[0].to);
    forall m <- q[1..]
      ensures m.baseRev <= Current(Rename(s, q[0].from, q[0].to, q[0].baseRev, author).0, m.from).rev
    {
      var k :| 0 <= k < |q| - 1 && q[1..][k] == m;
      assert q[k + 1] == m && m in q;
    }
  }

  /** The whole queue is accepted exactly when each move is sendable, read off the state before the first. */
  lemma {:induction false} QueueAcceptedExactly(s: State, q: seq<Move>, author: string)
    requires Inv(s) && Distinct(q) && NotAhead(s, q)
    ensures AllAccepted(s, q, author) <==> forall i: nat | i < |q| :: Sendable(s, q, i)
    decreases |q|
  {
    if q != [] {
      hide Inv, Sendable, Distinct, NotAhead, Rename;
      FirstAccepted(s, q, author);
      var r := Rename(s, q[0].from, q[0].to, q[0].baseRev, author);
      if r.1.Ok? {
        RenameKeepsInv(s, q[0].from, q[0].to, q[0].baseRev, author);
        RestNotAhead(s, q, author);
        QueueAcceptedExactly(r.0, q[1..], author);
        forall i: nat | 0 < i < |q|
          ensures Sendable(r.0, q[1..], i - 1) <==> Sendable(s, q, i)
        {
          RestSendable(s, q, author, i);
        }
        if forall i: nat | i < |q| - 1 :: Sendable(r.0, q[1..], i) {
          forall i: nat | i < |q|
            ensures Sendable(s, q, i)
          {
            assert i > 0 ==> Sendable(r.0, q[1..], i - 1);
          }
        }
        if forall i: nat | i < |q| :: Sendable(s, q, i) {
          forall i: nat | i < |q| - 1
            ensures Sendable(r.0, q[1..], i)
          {
            assert Sendable(s, q, i + 1);
          }
        }
      }
    }
  }

  /** Accepted whole, the queue moves every live content to where its file is now, and loses none. */
  lemma {:induction false} SentMovesAll(s: State, q: seq<Move>, author: string, x: Path)
    requires Inv(s) && Distinct(q) && NotAhead(s, q) && AllAccepted(s, q, author) && x in Live(s)
    ensures Now(q, x) in Live(Sent(s, q, author)) && Live(Sent(s, q, author))[Now(q, x)] == Live(s)[x]
    decreases |q|
  {
    if q != [] {
      var r := Rename(s, q[0].from, q[0].to, q[0].baseRev, author);
      RenameKeepsInv(s, q[0].from, q[0].to, q[0].baseRev, author);
      RenameMoves(s, q[0].from, q[0].to, q[0].baseRev, author);
      RestNotAhead(s, q, author);
      if x == q[0].from {
        TargetIsNoSource(s, q, author);
        NotASource(q[1..], q[0].to);
        SentMovesAll(r.0, q[1..], author, q[0].to);
      } else {
        SentMovesAll(r.0, q[1..], author, x);
      }
      hide Inv, Rename, Live, Distinct, NotAhead;
    }
  }

  lemma TargetIsNoSource(s: State, q: seq<Move>, author: string)
    requires Inv(s) && Distinct(q) && NotAhead(s, q) && AllAccepted(s, q, author) && q != []
    ensures q[0].to !in Sources(q[1..])
  {
    QueueAcceptedExactly(s, q, author);
    hide Inv, Rename, AllAccepted, Distinct, NotAhead;
    assert Sendable(s, q, 0) && q[..0] == [];
    forall k: nat | k < |q| - 1
      ensures q[1..][k].from != q[0].to
    {
      assert Sendable(s, q, k + 1);
    }
  }

  /** Moves made between two syncs reach the server: each content is live where its file now is. */
  lemma MovesReachServer(l: Local, revs: map<Path, int>, moves: seq<(Path, Path)>, s: State, author: string, x: Path)
    requires Tracks(l, revs) && l.renames == [] && Possible(l, moves)
    requires Inv(s) && x in revs && forall y <- revs :: y in Live(s) && revs[y] == s.files[y].rev
    requires AllAccepted(s, After(l, moves).renames, author)
    ensures var t := Sent(s, After(l, moves).renames, author);
            Follow(x, moves) in Live(t) && Live(t)[Follow(x, moves)] == Live(s)[x]
  {
    QueueIsComposition(l, revs, moves);
    assert Now(l.renames, x) == x;
    var q := After(l, moves).renames;
    forall m <- q
      ensures m.baseRev <= Current(s, m.from).rev
    {
      assert m.from in Live(s);
    }
    SentMovesAll(s, q, author, x);
  }

  /** Two files that trade names, by way of a third, can be queued but not sent. */
  lemma SwapIsRefused(s: State, a: Path, b: Path, c: Path, revA: int, revB: int, author: string)
    requires Inv(s) && a != b && b != c && a != c && a in Live(s) && b in Live(s)
    ensures var q := Queued(Queued(Queued([], Move(a, c, revA)), Move(b, a, revB)), Move(c, b, revA));
            q == [Move(a, b, revA), Move(b, a, revB)] && !AllAccepted(s, q, author)
  {
    FirstAccepted(s, [Move(a, b, revA), Move(b, a, revB)], author);
  }

  // ---- the index after the queue was sent --------------------------------------------------------

  /** What the index makes of the server's answer to one move. */
  function Landed(index: map<Path, Entry>, m: Move, r: Outcome): map<Path, Entry> {
    if !r.Ok? then index
    else
      var moved := if m.to in index then index[m.to] else Entry(0, None, None, false);
      index[m.to := Entry(r.file.rev, if r.file.hash.Some? then r.file.hash else moved.baseHash,
                          moved.plainHash, moved.dirty)] - {m.from}
  }

  function LandedAll(index: map<Path, Entry>, s: State, q: seq<Move>, author: string): map<Path, Entry>
    decreases |q|
  {
    if q == [] then index
    else
      var r := Rename(s, q[0].from, q[0].to, q[0].baseRev, author);
      LandedAll(Landed(index, q[0], r.1), r.0, q[1..], author)
  }

  lemma {:induction false} RestLeavesAlone(index: map<Path, Entry>, s: State, q: seq<Move>, author: string, p: Path)
    requires Inv(s) && forall m <- q :: m.from != p && m.to != p
    ensures p in LandedAll(index, s, q, author) <==> p in index
    ensures p in index ==> LandedAll(index, s, q, author)[p] == index[p]
    ensures p in Sent(s, q, author).files <==> p in s.files
    ensures p in s.files ==> Sent(s, q, author).files[p] == s.files[p]
    decreases |q|
  {
    if q != [] {
      var r := Rename(s, q[0].from, q[0].to, q[0].baseRev, author);
      RenameKeepsInv(s, q[0].from, q[0].to, q[0].baseRev, author);
      OwnPath(s, q[0].from);
      RestLeavesAlone(Landed(index, q[0], r.1), r.0, q[1..], author, p);
      assert q[0] in q;
      hide Inv;
    }
  }
}
