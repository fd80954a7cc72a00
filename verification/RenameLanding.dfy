/**
 What becomes of an index entry whose file was moved: on the way into the queue, and when
 the queue is sent (src/main.ts:778-795, src/sync-engine.ts:966-993).
 */
module RenameLanding {
  import opened Content
  import opened Store
  import opened StoreLaws
  import opened Engine
  import opened RenameQueue

  // ---- the user's moves ---------------------------------------------------------------

  /** A file the server has takes its whole entry along, an unsent edit included. */
  lemma MoveTakesEntry(l: Local, revs: map<Path, int>, from: Path, to: Path, x: Path)
    requires Tracks(l, revs) && from in l.disk && to !in l.disk && x in revs
    ensures var p, p' := Now(l.renames, x), Now(OnRename(l, from, to).renames, x);
            p in l.index && p' in OnRename(l, from, to).index && OnRename(l, from, to).index[p'] == l.index[p]
  {
    MoveTracks(l, revs, from, to);
    NobodyIsAt(l, revs, from, to, x);
    assert Placed(l, revs, x);
    hide Now, Queued, Distinct;
  }

  lemma {:induction false} MovesTakeEntry(l: Local, revs: map<Path, int>, moves: seq<(Path, Path)>, x: Path)
    requires Tracks(l, revs) && Possible(l, moves) && x in revs
    ensures var p, p' := Now(l.renames, x), Now(After(l, moves).renames, x);
            p in l.index && p' in After(l, moves).index && After(l, moves).index[p'] == l.index[p]
    decreases |moves|
  {
    if moves == [] {
      assert Placed(l, revs, x);
    } else {
      MoveTracks(l, revs, moves[0].0, moves[0].1);
      MoveTakesEntry(l, revs, moves[0].0, moves[0].1, x);
      MovesTakeEntry(OnRename(l, moves[0].0, moves[0].1), revs, moves[1..], x);
    }
    hide Tracks, OnRename, Now;
  }

  /** A file the server never had is not queued as a move: it is marked under its new name, and goes up from there. */
  lemma UnknownIsMarked(l: Local, from: Path, to: Path)
    requires !(from in l.index && l.index[from].baseRev > 0)
    ensures var l' := OnRename(l, from, to);
            && l'.renames == l.renames && l'.disk == l.disk - {from} + {to}
            && to in l'.index && l'.index[to].dirty
            && l'.index[to] == (if to in l.index then l.index[to].(dirty := true) else Entry(0, None, None, true))
            && l'.index - {to} == l.index - {to}
  {
  }

  // ---- sending the queue -----------------------------------------------------------------

  /** An earlier move of the queue leaves the very name this one takes. */
  ghost predicate Undercut(q: seq<Move>, i: nat)
    requires i < |q|
  {
    exists j | 0 <= j < i :: q[j].from == q[i].to
  }

  lemma UndercutRest(q: seq<Move>, i: nat)
    requires 0 < i < |q|
    ensures Undercut(q, i) <==> q[0].from == q[i].to || Undercut(q[1..], i - 1)
  {
    if Undercut(q, i) && q[0].from != q[i].to {
      var j :| 0 <= j < i && q[j].from == q[i].to;
      assert q[1..][j - 1].from == q[1..][i - 1].to;
    }
    if Undercut(q[1..], i - 1) {
      var j :| 0 <= j < i - 1 && q[1..][j].from == q[1..][i - 1].to;
      assert q[j + 1].from == q[i].to;
    }
  }

  /** What a sent move leaves of its entry; without one it starts clean and unknown. */
  ghost predicate Arrived(e: Entry, f: File, before: Option<Entry>) {
    && e.baseRev == f.rev && (f.hash.Some? ==> e.baseHash == f.hash)
    && e.dirty == (before.Some? && before.value.dirty)
    && e.plainHash == if before.Some? then before.value.plainHash else None
  }

  /** A move the server refuses changes neither side, and is not tried again. */
  lemma RefusedIsForgotten(index: map<Path, Entry>, s: State, m: Move, rest: seq<Move>, author: string)
    requires !Rename(s, m.from, m.to, m.baseRev, author).1.Ok?
    ensures Sent(s, [m] + rest, author) == Sent(s, rest, author)
    ensures LandedAll(index, s, [m] + rest, author) == LandedAll(index, s, rest, author)
  {
    assert ([m] + rest)[1..] == rest;
  }

  function EntryAt(index: map<Path, Entry>, p: Path): Option<Entry> {
    if p in index then Some(index[p]) else None
  }

  lemma OneArrives(index: map<Path, Entry>, s: State, m: Move, author: string)
    requires Inv(s) && Rename(s, m.from, m.to, m.baseRev, author).1.Ok?
    ensures var r := Rename(s, m.from, m.to, m.baseRev, author);
            var landed := Landed(index, m, r.1);
            && m.to in landed && m.to in r.0.files && Arrived(landed[m.to], r.0.files[m.to], EntryAt(index, m.to))
            && m.from !in landed && m.from != m.to
            && forall p | p != m.from && p != m.to :: EntryAt(landed, p) == EntryAt(index, p)
  {
    OwnPath(s, m.from);
  }

  /**
   Each move of an accepted queue leaves its file's entry as it was, at the revision and
   hash the server now has, exactly as long as no earlier move left the name it takes: that
   move dropped the entry, and the file arrives as one without an edit.
   */
  lemma {:induction false} EntriesArrive(index: map<Path, Entry>, s: State, q: seq<Move>, author: string, i: nat)
    requires Inv(s) && Distinct(q) && NotAhead(s, q) && AllAccepted(s, q, author) && i < |q|
    ensures var t, landed, to := Sent(s, q, author), LandedAll(index, s, q, author), q[i].to;
            && to in landed && to in t.files
            && Arrived(landed[to], t.files[to], if Undercut(q, i) then None else EntryAt(index, to))
    decreases |q|
  {
    var r := Rename(s, q[0].from, q[0].to, q[0].baseRev, author);
    var landed := Landed(index, q[0], r.1);
    RenameKeepsInv(s, q[0].from, q[0].to, q[0].baseRev, author);
    RestNotAhead(s, q, author);
    OneArrives(index, s, q[0], author);
    if i > 0 {
      EntriesArrive(landed, r.0, q[1..], author, i - 1);
      UndercutRest(q, i);
    } else {
      TargetIsNoSource(s, q, author);
      RestIsElsewhere(q);
      RestLeavesAlone(landed, r.0, q[1..], author, q[0].to);
    }
    hide Inv, Rename, Landed, Sources, NotAhead, Undercut, Arrived;
  }

  lemma RestIsElsewhere(q: seq<Move>)
    requires q != [] && Distinct(q) && q[0].to !in Sources(q[1..])
    ensures forall m <- q[1..] :: m.from != q[0].to && m.to != q[0].to
  {
    forall m | m in q[1..]
      ensures m.from != q[0].to && m.to != q[0].to
    {
      var k :| 0 <= k < |q| - 1 && q[1..][k] == m;
      assert q[k + 1] == m;
    }
  }

  /** A name that was left and not taken again is not indexed any more. */
  lemma {:induction false} LeftIsDropped(index: map<Path, Entry>, s: State, q: seq<Move>, author: string, p: Path)
    requires Inv(s) && AllAccepted(s, q, author) && p in Sources(q) && forall m <- q :: m.to != p
    ensures p !in LandedAll(index, s, q, author)
    decreases |q|
  {
    var r := Rename(s, q[0].from, q[0].to, q[0].baseRev, author);
    RenameKeepsInv(s, q[0].from, q[0].to, q[0].baseRev, author);
    OneArrives(index, s, q[0], author);
    SourcesSplit(q);
    if p in Sources(q[1..]) {
      LeftIsDropped(Landed(index, q[0], r.1), r.0, q[1..], author, p);
    } else {
      StaysDropped(Landed(index, q[0], r.1), r.0, q[1..], author, p);
    }
    hide Inv, Rename, Landed, Sources;
  }

  lemma StaysDropped(index: map<Path, Entry>, s: State, q: seq<Move>, author: string, p: Path)
    requires Inv(s) && p !in index && p !in Sources(q) && forall m <- q :: m.to != p
    ensures p !in LandedAll(index, s, q, author)
  {
    forall m | m in q
      ensures m.from != p
    {
      var k :| 0 <= k < |q| && q[k] == m;
    }
    RestLeavesAlone(index, s, q, author, p);
  }

  // ---- from the user's edit to the next push -------------------------------------------------

  /** The move of x takes a name that a file queued before it has left. */
  ghost predicate Overrun(q: seq<Move>, x: Path) {
    exists i | 0 <= i < |q| :: q[i].from == x && Undercut(q, i)
  }

  /**
   An edit made before a file was moved is still marked once the moves are sent, exactly
   when the file was not moved onto a name that a file queued before it had left.
   */
  lemma EditSurvivesExactly(l: Local, revs: map<Path, int>, moves: seq<(Path, Path)>, s: State, author: string, x: Path)
    requires Tracks(l, revs) && l.renames == [] && Possible(l, moves) && x in revs && x in l.index && l.index[x].dirty
    requires Inv(s) && forall y <- revs :: y in Live(s) && revs[y] == s.files[y].rev
    requires AllAccepted(s, After(l, moves).renames, author)
    ensures var q := After(l, moves).renames;
            var landed := LandedAll(After(l, moves).index, s, q, author);
            Follow(x, moves) in landed && (landed[Follow(x, moves)].dirty <==> !Overrun(q, x))
  {
    var l' := After(l, moves);
    QueueIsComposition(l, revs, moves);
    MovesTakeEntry(l, revs, moves, x);
    assert Now(l.renames, x) == x;
    QueueNotAhead(s, revs, l'.renames);
    hide Possible, Follow, AllAccepted, Inv, LandedAll, NotAhead, Overrun, After;
    if x !in Sources(l'.renames) {
      NobodyMovedOnto(l', revs, x);
    }
    hide Tracks, Sources;
    MarkAfterQueue(l'.index, s, l'.renames, author, x);
  }

  lemma NobodyMovedOnto(l: Local, revs: map<Path, int>, x: Path)
    requires Tracks(l, revs) && x in revs && x !in Sources(l.renames)
    ensures forall i | 0 <= i < |l.renames| :: l.renames[i].to != x
  {
    NotASource(l.renames, x);
    forall i | 0 <= i < |l.renames|
      ensures l.renames[i].to != x
    {
      assert l.renames[i] in l.renames && l.renames[i].from in Sources(l.renames);
      NowOfQueued(l.renames, i);
    }
  }

  lemma MarkAfterQueue(index: map<Path, Entry>, s: State, q: seq<Move>, author: string, x: Path)
    requires Inv(s) && Distinct(q) && NotAhead(s, q) && AllAccepted(s, q, author)
    requires Now(q, x) in index && index[Now(q, x)].dirty
    requires x !in Sources(q) ==> forall i | 0 <= i < |q| :: q[i].to != x
    ensures var landed := LandedAll(index, s, q, author);
            Now(q, x) in landed && (landed[Now(q, x)].dirty <==> !Overrun(q, x))
  {
    hide AllAccepted, Inv, LandedAll, Undercut, NotAhead, Now;
    if x in Sources(q) {
      var i: nat :| i < |q| && q[i].from == x;
      NowAt(q, i);
      EntriesArrive(index, s, q, author, i);
      assert Overrun(q, x) <==> Undercut(q, i);
    } else {
      NotASource(q, x);
      assert forall i | 0 <= i < |q| :: q[i].from in Sources(q);
      UnmovedStays(index, s, q, author, x);
    }
  }

  lemma QueueNotAhead(s: State, revs: map<Path, int>, q: seq<Move>)
    requires forall y <- revs :: y in Live(s) && revs[y] == s.files[y].rev
    requires forall m <- q :: m.from in revs && m.baseRev == revs[m.from]
    ensures NotAhead(s, q)
  {
    forall m <- q
      ensures m.baseRev <= Current(s, m.from).rev
    {
      assert m.from in Live(s);
    }
  }

  /** A file that was not moved, and onto whose name nothing was, is indexed as before. */
  lemma UnmovedStays(index: map<Path, Entry>, s: State, q: seq<Move>, author: string, x: Path)
    requires Inv(s) && x in index && forall i | 0 <= i < |q| :: q[i].from != x
    requires forall i | 0 <= i < |q| :: q[i].to != x
    ensures x in LandedAll(index, s, q, author) && LandedAll(index, s, q, author)[x] == index[x]
  {
    forall m | m in q
      ensures m.from != x && m.to != x
    {
      var k :| 0 <= k < |q| && q[k] == m;
    }
    RestLeavesAlone(index, s, q, author, x);
  }

  // ---- an edit that is dropped -----------------------------------------------------------------

  /** Two files on the server and here, of which a has an edit that was not sent. */
  function Both(h: Hash): State {
    Put(Put(EMPTY, PutArgs("a", 0, Some(h), 0, 0, false, "me")).0, PutArgs("b", 0, Some(h), 0, 0, false, "me")).0
  }

  function Edited(h: Hash): Local {
    Local({"a", "b"}, map["a" := Entry(1, Some(h), Some(h), true), "b" := Entry(1, Some(h), Some(h), false)], [])
  }

  const MOVES: seq<(Path, Path)> := [("b", "c"), ("a", "b")]
  const QUEUE := [Move("b", "c", 1), Move("a", "b", 1)]

  lemma QueuedMoves(h: Hash)
    ensures Possible(Edited(h), MOVES) && After(Edited(h), MOVES).renames == QUEUE
    ensures After(Edited(h), MOVES).index ==
              map["b" := Entry(1, Some(h), Some(h), true), "c" := Entry(1, Some(h), Some(h), false)]
  {
    var l0, l1 := Edited(h), OnRename(Edited(h), "b", "c");
    var l2 := OnRename(l1, "a", "b");
    assert l1.renames == [Move("b", "c", 1)];
    assert l2.renames == QUEUE;
    assert MOVES[1..] == [("a", "b")] && MOVES[1..][1..] == [];
    assert After(l0, MOVES) == After(l1, MOVES[1..]) == After(l2, []);
    assert Possible(l2, []) && Possible(l1, MOVES[1..]);
  }

  /** One file is moved out of the way and the edited one takes its name: both moves are sent, and the edit is not. */
  lemma ChainDropsEdit(h: Hash)
    ensures var s, l := Both(h), After(Edited(h), MOVES);
            var landed := LandedAll(l.index, s, l.renames, "me");
            && Edited(h).index["a"].dirty && Possible(Edited(h), MOVES) && Follow("a", MOVES) == "b"
            && Inv(s) && AllAccepted(s, l.renames, "me")
            && "b" in landed && !landed["b"].dirty && landed["b"].plainHash == None
  {
    var s, index := Both(h), After(Edited(h), MOVES).index;
    QueuedMoves(h);
    BothStand(h);
    assert MOVES[1..] == [("a", "b")] && MOVES[1..][1..] == [];
    assert Follow("a", MOVES) == Follow("a", MOVES[1..]) == Follow("b", MOVES[1..][1..]);
    hide After, Inv, Both, Possible, Rename, AllAccepted, LandedAll;
    TwoLand(index, s, QUEUE[0], QUEUE[1], "me");
    assert QUEUE == [QUEUE[0], QUEUE[1]];
  }

  lemma TwoLand(index: map<Path, Entry>, s: State, m: Move, n: Move, author: string)
    requires Rename(s, m.from, m.to, m.baseRev, author).1.Ok?
    requires Rename(Rename(s, m.from, m.to, m.baseRev, author).0, n.from, n.to, n.baseRev, author).1.Ok?
    ensures AllAccepted(s, [m, n], author)
    ensures var r := Rename(s, m.from, m.to, m.baseRev, author);
            LandedAll(index, s, [m, n], author) ==
            Landed(Landed(index, m, r.1), n, Rename(r.0, n.from, n.to, n.baseRev, author).1)
  {
    hide Rename, Landed;
    var r := Rename(s, m.from, m.to, m.baseRev, author);
    var q: seq<Move> := [m, n];
    OneLands(Landed(index, m, r.1), r.0, n, author);
    assert q[1..] == [n];
    assert AllAccepted(s, q, author) && LandedAll(index, s, q, author) == LandedAll(Landed(index, m, r.1), r.0, q[1..], author);
  }

  lemma OneLands(index: map<Path, Entry>, s: State, m: Move, author: string)
    requires Rename(s, m.from, m.to, m.baseRev, author).1.Ok?
    ensures AllAccepted(s, [m], author)
    ensures LandedAll(index, s, [m], author) == Landed(index, m, Rename(s, m.from, m.to, m.baseRev, author).1)
  {
    hide Rename, Landed;
    var q: seq<Move> := [m];
    assert q[1..] == [];
    assert AllAccepted(s, q, author);
    assert LandedAll(index, s, q, author) == Landed(index, m, Rename(s, m.from, m.to, m.baseRev, author).1);
  }

  lemma BothStand(h: Hash)
    ensures var s := Both(h);
            var r := Rename(s, "b", "c", 1, "me");
            Inv(s) && r.1.Ok? && Rename(r.0, "a", "b", 1, "me").1.Ok?
  {
    var a, b := PutArgs("a", 0, Some(h), 0, 0, false, "me"), PutArgs("b", 0, Some(h), 0, 0, false, "me");
    StepKeepsInv(EMPTY, PutOp(a));
    StepKeepsInv(Put(EMPTY, a).0, PutOp(b));
    hide Inv;
  }
}
