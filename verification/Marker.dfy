/**
 The migration marker and what it holds off (server/internal/api/api.go:372-493, 530-619;
 server/internal/vault/sweeper.go:51-86).

 Only the three handlers that write a file look at the marker.  Erasing deleted files,
 taking the marker over and clearing it are served whoever asks.
 */
module Marker {
  import opened Content
  import opened Store
  import opened StoreLaws

  /** A device, and the name it gives itself with every request; two devices may have the same name. */
  datatype Peer = Peer(id: nat, name: string)

  /** The vault's metadata and, while a device encrypts it, that device's name. */
  datatype Gate = Gate(meta: State, marker: Option<string>)

  datatype Ask =
    | Write(sender: Peer, op: Op)
    | ForgetDeleted(cutoff: int)
    | TakeOver(sender: Peer)
    | ClearMarker(sender: Peer)

  predicate IsWrite(op: Op) {
    op.PutOp? || op.DeleteOp? || op.RenameOp?
  }

  /** A request, and whether it is served; the server sees names only. */
  function Request(g: Gate, a: Ask): (Gate, bool) {
    match a
    case Write(sender, op) =>
      if !IsWrite(op) || (g.marker.Some? && g.marker.value != sender.name) then (g, false)
      else (g.(meta := Step(g.meta, op)), true)
    case ForgetDeleted(cutoff) => (g.(meta := Forget(g.meta, cutoff)), true)
    case TakeOver(sender) => (g.(marker := Some(sender.name)), true)
    case ClearMarker(_) => (g.(marker := None), true)
  }

  /** A write is carried out where the marker is free or carries the sender's name; collections are no requests. */
  lemma ServesExactly(g: Gate, sender: Peer, op: Op)
    ensures var mine := g.marker == None || g.marker == Some(sender.name);
            Request(g, Write(sender, op)) ==
            if mine && (op.PutOp? || op.DeleteOp? || op.RenameOp?) then (Gate(Step(g.meta, op), g.marker), true) else (g, false)
  {
    hide Step;
  }

  /** Erasing deleted files, taking the marker and clearing it are served whoever asks. */
  lemma ServesAnyone(g: Gate, sender: Peer, cutoff: int)
    ensures Request(g, ForgetDeleted(cutoff)) == (Gate(Forget(g.meta, cutoff), g.marker), true)
    ensures Request(g, TakeOver(sender)) == (Gate(g.meta, Some(sender.name)), true)
    ensures Request(g, ClearMarker(sender)) == (Gate(g.meta, None), true)
  {
    hide Forget;
  }

  function Requests(g: Gate, asks: seq<Ask>): Gate
    decreases |asks|
  {
    if asks == [] then g else Requests(Request(g, asks[0]).0, asks[1..])
  }

  /** What devices of the vault other than this one may ask, and the retention sweep. */
  predicate Foreign(a: Ask, me: Peer, fleet: set<Peer>) {
    !a.ForgetDeleted? ==> a.sender in fleet && a.sender.id != me.id
  }

  /** No other device of the vault goes by this name. */
  predicate Named(name: string, me: Peer, fleet: set<Peer>) {
    forall d <- fleet :: d.id != me.id ==> d.name != name
  }

  /** The requests after which the marker is no longer the device's. */
  predicate Ends(a: Ask) {
    a.TakeOver? || a.ClearMarker?
  }

  // ---- when the marker protects ----------------------------------------------------------

  /** No other device can write. */
  ghost predicate Protected(g: Gate, me: Peer, fleet: set<Peer>) {
    forall d, op | d in fleet && d.id != me.id && IsWrite(op) :: !Request(g, Write(d, op)).1
  }

  /** The marker protects exactly while it stands and no other device has the name in it. */
  lemma ProtectedExactly(g: Gate, me: Peer, fleet: set<Peer>)
    requires exists d <- fleet :: d.id != me.id
    ensures Protected(g, me, fleet) <==> g.marker.Some? && Named(g.marker.value, me, fleet)
  {
    var op := DeleteOp("", 0, "");
    if g.marker == None {
      var d :| d in fleet && d.id != me.id;
      assert Request(g, Write(d, op)).1;
    } else if !Named(g.marker.value, me, fleet) {
      var d :| d in fleet && d.id != me.id && d.name == g.marker.value;
      assert Request(g, Write(d, op)).1;
    }
  }

  /** A request of another device ends the protection exactly when it takes the marker over or clears it. */
  lemma StopsProtectingExactly(g: Gate, me: Peer, fleet: set<Peer>, a: Ask)
    requires Protected(g, me, fleet) && Foreign(a, me, fleet) && exists d <- fleet :: d.id != me.id
    ensures Protected(Request(g, a).0, me, fleet) <==> !Ends(a)
  {
    ProtectedExactly(g, me, fleet);
    ProtectedExactly(Request(g, a).0, me, fleet);
    hide Protected;
  }

  /** Two devices that kept the name they were given: the marker of one does not keep the other out. */
  lemma SameNameLetsIn(hash: Hash)
    ensures var me, other := Peer(0, "desktop"), Peer(1, "desktop");
            var g := Request(Gate(EMPTY, None), TakeOver(me)).0;
            var w := Request(g, Write(other, PutOp(PutArgs("n", 0, Some(hash), 0, 0, false, "desktop"))));
            && g.marker == Some(me.name) && !Protected(g, me, {me, other})
            && w.1 && IsLive(w.0.meta, "n")
  {
    var me, other := Peer(0, "desktop"), Peer(1, "desktop");
    assert other in {me, other};
    ProtectedExactly(Gate(EMPTY, Some("desktop")), me, {me, other});
    hide Protected;
  }

  // ---- what changes under protection -------------------------------------------------------

  /** Only deleted paths have gone: every live row stands, with all its revisions, and nothing is new. */
  ghost predicate Thinned(s: State, t: State) {
    && (Inv(s) ==> Inv(t)) && t.counter == s.counter
    && (forall x <- t.files :: x in s.files && t.files[x] == s.files[x])
    && (forall x <- s.files :: !s.files[x].deleted ==> x in t.files)
    && (forall k <- t.revisions :: k in s.revisions && t.revisions[k] == s.revisions[k])
    && (forall k <- s.revisions :: IsLive(s, k.0) ==> k in t.revisions)
  }

  lemma ForgetThins(s: State, cutoff: int)
    ensures Thinned(s, Forget(s, cutoff))
  {
    if Inv(s) {
      ForgetKeepsInv(s, cutoff);
    }
    hide Inv;
  }

  lemma ThinnedOn(s: State, t: State, u: State)
    requires Thinned(s, t) && Thinned(t, u)
    ensures Thinned(s, u)
  {
    hide Inv;
    forall k <- s.revisions
      ensures IsLive(s, k.0) ==> k in u.revisions
    {
      if IsLive(s, k.0) {
        assert k in t.revisions && IsLive(t, k.0);
      }
    }
  }

  /** Whatever other devices ask, as long as none of it ends the protection, no live file is touched. */
  lemma {:induction false} TrafficThins(g: Gate, me: Peer, fleet: set<Peer>, asks: seq<Ask>)
    requires g.marker == Some(me.name) && Named(me.name, me, fleet)
    requires forall a <- asks :: Foreign(a, me, fleet) && !Ends(a)
    ensures Requests(g, asks).marker == g.marker && Thinned(g.meta, Requests(g, asks).meta)
    decreases |asks|
  {
    hide Thinned, Step, Forget;
    if asks == [] {
      ThinnedSame(g.meta);
    } else {
      var a, h := asks[0], Request(g, asks[0]).0;
      assert a in asks;
      ThinnedSame(g.meta);
      if a.ForgetDeleted? {
        ForgetThins(g.meta, a.cutoff);
      }
      TrafficThins(h, me, fleet, asks[1..]);
      ThinnedOn(g.meta, h.meta, Requests(h, asks[1..]).meta);
    }
  }

  lemma ThinnedSame(s: State)
    ensures Thinned(s, s)
  {
  }

  /** Once another device has taken the marker over, its readable write goes through. */
  lemma TakenOverLetsIn(hash: Hash)
    ensures var g, b := Gate(EMPTY, Some("a")), Peer(1, "b");
            var a := PutArgs("n", 0, Some(hash), 0, 0, false, "b");
            && !Request(g, Write(b, PutOp(a))).1
            && IsLive(Requests(g, [TakeOver(b), Write(b, PutOp(a))]).meta, "n")
  {
    var g, b := Gate(EMPTY, Some("a")), Peer(1, "b");
    var a := PutArgs("n", 0, Some(hash), 0, 0, false, "b");
    var asks := [TakeOver(b), Write(b, PutOp(a))];
    var taken := Request(g, asks[0]).0;
    assert asks[1..] == [asks[1]] && asks[1..][1..] == [];
    assert Requests(g, asks) == Requests(taken, asks[1..]) == Requests(Request(taken, asks[1]).0, []);
  }
}
