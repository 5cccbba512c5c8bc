/**
 A client that folds the messages it gets, and why it then holds exactly the server's lobby.  The state notice that
 answers a connection makes it forget all it held: messages accepted before may still reach it first.
*/
module Replica {
  import opened FlatSets
  import opened AnyTypes
  import opened SharedData
  import opened GameState
  import opened Handlers
  import opened Membership
  import opened Invariants

  // ----- the client -----

  /** What a client knows of a member of its lobby. */
  datatype Seen = Seen(ready: bool, disconnected: bool, data: Dict)

  /** `Unsynced`: still in a lobby from before, and no snapshot of it yet. */
  datatype View = Unsynced | Outside | Inside(lobby: Id, host: Id, members: map<Id, Seen>, data: Dict)

  function SeenOf(p: PeerView): Seen
  {
    Seen(p.ready, p.disconnected, Strip(p.data))
  }

  function MembersFrom(peers: seq<PeerView>): map<Id, Seen>
  {
    if peers == [] then map[]
    else MembersFrom(peers[..|peers| - 1])[peers[|peers| - 1].id := SeenOf(peers[|peers| - 1])]
  }

  function Known(v: View, p: Id): Seen
  {
    if v.Inside? && p in v.members then v.members[p] else Seen(false, false, map[])
  }

  /** A change to a member the client knows. */
  function Put(v: View, p: Id, s: Seen): View
  {
    if v.Inside? && p in v.members then v.(members := v.members[p := s]) else v
  }

  function Learn(v: View, n: Note): View
  {
    match n
    case PeerState(p) => if p.lobbyId == "" then Outside else Unsynced
    case Created(s, data, peers) => Inside(s.id, s.host, MembersFrom(peers), Strip(data))
    case Joined(s, data, peers) => Inside(s.id, s.host, MembersFrom(peers), Strip(data))
    case LobbyLeft => Outside
    case LobbyKicked => Outside
    case PeerJoined(p) => if v.Inside? then v.(members := v.members[p.id := SeenOf(p)]) else v
    case PeerLeft(p, _) => if v.Inside? then v.(members := v.members - {p}) else v
    case PeerReconnected(p) => Put(v, p, Known(v, p).(ready := false, disconnected := false))
    case PeerDisconnected(p) => Put(v, p, Known(v, p).(ready := false, disconnected := true))
    case PeerReady(p) => Put(v, p, Known(v, p).(ready := true))
    case PeerUnready(p) => Put(v, p, Known(v, p).(ready := false))
    case Hosted(h) => if v.Inside? then v.(host := h) else v
    case LobbyData(diff) => if v.Inside? then v.(data := Patch(v.data, diff)) else v
    case DataTo(t, diff) => Put(v, t, Known(v, t).(data := Patch(Known(v, t).data, diff)))
    case _ => v
  }

  /** The client `c` takes its messages out of what was sent, in order. */
  function Deliver(v: View, outs: seq<Out>, c: Id): View
  {
    if outs == [] then v
    else
      var n := |outs| - 1;
      var w := Deliver(v, outs[..n], c);
      if outs[n].to == c then Learn(w, outs[n].note) else w
  }

  // ----- the server's side of it -----

  function SeenAt(g: Game, q: Id): Seen
  {
    SeenOf(ViewOf(At(g.peers, q)))
  }

  function MembersOf(g: Game, ids: seq<Id>): map<Id, Seen>
  {
    map q | q in ids :: SeenAt(g, q)
  }

  function Inner(g: Game, l: Id): View
    requires l in g.lobbies
  {
    var b := g.lobbies[l];
    Inside(l, b.host, MembersOf(g, b.peerIds), Strip(b.shared.data))
  }

  /** What the client should hold. */
  function Snapshot(g: Game, c: Id): View
    requires Acting(g, c)
  {
    var l := g.peers[c].lobbyId;
    if l == "" then Outside else Inner(g, l)
  }

  /** Reconnected, still a member, and not yet back with a JOIN. */
  predicate Waiting(g: Game, c: Id)
  {
    c in g.peers && g.peers[c].disconnected && g.peers[c].lobbyId != ""
  }

  /**
   A connected client is exact, or knows that it has no snapshot and has to rejoin.  Of one that is not connected
   nothing is known, but the server will take it back into its lobby, if it still has one.
   */
  ghost predicate InStep(g: Game, c: Id, v: View)
  {
    if c in Active(g) then
      Acting(g, c) && (v == Snapshot(g, c) || (v.Unsynced? && Waiting(g, c)))
    else
      c in g.peers ==> g.peers[c].lobbyId == "" || Waiting(g, c)
  }

  // ----- delivery of the sending primitives -----

  lemma {:induction false} DeliverConcat(v: View, a: seq<Out>, b: seq<Out>, c: Id)
    ensures Deliver(v, a + b, c) == Deliver(Deliver(v, a, c), b, c)
  {
    if b == [] {
      assert a + b == a;
    } else {
      var n := |b| - 1;
      assert (a + b)[..|a + b| - 1] == a + b[..n];
      DeliverConcat(v, a, b[..n], c);
    }
  }

  lemma DeliverSend(v: View, off: map<Id, int>, to: Id, note: Note, c: Id)
    ensures Deliver(v, Send(off, to, note), c) == if c == to && c !in off then Learn(v, note) else v
  {
    if to !in off {
      var s := Send(off, to, note);
      assert s[..0] == [];
    }
  }

  lemma {:induction false} DeliverBroadcast(
    v: View, off: map<Id, int>, ids: seq<Id>, skip: set<Id>, note: Note, c: Id)
    requires NoDup(ids)
    ensures Deliver(v, Broadcast(off, ids, skip, note), c) ==
            if c in ids && c !in skip && c !in off then Learn(v, note) else v
  {
    if ids != [] {
      var n := |ids| - 1;
      DeliverBroadcast(v, off, ids[..n], skip, note, c);
      var last := if ids[n] in skip then [] else Send(off, ids[n], note);
      DeliverConcat(v, Broadcast(off, ids[..n], skip, note), last, c);
      if ids[n] !in skip { DeliverSend(Deliver(v, Broadcast(off, ids[..n], skip, note), c), off, ids[n], note, c); }
      assert ids == ids[..n] + [ids[n]];
    }
  }

  // ----- snapshots -----

  lemma {:induction false} SnapshotMembers(g: Game, ids: seq<Id>)
    requires forall q :: q in ids ==> q in g.peers && g.peers[q].id == q
    ensures MembersFrom(PeersArray(g.peers, ids)) == MembersOf(g, ids)
  {
    if ids != [] {
      var n := |ids| - 1;
      SnapshotMembers(g, ids[..n]);
      var a := PeersArray(g.peers, ids);
      assert a[..n] == PeersArray(g.peers, ids[..n]) by { ArrayLength(g.peers, ids[..n]); }
      assert ids == ids[..n] + [ids[n]];
      assert MembersOf(g, ids).Keys == MembersOf(g, ids[..n]).Keys + {ids[n]};
      ArrayLength(g.peers, ids);
    }
  }

  lemma {:induction false} ArrayLength(peers: map<Id, Peer>, ids: seq<Id>)
    ensures |PeersArray(peers, ids)| == |ids|
  {
    if ids != [] { ArrayLength(peers, ids[..|ids| - 1]); }
  }

  /** What a client inside `l` sees of it is the same in both games. */
  ghost predicate SameSight(g: Game, g': Game, l: Id)
  {
    && l in g.lobbies && l in g'.lobbies
    && g'.lobbies[l].host == g.lobbies[l].host && g'.lobbies[l].peerIds == g.lobbies[l].peerIds
    && Strip(g'.lobbies[l].shared.data) == Strip(g.lobbies[l].shared.data)
    && forall q :: q in g.lobbies[l].peerIds ==> SeenAt(g', q) == SeenAt(g, q)
  }

  lemma SameInner(g: Game, g': Game, l: Id)
    requires SameSight(g, g', l)
    ensures Inner(g', l) == Inner(g, l)
  {
    assert MembersOf(g', g'.lobbies[l].peerIds) == MembersOf(g, g.lobbies[l].peerIds);
  }

  /** A step that changes nothing `c` can see, and from which it gets nothing that matters. */
  lemma Unaffected(g: Game, g': Game, c: Id, v: View)
    requires InStep(g, c, v)
    requires (c in g.peers <==> c in g'.peers) && (c in g.disconnected <==> c in g'.disconnected)
    requires c in g.peers ==> g'.peers[c].lobbyId == g.peers[c].lobbyId
    requires c in g.peers ==> g'.peers[c].disconnected == g.peers[c].disconnected
    requires c in g.peers && g.peers[c].lobbyId != "" && c in Active(g) ==> SameSight(g, g', g.peers[c].lobbyId)
    ensures InStep(g', c, v)
  {
    if c in Active(g) && g.peers[c].lobbyId != "" { SameInner(g, g', g.peers[c].lobbyId); }
  }

  /** The same, but for one member. */
  ghost predicate SightBut(g: Game, g': Game, l: Id, p: Id)
  {
    && l in g.lobbies && l in g'.lobbies && p in g.lobbies[l].peerIds
    && g'.lobbies[l].host == g.lobbies[l].host && g'.lobbies[l].peerIds == g.lobbies[l].peerIds
    && Strip(g'.lobbies[l].shared.data) == Strip(g.lobbies[l].shared.data)
    && forall q :: q in g.lobbies[l].peerIds && q != p ==> SeenAt(g', q) == SeenAt(g, q)
  }

  lemma InnerPut(g: Game, g': Game, l: Id, p: Id)
    requires SightBut(g, g', l, p)
    ensures Known(Inner(g, l), p) == SeenAt(g, p)
    ensures Put(Inner(g, l), p, SeenAt(g', p)) == Inner(g', l)
  {
    var ids := g.lobbies[l].peerIds;
    assert MembersOf(g', ids) == MembersOf(g, ids)[p := SeenAt(g', p)];
  }

  /** A connected member whose view follows the lobby, or stays without a snapshot. */
  lemma MemberStep(g: Game, g': Game, l: Id, c: Id, v: View, v': View)
    requires InStep(g, c, v) && c in Active(g) && c in Active(g') && l in g.lobbies && l in g'.lobbies && l != ""
    requires g.peers[c].lobbyId == l && g'.peers[c].lobbyId == l
    requires g'.peers[c].disconnected == g.peers[c].disconnected
    requires v == Inner(g, l) ==> v' == Inner(g', l)
    requires v.Unsynced? ==> v'.Unsynced?
    ensures InStep(g', c, v')
  {
  }
}
