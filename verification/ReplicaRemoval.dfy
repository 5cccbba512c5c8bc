/** Leaving, kicking and sweeping keep every client in step. */
module ReplicaRemoval {
  import opened FlatSets
  import opened SharedData
  import opened GameState
  import opened Handlers
  import opened Membership
  import opened Invariants
  import opened Sweep
  import opened Replica
  import opened ReplicaSteps

  /** What a removal makes of a client's view. */
  function Heard(g: Game, b: Lobby, p: Id, kicked: bool, c: Id, v: View): View
  {
    if c !in b.peerIds || c in g.disconnected then v
    else if c == p || Disbands(g, b, p) then Outside
    else if p == b.host then Learn(Learn(v, PeerLeft(p, false)), Hosted(FirstOther(b.peerIds, p)))
    else Learn(v, PeerLeft(p, kicked))
  }

  lemma HeardDisband(g: Game, b: Lobby, p: Id, c: Id, v: View)
    requires NoDup(b.peerIds) && p in b.peerIds && Disbands(g, b, p)
    ensures Deliver(v, RemovalNotes(g, b, p, true), c) == Deliver(v, RemovalNotes(g, b, p, false), c)
    ensures Deliver(v, RemovalNotes(g, b, p, true), c) == Heard(g, b, p, true, c, v) == Heard(g, b, p, false, c, v)
  {
    hide Deliver, Broadcast, Send;
    var first, last := Broadcast(g.disconnected, b.peerIds, {p}, LobbyKicked), Send(g.disconnected, p, LobbyLeft);
    DeliverConcat(v, first, last, c);
    DeliverBroadcast(v, g.disconnected, b.peerIds, {p}, LobbyKicked, c);
    DeliverSend(Deliver(v, first, c), g.disconnected, p, LobbyLeft, c);
  }

  lemma HeardMigration(g: Game, b: Lobby, p: Id, kicked: bool, c: Id, v: View)
    requires NoDup(b.peerIds) && p in b.peerIds && !Disbands(g, b, p) && p == b.host
    ensures Deliver(v, RemovalNotes(g, b, p, kicked), c) == Heard(g, b, p, kicked, c, v)
  {
    hide Deliver, Broadcast, Send;
    var off, note := g.disconnected, Hosted(FirstOther(b.peerIds, p));
    var one, two := Broadcast(off, b.peerIds, {p}, PeerLeft(p, false)), Send(off, p, LobbyLeft);
    var three := Broadcast(off, b.peerIds, {p}, note);
    DeliverConcat(v, one + two, three, c);
    DeliverConcat(v, one, two, c);
    DeliverBroadcast(v, off, b.peerIds, {p}, PeerLeft(p, false), c);
    DeliverSend(Deliver(v, one, c), off, p, LobbyLeft, c);
    DeliverBroadcast(Deliver(v, one + two, c), off, b.peerIds, {p}, note, c);
  }

  lemma HeardOther(g: Game, b: Lobby, p: Id, kicked: bool, c: Id, v: View)
    requires NoDup(b.peerIds) && p in b.peerIds && b.host in b.peerIds && p != b.host
    ensures Deliver(v, RemovalNotes(g, b, p, kicked), c) == Heard(g, b, p, kicked, c, v)
  {
    hide Deliver, Broadcast, Send;
    var off, skip := g.disconnected, if kicked then {p, b.host} else {p};
    var self := if kicked then LobbyKicked else LobbyLeft;
    var one, two := Broadcast(off, b.peerIds, skip, PeerLeft(p, kicked)), Send(off, p, self);
    var three := if kicked then Send(off, b.host, PeerLeft(p, true)) else [];
    DeliverConcat(v, one + two, three, c);
    DeliverConcat(v, one, two, c);
    DeliverBroadcast(v, off, b.peerIds, skip, PeerLeft(p, kicked), c);
    DeliverSend(Deliver(v, one, c), off, p, self, c);
    if kicked {
      DeliverSend(Deliver(v, one + two, c), off, b.host, PeerLeft(p, true), c);
    } else {
      assert one + two + three == one + two;
    }
  }

  lemma RemovalHeard(g: Game, b: Lobby, p: Id, kicked: bool, c: Id, v: View)
    requires NoDup(b.peerIds) && p in b.peerIds && b.host in b.peerIds
    ensures Deliver(v, RemovalNotes(g, b, p, kicked), c) == Heard(g, b, p, kicked, c, v)
  {
    hide Deliver, RemovalNotes;
    if Disbands(g, b, p) { HeardDisband(g, b, p, c, v); }
    else if p == b.host { HeardMigration(g, b, p, kicked, c, v); }
    else { HeardOther(g, b, p, kicked, c, v); }
  }

  /** The members left behind: one fewer, perhaps another host. */
  lemma InnerShrinks(g: Game, g': Game, l: Id, p: Id)
    requires l in g.lobbies && p in g.lobbies[l].peerIds && l in g'.lobbies
    requires g'.lobbies[l] == LobbyAfterRemoval(g, g.lobbies[l], p)
    requires forall q :: q in g.lobbies[l].peerIds && q != p ==> SeenAt(g', q) == SeenAt(g, q)
    ensures Inner(g', l) ==
            Inside(l, LobbyAfterRemoval(g, g.lobbies[l], p).host, Inner(g, l).members - {p}, Inner(g, l).data)
  {
    WithoutElements(g.lobbies[l].peerIds, p);
    assert MembersOf(g', g'.lobbies[l].peerIds) == MembersOf(g, g.lobbies[l].peerIds) - {p};
  }

  /** The places after a removal, as the client lemmas need them. */
  ghost predicate Removed(g: Game, l: Id, p: Id, g': Game)
    requires l in g.lobbies
  {
    var b := g.lobbies[l];
    && g'.peers.Keys == g.peers.Keys && g'.disconnected == g.disconnected
    && (forall q :: q in g.peers && q !in b.peerIds ==> g'.peers[q] == g.peers[q])
    && (forall m :: m in g.lobbies && m != l ==> m in g'.lobbies && g'.lobbies[m] == g.lobbies[m])
    && (if Disbands(g, b, p) then
          forall q :: q in b.peerIds ==> q in g'.peers && g'.peers[q].lobbyId == ""
        else
          && l in g'.lobbies && g'.lobbies[l] == LobbyAfterRemoval(g, b, p)
          && p in g.peers && g'.peers == g.peers[p := LeaveLobby(g.peers[p])])
  }

  lemma LobbyParts(g: Game, l: Id)
    requires Inv(g) && l in g.lobbies
    ensures LobbyWeak(g, l) && g.lobbies[l].host in g.lobbies[l].peerIds
    ensures forall q :: q in g.lobbies[l].peerIds ==> q in g.peers
  {
    assert LobbyStrong(g, l);
  }

  lemma RemovalIsRemoved(g: Game, l: Id, p: Id, kicked: bool)
    requires Inv(g) && l in g.lobbies && p in g.lobbies[l].peerIds && !Orphans(g, l, p)
    ensures Removed(g, l, p, RemovePeer(g, l, p, kicked).g)
  {
    hide PeersAfterRemoval, LobbiesAfterRemoval, LobbyAfterRemoval, RemovalNotes, Weak, Strong, LobbyWeak;
    LobbyParts(g, l);
    RemovalPeers(g, l, p);
    RemovalLobbies(g, l, p);
  }

  /** A member who stays: it hears who left and, if the host changed, who follows. */
  lemma StayingInStep(g: Game, l: Id, p: Id, kicked: bool, g': Game, c: Id, v: View)
    requires Inv(g) && l in g.lobbies && p in g.lobbies[l].peerIds && Removed(g, l, p, g') && InStep(g, c, v)
    requires c in g.lobbies[l].peerIds && c != p && !Disbands(g, g.lobbies[l], p) && c !in g.disconnected
    ensures InStep(g', c, Heard(g, g.lobbies[l], p, kicked, c, v))
  {
    hide Weak, Strong, MembersOf, Without, FirstOther, InStep;
    Roster(g, l);
    ConnectedMember(g, l, c, v);
    InnerShrinks(g, g', l, p);
    MemberStep(g, g', l, c, v, Heard(g, g.lobbies[l], p, kicked, c, v));
  }

  lemma RemovedInStep(g: Game, l: Id, p: Id, kicked: bool, g': Game, c: Id, v: View)
    requires Inv(g) && l in g.lobbies && p in g.lobbies[l].peerIds && Removed(g, l, p, g') && InStep(g, c, v)
    ensures InStep(g', c, Heard(g, g.lobbies[l], p, kicked, c, v))
  {
    hide Weak, Strong, MembersOf, Without, FirstOther;
    var b := g.lobbies[l];
    Roster(g, l);
    if c !in b.peerIds {
      Elsewhere(g, g', l, c, v);
    } else if c != p && !Disbands(g, b, p) && c !in g.disconnected {
      StayingInStep(g, l, p, kicked, g', c, v);
    }
  }

  lemma RemovalInStep(g: Game, l: Id, p: Id, kicked: bool, c: Id, v: View)
    requires Inv(g) && l in g.lobbies && p in g.lobbies[l].peerIds && !Orphans(g, l, p) && InStep(g, c, v)
    ensures var o := RemovePeer(g, l, p, kicked); InStep(o.g, c, Deliver(v, o.outs, c))
  {
    hide Weak, Strong, Removed, RemovalNotes, PeersAfterRemoval, LobbiesAfterRemoval, InStep, Deliver, Heard;
    Roster(g, l);
    RemovalHeard(g, g.lobbies[l], p, kicked, c, v);
    RemovalIsRemoved(g, l, p, kicked);
    RemovedInStep(g, l, p, kicked, RemovePeer(g, l, p, kicked).g, c, v);
  }

  lemma LeaveInStep(g: Game, p: Id, c: Id, v: View)
    requires Inv(g) && p in g.peers && Acting(g, p) && InStep(g, c, v)
    requires g.peers[p].lobbyId != "" ==> !Orphans(g, g.peers[p].lobbyId, p)
    ensures var o := OnLeave(g, p); InStep(o.g, c, Deliver(v, o.outs, c))
  {
    hide Weak, Strong, RemovePeer, InStep, Deliver;
    Self(g, p);
    RefusalInStep(g, p, "ERROR_PEER_NOT_IN_A_LOBBY", c, v);
    if g.peers[p].lobbyId != "" { RemovalInStep(g, g.peers[p].lobbyId, p, false, c, v); }
  }

  lemma KickInStep(g: Game, p: Id, target: Id, can: bool, c: Id, v: View)
    requires Inv(g) && p in g.peers && Acting(g, p) && InStep(g, c, v)
    ensures var o := OnKick(g, p, target, can); InStep(o.g, c, Deliver(v, o.outs, c))
  {
    hide Weak, Strong, RemovePeer, InStep, Deliver;
    Self(g, p);
    RefusalInStep(g, p, "ERROR_PEER_NOT_IN_A_LOBBY", c, v);
    RefusalInStep(g, p, "ERROR_PEER_NOT_HOST", c, v);
    RefusalInStep(g, p, "ERROR_CANNOT_KICK_SELF", c, v);
    RefusalInStep(g, p, "script", c, v);
    var l := g.peers[p].lobbyId;
    if l != "" && target in g.lobbies[l].peerIds && g.lobbies[l].host == p && p != target {
      RemovalInStep(g, l, target, true, c, v);
    }
  }

  // ----- the sweep -----

  lemma TurnInStep(g: Game, s: SweepState, p: Id, now: int, limit: int, c: Id, v: View)
    requires Onward(g, s) && p in g.disconnected && InStep(s.g, c, Deliver(v, s.outs, c))
    requires Housed(s.g, p) && Expired(s.g, p, now, limit) ==> !Orphans(s.g, s.g.peers[p].lobbyId, p)
    ensures var t := SweepOne(s, p, now, limit); InStep(t.g, c, Deliver(v, t.outs, c))
  {
    hide Weak, Strong, RemovePeer, Deliver;
    DisconnectedKnown(s.g, p);
    Self(s.g, p);
    var l, w := s.g.peers[p].lobbyId, Deliver(v, s.outs, c);
    if l !in s.g.lobbies {
      var g' := s.g.(peers := s.g.peers[p := LeaveLobby(s.g.peers[p])]);
      if c != p { Elsewhere'(s.g, g', p, c, w); }
    } else if Expired(s.g, p, now, limit) {
      var o := RemovePeer(s.g, l, p, true);
      RemovalInStep(s.g, l, p, true, c, w);
      DeliverConcat(v, s.outs, o.outs, c);
    }
  }

  lemma {:induction false} LoopInStep(g: Game, order: seq<Id>, now: int, limit: int, c: Id, v: View)
    requires Inv(g) && (forall p :: p in order ==> p in g.disconnected) && SweepSafe(g, order, now, limit)
    requires InStep(g, c, v)
    ensures var s := SweepLoop(g, order, now, limit); InStep(s.g, c, Deliver(v, s.outs, c))
  {
    hide Weak, Strong, SweepOne, InStep, Onward;
    if order != [] {
      var n := |order| - 1;
      LoopInStep(g, order[..n], now, limit, c, v);
      LoopOnward(g, order[..n], now, limit);
      var s := SweepLoop(g, order[..n], now, limit);
      TurnInStep(g, s, order[n], now, limit, c, v);
    }
  }

  lemma EraseInStep(g: Game, erased: set<Id>, c: Id, v: View)
    requires Inv(g) && erased <= g.disconnected.Keys && InStep(g, c, v)
    requires forall e :: e in erased ==> e in g.peers && g.peers[e].lobbyId == ""
    ensures InStep(Erase(g, erased), c, v)
  {
    hide Weak, Strong;
    var g' := Erase(g, erased);
    ErasedActive(g, erased);
    if c !in erased {
      if c in Active(g) && g.peers[c].lobbyId != "" {
        Self(g, c);
        Roster(g, g.peers[c].lobbyId);
        assert SameSight(g, g', g.peers[c].lobbyId);
      }
      Unaffected(g, g', c, v);
    }
  }

  lemma SweepInStep(g: Game, order: seq<Id>, now: int, limit: int, c: Id, v: View)
    requires Inv(g) && (forall p :: p in order ==> p in g.disconnected) && SweepSafe(g, order, now, limit)
    requires InStep(g, c, v)
    ensures var o := OnSweep(g, order, now, limit); InStep(o.g, c, Deliver(v, o.outs, c))
  {
    hide Weak, Strong, InStep, SweepLoop, SweepSafe, Erase;
    var s := SweepLoop(g, order, now, limit);
    LoopOnward(g, order, now, limit);
    LoopInStep(g, order, now, limit, c, v);
    EraseInStep(s.g, s.erased, c, Deliver(v, s.outs, c));
  }
}
