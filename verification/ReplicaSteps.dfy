/** Each handler keeps every client in step. */
module ReplicaSteps {
  import opened FlatSets
  import opened AnyTypes
  import opened SharedData
  import opened GameState
  import opened Handlers
  import opened Membership
  import opened Invariants
  import opened Replica

  // ----- what the invariants say about one lobby and one client -----

  lemma Roster(g: Game, l: Id)
    requires Inv(g) && l in g.lobbies
    ensures l != "" && g.lobbies[l].id == l && g.lobbies[l].host in g.lobbies[l].peerIds
    ensures NoDup(g.lobbies[l].peerIds) && IsClean(g.lobbies[l].shared)
    ensures forall q :: q in g.lobbies[l].peerIds ==> q in g.peers && g.peers[q].id == q && g.peers[q].lobbyId == l
    ensures forall q :: q in g.peers && g.peers[q].lobbyId == l ==> q in g.lobbies[l].peerIds
  {
    assert LobbyWeak(g, l) && LobbyStrong(g, l);
    SortedNoDup(g.lobbies[l].peerIds);
    forall q | q in g.lobbies[l].peerIds ensures g.peers[q].id == q { assert PeerStrong(g, q); }
    forall q | q in g.peers && g.peers[q].lobbyId == l ensures q in g.lobbies[l].peerIds { assert PeerWeak(g, q); }
  }

  lemma Self(g: Game, p: Id)
    requires Inv(g) && p in g.peers
    ensures g.peers[p].id == p && p != "" && Acting(g, p)
    ensures g.peers[p].lobbyId != "" ==> p in g.lobbies[g.peers[p].lobbyId].peerIds
    ensures "" !in g.lobbies
  {
    assert PeerStrong(g, p) && PeerWeak(g, p);
  }

  lemma DisconnectedKnown(g: Game, p: Id)
    requires Inv(g) && p in g.disconnected
    ensures p in g.peers
  {
  }

  /** A step inside lobby `l`, seen by a client that is not one of its connected members. */
  lemma Elsewhere(g: Game, g': Game, l: Id, c: Id, v: View)
    requires Inv(g) && InStep(g, c, v)
    requires g'.peers.Keys == g.peers.Keys && g'.disconnected.Keys == g.disconnected.Keys
    requires forall m :: m in g.lobbies && m != l ==> m in g'.lobbies && g'.lobbies[m] == g.lobbies[m]
    requires forall q :: q in g.peers && g.peers[q].lobbyId != "" && g.peers[q].lobbyId != l ==>
               g'.peers[q] == g.peers[q]
    requires c in g.peers ==> g'.peers[c].lobbyId == g.peers[c].lobbyId
    requires c in g.peers ==> g'.peers[c].disconnected == g.peers[c].disconnected
    requires c in Active(g) ==> g.peers[c].lobbyId != l
    ensures InStep(g', c, v)
  {
    hide Weak, Strong;
    if c in Active(g) && g.peers[c].lobbyId != "" {
      var m := g.peers[c].lobbyId;
      Roster(g, m);
      assert SameSight(g, g', m);
    }
    Unaffected(g, g', c, v);
  }

  /** A connected member of `l` holds `Inner(g, l)` or is waiting. */
  lemma ConnectedMember(g: Game, l: Id, c: Id, v: View)
    requires Inv(g) && InStep(g, c, v) && l in g.lobbies && c in g.lobbies[l].peerIds && c !in g.disconnected
    ensures c in Active(g) && g.peers[c].lobbyId == l && (v == Inner(g, l) || (v.Unsynced? && g.peers[c].disconnected))
  {
    Roster(g, l);
  }

  /** The notes that adjust one member, spelled out. */
  lemma LearnPut(v: View, p: Id)
    ensures Learn(v, PeerReady(p)) == Put(v, p, Known(v, p).(ready := true))
    ensures Learn(v, PeerUnready(p)) == Put(v, p, Known(v, p).(ready := false))
    ensures Learn(v, PeerReconnected(p)) == Put(v, p, Known(v, p).(ready := false, disconnected := false))
    ensures Learn(v, PeerDisconnected(p)) == Put(v, p, Known(v, p).(ready := false, disconnected := true))
  {
  }

  lemma RefusalInStep(g: Game, to: Id, message: string, c: Id, v: View)
    ensures Deliver(v, Fail(g, to, message).outs, c) == v
  {
    DeliverSend(v, g.disconnected, to, Error(message), c);
  }

  // ----- readiness, settings -----

  lemma ReadyInStep(g: Game, p: Id, ready: bool, can: bool, c: Id, v: View)
    requires Inv(g) && p in Active(g) && Acting(g, p) && InStep(g, c, v)
    ensures var o := OnReady(g, p, ready, can); InStep(o.g, c, Deliver(v, o.outs, c))
  {
    var me := g.peers[p];
    assert PeerStrong(g, p);
    if me.lobbyId == "" || me.ready == ready || !can {
      RefusalInStep(g, me.id, "script", c, v);
      RefusalInStep(g, me.id, "ERROR_PEER_NOT_IN_A_LOBBY", c, v);
      RefusalInStep(g, me.id, if ready then "ERROR_PEER_IS_READY" else "ERROR_PEER_IS_NOT_READY", c, v);
    } else {
      FlagInStep(g, p, ready, c, v);
      Roster(g, me.lobbyId);
      ToAll(v, g.disconnected, g.lobbies[me.lobbyId].peerIds, p, if ready then PeerReady(p) else PeerUnready(p), c);
    }
  }

  lemma FlagInStep(g: Game, p: Id, ready: bool, c: Id, v: View)
    requires Inv(g) && p in Active(g) && g.peers[p].lobbyId in g.lobbies && InStep(g, c, v)
    ensures var ids := g.lobbies[g.peers[p].lobbyId].peerIds;
            var w := Learn(v, if ready then PeerReady(p) else PeerUnready(p));
            InStep(g.(peers := g.peers[p := g.peers[p].(ready := ready)]), c,
                   if c in ids && c !in g.disconnected then w else v)
  {
    hide Weak, Strong, Learn, MembersOf;
    var l, g' := g.peers[p].lobbyId, g.(peers := g.peers[p := g.peers[p].(ready := ready)]);
    Roster(g, l);
    if c in g.lobbies[l].peerIds && c !in g.disconnected {
      ConnectedMember(g, l, c, v);
      InnerPut(g, g', l, p);
      LearnPut(v, p);
      MemberStep(g, g', l, c, v, Learn(v, if ready then PeerReady(p) else PeerUnready(p)));
    } else {
      Elsewhere(g, g', l, c, v);
    }
  }

  /** Others first, then the actor: every connected member gets the note once. */
  lemma ToAll(v: View, off: map<Id, int>, ids: seq<Id>, p: Id, note: Note, c: Id)
    requires NoDup(ids) && p in ids && p !in off
    ensures Deliver(v, Broadcast(off, ids, {p}, note) + Send(off, p, note), c) ==
            if c in ids && c !in off then Learn(v, note) else v
  {
    hide Deliver, Broadcast, Send;
    DeliverConcat(v, Broadcast(off, ids, {p}, note), Send(off, p, note), c);
    DeliverBroadcast(v, off, ids, {p}, note, c);
    DeliverSend(Deliver(v, Broadcast(off, ids, {p}, note), c), off, p, note, c);
  }

  lemma EditInStep(g: Game, p: Id, e: Edit, can: bool, c: Id, v: View)
    requires Inv(g) && p in Active(g) && Acting(g, p) && InStep(g, c, v)
    ensures var o := OnEdit(g, p, e, can); InStep(o.g, c, Deliver(v, o.outs, c))
  {
    var o, me := OnEdit(g, p, e, can), g.peers[p];
    assert PeerStrong(g, p);
    EditQuiet(g, p, e, can, c, v);
    if me.lobbyId != "" {
      Roster(g, me.lobbyId);
      EditSight(g, p, e, can, c, v);
    }
  }

  /** None of its messages touches the roster. */
  lemma EditQuiet(g: Game, p: Id, e: Edit, can: bool, c: Id, v: View)
    requires Inv(g) && p in Active(g) && Acting(g, p) && g.peers[p].id == p
    ensures Deliver(v, OnEdit(g, p, e, can).outs, c) == v
  {
    hide Deliver, Broadcast, Send, Weak, Strong, Edits, Announced, Learn;
    var me := g.peers[p];
    assert Learn(v, Edited(e)) == v by { LearnEdited(v, e); }
    RefusalInStep(g, p, "ERROR_PEER_NOT_IN_A_LOBBY", c, v);
    RefusalInStep(g, p, "ERROR_PEER_NOT_HOST", c, v);
    RefusalInStep(g, p, "ERROR_LOBBY_FULL", c, v);
    RefusalInStep(g, p, "script", c, v);
    DeliverSend(v, g.disconnected, p, Edited(e), c);
    if me.lobbyId != "" {
      var b := g.lobbies[me.lobbyId];
      Roster(g, me.lobbyId);
      AnnounceQuiet(v, g.disconnected, b.peerIds, p, Announced(Edits(b, e), e), c);
    }
  }

  lemma LearnEdited(v: View, e: Edit)
    ensures Learn(v, Edited(e)) == v
  {
  }

  lemma AnnounceQuiet(v: View, off: map<Id, int>, ids: seq<Id>, p: Id, e: Edit, c: Id)
    requires NoDup(ids) && p in ids && p !in off
    ensures Deliver(v, Broadcast(off, ids, {p}, Edited(e)) + Send(off, p, Edited(e)), c) == v
  {
    hide Deliver, Broadcast, Send;
    ToAll(v, off, ids, p, Edited(e), c);
  }

  lemma EditSight(g: Game, p: Id, e: Edit, can: bool, c: Id, v: View)
    requires Inv(g) && Acting(g, p) && InStep(g, c, v) && g.peers[p].lobbyId != ""
    ensures InStep(OnEdit(g, p, e, can).g, c, v)
  {
    var g' := OnEdit(g, p, e, can).g;
    EditFrame2(g, p, e, can);
    if c in Active(g) && g.peers[c].lobbyId != "" {
      assert SameSight(g, g', g.peers[c].lobbyId);
    }
    Unaffected(g, g', c, v);
  }

  lemma EditFrame2(g: Game, p: Id, e: Edit, can: bool)
    requires Acting(g, p)
    ensures var g' := OnEdit(g, p, e, can).g;
            && g'.peers == g.peers && g'.disconnected == g.disconnected && g'.lobbies.Keys == g.lobbies.Keys
            && forall l :: l in g.lobbies ==>
                 && g'.lobbies[l].host == g.lobbies[l].host && g'.lobbies[l].peerIds == g.lobbies[l].peerIds
                 && g'.lobbies[l].shared == g.lobbies[l].shared
  {
  }

  // ----- connections -----

  /** Whatever the client held and whatever reached it late, the answer to its OPEN puts it right. */
  lemma ConnectInStep(g: Game, p: Id, c: Id, v: View)
    requires Inv(g) && p != "" && p !in Active(g) && InStep(g, c, v)
    ensures var o := OnConnect(g, p); InStep(o.g, c, Deliver(v, o.outs, c))
  {
    hide Weak, Strong, Deliver, Learn, InStep, Send;
    var o := OnConnect(g, p);
    if p in g.peers { Self(g, p); } else if p in g.disconnected { DisconnectedKnown(g, p); }
    DeliverSend(v, o.g.disconnected, p, PeerState(ViewOf(o.g.peers[p])), c);
    if c != p { ConnectOther(g, p, c, v); } else { ConnectSelf(g, p, v); }
  }

  lemma ConnectOther(g: Game, p: Id, c: Id, v: View)
    requires Inv(g) && InStep(g, c, v) && c != p
    ensures InStep(OnConnect(g, p).g, c, v)
  {
    hide Weak, Strong, Send;
    var g' := OnConnect(g, p).g;
    if c in Active(g) && g.peers[c].lobbyId != "" {
      Roster(g, g.peers[c].lobbyId);
      assert SameSight(g, g', g.peers[c].lobbyId);
    }
    Unaffected(g, g', c, v);
  }

  lemma ConnectSelf(g: Game, p: Id, v: View)
    requires Inv(g) && p != "" && p !in Active(g) && InStep(g, p, v)
    ensures var g' := OnConnect(g, p).g; InStep(g', p, Learn(v, PeerState(ViewOf(g'.peers[p]))))
  {
    hide Send, SeenAt;
    if p in g.peers { assert PeerStrong(g, p) && PeerWeak(g, p); }
  }

  lemma CloseInStep(g: Game, p: Id, now: int, c: Id, v: View)
    requires Inv(g) && InStep(g, c, v)
    ensures var o := OnClose(g, p, now); InStep(o.g, c, Deliver(v, o.outs, c))
  {
    hide Weak, Strong, Broadcast, Learn;
    if p in g.peers {
      var o, l := OnClose(g, p, now), g.peers[p].lobbyId;
      Self(g, p);
      if l in g.lobbies {
        Roster(g, l);
        DeliverBroadcast(v, o.g.disconnected, g.lobbies[l].peerIds, {p}, PeerDisconnected(p), c);
      }
      ClosedInStep(g, p, o.g, c, v);
    }
  }

  lemma ClosedInStep(g: Game, p: Id, g': Game, c: Id, v: View)
    requires Inv(g) && InStep(g, c, v) && p in g.peers && g.peers[p].id == p
    requires g'.peers == g.peers[p := g.peers[p].(ready := false, disconnected := true)] && g'.lobbies == g.lobbies
    requires g'.disconnected.Keys == g.disconnected.Keys + {p}
    ensures var l := g.peers[p].lobbyId;
            InStep(g', c, if l in g.lobbies && c in g.lobbies[l].peerIds && c !in g'.disconnected
                          then Learn(v, PeerDisconnected(p)) else v)
  {
    hide Weak, Strong, Learn, MembersOf;
    var l := g.peers[p].lobbyId;
    Self(g, p);
    if c != p {
      if l in g.lobbies { Roster(g, l); }
      if l in g.lobbies && c in g.lobbies[l].peerIds && c !in g.disconnected {
        ConnectedMember(g, l, c, v);
        InnerPut(g, g', l, p);
        LearnPut(v, p);
        MemberStep(g, g', l, c, v, Learn(v, PeerDisconnected(p)));
      } else {
        Elsewhere'(g, g', p, c, v);
      }
    }
  }

  /** Only the entry of `p` changed, and `c` shares no lobby with it. */
  lemma Elsewhere'(g: Game, g': Game, p: Id, c: Id, v: View)
    requires Inv(g) && InStep(g, c, v) && p in g.peers && c != p
    requires g'.lobbies == g.lobbies && p in g'.peers && g'.peers == g.peers[p := g'.peers[p]]
    requires c in g.disconnected <==> c in g'.disconnected
    requires c in Active(g) ==> g.peers[c].lobbyId == "" || g.peers[c].lobbyId != g.peers[p].lobbyId
    ensures InStep(g', c, v)
  {
    hide Weak, Strong;
    if c in Active(g) && g.peers[c].lobbyId != "" {
      Roster(g, g.peers[c].lobbyId);
      assert SameSight(g, g', g.peers[c].lobbyId);
    }
    Unaffected(g, g', c, v);
  }

  // ----- entering -----

  lemma CreateInStep(g: Game, p: Id, a: CreateArgs, can: bool, c: Id, v: View)
    requires Inv(g) && p in Active(g) && a.id != "" && a.id !in g.lobbies && InStep(g, c, v)
    ensures var o := OnCreate(g, p, a, can); InStep(o.g, c, Deliver(v, o.outs, c))
  {
    var o, me := OnCreate(g, p, a, can), g.peers[p];
    Self(g, p);
    if me.lobbyId != "" || a.maxPlayers < 1 {
      RefusalInStep(g, p, "ERROR_PEER_IS_IN_A_LOBBY", c, v);
      RefusalInStep(g, p, "ERROR_LOBBY_FULL", c, v);
    } else if !can {
      RefusalInStep(o.g, p, "script", c, v);
      assert o.g.lobbies == g.lobbies;
      if c != p { Elsewhere'(g, o.g, p, c, v); }
    } else {
      CreatedInStep(g, p, a, c, v);
    }
  }

  /** The state a creation leads to. */
  function WithLobby(g: Game, p: Id, a: CreateArgs): Game
    requires p in g.peers
  {
    g.(peers := g.peers[p := g.peers[p].(lobbyId := a.id, disconnected := false)],
       lobbies := g.lobbies[a.id := NewLobby(a, p)], updated := g.updated + {a.id})
  }

  lemma CreateResult(g: Game, p: Id, a: CreateArgs)
    requires p in g.peers && a.id !in g.lobbies && g.peers[p].id == p && g.peers[p].lobbyId == "" && a.maxPlayers >= 1
    ensures var g' := WithLobby(g, p, a);
            OnCreate(g, p, a, true) ==
            Outcome(g', Send(g.disconnected, p, Created(SummaryOf(NewLobby(a, p)), map[], PeersArray(g'.peers, [p]))))
  {
    hide PeersArray, SummaryOf, Send;
    TouchHits(WithLobby(g, p, a).peers, [p]);
  }

  lemma CreatedInStep(g: Game, p: Id, a: CreateArgs, c: Id, v: View)
    requires Inv(g) && p in Active(g) && a.id != "" && a.id !in g.lobbies && InStep(g, c, v)
    requires g.peers[p].id == p && g.peers[p].lobbyId == "" && a.maxPlayers >= 1
    ensures var o := OnCreate(g, p, a, true); InStep(o.g, c, Deliver(v, o.outs, c))
  {
    hide OnCreate, Weak, Strong, Deliver, Send, MembersFrom, PeersArray, Learn, InStep;
    CreateResult(g, p, a);
    var g' := WithLobby(g, p, a);
    var note := Created(SummaryOf(NewLobby(a, p)), map[], PeersArray(g'.peers, [p]));
    DeliverSend(v, g.disconnected, p, note, c);
    if c in g.peers { Self(g, c); }
    if c == p { CreatorInStep(g, p, a, v); } else { Elsewhere(g, g', a.id, c, v); }
  }

  lemma CreatorInStep(g: Game, p: Id, a: CreateArgs, v: View)
    requires p in Active(g) && a.id != "" && g.peers[p].id == p
    ensures var g' := WithLobby(g, p, a);
            InStep(g', p, Learn(v, Created(SummaryOf(NewLobby(a, p)), map[], PeersArray(g'.peers, [p]))))
  {
    hide MembersOf, MembersFrom, PeersArray;
    SnapshotMembers(WithLobby(g, p, a), [p]);
  }

  /** The entrant gets a snapshot; the members are told of it in one note. */
  lemma DeliverEntry(v: View, off: map<Id, int>, ids: seq<Id>, p: Id, others: Note, self: Note, c: Id)
    requires NoDup(ids) && p !in off
    ensures Deliver(v, Broadcast(off, ids, {p}, others) + Send(off, p, self), c) ==
            if c == p then Learn(v, self) else if c in ids && c !in off then Learn(v, others) else v
  {
    hide Deliver, Broadcast, Send;
    DeliverConcat(v, Broadcast(off, ids, {p}, others), Send(off, p, self), c);
    DeliverBroadcast(v, off, ids, {p}, others, c);
    DeliverSend(Deliver(v, Broadcast(off, ids, {p}, others), c), off, p, self, c);
  }

  lemma SnapshotNote(g: Game, l: Id, v: View)
    requires Inv(g) && l in g.lobbies
    ensures var b := g.lobbies[l];
            Learn(v, Joined(SummaryOf(b), b.shared.data, PeersArray(g.peers, b.peerIds))) == Inner(g, l)
  {
    Roster(g, l);
    SnapshotMembers(g, g.lobbies[l].peerIds);
  }

  /** A newcomer appears among the members. */
  lemma InnerGrows(g: Game, g': Game, l: Id, p: Id)
    requires l in g.lobbies && l in g'.lobbies && g'.lobbies[l] == WithMember(g.lobbies[l], p)
    requires p in g'.peers && g'.peers[p].id == p && p !in g.lobbies[l].peerIds
    requires forall q :: q in g.lobbies[l].peerIds ==> SeenAt(g', q) == SeenAt(g, q)
    ensures Learn(Inner(g, l), PeerJoined(ViewOf(g'.peers[p]))) == Inner(g', l)
  {
    InsertElements(g.lobbies[l].peerIds, p);
    assert MembersOf(g', g'.lobbies[l].peerIds) == MembersOf(g, g.lobbies[l].peerIds)[p := SeenAt(g', p)];
  }

  lemma StaysUnsynced(p: PeerView)
    ensures Learn(Unsynced, PeerJoined(p)) == Unsynced
  {
  }

  lemma EnterInStep(g: Game, p: Id, l: Id, c: Id, v: View)
    requires Inv(g) && p in Active(g) && l in g.lobbies && g.peers[p].lobbyId == "" && InStep(g, c, v)
    requires |g.lobbies[l].peerIds| < U64(g.lobbies[l].maxPlayers)
    ensures var o := Enter(g, p, l); InStep(o.g, c, Deliver(v, o.outs, c))
  {
    var o, b, off := Enter(g, p, l), g.lobbies[l], g.disconnected;
    Roster(g, l);
    assert PeerStrong(g, p) && LobbyStrong(g, l);
    EnterState(g, p, l);
    EnterWeak(g, p, l);
    EnterStrong(g, p, l);
    Roster(o.g, l);
    var me, b' := o.g.peers[p], o.g.lobbies[l];
    assert me == Entered(g.peers[p], b);
    DeliverEntry(v, off, b'.peerIds, p, PeerJoined(ViewOf(me)),
                 Joined(SummaryOf(b'), b'.shared.data, PeersArray(o.g.peers, b'.peerIds)), c);
    EnteredInStep(g, p, l, o.g, c, v);
  }

  lemma EnteredInStep(g: Game, p: Id, l: Id, g': Game, c: Id, v: View)
    requires Inv(g) && Inv(g') && p in Active(g) && l in g.lobbies && g.peers[p].lobbyId == "" && InStep(g, c, v)
    requires g.lobbies[l].id == l && g.peers[p].id == p && p !in g.lobbies[l].peerIds
    requires g'.peers == g.peers[p := Entered(g.peers[p], g.lobbies[l])] && g'.disconnected == g.disconnected
    requires g'.lobbies == g.lobbies[l := WithMember(g.lobbies[l], p)]
    ensures var b' := g'.lobbies[l];
            InStep(g', c, if c == p then Learn(v, Joined(SummaryOf(b'), b'.shared.data, PeersArray(g'.peers, b'.peerIds)))
                          else if c in b'.peerIds && c !in g.disconnected then Learn(v, PeerJoined(ViewOf(g'.peers[p])))
                          else v)
  {
    hide Weak, Strong, Learn, MembersOf, PeersArray, Insert, SeenOf, Strip;
    Roster(g, l);
    InsertElements(g.lobbies[l].peerIds, p);
    if c == p {
      SnapshotNote(g', l, v);
    } else if c in g'.lobbies[l].peerIds && c !in g.disconnected {
      ConnectedMember(g, l, c, v);
      InnerGrows(g, g', l, p);
      StaysUnsynced(ViewOf(g'.peers[p]));
      MemberStep(g, g', l, c, v, Learn(v, PeerJoined(ViewOf(g'.peers[p]))));
    } else {
      Elsewhere(g, g', l, c, v);
    }
  }

  lemma RejoinInStep(g: Game, p: Id, l: Id, c: Id, v: View)
    requires Inv(g) && p in Active(g) && l in g.lobbies && g.peers[p].lobbyId == l && InStep(g, c, v)
    ensures var o := Rejoin(g, p, l); InStep(o.g, c, Deliver(v, o.outs, c))
  {
    var o, b, off := Rejoin(g, p, l), g.lobbies[l], g.disconnected;
    Roster(g, l);
    RejoinKeeps(g, p, l);
    DeliverEntry(v, off, b.peerIds, p, PeerReconnected(p),
                 Joined(SummaryOf(b), b.shared.data, PeersArray(o.g.peers, b.peerIds)), c);
    RejoinedInStep(g, p, l, o.g, c, v);
  }

  lemma RejoinedInStep(g: Game, p: Id, l: Id, g': Game, c: Id, v: View)
    requires Inv(g) && Inv(g') && p in Active(g) && l in g.lobbies && g.peers[p].lobbyId == l && InStep(g, c, v)
    requires g' == g.(peers := g.peers[p := g.peers[p].(ready := false, disconnected := false)])
    ensures var b := g.lobbies[l];
            InStep(g', c, if c == p then Learn(v, Joined(SummaryOf(b), b.shared.data, PeersArray(g'.peers, b.peerIds)))
                          else if c in b.peerIds && c !in g.disconnected then Learn(v, PeerReconnected(p))
                          else v)
  {
    hide Weak, Strong, Learn, MembersOf;
    Roster(g, l);
    if c == p {
      SnapshotNote(g', l, v);
    } else if c in g.lobbies[l].peerIds && c !in g.disconnected {
      ConnectedMember(g, l, c, v);
      InnerPut(g, g', l, p);
      LearnPut(v, p);
      MemberStep(g, g', l, c, v, Learn(v, PeerReconnected(p)));
    } else {
      Elsewhere(g, g', l, c, v);
    }
  }

  lemma JoinInStep(g: Game, p: Id, wanted: Id, password: string, can: bool, c: Id, v: View)
    requires Inv(g) && p in Active(g) && InStep(g, c, v)
    ensures var o := OnJoin(g, p, wanted, password, can); InStep(o.g, c, Deliver(v, o.outs, c))
    ensures var o := OnJoin(g, p, wanted, password, can); !o.joined ==> Deliver(v, o.outs, c) == v
  {
    var me := g.peers[p];
    var again := me.disconnected && me.lobbyId != "";
    var l := if again then me.lobbyId else wanted;
    if OnJoin(g, p, wanted, password, can).joined {
      assert LobbyWeak(g, l);
      if again { RejoinInStep(g, p, l, c, v); } else { EnterInStep(g, p, l, c, v); }
    } else {
      JoinRefused(g, p, wanted, password, can, c, v);
    }
  }

  lemma JoinRefused(g: Game, p: Id, wanted: Id, password: string, can: bool, c: Id, v: View)
    requires p in g.peers && !OnJoin(g, p, wanted, password, can).joined
    ensures var o := OnJoin(g, p, wanted, password, can); o.g == g && Deliver(v, o.outs, c) == v
  {
    var id := g.peers[p].id;
    RefusalInStep(g, id, "ERROR_LOBBY_NOT_FOUND", c, v);
    RefusalInStep(g, id, "ERROR_PEER_IS_IN_A_LOBBY", c, v);
    RefusalInStep(g, id, "ERROR_LOBBY_WRONG_PASSWORD", c, v);
    RefusalInStep(g, id, "ERROR_LOBBY_FULL", c, v);
    RefusalInStep(g, id, "script", c, v);
  }

  lemma {:induction false} TryJoinsInStep(
    g: Game, p: Id, a: CreateArgs, order: seq<Id>, cans: seq<bool>, c: Id, v: View)
    requires Inv(g) && p in Active(g) && InStep(g, c, v)
    ensures var o := TryJoins(g, p, a, order, cans); InStep(o.g, c, Deliver(v, o.outs, c))
    ensures var o := TryJoins(g, p, a, order, cans); !o.joined ==> Deliver(v, o.outs, c) == v
    decreases order
  {
    if order != [] {
      var l := order[0];
      if l !in g.lobbies {
        TryJoinsInStep(g, p, a, order[1..], cans, c, v);
      } else {
        ConsideredKeeps(g, l);
        if !Eligible(g, l, a.tags) {
          TryJoinsInStep(g, p, a, order[1..], cans, c, v);
        } else {
          JoinInStep(g, p, l, a.password, Verdict(cans), c, v);
          var o := OnJoin(g, p, l, a.password, Verdict(cans));
          if !o.joined {
            TryJoinsInStep(g, p, a, order[1..], Later(cans), c, v);
            DeliverConcat(v, o.outs, TryJoins(g, p, a, order[1..], Later(cans)).outs, c);
          }
        }
      }
    }
  }

  lemma QuickJoinInStep(
    g: Game, p: Id, wanted: Id, a: CreateArgs, order: seq<Id>, cans: seq<bool>, can: bool, c: Id, v: View)
    requires Inv(g) && p in Active(g) && a.id != "" && a.id !in g.lobbies && InStep(g, c, v)
    ensures var o := OnQuickJoin(g, p, wanted, a, order, cans, can); InStep(o.g, c, Deliver(v, o.outs, c))
  {
    var inLobby := g.peers[p].lobbyId != "";
    var first := if inLobby then OnJoin(g, p, wanted, a.password, Verdict(cans)) else JoinOutcome(false, g, []);
    if inLobby { JoinInStep(g, p, wanted, a.password, Verdict(cans), c, v); }
    if !first.joined {
      var later := if inLobby then Later(cans) else cans;
      var second := TryJoins(g, p, a, order, later);
      assert PeerStrong(g, p);
      TryJoinsKeeps(g, p, a, order, later);
      TryJoinsInStep(g, p, a, order, later, c, v);
      DeliverConcat(v, first.outs, second.outs, c);
      if !second.joined {
        var third := OnCreate(g, p, a, can);
        CreateInStep(g, p, a, can, c, v);
        DeliverConcat(v, first.outs + second.outs, third.outs, c);
      }
    }
  }
}
