/** Every handler keeps the membership invariants and, where nobody is orphaned, the set of active peers. */
module Invariants {
  import opened FlatSets
  import opened AnyTypes
  import opened SharedData
  import opened GameState
  import opened Handlers
  import opened Membership

  /** The entry really is the peer that acts, not one that `operator[]` made up. */
  predicate Genuine(g: Game, p: Id)
  {
    p in g.peers && g.peers[p].id == p && p != ""
  }

  lemma WeakActs(g: Game, p: Id)
    requires Weak(g) && p in g.peers
    ensures Acting(g, p)
    ensures g.peers[p].lobbyId != "" ==> p in g.lobbies[g.peers[p].lobbyId].peerIds
  {
    assert PeerWeak(g, p);
  }

  lemma FrameBoth(g: Game, g': Game)
    requires SamePlaces(g.peers, g'.peers) && SameRosters(g.lobbies, g'.lobbies)
    requires g'.disconnected == g.disconnected && g'.listing == g.listing
    ensures Weak(g) ==> Weak(g')
    ensures Inv(g) ==> Inv(g') && Active(g') == Active(g)
  {
    if Weak(g) { FrameWeak(g, g'); }
    if Strong(g) { FrameStrong(g, g'); }
  }

  // ----- connections -----

  lemma ConnectKeeps(g: Game, p: Id)
    requires Weak(g) && p != ""
    ensures Weak(OnConnect(g, p).g)
    ensures Inv(g) ==> Inv(OnConnect(g, p).g) && Active(OnConnect(g, p).g) == Active(g) + {p}
  {
    var g' := OnConnect(g, p).g;
    if p in g.peers {
      FrameWeak(g, g');
      if Inv(g) { FrameStrong(g, g'); }
    } else {
      forall k | k in g'.peers ensures PeerWeak(g', k) {
        if k != p { assert PeerWeak(g, k); }
      }
      forall l | l in g'.lobbies ensures LobbyWeak(g', l) { assert LobbyWeak(g, l); }
      if Inv(g) {
        forall k | k in g'.peers ensures PeerStrong(g', k) {
          if k != p { assert PeerStrong(g, k); }
        }
        forall l | l in g'.lobbies ensures LobbyStrong(g', l) {
          assert LobbyStrong(g, l);
          FrameJoinOrder(g.peers, g'.peers, g.lobbies[l], g.lobbies[l]);
        }
      }
    }
  }

  lemma CloseFrame(g: Game, p: Id, now: int)
    ensures var g' := OnClose(g, p, now).g;
            && SamePlaces(g.peers, g'.peers) && g'.lobbies == g.lobbies && g'.listing == g.listing - {p}
            && g'.disconnected.Keys == g.disconnected.Keys + if p in g.peers then {p} else {}
  {
  }

  lemma CloseKeeps(g: Game, p: Id, now: int)
    requires Weak(g)
    ensures Weak(OnClose(g, p, now).g)
    ensures Inv(g) ==> Inv(OnClose(g, p, now).g) && Active(OnClose(g, p, now).g) == Active(g) - {p}
  {
    var g' := OnClose(g, p, now).g;
    CloseFrame(g, p, now);
    FrameWeak(g, g');
    if Inv(g) {
      assert Active(g') == Active(g) - {p};
      FrameStrong(g, g');
    }
  }

  // ----- entering -----

  lemma {:induction false} InsertLast(ids: seq<Id>, x: Id, peers: map<Id, Peer>)
    requires forall i :: 0 <= i < |ids| ==> At(peers, ids[i]).orderId < At(peers, x).orderId
    ensures InsertByOrder(ids, x, peers) == ids + [x]
  {
  }

  /** The sort on join leaves an increasing list as it is. */
  lemma {:induction false} SortIdentity(ids: seq<Id>, peers: map<Id, Peer>)
    requires forall i, j :: 0 <= i < j < |ids| ==> At(peers, ids[i]).orderId < At(peers, ids[j]).orderId
    ensures SortByOrder(ids, peers) == ids
  {
    if ids != [] {
      var n := |ids| - 1;
      SortIdentity(ids[..n], peers);
      InsertLast(ids[..n], ids[n], peers);
      assert ids[..n] + [ids[n]] == ids;
    }
  }

  ghost predicate Rising(ids: seq<Id>, peers: map<Id, Peer>)
  {
    forall i, j :: 0 <= i < j < |ids| ==> At(peers, ids[i]).orderId < At(peers, ids[j]).orderId
  }

  ghost predicate Ordered(ids: seq<Id>, peers: map<Id, Peer>)
  {
    forall i, j :: 0 <= i < j < |ids| ==> At(peers, ids[i]).orderId <= At(peers, ids[j]).orderId
  }

  /** No other arrangement of an increasing list is sorted, so any sort gives the same result. */
  lemma {:induction false} SortUnique(ids: seq<Id>, r: seq<Id>, peers: map<Id, Peer>)
    requires Rising(ids, peers) && multiset(r) == multiset(ids) && Ordered(r, peers)
    ensures r == ids
  {
    hide Rising, Ordered;
    assert |r| == |ids| by { assert |multiset(r)| == |multiset(ids)|; }
    if ids != [] {
      FirstOfSort(ids, r, peers);
      TailMultiset(ids);
      TailMultiset(r);
      TailsOrdered(ids, r, peers);
      SortUnique(ids[1..], r[1..], peers);
      assert r == [r[0]] + r[1..] && ids == [ids[0]] + ids[1..];
    }
  }

  lemma TailMultiset(s: seq<Id>)
    requires s != []
    ensures multiset(s[1..]) == multiset(s) - multiset{s[0]}
  {
    assert s == [s[0]] + s[1..];
  }

  lemma TailsOrdered(ids: seq<Id>, r: seq<Id>, peers: map<Id, Peer>)
    requires ids != [] && r != [] && Rising(ids, peers) && Ordered(r, peers)
    ensures Rising(ids[1..], peers) && Ordered(r[1..], peers)
  {
    hide At;
  }

  lemma FirstOfSort(ids: seq<Id>, r: seq<Id>, peers: map<Id, Peer>)
    requires Rising(ids, peers) && multiset(r) == multiset(ids) && |r| == |ids| > 0 && Ordered(r, peers)
    ensures r[0] == ids[0]
  {
    hide At;
    assert r[0] in multiset(r) && ids[0] in multiset(ids);
    var i :| 0 <= i < |ids| && ids[i] == r[0];
    var j :| 0 <= j < |r| && r[j] == ids[0];
    assert At(peers, r[0]).orderId <= At(peers, r[j]).orderId;
  }

  lemma EnterWeak(g: Game, p: Id, l: Id)
    requires Weak(g) && Genuine(g, p) && l in g.lobbies && g.peers[p].lobbyId == ""
    requires |g.lobbies[l].peerIds| < U64(g.lobbies[l].maxPlayers)
    ensures Weak(Enter(g, p, l).g)
  {
    var g' := Enter(g, p, l).g;
    var b, b' := g.lobbies[l], g'.lobbies[l];
    assert LobbyWeak(g, l) && PeerWeak(g, p);
    InsertElements(b.peerIds, p);
    InsertSorted(b.peerIds, p);
    assert p in b'.peerIds;
    forall k | k in g'.peers ensures PeerWeak(g', k) {
      if k in g.peers { assert PeerWeak(g, k); }
    }
    forall m | m in g'.lobbies ensures LobbyWeak(g', m) { assert LobbyWeak(g, m); }
  }

  /** The newcomer goes last: its order id is above everyone's. */
  lemma EnterJoinOrder(peers: map<Id, Peer>, b: Lobby, p: Id, peers': map<Id, Peer>, b': Lobby)
    requires JoinOrder(peers, b) && p !in b.peerIds
    requires forall x :: x in b.orderedIds ==> At(peers', x).orderId == At(peers, x).orderId
    requires At(peers', p).orderId == b.orderCounter + 1
    requires b'.peerIds == Insert(b.peerIds, p) && b'.orderCounter == b.orderCounter + 1
    requires b'.orderedIds == SortByOrder(b.orderedIds + [p], peers')
    ensures b'.orderedIds == b.orderedIds + [p] && JoinOrder(peers', b')
  {
    InsertElements(b.peerIds, p);
    SortIdentity(b.orderedIds + [p], peers');
  }

  lemma EnterFound(g: Game, p: Id, l: Id)
    requires p in g.peers && l in g.lobbies && LobbyStrong(g, l)
    ensures JoinOrder(g.peers, g.lobbies[l])
    ensures forall x :: x in g.lobbies[l].orderedIds + [p] + Insert(g.lobbies[l].peerIds, p) ==> x in g.peers
    ensures forall x :: x in g.lobbies[l].orderedIds <==> x in g.lobbies[l].peerIds
  {
    InsertElements(g.lobbies[l].peerIds, p);
  }

  /** The state after an entry, when nobody had to be made up. */
  lemma EnterState(g: Game, p: Id, l: Id)
    requires p in g.peers && l in g.lobbies && PeerStrong(g, p) && LobbyStrong(g, l) && p !in g.lobbies[l].peerIds
    requires g.lobbies[l].id == l
    ensures var b, g' := g.lobbies[l], Enter(g, p, l).g;
            && g' == g.(peers := g'.peers, lobbies := g'.lobbies, updated := g.updated + {l})
            && g'.peers == g.peers[p := Entered(g.peers[p], b)]
            && g'.lobbies == g.lobbies[l := WithMember(b, p)]
            && JoinOrder(g'.peers, WithMember(b, p))
  {
    hide SortByOrder, Insert, Broadcast, PeersArray, JoinOrder, Touch, LobbyStrong, Send;
    var b, g' := g.lobbies[l], Enter(g, p, l).g;
    EnterFound(g, p, l);
    TouchHits(g.peers[p := Entered(g.peers[p], b)], b.orderedIds + [p] + Insert(b.peerIds, p));
    assert g'.peers == g.peers[p := Entered(g.peers[p], b)];
    EnterJoinOrder(g.peers, b, p, g'.peers, g'.lobbies[l]);
    assert g'.lobbies[l] == WithMember(b, p);
  }

  function Entered(me: Peer, b: Lobby): Peer
  {
    me.(orderId := b.orderCounter + 1, lobbyId := b.id, disconnected := false)
  }

  function WithMember(b: Lobby, p: Id): Lobby
  {
    b.(peerIds := Insert(b.peerIds, p), orderedIds := b.orderedIds + [p], orderCounter := b.orderCounter + 1)
  }

  lemma EnterOwnLobby(g: Game, g': Game, p: Id, l: Id)
    requires p in g.peers && l in g.lobbies && g.lobbies[l].id == l && LobbyStrong(g, l)
    requires g'.peers == g.peers[p := Entered(g.peers[p], g.lobbies[l])]
    requires g'.lobbies == g.lobbies[l := WithMember(g.lobbies[l], p)]
    requires JoinOrder(g'.peers, WithMember(g.lobbies[l], p))
    ensures LobbyStrong(g', l)
  {
    InsertElements(g.lobbies[l].peerIds, p);
  }

  lemma EnterStrong(g: Game, p: Id, l: Id)
    requires Inv(g) && p in g.peers && l in g.lobbies && g.peers[p].lobbyId == ""
    ensures Strong(Enter(g, p, l).g) && Active(Enter(g, p, l).g) == Active(g)
  {
    var g' := Enter(g, p, l).g;
    assert PeerStrong(g, p) && LobbyStrong(g, l) && LobbyWeak(g, l);
    EnterState(g, p, l);
    EnterOwnLobby(g, g', p, l);
    PlacedStrong(g, g', p, l);
  }

  lemma PlacedElsewhere(g: Game, g': Game, p: Id, m: Id)
    requires p in g.peers && g.peers[p].lobbyId == "" && p in g'.peers
    requires g'.peers == g.peers[p := g'.peers[p]]
    requires m in g.lobbies && m in g'.lobbies && m != "" && g'.lobbies[m] == g.lobbies[m] && LobbyStrong(g, m)
    ensures LobbyStrong(g', m)
  {
    SameLobby(g, g', m);
  }

  /** One peer took a place in one lobby, which is in order; nothing else moved. */
  lemma PlacedStrong(g: Game, g': Game, p: Id, l: Id)
    requires Inv(g) && p in g.peers && g.peers[p].lobbyId == "" && p in g'.peers && l in g'.lobbies
    requires g'.disconnected == g.disconnected && g'.listing == g.listing
    requires g'.peers == g.peers[p := g'.peers[p]] && PeerStrong(g', p)
    requires g'.lobbies == g.lobbies[l := g'.lobbies[l]] && LobbyStrong(g', l)
    ensures Strong(g') && Active(g') == Active(g)
  {
    assert g'.peers.Keys == g.peers.Keys;
    forall k | k in g'.peers ensures PeerStrong(g', k) {
      if k != p { assert PeerStrong(g, k); }
    }
    forall m | m in g'.lobbies ensures LobbyStrong(g', m) {
      if m != l {
        assert LobbyWeak(g, m);
        PlacedElsewhere(g, g', p, m);
      }
    }
  }

  lemma RejoinKeeps(g: Game, p: Id, l: Id)
    requires Weak(g) && p in g.peers && l in g.lobbies
    ensures Weak(Rejoin(g, p, l).g)
    ensures Inv(g) ==> Inv(Rejoin(g, p, l).g) && Active(Rejoin(g, p, l).g) == Active(g)
    ensures Inv(g) ==> Rejoin(g, p, l).g.peers == g.peers[p := g.peers[p].(ready := false, disconnected := false)]
  {
    var peers := g.peers[p := g.peers[p].(ready := false, disconnected := false)];
    FrameBoth(g, g.(peers := peers));
    TouchWeak(g.(peers := peers), g.lobbies[l].peerIds);
    if Inv(g) {
      assert LobbyStrong(g, l);
      TouchHits(peers, g.lobbies[l].peerIds);
    }
  }

  lemma JoinKeeps(g: Game, p: Id, wanted: Id, password: string, can: bool)
    requires Weak(g) && Genuine(g, p)
    ensures Weak(OnJoin(g, p, wanted, password, can).g)
    ensures Inv(g) ==> Inv(OnJoin(g, p, wanted, password, can).g) &&
                       Active(OnJoin(g, p, wanted, password, can).g) == Active(g)
  {
    var me := g.peers[p];
    var again := me.disconnected && me.lobbyId != "";
    var l := if again then me.lobbyId else wanted;
    if OnJoin(g, p, wanted, password, can).joined {
      if again {
        RejoinKeeps(g, p, l);
      } else {
        assert LobbyWeak(g, l);
        EnterWeak(g, p, l);
        if Inv(g) { EnterStrong(g, p, l); }
      }
    }
  }

  lemma CreateKeeps(g: Game, p: Id, a: CreateArgs, can: bool)
    requires Weak(g) && Genuine(g, p) && a.id != "" && a.id !in g.lobbies
    ensures Weak(OnCreate(g, p, a, can).g)
    ensures Inv(g) ==> Inv(OnCreate(g, p, a, can).g) && Active(OnCreate(g, p, a, can).g) == Active(g)
  {
    hide Weak, Strong;
    var me, g' := g.peers[p], OnCreate(g, p, a, can).g;
    if me.lobbyId == "" && a.maxPlayers >= 1 {
      if !can {
        assert g'.lobbies == g.lobbies;
        VetoWeak(g, p, g');
        if Inv(g) { VetoStrong(g, p, g'); }
      } else {
        TouchHits(g.peers[p := me.(lobbyId := a.id, disconnected := false)], [p]);
        CreatedWeak(g, p, a, g');
        if Inv(g) { CreatedStrong(g, p, a, g'); }
      }
    }
  }

  lemma VetoWeak(g: Game, p: Id, g': Game)
    requires Weak(g) && Genuine(g, p) && g.peers[p].lobbyId == ""
    requires g' == g.(peers := g.peers[p := LeaveLobby(g.peers[p])])
    ensures Weak(g')
  {
    forall k | k in g'.peers ensures PeerWeak(g', k) { assert PeerWeak(g, k); }
    forall l | l in g'.lobbies ensures LobbyWeak(g', l) { assert LobbyWeak(g, l); }
  }

  lemma CreatedWeak(g: Game, p: Id, a: CreateArgs, g': Game)
    requires Weak(g) && Genuine(g, p) && a.id != "" && a.id !in g.lobbies && a.maxPlayers >= 1
    requires g.peers[p].lobbyId == ""
    requires g' == g.(peers := g.peers[p := g.peers[p].(lobbyId := a.id, disconnected := false)],
                      lobbies := g.lobbies[a.id := NewLobby(a, p)], updated := g.updated + {a.id})
    ensures Weak(g')
  {
    forall k | k in g'.peers ensures PeerWeak(g', k) { assert PeerWeak(g, k); }
    forall l | l in g'.lobbies ensures LobbyWeak(g', l) { if l != a.id { assert LobbyWeak(g, l); } }
  }

  lemma VetoStrong(g: Game, p: Id, g': Game)
    requires Inv(g) && p in g.peers && g.peers[p].lobbyId == ""
    requires g' == g.(peers := g.peers[p := LeaveLobby(g.peers[p])])
    ensures Strong(g') && Active(g') == Active(g)
  {
    assert PeerStrong(g, p);
    FrameStrong(g, g');
  }

  lemma CreatedStrong(g: Game, p: Id, a: CreateArgs, g': Game)
    requires Inv(g) && p in g.peers && g.peers[p].lobbyId == "" && a.id != "" && a.id !in g.lobbies
    requires g' == g.(peers := g.peers[p := g.peers[p].(lobbyId := a.id, disconnected := false)],
                      lobbies := g.lobbies[a.id := NewLobby(a, p)], updated := g.updated + {a.id})
    ensures Strong(g') && Active(g') == Active(g)
  {
    assert PeerStrong(g, p);
    PlacedStrong(g, g', p, a.id);
  }

  lemma ConsideredKeeps(g: Game, l: Id)
    requires Weak(g) && l in g.lobbies
    ensures Weak(Considered(g, l))
    ensures Inv(g) ==> Considered(g, l) == g
  {
    TouchWeak(g, [g.lobbies[l].host]);
    if Inv(g) {
      assert LobbyStrong(g, l);
      TouchHits(g.peers, [g.lobbies[l].host]);
    }
  }

  lemma {:induction false} TryJoinsKeeps(g: Game, p: Id, a: CreateArgs, order: seq<Id>, cans: seq<bool>)
    requires Weak(g) && Genuine(g, p)
    ensures Weak(TryJoins(g, p, a, order, cans).g)
    ensures Inv(g) ==> Inv(TryJoins(g, p, a, order, cans).g) && Active(TryJoins(g, p, a, order, cans).g) == Active(g)
    ensures Inv(g) && !TryJoins(g, p, a, order, cans).joined ==> TryJoins(g, p, a, order, cans).g == g
    decreases order
  {
    if order != [] {
      var l := order[0];
      if l !in g.lobbies {
        TryJoinsKeeps(g, p, a, order[1..], cans);
      } else {
        var g1 := Considered(g, l);
        ConsideredKeeps(g, l);
        if !Eligible(g, l, a.tags) {
          TryJoinsKeeps(g1, p, a, order[1..], cans);
        } else {
          JoinKeeps(g1, p, l, a.password, Verdict(cans));
          TryJoinsKeeps(g1, p, a, order[1..], Later(cans));
        }
      }
    }
  }

  lemma QuickJoinKeeps(
    g: Game, p: Id, wanted: Id, a: CreateArgs, order: seq<Id>, cans: seq<bool>, can: bool)
    requires Weak(g) && Genuine(g, p) && a.id != "" && a.id !in g.lobbies
    ensures var g' := OnQuickJoin(g, p, wanted, a, order, cans, can).g;
            Weak(g') && (Inv(g) ==> Inv(g') && Active(g') == Active(g))
  {
    var inLobby := g.peers[p].lobbyId != "";
    if inLobby { JoinKeeps(g, p, wanted, a.password, Verdict(cans)); }
    var later := if inLobby then Later(cans) else cans;
    TryJoinsKeeps(g, p, a, order, later);
    TryJoinsKeepsPeer(g, p, a, order, later);
    var second := TryJoins(g, p, a, order, later);
    if !second.joined { CreateKeeps(second.g, p, a, can); }
  }

  // ----- settings, readiness, data, listing -----

  lemma ReadyKeeps(g: Game, p: Id, ready: bool, can: bool)
    requires Acting(g, p)
    ensures var g' := OnReady(g, p, ready, can).g;
            (Weak(g) ==> Weak(g')) && (Inv(g) ==> Inv(g') && Active(g') == Active(g))
  {
    FrameBoth(g, OnReady(g, p, ready, can).g);
  }

  lemma EditFrame(g: Game, p: Id, e: Edit, can: bool)
    requires Acting(g, p) && (g.peers[p].lobbyId != "" ==> LobbyWeak(g, g.peers[p].lobbyId))
    ensures var g' := OnEdit(g, p, e, can).g;
            g' == g.(lobbies := g'.lobbies, updated := g'.updated) && SameRosters(g.lobbies, g'.lobbies)
  {
    hide Broadcast, Send, Announced;
  }

  lemma EditKeeps(g: Game, p: Id, e: Edit, can: bool)
    requires Weak(g) && Acting(g, p)
    ensures var g' := OnEdit(g, p, e, can).g;
            Weak(g') && (Inv(g) ==> Inv(g') && Active(g') == Active(g))
  {
    EditFrame(g, p, e, can);
    FrameBoth(g, OnEdit(g, p, e, can).g);
  }

  lemma MergeClean(t: Tracked, patch: Dict)
    requires IsClean(t)
    ensures Merge(t, patch).diff == patch && (Merge(t, patch).dirty <==> patch != map[])
    ensures !Merge(t, patch).dirty ==> Merge(t, patch) == t
  {
    assert map[] + patch == patch;
    if patch == map[] { assert Patch(t.data, patch) == t.data; }
  }

  lemma LobbyDataKeeps(g: Game, p: Id, patch: Dict)
    requires Weak(g) && Acting(g, p)
    ensures var g' := OnLobbyData(g, p, patch).g;
            Weak(g') && (Inv(g) ==> Inv(g') && Active(g') == Active(g))
  {
    hide Weak, Strong, OnLobbyData;
    LobbyDataState(g, p, patch);
    if RelayRefusal(g, p) == "" { FrameBoth(g, OnLobbyData(g, p, patch).g); }
  }

  lemma LobbyDataState(g: Game, p: Id, patch: Dict)
    requires Weak(g) && Acting(g, p)
    ensures var g', l := OnLobbyData(g, p, patch).g, g.peers[p].lobbyId;
            if RelayRefusal(g, p) != "" then g' == g
            else
              l in g.lobbies &&
              g' == g.(lobbies := g.lobbies[l := g.lobbies[l].(shared := Clean(Patch(g.lobbies[l].shared.data, patch)))])
  {
    hide Broadcast, Send;
    if RelayRefusal(g, p) == "" {
      assert LobbyWeak(g, g.peers[p].lobbyId);
      MergeClean(g.lobbies[g.peers[p].lobbyId].shared, patch);
    }
  }

  function Patched(p: Peer, target: bool, patch: Dict): Peer
  {
    if target then p.(shared := Clean(Patch(p.shared.data, patch))) else p
  }

  /** Merging a patch into clean targets and sending the diffs leaves them clean, with the merged data. */
  lemma SentPeers(g: Game, ids: seq<Id>, targets: seq<Id>, patch: Dict)
    requires forall k :: k in g.peers ==> IsClean(g.peers[k].shared)
    ensures var g' := SendPeerDiffs(g, ids, targets, MergePeers(g.peers, targets, patch)).g;
            && g' == g.(peers := g'.peers) && g'.peers.Keys == g.peers.Keys
            && (forall k :: k in g.peers ==> g'.peers[k] == Patched(g.peers[k], k in targets, patch))
  {
    var g' := SendPeerDiffs(g, ids, targets, MergePeers(g.peers, targets, patch)).g;
    forall k | k in g.peers ensures g'.peers[k] == Patched(g.peers[k], k in targets, patch) {
      MergeClean(g.peers[k].shared, patch);
    }
  }

  lemma SentMerge(g: Game, ids: seq<Id>, targets: seq<Id>, patch: Dict)
    requires Weak(g)
    ensures var g' := SendPeerDiffs(g, ids, targets, MergePeers(Touch(g.peers, targets), targets, patch)).g;
            Weak(g') && ((forall t :: t in targets ==> t in g.peers) && Inv(g) ==> Inv(g') && Active(g') == Active(g))
  {
    var g0 := g.(peers := Touch(g.peers, targets));
    TouchWeak(g, targets);
    forall k | k in g0.peers ensures IsClean(g0.peers[k].shared) { assert PeerWeak(g0, k); }
    SentPeers(g0, ids, targets, patch);
    var g' := SendPeerDiffs(g, ids, targets, MergePeers(g0.peers, targets, patch)).g;
    assert SamePlaces(g0.peers, g'.peers);
    FrameBoth(g0, g');
    if forall t :: t in targets ==> t in g.peers { TouchHits(g.peers, targets); }
  }

  lemma DataToKeeps(g: Game, p: Id, target: Id, patch: Dict)
    requires Weak(g) && Acting(g, p)
    ensures var g' := OnDataTo(g, p, target, patch).g;
            Weak(g') && (Inv(g) ==> Inv(g') && Active(g') == Active(g))
  {
    if RelayRefusal(g, p) == "" {
      var l := g.peers[p].lobbyId;
      SentMerge(g, g.lobbies[l].peerIds, [target], patch);
      if Inv(g) { assert LobbyStrong(g, l); }
    }
  }

  lemma DataToAllKeeps(g: Game, p: Id, patch: Dict)
    requires Weak(g) && Acting(g, p)
    ensures var g' := OnDataToAll(g, p, patch).g;
            Weak(g') && (Inv(g) ==> Inv(g') && Active(g') == Active(g))
  {
    if RelayRefusal(g, p) == "" {
      var l := g.peers[p].lobbyId;
      SentMerge(g, g.lobbies[l].peerIds, g.lobbies[l].peerIds, patch);
      if Inv(g) { assert LobbyStrong(g, l); }
    }
  }

  function AfterWrites(t: Tracked, ws: seq<Write>): Tracked
  {
    Clean(ApplyWrites(t, ws).data)
  }

  function PeerAfterWrites(p: Peer, q: Id, peerWrites: map<Id, seq<Write>>): Peer
  {
    if q in peerWrites then p.(shared := AfterWrites(p.shared, peerWrites[q])) else p
  }

  /** What a script call leaves behind: the written data, clean. */
  lemma CallEffect(g: Game, l: Id, lobbyWrites: seq<Write>, peerWrites: map<Id, seq<Write>>)
    requires l in g.lobbies && IsClean(g.lobbies[l].shared)
    requires forall k :: k in g.peers ==> IsClean(g.peers[k].shared)
    requires forall q :: q in g.lobbies[l].peerIds ==> q in g.peers
    requires forall q :: q in peerWrites ==> q in g.lobbies[l].peerIds
    ensures var b, g' := g.lobbies[l], NotifyChanges(Written(g, l, lobbyWrites, peerWrites), l).g;
            && g' == g.(peers := g'.peers, lobbies := g'.lobbies)
            && g'.lobbies == g.lobbies[l := b.(shared := AfterWrites(b.shared, lobbyWrites))]
            && g'.peers.Keys == g.peers.Keys
            && (forall k :: k in g.peers ==> g'.peers[k] == PeerAfterWrites(g.peers[k], k, peerWrites))
  {
    TouchHits(g.peers, g.lobbies[l].peerIds);
    var b, w := g.lobbies[l], Written(g, l, lobbyWrites, peerWrites);
    TouchHits(w.peers, b.peerIds);
    CallPeers(g, l, lobbyWrites, peerWrites);
    ScriptDiffExact(b.shared, lobbyWrites);
    var s := ApplyWrites(b.shared, lobbyWrites);
    assert w.lobbies[l] == b.(shared := s);
    assert w.lobbies[l := b.(shared := Flushed(s))] == g.lobbies[l := b.(shared := Flushed(s))];
    if !s.dirty { assert Flushed(s) == s; }
  }

  lemma CallPeers(g: Game, l: Id, lobbyWrites: seq<Write>, peerWrites: map<Id, seq<Write>>)
    requires l in g.lobbies && forall q :: q in g.lobbies[l].peerIds ==> q in g.peers
    requires forall k :: k in g.peers ==> IsClean(g.peers[k].shared)
    requires forall q :: q in peerWrites ==> q in g.lobbies[l].peerIds
    ensures var w, ids := Written(g, l, lobbyWrites, peerWrites), g.lobbies[l].peerIds;
            var peers := SendPeerDiffs(w, ids, ids, w.peers).g.peers;
            && peers.Keys == g.peers.Keys
            && (forall k :: k in g.peers ==> peers[k] == PeerAfterWrites(g.peers[k], k, peerWrites))
  {
    TouchHits(g.peers, g.lobbies[l].peerIds);
    var w, ids := Written(g, l, lobbyWrites, peerWrites), g.lobbies[l].peerIds;
    var peers := SendPeerDiffs(w, ids, ids, w.peers).g.peers;
    forall k | k in g.peers ensures peers[k] == PeerAfterWrites(g.peers[k], k, peerWrites) {
      if k in peerWrites { ScriptDiffExact(g.peers[k].shared, peerWrites[k]); }
    }
  }

  lemma CallKeeps(g: Game, p: Id, lobbyWrites: seq<Write>, peerWrites: map<Id, seq<Write>>)
    requires Inv(g) && Acting(g, p)
    requires g.peers[p].lobbyId != "" ==> forall q :: q in peerWrites ==> q in g.lobbies[g.peers[p].lobbyId].peerIds
    ensures var g' := OnCall(g, p, lobbyWrites, peerWrites).g;
            Inv(g') && Active(g') == Active(g)
  {
    var l := g.peers[p].lobbyId;
    if l != "" && g.config.scripted {
      CleanParts(g, l);
      CallEffect(g, l, lobbyWrites, peerWrites);
      var g' := NotifyChanges(Written(g, l, lobbyWrites, peerWrites), l).g;
      CallFrame(g, g', l, lobbyWrites, peerWrites);
      FrameBoth(g, g');
    }
  }

  /** The same with made-up members around. */
  lemma CallKeepsWeak(g: Game, p: Id, lobbyWrites: seq<Write>, peerWrites: map<Id, seq<Write>>)
    requires Weak(g) && Acting(g, p)
    requires g.peers[p].lobbyId != "" ==> forall q :: q in peerWrites ==> q in g.lobbies[g.peers[p].lobbyId].peerIds
    ensures Weak(OnCall(g, p, lobbyWrites, peerWrites).g)
  {
    var l := g.peers[p].lobbyId;
    if l != "" && g.config.scripted {
      var ids := g.lobbies[l].peerIds;
      var known := g.(peers := Touch(g.peers, ids));
      TouchWeak(g, ids);
      TouchHits(known.peers, ids);
      assert Written(known, l, lobbyWrites, peerWrites) == Written(g, l, lobbyWrites, peerWrites);
      assert LobbyWeak(known, l);
      forall k | k in known.peers ensures IsClean(known.peers[k].shared) { assert PeerWeak(known, k); }
      CallEffect(known, l, lobbyWrites, peerWrites);
      var g' := NotifyChanges(Written(g, l, lobbyWrites, peerWrites), l).g;
      CallFrame(known, g', l, lobbyWrites, peerWrites);
      FrameWeak(known, g');
    }
  }

  lemma CleanParts(g: Game, l: Id)
    requires Inv(g) && l in g.lobbies
    ensures IsClean(g.lobbies[l].shared)
    ensures forall k :: k in g.peers ==> IsClean(g.peers[k].shared)
    ensures forall q :: q in g.lobbies[l].peerIds ==> q in g.peers && g.peers[q].lobbyId == l
  {
    assert LobbyWeak(g, l) && LobbyStrong(g, l);
    forall k | k in g.peers ensures IsClean(g.peers[k].shared) { assert PeerWeak(g, k); }
  }

  lemma CallFrame(g: Game, g': Game, l: Id, lobbyWrites: seq<Write>, peerWrites: map<Id, seq<Write>>)
    requires l in g.lobbies
    requires g'.lobbies == g.lobbies[l := g.lobbies[l].(shared := AfterWrites(g.lobbies[l].shared, lobbyWrites))]
    requires g'.peers.Keys == g.peers.Keys
    requires forall k :: k in g.peers ==> g'.peers[k] == PeerAfterWrites(g.peers[k], k, peerWrites)
    ensures SamePlaces(g.peers, g'.peers) && SameRosters(g.lobbies, g'.lobbies)
  {
  }

  /** Only the set of listing peers changed. */
  lemma ListingKeeps(g: Game, listing: set<Id>)
    requires listing <= Active(g)
    ensures var g' := g.(listing := listing);
            Active(g') == Active(g) && (Weak(g) ==> Weak(g')) && (Inv(g) ==> Inv(g'))
  {
    var g' := g.(listing := listing);
    if Weak(g) { FrameWeak(g, g'); }
    if Strong(g) { FrameStrong(g, g'); }
  }

  lemma ListKeeps(g: Game, p: Id, order: seq<Id>)
    requires Genuine(g, p) && p in Active(g) && forall l :: l in order ==> l in g.lobbies
    ensures var g' := OnList(g, p, order).g;
            (Weak(g) ==> Weak(g')) && (Inv(g) ==> Inv(g') && Active(g') == Active(g))
  {
    var g' := OnList(g, p, order).g;
    assert g' == g.(listing := g.listing + {p});
    if Weak(g) { FrameWeak(g, g'); }
    if Inv(g) { ListingKeeps(g, g.listing + {p}); }
  }

  lemma StopListKeeps(g: Game, p: Id)
    requires Genuine(g, p)
    ensures var g' := OnStopList(g, p).g;
            (Weak(g) ==> Weak(g')) && (Inv(g) ==> Inv(g') && Active(g') == Active(g))
  {
    var g' := OnStopList(g, p).g;
    assert g' == g.(listing := g.listing - {p});
    if Weak(g) { FrameWeak(g, g'); }
    if Inv(g) { ListingKeeps(g, g.listing - {p}); }
  }

  lemma FlushKeeps(g: Game, order: seq<Id>, readers: seq<Id>)
    ensures Weak(g) ==> Weak(OnFlush(g, order, readers).g)
    ensures Inv(g) ==> Inv(OnFlush(g, order, readers).g) && Active(OnFlush(g, order, readers).g) == Active(g)
  {
    FrameBoth(g, OnFlush(g, order, readers).g);
  }

  // ----- leaving -----

  lemma LeaveKeeps(g: Game, p: Id)
    requires Weak(g) && Acting(g, p)
    ensures Weak(OnLeave(g, p).g)
    ensures Inv(g) && (g.peers[p].lobbyId != "" ==> !Orphans(g, g.peers[p].lobbyId, p)) ==>
              Inv(OnLeave(g, p).g) && Active(OnLeave(g, p).g) == Active(g)
  {
    var l := g.peers[p].lobbyId;
    if l != "" {
      assert PeerWeak(g, p);
      RemovalWeak(g, l, p, false);
      if Inv(g) && !Orphans(g, l, p) { RemovalStrong(g, l, p, false); }
    }
  }

  /** A kick never orphans anyone: the host cannot be its target. */
  lemma KickKeeps(g: Game, p: Id, target: Id, can: bool)
    requires Weak(g) && Acting(g, p)
    ensures var g' := OnKick(g, p, target, can).g;
            Weak(g') && (Inv(g) ==> Inv(g') && Active(g') == Active(g))
  {
    var l := g.peers[p].lobbyId;
    if l != "" && target in g.lobbies[l].peerIds {
      RemovalWeak(g, l, target, true);
      if Inv(g) && !Orphans(g, l, target) { RemovalStrong(g, l, target, true); }
    }
  }
}
