/**
 The redundant views of who is where: `peer.lobby_id`, `lobby.peer_ids`, `lobby.peer_ordered_ids`, `lobby.host`.
 `Weak` holds in every mode; `Strong` adds what holds until a relay host without `disband_on_leave` walks out on others.
 */
module Membership {
  import opened FlatSets
  import opened AnyTypes
  import opened SharedData
  import opened GameState
  import opened Handlers

  // ----- the invariants -----

  /** An entry that was really connected, or one that `operator[]` made up, which is in no lobby. */
  ghost predicate PeerWeak(g: Game, k: Id)
    requires k in g.peers
  {
    var p := g.peers[k];
    && ((p.id == k && k != "") || (p.id == "" && p.lobbyId == ""))
    && (p.lobbyId != "" ==> p.lobbyId in g.lobbies && k in g.lobbies[p.lobbyId].peerIds)
    && IsClean(p.shared)
  }

  ghost predicate LobbyWeak(g: Game, l: Id)
    requires l in g.lobbies
  {
    var b := g.lobbies[l];
    && l != "" && b.id == l
    && Sorted(b.peerIds) && b.peerIds != []
    && b.maxPlayers != 0 && |b.peerIds| <= U64(b.maxPlayers)
    && IsClean(b.shared)
  }

  ghost predicate Weak(g: Game)
  {
    && (forall k :: k in g.peers ==> PeerWeak(g, k))
    && (forall l :: l in g.lobbies ==> LobbyWeak(g, l))
  }

  ghost predicate PeerStrong(g: Game, k: Id)
    requires k in g.peers
  {
    g.peers[k].id == k && k != "" && (g.peers[k].lobbyId == "" ==> g.peers[k].orderId == 0)
  }

  /** `peer_ordered_ids` holds the members once each, by strictly increasing order id up to the counter. */
  ghost predicate JoinOrder(peers: map<Id, Peer>, b: Lobby)
  {
    && (forall x :: x in b.orderedIds <==> x in b.peerIds)
    && (forall i, j :: 0 <= i < j < |b.orderedIds| ==>
          At(peers, b.orderedIds[i]).orderId < At(peers, b.orderedIds[j]).orderId)
    && (forall i :: 0 <= i < |b.orderedIds| ==> 0 <= At(peers, b.orderedIds[i]).orderId <= b.orderCounter)
    && b.orderCounter >= 0
  }

  ghost predicate LobbyStrong(g: Game, l: Id)
    requires l in g.lobbies
  {
    var b := g.lobbies[l];
    && b.host in b.peerIds
    && (forall q :: q in b.peerIds ==> q in g.peers && g.peers[q].lobbyId == l)
    && JoinOrder(g.peers, b)
  }

  ghost predicate Strong(g: Game)
  {
    && (forall k :: k in g.peers ==> PeerStrong(g, k))
    && (forall l :: l in g.lobbies ==> LobbyStrong(g, l))
    && g.disconnected.Keys <= g.peers.Keys
    && g.listing <= Active(g)
  }

  ghost predicate Inv(g: Game)
  {
    Weak(g) && Strong(g)
  }

  /** The peers the game believes are connected. */
  function Active(g: Game): set<Id>
  {
    g.peers.Keys - g.disconnected.Keys
  }

  /** Two-way membership, as a reader of the data model would state it. */
  ghost predicate Agreement(g: Game)
  {
    && (forall k :: k in g.peers && g.peers[k].lobbyId != "" ==>
          g.peers[k].lobbyId in g.lobbies && k in g.lobbies[g.peers[k].lobbyId].peerIds)
    && (forall l, q :: l in g.lobbies && q in g.lobbies[l].peerIds ==> q in g.peers && g.peers[q].lobbyId == l)
    && (forall l :: l in g.lobbies ==> g.lobbies[l].host in g.lobbies[l].peerIds)
  }

  lemma InvGivesAgreement(g: Game)
    requires Inv(g)
    ensures Agreement(g)
  {
    forall k | k in g.peers ensures PeerWeak(g, k) {}
    forall l | l in g.lobbies ensures LobbyStrong(g, l) {}
  }

  /** A peer is a member of at most one lobby. */
  lemma OneLobbyEach(g: Game, p: Id, l: Id, m: Id)
    requires Inv(g) && l in g.lobbies && m in g.lobbies
    requires p in g.lobbies[l].peerIds && p in g.lobbies[m].peerIds
    ensures l == m
  {
    assert LobbyStrong(g, l) && LobbyStrong(g, m);
  }

  // ----- frames: steps that move nobody -----

  lemma TouchHits(peers: map<Id, Peer>, ids: seq<Id>)
    requires forall x :: x in ids ==> x in peers
    ensures Touch(peers, ids) == peers
  {
    assert peers.Keys + (set x | x in ids) == peers.Keys;
  }

  ghost predicate SamePlaces(a: map<Id, Peer>, b: map<Id, Peer>)
  {
    && a.Keys == b.Keys
    && forall k :: k in a ==> a[k].id == b[k].id && a[k].lobbyId == b[k].lobbyId && a[k].orderId == b[k].orderId &&
                              (IsClean(a[k].shared) ==> IsClean(b[k].shared))
  }

  ghost predicate SameRosters(a: map<Id, Lobby>, b: map<Id, Lobby>)
  {
    && a.Keys == b.Keys
    && forall l :: l in a ==>
         && a[l].id == b[l].id && a[l].host == b[l].host && a[l].peerIds == b[l].peerIds
         && a[l].orderedIds == b[l].orderedIds && a[l].orderCounter == b[l].orderCounter
         && (a[l].maxPlayers == b[l].maxPlayers || |b[l].peerIds| <= U64(b[l].maxPlayers))
         && (IsClean(a[l].shared) ==> IsClean(b[l].shared))
  }

  lemma FrameWeak(g: Game, g': Game)
    requires SamePlaces(g.peers, g'.peers) && SameRosters(g.lobbies, g'.lobbies)
    requires Weak(g)
    ensures Weak(g')
  {
    forall k | k in g'.peers ensures PeerWeak(g', k) {
      assert k in g.peers && PeerWeak(g, k);
    }
    forall l | l in g'.lobbies ensures LobbyWeak(g', l) {
      assert l in g.lobbies && LobbyWeak(g, l);
    }
  }

  lemma FrameJoinOrder(peers: map<Id, Peer>, peers': map<Id, Peer>, b: Lobby, b': Lobby)
    requires JoinOrder(peers, b)
    requires forall x :: x in b.orderedIds ==> At(peers', x).orderId == At(peers, x).orderId
    requires b'.orderedIds == b.orderedIds && b'.orderCounter == b.orderCounter && b'.peerIds == b.peerIds
    ensures JoinOrder(peers', b')
  {
  }

  /** A lobby whose record and members' places are untouched. */
  lemma SameLobby(g: Game, g': Game, m: Id)
    requires m in g.lobbies && m in g'.lobbies && g'.lobbies[m] == g.lobbies[m] && LobbyStrong(g, m)
    requires forall q :: q in g.lobbies[m].peerIds ==>
               q in g'.peers && g'.peers[q].lobbyId == g.peers[q].lobbyId && g'.peers[q].orderId == g.peers[q].orderId
    ensures LobbyStrong(g', m)
  {
    FrameJoinOrder(g.peers, g'.peers, g.lobbies[m], g'.lobbies[m]);
  }

  lemma FrameStrong(g: Game, g': Game)
    requires SamePlaces(g.peers, g'.peers) && SameRosters(g.lobbies, g'.lobbies)
    requires Strong(g) && g'.disconnected.Keys <= g'.peers.Keys && g'.listing <= Active(g')
    ensures Strong(g')
  {
    forall k | k in g'.peers ensures PeerStrong(g', k) {
      assert k in g.peers && PeerStrong(g, k);
    }
    forall l | l in g'.lobbies ensures LobbyStrong(g', l) {
      assert l in g.lobbies && LobbyStrong(g, l);
      FrameJoinOrder(g.peers, g'.peers, g.lobbies[l], g'.lobbies[l]);
    }
  }

  /** Default insertions keep the weak invariant: a made-up entry is in no lobby. */
  lemma TouchWeak(g: Game, ids: seq<Id>)
    requires Weak(g)
    ensures Weak(g.(peers := Touch(g.peers, ids)))
  {
    var g' := g.(peers := Touch(g.peers, ids));
    forall k | k in g'.peers ensures PeerWeak(g', k) {
      if k in g.peers { assert PeerWeak(g, k); }
    }
    forall l | l in g'.lobbies ensures LobbyWeak(g', l) { assert LobbyWeak(g, l); }
  }

  // ----- removal -----

  /** The one branch that leaves a lobby standing without a way back from its members. */
  predicate Orphans(g: Game, l: Id, p: Id)
    requires l in g.lobbies
  {
    var b := g.lobbies[l];
    p == b.host && !g.config.scripted && !g.config.disbandOnLeave && |b.peerIds| >= 2
  }

  lemma RemovalPeerWeak(g: Game, l: Id, p: Id, kicked: bool, k: Id)
    requires Weak(g) && l in g.lobbies && k in RemovePeer(g, l, p, kicked).g.peers
    ensures PeerWeak(RemovePeer(g, l, p, kicked).g, k)
  {
    hide RemovalNotes, FirstOther;
    assert LobbyWeak(g, l);
    WithoutElements(g.lobbies[l].peerIds, p);
    if k in g.peers { assert PeerWeak(g, k); }
  }

  lemma RemovalLobbyWeak(g: Game, l: Id, p: Id, kicked: bool, m: Id)
    requires Weak(g) && l in g.lobbies && m in RemovePeer(g, l, p, kicked).g.lobbies
    ensures LobbyWeak(RemovePeer(g, l, p, kicked).g, m)
  {
    hide RemovalNotes, PeersAfterRemoval, FirstOther, PeerWeak;
    assert LobbyWeak(g, l) && LobbyWeak(g, m);
    WithoutElements(g.lobbies[l].peerIds, p);
    WithoutSorted(g.lobbies[l].peerIds, p);
  }

  lemma RemovalWeak(g: Game, l: Id, p: Id, kicked: bool)
    requires Weak(g) && l in g.lobbies
    ensures Weak(RemovePeer(g, l, p, kicked).g)
  {
    hide RemovePeer, PeerWeak, LobbyWeak;
    var g' := RemovePeer(g, l, p, kicked).g;
    forall k | k in g'.peers ensures PeerWeak(g', k) { RemovalPeerWeak(g, l, p, kicked, k); }
    forall m | m in g'.lobbies ensures LobbyWeak(g', m) { RemovalLobbyWeak(g, l, p, kicked, m); }
  }

  lemma {:induction false} WithoutIncreasing(ids: seq<Id>, x: Id, peers: map<Id, Peer>, peers': map<Id, Peer>)
    requires forall i, j :: 0 <= i < j < |ids| ==> At(peers, ids[i]).orderId < At(peers, ids[j]).orderId
    requires forall y :: y in ids && y != x ==> At(peers', y).orderId == At(peers, y).orderId
    ensures var r := Without(ids, x);
            forall i, j :: 0 <= i < j < |r| ==> At(peers', r[i]).orderId < At(peers', r[j]).orderId
  {
    if ids != [] {
      WithoutIncreasing(ids[1..], x, peers, peers');
      if ids[0] != x {
        var t := Without(ids[1..], x);
        WithoutElements(ids[1..], x);
        forall j | 0 <= j < |t| ensures At(peers', ids[0]).orderId < At(peers', t[j]).orderId {
          assert t[j] in t;
          var k :| 0 <= k < |ids[1..]| && ids[1..][k] == t[j];
          assert ids[k + 1] == t[j];
        }
      }
    }
  }

  lemma RemovalShrinks(ids: seq<Id>, p: Id)
    requires Sorted(ids) && p in ids
    ensures Without(ids, p) == [] <==> |ids| == 1
  {
    SortedNoDup(ids);
    WithoutElements(ids, p);
    if |ids| == 1 {
      assert Without(ids, p) == Without(ids[1..], p) == [];
    } else {
      var q := if ids[0] == p then ids[1] else ids[0];
      assert q in ids && q != p;
      assert q in Without(ids, p);
    }
  }

  lemma RemovalPeers(g: Game, l: Id, p: Id)
    requires l in g.lobbies && p in g.lobbies[l].peerIds
    requires forall q :: q in g.lobbies[l].peerIds ==> q in g.peers
    ensures var b, peers := g.lobbies[l], PeersAfterRemoval(g, g.lobbies[l], p);
            && peers.Keys == g.peers.Keys
            && (forall q :: q in g.peers && q !in b.peerIds ==> peers[q] == g.peers[q])
            && (Disbands(g, b, p) ==> forall q :: q in b.peerIds ==> peers[q] == LeaveLobby(g.peers[q]))
            && (!Disbands(g, b, p) ==> peers == g.peers[p := LeaveLobby(g.peers[p])])
  {
    TouchHits(g.peers, g.lobbies[l].peerIds + [p]);
  }

  lemma RemovalLobbies(g: Game, l: Id, p: Id)
    requires l in g.lobbies && p in g.lobbies[l].peerIds && !Orphans(g, l, p)
    requires LobbyWeak(g, l) && g.lobbies[l].host in g.lobbies[l].peerIds
    ensures LobbiesAfterRemoval(g, l, p) ==
            if Disbands(g, g.lobbies[l], p) then g.lobbies - {l}
            else g.lobbies[l := LobbyAfterRemoval(g, g.lobbies[l], p)]
    ensures !Disbands(g, g.lobbies[l], p) ==> |g.lobbies[l].peerIds| >= 2
  {
    var b := g.lobbies[l];
    RemovalShrinks(b.peerIds, p);
    if |b.peerIds| == 1 { assert b.host == b.peerIds[0] == p; }
    assert g.lobbies[l := LobbyAfterRemoval(g, b, p)] - {l} == g.lobbies - {l};
  }

  lemma RemovalOtherLobby(g: Game, l: Id, p: Id, kicked: bool, m: Id)
    requires Inv(g) && l in g.lobbies && p in g.lobbies[l].peerIds && !Orphans(g, l, p)
    requires m in g.lobbies && m != l
    ensures var g' := RemovePeer(g, l, p, kicked).g;
            m in g'.lobbies && LobbyStrong(g', m)
  {
    var g' := RemovePeer(g, l, p, kicked).g;
    assert LobbyStrong(g, m) && LobbyStrong(g, l) && LobbyWeak(g, l);
    RemovalPeers(g, l, p);
    RemovalLobbies(g, l, p);
    forall q | q in g.lobbies[m].peerIds ensures g'.peers[q] == g.peers[q] {
      if q in g.lobbies[l].peerIds { OneLobbyEach(g, q, l, m); }
    }
    SameLobby(g, g', m);
  }

  lemma RemovalOwnLobby(g: Game, l: Id, p: Id, kicked: bool)
    requires Inv(g) && l in g.lobbies && p in g.lobbies[l].peerIds && !Orphans(g, l, p)
    requires !Disbands(g, g.lobbies[l], p)
    ensures var g' := RemovePeer(g, l, p, kicked).g;
            l in g'.lobbies && LobbyStrong(g', l)
  {
    var b, g' := g.lobbies[l], RemovePeer(g, l, p, kicked).g;
    assert LobbyStrong(g, l) && LobbyWeak(g, l);
    RemovalPeers(g, l, p);
    RemovalLobbies(g, l, p);
    var b' := g'.lobbies[l];
    assert b' == LobbyAfterRemoval(g, b, p);
    WithoutElements(b.peerIds, p);
    if p == b.host { FirstOtherExists(b.peerIds, p); }
    RemovalJoinOrder(g.peers, g'.peers, b, b', p);
  }

  lemma RemovalJoinOrder(peers: map<Id, Peer>, peers': map<Id, Peer>, b: Lobby, b': Lobby, p: Id)
    requires JoinOrder(peers, b)
    requires b'.orderedIds == Without(b.orderedIds, p) && b'.peerIds == Without(b.peerIds, p)
    requires b'.orderCounter == b.orderCounter
    requires forall x :: x in b.orderedIds && x != p ==> At(peers', x).orderId == At(peers, x).orderId
    ensures JoinOrder(peers', b')
  {
    WithoutElements(b.peerIds, p);
    WithoutElements(b.orderedIds, p);
    WithoutIncreasing(b.orderedIds, p, peers, peers');
    forall i | 0 <= i < |b'.orderedIds|
      ensures 0 <= At(peers', b'.orderedIds[i]).orderId <= b'.orderCounter
    {
      assert b'.orderedIds[i] in b'.orderedIds;
      var j :| 0 <= j < |b.orderedIds| && b.orderedIds[j] == b'.orderedIds[i];
    }
  }

  lemma RemovalStrong(g: Game, l: Id, p: Id, kicked: bool)
    requires Inv(g) && l in g.lobbies && p in g.lobbies[l].peerIds && !Orphans(g, l, p)
    ensures Strong(RemovePeer(g, l, p, kicked).g)
    ensures Active(RemovePeer(g, l, p, kicked).g) == Active(g)
  {
    hide RemovalNotes, PeersAfterRemoval, LobbiesAfterRemoval, JoinOrder;
    var b, g' := g.lobbies[l], RemovePeer(g, l, p, kicked).g;
    assert LobbyStrong(g, l) && LobbyWeak(g, l);
    RemovalPeers(g, l, p);
    RemovalLobbies(g, l, p);
    forall k | k in g'.peers ensures PeerStrong(g', k) { assert PeerStrong(g, k); }
    forall m | m in g'.lobbies ensures LobbyStrong(g', m) {
      if m != l {
        RemovalOtherLobby(g, l, p, kicked, m);
      } else {
        RemovalOwnLobby(g, l, p, kicked);
      }
    }
  }

  lemma FirstOtherExists(ids: seq<Id>, p: Id)
    requires Sorted(ids) && |ids| >= 2
    ensures FirstOther(ids, p) in ids && FirstOther(ids, p) != p
  {
    SortedNoDup(ids);
    var q := if ids[0] == p then ids[1] else ids[0];
    assert q in ids && q != p;
    FirstOtherIsLeast(ids, p);
  }

  /**
   Removing a member keeps two-way membership exactly when it does not take the orphaning branch: a relay host,
   without `disband_on_leave`, that leaves other members behind.
   */
  lemma RemovalAgreesIff(g: Game, l: Id, p: Id, kicked: bool)
    requires Inv(g) && l in g.lobbies && p in g.lobbies[l].peerIds
    ensures var g' := RemovePeer(g, l, p, kicked).g;
            && (Agreement(g') <==> !Orphans(g, l, p))
            && (Inv(g') <==> !Orphans(g, l, p))
  {
    var b, g' := g.lobbies[l], RemovePeer(g, l, p, kicked).g;
    if !Orphans(g, l, p) {
      RemovalWeak(g, l, p, kicked);
      RemovalStrong(g, l, p, kicked);
      InvGivesAgreement(g');
    } else {
      assert LobbyWeak(g, l) && LobbyStrong(g, l);
      FirstOtherExists(b.peerIds, p);
      WithoutElements(b.peerIds, p);
      var q := FirstOther(b.peerIds, p);
      assert l in g'.lobbies && q in g'.lobbies[l].peerIds && g'.peers[q].lobbyId == "";
      assert !LobbyStrong(g', l) && !Agreement(g');
    }
  }

  /** After that branch the lobby still lists every member it put out, and its host is no member. */
  lemma OrphanedLobby(g: Game, l: Id, p: Id, kicked: bool)
    requires Inv(g) && l in g.lobbies && Orphans(g, l, p)
    ensures var g' := RemovePeer(g, l, p, kicked).g;
            && l in g'.lobbies && g'.lobbies[l].host == p && p !in g'.lobbies[l].peerIds
            && (forall q :: q in g.lobbies[l].peerIds && q != p ==>
                  q in g'.lobbies[l].peerIds && g'.peers[q].lobbyId == "")
  {
    assert LobbyStrong(g, l) && LobbyWeak(g, l);
    FirstOtherExists(g.lobbies[l].peerIds, p);
    WithoutElements(g.lobbies[l].peerIds, p);
  }

  /** Removal inserts made-up entries exactly when the roster names a peer the game no longer has. */
  lemma RemovalKeysIff(g: Game, l: Id, p: Id, kicked: bool)
    requires l in g.lobbies
    ensures RemovePeer(g, l, p, kicked).g.peers.Keys == g.peers.Keys <==>
            forall q :: q in g.lobbies[l].peerIds + [p] ==> q in g.peers
  {
    var ids := g.lobbies[l].peerIds + [p];
    var g' := RemovePeer(g, l, p, kicked).g;
    assert g'.peers.Keys == g.peers.Keys + (set x | x in ids);
    if g'.peers.Keys == g.peers.Keys {
      forall q | q in ids ensures q in g.peers { assert q in g'.peers.Keys; }
    }
  }
}
