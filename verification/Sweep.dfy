/** The disconnect sweep: what it erases, what it keeps, and that two sweeps at one time reach a fixpoint. */
module Sweep {
  import opened FlatSets
  import opened SharedData
  import opened GameState
  import opened Handlers
  import opened Membership
  import opened Invariants

  predicate Expired(g: Game, p: Id, now: int, limit: int)
    requires p in g.disconnected
  {
    now - g.disconnected[p] > limit
  }

  /** At its turn the peer is known and in a live lobby. */
  predicate Housed(g: Game, p: Id)
  {
    p in g.peers && g.peers[p].lobbyId in g.lobbies
  }

  /** No removal of the sweep takes the orphaning branch. */
  predicate SweepSafe(g: Game, order: seq<Id>, now: int, limit: int)
    requires forall p :: p in order ==> p in g.disconnected
  {
    order == [] ||
    (var n := |order| - 1;
     var s, p := SweepLoop(g, order[..n], now, limit).g, order[n];
     && SweepSafe(g, order[..n], now, limit)
     && (Housed(s, p) && Expired(s, p, now, limit) ==> !Orphans(s, s.peers[p].lobbyId, p)))
  }

  lemma {:induction false} CoherentIsSafe(g: Game, order: seq<Id>, now: int, limit: int)
    requires forall p :: p in order ==> p in g.disconnected
    requires g.config.scripted || g.config.disbandOnLeave
    ensures SweepSafe(g, order, now, limit) && SweepLoop(g, order, now, limit).g.config == g.config
  {
    if order != [] { CoherentIsSafe(g, order[..|order| - 1], now, limit); }
  }

  // ----- invariants -----

  lemma {:induction false} LoopWeak(g: Game, order: seq<Id>, now: int, limit: int)
    requires Weak(g) && forall p :: p in order ==> p in g.disconnected
    ensures Weak(SweepLoop(g, order, now, limit).g)
  {
    if order != [] {
      var n := |order| - 1;
      LoopWeak(g, order[..n], now, limit);
      var s, p := SweepLoop(g, order[..n], now, limit).g, order[n];
      if p in s.peers {
        var l := s.peers[p].lobbyId;
        if l in s.lobbies {
          if Expired(s, p, now, limit) { RemovalWeak(s, l, s.peers[p].id, true); }
        } else {
          HomelessWeak(s, p);
        }
      }
    }
  }

  lemma HomelessWeak(g: Game, p: Id)
    requires Weak(g) && p in g.peers && g.peers[p].lobbyId !in g.lobbies
    ensures Weak(g.(peers := g.peers[p := LeaveLobby(g.peers[p])])) && g.peers[p].lobbyId == ""
  {
    assert PeerWeak(g, p);
    var g' := g.(peers := g.peers[p := LeaveLobby(g.peers[p])]);
    forall k | k in g'.peers ensures PeerWeak(g', k) { assert PeerWeak(g, k); }
    forall l | l in g'.lobbies ensures LobbyWeak(g', l) { assert LobbyWeak(g, l); }
  }

  /** What one turn keeps, besides the invariants. */
  ghost predicate Onward(g: Game, s: SweepState)
  {
    && Inv(s.g) && s.g.peers.Keys == g.peers.Keys && s.g.disconnected == g.disconnected
    && s.g.listing == g.listing && s.g.config == g.config
    && s.erased <= g.disconnected.Keys
    && (forall e :: e in s.erased ==> e in s.g.peers && s.g.peers[e].lobbyId == "")
  }

  lemma TurnOnward(g: Game, s: SweepState, p: Id, now: int, limit: int)
    requires Onward(g, s) && p in g.disconnected
    requires Housed(s.g, p) && Expired(s.g, p, now, limit) ==> !Orphans(s.g, s.g.peers[p].lobbyId, p)
    ensures Onward(g, SweepOne(s, p, now, limit))
  {
    assert p in s.g.peers;
    assert PeerStrong(s.g, p) && PeerWeak(s.g, p);
    if s.g.peers[p].lobbyId !in s.g.lobbies {
      HomelessOnward(g, s, p);
    } else if Expired(s.g, p, now, limit) {
      RemovalOnward(g, s, p);
    }
  }

  /** The turn of `p` led to `g'`, which is in order and in which nobody gained a lobby. */
  lemma OnwardFrom(g: Game, s: SweepState, p: Id, g': Game, outs: seq<Out>)
    requires Onward(g, s) && p in g.disconnected
    requires Inv(g') && g'.peers.Keys == s.g.peers.Keys && p in g'.peers && g'.peers[p].lobbyId == ""
    requires g'.disconnected == s.g.disconnected && g'.listing == s.g.listing && g'.config == s.g.config
    requires forall q :: q in s.g.peers && s.g.peers[q].lobbyId == "" ==> g'.peers[q].lobbyId == ""
    ensures Onward(g, SweepState(g', outs, s.erased + {p}))
  {
    hide Weak, Strong;
  }

  lemma HomelessOnward(g: Game, s: SweepState, p: Id)
    requires Onward(g, s) && p in g.disconnected && p in s.g.peers && s.g.peers[p].lobbyId == ""
    requires s.g.peers[p].orderId == 0
    ensures Onward(g, SweepState(s.g.(peers := s.g.peers[p := LeaveLobby(s.g.peers[p])]), s.outs, s.erased + {p}))
  {
    var g' := s.g.(peers := s.g.peers[p := LeaveLobby(s.g.peers[p])]);
    FrameBoth(s.g, g');
    OnwardFrom(g, s, p, g', s.outs);
  }

  lemma RemovalOnward(g: Game, s: SweepState, p: Id)
    requires Onward(g, s) && p in g.disconnected && p in s.g.peers && s.g.peers[p].lobbyId in s.g.lobbies
    requires p in s.g.lobbies[s.g.peers[p].lobbyId].peerIds && !Orphans(s.g, s.g.peers[p].lobbyId, p)
    ensures var o := RemovePeer(s.g, s.g.peers[p].lobbyId, p, true);
            Onward(g, SweepState(o.g, s.outs + o.outs, s.erased + {p}))
  {
    var l := s.g.peers[p].lobbyId;
    var o := RemovePeer(s.g, l, p, true);
    RemovalWeak(s.g, l, p, true);
    RemovalStrong(s.g, l, p, true);
    MembersKnown(s.g, l);
    RemovalClears(s.g, l, p, true);
    OnwardFrom(g, s, p, o.g, s.outs + o.outs);
  }

  lemma MembersKnown(g: Game, l: Id)
    requires Strong(g) && l in g.lobbies
    ensures forall q :: q in g.lobbies[l].peerIds ==> q in g.peers
  {
    assert LobbyStrong(g, l);
  }

  /** A removal gives nobody a lobby, and takes the leaver's. */
  lemma RemovalClears(g: Game, l: Id, p: Id, kicked: bool)
    requires l in g.lobbies && (forall q :: q in g.lobbies[l].peerIds ==> q in g.peers) && p in g.peers
    ensures var g' := RemovePeer(g, l, p, kicked).g;
            && g'.peers.Keys == g.peers.Keys && g'.peers[p].lobbyId == ""
            && forall q :: q in g.peers && g.peers[q].lobbyId == "" ==> g'.peers[q].lobbyId == ""
  {
    TouchHits(g.peers, g.lobbies[l].peerIds + [p]);
  }

  lemma {:induction false} LoopOnward(g: Game, order: seq<Id>, now: int, limit: int)
    requires Inv(g) && (forall p :: p in order ==> p in g.disconnected) && SweepSafe(g, order, now, limit)
    ensures Onward(g, SweepLoop(g, order, now, limit))
  {
    if order != [] {
      var n := |order| - 1;
      LoopOnward(g, order[..n], now, limit);
      TurnOnward(g, SweepLoop(g, order[..n], now, limit), order[n], now, limit);
    }
  }

  lemma EraseWeak(g: Game, erased: set<Id>)
    requires Weak(g)
    ensures Weak(Erase(g, erased))
  {
    var g' := Erase(g, erased);
    forall k | k in g'.peers ensures PeerWeak(g', k) { assert PeerWeak(g, k); }
    forall l | l in g'.lobbies ensures LobbyWeak(g', l) { assert LobbyWeak(g, l); }
  }

  lemma EraseStrong(g: Game, erased: set<Id>)
    requires Strong(g) && Weak(g) && erased <= g.disconnected.Keys
    requires forall e :: e in erased ==> e in g.peers && g.peers[e].lobbyId == ""
    ensures Strong(Erase(g, erased)) && Active(Erase(g, erased)) == Active(g)
  {
    var g' := Erase(g, erased);
    ErasedActive(g, erased);
    forall k | k in g'.peers ensures PeerStrong(g', k) { assert PeerStrong(g, k); }
    forall l | l in g'.lobbies ensures LobbyStrong(g', l) {
      assert LobbyStrong(g, l) && LobbyWeak(g, l);
      SameLobby(g, g', l);
    }
    assert g'.disconnected.Keys <= g'.peers.Keys && g'.listing <= Active(g');
  }

  lemma ErasedActive(g: Game, erased: set<Id>)
    requires erased <= g.disconnected.Keys
    ensures Active(Erase(g, erased)) == Active(g)
  {
    var g' := Erase(g, erased);
    assert g'.peers.Keys == g.peers.Keys - erased;
    assert g'.disconnected.Keys == g.disconnected.Keys - erased;
    assert (g.peers.Keys - erased) - (g.disconnected.Keys - erased) == g.peers.Keys - g.disconnected.Keys;
  }

  /** In every mode the lookups keep hitting; without orphaning, no lobby lists an erased id and no active peer goes. */
  lemma SweepKeeps(g: Game, order: seq<Id>, now: int, limit: int)
    requires Weak(g) && forall p :: p in order ==> p in g.disconnected
    ensures Weak(OnSweep(g, order, now, limit).g)
    ensures Inv(g) && SweepSafe(g, order, now, limit) ==>
              Inv(OnSweep(g, order, now, limit).g) && Active(OnSweep(g, order, now, limit).g) == Active(g)
  {
    var s := SweepLoop(g, order, now, limit);
    LoopWeak(g, order, now, limit);
    EraseWeak(s.g, s.erased);
    if Inv(g) && SweepSafe(g, order, now, limit) {
      LoopOnward(g, order, now, limit);
      EraseStrong(s.g, s.erased);
      assert Active(s.g) == Active(g);
    }
  }

  // ----- what is erased -----

  /** The state that the `i`-th disconnected peer finds at its turn. */
  function TurnOf(g: Game, order: seq<Id>, i: nat, now: int, limit: int): Game
    requires i <= |order| && forall p :: p in order ==> p in g.disconnected
  {
    SweepLoop(g, order[..i], now, limit).g
  }

  /** A peer is erased exactly when it is expired or finds no live lobby at its turn. */
  lemma {:induction false} ErasedIff(g: Game, order: seq<Id>, i: nat, now: int, limit: int)
    requires (forall p :: p in order ==> p in g.disconnected) && NoDup(order) && i < |order|
    ensures order[i] in SweepLoop(g, order, now, limit).erased <==>
            Expired(g, order[i], now, limit) || !Housed(TurnOf(g, order, i, now, limit), order[i])
  {
    var n := |order| - 1;
    var s := SweepLoop(g, order[..n], now, limit);
    ErasedWithin(g, order[..n], now, limit);
    if i < n {
      ErasedIff(g, order[..n], i, now, limit);
      assert order[..n][..i] == order[..i];
    }
  }

  lemma {:induction false} ErasedWithin(g: Game, order: seq<Id>, now: int, limit: int)
    requires forall p :: p in order ==> p in g.disconnected
    ensures forall e :: e in SweepLoop(g, order, now, limit).erased ==> e in order
  {
    if order != [] {
      var n := |order| - 1;
      ErasedWithin(g, order[..n], now, limit);
      assert order == order[..n] + [order[n]];
    }
  }

  /** A peer with no lobby at the start has none at its turn either. */
  lemma {:induction false} HomelessStays(g: Game, order: seq<Id>, now: int, limit: int, p: Id)
    requires Inv(g) && (forall q :: q in order ==> q in g.disconnected) && SweepSafe(g, order, now, limit)
    requires p in g.peers && g.peers[p].lobbyId == ""
    ensures !Housed(SweepLoop(g, order, now, limit).g, p)
  {
    LoopOnward(g, order, now, limit);
    LoopClears(g, order, now, limit, p);
    var s := SweepLoop(g, order, now, limit).g;
    NoEmptyId(s);
  }

  lemma NoEmptyId(g: Game)
    requires Weak(g)
    ensures "" !in g.lobbies
  {
  }

  /** Nobody gains a lobby at a turn. */
  lemma TurnClears(s: SweepState, q: Id, now: int, limit: int, p: Id)
    requires Inv(s.g) && q in s.g.disconnected && p in s.g.peers && s.g.peers[p].lobbyId == ""
    ensures var g' := SweepOne(s, q, now, limit).g; p in g'.peers && g'.peers[p].lobbyId == ""
  {
    hide RemovePeer, JoinOrder;
    if Housed(s.g, q) && Expired(s.g, q, now, limit) {
      var l := s.g.peers[q].lobbyId;
      assert LobbyStrong(s.g, l) && PeerStrong(s.g, q);
      RemovalClears(s.g, l, s.g.peers[q].id, true);
    }
  }

  lemma {:induction false} LoopClears(g: Game, order: seq<Id>, now: int, limit: int, p: Id)
    requires Inv(g) && (forall q :: q in order ==> q in g.disconnected) && SweepSafe(g, order, now, limit)
    requires p in g.peers && g.peers[p].lobbyId == ""
    ensures p in SweepLoop(g, order, now, limit).g.peers && SweepLoop(g, order, now, limit).g.peers[p].lobbyId == ""
  {
    hide SweepOne, Weak, Strong;
    if order != [] {
      var n := |order| - 1;
      LoopOnward(g, order[..n], now, limit);
      LoopClears(g, order[..n], now, limit, p);
      TurnClears(SweepLoop(g, order[..n], now, limit), order[n], now, limit, p);
    }
  }

  /**
   The sweep over all disconnected peers: every expired and every lobby-less one goes, from the peers, the
   disconnected peers and the listing; nobody else goes; and no lobby lists one that went.
   */
  lemma SweepErases(g: Game, order: seq<Id>, now: int, limit: int)
    requires Inv(g) && Enumerates(order, g.disconnected.Keys) && SweepSafe(g, order, now, limit)
    ensures var s := OnSweep(g, order, now, limit);
            && s.erased <= g.disconnected.Keys
            && s.g.peers.Keys == g.peers.Keys - s.erased
            && s.g.disconnected.Keys == g.disconnected.Keys - s.erased
            && s.g.listing !! s.erased
            && (forall p :: p in g.disconnected && (Expired(g, p, now, limit) || g.peers[p].lobbyId == "") ==>
                  p in s.erased)
            && (forall l, p :: l in s.g.lobbies && p in s.erased ==> p !in s.g.lobbies[l].peerIds)
  {
    var s := OnSweep(g, order, now, limit);
    LoopOnward(g, order, now, limit);
    SweepKeeps(g, order, now, limit);
    forall p | p in g.disconnected && (Expired(g, p, now, limit) || g.peers[p].lobbyId == "") ensures p in s.erased {
      assert p in order;
      var i :| 0 <= i < |order| && order[i] == p;
      ErasedIff(g, order, i, now, limit);
      if g.peers[p].lobbyId == "" {
        SafePrefix(g, order, i, now, limit);
        HomelessStays(g, order[..i], now, limit, p);
      }
    }
    forall l, p | l in s.g.lobbies && p in s.erased ensures p !in s.g.lobbies[l].peerIds {
      assert LobbyStrong(s.g, l);
    }
  }

  lemma {:induction false} SafePrefix(g: Game, order: seq<Id>, i: nat, now: int, limit: int)
    requires i <= |order| && (forall p :: p in order ==> p in g.disconnected) && SweepSafe(g, order, now, limit)
    ensures SweepSafe(g, order[..i], now, limit)
  {
    if i < |order| {
      var n := |order| - 1;
      SafePrefix(g, order[..n], i, now, limit);
      assert order[..n][..i] == order[..i];
    } else {
      assert order[..i] == order;
    }
  }

  // ----- fixpoint, in every mode -----

  function Homeless(g: Game, order: seq<Id>): set<Id>
  {
    set p | p in order && !Housed(g, p)
  }

  lemma HomelessMore(g: Game, order: seq<Id>, p: Id)
    ensures Homeless(g, order + [p]) == Homeless(g, order) + if Housed(g, p) then {} else {p}
    ensures p !in order ==> p !in Homeless(g, order)
  {
    hide Housed;
    forall q ensures q in Homeless(g, order + [p]) <==> q in Homeless(g, order) || (q == p && !Housed(g, p)) {}
  }

  lemma LastNew(order: seq<Id>)
    requires NoDup(order) && order != []
    ensures NoDup(order[..|order| - 1]) && order[|order| - 1] !in order[..|order| - 1]
  {
  }

  /** With nobody expired a sweep moves no lobby and sends nothing; it erases those without a live lobby. */
  lemma {:induction false} QuietLoop(g: Game, order: seq<Id>, now: int, limit: int)
    requires (forall p :: p in order ==> p in g.disconnected && !Expired(g, p, now, limit)) && NoDup(order)
    ensures var s := SweepLoop(g, order, now, limit);
            && s.g == g.(peers := s.g.peers) && s.g.peers.Keys == g.peers.Keys && s.outs == []
            && s.erased == Homeless(g, order)
            && (forall k :: k in g.peers && k !in s.erased ==> s.g.peers[k] == g.peers[k])
  {
    hide RemovePeer, LeaveLobby, NoDup;
    if order != [] {
      var n := |order| - 1;
      assert NoDup(order[..n]) && order[n] !in order[..n] by { LastNew(order); }
      QuietLoop(g, order[..n], now, limit);
      var s, p := SweepLoop(g, order[..n], now, limit), order[n];
      assert order == order[..n] + [p];
      HomelessMore(g, order[..n], p);
      assert Housed(s.g, p) == Housed(g, p);
    }
  }

  lemma OneSweepLeavesNoneExpired(g: Game, order: seq<Id>, now: int, limit: int)
    requires Enumerates(order, g.disconnected.Keys)
    ensures var g' := OnSweep(g, order, now, limit).g;
            forall p :: p in g'.disconnected ==> !Expired(g', p, now, limit)
  {
    var g' := OnSweep(g, order, now, limit).g;
    forall p | p in g'.disconnected ensures !Expired(g', p, now, limit) {
      assert p in order;
      var i :| 0 <= i < |order| && order[i] == p;
      ErasedIff(g, order, i, now, limit);
    }
  }

  /** Sweeping a game with nobody expired: those without a live lobby go, the others stay as they are. */
  lemma QuietSweep(g: Game, order: seq<Id>, now: int, limit: int)
    requires Enumerates(order, g.disconnected.Keys)
    requires forall p :: p in g.disconnected ==> !Expired(g, p, now, limit)
    ensures var s := OnSweep(g, order, now, limit);
            && s.outs == [] && s.g.lobbies == g.lobbies
            && (forall p :: p in s.erased <==> p in g.disconnected && !Housed(g, p))
            && s.g.peers == g.peers - s.erased
            && (forall p :: p in s.g.disconnected ==> !Expired(s.g, p, now, limit) && Housed(s.g, p))
            && ((forall p :: p in g.disconnected ==> Housed(g, p)) ==> s == SweepState(g, [], {}))
  {
    QuietLoop(g, order, now, limit);
    var s := SweepLoop(g, order, now, limit);
    var g' := OnSweep(g, order, now, limit).g;
    forall p | p in g'.disconnected ensures !Expired(g', p, now, limit) && Housed(g', p) {
      assert p in order && p !in s.erased;
      assert Housed(g, p);
    }
    if forall p :: p in g.disconnected ==> Housed(g, p) {
      assert s.erased == {};
      assert s.g.peers == g.peers;
      assert Erase(g, {}) == g;
    }
  }

  /** For any configuration and any iteration orders: a third sweep at the same time changes and sends nothing. */
  lemma TwoSweepsReachFixpoint(
    g: Game, first: seq<Id>, second: seq<Id>, third: seq<Id>, now: int, limit: int)
    requires Enumerates(first, g.disconnected.Keys)
    requires Enumerates(second, OnSweep(g, first, now, limit).g.disconnected.Keys)
    requires Enumerates(third, OnSweep(OnSweep(g, first, now, limit).g, second, now, limit).g.disconnected.Keys)
    ensures var g2 := OnSweep(OnSweep(g, first, now, limit).g, second, now, limit).g;
            OnSweep(g2, third, now, limit) == SweepState(g2, [], {})
  {
    var g1 := OnSweep(g, first, now, limit).g;
    OneSweepLeavesNoneExpired(g, first, now, limit);
    QuietSweep(g1, second, now, limit);
    QuietSweep(OnSweep(g1, second, now, limit).g, third, now, limit);
  }
}
