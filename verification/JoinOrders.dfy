/** Order ids: while a lobby lives its counter only grows, and every newcomer gets an id above all it ever gave. */
module JoinOrders {
  import opened FlatSets
  import opened AnyTypes
  import opened SharedData
  import opened GameState
  import opened Handlers
  import opened Membership
  import opened Invariants
  import opened QuickJoins
  import opened Sweep
  import opened Talks
  import opened Runs

  /** Members keep their order ids; who is new has one above the old counter. */
  ghost predicate OrderKept(g: Game, g': Game, l: Id)
    requires l in g.lobbies && l in g'.lobbies
  {
    var b, b' := g.lobbies[l], g'.lobbies[l];
    && b.orderCounter <= b'.orderCounter
    && forall q :: q in b'.peerIds ==>
         || (q in b.peerIds && At(g'.peers, q).orderId == At(g.peers, q).orderId)
         || At(g'.peers, q).orderId > b.orderCounter
  }

  ghost predicate OrdersKept(g: Game, g': Game)
  {
    forall l :: l in g.lobbies && l in g'.lobbies ==> OrderKept(g, g', l)
  }

  lemma OrderChain(g: Game, h: Game, k: Game, l: Id)
    requires l in g.lobbies && l in h.lobbies && l in k.lobbies && OrderKept(g, h, l) && OrderKept(h, k, l)
    ensures OrderKept(g, k, l)
  {
    hide At;
  }

  lemma FrameOrders(g: Game, g': Game)
    requires SamePlaces(g.peers, g'.peers) && SameRosters(g.lobbies, g'.lobbies)
    ensures OrdersKept(g, g')
  {
  }

  // ----- steps that move nobody -----

  lemma SentOrders(g: Game, ids: seq<Id>, targets: seq<Id>, patch: Dict)
    requires Inv(g) && forall t :: t in targets ==> t in g.peers
    ensures OrdersKept(g, SendPeerDiffs(g, ids, targets, MergePeers(Touch(g.peers, targets), targets, patch)).g)
  {
    hide Strong;
    TouchHits(g.peers, targets);
    forall k | k in g.peers ensures IsClean(g.peers[k].shared) { assert PeerWeak(g, k); }
    SentPeers(g, ids, targets, patch);
  }

  lemma CallOrders(g: Game, l: Id, lobbyWrites: seq<Write>, peerWrites: map<Id, seq<Write>>)
    requires Inv(g) && l in g.lobbies && forall q :: q in peerWrites ==> q in g.lobbies[l].peerIds
    ensures OrdersKept(g, NotifyChanges(Written(g, l, lobbyWrites, peerWrites), l).g)
  {
    hide Weak, Strong, ApplyWrites, NotifyChanges, Touch;
    CleanParts(g, l);
    CallEffect(g, l, lobbyWrites, peerWrites);
    var g' := NotifyChanges(Written(g, l, lobbyWrites, peerWrites), l).g;
    CallFrame(g, g', l, lobbyWrites, peerWrites);
    FrameOrders(g, g');
  }

  lemma StayOrders(g: Game, s: Step)
    requires Inv(g) && Enabled(g, s) && !Moves(s)
    ensures OrdersKept(g, Apply(g, s).g)
  {
    hide Weak, Strong, Merge, MergePeers, SendPeerDiffs, Written, NotifyChanges, Broadcast, Touch, OnTalk;
    if IsCommand(s) { InvActs(g, s.p); }
    if s.EditLobby? {
      EditOrders(g, s.p, s.edit, s.can);
    } else if s.PutDataTo? && RelayRefusal(g, s.p) == "" {
      MembersKnown(g, g.peers[s.p].lobbyId);
      if s.target in g.lobbies[g.peers[s.p].lobbyId].peerIds {
        SentOrders(g, g.lobbies[g.peers[s.p].lobbyId].peerIds, [s.target], s.patch);
      }
    } else if s.PutDataToAll? && RelayRefusal(g, s.p) == "" {
      MembersKnown(g, g.peers[s.p].lobbyId);
      SentOrders(g, g.lobbies[g.peers[s.p].lobbyId].peerIds, g.lobbies[g.peers[s.p].lobbyId].peerIds, s.patch);
    } else if s.Call? && g.peers[s.p].lobbyId != "" {
      CallOrders(g, g.peers[s.p].lobbyId, s.lobbyWrites, s.peerWrites);
    } else if s.Tell? {
      TalkKeeps(g, s.p, s.talk);
    }
  }

  lemma EditOrders(g: Game, p: Id, e: Edit, can: bool)
    requires Acting(g, p)
    ensures OrdersKept(g, OnEdit(g, p, e, can).g)
  {
    hide Broadcast;
  }

  // ----- steps that move somebody -----

  lemma PlacedOrders(g: Game, g': Game, p: Id, l: Id)
    requires Inv(g) && p in g.peers && g.peers[p].lobbyId == "" && l in g.lobbies
    requires g'.lobbies == g.lobbies[l := WithMember(g.lobbies[l], p)]
    requires g'.peers == g.peers[p := Entered(g.peers[p], g.lobbies[l])]
    ensures OrdersKept(g, g')
  {
    hide Weak, Strong, JoinOrder;
    InsertElements(g.lobbies[l].peerIds, p);
    NowhereYet(g, p);
    LobbyStands(g, l);
  }

  /** The entry of somebody in no lobby changed, and maybe a new lobby appeared. */
  lemma AsideOrders(g: Game, g': Game, p: Id, me: Peer)
    requires Inv(g) && p in g.peers && g.peers[p].lobbyId == ""
    requires g'.peers == g.peers[p := me]
    requires forall l :: l in g.lobbies && l in g'.lobbies ==> g'.lobbies[l] == g.lobbies[l]
    ensures OrdersKept(g, g')
  {
    hide Weak, Strong;
    NowhereYet(g, p);
  }

  lemma EnterOrders(g: Game, p: Id, l: Id)
    requires Inv(g) && p in g.peers && g.peers[p].lobbyId == "" && l in g.lobbies
    ensures OrdersKept(g, Enter(g, p, l).g)
  {
    hide Weak, Strong, Enter;
    EntryState(g, p, l);
    PlacedOrders(g, Enter(g, p, l).g, p, l);
  }

  lemma RemovalOrders(g: Game, l: Id, p: Id, kicked: bool)
    requires Inv(g) && l in g.lobbies && p in g.lobbies[l].peerIds && !Orphans(g, l, p)
    ensures OrdersKept(g, RemovePeer(g, l, p, kicked).g)
    ensures RemovePeer(g, l, p, kicked).g.lobbies.Keys <= g.lobbies.Keys
  {
    hide Weak, Strong, PeersAfterRemoval, LobbiesAfterRemoval, RemovalNotes, JoinOrder;
    var g' := RemovePeer(g, l, p, kicked).g;
    LobbyStands(g, l);
    RemovalPeers(g, l, p);
    RemovalLobbies(g, l, p);
    WithoutElements(g.lobbies[l].peerIds, p);
    forall m, q | m in g.lobbies && m != l && q in g.lobbies[m].peerIds ensures q !in g.lobbies[l].peerIds {
      if q in g.lobbies[l].peerIds { OneLobbyEach(g, q, l, m); }
    }
    forall m | m in g.lobbies && m in g'.lobbies ensures OrderKept(g, g', m) {
      MembersKnown(g, m);
    }
  }

  lemma LobbyStands(g: Game, l: Id)
    requires Inv(g) && l in g.lobbies
    ensures LobbyWeak(g, l) && g.lobbies[l].host in g.lobbies[l].peerIds
    ensures forall q :: q in g.lobbies[l].peerIds ==> q in g.peers && g.peers[q].lobbyId == l
  {
    assert LobbyStrong(g, l);
  }

  /** A peer already in a lobby gets nothing from quick join but, at most, its own lobby back. */
  lemma QuickJoinWhenIn(
    g: Game, p: Id, wanted: Id, a: CreateArgs, order: seq<Id>, cans: seq<bool>, can: bool)
    requires Inv(g) && p in g.peers && g.peers[p].lobbyId != ""
    ensures var g' := OnQuickJoin(g, p, wanted, a, order, cans, can).g;
            || g' == g
            || (g.peers[p].disconnected && g.peers[p].lobbyId in g.lobbies && g' == Rejoin(g, p, g.peers[p].lobbyId).g)
  {
    hide Weak, Strong, Rejoin, Enter, TryJoins;
    TryJoinsWhenIn(g, p, a, order, Later(cans));
    TryJoinsKeepsPeer(g, p, a, order, Later(cans));
  }

  lemma {:induction false} TryJoinsWhenIn(g: Game, p: Id, a: CreateArgs, order: seq<Id>, cans: seq<bool>)
    requires Inv(g) && p in g.peers && g.peers[p].lobbyId != ""
    ensures var o := TryJoins(g, p, a, order, cans);
            if o.joined then g.peers[p].disconnected && g.peers[p].lobbyId in g.lobbies &&
                             o.g == Rejoin(g, p, g.peers[p].lobbyId).g
            else o.g == g
    decreases order
  {
    hide Weak, Strong, Rejoin, Enter, Eligible, ContainsTags;
    if order != [] {
      var l := order[0];
      if l !in g.lobbies {
        TryJoinsWhenIn(g, p, a, order[1..], cans);
      } else {
        ConsideredKeeps(g, l);
        if !Eligible(g, l, a.tags) { TryJoinsWhenIn(g, p, a, order[1..], cans); }
        else { TryJoinsWhenIn(g, p, a, order[1..], Later(cans)); }
      }
    }
  }

  lemma RejoinOrders(g: Game, p: Id, l: Id)
    requires Inv(g) && p in g.peers && l in g.lobbies
    ensures OrdersKept(g, Rejoin(g, p, l).g)
  {
    hide Weak, Strong, Broadcast, PeersArray, Touch;
    MembersKnown(g, l);
    TouchHits(g.peers[p := g.peers[p].(ready := false, disconnected := false)], g.lobbies[l].peerIds);
  }

  lemma QuickJoinOrders(g: Game, s: Step)
    requires Inv(g) && Enabled(g, s) && s.QuickJoin?
    ensures OrdersKept(g, Apply(g, s).g)
  {
    hide Weak, Strong, OnQuickJoin, Rejoin, Eligible, FirstWilling, Eligibles, Entered, WithMember;
    if g.peers[s.p].lobbyId != "" {
      QuickJoinWhenIn(g, s.p, s.wanted, s.args, s.order, s.cans, s.can);
      if g.peers[s.p].lobbyId in g.lobbies { RejoinOrders(g, s.p, g.peers[s.p].lobbyId); }
    } else {
      QuickJoinState(g, s.p, s.wanted, s.args, s.order, s.cans, s.can);
      var g' := Apply(g, s).g;
      match FirstWilling(Eligibles(g, s.order, s.args.tags), s.args.password, s.cans)
      case Chosen(l) => PlacedOrders(g, g', s.p, l);
      case Nobody => {
        assert g.peers == g.peers[s.p := g.peers[s.p]];
        AsideOrders(g, g', s.p, g'.peers[s.p]);
      }
    }
  }

  lemma JoinOrdersKept(g: Game, s: Step)
    requires Inv(g) && Enabled(g, s) && s.Join?
    ensures OrdersKept(g, Apply(g, s).g)
  {
    hide Weak, Strong, Rejoin, Enter;
    var l := if g.peers[s.p].disconnected && g.peers[s.p].lobbyId != "" then g.peers[s.p].lobbyId else s.wanted;
    if l in g.lobbies {
      RejoinOrders(g, s.p, l);
      if g.peers[s.p].lobbyId == "" { EnterOrders(g, s.p, l); }
    }
  }

  lemma CreateOrders(g: Game, s: Step)
    requires Inv(g) && Enabled(g, s) && s.Create?
    ensures OrdersKept(g, Apply(g, s).g)
  {
    hide Weak, Strong, OnCreate;
    var g' := Apply(g, s).g;
    if g.peers[s.p].lobbyId == "" {
      CreateEffect(g, s.p, s.args, s.can);
      assert g.peers == g.peers[s.p := g.peers[s.p]];
      AsideOrders(g, g', s.p, g'.peers[s.p]);
    } else {
      CreateRefused(g, s.p, s.args, s.can);
    }
  }

  lemma CreateRefused(g: Game, p: Id, a: CreateArgs, can: bool)
    requires p in g.peers && g.peers[p].lobbyId != ""
    ensures OnCreate(g, p, a, can).g == g
  {
  }

  lemma LeaveOrders(g: Game, s: Step)
    requires Inv(g) && Enabled(g, s) && Settled(g, s) && (s.Leave? || s.Kick?)
    ensures OrdersKept(g, Apply(g, s).g)
  {
    hide Weak, Strong, RemovePeer, OrdersKept;
    SameOrders(g);
    InvActs(g, s.p);
    var l := g.peers[s.p].lobbyId;
    if s.Leave? && l != "" {
      RemovalOrders(g, l, s.p, false);
    } else if s.Kick? && l != "" && s.target in g.lobbies[l].peerIds && s.target != s.p {
      if g.lobbies[l].host == s.p { RemovalOrders(g, l, s.target, true); }
    }
  }

  lemma SameOrders(g: Game)
    ensures OrdersKept(g, g)
  {
  }

  lemma ConnectionOrders(g: Game, s: Step)
    requires Inv(g) && Enabled(g, s) && (s.Connect? || s.Close?)
    ensures OrdersKept(g, Apply(g, s).g)
  {
    hide Weak, Strong, Broadcast;
    forall l | l in g.lobbies ensures forall q :: q in g.lobbies[l].peerIds ==> q in g.peers { LobbyStands(g, l); }
  }

  // ----- the sweep -----

  lemma TurnOrders(g: Game, s: SweepState, p: Id, now: int, limit: int)
    requires Onward(g, s) && OrdersKept(g, s.g) && s.g.lobbies.Keys <= g.lobbies.Keys && p in g.disconnected
    requires Housed(s.g, p) && Expired(s.g, p, now, limit) ==> !Orphans(s.g, s.g.peers[p].lobbyId, p)
    ensures var s' := SweepOne(s, p, now, limit);
            OrdersKept(g, s'.g) && s'.g.lobbies.Keys <= g.lobbies.Keys
  {
    hide Weak, Strong, RemovePeer, OrderKept;
    var s' := SweepOne(s, p, now, limit);
    SameOrders(s.g);
    if p in s.g.peers {
      WeakActs(s.g, p);
      Self'(s.g, p);
      if !Housed(s.g, p) {
        AsideOrders(s.g, s'.g, p, LeaveLobby(s.g.peers[p]));
      } else if Expired(s.g, p, now, limit) {
        RemovalOrders(s.g, s.g.peers[p].lobbyId, p, true);
      }
    }
    forall l | l in g.lobbies && l in s'.g.lobbies ensures OrderKept(g, s'.g, l) {
      assert l in s.g.lobbies;
      OrderChain(g, s.g, s'.g, l);
    }
  }

  lemma Self'(g: Game, p: Id)
    requires Inv(g) && p in g.peers
    ensures g.peers[p].id == p && "" !in g.lobbies
  {
    assert PeerStrong(g, p);
    NoEmptyId(g);
  }

  lemma {:induction false} LoopOrders(g: Game, order: seq<Id>, now: int, limit: int)
    requires Inv(g) && (forall p :: p in order ==> p in g.disconnected) && SweepSafe(g, order, now, limit)
    ensures var s := SweepLoop(g, order, now, limit);
            OrdersKept(g, s.g) && s.g.lobbies.Keys <= g.lobbies.Keys
  {
    hide Weak, Strong, SweepOne, OrdersKept;
    SameOrders(g);
    if order != [] {
      var n := |order| - 1;
      LoopOrders(g, order[..n], now, limit);
      LoopOnward(g, order[..n], now, limit);
      TurnOrders(g, SweepLoop(g, order[..n], now, limit), order[n], now, limit);
    }
  }

  lemma SweepOrders(g: Game, s: Step)
    requires Inv(g) && Enabled(g, s) && Settled(g, s) && s.Sweep?
    ensures OrdersKept(g, Apply(g, s).g)
  {
    hide Weak, Strong, SweepLoop;
    LoopOrders(g, s.order, s.now, s.limit);
    LoopOnward(g, s.order, s.now, s.limit);
    ErasedOrders(g, SweepLoop(g, s.order, s.now, s.limit));
  }

  lemma ErasedOrders(g: Game, s: SweepState)
    requires Onward(g, s) && OrdersKept(g, s.g)
    ensures OrdersKept(g, Erase(s.g, s.erased))
  {
    hide Weak, Strong;
    forall l, q | l in s.g.lobbies && q in s.g.lobbies[l].peerIds ensures q in s.g.peers && q !in s.erased {
      LobbyStands(s.g, l);
    }
  }

  // ----- every step, every run -----

  lemma StepOrders(g: Game, s: Step)
    requires Inv(g) && Enabled(g, s) && Settled(g, s)
    ensures OrdersKept(g, Apply(g, s).g)
  {
    hide Inv, Enabled, Settled, Apply, OrdersKept;
    match s
    case Connect(_) => ConnectionOrders(g, s);
    case Close(_, _) => ConnectionOrders(g, s);
    case Create(_, _, _) => CreateOrders(g, s);
    case Join(_, _, _, _) => JoinOrdersKept(g, s);
    case QuickJoin(_, _, _, _, _, _) => QuickJoinOrders(g, s);
    case Leave(_) => LeaveOrders(g, s);
    case Kick(_, _, _) => LeaveOrders(g, s);
    case Sweep(_, _, _) => SweepOrders(g, s);
    case _ => StayOrders(g, s);
  }

  /** The lobby is there all along. */
  ghost predicate Lives(g: Game, steps: seq<Step>, l: Id)
    requires Legal(g, steps)
  {
    && l in After(g, steps).lobbies
    && (steps != [] ==> Lives(g, steps[..|steps| - 1], l))
  }

  /**
   No order id is used twice in a lobby's life: whatever happens, at any later time a member either still has the id it
   had, or one above all that were given out before.
   */
  lemma {:induction false} OrderIdsNeverReused(g: Game, steps: seq<Step>, l: Id)
    requires Inv(g) && Legal(g, steps) && AllSettled(g, steps) && Lives(g, steps, l)
    ensures Inv(After(g, steps)) && l in g.lobbies && OrderKept(g, After(g, steps), l)
    ensures forall q :: q in g.lobbies[l].orderedIds ==> At(g.peers, q).orderId <= g.lobbies[l].orderCounter
  {
    hide Weak, Strong, OrderKept;
    if steps == [] {
      SameOrders(g);
      Bounded(g, l);
    } else {
      var n := |steps| - 1;
      OrderIdsNeverReused(g, steps[..n], l);
      var h := After(g, steps[..n]);
      StepKeepsInv(h, steps[n]);
      StepOrders(h, steps[n]);
      OrderChain(g, h, After(g, steps), l);
    }
  }

  lemma Bounded(g: Game, l: Id)
    requires Inv(g) && l in g.lobbies
    ensures forall q :: q in g.lobbies[l].orderedIds ==> At(g.peers, q).orderId <= g.lobbies[l].orderCounter
  {
    assert LobbyStrong(g, l);
  }
}
