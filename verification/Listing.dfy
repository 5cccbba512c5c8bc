/** The incremental lobby list: in every mode, what a subscriber has upserted is the current list. */
module Listing {
  import opened FlatSets
  import opened AnyTypes
  import opened SharedData
  import opened GameState
  import opened Handlers
  import opened Membership
  import opened Invariants
  import opened Sweep
  import opened Runs

  // ----- the subscriber -----

  /** `complete`: the first list held every visible lobby; `own`: the lobby the subscriber was in then. */
  datatype ListView = NotListing | Listing(known: map<Id, Summary>, complete: bool, own: Id)

  /** A list message is a sequence of upserts; an entry with only an id deletes. */
  function Upserts(known: map<Id, Summary>, items: seq<Item>): map<Id, Summary>
  {
    if items == [] then known
    else
      var k := Upserts(known, items[..|items| - 1]);
      match items[|items| - 1]
      case Entry(s) => k[s.id := s]
      case Gone(id) => k - {id}
  }

  function LearnList(v: ListView, n: Note): ListView
  {
    match n
    case LobbyList(items) => if v.Listing? then v.(known := Upserts(v.known, items)) else v
    case StopListing => NotListing
    case _ => v
  }

  function DeliverList(v: ListView, outs: seq<Out>, c: Id): ListView
  {
    if outs == [] then v
    else
      var n := |outs| - 1;
      var w := DeliverList(v, outs[..n], c);
      if outs[n].to == c then LearnList(w, outs[n].note) else w
  }

  /** What the subscriber holds of one lobby. */
  predicate EntryRight(g: Game, v: ListView, l: Id)
    requires v.Listing?
  {
    if l !in g.lobbies then l !in v.known
    else if !g.lobbies[l].sealed then l in v.known && v.known[l] == SummaryOf(g.lobbies[l])
    else l in v.known ==> l == v.own && v.known[l] == SummaryOf(g.lobbies[l])
  }

  ghost predicate ListInStep(g: Game, c: Id, v: ListView)
  {
    && (c in g.listing <==> v.Listing?)
    && (v.Listing? && v.complete ==> forall l :: l !in g.updated ==> EntryRight(g, v, l))
  }

  // ----- steps that do not concern the list -----

  predicate QuietNote(n: Note)
  {
    !n.LobbyList? && !n.StopListing?
  }

  ghost predicate Quiet(outs: seq<Out>)
  {
    forall i :: 0 <= i < |outs| ==> QuietNote(outs[i].note)
  }

  /** Every lobby whose listing entry changed is marked updated. */
  ghost predicate Marks(g: Game, g': Game)
  {
    && g.updated <= g'.updated
    && forall l :: l !in g'.updated ==>
         && (l in g.lobbies <==> l in g'.lobbies)
         && (l in g.lobbies ==> SummaryOf(g'.lobbies[l]) == SummaryOf(g.lobbies[l]))
  }

  /** Nobody known is lost. */
  ghost predicate Grows(g: Game, g': Game)
  {
    g.peers.Keys <= g'.peers.Keys && g'.disconnected == g.disconnected && g'.listing == g.listing
  }

  ghost predicate Ordinary(g: Game, g': Game, outs: seq<Out>)
  {
    Grows(g, g') && Marks(g, g') && Quiet(outs)
  }

  lemma {:induction false} QuietDelivery(v: ListView, outs: seq<Out>, c: Id)
    requires Quiet(outs)
    ensures DeliverList(v, outs, c) == v
  {
    if outs != [] {
      var n := |outs| - 1;
      QuietDelivery(v, outs[..n], c);
      assert QuietNote(outs[n].note);
    }
  }

  lemma OrdinaryInStep(g: Game, g': Game, outs: seq<Out>, c: Id, v: ListView)
    requires Ordinary(g, g', outs) && ListInStep(g, c, v)
    ensures ListInStep(g', c, DeliverList(v, outs, c))
  {
    hide DeliverList;
    QuietDelivery(v, outs, c);
    if v.Listing? && v.complete {
      forall l | l !in g'.updated ensures EntryRight(g', v, l) { assert EntryRight(g, v, l); }
    }
  }

  lemma {:induction false} BroadcastQuiet(off: map<Id, int>, ids: seq<Id>, skip: set<Id>, note: Note)
    requires QuietNote(note)
    ensures Quiet(Broadcast(off, ids, skip, note))
  {
    if ids != [] { BroadcastQuiet(off, ids[..|ids| - 1], skip, note); }
  }

  lemma {:induction false} DiffNotesQuiet(off: map<Id, int>, ids: seq<Id>, targets: seq<Id>, peers: map<Id, Peer>)
    ensures Quiet(DiffNotes(off, ids, targets, peers))
  {
    hide Broadcast;
    if targets != [] {
      var n := |targets| - 1;
      DiffNotesQuiet(off, ids, targets[..n], peers);
      BroadcastQuiet(off, ids, {}, DataTo(targets[n], At(peers, targets[n]).shared.diff));
    }
  }

  lemma OrdinaryTwice(g: Game, g1: Game, g2: Game, a: seq<Out>, b: seq<Out>)
    requires Ordinary(g, g1, a) && Ordinary(g1, g2, b)
    ensures Ordinary(g, g2, a + b)
  {
  }

  // ----- handler by handler -----

  lemma CreateOrdinary(g: Game, p: Id, a: CreateArgs, can: bool)
    requires p in g.peers && a.id !in g.lobbies
    ensures var o := OnCreate(g, p, a, can); Ordinary(g, o.g, o.outs)
  {
    hide PeersArray;
  }

  lemma EnterOrdinary(g: Game, p: Id, l: Id)
    requires p in g.peers && l in g.lobbies
    ensures var o := Enter(g, p, l); Ordinary(g, o.g, o.outs)
  {
    hide PeersArray, Broadcast, Insert, SortByOrder;
    var b := g.lobbies[l];
    var me := g.peers[p].(orderId := b.orderCounter + 1, lobbyId := l, disconnected := false);
    BroadcastQuiet(g.disconnected, Insert(b.peerIds, me.id), {me.id}, PeerJoined(ViewOf(me)));
  }

  lemma RejoinOrdinary(g: Game, p: Id, l: Id)
    requires p in g.peers && l in g.lobbies
    ensures var o := Rejoin(g, p, l); Ordinary(g, o.g, o.outs)
  {
    hide PeersArray, Broadcast;
    var id := g.peers[p].id;
    BroadcastQuiet(g.disconnected, g.lobbies[l].peerIds, {id}, PeerReconnected(id));
  }

  lemma JoinOrdinary(g: Game, p: Id, wanted: Id, password: string, can: bool)
    requires p in g.peers
    ensures var o := OnJoin(g, p, wanted, password, can); Ordinary(g, o.g, o.outs)
  {
    hide Enter, Rejoin;
    var me := g.peers[p];
    var again := me.disconnected && me.lobbyId != "";
    var l := if again then me.lobbyId else wanted;
    if l in g.lobbies {
      if again { RejoinOrdinary(g, p, l); } else { EnterOrdinary(g, p, l); }
    }
  }

  lemma {:induction false} TryJoinsOrdinary(g: Game, p: Id, a: CreateArgs, order: seq<Id>, cans: seq<bool>)
    requires p in g.peers
    ensures var o := TryJoins(g, p, a, order, cans); Ordinary(g, o.g, o.outs)
    decreases order
  {
    hide OnJoin, Eligible;
    if order != [] {
      var l := order[0];
      if l !in g.lobbies {
        TryJoinsOrdinary(g, p, a, order[1..], cans);
      } else {
        var g1 := Considered(g, l);
        assert Ordinary(g, g1, []);
        if !Eligible(g, l, a.tags) {
          TryJoinsOrdinary(g1, p, a, order[1..], cans);
          var rest := TryJoins(g1, p, a, order[1..], cans);
          OrdinaryTwice(g, g1, rest.g, [], rest.outs);
          assert [] + rest.outs == rest.outs;
        } else {
          JoinOrdinary(g1, p, l, a.password, Verdict(cans));
          var o := OnJoin(g1, p, l, a.password, Verdict(cans));
          OrdinaryTwice(g, g1, o.g, [], o.outs);
          assert [] + o.outs == o.outs;
          if !o.joined {
            TryJoinsOrdinary(g1, p, a, order[1..], Later(cans));
            var rest := TryJoins(g1, p, a, order[1..], Later(cans));
            assert Ordinary(g, g1, o.outs);
            OrdinaryTwice(g, g1, rest.g, o.outs, rest.outs);
          }
        }
      }
    }
  }

  lemma QuickJoinOrdinary(
    g: Game, p: Id, wanted: Id, a: CreateArgs, order: seq<Id>, cans: seq<bool>, can: bool)
    requires p in g.peers && a.id !in g.lobbies
    ensures var o := OnQuickJoin(g, p, wanted, a, order, cans, can); Ordinary(g, o.g, o.outs)
  {
    hide OnJoin, TryJoins, OnCreate;
    var inLobby := g.peers[p].lobbyId != "";
    var first := if inLobby then OnJoin(g, p, wanted, a.password, Verdict(cans)) else JoinOutcome(false, g, []);
    if inLobby { JoinOrdinary(g, p, wanted, a.password, Verdict(cans)); }
    if !first.joined {
      var later := if inLobby then Later(cans) else cans;
      assert Ordinary(g, g, first.outs);
      TryJoinsKeepsPeer(g, p, a, order, later);
      TryJoinsOrdinary(g, p, a, order, later);
      var second := TryJoins(g, p, a, order, later);
      OrdinaryTwice(g, g, second.g, first.outs, second.outs);
      if !second.joined {
        CreateOrdinary(second.g, p, a, can);
        var third := OnCreate(second.g, p, a, can);
        OrdinaryTwice(g, second.g, third.g, first.outs + second.outs, third.outs);
      }
    }
  }

  lemma RemovalQuiet(g: Game, b: Lobby, p: Id, kicked: bool)
    ensures Quiet(RemovalNotes(g, b, p, kicked))
  {
    hide Broadcast, FirstOther;
    BroadcastQuiet(g.disconnected, b.peerIds, {p}, LobbyKicked);
    BroadcastQuiet(g.disconnected, b.peerIds, {p}, PeerLeft(p, false));
    BroadcastQuiet(g.disconnected, b.peerIds, {p}, Hosted(FirstOther(b.peerIds, p)));
    BroadcastQuiet(g.disconnected, b.peerIds, if kicked then {p, b.host} else {p}, PeerLeft(p, kicked));
  }

  lemma RemovalOrdinary(g: Game, l: Id, p: Id, kicked: bool)
    requires l in g.lobbies && g.lobbies[l].id == l
    ensures var o := RemovePeer(g, l, p, kicked); Ordinary(g, o.g, o.outs)
  {
    hide RemovalNotes, LobbyAfterRemoval;
    RemovalQuiet(g, g.lobbies[l], p, kicked);
  }

  lemma LeaveOrdinary(g: Game, p: Id)
    requires Weak(g) && Acting(g, p)
    ensures var o := OnLeave(g, p); Ordinary(g, o.g, o.outs)
  {
    hide RemovePeer;
    var l := g.peers[p].lobbyId;
    if l != "" { LobbyNamed(g, l); RemovalOrdinary(g, l, g.peers[p].id, false); }
  }

  lemma LobbyNamed(g: Game, l: Id)
    requires Weak(g) && l in g.lobbies
    ensures g.lobbies[l].id == l
  {
    assert LobbyWeak(g, l);
  }

  lemma KickOrdinary(g: Game, p: Id, target: Id, can: bool)
    requires Weak(g) && Acting(g, p)
    ensures var o := OnKick(g, p, target, can); Ordinary(g, o.g, o.outs)
  {
    hide RemovePeer;
    var l := g.peers[p].lobbyId;
    if l != "" { LobbyNamed(g, l); RemovalOrdinary(g, l, target, true); }
  }

  lemma ReadyOrdinary(g: Game, p: Id, ready: bool, can: bool)
    requires Acting(g, p)
    ensures var o := OnReady(g, p, ready, can); Ordinary(g, o.g, o.outs)
  {
    hide Broadcast;
    var me := g.peers[p];
    if me.lobbyId != "" {
      BroadcastQuiet(g.disconnected, g.lobbies[me.lobbyId].peerIds, {me.id},
                     if ready then PeerReady(me.id) else PeerUnready(me.id));
    }
  }

  lemma EditOrdinary(g: Game, p: Id, e: Edit, can: bool)
    requires Weak(g) && Acting(g, p)
    ensures var o := OnEdit(g, p, e, can); Ordinary(g, o.g, o.outs)
  {
    hide Broadcast, Weak, Edits, Announced;
    var me := g.peers[p];
    if me.lobbyId != "" {
      LobbyNamed(g, me.lobbyId);
      var b := g.lobbies[me.lobbyId];
      BroadcastQuiet(g.disconnected, b.peerIds, {me.id}, Edited(Announced(Edits(b, e), e)));
    }
  }

  lemma LobbyDataOrdinary(g: Game, p: Id, patch: Dict)
    requires Acting(g, p)
    ensures var o := OnLobbyData(g, p, patch); Ordinary(g, o.g, o.outs)
  {
    hide Broadcast, Merge;
    var me := g.peers[p];
    if RelayRefusal(g, p) == "" {
      var b := g.lobbies[me.lobbyId];
      BroadcastQuiet(g.disconnected, b.peerIds, {me.id}, LobbyData(Merge(b.shared, patch).diff));
    }
  }

  lemma DiffsOrdinary(g: Game, ids: seq<Id>, targets: seq<Id>, peers: map<Id, Peer>, p: Id)
    requires g.peers.Keys <= peers.Keys
    ensures var o := SendPeerDiffs(g, ids, targets, peers);
            Ordinary(g, o.g, o.outs) && Ordinary(g, o.g, o.outs + Send(g.disconnected, p, Done))
  {
    hide DiffNotes;
    DiffNotesQuiet(g.disconnected, ids, targets, peers);
  }

  lemma DataToOrdinary(g: Game, p: Id, target: Id, patch: Dict)
    requires Acting(g, p)
    ensures var o := OnDataTo(g, p, target, patch); Ordinary(g, o.g, o.outs)
  {
    hide SendPeerDiffs, Merge;
    if RelayRefusal(g, p) == "" {
      var peers := MergePeers(Touch(g.peers, [target]), [target], patch);
      DiffsOrdinary(g, g.lobbies[g.peers[p].lobbyId].peerIds, [target], peers, g.peers[p].id);
    }
  }

  lemma DataToAllOrdinary(g: Game, p: Id, patch: Dict)
    requires Acting(g, p)
    ensures var o := OnDataToAll(g, p, patch); Ordinary(g, o.g, o.outs)
  {
    hide SendPeerDiffs, Merge;
    if RelayRefusal(g, p) == "" {
      var ids := g.lobbies[g.peers[p].lobbyId].peerIds;
      DiffsOrdinary(g, ids, ids, MergePeers(Touch(g.peers, ids), ids, patch), g.peers[p].id);
    }
  }

  lemma NotifyOrdinary(g: Game, l: Id)
    requires l in g.lobbies
    ensures var o := NotifyChanges(g, l); Ordinary(g, o.g, o.outs)
  {
    hide DiffNotes, Broadcast;
    var b := g.lobbies[l];
    DiffsOrdinary(g, b.peerIds, b.peerIds, Touch(g.peers, b.peerIds), "");
    BroadcastQuiet(g.disconnected, b.peerIds, {}, LobbyData(b.shared.diff));
  }

  lemma CallOrdinary(g: Game, p: Id, lobbyWrites: seq<Write>, peerWrites: map<Id, seq<Write>>)
    requires Acting(g, p)
    ensures var o := OnCall(g, p, lobbyWrites, peerWrites); Ordinary(g, o.g, o.outs)
  {
    hide NotifyChanges, ApplyWrites;
    var l := g.peers[p].lobbyId;
    if l != "" && g.config.scripted {
      var w := Written(g, l, lobbyWrites, peerWrites);
      assert Ordinary(g, w, []);
      NotifyOrdinary(w, l);
      var o := NotifyChanges(w, l);
      OrdinaryTwice(g, w, o.g, [], o.outs);
      assert [] + o.outs == o.outs;
    }
  }
}
