/** Rosters are flat sets and stay so, whatever happens: the one thing every run keeps without any condition. */
module Rosters {
  import opened FlatSets
  import opened AnyTypes
  import opened SharedData
  import opened GameState
  import opened Handlers
  import opened Walks
  import opened Talks
  import opened Runs

  lemma RemovalFlat(g: Game, l: Id, p: Id, kicked: bool)
    requires FlatRosters(g) && l in g.lobbies
    ensures FlatRosters(RemovePeer(g, l, p, kicked).g)
  {
    hide PeersAfterRemoval, RemovalNotes, Sorted, FirstOther;
    WithoutSorted(g.lobbies[l].peerIds, p);
  }

  lemma SoughtFlat(g: Game, l: Id)
    requires FlatRosters(g)
    ensures FlatRosters(Sought(g, l))
  {
  }

  lemma JoinFlat(g: Game, p: Id, wanted: Id, password: string, can: bool)
    requires FlatRosters(g) && p in g.peers
    ensures FlatRosters(OnJoin(g, p, wanted, password, can).g)
  {
    hide Sorted, Broadcast, PeersArray, SortByOrder, Touch;
    forall l | l in g.lobbies ensures Sorted(Insert(g.lobbies[l].peerIds, g.peers[p].id)) {
      InsertSorted(g.lobbies[l].peerIds, g.peers[p].id);
    }
  }

  lemma CreateFlat(g: Game, p: Id, a: CreateArgs, can: bool)
    requires FlatRosters(g) && p in g.peers
    ensures FlatRosters(OnCreate(g, p, a, can).g)
  {
    hide PeersArray, Touch;
  }

  lemma {:induction false} TryJoinsFlat(g: Game, p: Id, a: CreateArgs, order: seq<Id>, cans: seq<bool>)
    requires FlatRosters(g) && p in g.peers
    ensures FlatRosters(TryJoins(g, p, a, order, cans).g)
    decreases order
  {
    hide FlatRosters, OnJoin, Eligible, Considered;
    if order != [] {
      var l, rest := order[0], order[1..];
      if l !in g.lobbies {
        TryJoinsFlat(g, p, a, rest, cans);
      } else {
        ConsideredFlat(g, l);
        var h := Considered(g, l);
        if !Eligible(g, l, a.tags) {
          TryJoinsFlat(h, p, a, rest, cans);
        } else {
          JoinFlat(h, p, l, a.password, Verdict(cans));
          TryJoinsFlat(h, p, a, rest, Handlers.Later(cans));
        }
      }
    }
  }

  lemma ConsideredFlat(g: Game, l: Id)
    requires FlatRosters(g) && l in g.lobbies
    ensures FlatRosters(Considered(g, l)) && g.peers.Keys <= Considered(g, l).peers.Keys
    ensures Considered(g, l).lobbies == g.lobbies
  {
  }

  lemma QuickJoinFlat(
    g: Game, p: Id, wanted: Id, a: CreateArgs, order: seq<Id>, cans: seq<bool>, can: bool)
    requires FlatRosters(g) && p in g.peers
    ensures FlatRosters(OnQuickJoin(g, p, wanted, a, order, cans, can).g)
  {
    hide FlatRosters, OnJoin, TryJoins, OnCreate;
    var inLobby := g.peers[p].lobbyId != "";
    if inLobby { JoinFlat(g, p, wanted, a.password, Verdict(cans)); }
    var later := if inLobby then Handlers.Later(cans) else cans;
    TryJoinsFlat(g, p, a, order, later);
    TryJoinsKeepsPeer(g, p, a, order, later);
    var second := TryJoins(g, p, a, order, later);
    if !second.joined { CreateFlat(second.g, p, a, can); }
  }

  lemma {:induction false} SweepFlat(g: Game, order: seq<Id>, now: int, limit: int)
    requires FlatRosters(g) && forall p :: p in order ==> p in g.disconnected
    ensures FlatRosters(SweepLoop(g, order, now, limit).g)
  {
    hide RemovePeer, Sorted;
    if order != [] {
      var n := |order| - 1;
      SweepFlat(g, order[..n], now, limit);
      var h, p := SweepLoop(g, order[..n], now, limit).g, order[n];
      if p in h.peers && h.peers[p].lobbyId in h.lobbies { RemovalFlat(h, h.peers[p].lobbyId, h.peers[p].id, true); }
    }
  }

  lemma MoveFlat(g: Game, s: Step)
    requires FlatRosters(g) && Enabled(g, s) && Moves(s)
    ensures FlatRosters(Apply(g, s).g)
  {
    hide Sorted, RemovePeer, OnJoin, OnQuickJoin, OnCreate, Sought;
    match s
    case Connect(_) => {}
    case Close(_, _) => {}
    case Create(p, a, can) => CreateFlat(g, p, a, can);
    case Join(p, wanted, pw, can) => JoinFlat(g, p, wanted, pw, can);
    case QuickJoin(p, wanted, a, order, cans, can) => QuickJoinFlat(g, p, wanted, a, order, cans, can);
    case Leave(p) => {
      SoughtFlat(g, g.peers[p].lobbyId);
      RemovalFlat(Sought(g, g.peers[p].lobbyId), g.peers[p].lobbyId, g.peers[p].id, false);
    }
    case Kick(p, target, _) => {
      SoughtFlat(g, g.peers[p].lobbyId);
      RemovalFlat(Sought(g, g.peers[p].lobbyId), g.peers[p].lobbyId, target, true);
    }
    case Sweep(order, now, limit) => SweepFlat(g, order, now, limit);
  }

  /** The same rosters, but for an empty one that a look-up may have inserted. */
  ghost predicate SameOrEmpty(g: Game, g': Game)
  {
    forall l :: l in g'.lobbies ==>
      g'.lobbies[l].peerIds == [] || (l in g.lobbies && g'.lobbies[l].peerIds == g.lobbies[l].peerIds)
  }

  lemma NotifyFlat(g: Game, l: Id, lobbyWrites: seq<Write>, peerWrites: map<Id, seq<Write>>)
    requires l in g.lobbies
    ensures l in Written(g, l, lobbyWrites, peerWrites).lobbies
    ensures SameOrEmpty(g, NotifyChanges(Written(g, l, lobbyWrites, peerWrites), l).g)
  {
    hide Touch, ApplyWrites, Broadcast, DiffNotes;
  }

  lemma SoughtSame(g: Game, l: Id, g': Game)
    requires SameOrEmpty(Sought(g, l), g')
    ensures SameOrEmpty(g, g')
  {
  }

  lemma CallFlat(g: Game, p: Id, lobbyWrites: seq<Write>, peerWrites: map<Id, seq<Write>>)
    requires p in g.peers
    ensures SameOrEmpty(g, OnCall(g, p, lobbyWrites, peerWrites).g)
  {
    hide NotifyChanges, Written, Sought;
    var l := g.peers[p].lobbyId;
    NotifyFlat(Sought(g, l), l, lobbyWrites, peerWrites);
    SoughtSame(g, l, NotifyChanges(Written(Sought(g, l), l, lobbyWrites, peerWrites), l).g);
  }

  lemma LobbyDataFlat(g: Game, p: Id, patch: Dict)
    requires p in g.peers
    ensures SameOrEmpty(g, OnLobbyData(g, p, patch).g)
  {
    hide Merge, Broadcast;
  }

  lemma DataToFlat(g: Game, p: Id, target: Id, patch: Dict)
    requires p in g.peers
    ensures SameOrEmpty(g, OnDataTo(g, p, target, patch).g) && SameOrEmpty(g, OnDataToAll(g, p, patch).g)
  {
    hide Merge, Broadcast, RelayRefusal, MergePeers, DiffNotes, Touch;
  }

  lemma SameFlat(g: Game, g': Game)
    requires FlatRosters(g) && SameOrEmpty(g, g')
    ensures FlatRosters(g')
  {
  }

  lemma EditFlat(g: Game, p: Id, e: Edit, can: bool)
    requires p in g.peers
    ensures SameOrEmpty(g, OnEdit(g, p, e, can).g)
  {
    hide Broadcast;
  }

  lemma TalkFlat(g: Game, p: Id, t: Talk)
    requires p in g.peers
    ensures SameOrEmpty(g, OnTalk(g, p, t).g)
  {
    hide OnTalk, Target;
    TalkEffect(g, p, t);
  }

  lemma RestFlat(g: Game, s: Step)
    requires Enabled(g, s) && (s.SetReady? || s.List? || s.StopList? || s.Flush?)
    ensures SameOrEmpty(g, Apply(g, s).g)
  {
    hide Broadcast, Entries, Items, Inputs;
  }

  lemma StayFlat(g: Game, s: Step)
    requires FlatRosters(g) && Enabled(g, s) && !Moves(s)
    ensures FlatRosters(Apply(g, s).g)
  {
    hide FlatRosters, SameOrEmpty, OnCall, OnLobbyData, OnDataTo, OnDataToAll, OnReady, OnEdit, OnTalk, OnList,
         OnStopList;
    match s {
      case Call(p, lw, pw) => CallFlat(g, p, lw, pw);
      case PutLobbyData(p, patch) => LobbyDataFlat(g, p, patch);
      case PutDataTo(p, target, patch) => DataToFlat(g, p, target, patch);
      case PutDataToAll(p, patch) => DataToFlat(g, p, "", patch);
      case EditLobby(p, e, can) => EditFlat(g, p, e, can);
      case Tell(p, t) => TalkFlat(g, p, t);
      case _ => RestFlat(g, s);
    }
    SameFlat(g, Apply(g, s).g);
  }

  lemma StepKeepsFlat(g: Game, s: Step)
    requires FlatRosters(g) && Enabled(g, s)
    ensures FlatRosters(Apply(g, s).g)
  {
    hide FlatRosters, Enabled, Apply;
    if Moves(s) { MoveFlat(g, s); } else { StayFlat(g, s); }
  }
}
