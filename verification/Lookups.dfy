/**
 The peers a step looks up with `operator[]`, and why they alone decide whether the game's belief of who is connected
 stays true: an id it no longer has gets an entry, and counts as connected from then on.
 */
module Lookups {
  import opened FlatSets
  import opened AnyTypes
  import opened SharedData
  import opened GameState
  import opened Handlers
  import opened Membership
  import opened Invariants
  import opened QuickJoins
  import opened Sweep
  import opened Talks
  import opened Runs

  function IdsOf(ids: seq<Id>): set<Id>
  {
    set x | x in ids
  }

  // ----- what each handler looks up -----

  function RemovalLooks(g: Game, l: Id, p: Id): set<Id>
    requires l in g.lobbies
  {
    IdsOf(g.lobbies[l].peerIds + [p])
  }

  function EnterLooks(g: Game, p: Id, l: Id): set<Id>
    requires p in g.peers && l in g.lobbies
  {
    IdsOf(g.lobbies[l].orderedIds + [g.peers[p].id] + Insert(g.lobbies[l].peerIds, g.peers[p].id))
  }

  function JoinLooks(g: Game, p: Id, wanted: Id, password: string, can: bool): set<Id>
    requires p in g.peers
  {
    var me := g.peers[p];
    if !OnJoin(g, p, wanted, password, can).joined then {}
    else if me.disconnected && me.lobbyId != "" then IdsOf(g.lobbies[me.lobbyId].peerIds)
    else EnterLooks(g, p, wanted)
  }

  function CreateLooks(g: Game, p: Id, a: CreateArgs, can: bool): set<Id>
    requires p in g.peers
  {
    if g.peers[p].lobbyId == "" && a.maxPlayers >= 1 && can then
      IdsOf(if a.id in g.lobbies then g.lobbies[a.id].peerIds else [g.peers[p].id])
    else {}
  }

  function TryLooks(g: Game, p: Id, a: CreateArgs, order: seq<Id>, cans: seq<bool>): set<Id>
    requires p in g.peers
    decreases order
  {
    if order == [] then {}
    else
      var l := order[0];
      if l !in g.lobbies then TryLooks(g, p, a, order[1..], cans)
      else
        var h := Considered(g, l);
        (if HasRoom(g.lobbies[l]) && g.lobbies[l].host != "" then {g.lobbies[l].host} else {}) +
        if !Eligible(g, l, a.tags) then TryLooks(h, p, a, order[1..], cans)
        else if OnJoin(h, p, l, a.password, Verdict(cans)).joined then JoinLooks(h, p, l, a.password, Verdict(cans))
        else TryLooks(h, p, a, order[1..], Later(cans))
  }

  function QuickJoinLooks(
    g: Game, p: Id, wanted: Id, a: CreateArgs, order: seq<Id>, cans: seq<bool>, can: bool): set<Id>
    requires p in g.peers
  {
    var inLobby := g.peers[p].lobbyId != "";
    var later := if inLobby then Later(cans) else cans;
    if inLobby && OnJoin(g, p, wanted, a.password, Verdict(cans)).joined then
      JoinLooks(g, p, wanted, a.password, Verdict(cans))
    else
      TryLooks(g, p, a, order, later) +
      assert p in TryJoins(g, p, a, order, later).g.peers by { TryJoinsKeepsPeer(g, p, a, order, later); }
      if TryJoins(g, p, a, order, later).joined then {}
      else CreateLooks(TryJoins(g, p, a, order, later).g, p, a, can)
  }

  /** The lobby the command is about, a missing one being inserted. */
  function RosterLooks(g: Game, p: Id): set<Id>
    requires p in g.peers
  {
    var l := g.peers[p].lobbyId;
    if l == "" then {} else IdsOf(Sought(g, l).lobbies[l].peerIds)
  }

  function KickLooks(g: Game, p: Id, target: Id, can: bool): set<Id>
    requires p in g.peers
  {
    var me := g.peers[p];
    if me.lobbyId == "" then {}
    else
      var b := Sought(g, me.lobbyId).lobbies[me.lobbyId];
      if b.host == me.id && target != "" && target in b.peerIds && me.id != target && can then IdsOf(b.peerIds + [target])
      else {}
  }

  function SweepLooks(g: Game, order: seq<Id>, now: int, limit: int): set<Id>
    requires forall p :: p in order ==> p in g.disconnected
  {
    if order == [] then {}
    else
      var n := |order| - 1;
      var h, p := SweepLoop(g, order[..n], now, limit).g, order[n];
      SweepLooks(g, order[..n], now, limit) +
      if Housed(h, p) && now - h.disconnected[p] > limit then RemovalLooks(h, h.peers[p].lobbyId, h.peers[p].id) else {}
  }

  /** All ids the step looks up. */
  ghost function Looked(g: Game, s: Step): set<Id>
    requires Enabled(g, s)
  {
    match s
    case Create(p, a, can) => CreateLooks(g, p, a, can)
    case Join(p, wanted, pw, can) => JoinLooks(g, p, wanted, pw, can)
    case QuickJoin(p, wanted, a, order, cans, can) => QuickJoinLooks(g, p, wanted, a, order, cans, can)
    case Leave(p) => if g.peers[p].lobbyId == "" then {} else RosterLooks(g, p) + {g.peers[p].id}
    case Kick(p, target, can) => KickLooks(g, p, target, can)
    case PutDataTo(p, target, _) =>
      if RelayRefusal(g, p) == "" && target != "" && target in RosterLooks(g, p) then {target} else {}
    case PutDataToAll(p, _) => if RelayRefusal(g, p) == "" then RosterLooks(g, p) else {}
    case Call(p, _, _) => if g.config.scripted then RosterLooks(g, p) else {}
    case Tell(p, t) => IdsOf(Target(g, p, t))
    case Sweep(order, now, limit) => SweepLooks(g, order, now, limit)
    case _ => {}
  }

  // ----- exactly these get an entry -----

  lemma TouchKeys(peers: map<Id, Peer>, ids: seq<Id>)
    ensures Touch(peers, ids).Keys == peers.Keys + IdsOf(ids)
  {
  }

  lemma RemovalKeys(g: Game, l: Id, p: Id, kicked: bool)
    requires l in g.lobbies
    ensures RemovePeer(g, l, p, kicked).g.peers.Keys == g.peers.Keys + RemovalLooks(g, l, p)
    ensures RemovePeer(g, l, p, kicked).g.disconnected == g.disconnected
  {
    hide RemovalNotes, LobbiesAfterRemoval, Touch, LeaveLobby, IdsOf;
    TouchKeys(g.peers, g.lobbies[l].peerIds + [p]);
  }

  lemma JoinKeys(g: Game, p: Id, wanted: Id, password: string, can: bool)
    requires p in g.peers
    ensures OnJoin(g, p, wanted, password, can).g.peers.Keys == g.peers.Keys + JoinLooks(g, p, wanted, password, can)
    ensures OnJoin(g, p, wanted, password, can).g.disconnected == g.disconnected
  {
    hide Broadcast, PeersArray, SortByOrder, Insert, Touch, IdsOf;
    var me := g.peers[p];
    if OnJoin(g, p, wanted, password, can).joined {
      if me.disconnected && me.lobbyId != "" {
        TouchKeys(g.peers[p := me.(ready := false, disconnected := false)], g.lobbies[me.lobbyId].peerIds);
      } else {
        var b := g.lobbies[wanted];
        TouchKeys(g.peers[p := me.(orderId := b.orderCounter + 1, lobbyId := wanted, disconnected := false)],
                  b.orderedIds + [me.id] + Insert(b.peerIds, me.id));
      }
    }
  }

  lemma CreateKeys(g: Game, p: Id, a: CreateArgs, can: bool)
    requires p in g.peers
    ensures OnCreate(g, p, a, can).g.peers.Keys == g.peers.Keys + CreateLooks(g, p, a, can)
    ensures OnCreate(g, p, a, can).g.disconnected == g.disconnected
  {
    hide PeersArray, Touch, IdsOf, SummaryOf;
    var me := g.peers[p];
    TouchKeys(g.peers[p := me.(lobbyId := a.id, disconnected := false)],
              if a.id in g.lobbies then g.lobbies[a.id].peerIds else [me.id]);
  }

  lemma ConsideredKeys(g: Game, l: Id)
    requires l in g.lobbies
    ensures var looks := if HasRoom(g.lobbies[l]) && g.lobbies[l].host != "" then {g.lobbies[l].host} else {};
            Considered(g, l).peers.Keys == g.peers.Keys + looks && Considered(g, l).disconnected == g.disconnected
  {
    hide Touch, IdsOf;
    TouchKeys(g.peers, [g.lobbies[l].host]);
    assert IdsOf([g.lobbies[l].host]) == {g.lobbies[l].host} by { OneId(g.lobbies[l].host); }
  }

  lemma OneId(x: Id)
    ensures IdsOf([x]) == {x}
  {
  }

  lemma {:induction false} TryKeys(g: Game, p: Id, a: CreateArgs, order: seq<Id>, cans: seq<bool>)
    requires p in g.peers
    ensures var o := TryJoins(g, p, a, order, cans);
            o.g.peers.Keys == g.peers.Keys + TryLooks(g, p, a, order, cans) && o.g.disconnected == g.disconnected
    decreases order
  {
    hide OnJoin, Eligible, Considered, JoinLooks, HasRoom;
    if order != [] {
      var l, rest := order[0], order[1..];
      if l !in g.lobbies {
        TryKeys(g, p, a, rest, cans);
      } else {
        var h := Considered(g, l);
        ConsideredKeys(g, l);
        if !Eligible(g, l, a.tags) {
          TryKeys(h, p, a, rest, cans);
        } else {
          JoinKeys(h, p, l, a.password, Verdict(cans));
          if !OnJoin(h, p, l, a.password, Verdict(cans)).joined { TryKeys(h, p, a, rest, Later(cans)); }
        }
      }
    }
  }

  lemma QuickJoinKeys(
    g: Game, p: Id, wanted: Id, a: CreateArgs, order: seq<Id>, cans: seq<bool>, can: bool)
    requires p in g.peers
    ensures var o := OnQuickJoin(g, p, wanted, a, order, cans, can);
            && o.g.peers.Keys == g.peers.Keys + QuickJoinLooks(g, p, wanted, a, order, cans, can)
            && o.g.disconnected == g.disconnected
  {
    hide OnJoin, JoinLooks, TryJoins, TryLooks, OnCreate, CreateLooks;
    var inLobby := g.peers[p].lobbyId != "";
    var later := if inLobby then Later(cans) else cans;
    JoinKeys(g, p, wanted, a.password, Verdict(cans));
    TryJoinsKeepsPeer(g, p, a, order, later);
    TryKeys(g, p, a, order, later);
    CreateKeys(TryJoins(g, p, a, order, later).g, p, a, can);
  }

  lemma {:induction false} SweepKeys(g: Game, order: seq<Id>, now: int, limit: int)
    requires forall p :: p in order ==> p in g.disconnected
    ensures SweepLoop(g, order, now, limit).g.peers.Keys == g.peers.Keys + SweepLooks(g, order, now, limit)
  {
    hide RemovePeer, RemovalLooks;
    if order != [] {
      var n := |order| - 1;
      SweepKeys(g, order[..n], now, limit);
      var h, p := SweepLoop(g, order[..n], now, limit).g, order[n];
      if Housed(h, p) { RemovalKeys(h, h.peers[p].lobbyId, h.peers[p].id, true); }
    }
  }

  lemma LeaveKeys(g: Game, p: Id)
    requires p in g.peers
    ensures OnLeave(g, p).g.disconnected == g.disconnected
    ensures OnLeave(g, p).g.peers.Keys ==
            g.peers.Keys + if g.peers[p].lobbyId == "" then {} else RosterLooks(g, p) + {g.peers[p].id}
  {
    hide RemovePeer, Sought;
    var l := g.peers[p].lobbyId;
    if l != "" {
      RemovalKeys(Sought(g, l), l, g.peers[p].id, false);
      SoughtPeers(g, l);
    }
  }

  lemma KickKeys(g: Game, p: Id, target: Id, can: bool)
    requires p in g.peers
    ensures OnKick(g, p, target, can).g.disconnected == g.disconnected
    ensures OnKick(g, p, target, can).g.peers.Keys == g.peers.Keys + KickLooks(g, p, target, can)
  {
    hide RemovePeer, Sought;
    var l := g.peers[p].lobbyId;
    if l != "" {
      RemovalKeys(Sought(g, l), l, target, true);
      SoughtPeers(g, l);
    }
  }

  lemma SoughtPeers(g: Game, l: Id)
    ensures Sought(g, l) == g.(lobbies := Sought(g, l).lobbies)
  {
  }

  lemma SentKeys(g: Game, ids: seq<Id>, targets: seq<Id>, patch: Dict)
    ensures var o := SendPeerDiffs(g, ids, targets, MergePeers(Touch(g.peers, targets), targets, patch));
            o.g.peers.Keys == g.peers.Keys + IdsOf(targets) && o.g.disconnected == g.disconnected
  {
    hide Merge, DiffNotes;
  }

  lemma DataKeys(g: Game, p: Id, target: Id, patch: Dict)
    requires p in g.peers
    ensures OnDataTo(g, p, target, patch).g.disconnected == g.disconnected
    ensures OnDataToAll(g, p, patch).g.disconnected == g.disconnected
    ensures OnDataTo(g, p, target, patch).g.peers.Keys ==
            g.peers.Keys + if RelayRefusal(g, p) == "" && target != "" && target in RosterLooks(g, p) then {target} else {}
    ensures OnDataToAll(g, p, patch).g.peers.Keys ==
            g.peers.Keys + if RelayRefusal(g, p) == "" then RosterLooks(g, p) else {}
  {
    hide SendPeerDiffs, MergePeers, Touch, Sought;
    var l := g.peers[p].lobbyId;
    if l != "" {
      var ids := Sought(g, l).lobbies[l].peerIds;
      SoughtPeers(g, l);
      SentKeys(Sought(g, l), ids, [target], patch);
      SentKeys(Sought(g, l), ids, ids, patch);
    }
  }

  lemma NotifyKeys(g: Game, l: Id, lobbyWrites: seq<Write>, peerWrites: map<Id, seq<Write>>)
    requires l in g.lobbies
    ensures l in Written(g, l, lobbyWrites, peerWrites).lobbies
    ensures var h := NotifyChanges(Written(g, l, lobbyWrites, peerWrites), l).g;
            h.peers.Keys == g.peers.Keys + IdsOf(g.lobbies[l].peerIds) && h.disconnected == g.disconnected
  {
    hide ApplyWrites, DiffNotes, Broadcast;
  }

  lemma CallKeys(g: Game, p: Id, lobbyWrites: seq<Write>, peerWrites: map<Id, seq<Write>>)
    requires p in g.peers
    ensures OnCall(g, p, lobbyWrites, peerWrites).g.disconnected == g.disconnected
    ensures OnCall(g, p, lobbyWrites, peerWrites).g.peers.Keys ==
            g.peers.Keys + if g.config.scripted then RosterLooks(g, p) else {}
  {
    hide Written, NotifyChanges, Sought;
    var l := g.peers[p].lobbyId;
    if l != "" {
      SoughtPeers(g, l);
      NotifyKeys(Sought(g, l), l, lobbyWrites, peerWrites);
    }
  }

  lemma TalkKeys(g: Game, p: Id, t: Talk)
    requires p in g.peers
    ensures OnTalk(g, p, t).g.disconnected == g.disconnected
    ensures OnTalk(g, p, t).g.peers.Keys == g.peers.Keys + IdsOf(Target(g, p, t))
  {
    hide OnTalk, Target;
    TalkEffect(g, p, t);
  }

  lemma EditKeys(g: Game, p: Id, e: Edit, can: bool)
    requires p in g.peers
    ensures OnEdit(g, p, e, can).g.disconnected == g.disconnected && OnEdit(g, p, e, can).g.peers == g.peers
  {
    hide Broadcast, Edits, Announced;
  }

  lemma QuietKeys(g: Game, s: Step)
    requires Enabled(g, s) && (s.SetReady? || s.PutLobbyData? || s.List? || s.StopList? || s.Flush?)
    ensures Apply(g, s).g.peers.Keys == g.peers.Keys && Apply(g, s).g.disconnected == g.disconnected
  {
    hide Broadcast, Merge, Entries, Items, Inputs;
  }

  /** A command makes entries for exactly the ids it looks up in vain, and disconnects nobody. */
  lemma CommandKeys(g: Game, s: Step)
    requires Enabled(g, s) && IsCommand(s)
    ensures Apply(g, s).g.peers.Keys == g.peers.Keys + Looked(g, s)
    ensures Apply(g, s).g.disconnected == g.disconnected
  {
    hide OnCreate, OnJoin, OnQuickJoin, OnLeave, OnKick, OnEdit, OnDataTo, OnDataToAll, OnCall, RelayRefusal, Inputs;
    hide OnReady, OnLobbyData, OnList, OnStopList, OnTalk, Target;
    hide CreateLooks, JoinLooks, QuickJoinLooks, RosterLooks, KickLooks;
    match s
    case Create(p, a, can) => CreateKeys(g, p, a, can);
    case Join(p, wanted, pw, can) => JoinKeys(g, p, wanted, pw, can);
    case QuickJoin(p, wanted, a, order, cans, can) => QuickJoinKeys(g, p, wanted, a, order, cans, can);
    case Leave(p) => LeaveKeys(g, p);
    case Kick(p, target, can) => KickKeys(g, p, target, can);
    case EditLobby(p, e, can) => EditKeys(g, p, e, can);
    case PutDataTo(p, target, patch) => DataKeys(g, p, target, patch);
    case PutDataToAll(p, patch) => DataKeys(g, p, "", patch);
    case Call(p, lw, pw) => CallKeys(g, p, lw, pw);
    case Tell(p, t) => TalkKeys(g, p, t);
    case _ => QuietKeys(g, s);
  }

  // ----- the belief of who is connected -----

  /** Who is counted as disconnected is known. */
  predicate Rooted(g: Game)
  {
    g.disconnected.Keys <= g.peers.Keys
  }

  lemma SweptKeys(g: Game, order: seq<Id>, now: int, limit: int)
    requires Rooted(g) && forall p :: p in order ==> p in g.disconnected
    ensures var s := OnSweep(g, order, now, limit);
            && s.g.peers.Keys == g.peers.Keys + SweepLooks(g, order, now, limit) - s.erased
            && s.g.disconnected == g.disconnected - s.erased && s.erased <= g.disconnected.Keys
  {
    hide SweepOne, SweepLooks;
    SweepKeys(g, order, now, limit);
    ErasedWithin(g, order, now, limit);
    var s := SweepLoop(g, order, now, limit);
    assert Erase(s.g, s.erased).peers.Keys == s.g.peers.Keys - s.erased;
  }

  /** In every mode: the step loses nobody it should count as connected. */
  lemma StepActive(g: Game, s: Step)
    requires Rooted(g) && Enabled(g, s)
    ensures Rooted(Apply(g, s).g) && ActiveAfter(Active(g), s) <= Active(Apply(g, s).g)
    ensures Active(Apply(g, s).g) == ActiveAfter(Active(g), s) + (Looked(g, s) - g.peers.Keys)
  {
    hide Looked, Inputs, OnSweep, OnCreate, OnJoin, OnQuickJoin, OnLeave, OnKick, OnEdit, OnDataTo, OnDataToAll, OnCall;
    hide OnReady, OnLobbyData, OnList, OnStopList, OnTalk, Broadcast;
    if IsCommand(s) {
      CommandKeys(g, s);
    } else if s.Sweep? {
      SweepOrder(g, s);
      SweptKeys(g, s.order, s.now, s.limit);
      SweepLooked(g, s);
    } else {
      NothingLooked(g, s);
    }
  }

  lemma SweepOrder(g: Game, s: Step)
    requires Enabled(g, s) && s.Sweep?
    ensures forall p :: p in s.order ==> p in g.disconnected
  {
  }

  lemma SweepLooked(g: Game, s: Step)
    requires Enabled(g, s) && s.Sweep?
    ensures Looked(g, s) == SweepLooks(g, s.order, s.now, s.limit)
  {
  }

  lemma NothingLooked(g: Game, s: Step)
    requires Enabled(g, s) && (s.Connect? || s.Close? || s.Flush?)
    ensures Looked(g, s) == {}
  {
  }

  /**
   For every step of every mode: who is believed connected changes by OPEN and CLOSE alone if and only if every id the
   step looks up is known.
   */
  lemma ActiveIff(g: Game, s: Step)
    requires Rooted(g) && Enabled(g, s)
    ensures Active(Apply(g, s).g) == ActiveAfter(Active(g), s) <==> Looked(g, s) <= g.peers.Keys
  {
    hide Apply, Looked, Enabled;
    StepActive(g, s);
    var extra, after := Looked(g, s) - g.peers.Keys, ActiveAfter(Active(g), s);
    if s.Connect? { ConnectLooks(g, s); }
    if Looked(g, s) <= g.peers.Keys {
      assert extra == {} && after + extra == after;
    } else {
      var q :| q in Looked(g, s) && q !in g.peers.Keys;
      assert q in extra && q !in after;
    }
  }

  lemma ConnectLooks(g: Game, s: Step)
    requires Enabled(g, s) && s.Connect?
    ensures Looked(g, s) == {}
  {
  }

  /** Where the full invariant holds and nobody is orphaned, everybody looked up is known. */
  lemma SettledLooks(g: Game, s: Step)
    requires Inv(g) && Enabled(g, s) && Settled(g, s)
    ensures Rooted(g) && Looked(g, s) <= g.peers.Keys
  {
    hide Weak, Apply, Looked, Enabled, Settled;
    StepKeepsInv(g, s);
    InvRooted(g);
    ActiveIff(g, s);
  }

  lemma InvRooted(g: Game)
    requires Inv(g)
    ensures Rooted(g)
  {
  }
}
