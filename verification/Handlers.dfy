/** What each handler of the game thread does to the state and which messages it sends, in order. */
module Handlers {
  import opened FlatSets
  import opened AnyTypes
  import opened SharedData
  import opened GameState

  datatype Outcome = Outcome(g: Game, outs: seq<Out>)

  function Fail(g: Game, to: Id, message: string): Outcome
  {
    Outcome(g, Send(g.disconnected, to, Error(message)))
  }

  // ----- connections -----

  function OnConnect(g: Game, p: Id): Outcome
  {
    var g' := if p in g.peers then g.(disconnected := g.disconnected - {p})
              else g.(peers := g.peers[p := NewPeer(p)]);
    var me := g'.peers[p];
    Outcome(g', Send(g'.disconnected, me.id, PeerState(ViewOf(me))))
  }

  function OnClose(g: Game, p: Id, now: int): Outcome
  {
    var g0 := g.(listing := g.listing - {p});
    if p !in g.peers then Outcome(g0, [])
    else
      var me := g.peers[p];
      var off := if p in g.disconnected then g.disconnected else g.disconnected[p := now];
      var g' := g0.(peers := g.peers[p := me.(ready := false, disconnected := true)], disconnected := off);
      Outcome(g', if me.lobbyId !in g.lobbies then []
                  else Broadcast(off, g.lobbies[me.lobbyId].peerIds, {p}, PeerDisconnected(p)))
  }

  // ----- leaving -----

  /** The host leaves for everyone: the lobby is disbanded. */
  predicate Disbands(g: Game, b: Lobby, p: Id)
  {
    p == b.host && (g.config.disbandOnLeave || !g.config.scripted || |b.peerIds| == 1)
  }

  function PeersAfterRemoval(g: Game, b: Lobby, p: Id): map<Id, Peer>
  {
    var all := Touch(g.peers, b.peerIds + [p]);
    map q | q in all ::
      if q in b.peerIds && (Disbands(g, b, p) || q == p) then LeaveLobby(all[q])
      else if q == p then all[q].(lobbyId := "", ready := false)
      else all[q]
  }

  function RemovalNotes(g: Game, b: Lobby, p: Id, kicked: bool): seq<Out>
  {
    var off := g.disconnected;
    if Disbands(g, b, p) then
      Broadcast(off, b.peerIds, {p}, LobbyKicked) + Send(off, p, LobbyLeft)
    else if p == b.host then
      Broadcast(off, b.peerIds, {p}, PeerLeft(p, false)) + Send(off, p, LobbyLeft) +
      Broadcast(off, b.peerIds, {p}, Hosted(FirstOther(b.peerIds, p)))
    else
      Broadcast(off, b.peerIds, if kicked then {p, b.host} else {p}, PeerLeft(p, kicked)) +
      Send(off, p, if kicked then LobbyKicked else LobbyLeft) +
      if kicked then Send(off, b.host, PeerLeft(p, true)) else []
  }

  function LobbyAfterRemoval(g: Game, b: Lobby, p: Id): Lobby
  {
    b.(host := if p == b.host && !Disbands(g, b, p) then FirstOther(b.peerIds, p) else b.host,
       peerIds := Without(b.peerIds, p), orderedIds := Without(b.orderedIds, p))
  }

  /** The lobby goes when its host takes it along or when nobody is left. */
  function LobbiesAfterRemoval(g: Game, l: Id, p: Id): map<Id, Lobby>
    requires l in g.lobbies
  {
    var b := g.lobbies[l];
    var b' := LobbyAfterRemoval(g, b, p);
    var lobbies := g.lobbies[l := b'];
    if (p == b.host && g.config.disbandOnLeave) || b'.peerIds == [] then lobbies - {b.id} else lobbies
  }

  /** `remove_peer_from_lobby`. */
  function RemovePeer(g: Game, l: Id, p: Id, kicked: bool): Outcome
    requires l in g.lobbies
  {
    var b := g.lobbies[l];
    Outcome(
      g.(peers := PeersAfterRemoval(g, b, p), lobbies := LobbiesAfterRemoval(g, l, p), updated := g.updated + {b.id}),
      RemovalNotes(g, b, p, kicked))
  }

  /** A lobby id that is set is found: `game.lobbies[peer.lobby_id]` hits. */
  predicate Acting(g: Game, p: Id)
  {
    p in g.peers && (g.peers[p].lobbyId == "" || g.peers[p].lobbyId in g.lobbies)
  }

  function OnLeave(g: Game, p: Id): Outcome
    requires p in g.peers
  {
    var me := g.peers[p];
    if me.lobbyId == "" then Fail(g, me.id, "ERROR_PEER_NOT_IN_A_LOBBY")
    else RemovePeer(Sought(g, me.lobbyId), me.lobbyId, me.id, false)
  }

  function OnKick(g: Game, p: Id, target: Id, can: bool): Outcome
    requires p in g.peers
  {
    var me := g.peers[p];
    if me.lobbyId == "" then Fail(g, me.id, "ERROR_PEER_NOT_IN_A_LOBBY")
    else
      var h := Sought(g, me.lobbyId);
      var b := h.lobbies[me.lobbyId];
      if b.host != me.id then Fail(h, me.id, "ERROR_PEER_NOT_HOST")
      else if target == "" || target !in b.peerIds then Fail(h, me.id, "ERROR_PEER_NOT_IN_A_LOBBY")
      else if me.id == target then Fail(h, me.id, "ERROR_CANNOT_KICK_SELF")
      else if !can then Fail(h, me.id, "script")
      else RemovePeer(h, me.lobbyId, target, true)
  }

  // ----- entering -----

  /** The fields of a create command; `id` is the fresh lobby id. */
  datatype CreateArgs = CreateArgs(
    id: Id, name: string, password: string, maxPlayers: int64, sealed: bool, tags: Dict, now: int)

  function NewLobby(a: CreateArgs, host: Id): Lobby
  {
    Lobby(a.id, a.name, host, a.password, a.maxPlayers, [host], [host], a.now, a.sealed, a.tags, 0, Clean(map[]))
  }

  /** `on_create_lobby`.  `can` is the verdict of `_can_create_lobby`. */
  function OnCreate(g: Game, p: Id, a: CreateArgs, can: bool): Outcome
    requires p in g.peers
  {
    var me := g.peers[p];
    if me.lobbyId != "" then Fail(g, me.id, "ERROR_PEER_IS_IN_A_LOBBY")
    else if a.maxPlayers < 1 then Fail(g, me.id, "ERROR_LOBBY_FULL")
    else if !can then
      Fail(g.(peers := g.peers[p := LeaveLobby(me)], lobbies := g.lobbies - {a.id}), me.id, "script")
    else
      var lobbies := if a.id in g.lobbies then g.lobbies else g.lobbies[a.id := NewLobby(a, me.id)];
      var b := lobbies[a.id];
      var peers := Touch(g.peers[p := me.(lobbyId := a.id, disconnected := false)], b.peerIds);
      Outcome(g.(peers := peers, lobbies := lobbies, updated := g.updated + {a.id}),
              Send(g.disconnected, me.id, Created(SummaryOf(b), b.shared.data, PeersArray(peers, b.peerIds))))
  }

  datatype JoinOutcome = JoinOutcome(joined: bool, g: Game, outs: seq<Out>)

  function Refused(g: Game, to: Id, message: string): JoinOutcome
  {
    JoinOutcome(false, g, Fail(g, to, message).outs)
  }

  /** `on_join_lobby`.  A peer marked disconnected that still has a lobby rejoins it, whatever it asked for. */
  function OnJoin(g: Game, p: Id, wanted: Id, password: string, can: bool): JoinOutcome
    requires p in g.peers
  {
    var me := g.peers[p];
    var again := me.disconnected && me.lobbyId != "";
    var l := if again then me.lobbyId else wanted;
    if l == "" || l !in g.lobbies then Refused(g, me.id, "ERROR_LOBBY_NOT_FOUND")
    else if !again && me.lobbyId != "" then Refused(g, me.id, "ERROR_PEER_IS_IN_A_LOBBY")
    else if !again && g.lobbies[l].password != password then Refused(g, me.id, "ERROR_LOBBY_WRONG_PASSWORD")
    else if !again && g.lobbies[l].maxPlayers != 0 && |g.lobbies[l].peerIds| >= U64(g.lobbies[l].maxPlayers) then
      Refused(g, me.id, "ERROR_LOBBY_FULL")
    else if !can then Refused(g, me.id, "script")
    else if again then Rejoin(g, p, l)
    else Enter(g, p, l)
  }

  function Rejoin(g: Game, p: Id, l: Id): JoinOutcome
    requires p in g.peers && l in g.lobbies
  {
    var me, b := g.peers[p], g.lobbies[l];
    var peers := Touch(g.peers[p := me.(ready := false, disconnected := false)], b.peerIds);
    JoinOutcome(
      true, g.(peers := peers),
      Broadcast(g.disconnected, b.peerIds, {me.id}, PeerReconnected(me.id)) +
      Send(g.disconnected, me.id, Joined(SummaryOf(b), b.shared.data, PeersArray(peers, b.peerIds))))
  }

  function Enter(g: Game, p: Id, l: Id): JoinOutcome
    requires p in g.peers && l in g.lobbies
  {
    var b := g.lobbies[l];
    var me := g.peers[p].(orderId := b.orderCounter + 1, lobbyId := l, disconnected := false);
    var ids, ordered := Insert(b.peerIds, me.id), b.orderedIds + [me.id];
    var peers := Touch(g.peers[p := me], ordered + ids);
    var b' := b.(peerIds := ids, orderedIds := SortByOrder(ordered, peers), orderCounter := b.orderCounter + 1);
    JoinOutcome(
      true, g.(peers := peers, lobbies := g.lobbies[l := b'], updated := g.updated + {l}),
      Broadcast(g.disconnected, ids, {me.id}, PeerJoined(ViewOf(me))) +
      Send(g.disconnected, me.id, Joined(SummaryOf(b'), b'.shared.data, PeersArray(peers, ids))))
  }

  /** `lobby_contains_tags`. */
  predicate ContainsTags(wanted: Dict, tags: Dict)
  {
    forall k :: k in wanted ==> k in tags && Eq(tags[k], wanted[k])
  }

  predicate HasRoom(b: Lobby)
  {
    U64(b.maxPlayers) > |b.peerIds| && !b.sealed && b.password == ""
  }

  /** The filter of quick join.  Reading the host's entry may insert it. */
  predicate Eligible(g: Game, l: Id, tags: Dict)
    requires l in g.lobbies
  {
    var b := g.lobbies[l];
    HasRoom(b) && (b.host == "" || !At(g.peers, b.host).disconnected) && ContainsTags(tags, b.tags)
  }

  function Considered(g: Game, l: Id): Game
    requires l in g.lobbies
  {
    var b := g.lobbies[l];
    if HasRoom(b) && b.host != "" then g.(peers := Touch(g.peers, [b.host])) else g
  }

  /** The verdict of `_can_peer_join` at the next attempt. */
  function Verdict(cans: seq<bool>): bool
  {
    cans == [] || cans[0]
  }

  function Later(cans: seq<bool>): seq<bool>
  {
    if cans == [] then [] else cans[1..]
  }

  /** The loop of quick join over the lobbies, in the container's order. */
  function TryJoins(g: Game, p: Id, a: CreateArgs, order: seq<Id>, cans: seq<bool>): JoinOutcome
    requires p in g.peers
    decreases order
  {
    if order == [] then JoinOutcome(false, g, [])
    else
      var l := order[0];
      if l !in g.lobbies then TryJoins(g, p, a, order[1..], cans)
      else
        var g1 := Considered(g, l);
        if !Eligible(g, l, a.tags) then TryJoins(g1, p, a, order[1..], cans)
        else
          var o := OnJoin(g1, p, l, a.password, Verdict(cans));
          if o.joined then o
          else
            var rest := TryJoins(g1, p, a, order[1..], Later(cans));
            JoinOutcome(rest.joined, rest.g, o.outs + rest.outs)
  }

  /** `on_quick_join`.  `wanted` is the lobby id the command may carry. */
  function OnQuickJoin(g: Game, p: Id, wanted: Id, a: CreateArgs, order: seq<Id>, cans: seq<bool>, can: bool): Outcome
    requires p in g.peers
  {
    var inLobby := g.peers[p].lobbyId != "";
    var first := if inLobby then OnJoin(g, p, wanted, a.password, Verdict(cans)) else JoinOutcome(false, g, []);
    if first.joined then Outcome(first.g, first.outs)
    else
      var second := TryJoins(g, p, a, order, if inLobby then Later(cans) else cans);
      if second.joined then Outcome(second.g, first.outs + second.outs)
      else
        assert p in second.g.peers by { TryJoinsKeepsPeer(g, p, a, order, if inLobby then Later(cans) else cans); }
        var third := OnCreate(second.g, p, a, can);
        Outcome(third.g, first.outs + second.outs + third.outs)
  }

  lemma {:induction false} TryJoinsKeepsPeer(g: Game, p: Id, a: CreateArgs, order: seq<Id>, cans: seq<bool>)
    requires p in g.peers
    ensures var o := TryJoins(g, p, a, order, cans);
            p in o.g.peers && (!o.joined ==> o.g.lobbies == g.lobbies && o.g.peers[p] == g.peers[p])
    decreases order
  {
    if order != [] {
      var l := order[0];
      if l !in g.lobbies {
        TryJoinsKeepsPeer(g, p, a, order[1..], cans);
      } else {
        var g1 := Considered(g, l);
        if !Eligible(g, l, a.tags) { TryJoinsKeepsPeer(g1, p, a, order[1..], cans); }
        else { TryJoinsKeepsPeer(g1, p, a, order[1..], Later(cans)); }
      }
    }
  }

  // ----- lobby settings and readiness -----

  function OnReady(g: Game, p: Id, ready: bool, can: bool): Outcome
    requires p in g.peers
  {
    var me := g.peers[p];
    if me.lobbyId == "" then Fail(g, me.id, "ERROR_PEER_NOT_IN_A_LOBBY")
    else if me.ready == ready then Fail(g, me.id, if ready then "ERROR_PEER_IS_READY" else "ERROR_PEER_IS_NOT_READY")
    else if !can then Fail(g, me.id, "script")
    else
      var h, note := Sought(g, me.lobbyId), if ready then PeerReady(me.id) else PeerUnready(me.id);
      Outcome(h.(peers := h.peers[p := me.(ready := ready)]),
              Broadcast(h.disconnected, h.lobbies[me.lobbyId].peerIds, {me.id}, note) + Send(h.disconnected, me.id, note))
  }

  function Edits(b: Lobby, e: Edit): Lobby
  {
    match e
    case Resize(m) => b.(maxPlayers := m)
    case Retitle(n) => b.(name := n)
    case Protect(pw) => b.(password := pw)
    case Retag(t) => b.(tags := Patch(b.tags, t))
    case Seal(s) => b.(sealed := s)
  }

  /** What is announced: the tags are sent whole, not as the request carried them. */
  function Announced(b: Lobby, e: Edit): Edit
  {
    if e.Retag? then Retag(b.tags) else e
  }

  /** Resize, title, password, tags and seal.  Only tags and seal are the host's; a seal that changes nothing is
      confirmed to the caller alone and consults no script; a password consults none either. */
  function OnEdit(g: Game, p: Id, e: Edit, can: bool): Outcome
    requires p in g.peers
  {
    var me := g.peers[p];
    if me.lobbyId == "" then Fail(g, me.id, "ERROR_PEER_NOT_IN_A_LOBBY")
    else EditIn(Sought(g, me.lobbyId), me, e, can)
  }

  function EditIn(g: Game, me: Peer, e: Edit, can: bool): Outcome
    requires me.lobbyId in g.lobbies
  {
    var b := g.lobbies[me.lobbyId];
    if (e.Retag? || e.Seal?) && b.host != me.id then Fail(g, me.id, "ERROR_PEER_NOT_HOST")
    else if e.Resize? && U64(e.max) < |b.peerIds| then Fail(g, me.id, "ERROR_LOBBY_FULL")
    else if e.Seal? && e.sealed == b.sealed then Outcome(g, Send(g.disconnected, me.id, Edited(e)))
    else if !can && !e.Protect? then Fail(g, me.id, "script")
    else
      var b' := Edits(b, e);
      var note := Edited(Announced(b', e));
      Outcome(g.(lobbies := g.lobbies[me.lobbyId := b'], updated := g.updated + {b.id}),
              Broadcast(g.disconnected, b.peerIds, {me.id}, note) + Send(g.disconnected, me.id, note))
  }

  // ----- shared data -----

  /** The checks the three relay data commands share. */
  function RelayRefusal(g: Game, p: Id): string
    requires p in g.peers
  {
    var me := g.peers[p];
    if me.lobbyId == "" then "ERROR_PEER_NOT_IN_A_LOBBY"
    else if Sought(g, me.lobbyId).lobbies[me.lobbyId].host != me.id then "ERROR_PEER_NOT_HOST"
    else if g.config.scripted then "ERROR_GAME_NOT_RELAY"
    else ""
  }

  /** The state in which the peer's lobby was looked up, if it has one. */
  function AtLobby(g: Game, p: Id): (h: Game)
    requires p in g.peers
    ensures p in h.peers && h.peers[p] == g.peers[p] && (g.peers[p].lobbyId != "" ==> g.peers[p].lobbyId in h.lobbies)
    ensures Acting(g, p) ==> h == g
  {
    if g.peers[p].lobbyId == "" then g else Sought(g, g.peers[p].lobbyId)
  }

  function OnLobbyData(g: Game, p: Id, patch: Dict): Outcome
    requires p in g.peers
  {
    var me, h := g.peers[p], AtLobby(g, p);
    if RelayRefusal(g, p) != "" then Fail(h, me.id, RelayRefusal(g, p))
    else
      var b := h.lobbies[me.lobbyId];
      var t := Merge(b.shared, patch);
      if !t.dirty then Outcome(h.(lobbies := h.lobbies[me.lobbyId := b.(shared := t)]), [])
      else
        Outcome(h.(lobbies := h.lobbies[me.lobbyId := b.(shared := Flushed(t))]),
                Broadcast(h.disconnected, b.peerIds, {me.id}, LobbyData(t.diff)) +
                Send(h.disconnected, me.id, LobbyData(t.diff)))
  }

  function MergePeers(peers: map<Id, Peer>, ids: seq<Id>, patch: Dict): map<Id, Peer>
  {
    map q | q in peers :: if q in ids then peers[q].(shared := Merge(peers[q].shared, patch)) else peers[q]
  }

  /** A clean diff stays as it is; a dirty one is broadcast and cleared. */
  function SendPeerDiffs(g: Game, ids: seq<Id>, targets: seq<Id>, peers: map<Id, Peer>): Outcome
  {
    Outcome(
      g.(peers := map q | q in peers ::
           if q in targets && peers[q].shared.dirty then peers[q].(shared := Flushed(peers[q].shared)) else peers[q]),
      DiffNotes(g.disconnected, ids, targets, peers))
  }

  function OnDataTo(g: Game, p: Id, target: Id, patch: Dict): Outcome
    requires p in g.peers
  {
    var me, h := g.peers[p], AtLobby(g, p);
    if RelayRefusal(g, p) != "" then Fail(h, me.id, RelayRefusal(g, p))
    else
      var b := h.lobbies[me.lobbyId];
      if target == "" || target !in b.peerIds then Fail(h, me.id, "ERROR_PEER_NOT_FOUND")
      else
        var o := SendPeerDiffs(h, b.peerIds, [target], MergePeers(Touch(h.peers, [target]), [target], patch));
        Outcome(o.g, o.outs + Send(h.disconnected, me.id, Done))
  }

  function OnDataToAll(g: Game, p: Id, patch: Dict): Outcome
    requires p in g.peers
  {
    var me, h := g.peers[p], AtLobby(g, p);
    if RelayRefusal(g, p) != "" then Fail(h, me.id, RelayRefusal(g, p))
    else
      var ids := h.lobbies[me.lobbyId].peerIds;
      var o := SendPeerDiffs(h, ids, ids, MergePeers(Touch(h.peers, ids), ids, patch));
      Outcome(o.g, o.outs + Send(h.disconnected, me.id, Done))
  }

  /** `notify_lobby_changes`, for public data. */
  function NotifyChanges(g: Game, l: Id): Outcome
    requires l in g.lobbies
  {
    var b := g.lobbies[l];
    var o := SendPeerDiffs(g, b.peerIds, b.peerIds, Touch(g.peers, b.peerIds));
    if !b.shared.dirty then o
    else Outcome(o.g.(lobbies := g.lobbies[l := b.(shared := Flushed(b.shared))]),
                 o.outs + Broadcast(g.disconnected, b.peerIds, {}, LobbyData(b.shared.diff)))
  }

  /** The writes a script does in one call, target by target; it reaches its peers through `lobby.peers`. */
  function Written(g: Game, l: Id, lobbyWrites: seq<Write>, peerWrites: map<Id, seq<Write>>): Game
    requires l in g.lobbies
  {
    var b := g.lobbies[l];
    var peers := Touch(g.peers, b.peerIds);
    g.(lobbies := g.lobbies[l := b.(shared := ApplyWrites(b.shared, lobbyWrites))],
       peers := map q | q in peers ::
         if q in peerWrites then peers[q].(shared := ApplyWrites(peers[q].shared, peerWrites[q])) else peers[q])
  }

  /** `on_lobby_call` of a script function that returns no error. */
  function OnCall(g: Game, p: Id, lobbyWrites: seq<Write>, peerWrites: map<Id, seq<Write>>): Outcome
    requires p in g.peers
  {
    var me := g.peers[p];
    if me.lobbyId == "" then Fail(g, me.id, "ERROR_PEER_NOT_IN_A_LOBBY")
    else if !g.config.scripted then Fail(g, me.id, "ERROR_GAME_NOT_SCRIPTED")
    else
      var o := NotifyChanges(Written(Sought(g, me.lobbyId), me.lobbyId, lobbyWrites, peerWrites), me.lobbyId);
      Outcome(o.g, o.outs + Send(g.disconnected, me.id, Done))
  }

  // ----- listing -----

  predicate Visible(g: Game, p: Id, l: Id)
  {
    p in g.peers && l in g.lobbies && (!g.lobbies[l].sealed || g.peers[p].lobbyId == g.lobbies[l].id)
  }

  function Entries(g: Game, ids: seq<Id>): seq<Item>
    requires forall l :: l in ids ==> l in g.lobbies
  {
    if ids == [] then []
    else Entries(g, ids[..|ids| - 1]) + [Entry(SummaryOf(g.lobbies[ids[|ids| - 1]]))]
  }

  function First100(order: seq<Id>): seq<Id>
  {
    if |order| <= 100 then order else order[..100]
  }

  /** `on_list_lobby`; `order` holds the visible lobbies by creation time. */
  function OnList(g: Game, p: Id, order: seq<Id>): Outcome
    requires p in g.peers && forall l :: l in order ==> l in g.lobbies
  {
    var me := g.peers[p];
    if me.id in g.listing then Outcome(g, Send(g.disconnected, me.id, LobbyList([])))
    else Outcome(g.(listing := g.listing + {me.id}),
                 Send(g.disconnected, me.id, LobbyList(Entries(g, First100(order)))))
  }

  function OnStopList(g: Game, p: Id): Outcome
    requires p in g.peers
  {
    var me := g.peers[p];
    if me.id !in g.listing then Outcome(g, Send(g.disconnected, me.id, LobbyList([])))
    else Outcome(g.(listing := g.listing - {me.id}), Send(g.disconnected, me.id, StopListing))
  }

  function ItemOf(g: Game, l: Id): Item
  {
    if l !in g.lobbies || g.lobbies[l].sealed then Gone(l) else Entry(SummaryOf(g.lobbies[l]))
  }

  function Items(g: Game, order: seq<Id>): seq<Item>
  {
    if order == [] then [] else Items(g, order[..|order| - 1]) + [ItemOf(g, order[|order| - 1])]
  }

  /** `handle_lobby_list`; `order` runs through the updated lobbies, `readers` through the listing peers. */
  function OnFlush(g: Game, order: seq<Id>, readers: seq<Id>): Outcome
  {
    Outcome(g.(updated := {}),
            if order == [] || readers == [] then []
            else Broadcast(g.disconnected, readers, {}, LobbyList(Items(g, order))))
  }

  // ----- the disconnect sweep -----

  datatype SweepState = SweepState(g: Game, outs: seq<Out>, erased: set<Id>)

  /** One disconnected peer at its turn. */
  function SweepOne(s: SweepState, p: Id, now: int, limit: int): SweepState
    requires p in s.g.disconnected
  {
    if p !in s.g.peers then s.(erased := s.erased + {p})
    else
      var me := s.g.peers[p];
      if me.lobbyId !in s.g.lobbies then
        s.(g := s.g.(peers := s.g.peers[p := LeaveLobby(me)]), erased := s.erased + {p})
      else if now - s.g.disconnected[p] > limit then
        var o := RemovePeer(s.g, me.lobbyId, me.id, true);
        SweepState(o.g, s.outs + o.outs, s.erased + {p})
      else s
  }

  function SweepLoop(g: Game, order: seq<Id>, now: int, limit: int): (s: SweepState)
    requires forall p :: p in order ==> p in g.disconnected
    ensures s.g.disconnected == g.disconnected
  {
    if order == [] then SweepState(g, [], {})
    else SweepOne(SweepLoop(g, order[..|order| - 1], now, limit), order[|order| - 1], now, limit)
  }

  /** The erased ids leave the game; the same set is handed to the socket side. */
  function Erase(g: Game, erased: set<Id>): Game
  {
    g.(disconnected := g.disconnected - erased, peers := g.peers - erased, listing := g.listing - erased)
  }

  /** `handle_disconnects`; `order` runs through the disconnected peers. */
  function OnSweep(g: Game, order: seq<Id>, now: int, limit: int): SweepState
    requires forall p :: p in order ==> p in g.disconnected
  {
    var s := SweepLoop(g, order, now, limit);
    s.(g := Erase(s.g, s.erased))
  }
}
