/** The state of one game, the messages it sends, and the few primitives every handler uses. */
module GameState {
  import opened FlatSets
  import opened AnyTypes
  import opened SharedData

  /** `scripted` is `lobby_control == "lua"`; otherwise the game is a relay. */
  datatype Config = Config(scripted: bool, disbandOnLeave: bool)

  datatype Peer = Peer(id: Id, orderId: int, lobbyId: Id, ready: bool, disconnected: bool, shared: Tracked)

  datatype Lobby = Lobby(
    id: Id, name: string, host: Id, password: string, maxPlayers: int64, peerIds: seq<Id>, orderedIds: seq<Id>,
    createTime: int, sealed: bool, tags: Dict, orderCounter: int, shared: Tracked)

  datatype Game = Game(
    config: Config, peers: map<Id, Peer>, disconnected: map<Id, int>, lobbies: map<Id, Lobby>,
    listing: set<Id>, updated: set<Id>)

  function NewGame(config: Config): Game
  {
    Game(config, map[], map[], map[], {}, {})
  }

  function NewPeer(id: Id): Peer
  {
    Peer(id, 0, "", false, false, Clean(map[]))
  }

  /** `PeerData::leave_lobby`; the diff is left alone. */
  function LeaveLobby(p: Peer): Peer
  {
    p.(lobbyId := "", ready := false, orderId := 0, disconnected := false, shared := p.shared.(data := map[]))
  }

  /** `game.peers[id]` inserts a default entry, whose own `id` field is empty, when the key is missing. */
  function Touch(peers: map<Id, Peer>, ids: seq<Id>): map<Id, Peer>
  {
    map k | k in peers.Keys + (set x | x in ids) :: At(peers, k)
  }

  function At(peers: map<Id, Peer>, id: Id): Peer
  {
    if id in peers then peers[id] else NewPeer("")
  }

  lemma TouchTwice(peers: map<Id, Peer>, a: seq<Id>, b: seq<Id>)
    ensures Touch(Touch(peers, a), b) == Touch(peers, a + b)
  {
  }

  /** `LobbyData{}`, which `game.lobbies[id]` inserts when the id is missing. */
  const NO_LOBBY := Lobby("", "", "", "", 0, [], [], 0, false, map[], 0, Clean(map[]))

  function Sought(g: Game, l: Id): (h: Game)
    ensures l in h.lobbies && (l in g.lobbies ==> h == g)
  {
    if l in g.lobbies then g else g.(lobbies := g.lobbies[l := NO_LOBBY])
  }

  /** `int64_t` compared with `size_t` converts to unsigned 64-bit. */
  function U64(m: int64): uint64
  {
    if m < 0 then m + 0x1_0000_0000_0000_0000 else m
  }

  // ----- what clients see -----

  /** The listing entry of a lobby, without the public data field. */
  datatype Summary = Summary(
    id: Id, name: string, host: Id, sealed: bool, maxPlayers: int64, count: nat, createTime: int, hasPassword: bool,
    tags: Dict)

  function SummaryOf(b: Lobby): Summary
  {
    Summary(b.id, b.name, b.host, b.sealed, b.maxPlayers, |b.peerIds|, b.createTime, b.password != "", b.tags)
  }

  datatype PeerView = PeerView(id: Id, orderId: int, lobbyId: Id, data: Dict, disconnected: bool, ready: bool)

  function ViewOf(p: Peer): PeerView
  {
    PeerView(p.id, p.orderId, p.lobbyId, p.shared.data, p.disconnected, p.ready)
  }

  /** `peers_to_array`. */
  function PeersArray(peers: map<Id, Peer>, ids: seq<Id>): seq<PeerView>
  {
    if ids == [] then [] else PeersArray(peers, ids[..|ids| - 1]) + [ViewOf(At(peers, ids[|ids| - 1]))]
  }

  /** An entry of a lobby list; only the id when the lobby is gone or sealed. */
  datatype Item = Entry(summary: Summary) | Gone(id: Id)

  /** A change to a lobby's settings. */
  datatype Edit =
    | Resize(max: int64)
    | Retitle(name: string)
    | Protect(password: string)
    | Retag(tags: Dict)
    | Seal(sealed: bool)

  datatype Note =
    | PeerState(peer: PeerView)
    | Created(lobby: Summary, data: Dict, peers: seq<PeerView>)
    | Joined(lobby: Summary, data: Dict, peers: seq<PeerView>)
    | LobbyLeft
    | LobbyKicked
    | PeerJoined(peer: PeerView)
    | PeerLeft(p: Id, kicked: bool)
    | PeerReconnected(p: Id)
    | PeerDisconnected(p: Id)
    | PeerReady(p: Id)
    | PeerUnready(p: Id)
    | Hosted(host: Id)
    | Edited(edit: Edit)
    | LobbyData(diff: Dict)
    | DataTo(target: Id, diff: Dict)
    | LobbyList(items: seq<Item>)
    | StopListing
    | Chatted(p: Id)
    | UserDataOf(p: Id)
    | Told(p: Id)
    | Done
    | Error(message: string)

  /** One message accepted for one peer. */
  datatype Out = Out(to: Id, note: Note)

  /** `GameThread::send` for a TEXT message: nothing is accepted for a disconnected peer. */
  function Send(off: map<Id, int>, to: Id, note: Note): seq<Out>
  {
    if to in off then [] else [Out(to, note)]
  }

  /** The loop over `peer_ids` that sends `note` to all but `skip`. */
  function Broadcast(off: map<Id, int>, ids: seq<Id>, skip: set<Id>, note: Note): seq<Out>
  {
    if ids == [] then []
    else
      var n := |ids| - 1;
      Broadcast(off, ids[..n], skip, note) + if ids[n] in skip then [] else Send(off, ids[n], note)
  }

  /** The diffs of the dirty peers among `targets`, each sent to all of `ids`. */
  function DiffNotes(off: map<Id, int>, ids: seq<Id>, targets: seq<Id>, peers: map<Id, Peer>): seq<Out>
  {
    if targets == [] then []
    else
      var n := |targets| - 1;
      var t := At(peers, targets[n]).shared;
      DiffNotes(off, ids, targets[..n], peers) +
      if t.dirty then Broadcast(off, ids, {}, DataTo(targets[n], t.diff)) else []
  }

  function Flushed(t: Tracked): Tracked
  {
    Clean(t.data)
  }

  /** The order of `peer_ordered_ids` after `std::sort` by order id; equal keys keep their places. */
  function SortByOrder(ids: seq<Id>, peers: map<Id, Peer>): seq<Id>
  {
    if ids == [] then []
    else InsertByOrder(SortByOrder(ids[..|ids| - 1], peers), ids[|ids| - 1], peers)
  }

  function InsertByOrder(ids: seq<Id>, x: Id, peers: map<Id, Peer>): seq<Id>
  {
    if ids == [] then [x]
    else
      var n := |ids| - 1;
      if At(peers, x).orderId < At(peers, ids[n]).orderId then InsertByOrder(ids[..n], x, peers) + [ids[n]]
      else ids + [x]
  }
}
