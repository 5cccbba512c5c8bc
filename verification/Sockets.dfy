/** The socket side: live sockets, the two maps of the server, and the stream of events it queues for the games. */
module Sockets {
  import opened FlatSets
  import opened RateLimiter

  const MAX_RECONNECTION_TIME := 360_000

  type Handle = nat

  datatype Socket = Socket(id: Id, game: Id, token: string, open: bool, meter: Meter)
  datatype Link = NoSocket | Live(h: Handle)
  datatype Conn = Conn(id: Id, game: Id, token: string, ws: Link)
  datatype Recon = Recon(peer: Id, stamp: int)
  datatype Event = Opened(id: Id, game: Id) | Message(id: Id, game: Id, text: string) | Closed(id: Id, game: Id)

  /** `events` is everything ever queued, in order. */
  datatype Server = Server(
    sockets: map<Handle, Socket>, conns: map<Id, Conn>, recons: map<string, Recon>, events: seq<Event>)

  const START := Server(map[], map[], map[], [])

  /** A socket as it comes out of the upgrade; `id` and `uuid` are fresh. */
  datatype Hello = Hello(
    h: Handle, id: Id, game: Id, token: string, platform: string, platformId: string, uuid: string, now: int)

  /** The index of `reconnections`: two strings put together, with nothing between them. */
  function Key(game: Id, token: string): string
  {
    game + token
  }

  function KeyOf(c: Conn): string
  {
    Key(c.game, c.token)
  }

  // ----- the handlers -----

  /** `on_close`: the entry is cleared only if it still holds this very socket. */
  function OnClose(s: Server, h: Handle): Server
    requires h in s.sockets
  {
    var d := s.sockets[h];
    s.(sockets := s.sockets[h := d.(open := false)],
       conns := if d.id in s.conns && d.token == s.conns[d.id].token && s.conns[d.id].ws == Live(h)
                then s.conns[d.id := s.conns[d.id].(ws := NoSocket)] else s.conns,
       events := s.events + [Closed(d.id, d.game)])
  }

  /** `ws->end` runs the close handler before it returns. */
  function End(s: Server, h: Handle): Server
  {
    if h in s.sockets && s.sockets[h].open then OnClose(s, h) else s
  }

  /** `send` with CLOSE. */
  function SendClose(s: Server, p: Id): Server
  {
    if p in s.conns && s.conns[p].ws.Live? then
      var s1 := End(s, s.conns[p].ws.h);
      s1.(conns := s1.conns[p := s1.conns[p].(ws := NoSocket)])
    else s
  }

  /** The token a socket ends up with. */
  function TokenOf(d: Hello): string
  {
    if d.platform != "anon" then d.platform + ":" + d.platformId
    else if d.token == "" then d.uuid
    else d.token
  }

  /** The second half of `on_open`.  `emplace` keeps an index entry that is already there. */
  function Register(s: Server, d: Hello, p: Id): Server
  {
    var k := Key(d.game, TokenOf(d));
    Server(
      s.sockets[d.h := Socket(p, d.game, TokenOf(d), true, Meter(0, 0))],
      s.conns[p := Conn(p, d.game, TokenOf(d), Live(d.h))],
      if k in s.recons then s.recons else s.recons[k := Recon(p, d.now)],
      s.events + [Opened(p, d.game)])
  }

  function Unindexed(s: Server, k: string): Server
  {
    s.(recons := s.recons - {k})
  }

  function Arrived(s: Server, d: Hello): Server
  {
    s.(sockets := s.sockets[d.h := Socket(d.id, d.game, d.token, true, Meter(0, 0))])
  }

  /** `on_open`. */
  function OnOpen(s: Server, d: Hello): Server
  {
    var s0, k := Arrived(s, d), Key(d.game, d.token);
    if d.token != "" && k in s.recons then
      var was := s.recons[k];
      if was.stamp < d.now - MAX_RECONNECTION_TIME then End(Unindexed(s0, k), d.h)
      else if was.peer !in s.conns then End(Unindexed(s0, k), d.h)
      else if s.conns[was.peer].game != d.game then End(s0, d.h)
      else Register(Unindexed(SendClose(s0, was.peer), k), d, was.peer)
    else Register(s0, d, d.id)
  }

  /** `on_message`; `room` says whether the bounded queue takes it. */
  function OnMessage(s: Server, h: Handle, text: string, now: int, max: nat, room: bool): Server
    requires h in s.sockets
  {
    var d := s.sockets[h];
    var m := Arrive(d.meter, now);
    var s1 := s.(sockets := s.sockets[h := d.(meter := m)]);
    if m.count > max || !room then SendClose(s1, d.id)
    else s1.(events := s1.events + [Message(d.id, d.game, text)])
  }

  function ClearUser(s: Server, p: Id): Server
  {
    var s1 := SendClose(s, p);
    if p !in s1.conns then s1
    else s1.(recons := s1.recons - {KeyOf(s1.conns[p])}, conns := s1.conns - {p})
  }

  /** `clear_users`. */
  function ClearUsers(s: Server, ids: seq<Id>): Server
  {
    if ids == [] then s else ClearUser(ClearUsers(s, ids[..|ids| - 1]), ids[|ids| - 1])
  }

  // ----- what is queued for one peer -----

  /** Where the events of one peer have brought it; the game is the one it opened for. */
  datatype Phase = Fresh | Up(game: Id) | Down(game: Id) | Rejected | Broken

  /** (OPEN MESSAGE* CLOSE)*, always for one game, or a lone CLOSE. */
  function Next(ph: Phase, e: Event, p: Id): Phase
  {
    if e.id != p then ph
    else
      match e
      case Opened(_, g) => if ph.Fresh? || ph == Down(g) then Up(g) else Broken
      case Message(_, g, _) => if ph == Up(g) then ph else Broken
      case Closed(_, g) => if ph == Up(g) then Down(g) else if ph.Fresh? then Rejected else Broken
  }

  function PhaseOf(events: seq<Event>, p: Id): Phase
  {
    if events == [] then Fresh else Next(PhaseOf(events[..|events| - 1], p), events[|events| - 1], p)
  }

  lemma PhaseMore(events: seq<Event>, e: Event, p: Id)
    ensures PhaseOf(events + [e], p) == Next(PhaseOf(events, p), e, p)
  {
    assert (events + [e])[..|events|] == events;
  }

  // ----- the invariant -----

  /** An open socket is the one its peer's entry holds. */
  ghost predicate SocketOk(s: Server, h: Handle)
    requires h in s.sockets
  {
    var d := s.sockets[h];
    d.open ==> d.id in s.conns && s.conns[d.id] == Conn(d.id, d.game, d.token, Live(h))
  }

  /** A socket an entry holds is open and is its peer's. */
  ghost predicate ConnOk(s: Server, p: Id)
    requires p in s.conns
  {
    var c := s.conns[p];
    && c.id == p
    && (c.ws.Live? ==>
          && c.ws.h in s.sockets && s.sockets[c.ws.h].open && s.sockets[c.ws.h].id == p
          && s.sockets[c.ws.h].game == c.game && s.sockets[c.ws.h].token == c.token)
  }

  ghost predicate ReconOk(s: Server, k: string)
    requires k in s.recons
  {
    s.recons[k].peer in s.conns && KeyOf(s.conns[s.recons[k].peer]) == k
  }

  ghost predicate PhaseOk(s: Server, p: Id)
  {
    var ph := PhaseOf(s.events, p);
    if p in s.conns then p != "" && ph == if s.conns[p].ws.Live? then Up(s.conns[p].game) else Down(s.conns[p].game)
    else ph.Fresh? || ((ph.Rejected? || ph.Down?) && p != "")
  }

  /** Everything but the socket `x`, which is between its arrival and its registration. */
  ghost predicate OkBut(s: Server, x: set<Handle>)
  {
    && (forall h :: h in s.sockets && h !in x ==> SocketOk(s, h))
    && (forall p :: p in s.conns ==> ConnOk(s, p) && (s.conns[p].ws.Live? ==> s.conns[p].ws.h !in x))
    && (forall k :: k in s.recons ==> ReconOk(s, k))
    && (forall p :: PhaseOk(s, p))
  }

  ghost predicate Ok(s: Server)
  {
    OkBut(s, {})
  }

  /** What the upgrade hands over: a new handle and an id, not empty, that no event has named. */
  ghost predicate Newcomer(s: Server, d: Hello)
  {
    d.h !in s.sockets && d.id != "" && PhaseOf(s.events, d.id).Fresh?
  }

  // ----- every handler keeps it -----

  lemma CloseKeeps(s: Server, x: set<Handle>, h: Handle)
    requires OkBut(s, x) && h in s.sockets && s.sockets[h].open && h !in x
    ensures OkBut(OnClose(s, h), x)
  {
    var d, s' := s.sockets[h], OnClose(s, h);
    assert SocketOk(s, h);
    forall g | g in s'.sockets && g !in x ensures SocketOk(s', g) { assert SocketOk(s, g); }
    forall p | p in s'.conns ensures ConnOk(s', p) { assert ConnOk(s, p); }
    forall k | k in s'.recons ensures ReconOk(s', k) { assert ReconOk(s, k); }
    forall p ensures PhaseOk(s', p) {
      assert PhaseOk(s, p);
      PhaseMore(s.events, Closed(d.id, d.game), p);
    }
  }

  /** A close message to a peer closes its socket through the close handler, and the entry is already clear. */
  lemma SendCloseIs(s: Server, x: set<Handle>, p: Id)
    requires OkBut(s, x)
    ensures SendClose(s, p) == if p in s.conns && s.conns[p].ws.Live? then OnClose(s, s.conns[p].ws.h) else s
  {
    if p in s.conns && s.conns[p].ws.Live? {
      assert ConnOk(s, p);
      var s1 := OnClose(s, s.conns[p].ws.h);
      assert s1.conns[p := s1.conns[p].(ws := NoSocket)] == s1.conns;
    }
  }

  lemma SendCloseKeeps(s: Server, x: set<Handle>, p: Id)
    requires OkBut(s, x)
    ensures OkBut(SendClose(s, p), x)
    ensures p !in s.conns ==> SendClose(s, p) == s
    ensures p in s.conns ==> var s' := SendClose(s, p);
            && s'.conns == s.conns[p := s.conns[p].(ws := NoSocket)] && s'.recons == s.recons
            && PhaseOf(s'.events, p) == Down(s.conns[p].game)
  {
    SendCloseIs(s, x, p);
    if p in s.conns {
      assert ConnOk(s, p) && PhaseOk(s, p);
      if s.conns[p].ws.Live? {
        CloseKeeps(s, x, s.conns[p].ws.h);
        PhaseMore(s.events, Closed(p, s.conns[p].game), p);
      } else {
        assert s.conns[p := s.conns[p].(ws := NoSocket)] == s.conns;
      }
    }
  }

  lemma ArrivedKeeps(s: Server, d: Hello)
    requires Ok(s) && Newcomer(s, d)
    ensures OkBut(Arrived(s, d), {d.h}) && d.id !in s.conns
  {
    var s' := Arrived(s, d);
    assert PhaseOk(s, d.id);
    forall g | g in s'.sockets && g !in {d.h} ensures SocketOk(s', g) { assert SocketOk(s, g); }
    forall p | p in s'.conns ensures ConnOk(s', p) { assert ConnOk(s, p); }
    forall k | k in s'.recons ensures ReconOk(s', k) { assert ReconOk(s, k); }
    forall p ensures PhaseOk(s', p) { assert PhaseOk(s, p); }
  }

  lemma UnindexedKeeps(s: Server, x: set<Handle>, k: string)
    requires OkBut(s, x)
    ensures OkBut(Unindexed(s, k), x)
  {
    var s' := Unindexed(s, k);
    forall g | g in s'.sockets && g !in x ensures SocketOk(s', g) { assert SocketOk(s, g); }
    forall p | p in s'.conns ensures ConnOk(s', p) { assert ConnOk(s, p); }
    forall j | j in s'.recons ensures ReconOk(s', j) { assert ReconOk(s, j); }
    forall p ensures PhaseOk(s', p) { assert PhaseOk(s, p); }
  }

  /** A turned-away socket leaves nothing but its own lone CLOSE. */
  lemma RejectKeeps(s: Server, d: Hello)
    requires OkBut(s, {d.h}) && d.id !in s.conns && d.id != "" && PhaseOf(s.events, d.id).Fresh?
    requires d.h in s.sockets && s.sockets[d.h] == Socket(d.id, d.game, d.token, true, Meter(0, 0))
    ensures Ok(End(s, d.h))
    ensures End(s, d.h) == s.(sockets := s.sockets[d.h := s.sockets[d.h].(open := false)],
                              events := s.events + [Closed(d.id, d.game)])
  {
    var s' := End(s, d.h);
    forall g | g in s'.sockets ensures SocketOk(s', g) { if g != d.h { assert SocketOk(s, g); } }
    forall p | p in s'.conns ensures ConnOk(s', p) { assert ConnOk(s, p); }
    forall k | k in s'.recons ensures ReconOk(s', k) { assert ReconOk(s, k); }
    forall p ensures PhaseOk(s', p) {
      assert PhaseOk(s, p);
      PhaseMore(s.events, Closed(d.id, d.game), p);
    }
  }

  /** Registration under a new id, or under the id of an entry of the same game that holds no socket and no index. */
  lemma RegisterKeeps(s: Server, d: Hello, p: Id)
    requires OkBut(s, {d.h}) && d.h in s.sockets
    requires if p in s.conns then s.conns[p].game == d.game && s.conns[p].ws.NoSocket?
             else p != "" && PhaseOf(s.events, p).Fresh?
    requires forall k :: k in s.recons ==> s.recons[k].peer != p
    ensures Ok(Register(s, d, p))
  {
    var s' := Register(s, d, p);
    assert PhaseOk(s, p);
    forall g | g in s'.sockets ensures SocketOk(s', g) { if g != d.h { assert SocketOk(s, g); } }
    forall q | q in s'.conns ensures ConnOk(s', q) { if q != p { assert ConnOk(s, q); } }
    forall k | k in s'.recons ensures ReconOk(s', k) { if k in s.recons { assert ReconOk(s, k); } }
    forall q ensures PhaseOk(s', q) {
      assert PhaseOk(s, q);
      PhaseMore(s.events, Opened(p, d.game), q);
    }
  }

  lemma OpenKeeps(s: Server, d: Hello)
    requires Ok(s) && Newcomer(s, d)
    ensures Ok(OnOpen(s, d))
  {
    hide OkBut, SendClose, Register, End;
    var s0, k := Arrived(s, d), Key(d.game, d.token);
    ArrivedKeeps(s, d);
    if d.token != "" && k in s.recons {
      var was := s.recons[k];
      IndexHits(s, k);
      if was.stamp < d.now - MAX_RECONNECTION_TIME {
        UnindexedKeeps(s0, {d.h}, k);
        RejectKeeps(Unindexed(s0, k), d);
      } else if s.conns[was.peer].game != d.game {
        RejectKeeps(s0, d);
      } else {
        TakeoverKeeps(s, d);
      }
    } else {
      NotIndexed(s0, {d.h}, d.id);
      RegisterKeeps(s0, d, d.id);
    }
  }

  /** An index entry names a peer that is there, whose game and token it was built from. */
  lemma IndexHits(s: Server, k: string)
    requires Ok(s) && k in s.recons
    ensures s.recons[k].peer in s.conns && KeyOf(s.conns[s.recons[k].peer]) == k
  {
    assert ReconOk(s, k);
  }

  lemma NotIndexed(s: Server, x: set<Handle>, p: Id)
    requires OkBut(s, x) && p !in s.conns
    ensures forall k :: k in s.recons ==> s.recons[k].peer != p
  {
    forall k | k in s.recons ensures s.recons[k].peer != p { assert ReconOk(s, k); }
  }

  lemma TakeoverKeeps(s: Server, d: Hello)
    requires Ok(s) && Newcomer(s, d) && Key(d.game, d.token) in s.recons
    requires var p := s.recons[Key(d.game, d.token)].peer; p in s.conns && s.conns[p].game == d.game
    ensures var k, p := Key(d.game, d.token), s.recons[Key(d.game, d.token)].peer;
            Ok(Register(Unindexed(SendClose(Arrived(s, d), p), k), d, p))
  {
    hide SendClose;
    var s0, k := Arrived(s, d), Key(d.game, d.token);
    var p := s.recons[k].peer;
    ArrivedKeeps(s, d);
    SendCloseKeeps(s0, {d.h}, p);
    SendCloseSockets(s0, {d.h}, p);
    var s1 := SendClose(s0, p);
    UnindexedKeeps(s1, {d.h}, k);
    forall j | j in s.recons && j != k ensures s.recons[j].peer != p { assert ReconOk(s, j) && ReconOk(s, k); }
    RegisterKeeps(Unindexed(s1, k), d, p);
  }

  lemma SendCloseSockets(s: Server, x: set<Handle>, p: Id)
    requires OkBut(s, x)
    ensures SendClose(s, p).sockets.Keys == s.sockets.Keys
  {
    SendCloseIs(s, x, p);
  }

  lemma MessageKeeps(s: Server, h: Handle, text: string, now: int, max: nat, room: bool)
    requires Ok(s) && h in s.sockets && s.sockets[h].open
    ensures Ok(OnMessage(s, h, text, now, max, room))
  {
    hide SendClose;
    var d := s.sockets[h];
    var s1 := s.(sockets := s.sockets[h := d.(meter := Arrive(d.meter, now))]);
    MeterKeeps(s, h, Arrive(d.meter, now));
    if Arrive(d.meter, now).count > max || !room {
      SendCloseKeeps(s1, {}, d.id);
    } else {
      QueuedKeeps(s1, h, text);
    }
  }

  lemma MeterKeeps(s: Server, h: Handle, m: Meter)
    requires Ok(s) && h in s.sockets
    ensures Ok(s.(sockets := s.sockets[h := s.sockets[h].(meter := m)]))
  {
    var s' := s.(sockets := s.sockets[h := s.sockets[h].(meter := m)]);
    forall g | g in s'.sockets ensures SocketOk(s', g) { assert SocketOk(s, g); }
    forall p | p in s'.conns ensures ConnOk(s', p) { assert ConnOk(s, p); }
    forall k | k in s'.recons ensures ReconOk(s', k) { assert ReconOk(s, k); }
    forall p ensures PhaseOk(s', p) { assert PhaseOk(s, p); }
  }

  lemma QueuedKeeps(s: Server, h: Handle, text: string)
    requires Ok(s) && h in s.sockets && s.sockets[h].open
    ensures Ok(s.(events := s.events + [Message(s.sockets[h].id, s.sockets[h].game, text)]))
  {
    var d := s.sockets[h];
    var s' := s.(events := s.events + [Message(d.id, d.game, text)]);
    assert SocketOk(s, h);
    forall g | g in s'.sockets ensures SocketOk(s', g) { assert SocketOk(s, g); }
    forall p | p in s'.conns ensures ConnOk(s', p) { assert ConnOk(s, p); }
    forall k | k in s'.recons ensures ReconOk(s', k) { assert ReconOk(s, k); }
    forall p ensures PhaseOk(s', p) {
      assert PhaseOk(s, p);
      PhaseMore(s.events, Message(d.id, d.game, text), p);
    }
  }

  lemma ClearUserKeeps(s: Server, p: Id)
    requires Ok(s)
    ensures Ok(ClearUser(s, p))
  {
    hide SendClose;
    var s1 := SendClose(s, p);
    SendCloseKeeps(s, {}, p);
    if p in s1.conns { ForgottenKeeps(s1, p); }
  }

  lemma ForgottenKeeps(s: Server, p: Id)
    requires Ok(s) && p in s.conns && s.conns[p].ws.NoSocket?
    ensures Ok(s.(recons := s.recons - {KeyOf(s.conns[p])}, conns := s.conns - {p}))
  {
    var s' := s.(recons := s.recons - {KeyOf(s.conns[p])}, conns := s.conns - {p});
    forall g | g in s'.sockets ensures SocketOk(s', g) { assert SocketOk(s, g); }
    forall q | q in s'.conns ensures ConnOk(s', q) { assert ConnOk(s, q); }
    forall k | k in s'.recons ensures ReconOk(s', k) { assert ReconOk(s, k); }
    forall q ensures PhaseOk(s', q) { assert PhaseOk(s, q); }
  }

  lemma {:induction false} ClearKeeps(s: Server, ids: seq<Id>)
    requires Ok(s)
    ensures Ok(ClearUsers(s, ids))
  {
    hide OkBut;
    if ids != [] {
      ClearKeeps(s, ids[..|ids| - 1]);
      ClearUserKeeps(ClearUsers(s, ids[..|ids| - 1]), ids[|ids| - 1]);
    }
  }
}
