/** What becomes of an arriving socket, of a closed one and of a cleared user, in the fields of the server. */
module Arrivals {
  import opened FlatSets
  import opened RateLimiter
  import opened Sockets

  /** The index entry that a token leads to is there, young enough, and for this game. */
  predicate Welcome(s: Server, d: Hello)
  {
    var k := d.game + d.token;
    && d.token != "" && k in s.recons && d.now - s.recons[k].stamp <= 360_000
    && s.recons[k].peer in s.conns && s.conns[s.recons[k].peer].game == d.game
  }

  /** No token, or none the server knows. */
  predicate Unknown(s: Server, d: Hello)
  {
    d.token == "" || d.game + d.token !in s.recons
  }

  /** The token that is kept: named users have theirs, anonymous ones the one they present, or a new one. */
  function Kept(d: Hello): string
  {
    if d.platform != "anon" then d.platform + ":" + d.platformId else if d.token == "" then d.uuid else d.token
  }

  /** All sockets but the arriving one and `x` are as they were. */
  predicate OtherSockets(s: Server, s': Server, d: Hello, x: set<Handle>)
  {
    && s'.sockets.Keys == s.sockets.Keys + {d.h}
    && forall h :: h in s.sockets && h !in x && h != d.h ==> s'.sockets[h] == s.sockets[h]
  }

  /** The newest socket is the peer's, open, and the entry holds it. */
  predicate Holds(s: Server, d: Hello, p: Id)
  {
    && d.h in s.sockets && s.sockets[d.h] == Socket(p, d.game, Kept(d), true, Meter(0, 0))
    && p in s.conns && s.conns[p] == Conn(p, d.game, Kept(d), Live(d.h))
  }

  /**
   A valid token gives the peer back: the new socket is the peer's, its old one, if it was open, is closed, the game is
   told of the close and then of the opening, and nobody else is touched.
   */
  lemma ReturnEffect(s: Server, d: Hello)
    requires Ok(s) && Newcomer(s, d) && Welcome(s, d)
    ensures var s', p := OnOpen(s, d), s.recons[d.game + d.token].peer;
            && Holds(s', d, p) && d.id !in s'.conns
            && s'.conns.Keys == s.conns.Keys && (forall q :: q in s.conns && q != p ==> s'.conns[q] == s.conns[q])
            && OtherSockets(s, s', d, if s.conns[p].ws.Live? then {s.conns[p].ws.h} else {})
            && (s.conns[p].ws.Live? ==>
                  && s.conns[p].ws.h in s.sockets && s.conns[p].ws.h != d.h
                  && s'.sockets[s.conns[p].ws.h] == s.sockets[s.conns[p].ws.h].(open := false))
            && s'.events == s.events + (if s.conns[p].ws.Live? then [Closed(p, d.game)] else []) + [Opened(p, d.game)]
  {
    hide OkBut;
    var s0, p := Arrived(s, d), s.recons[Key(d.game, d.token)].peer;
    ArrivedKeeps(s, d);
    SendCloseIs(s0, {d.h}, p);
    EntryFacts(s, p);
  }

  lemma EntryFacts(s: Server, p: Id)
    requires Ok(s) && p in s.conns
    ensures p != "" && var c := s.conns[p];
            c.ws.Live? ==> c.ws.h in s.sockets && s.sockets[c.ws.h].open && s.sockets[c.ws.h].id == p &&
                           s.sockets[c.ws.h].game == c.game && s.sockets[c.ws.h].token == c.token
  {
    assert ConnOk(s, p) && PhaseOk(s, p);
  }

  /** And the way back is open again, from now on, under the token that is kept. */
  lemma ReturnIndexes(s: Server, d: Hello)
    requires Ok(s) && Newcomer(s, d) && Welcome(s, d)
    ensures var s', k, k' := OnOpen(s, d), d.game + d.token, d.game + Kept(d);
            && s'.recons.Keys == (s.recons.Keys - {k}) + {k'}
            && (k' == k || k' !in s.recons ==> s'.recons[k'] == Recon(s.recons[k].peer, d.now))
            && (forall j :: j in s.recons && j != k ==> s'.recons[j] == s.recons[j])
  {
    hide OkBut;
    var s0, p := Arrived(s, d), s.recons[Key(d.game, d.token)].peer;
    ArrivedKeeps(s, d);
    SendCloseIs(s0, {d.h}, p);
  }

  /** A stranger comes in under its own new id. */
  lemma FirstEffect(s: Server, d: Hello)
    requires Ok(s) && Newcomer(s, d) && Unknown(s, d)
    ensures var s', k' := OnOpen(s, d), d.game + Kept(d);
            && Holds(s', d, d.id) && d.id !in s.conns
            && s'.conns.Keys == s.conns.Keys + {d.id} && (forall q :: q in s.conns ==> s'.conns[q] == s.conns[q])
            && OtherSockets(s, s', d, {})
            && s'.recons == (if k' in s.recons then s.recons else s.recons[k' := Recon(d.id, d.now)])
            && s'.events == s.events + [Opened(d.id, d.game)]
  {
    hide OkBut;
    ArrivedKeeps(s, d);
  }

  /** A token that is too old, or for another game, gets the socket closed; only one too old is forgotten. */
  lemma TurnedAwayEffect(s: Server, d: Hello)
    requires Ok(s) && Newcomer(s, d) && !Welcome(s, d) && !Unknown(s, d)
    ensures var s', k := OnOpen(s, d), d.game + d.token;
            && d.h in s'.sockets && s'.sockets[d.h] == Socket(d.id, d.game, d.token, false, Meter(0, 0))
            && s'.conns == s.conns && d.id !in s.conns && OtherSockets(s, s', d, {})
            && s'.recons == (if d.now - s.recons[k].stamp > 360_000 then s.recons - {k} else s.recons)
            && s'.events == s.events + [Closed(d.id, d.game)]
  {
    hide OkBut, End;
    var s0, k := Arrived(s, d), Key(d.game, d.token);
    ArrivedKeeps(s, d);
    IndexHits(s, k);
    UnindexedKeeps(s0, {d.h}, k);
    RejectKeeps(s0, d);
    RejectKeeps(Unindexed(s0, k), d);
  }

  // ----- messages -----

  /** Within the limit and with room the text is queued as it is; otherwise the socket that sent it is closed. */
  lemma MessageEffect(s: Server, h: Handle, text: string, now: int, max: nat, room: bool)
    requires Ok(s) && h in s.sockets && s.sockets[h].open
    ensures var s', d := OnMessage(s, h, text, now, max, room), s.sockets[h];
            var m := Arrive(d.meter, now);
            && s'.recons == s.recons && d.id in s.conns
            && if m.count <= max && room then
                 && s'.sockets == s.sockets[h := d.(meter := m)] && s'.conns == s.conns
                 && s'.events == s.events + [Message(d.id, d.game, text)]
               else
                 && s'.sockets == s.sockets[h := d.(meter := m, open := false)]
                 && s'.conns == s.conns[d.id := s.conns[d.id].(ws := NoSocket)]
                 && s'.events == s.events + [Closed(d.id, d.game)]
  {
    hide OkBut, SendClose;
    var d := s.sockets[h];
    var s1 := s.(sockets := s.sockets[h := d.(meter := Arrive(d.meter, now))]);
    MeterKeeps(s, h, Arrive(d.meter, now));
    OpenIsHeld(s1, h);
    SendCloseIs(s1, {}, d.id);
    OpenToken(s1, h);
  }

  lemma OpenToken(s: Server, h: Handle)
    requires Ok(s) && h in s.sockets && s.sockets[h].open
    ensures s.sockets[h].id in s.conns && s.conns[s.sockets[h].id].token == s.sockets[h].token
  {
    assert SocketOk(s, h);
  }

  // ----- closing and clearing -----

  lemma CloseEffect(s: Server, h: Handle)
    requires Ok(s) && h in s.sockets && s.sockets[h].open
    ensures var s', d := OnClose(s, h), s.sockets[h];
            && s'.sockets == s.sockets[h := d.(open := false)] && s'.recons == s.recons
            && d.id in s.conns && s'.conns == s.conns[d.id := s.conns[d.id].(ws := NoSocket)]
            && s'.events == s.events + [Closed(d.id, d.game)]
  {
    assert SocketOk(s, h);
  }

  /** A cleared user has no entry and no open socket any more, and its key leads nowhere. */
  lemma ClearUserEffect(s: Server, p: Id)
    requires Ok(s)
    ensures var s' := ClearUser(s, p);
            && s'.conns == s.conns - {p}
            && s'.recons == (if p in s.conns then s.recons - {s.conns[p].game + s.conns[p].token} else s.recons)
            && s'.sockets.Keys == s.sockets.Keys
            && (forall h :: h in s.sockets ==>
                  s'.sockets[h] == if s.sockets[h].id == p then s.sockets[h].(open := false) else s.sockets[h])
  {
    hide OkBut;
    SendCloseIs(s, {}, p);
    if p in s.conns {
      EntryFacts(s, p);
    } else {
      assert s.conns - {p} == s.conns;
    }
    forall h | h in s.sockets && s.sockets[h].open && s.sockets[h].id == p
      ensures p in s.conns && s.conns[p].ws == Live(h)
    {
      OpenIsHeld(s, h);
    }
  }

  lemma OpenIsHeld(s: Server, h: Handle)
    requires Ok(s) && h in s.sockets && s.sockets[h].open
    ensures s.sockets[h].id in s.conns && s.conns[s.sockets[h].id].ws == Live(h)
  {
    assert SocketOk(s, h);
  }

  lemma {:induction false} ClearEffect(s: Server, ids: seq<Id>)
    requires Ok(s)
    ensures var s' := ClearUsers(s, ids);
            && (forall p :: p in s'.conns <==> p in s.conns && p !in ids)
            && (forall p :: p in s'.conns ==> s'.conns[p] == s.conns[p])
            && (forall k :: k in s'.recons <==>
                  k in s.recons && forall p :: p in ids && p in s.conns ==> k != s.conns[p].game + s.conns[p].token)
            && (forall k :: k in s'.recons ==> s'.recons[k] == s.recons[k])
            && s'.sockets.Keys == s.sockets.Keys
            && (forall h :: h in s.sockets ==>
                  s'.sockets[h] == if s.sockets[h].id in ids then s.sockets[h].(open := false) else s.sockets[h])
  {
    hide OkBut, ClearUser;
    if ids != [] {
      var n := |ids| - 1;
      assert ids == ids[..n] + [ids[n]];
      ClearEffect(s, ids[..n]);
      ClearKeeps(s, ids[..n]);
      ClearUserEffect(ClearUsers(s, ids[..n]), ids[n]);
    }
  }
}
