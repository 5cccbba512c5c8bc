/** Every interleaving of the two threads: no message is lost to an unknown peer, and exactly when no peer is leaked. */
module SystemRuns {
  import opened FlatSets
  import opened AnyTypes
  import opened SharedData
  import opened GameState
  import opened Handlers
  import opened Membership
  import opened Invariants
  import opened Sweep
  import Runs
  import opened Lookups
  import opened Sockets
  import Net = Reconnection
  import opened Systems

  /** The turns can be taken one after the other. */
  ghost predicate Legal(configs: map<Id, Config>, turns: seq<Turn>)
    decreases |turns|, 0
  {
    turns == [] ||
    (var n := |turns| - 1;
     && Legal(configs, turns[..n])
     && Possible(After(configs, turns[..n]), turns[n]) && Playable(After(configs, turns[..n]), turns[n]))
  }

  ghost function After(configs: map<Id, Config>, turns: seq<Turn>): System
    requires Legal(configs, turns)
    decreases |turns|, 1
  {
    if turns == [] then Boot(configs)
    else
      var n := |turns| - 1;
      Turned(After(configs, turns[..n]), turns[n])
  }

  /** Every game step looks up known peers only. */
  ghost predicate AllFound(configs: map<Id, Config>, turns: seq<Turn>)
    requires Legal(configs, turns)
  {
    turns == [] ||
    (var n := |turns| - 1;
     AllFound(configs, turns[..n]) && Found(After(configs, turns[..n]), turns[n]))
  }

  /** No game step orphans anybody. */
  ghost predicate AllSettled(configs: map<Id, Config>, turns: seq<Turn>)
    requires Legal(configs, turns)
  {
    turns == [] ||
    (var n := |turns| - 1;
     AllSettled(configs, turns[..n]) && Settled(After(configs, turns[..n]), turns[n]))
  }

  lemma BootSound(configs: map<Id, Config>)
    ensures Sound(Boot(configs)) && AllBelieved(Boot(configs)) && InOrder(Boot(configs))
  {
    var y := Boot(configs);
    forall g | g in y.games ensures Inv(y.games[g]) && Rooted(y.games[g]) && Active(y.games[g]) == {} {
      NewGameInv(configs[g]);
    }
    assert Consumed(y) == [];
  }

  lemma {:induction false} EveryRunSound(configs: map<Id, Config>, turns: seq<Turn>)
    requires Legal(configs, turns)
    ensures Sound(After(configs, turns))
  {
    hide Sound, Possible, Playable, AllBelieved, InOrder;
    if turns == [] {
      BootSound(configs);
    } else {
      var n := |turns| - 1;
      EveryRunSound(configs, turns[..n]);
      TurnKeepsSound(After(configs, turns[..n]), turns[n]);
    }
  }

  /** Nothing a run must meet says who is connected: whatever is possible goes on. */
  lemma RunExtends(configs: map<Id, Config>, turns: seq<Turn>, t: Turn)
    requires Legal(configs, turns) && Possible(After(configs, turns), t)
    ensures Legal(configs, turns + [t]) && After(configs, turns + [t]) == Turned(After(configs, turns), t)
  {
    hide Sound, Possible, Playable, Turned;
    EveryRunSound(configs, turns);
    AlwaysPlayable(After(configs, turns), t);
    assert (turns + [t])[..|turns|] == turns;
  }

  /** The games' belief is true at every point of the run. */
  ghost predicate AlwaysBelieved(configs: map<Id, Config>, turns: seq<Turn>)
    requires Legal(configs, turns)
  {
    && After(configs, turns).taken <= |After(configs, turns).server.events| && AllBelieved(After(configs, turns))
    && (turns != [] ==> AlwaysBelieved(configs, turns[..|turns| - 1]))
  }

  /** In every interleaving the games know who is connected, all along, if and only if they look up known peers only. */
  lemma {:induction false} AlwaysBelievedIff(configs: map<Id, Config>, turns: seq<Turn>)
    requires Legal(configs, turns)
    ensures AlwaysBelieved(configs, turns) <==> AllFound(configs, turns)
  {
    hide Sound, Possible, Playable, Found, AllBelieved, Turned;
    if turns == [] {
      BootSound(configs);
    } else {
      var n := |turns| - 1;
      var y := After(configs, turns[..n]);
      AlwaysBelievedIff(configs, turns[..n]);
      EveryRunSound(configs, turns[..n]);
      BelievedNow(configs, turns[..n]);
      if AlwaysBelieved(configs, turns[..n]) { TurnBelievesIff(y, turns[n]); }
    }
  }

  lemma BelievedNow(configs: map<Id, Config>, turns: seq<Turn>)
    requires Legal(configs, turns)
    ensures AlwaysBelieved(configs, turns) ==>
              After(configs, turns).taken <= |After(configs, turns).server.events| && AllBelieved(After(configs, turns))
  {
  }

  /** Runs that orphan nobody are such runs, with every game in order. */
  lemma {:induction false} SettledRunFound(configs: map<Id, Config>, turns: seq<Turn>)
    requires Legal(configs, turns) && AllSettled(configs, turns)
    ensures InOrder(After(configs, turns)) && AllFound(configs, turns)
  {
    hide Possible, Playable, Found, InOrder, Turned, Settled, Sound, AllBelieved;
    if turns == [] {
      BootSound(configs);
    } else {
      var n := |turns| - 1;
      SettledRunFound(configs, turns[..n]);
      SettledTurn(After(configs, turns[..n]), turns[n]);
    }
  }

  /** A turn of a coherent game orphans nobody. */
  lemma CoherentTurn(y: System, t: Turn)
    requires Playable(y, t)
    requires MoveOf(y, t).Moves? ==> Runs.Coherent(GameOf(y, MoveOf(y, t).game).config)
    ensures Settled(y, t)
  {
    hide Runs.Enabled, Runs.Settled;
    if MoveOf(y, t).Moves? { Runs.CoherentSettled(GameOf(y, MoveOf(y, t).game), MoveOf(y, t).s); }
  }

  predicate HasSocket(y: System, p: Id)
  {
    exists h :: h in y.server.sockets && y.server.sockets[h].open && y.server.sockets[h].id == p
  }

  /** Some event not yet taken. */
  ghost predicate Queued(y: System, e: Event)
  {
    exists i :: y.taken <= i < |y.server.events| && y.server.events[i] == e
  }

  lemma {:induction false} UpUntilClosed(events: seq<Event>, from: nat, p: Id, g: Id)
    requires from <= |events| && PhaseOf(events[..from], p) == Up(g) && !PhaseOf(events, p).Broken?
    requires forall i :: from <= i < |events| ==> events[i] != Closed(p, g)
    ensures PhaseOf(events, p) == Up(g)
  {
    var n := |events| - 1;
    if from == |events| {
      assert events[..from] == events;
    } else {
      assert events[..n][..from] == events[..from];
      assert PhaseOf(events, p) == Next(PhaseOf(events[..n], p), events[n], p);
      UpUntilClosed(events[..n], from, p, g);
    }
  }

  lemma {:induction false} UpAfterOpened(events: seq<Event>, from: nat, p: Id, g: Id)
    requires from <= |events| && PhaseOf(events, p) == Up(g)
    requires forall i :: from <= i < |events| ==> events[i] != Opened(p, g)
    ensures PhaseOf(events[..from], p) == Up(g)
  {
    var n := |events| - 1;
    if from == |events| {
      assert events[..from] == events;
    } else {
      assert events[..n][..from] == events[..from];
      assert PhaseOf(events, p) == Next(PhaseOf(events[..n], p), events[n], p);
      UpAfterOpened(events[..n], from, p, g);
    }
  }

  lemma NotBroken(y: System, p: Id)
    requires Sound(y)
    ensures y.taken <= |y.server.events| && !PhaseOf(y.server.events, p).Broken?
  {
    assert PhaseOk(y.server, p);
  }

  lemma UpIffSocket(y: System, p: Id)
    requires Sound(y)
    ensures PhaseOf(y.server.events, p).Up? <==> HasSocket(y, p)
  {
    Net.UpIffOpenSocket(y.server, p);
  }

  lemma UpForSocket(y: System, h: Handle)
    requires Sound(y) && h in y.server.sockets && y.server.sockets[h].open
    ensures PhaseOf(y.server.events, y.server.sockets[h].id) == Up(y.server.sockets[h].game)
  {
    assert SocketOk(y.server, h);
    assert PhaseOk(y.server, y.server.sockets[h].id);
  }

  /**
   No leaked peers: where games look up known peers only, a peer a game believes connected has an open socket, or its
   CLOSE is still on the way.
   */
  lemma NoLeakedPeer(configs: map<Id, Config>, turns: seq<Turn>, g: Id, p: Id)
    requires Legal(configs, turns) && AllFound(configs, turns)
    requires var y := After(configs, turns); g in y.games && p in Active(y.games[g])
    ensures var y := After(configs, turns); HasSocket(y, p) || Queued(y, Closed(p, g))
  {
    hide OkBut, Legal, After, AllFound, Sound;
    var y := After(configs, turns);
    EveryRunSound(configs, turns);
    AlwaysBelievedIff(configs, turns);
    assert Believed(y, p);
    NotBroken(y, p);
    UpIffSocket(y, p);
    if !Queued(y, Closed(p, g)) { UpUntilClosed(y.server.events, y.taken, p, g); }
  }

  /** In every interleaving the peer of an open socket is known to its game as connected, or its OPEN is on the way. */
  lemma NoForgottenSocket(configs: map<Id, Config>, turns: seq<Turn>, h: Handle)
    requires Legal(configs, turns)
    requires var y := After(configs, turns); h in y.server.sockets && y.server.sockets[h].open
    ensures var y := After(configs, turns);
            var d := y.server.sockets[h];
            (d.game in y.games && d.id in Active(y.games[d.game])) || Queued(y, Opened(d.id, d.game))
  {
    hide OkBut, Legal, After;
    var y := After(configs, turns);
    var d := y.server.sockets[h];
    EveryRunSound(configs, turns);
    assert Heard(y, d.id);
    UpForSocket(y, h);
    if !Queued(y, Opened(d.id, d.game)) { UpAfterOpened(y.server.events, y.taken, d.id, d.game); }
  }

  /** When the queue is empty the two sides agree exactly, where games look up known peers only. */
  lemma SidesAgreeWhenQuiet(configs: map<Id, Config>, turns: seq<Turn>, g: Id, p: Id)
    requires Legal(configs, turns) && AllFound(configs, turns)
    requires var y := After(configs, turns); y.taken == |y.server.events|
    ensures var y := After(configs, turns);
            g in y.games && p in Active(y.games[g]) <==>
            exists h :: h in y.server.sockets && y.server.sockets[h].open && y.server.sockets[h].id == p &&
                        y.server.sockets[h].game == g
  {
    hide OkBut, Legal, After, AllFound, Sound;
    var y := After(configs, turns);
    EveryRunSound(configs, turns);
    AlwaysBelievedIff(configs, turns);
    assert Believed(y, p) && Consumed(y) == y.server.events;
    UpIffSocket(y, p);
    forall h | h in y.server.sockets && y.server.sockets[h].open && y.server.sockets[h].id == p
      ensures PhaseOf(y.server.events, p) == Up(y.server.sockets[h].game)
    {
      UpForSocket(y, h);
    }
  }

  /** In every interleaving a text taken comes from a peer its game knows as connected: PEER_NOT_FOUND is never said. */
  lemma PeerAlwaysFound(configs: map<Id, Config>, turns: seq<Turn>, p: Id, g: Id, text: string)
    requires Legal(configs, turns)
    requires var y := After(configs, turns);
             y.taken < |y.server.events| && y.server.events[y.taken] == Message(p, g, text)
    ensures var y := After(configs, turns); g in y.games && p in Active(y.games[g])
  {
    hide Sound;
    EveryRunSound(configs, turns);
    MessageFromActive(After(configs, turns));
  }

  /** An OPEN taken is for a peer that is not believed connected, where games look up known peers only. */
  lemma OpenOnlyWhenGone(configs: map<Id, Config>, turns: seq<Turn>, p: Id, g: Id)
    requires Legal(configs, turns) && AllFound(configs, turns)
    requires var y := After(configs, turns); y.taken < |y.server.events| && y.server.events[y.taken] == Opened(p, g)
    ensures p !in Active(GameOf(After(configs, turns), g))
  {
    hide OkBut, Legal, After, AllFound, Sound;
    var y := After(configs, turns);
    EveryRunSound(configs, turns);
    AlwaysBelievedIff(configs, turns);
    NextEvent(y, p);
    GameOfSound(y, g);
  }

  /** No peer is believed connected by two games, where games look up known peers only. */
  lemma OneGameEach(configs: map<Id, Config>, turns: seq<Turn>, p: Id, g: Id, g': Id)
    requires Legal(configs, turns) && AllFound(configs, turns)
    requires var y := After(configs, turns);
             g in y.games && g' in y.games && p in Active(y.games[g]) && p in Active(y.games[g'])
    ensures g == g'
  {
    hide Legal, After, AllFound, Active;
    AlwaysBelievedIff(configs, turns);
    assert Believed(After(configs, turns), p);
  }

  // ----- senders of nonsense -----

  /** A text that makes no sense, or comes from an unknown peer, moves nobody and asks for its sender to be closed. */
  lemma NonsenseIsKicked(configs: map<Id, Config>, turns: seq<Turn>, now: int, command: Command)
    requires Legal(configs, turns) && Possible(After(configs, turns), Deliver(now, command))
    requires var y := After(configs, turns);
             var e := y.server.events[y.taken];
             e.Message? && (command.Garbage? || e.id !in GameOf(y, e.game).peers)
    ensures Legal(configs, turns + [Deliver(now, command)])
    ensures var y, y' := After(configs, turns), After(configs, turns + [Deliver(now, command)]);
            && y'.pending == y.pending + [Kick(y.server.events[y.taken].id)] && y'.server == y.server
            && forall g :: GameOf(y', g) == GameOf(y, g)
  {
    hide Legal, After, Runs.Inputs;
    RunExtends(configs, turns, Deliver(now, command));
  }

  /** And when the socket thread comes to it, no socket of that peer stays open. */
  lemma KickCloses(configs: map<Id, Config>, turns: seq<Turn>, p: Id)
    requires Legal(configs, turns) && After(configs, turns).pending != [] && After(configs, turns).pending[0] == Kick(p)
    ensures Legal(configs, turns + [Later]) && !HasSocket(After(configs, turns + [Later]), p)
  {
    hide OkBut, Legal, After, SendClose, HasSocket;
    var y := After(configs, turns);
    RunExtends(configs, turns, Later);
    EveryRunSound(configs, turns);
    EveryRunSound(configs, turns + [Later]);
    SendCloseKeeps(y.server, {}, p);
    UpIffSocket(After(configs, turns + [Later]), p);
    if p !in y.server.conns { NotUp(y.server, p); }
  }

  lemma NotUp(s: Server, p: Id)
    requires Sockets.Ok(s) && p !in s.conns
    ensures !PhaseOf(s.events, p).Up?
  {
    assert PhaseOk(s, p);
  }
}
