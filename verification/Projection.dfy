/** What a run of the whole system is for one of its games: a run of it, to which the theorems about games apply. */
module Projections {
  import opened FlatSets
  import opened GameState
  import opened Handlers
  import opened Membership
  import opened Invariants
  import Runs
  import R = Replica
  import ReplicaRuns
  import opened Sockets
  import Net = Reconnection
  import opened Systems
  import opened SystemRuns

  /** Games that nobody configured are relays. */
  function ConfigOf(configs: map<Id, Config>, gid: Id): Config
  {
    if gid in configs then configs[gid] else Config(false, false)
  }

  /** The steps that game `gid` takes in the turns. */
  ghost function StepsOf(configs: map<Id, Config>, turns: seq<Turn>, gid: Id): seq<Runs.Step>
    requires Legal(configs, turns)
  {
    if turns == [] then []
    else
      var n := |turns| - 1;
      var m := MoveOf(After(configs, turns[..n]), turns[n]);
      if m.Moves? && m.game == gid then StepsOf(configs, turns[..n], gid) + [m.s] else StepsOf(configs, turns[..n], gid)
  }

  /** A turn gives the game of its move that step, and no other game anything. */
  lemma TurnOfGame(y: System, t: Turn, gid: Id)
    requires Possible(y, t) && Playable(y, t)
    ensures GameOf(Turned(y, t), gid) ==
            if MoveOf(y, t).Moves? && MoveOf(y, t).game == gid then Runs.Apply(GameOf(y, gid), MoveOf(y, t).s).g
            else GameOf(y, gid)
  {
    hide Runs.Apply, Runs.Enabled, Runs.Inputs, Net.Do, Net.Ready;
  }

  /** In every interleaving each game goes through a run of its own, and ends where that run ends. */
  lemma {:induction false} GameRun(configs: map<Id, Config>, turns: seq<Turn>, gid: Id)
    requires Legal(configs, turns)
    ensures var g0 := NewGame(ConfigOf(configs, gid));
            && Runs.Legal(g0, StepsOf(configs, turns, gid))
            && Runs.After(g0, StepsOf(configs, turns, gid)) == GameOf(After(configs, turns), gid)
  {
    hide Runs.Apply, Runs.Enabled, Possible, Turned;
    if turns != [] {
      var n := |turns| - 1;
      var y, steps := After(configs, turns[..n]), StepsOf(configs, turns[..n], gid);
      GameRun(configs, turns[..n], gid);
      TurnOfGame(y, turns[n], gid);
      if MoveOf(y, turns[n]).Moves? { assert (steps + [MoveOf(y, turns[n]).s])[..|steps|] == steps; }
    }
  }

  /** Runs of the system that orphan nobody are such runs of each game. */
  lemma {:induction false} GameRunSettled(configs: map<Id, Config>, turns: seq<Turn>, gid: Id)
    requires Legal(configs, turns) && AllSettled(configs, turns)
    requires Runs.Legal(NewGame(ConfigOf(configs, gid)), StepsOf(configs, turns, gid))
    ensures Runs.AllSettled(NewGame(ConfigOf(configs, gid)), StepsOf(configs, turns, gid))
  {
    hide Runs.Apply, Runs.Enabled, Runs.Settled, Possible, Turned;
    if turns != [] {
      var n := |turns| - 1;
      var y, steps := After(configs, turns[..n]), StepsOf(configs, turns[..n], gid);
      GameRun(configs, turns[..n], gid);
      GameRunSettled(configs, turns[..n], gid);
      if MoveOf(y, turns[n]).Moves? { assert (steps + [MoveOf(y, turns[n]).s])[..|steps|] == steps; }
    }
  }

  /** No script call of the run drops a key that clients see. */
  ghost predicate KeysKept(configs: map<Id, Config>, turns: seq<Turn>)
    requires Legal(configs, turns)
  {
    turns == [] ||
    (var n := |turns| - 1;
     var y := After(configs, turns[..n]);
     && KeysKept(configs, turns[..n])
     && (MoveOf(y, turns[n]).Moves? ==>
           ReplicaRuns.KeepsKeys(GameOf(y, MoveOf(y, turns[n]).game), MoveOf(y, turns[n]).s)))
  }

  /** Where games look up known peers only, an OPEN taken is for a peer its game does not believe connected. */
  lemma MoveIsFresh(configs: map<Id, Config>, turns: seq<Turn>, t: Turn)
    requires Legal(configs, turns) && AllFound(configs, turns)
    requires Possible(After(configs, turns), t) && Playable(After(configs, turns), t)
    requires MoveOf(After(configs, turns), t).Moves?
    ensures var m := MoveOf(After(configs, turns), t);
            ReplicaRuns.FreshOpen(GameOf(After(configs, turns), m.game), m.s)
  {
    hide Legal, After, AllFound, Active, Runs.Inputs, Playable;
    var y := After(configs, turns);
    var m := MoveOf(y, t);
    if m.s.Connect? { OpenOnlyWhenGone(configs, turns, m.s.p, m.game); }
  }

  lemma {:induction false} GameRunTidy(configs: map<Id, Config>, turns: seq<Turn>, gid: Id)
    requires Legal(configs, turns) && AllFound(configs, turns) && KeysKept(configs, turns)
    requires Runs.Legal(NewGame(ConfigOf(configs, gid)), StepsOf(configs, turns, gid))
    ensures ReplicaRuns.Tidy(NewGame(ConfigOf(configs, gid)), StepsOf(configs, turns, gid))
  {
    hide Runs.Apply, Runs.Enabled, ReplicaRuns.KeepsKeys, ReplicaRuns.FreshOpen, Possible, Turned, Found;
    if turns != [] {
      var n := |turns| - 1;
      var y, steps := After(configs, turns[..n]), StepsOf(configs, turns[..n], gid);
      GameRun(configs, turns[..n], gid);
      GameRunTidy(configs, turns[..n], gid);
      if MoveOf(y, turns[n]).Moves? {
        MoveIsFresh(configs, turns[..n], turns[n]);
        assert (steps + [MoveOf(y, turns[n]).s])[..|steps|] == steps;
      }
    }
  }

  /**
   The replica theorem for the two threads together: in an interleaving that orphans nobody and whose script calls drop
   no key, whoever a game believes connected holds its lobby exactly, once it has folded what the game accepted for it
   since the last OPEN the game took.
   */
  lemma ReplicaOverSockets(configs: map<Id, Config>, turns: seq<Turn>, gid: Id, c: Id, v: R.View)
    requires Legal(configs, turns) && AllSettled(configs, turns) && KeysKept(configs, turns)
    requires gid in After(configs, turns).games && c in Active(After(configs, turns).games[gid])
    ensures var g0, g := NewGame(ConfigOf(configs, gid)), After(configs, turns).games[gid];
            && Runs.Legal(g0, StepsOf(configs, turns, gid))
            && var w := R.Deliver(v, ReplicaRuns.OutsSince(g0, StepsOf(configs, turns, gid), c), c);
               Acting(g, c) && if w.Unsynced? then R.Waiting(g, c) else w == R.Snapshot(g, c)
  {
    hide Legal, After, AllSettled, AllFound, KeysKept, StepsOf, Runs.Legal, Runs.After, Runs.AllSettled;
    hide R.Deliver, R.Snapshot, R.Waiting, Acting, ReplicaRuns.OutsSince, ReplicaRuns.Tidy, Active;
    GameRun(configs, turns, gid);
    GameRunSettled(configs, turns, gid);
    SettledRunFound(configs, turns);
    GameRunTidy(configs, turns, gid);
    ReplicaRuns.ReplicaIsExact(ConfigOf(configs, gid), StepsOf(configs, turns, gid), c, v);
  }

  /** In every interleaving that orphans nobody the lobbies and the members of every game agree. */
  lemma SettledGamesAgree(configs: map<Id, Config>, turns: seq<Turn>, gid: Id)
    requires Legal(configs, turns) && AllSettled(configs, turns) && gid in After(configs, turns).games
    ensures Agreement(After(configs, turns).games[gid])
  {
    hide Legal, After, AllSettled, Agreement, Runs.Legal, Runs.After, Runs.AllSettled, StepsOf;
    GameRun(configs, turns, gid);
    GameRunSettled(configs, turns, gid);
    Runs.SettledRunKeepsInv(ConfigOf(configs, gid), StepsOf(configs, turns, gid));
  }

  // ----- by configuration alone -----

  /** Every game that moves is scripted or disbands with its host. */
  ghost predicate CoherentMoves(configs: map<Id, Config>, turns: seq<Turn>)
    requires Legal(configs, turns)
  {
    turns == [] ||
    (var n := |turns| - 1;
     var m := MoveOf(After(configs, turns[..n]), turns[n]);
     CoherentMoves(configs, turns[..n]) && (m.Moves? ==> Runs.Coherent(ConfigOf(configs, m.game))))
  }

  /** A game keeps its configuration. */
  lemma {:induction false} ConfigStays(configs: map<Id, Config>, turns: seq<Turn>, gid: Id)
    requires Legal(configs, turns)
    ensures GameOf(After(configs, turns), gid).config == ConfigOf(configs, gid)
  {
    hide Runs.Apply, Runs.Enabled, Possible, Turned;
    if turns != [] {
      var n := |turns| - 1;
      var y := After(configs, turns[..n]);
      ConfigStays(configs, turns[..n], gid);
      TurnOfGame(y, turns[n], gid);
      if MoveOf(y, turns[n]).Moves? && MoveOf(y, turns[n]).game == gid {
        Runs.StepKeepsConfig(GameOf(y, gid), MoveOf(y, turns[n]).s);
      }
    }
  }

  /** Such an interleaving orphans nobody. */
  lemma {:induction false} CoherentMovesSettle(configs: map<Id, Config>, turns: seq<Turn>)
    requires Legal(configs, turns) && CoherentMoves(configs, turns)
    ensures AllSettled(configs, turns)
  {
    hide Possible, Playable, Turned, Settled;
    if turns != [] {
      var n := |turns| - 1;
      var y := After(configs, turns[..n]);
      CoherentMovesSettle(configs, turns[..n]);
      if MoveOf(y, turns[n]).Moves? { ConfigStays(configs, turns[..n], MoveOf(y, turns[n]).game); }
      CoherentTurn(y, turns[n]);
    }
  }

  /** So there nobody leaks, and the lobbies and the members of every game agree. */
  lemma CoherentGamesAreSafe(configs: map<Id, Config>, turns: seq<Turn>, g: Id, p: Id)
    requires Legal(configs, turns) && CoherentMoves(configs, turns) && g in After(configs, turns).games
    ensures var y := After(configs, turns);
            && Agreement(y.games[g])
            && (p in Active(y.games[g]) ==> HasSocket(y, p) || Queued(y, Closed(p, g)))
  {
    hide Legal, After, AllSettled, AllFound, CoherentMoves, Agreement, Active, HasSocket, Queued;
    CoherentMovesSettle(configs, turns);
    SettledGamesAgree(configs, turns, g);
    SettledRunFound(configs, turns);
    if p in Active(After(configs, turns).games[g]) { NoLeakedPeer(configs, turns, g, p); }
  }
}
