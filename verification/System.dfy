/**
 The socket thread and the game thread together: events go one way through a queue, closes and clears come back through
 another, and every interleaving is a run.
 */
module Systems {
  import opened FlatSets
  import opened AnyTypes
  import opened SharedData
  import opened GameState
  import opened Handlers
  import opened Membership
  import opened Invariants
  import opened Sweep
  import Runs
  import opened Lookups
  import opened Sockets
  import Net = Reconnection

  /** What the game thread asks the socket thread to do later. */
  datatype Deferred = Wipe(ids: seq<Id>) | Kick(p: Id)

  /** `taken` events have left the queue. */
  datatype System = System(server: Server, taken: nat, games: map<Id, Game>, pending: seq<Deferred>)

  function Boot(configs: map<Id, Config>): System
  {
    System(START, 0, map g | g in configs :: NewGame(configs[g]), [])
  }

  /** A message for an unknown game creates a relay. */
  function GameOf(y: System, id: Id): Game
  {
    if id in y.games then y.games[id] else NewGame(Config(false, false))
  }

  /** What a text turns out to say: nothing known, a command refused before it looks anything up, or a step. */
  datatype Command = Garbage | Aside | Say(s: Runs.Step)

  datatype Turn =
    | Network(t: Net.SocketStep)
    | Deliver(now: int, command: Command)
    | Tend(game: Id, s: Runs.Step, erased: seq<Id>)
    | Later

  /** The step a game takes in this turn, if any. */
  datatype Move = Still | Moves(game: Id, s: Runs.Step)

  function MoveOf(y: System, t: Turn): Move
  {
    match t
    case Tend(g, s, _) => Moves(g, s)
    case Deliver(now, command) =>
      if y.taken >= |y.server.events| then Still
      else (
        match y.server.events[y.taken]
        case Opened(p, g) => Moves(g, Runs.Connect(p))
        case Closed(p, g) => Moves(g, Runs.Close(p, now))
        case Message(p, g, _) =>
          if command.Say? && p in GameOf(y, g).peers then Moves(g, command.s) else Still
      )
    case _ => Still
  }

  /** What the environment is held to: nothing about who is connected. */
  ghost predicate Possible(y: System, t: Turn)
  {
    match t
    case Network(n) => (n.Open? || n.Receive? || n.Drop?) && Net.Ready(y.server, n)
    case Deliver(_, command) =>
      && y.taken < |y.server.events|
      && var e := y.server.events[y.taken];
         (e.Message? && command.Say? ==>
            Runs.IsCommand(command.s) && command.s.p == e.id && Runs.Inputs(GameOf(y, e.game), command.s))
    case Tend(g, s, erased) =>
      && g in y.games && (s.Sweep? || s.Flush?) && Runs.Inputs(y.games[g], s)
      && (s.Sweep? ==> forall p :: p in erased <==> p in OnSweep(y.games[g], s.order, s.now, s.limit).erased)
    case Later => y.pending != []
  }

  /** The game of the move can take it: who acts had its OPEN taken. */
  ghost predicate Playable(y: System, t: Turn)
  {
    MoveOf(y, t).Moves? ==> Runs.Enabled(GameOf(y, MoveOf(y, t).game), MoveOf(y, t).s)
  }

  /** The game step, if any, orphans nobody. */
  ghost predicate Settled(y: System, t: Turn)
    requires Playable(y, t)
  {
    MoveOf(y, t).Moves? ==> Runs.Settled(GameOf(y, MoveOf(y, t).game), MoveOf(y, t).s)
  }

  /** Texts that nobody can make sense of, or that come from an unknown peer, close their sender. */
  predicate Rejects(y: System, e: Event, command: Command)
  {
    e.Message? && (command.Garbage? || e.id !in GameOf(y, e.game).peers)
  }

  /** The game step, if any, looks up known peers only. */
  ghost predicate Found(y: System, t: Turn)
    requires Playable(y, t)
  {
    MoveOf(y, t).Moves? ==>
      var g := GameOf(y, MoveOf(y, t).game);
      Looked(g, MoveOf(y, t).s) <= g.peers.Keys
  }

  ghost function GamesAfter(y: System, t: Turn): map<Id, Game>
    requires Playable(y, t)
  {
    match MoveOf(y, t)
    case Still => if t.Deliver? && y.taken < |y.server.events|
                  then y.games[y.server.events[y.taken].game := GameOf(y, y.server.events[y.taken].game)]
                  else y.games
    case Moves(g, s) => y.games[g := Runs.Apply(GameOf(y, g), s).g]
  }

  ghost function Turned(y: System, t: Turn): System
    requires Possible(y, t) && Playable(y, t)
  {
    match t
    case Network(n) => y.(server := Net.Do(y.server, n))
    case Deliver(_, command) =>
      var e := y.server.events[y.taken];
      y.(taken := y.taken + 1, games := GamesAfter(y, t),
         pending := if Rejects(y, e, command) then y.pending + [Kick(e.id)] else y.pending)
    case Tend(_, s, erased) =>
      y.(games := GamesAfter(y, t), pending := if s.Sweep? then y.pending + [Wipe(erased)] else y.pending)
    case Later => y.(server := Net.Do(y.server, Asked(y.pending[0])), pending := y.pending[1..])
  }

  function Asked(d: Deferred): Net.SocketStep
  {
    match d
    case Wipe(ids) => Net.Clear(ids)
    case Kick(p) => Net.Push(p)
  }

  // ----- the invariants -----

  function Consumed(y: System): seq<Event>
    requires y.taken <= |y.server.events|
  {
    y.server.events[..y.taken]
  }

  /** Who opened a connection, as far as the events taken say, is connected as far as its game knows. */
  ghost predicate Heard(y: System, p: Id)
    requires y.taken <= |y.server.events|
  {
    forall g :: PhaseOf(Consumed(y), p) == Up(g) ==> g in y.games && p in Active(y.games[g])
  }

  /** What every interleaving keeps, in every mode. */
  ghost predicate Sound(y: System)
  {
    && Sockets.Ok(y.server) && y.taken <= |y.server.events|
    && (forall g :: g in y.games ==> Rooted(y.games[g]))
    && (forall p :: Heard(y, p))
  }

  /** The games believe of `p` exactly what the events taken so far say. */
  ghost predicate Believed(y: System, p: Id)
    requires y.taken <= |y.server.events|
  {
    forall g :: PhaseOf(Consumed(y), p) == Up(g) <==> g in y.games && p in Active(y.games[g])
  }

  ghost predicate AllBelieved(y: System)
    requires y.taken <= |y.server.events|
  {
    forall p :: Believed(y, p)
  }

  /** Every game is in order. */
  ghost predicate InOrder(y: System)
  {
    forall g :: g in y.games ==> Inv(y.games[g])
  }

  // ----- the queue only grows -----

  lemma {:induction false} ClearAppends(s: Server, ids: seq<Id>)
    ensures s.events <= ClearUsers(s, ids).events
  {
    if ids != [] { ClearAppends(s, ids[..|ids| - 1]); }
  }

  lemma DoAppends(s: Server, n: Net.SocketStep)
    requires Net.Ready(s, n)
    ensures s.events <= Net.Do(s, n).events
  {
    if n.Clear? { ClearAppends(s, n.ids); }
  }

  lemma PrefixNotBroken(events: seq<Event>, i: nat, p: Id)
    requires i <= |events| && !PhaseOf(events, p).Broken?
    ensures !PhaseOf(events[..i], p).Broken?
  {
    assert events[..i] + events[i..] == events;
    if PhaseOf(events[..i], p).Broken? {
      Net.BrokenForGood(events[..i], events[i..], p);
    }
  }

  // ----- the socket side's turns -----

  lemma ServerTurn(y: System, n: Net.SocketStep, pending: seq<Deferred>)
    requires Sound(y) && Net.Ready(y.server, n)
    ensures var y' := y.(server := Net.Do(y.server, n), pending := pending);
            Sound(y') && Consumed(y') == Consumed(y)
  {
    hide OkBut, Net.Do;
    Net.DoKeeps(y.server, n);
    DoAppends(y.server, n);
    var y' := y.(server := Net.Do(y.server, n), pending := pending);
    assert Consumed(y') == Consumed(y);
    forall p ensures Heard(y', p) { assert Heard(y, p); }
  }

  // ----- the game side's turns -----

  lemma NewGameInv(c: Config)
    ensures Inv(NewGame(c)) && Rooted(NewGame(c)) && Active(NewGame(c)) == {}
  {
  }

  lemma GameOfSound(y: System, g: Id)
    requires Sound(y)
    ensures Rooted(GameOf(y, g))
    ensures forall p :: PhaseOf(Consumed(y), p) == Up(g) ==> p in Active(GameOf(y, g))
    ensures AllBelieved(y) ==> forall p :: PhaseOf(Consumed(y), p) == Up(g) <==> p in Active(GameOf(y, g))
  {
    hide OkBut;
    NewGameInv(Config(false, false));
    forall p ensures PhaseOf(Consumed(y), p) == Up(g) ==> p in Active(GameOf(y, g)) { assert Heard(y, p); }
    if AllBelieved(y) {
      forall p ensures PhaseOf(Consumed(y), p) == Up(g) <==> p in Active(GameOf(y, g)) { assert Believed(y, p); }
    }
  }

  lemma NextEvent(y: System, p: Id)
    requires Sound(y) && y.taken < |y.server.events|
    ensures var e := y.server.events[y.taken];
            var ph := Next(PhaseOf(Consumed(y), p), e, p);
            && PhaseOf(y.server.events[..y.taken + 1], p) == ph && !ph.Broken?
  {
    assert PhaseOk(y.server, p);
    PrefixNotBroken(y.server.events, y.taken + 1, p);
    PhaseMore(Consumed(y), y.server.events[y.taken], p);
    assert y.server.events[..y.taken + 1] == Consumed(y) + [y.server.events[y.taken]];
  }

  lemma NonemptyIds(y: System)
    requires Sound(y) && y.taken < |y.server.events|
    ensures !y.server.events[y.taken].Closed? ==> y.server.events[y.taken].id != ""
  {
    assert PhaseOk(y.server, "");
    if y.server.events[y.taken].id == "" {
      StaysFresh(y.server.events, y.taken, "");
    }
  }

  lemma {:induction false} StaysFresh(events: seq<Event>, i: nat, p: Id)
    requires i < |events| && PhaseOf(events, p).Fresh?
    ensures events[i].id != p
  {
    var n := |events| - 1;
    if i < n { StaysFresh(events[..n], i, p); }
  }

  /** In every mode, who sends a message is connected as far as its game knows. */
  lemma MessageFromActive(y: System)
    requires Sound(y) && y.taken < |y.server.events| && y.server.events[y.taken].Message?
    ensures var e := y.server.events[y.taken];
            e.id != "" && e.game in y.games && e.id in Active(y.games[e.game])
  {
    hide OkBut;
    var e := y.server.events[y.taken];
    NonemptyIds(y);
    NextEvent(y, e.id);
    assert Heard(y, e.id);
  }

  /** So whatever can happen can be played: no precondition of a handler is left to chance. */
  lemma AlwaysPlayable(y: System, t: Turn)
    requires Sound(y) && Possible(y, t)
    ensures Playable(y, t)
  {
    hide OkBut, Sound;
    if t.Deliver? {
      SoundTaken(y);
      NonemptyIds(y);
      if y.server.events[y.taken].Message? { MessageFromActive(y); }
    }
  }

  lemma SoundTaken(y: System)
    requires Sound(y)
    ensures y.taken <= |y.server.events|
  {
  }

  /** The game of a turn after it. */
  lemma MoveActive(y: System, t: Turn)
    requires Sound(y) && Possible(y, t) && Playable(y, t) && MoveOf(y, t).Moves?
    ensures var Moves(id, s) := MoveOf(y, t);
            var g, g' := GameOf(y, id), GamesAfter(y, t)[id];
            && Rooted(g') && Active(g') == Runs.ActiveAfter(Active(g), s) + (Looked(g, s) - g.peers.Keys)
            && (Active(g') == Runs.ActiveAfter(Active(g), s) <==> Found(y, t))
  {
    hide OkBut, Runs.Apply, Runs.Enabled, Looked, Possible;
    var Moves(id, s) := MoveOf(y, t);
    GameOfSound(y, id);
    StepActive(GameOf(y, id), s);
    ActiveIff(GameOf(y, id), s);
  }

  lemma DeliverSound(y: System, t: Turn)
    requires Sound(y) && t.Deliver? && Possible(y, t) && Playable(y, t)
    ensures Sound(Turned(y, t))
  {
    hide OkBut, Runs.Apply, Runs.Enabled, Runs.Inputs, Looked, Active, Found;
    var e, y' := y.server.events[y.taken], Turned(y, t);
    GameOfSound(y, e.game);
    if e.Message? { MessageFromActive(y); }
    if MoveOf(y, t).Moves? { MoveActive(y, t); }
    forall p ensures Heard(y', p) {
      assert Heard(y, p);
      NextEvent(y, p);
    }
  }

  lemma TendSound(y: System, t: Turn)
    requires Sound(y) && t.Tend? && Possible(y, t) && Playable(y, t)
    ensures Sound(Turned(y, t))
  {
    hide OkBut, Runs.Apply, Runs.Enabled, Runs.Inputs, Looked, Active, Found;
    var y' := Turned(y, t);
    MoveActive(y, t);
    forall p ensures Heard(y', p) { assert Heard(y, p); }
  }

  lemma TurnKeepsSound(y: System, t: Turn)
    requires Sound(y) && Possible(y, t) && Playable(y, t)
    ensures Sound(Turned(y, t))
  {
    hide Sound, Playable;
    match t
    case Network(n) => ServerTurn(y, n, y.pending);
    case Deliver(_, _) => DeliverSound(y, t);
    case Tend(_, _, _) => TendSound(y, t);
    case Later => ServerTurn(y, Asked(y.pending[0]), y.pending[1..]);
  }

  // ----- when the games believe the truth -----

  lemma DeliverBelieved(y: System, t: Turn)
    requires Sound(y) && t.Deliver? && Possible(y, t) && Playable(y, t) && AllBelieved(y) && Found(y, t)
    ensures Turned(y, t).taken <= |y.server.events| && AllBelieved(Turned(y, t))
  {
    hide OkBut, Runs.Apply, Runs.Enabled, Runs.Inputs, Looked, Active, Found;
    var e, y' := y.server.events[y.taken], Turned(y, t);
    GameOfSound(y, e.game);
    if e.Message? { MessageFromActive(y); }
    if MoveOf(y, t).Moves? { MoveActive(y, t); }
    forall p ensures Believed(y', p) {
      assert Believed(y, p);
      NextEvent(y, p);
    }
  }

  lemma TendBelieved(y: System, t: Turn)
    requires Sound(y) && t.Tend? && Possible(y, t) && Playable(y, t) && AllBelieved(y) && Found(y, t)
    ensures AllBelieved(Turned(y, t))
  {
    hide OkBut, Runs.Apply, Runs.Enabled, Runs.Inputs, Looked, Active, Found;
    var y' := Turned(y, t);
    MoveActive(y, t);
    forall p ensures Believed(y', p) { assert Believed(y, p); }
  }

  /** An id looked up in vain is believed connected though no OPEN of it stands. */
  lemma MissBelieved(y: System, t: Turn)
    requires Sound(y) && Possible(y, t) && Playable(y, t) && AllBelieved(y) && !Found(y, t)
    ensures Turned(y, t).taken <= |y.server.events| && !AllBelieved(Turned(y, t))
  {
    hide OkBut, Runs.Apply, Runs.Enabled, Runs.Inputs, Looked;
    var Moves(id, s) := MoveOf(y, t);
    var g, y' := GameOf(y, id), Turned(y, t);
    MoveActive(y, t);
    GameOfSound(y, id);
    var q :| q in Looked(g, s) && q !in g.peers.Keys;
    assert q in Active(y'.games[id]) && q !in Active(g);
    if t.Deliver? {
      NextEvent(y, q);
      if s.Connect? { NothingLooked(g, s); }
    }
    assert PhaseOf(Consumed(y'), q) != Up(id);
    assert !Believed(y', q);
  }

  /** A turn keeps the games' belief true if and only if its game step looks up known peers only. */
  lemma TurnBelievesIff(y: System, t: Turn)
    requires Sound(y) && Possible(y, t) && Playable(y, t) && AllBelieved(y)
    ensures Turned(y, t).taken <= |Turned(y, t).server.events| && (AllBelieved(Turned(y, t)) <==> Found(y, t))
  {
    hide Sound, AllBelieved, Playable, Found;
    TurnKeepsSound(y, t);
    SoundTaken(Turned(y, t));
    if !Found(y, t) {
      MissBelieved(y, t);
    } else {
      match t
      case Network(n) => SocketBelieved(y, n, y.pending);
      case Deliver(_, _) => DeliverBelieved(y, t);
      case Tend(_, _, _) => TendBelieved(y, t);
      case Later => LaterBelieved(y);
    }
  }

  lemma SocketBelieved(y: System, n: Net.SocketStep, pending: seq<Deferred>)
    requires Sound(y) && Net.Ready(y.server, n) && AllBelieved(y)
    ensures var y' := y.(server := Net.Do(y.server, n), pending := pending);
            y'.taken <= |y'.server.events| && AllBelieved(y')
  {
    hide OkBut, Net.Do;
    ServerTurn(y, n, pending);
    var y' := y.(server := Net.Do(y.server, n), pending := pending);
    forall p ensures Believed(y', p) { assert Believed(y, p); }
  }

  lemma LaterBelieved(y: System)
    requires Sound(y) && y.pending != [] && AllBelieved(y)
    ensures var y' := y.(server := Net.Do(y.server, Asked(y.pending[0])), pending := y.pending[1..]);
            y'.taken <= |y'.server.events| && AllBelieved(y')
  {
    SocketBelieved(y, Asked(y.pending[0]), y.pending[1..]);
  }

  // ----- turns that orphan nobody -----

  lemma GameOfInOrder(y: System, g: Id)
    requires InOrder(y)
    ensures Inv(GameOf(y, g))
  {
    NewGameInv(Config(false, false));
  }

  /** A turn that orphans nobody keeps the games in order, and looks up known peers only. */
  lemma SettledTurn(y: System, t: Turn)
    requires InOrder(y) && Possible(y, t) && Playable(y, t) && Settled(y, t)
    ensures InOrder(Turned(y, t)) && Found(y, t)
  {
    hide Inv, Runs.Apply, Runs.Enabled, Runs.Settled, Runs.Inputs, Looked, Net.Do;
    if MoveOf(y, t).Moves? {
      var Moves(id, s) := MoveOf(y, t);
      GameOfInOrder(y, id);
      Runs.StepKeepsInv(GameOf(y, id), s);
      SettledLooks(GameOf(y, id), s);
    } else if t.Deliver? {
      GameOfInOrder(y, y.server.events[y.taken].game);
    }
  }
}
