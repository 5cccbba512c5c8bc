/** The way back: an entry of the socket side without a socket is known to be disconnected, or about to be cleared. */
module Lingering {
  import opened FlatSets
  import opened AnyTypes
  import opened SharedData
  import opened GameState
  import opened Handlers
  import opened Membership
  import opened Invariants
  import opened Sweep
  import Runs
  import opened Lookups
  import opened Sockets
  import Net = Reconnection
  import opened Systems
  import opened SystemRuns

  // ----- who is in `disconnected_peers` after a step -----

  lemma StepOff(g: Game, s: Runs.Step)
    requires Runs.Enabled(g, s)
    ensures Runs.Apply(g, s).g.disconnected ==
            match s
            case Connect(p) => if p in g.peers then g.disconnected - {p} else g.disconnected
            case Close(p, now) => if p in g.peers && p !in g.disconnected then g.disconnected[p := now] else g.disconnected
            case Sweep(order, now, limit) => g.disconnected - OnSweep(g, order, now, limit).erased
            case _ => g.disconnected
  {
    hide Runs.Inputs, Looked;
    if Runs.IsCommand(s) {
      hide Runs.Apply;
      CommandKeys(g, s);
    }
  }

  // ----- who has an entry on the socket side -----

  lemma {:induction false} ClearEntries(s: Server, ids: seq<Id>)
    requires Sockets.Ok(s)
    ensures forall p :: p in ClearUsers(s, ids).conns <==> p in s.conns && p !in ids
  {
    hide OkBut, SendClose;
    if ids != [] {
      var n := |ids| - 1;
      ClearEntries(s, ids[..n]);
      ClearKeeps(s, ids[..n]);
      SendCloseKeeps(ClearUsers(s, ids[..n]), {}, ids[n]);
      assert ids == ids[..n] + [ids[n]];
    }
  }

  /** An entry comes only with a socket that was just opened. */
  lemma EntriesAfter(s: Server, n: Net.SocketStep, p: Id)
    requires Sockets.Ok(s) && Net.Ready(s, n) && p in Net.Do(s, n).conns
    ensures p in s.conns || PhaseOf(s.events, p).Fresh?
    ensures n.Clear? ==> p !in n.ids
  {
    hide OkBut, SendClose, End;
    match n
    case Open(d) => OpenEntries(s, d, p);
    case Receive(h, text, now, max, room) => {
      MeterKeeps(s, h, RateLimiter.Arrive(s.sockets[h].meter, now));
      var m := RateLimiter.Arrive(s.sockets[h].meter, now);
      SendCloseKeeps(s.(sockets := s.sockets[h := s.sockets[h].(meter := m)]), {}, s.sockets[h].id);
    }
    case Drop(h) => {}
    case Push(q) => SendCloseKeeps(s, {}, q);
    case Clear(ids) => ClearEntries(s, ids);
  }

  lemma OpenEntries(s: Server, d: Hello, p: Id)
    requires Sockets.Ok(s) && Newcomer(s, d) && p in OnOpen(s, d).conns
    ensures p in s.conns || PhaseOf(s.events, p).Fresh?
  {
    hide OkBut, SendClose, End;
    var s0, k := Arrived(s, d), Sockets.Key(d.game, d.token);
    ArrivedKeeps(s, d);
    UnindexedKeeps(s0, {d.h}, k);
    RejectKeeps(s0, d);
    RejectKeeps(Unindexed(s0, k), d);
    if k in s.recons { SendCloseKeeps(s0, {d.h}, s.recons[k].peer); }
  }

  // ----- the invariant -----

  ghost predicate Wiping(pending: seq<Deferred>, p: Id)
  {
    exists d :: d in pending && d.Wipe? && p in d.ids
  }

  /** Once its CLOSE is taken, an entry without socket is a disconnected peer of its game, or a clear is under way. */
  ghost predicate Awaited(y: System, p: Id)
    requires y.taken <= |y.server.events|
  {
    p in y.server.conns && PhaseOf(Consumed(y), p).Down? ==>
      var g := PhaseOf(Consumed(y), p).game;
      (g in y.games && p in y.games[g].disconnected) || Wiping(y.pending, p)
  }

  ghost predicate NoneLingers(y: System)
    requires y.taken <= |y.server.events|
  {
    forall p :: Awaited(y, p)
  }

  lemma {:induction false} PrefixFresh(events: seq<Event>, i: nat, p: Id)
    requires i <= |events| && PhaseOf(events, p).Fresh?
    ensures PhaseOf(events[..i], p).Fresh?
  {
    if i < |events| {
      var n := |events| - 1;
      assert events[..n][..i] == events[..i];
      PrefixFresh(events[..n], i, p);
    } else {
      assert events[..i] == events;
    }
  }

  lemma ServerAwaits(y: System, n: Net.SocketStep, pending: seq<Deferred>)
    requires Sound(y) && NoneLingers(y) && Net.Ready(y.server, n)
    requires forall p :: Wiping(y.pending, p) ==> Wiping(pending, p) || (n.Clear? && p in n.ids)
    ensures y.server.events <= Net.Do(y.server, n).events
    ensures NoneLingers(y.(server := Net.Do(y.server, n), pending := pending))
  {
    hide OkBut, Net.Do, Net.Ready, Wiping;
    DoAppends(y.server, n);
    var y' := y.(server := Net.Do(y.server, n), pending := pending);
    assert Consumed(y') == Consumed(y);
    forall p ensures Awaited(y', p) {
      assert Awaited(y, p);
      if p in y'.server.conns && PhaseOf(Consumed(y), p).Down? {
        EntriesAfter(y.server, n, p);
        if PhaseOf(y.server.events, p).Fresh? { PrefixFresh(y.server.events, y.taken, p); }
      }
    }
  }

  /** A game step other than a sweep leaves the disconnected peers where they are, but for the one it connects. */
  lemma StaysOff(g: Game, s: Runs.Step, p: Id)
    requires Runs.Enabled(g, s) && p in g.disconnected && !(s.Connect? && s.p == p) && !s.Sweep?
    ensures p in Runs.Apply(g, s).g.disconnected
  {
    hide Runs.Apply, Runs.Enabled;
    StepOff(g, s);
  }

  lemma CloseTurnsOff(g: Game, p: Id, now: int)
    requires p in Active(g)
    ensures p in Runs.Apply(g, Runs.Close(p, now)).g.disconnected
  {
  }

  lemma DeliverAwaitsOne(y: System, t: Turn, p: Id)
    requires Sound(y) && NoneLingers(y) && t.Deliver? && Possible(y, t) && Playable(y, t)
    ensures Turned(y, t).taken <= |y.server.events| && Awaited(Turned(y, t), p)
  {
    hide OkBut, Runs.Apply, Runs.Enabled, Runs.Inputs, Active;
    var e, y' := y.server.events[y.taken], Turned(y, t);
    assert Awaited(y, p) && Heard(y, p);
    NextEvent(y, p);
    GameOfSound(y, e.game);
    if p in y.server.conns && PhaseOf(Consumed(y'), p).Down? {
      var g := PhaseOf(Consumed(y'), p).game;
      if PhaseOf(Consumed(y), p).Up? {
        CloseTurnsOff(GameOf(y, g), p, t.now);
      } else if Wiping(y.pending, p) {
        var d :| d in y.pending && d.Wipe? && p in d.ids;
        assert d in y'.pending;
      } else if MoveOf(y, t).Moves? && e.game == g {
        StaysOff(y.games[g], MoveOf(y, t).s, p);
      }
    }
  }

  lemma TendAwaitsOne(y: System, t: Turn, p: Id)
    requires Sound(y) && NoneLingers(y) && t.Tend? && Possible(y, t) && Playable(y, t)
    ensures Awaited(Turned(y, t), p)
  {
    hide OkBut, Runs.Apply, Runs.Enabled, Runs.Inputs, OnSweep;
    var y' := Turned(y, t);
    assert Awaited(y, p);
    StepOff(y.games[t.game], t.s);
    if t.s.Sweep? { assert Wipe(t.erased) in y'.pending; }
    if Wiping(y.pending, p) {
      var d :| d in y.pending && d.Wipe? && p in d.ids;
      assert d in y'.pending;
    }
  }

  lemma LaterAwaits(y: System)
    requires Sound(y) && NoneLingers(y) && y.pending != []
    ensures Turned(y, Turn.Later).taken <= |Turned(y, Turn.Later).server.events| && NoneLingers(Turned(y, Turn.Later))
  {
    hide OkBut, NoneLingers;
    var n := Asked(y.pending[0]);
    forall p | Wiping(y.pending, p) ensures Wiping(y.pending[1..], p) || (n.Clear? && p in n.ids) {
      var d :| d in y.pending && d.Wipe? && p in d.ids;
      if d != y.pending[0] { assert y.pending == [y.pending[0]] + y.pending[1..]; }
    }
    ServerAwaits(y, n, y.pending[1..]);
  }

  lemma TurnAwaits(y: System, t: Turn)
    requires Sound(y) && NoneLingers(y) && Possible(y, t) && Playable(y, t)
    ensures Turned(y, t).taken <= |Turned(y, t).server.events| && NoneLingers(Turned(y, t))
  {
    hide OkBut, Runs.Enabled, Runs.Inputs, Runs.Apply, Net.Do, Awaited;
    match t
    case Network(n) => ServerAwaits(y, n, y.pending);
    case Deliver(_, _) => { forall p ensures Awaited(Turned(y, t), p) { DeliverAwaitsOne(y, t, p); } }
    case Tend(_, _, _) => { forall p ensures Awaited(Turned(y, t), p) { TendAwaitsOne(y, t, p); } }
    case Later => LaterAwaits(y);
  }

  /**
   In every interleaving an entry without a socket is on its way out or in: its CLOSE is queued, or its game counts it
   as disconnected, or a clear for it is pending.
   */
  lemma NoLingeringEntry(configs: map<Id, Config>, turns: seq<Turn>, p: Id)
    requires Legal(configs, turns)
    requires var y := After(configs, turns); p in y.server.conns && y.server.conns[p].ws.NoSocket?
    ensures var y := After(configs, turns);
            var g := y.server.conns[p].game;
            || Queued(y, Closed(p, g))
            || (g in y.games && p in y.games[g].disconnected)
            || Wiping(y.pending, p)
  {
    hide OkBut, Legal, After, Wiping;
    var y := After(configs, turns);
    var g := y.server.conns[p].game;
    EveryRunSound(configs, turns);
    EveryRunAwaits(configs, turns);
    DownNow(y, p);
    assert Awaited(y, p);
    if !Queued(y, Closed(p, g)) { DownBefore(y.server.events, y.taken, p, g); }
  }

  lemma DownNow(y: System, p: Id)
    requires Sound(y) && p in y.server.conns && y.server.conns[p].ws.NoSocket?
    ensures PhaseOf(y.server.events, p) == Down(y.server.conns[p].game)
  {
    assert PhaseOk(y.server, p);
  }

  lemma {:induction false} DownBefore(events: seq<Event>, from: nat, p: Id, g: Id)
    requires from <= |events| && PhaseOf(events, p) == Down(g)
    requires forall i :: from <= i < |events| ==> events[i] != Closed(p, g)
    ensures PhaseOf(events[..from], p) == Down(g)
  {
    var n := |events| - 1;
    if from == |events| {
      assert events[..from] == events;
    } else {
      assert events[..n][..from] == events[..from];
      assert PhaseOf(events, p) == Next(PhaseOf(events[..n], p), events[n], p);
      DownBefore(events[..n], from, p, g);
    }
  }

  lemma {:induction false} EveryRunAwaits(configs: map<Id, Config>, turns: seq<Turn>)
    requires Legal(configs, turns)
    ensures After(configs, turns).taken <= |After(configs, turns).server.events| && NoneLingers(After(configs, turns))
  {
    hide Sound, NoneLingers;
    if turns == [] {
      NothingLingersAtBoot(configs);
    } else {
      var n := |turns| - 1;
      EveryRunSound(configs, turns[..n]);
      EveryRunAwaits(configs, turns[..n]);
      TurnAwaits(After(configs, turns[..n]), turns[n]);
    }
  }

  lemma NothingLingersAtBoot(configs: map<Id, Config>)
    ensures NoneLingers(Boot(configs))
  {
  }
}
