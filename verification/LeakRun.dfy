/** Which runs of one game a server can be driven through from its start, and the one that leaks a peer. */
module LeakRuns {
  import opened FlatSets
  import opened AnyTypes
  import opened SharedData
  import opened GameState
  import opened Handlers
  import opened Membership
  import opened Sweep
  import opened Talks
  import Runs
  import opened RateLimiter
  import opened Sockets
  import Net = Reconnection
  import opened Systems
  import opened SystemRuns
  import Orphaned

  /** Where a step brings the connection of `p`. */
  function Onto(ph: Phase, s: Runs.Step, p: Id, gid: Id): Phase
  {
    match s
    case Connect(q) => if q == p then Up(gid) else ph
    case Close(q, _) => if q == p then Down(gid) else ph
    case _ => ph
  }

  function Where(gid: Id, steps: seq<Runs.Step>, p: Id): (ph: Phase)
    ensures ph.Fresh? || ph == Up(gid) || ph == Down(gid)
  {
    if steps == [] then Fresh
    else
      var n := |steps| - 1;
      Onto(Where(gid, steps[..n], p), steps[n], p, gid)
  }

  /** Who connects is new, and who speaks or closes has connected and not closed. */
  predicate Speaks(gid: Id, steps: seq<Runs.Step>, s: Runs.Step)
  {
    if s.Connect? then Where(gid, steps, s.p).Fresh?
    else if s.Close? || Runs.IsCommand(s) then Where(gid, steps, s.p).Up?
    else steps != []
  }

  predicate Scripted(gid: Id, steps: seq<Runs.Step>)
  {
    steps == [] ||
    (var n := |steps| - 1;
     Scripted(gid, steps[..n]) && Speaks(gid, steps[..n], steps[n]))
  }

  lemma OneMore(gid: Id, steps: seq<Runs.Step>, s: Runs.Step)
    ensures Scripted(gid, steps + [s]) <==> Scripted(gid, steps) && Speaks(gid, steps, s)
    ensures forall p :: Where(gid, steps + [s], p) == Onto(Where(gid, steps, p), s, p, gid)
  {
    assert (steps + [s])[..|steps|] == steps;
  }

  /** The system after the script: everything queued is taken, nothing is deferred, the game is where it should be. */
  ghost predicate Staged(y: System, gid: Id, g: Game, steps: seq<Runs.Step>)
  {
    && Sound(y) && y.taken == |y.server.events| && y.pending == []
    && GameOf(y, gid) == g && (steps != [] ==> gid in y.games)
    && (forall h :: h in y.server.sockets ==> h < |steps|)
    && (forall p :: PhaseOf(y.server.events, p) == Where(gid, steps, p))
  }

  // ----- what a socket does -----

  lemma OpensSocket(s: Server, p: Id, gid: Id, h: Handle) returns (n: Net.SocketStep)
    requires p != "" && PhaseOf(s.events, p).Fresh? && h !in s.sockets
    ensures n.Open? && Net.Ready(s, n) && Net.Do(s, n).events == s.events + [Opened(p, gid)]
    ensures Net.Do(s, n).sockets.Keys == s.sockets.Keys + {h}
  {
    n := Net.Open(Hello(h, p, gid, "", "anon", "", "uuid", 0));
  }

  lemma SocketUp(s: Server, p: Id, gid: Id) returns (h: Handle)
    requires Sockets.Ok(s) && PhaseOf(s.events, p) == Up(gid)
    ensures h in s.sockets && s.sockets[h].open && s.sockets[h].id == p && s.sockets[h].game == gid
  {
    Net.UpIffOpenSocket(s, p);
    h :| h in s.sockets && s.sockets[h].open && s.sockets[h].id == p;
    assert SocketOk(s, h) && PhaseOk(s, p);
  }

  lemma SpeaksUp(s: Server, p: Id, gid: Id) returns (n: Net.SocketStep)
    requires Sockets.Ok(s) && PhaseOf(s.events, p) == Up(gid)
    ensures n.Receive? && Net.Ready(s, n) && Net.Do(s, n).events == s.events + [Message(p, gid, "")]
    ensures Net.Do(s, n).sockets.Keys == s.sockets.Keys
  {
    hide OkBut, PhaseOf, SendClose;
    var h := SocketUp(s, p, gid);
    n := Net.Receive(h, "", 0, Arrive(s.sockets[h].meter, 0).count, true);
  }

  lemma HangsUp(s: Server, p: Id, gid: Id) returns (n: Net.SocketStep)
    requires Sockets.Ok(s) && PhaseOf(s.events, p) == Up(gid)
    ensures n.Drop? && Net.Ready(s, n) && Net.Do(s, n).events == s.events + [Closed(p, gid)]
    ensures Net.Do(s, n).sockets.Keys == s.sockets.Keys
  {
    hide OkBut, PhaseOf;
    var h := SocketUp(s, p, gid);
    n := Net.Drop(h);
  }

  /** Clearing users without sockets closes nothing. */
  lemma {:induction false} ClearIdle(s: Server, ids: seq<Id>)
    requires Sockets.Ok(s) && forall p :: p in ids ==> !PhaseOf(s.events, p).Up?
    ensures ClearUsers(s, ids).events == s.events && ClearUsers(s, ids).sockets == s.sockets
  {
    hide OkBut, PhaseOf;
    if ids != [] {
      var n := |ids| - 1;
      ClearIdle(s, ids[..n]);
      ClearKeeps(s, ids[..n]);
      var t := ClearUsers(s, ids[..n]);
      assert PhaseOk(t, ids[n]) by { PhasesOk(t, ids[n]); }
      SendCloseIs(t, {}, ids[n]);
    }
  }

  lemma PhasesOk(s: Server, p: Id)
    requires Sockets.Ok(s)
    ensures PhaseOk(s, p)
  {
  }

  // ----- what the game makes of it -----

  predicate Means(e: Event, command: Command, now: int, s: Runs.Step)
  {
    match e
    case Opened(p, _) => s == Runs.Connect(p)
    case Closed(p, _) => s == Runs.Close(p, now)
    case Message(p, _, _) => command == Say(s) && Runs.IsCommand(s) && s.p == p
  }

  /** A socket does something, and the game takes the event. */
  lemma Exchange(
    configs: map<Id, Config>, turns: seq<Turn>, n: Net.SocketStep, e: Event, command: Command, now: int, s: Runs.Step)
    returns (more: seq<Turn>)
    requires Legal(configs, turns)
    requires var y := After(configs, turns);
             && y.taken == |y.server.events| && y.pending == []
             && (n.Open? || n.Receive? || n.Drop?) && Net.Ready(y.server, n)
             && Net.Do(y.server, n).events == y.server.events + [e]
             && Means(e, command, now, s) && Runs.Enabled(GameOf(y, e.game), s)
    ensures Legal(configs, more)
    ensures var y := After(configs, turns);
            After(configs, more) == System(Net.Do(y.server, n), |y.server.events| + 1,
              y.games[e.game := Runs.Apply(GameOf(y, e.game), s).g], [])
  {
    hide Legal, After, Net.Do, Net.Ready, Runs.Apply, Runs.Inputs;
    var t, u := Network(n), Deliver(now, command);
    RunExtends(configs, turns, t);
    RunExtends(configs, turns + [t], u);
    more := turns + [t] + [u];
  }

  lemma StagedBy(y: System, y': System, gid: Id, g': Game, steps: seq<Runs.Step>, s: Runs.Step, e: Event)
    requires Staged(y, gid, GameOf(y, gid), steps) && Sound(y') && e.game == gid
    requires y'.server.events == y.server.events + [e] && y'.taken == |y'.server.events| && y'.pending == []
    requires y'.games == y.games[gid := g']
    requires forall h :: h in y'.server.sockets ==> h <= |steps|
    requires forall p :: Next(Where(gid, steps, p), e, p) == Onto(Where(gid, steps, p), s, p, gid)
    ensures Staged(y', gid, g', steps + [s])
  {
    hide Sound, Next, Onto, PhaseOf, Where;
    OneMore(gid, steps, s);
    forall p ensures PhaseOf(y'.server.events, p) == Where(gid, steps + [s], p) {
      PhaseMore(y.server.events, e, p);
    }
  }

  /** A step that answers an event. */
  lemma Answered(
    configs: map<Id, Config>, turns: seq<Turn>, gid: Id, g: Game, steps: seq<Runs.Step>, s: Runs.Step)
    returns (more: seq<Turn>)
    requires Legal(configs, turns) && Staged(After(configs, turns), gid, g, steps)
    requires Runs.Enabled(g, s) && Speaks(gid, steps, s) && (s.Connect? || s.Close? || Runs.IsCommand(s))
    ensures Legal(configs, more) && Staged(After(configs, more), gid, Runs.Apply(g, s).g, steps + [s])
  {
    hide Legal, After, Net.Do, Net.Ready, Runs.Apply, OkBut, PhaseOf, Where;
    var y := After(configs, turns);
    var n: Net.SocketStep;
    var e: Event;
    if s.Connect? {
      n := OpensSocket(y.server, s.p, gid, |steps|);
      e := Opened(s.p, gid);
    } else if s.Close? {
      n := HangsUp(y.server, s.p, gid);
      e := Closed(s.p, gid);
    } else {
      n := SpeaksUp(y.server, s.p, gid);
      e := Message(s.p, gid, "");
    }
    more := Exchange(configs, turns, n, e, Say(s), if s.Close? then s.now else 0, s);
    EveryRunSound(configs, more);
    StagedBy(y, After(configs, more), gid, Runs.Apply(g, s).g, steps, s, e);
  }

  lemma Listed(ids: set<Id>) returns (order: seq<Id>)
    ensures forall p :: p in order <==> p in ids
  {
    if ids == {} {
      order := [];
    } else {
      var p :| p in ids;
      var rest := Listed(ids - {p});
      order := rest + [p];
    }
  }

  /** A periodic task, and after a sweep the clearing it asked for. */
  lemma Tended(
    configs: map<Id, Config>, turns: seq<Turn>, gid: Id, g: Game, steps: seq<Runs.Step>, s: Runs.Step)
    returns (more: seq<Turn>)
    requires Legal(configs, turns) && Staged(After(configs, turns), gid, g, steps)
    requires Runs.Enabled(g, s) && steps != [] && (s.Sweep? || s.Flush?)
    ensures Legal(configs, more) && Staged(After(configs, more), gid, Runs.Apply(g, s).g, steps + [s])
  {
    hide Legal, After, Runs.Apply, OnSweep, OkBut, PhaseOf, Where, ClearUsers;
    var y := After(configs, turns);
    var ids := [];
    if s.Sweep? {
      ids := Listed(OnSweep(g, s.order, s.now, s.limit).erased);
      ErasedAreDown(y, gid, s, ids);
    }
    var t := Tend(gid, s, ids);
    RunExtends(configs, turns, t);
    more := turns + [t];
    if s.Sweep? {
      RunExtends(configs, more, Later);
      more := more + [Later];
      ClearIdle(y.server, ids);
    }
    EveryRunSound(configs, more);
    OneMore(gid, steps, s);
  }

  lemma ErasedAreDown(y: System, gid: Id, s: Runs.Step, ids: seq<Id>)
    requires Sound(y) && y.taken == |y.server.events| && s.Sweep? && Runs.Enabled(GameOf(y, gid), s)
    requires forall p :: PhaseOf(y.server.events, p).Up? ==> PhaseOf(y.server.events, p) == Up(gid)
    requires forall p :: p in ids <==> p in OnSweep(GameOf(y, gid), s.order, s.now, s.limit).erased
    ensures forall p :: p in ids ==> !PhaseOf(y.server.events, p).Up?
  {
    hide OkBut, PhaseOf, SweepLoop;
    var g := GameOf(y, gid);
    ErasedWithin(g, s.order, s.now, s.limit);
    assert Consumed(y) == y.server.events;
    forall p | p in ids ensures !PhaseOf(y.server.events, p).Up? {
      assert Heard(y, p);
      assert p in g.disconnected;
    }
  }

  /** Whatever a game can go through with peers that connect before they speak, the whole system can go through. */
  lemma {:induction false} ScriptHappens(configs: map<Id, Config>, gid: Id, steps: seq<Runs.Step>)
    returns (turns: seq<Turn>)
    requires Runs.Legal(GameOf(Boot(configs), gid), steps) && Scripted(gid, steps)
    ensures Legal(configs, turns)
    ensures Staged(After(configs, turns), gid, Runs.After(GameOf(Boot(configs), gid), steps), steps)
    decreases |steps|
  {
    hide Staged, Runs.Enabled, Runs.Apply, Where;
    if steps == [] {
      turns := [];
      BootStaged(configs, gid);
    } else {
      var n, g0 := |steps| - 1, GameOf(Boot(configs), gid);
      turns := ScriptHappens(configs, gid, steps[..n]);
      assert steps == steps[..n] + [steps[n]];
      if steps[n].Sweep? || steps[n].Flush? {
        turns := Tended(configs, turns, gid, Runs.After(g0, steps[..n]), steps[..n], steps[n]);
      } else {
        turns := Answered(configs, turns, gid, Runs.After(g0, steps[..n]), steps[..n], steps[n]);
      }
    }
  }

  lemma BootStaged(configs: map<Id, Config>, gid: Id)
    ensures Staged(Boot(configs), gid, GameOf(Boot(configs), gid), [])
  {
    hide Sound;
    BootSound(configs);
  }

  // ----- the leak -----

  lemma PartyScripted(gid: Id, a: Id, b: Id, c: Id, l: Id)
    requires a != b && b != c && a != c
    ensures var steps := Orphaned.PartySteps(a, b, c, l);
            && Scripted(gid, steps)
            && Where(gid, steps, a).Up? && Where(gid, steps, b).Up? && Where(gid, steps, c).Up?
  {
    hide Scripted, Where;
    var s1 := [Runs.Connect(a)];
    FirstScripted(gid, Runs.Connect(a));
    OneMore(gid, s1, Runs.Connect(b));
    var s2 := s1 + [Runs.Connect(b)];
    OneMore(gid, s2, Runs.Connect(c));
    var s3 := s2 + [Runs.Connect(c)];
    var create := Runs.Create(a, Orphaned.Args(l), true);
    OneMore(gid, s3, create);
    OneMore(gid, s3 + [create], Runs.Join(b, l, "", true));
  }

  lemma FirstScripted(gid: Id, s: Runs.Step)
    requires s.Connect?
    ensures Scripted(gid, [s]) && forall p :: Where(gid, [s], p) == if p == s.p then Up(gid) else Fresh
  {
    assert Scripted(gid, []);
    OneMore(gid, [], s);
    assert [] + [s] == [s];
  }

  lemma LeakScripted(
    gid: Id, party: seq<Runs.Step>, a: Id, b: Id, c: Id, l: Id, password: string, order: seq<Id>, now: int, limit: int)
    requires a != b && b != c && Scripted(gid, party) && party != []
    requires Where(gid, party, a).Up? && Where(gid, party, b).Up? && Where(gid, party, c).Up?
    ensures var steps := party + Orphaned.LeakingSteps(a, b, c, l, password, order, now, limit);
            Scripted(gid, steps) && Where(gid, steps, b).Down?
  {
    hide Scripted, Where;
    var leave, close, sweep := Runs.Leave(a), Runs.Close(b, now), Runs.Sweep(order, now, limit);
    var join := Runs.Join(c, l, password, true);
    OneMore(gid, party, leave);
    OneMore(gid, party + [leave], close);
    OneMore(gid, party + [leave] + [close], sweep);
    OneMore(gid, party + [leave] + [close] + [sweep], join);
    assert party + [leave] + [close] + [sweep] + [join] ==
           party + Orphaned.LeakingSteps(a, b, c, l, password, order, now, limit);
  }

  /**
   So `AllFound` cannot be dropped from "no leaked peers".  On any server whose game `gid` is a default relay, or that
   has no such game yet, some run from the start ends with a peer that its game believes connected, with no open socket,
   no CLOSE on the way, and nothing deferred.
   */
  lemma PeerLeaks(configs: map<Id, Config>, gid: Id, a: Id, b: Id, c: Id, l: Id) returns (turns: seq<Turn>)
    requires gid in configs ==> configs[gid] == Orphaned.RELAY
    requires a != b && b != c && a != c && a != "" && b != "" && c != "" && l != ""
    ensures Legal(configs, turns) && !AllFound(configs, turns)
    ensures var y := After(configs, turns);
            && gid in y.games && b in Active(y.games[gid])
            && !HasSocket(y, b) && y.taken == |y.server.events| && y.pending == []
  {
    hide Runs.Legal, Runs.After, Legal, After, AllFound, Sound, PhaseOf, Where;
    hide Orphaned.PartySteps, Orphaned.LeakingSteps;
    var g0 := NewGame(Orphaned.RELAY);
    var party, leak := Orphaned.PartySteps(a, b, c, l), Orphaned.LeakingSteps(a, b, c, l, "", [b], 0, 0);
    Orphaned.Party(a, b, c, l);
    Orphaned.OneBy(b);
    Orphaned.OrphaningCanLeak(Runs.After(g0, party), l, a, b, c, [b], 0, 0);
    Orphaned.LegalConcat(g0, party, leak);
    PartyScripted(gid, a, b, c, l);
    PartyNotEmpty(a, b, c, l);
    LeakScripted(gid, party, a, b, c, l, "", [b], 0, 0);
    turns := ScriptHappens(configs, gid, party + leak);
    UpIffSocket(After(configs, turns), b);
    NoneQueued(After(configs, turns), b, gid);
    if AllFound(configs, turns) { NoLeakedPeer(configs, turns, gid, b); }
  }

  lemma TellScripted(
    gid: Id, party: seq<Runs.Step>, a: Id, b: Id, l: Id, password: string, now: int, limit: int, t: Talk)
    requires a != b && Scripted(gid, party) && party != [] && Where(gid, party, a).Up? && Where(gid, party, b).Up?
    ensures var steps := party + Orphaned.TellingSteps(a, b, l, password, now, limit, t);
            Scripted(gid, steps) && Where(gid, steps, b).Down?
  {
    hide Scripted, Where;
    var leave, back, close := Runs.Leave(a), Runs.Join(a, l, password, true), Runs.Close(b, now);
    var sweep, tell := Runs.Sweep([b], now, limit), Runs.Tell(a, t);
    OneMore(gid, party, leave);
    OneMore(gid, party + [leave], back);
    OneMore(gid, party + [leave] + [back], close);
    OneMore(gid, party + [leave] + [back] + [close], sweep);
    OneMore(gid, party + [leave] + [back] + [close] + [sweep], tell);
    assert party + [leave] + [back] + [close] + [sweep] + [tell] ==
           party + Orphaned.TellingSteps(a, b, l, password, now, limit, t);
  }

  /**
   And nobody has to join for it: a host that came back to its orphaned lobby leaks a swept member by telling it
   something, or by a DATA_TO for it, even one that is refused for what it carries.
   */
  lemma TellingLeaks(configs: map<Id, Config>, gid: Id, a: Id, b: Id, c: Id, l: Id, t: Talk) returns (turns: seq<Turn>)
    requires gid in configs ==> configs[gid] == Orphaned.RELAY
    requires a != b && b != c && a != c && a != "" && b != "" && c != "" && l != ""
    requires Names(t) && t.target == b
    ensures Legal(configs, turns) && !AllFound(configs, turns)
    ensures var y := After(configs, turns);
            && gid in y.games && b in Active(y.games[gid])
            && !HasSocket(y, b) && y.taken == |y.server.events| && y.pending == []
  {
    hide Runs.Legal, Runs.After, Legal, After, AllFound, Sound, PhaseOf, Where;
    hide Orphaned.PartySteps, Orphaned.TellingSteps, Orphaned.LooksHit;
    var g0 := NewGame(Orphaned.RELAY);
    var party, leak := Orphaned.PartySteps(a, b, c, l), Orphaned.TellingSteps(a, b, l, "", 0, 0, t);
    Orphaned.Party(a, b, c, l);
    Orphaned.TellingCanLeak(Runs.After(g0, party), l, a, b, 0, 0, t);
    Orphaned.LegalConcat(g0, party, leak);
    PartyScripted(gid, a, b, c, l);
    PartyNotEmpty(a, b, c, l);
    TellScripted(gid, party, a, b, l, "", 0, 0, t);
    turns := ScriptHappens(configs, gid, party + leak);
    UpIffSocket(After(configs, turns), b);
    NoneQueued(After(configs, turns), b, gid);
    if AllFound(configs, turns) { NoLeakedPeer(configs, turns, gid, b); }
  }

  lemma PartyNotEmpty(a: Id, b: Id, c: Id, l: Id)
    ensures Orphaned.PartySteps(a, b, c, l) != []
  {
  }

  lemma NoneQueued(y: System, p: Id, gid: Id)
    requires y.taken == |y.server.events|
    ensures !Queued(y, Closed(p, gid))
  {
  }
}
