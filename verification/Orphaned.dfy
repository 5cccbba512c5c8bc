/** Why the theorems about runs exclude the orphaning step: any relay lobby it leaves behind can leak a peer. */
module Orphaned {
  import opened FlatSets
  import opened AnyTypes
  import opened SharedData
  import opened GameState
  import opened Handlers
  import opened Membership
  import opened Invariants
  import opened Sweep
  import opened QuickJoins
  import opened Talks
  import opened Runs
  import opened Lookups

  /** The host walks out; a member it orphaned closes and is swept away; somebody else joins by the lobby's id. */
  function LeakingSteps(
    host: Id, q: Id, late: Id, l: Id, password: string, order: seq<Id>, now: int, limit: int): seq<Step>
  {
    [Leave(host)] + [Close(q, now)] + [Runs.Sweep(order, now, limit)] + [Join(late, l, password, true)]
  }

  lemma NextStep(g: Game, steps: seq<Step>, s: Step)
    requires Legal(g, steps) && Enabled(After(g, steps), s)
    ensures Legal(g, steps + [s]) && After(g, steps + [s]) == Apply(After(g, steps), s).g
  {
    assert (steps + [s])[..|steps|] == steps;
  }

  lemma FirstStep(g: Game, s: Step)
    requires Enabled(g, s)
    ensures Legal(g, [s]) && After(g, [s]) == Apply(g, s).g
  {
    assert Legal(g, []) && After(g, []) == g;
    assert [] + [s] == [s];
    NextStep(g, [], s);
  }

  lemma {:induction false} WithoutShorter(s: seq<Id>, x: Id)
    requires x in s
    ensures |Without(s, x)| < |s|
  {
    if s[0] == x { WithoutElements(s[1..], x); } else { WithoutShorter(s[1..], x); }
  }

  /** What matters of the state on the way to the leak: the roster of `l` still lists `q`, whom nothing keeps there. */
  ghost predicate Leftover(g: Game, l: Id, b: Lobby, q: Id, late: Id)
  {
    && Weak(g) && l in g.lobbies && g.lobbies[l] == b && q in b.peerIds
    && |b.peerIds| < U64(b.maxPlayers)
    && (forall k :: k in g.peers ==> g.peers[k].lobbyId != l)
    && q != late && late in Active(g) && Genuine(g, late) && g.peers[late].lobbyId == ""
  }

  /** And it still has its entry. */
  ghost predicate Lingers(g: Game, q: Id)
  {
    q in g.peers && g.peers[q].lobbyId == ""
  }

  /** The orphaning leave: everybody is out, and the lobby stands, without its host. */
  lemma OrphanState(g: Game, l: Id, host: Id)
    requires Inv(g) && l in g.lobbies && Orphans(g, l, host)
    ensures var b, g1 := g.lobbies[l], RemovePeer(g, l, host, false).g;
            && g1.lobbies == g.lobbies[l := LobbyAfterRemoval(g, b, host)] && g1.disconnected == g.disconnected
            && g1.peers.Keys == g.peers.Keys
            && (forall k :: k in b.peerIds ==> k in g.peers && g1.peers[k] == LeaveLobby(g.peers[k]))
            && (forall k :: k in g.peers && k !in b.peerIds ==> g1.peers[k] == g.peers[k] && g.peers[k].lobbyId != l)
    ensures host in g.lobbies[l].peerIds && host in g.peers && g.peers[host].lobbyId == l
    ensures |g.lobbies[l].peerIds| <= U64(g.lobbies[l].maxPlayers)
  {
    hide RemovalNotes, JoinOrder;
    assert LobbyStrong(g, l) && LobbyWeak(g, l);
    RemovalPeers(g, l, host);
    OrphanedLobby(g, l, host, false);
    forall k | k in g.peers && g.peers[k].lobbyId == l ensures k in g.lobbies[l].peerIds { assert PeerWeak(g, k); }
  }

  lemma OrphaningLeaves(g: Game, l: Id, host: Id, q: Id, late: Id)
    requires Inv(g) && l in g.lobbies && Orphans(g, l, host) && host in Active(g)
    requires q in g.lobbies[l].peerIds && q != host
    requires late in Active(g) && g.peers[late].lobbyId == ""
    ensures Enabled(g, Leave(host))
    ensures var g1 := Apply(g, Leave(host)).g;
            && l in g1.lobbies && Leftover(g1, l, g1.lobbies[l], q, late) && Lingers(g1, q)
            && g1.lobbies[l].password == g.lobbies[l].password && g1.disconnected == g.disconnected
            && g1.lobbies.Keys <= g.lobbies.Keys
  {
    hide Weak, Strong, RemovePeer;
    OrphanState(g, l, host);
    InvActs(g, host);
    InvActs(g, late);
    if late in g.lobbies[l].peerIds { LateOutside(g, l, late); }
    NoEmptyId(g);
    RemovalWeak(g, l, host, false);
    WithoutShorter(g.lobbies[l].peerIds, host);
    WithoutElements(g.lobbies[l].peerIds, host);
    assert Apply(g, Leave(host)).g == RemovePeer(g, l, host, false).g;
  }

  lemma LateOutside(g: Game, l: Id, late: Id)
    requires Inv(g) && l in g.lobbies && late in g.lobbies[l].peerIds
    ensures late in g.peers && g.peers[late].lobbyId == l
  {
    assert LobbyStrong(g, l);
  }

  lemma CloseLeaves(g: Game, l: Id, b: Lobby, q: Id, late: Id, now: int)
    requires Leftover(g, l, b, q, late) && Lingers(g, q)
    ensures var g1 := Apply(g, Close(q, now)).g;
            && Leftover(g1, l, b, q, late) && Lingers(g1, q) && g1.disconnected.Keys == g.disconnected.Keys + {q}
            && g1.lobbies == g.lobbies
  {
    hide Weak;
    CloseKeeps(g, q, now);
  }

  lemma TurnLeaves(s: SweepState, l: Id, b: Lobby, q: Id, late: Id, p: Id, now: int, limit: int)
    requires Leftover(s.g, l, b, q, late) && Lingers(s.g, q) && p in s.g.disconnected
    ensures var g1 := SweepOne(s, p, now, limit).g;
            Leftover(g1, l, b, q, late) && Lingers(g1, q) && g1.lobbies.Keys <= s.g.lobbies.Keys
  {
    hide Weak, RemovePeer;
    if p in s.g.peers {
      var m := s.g.peers[p].lobbyId;
      if m !in s.g.lobbies {
        HomelessWeak(s.g, p);
      } else {
        RemovalWeak(s.g, m, s.g.peers[p].id, true);
        RemovalElsewhere(s.g, m, s.g.peers[p].id, l);
      }
    }
  }

  /** Removal from another lobby: `l` is not touched, nobody gains a lobby, nobody loses its id. */
  lemma RemovalElsewhere(g: Game, m: Id, p: Id, l: Id)
    requires Weak(g) && m in g.lobbies && l in g.lobbies && m != l && forall k :: k in g.peers ==> g.peers[k].lobbyId != l
    ensures var g1 := RemovePeer(g, m, p, true).g;
            && l in g1.lobbies && g1.lobbies[l] == g.lobbies[l] && g1.disconnected == g.disconnected
            && g.peers.Keys <= g1.peers.Keys && g1.lobbies.Keys <= g.lobbies.Keys
            && (forall k :: k in g.peers ==>
                  g1.peers[k].id == g.peers[k].id && (g1.peers[k].lobbyId == "" || g1.peers[k].lobbyId == g.peers[k].lobbyId))
            && (forall k :: k in g1.peers ==> g1.peers[k].lobbyId != l)
  {
    hide Weak, RemovalNotes, LobbyAfterRemoval;
    LobbyKeys(g, m);
    LobbyKeys(g, l);
  }

  lemma LobbyKeys(g: Game, l: Id)
    requires Weak(g) && l in g.lobbies
    ensures g.lobbies[l].id == l && l != ""
  {
    assert LobbyWeak(g, l);
  }

  lemma {:induction false} LoopLeaves(
    g: Game, l: Id, b: Lobby, q: Id, late: Id, order: seq<Id>, now: int, limit: int)
    requires Leftover(g, l, b, q, late) && Lingers(g, q) && forall p :: p in order ==> p in g.disconnected
    ensures var s := SweepLoop(g, order, now, limit);
            Leftover(s.g, l, b, q, late) && Lingers(s.g, q) && s.g.lobbies.Keys <= g.lobbies.Keys
  {
    hide Leftover, Lingers, SweepOne;
    if order != [] {
      var n := |order| - 1;
      LoopLeaves(g, l, b, q, late, order[..n], now, limit);
      TurnLeaves(SweepLoop(g, order[..n], now, limit), l, b, q, late, order[n], now, limit);
    }
  }

  lemma SweepLeaves(g: Game, l: Id, b: Lobby, q: Id, late: Id, order: seq<Id>, now: int, limit: int)
    requires Leftover(g, l, b, q, late) && Lingers(g, q) && q in g.disconnected
    requires Enumerates(order, g.disconnected.Keys)
    ensures Enabled(g, Runs.Sweep(order, now, limit))
    ensures var g1 := Apply(g, Runs.Sweep(order, now, limit)).g;
            && Leftover(g1, l, b, q, late) && q !in g1.peers && q !in g1.disconnected
            && g1.lobbies.Keys <= g.lobbies.Keys
  {
    hide Weak, SweepLoop;
    LoopLeaves(g, l, b, q, late, order, now, limit);
    ErasedWithin(g, order, now, limit);
    var s := SweepLoop(g, order, now, limit);
    EraseWeak(s.g, s.erased);
    var i :| 0 <= i < |order| && order[i] == q;
    assert forall p :: p in order[..i] ==> p in order;
    LoopLeaves(g, l, b, q, late, order[..i], now, limit);
    ErasedIff(g, order, i, now, limit);
    NoEmptyId(TurnOf(g, order, i, now, limit));
    assert q in s.erased && late !in s.erased;
    var g1 := Erase(s.g, s.erased);
    assert late in Active(g1) && g1.peers[late] == s.g.peers[late];
    assert Apply(g, Runs.Sweep(order, now, limit)).g == g1;
  }

  lemma JoinRevives(g: Game, l: Id, b: Lobby, q: Id, late: Id)
    requires Leftover(g, l, b, q, late) && q !in g.peers && q !in g.disconnected
    ensures Enabled(g, Join(late, l, b.password, true))
    ensures var g1 := Apply(g, Join(late, l, b.password, true)).g;
            && q in Active(g1) && g1.peers[q] == NewPeer("") && g1.lobbies.Keys == g.lobbies.Keys
  {
    hide Weak, SortByOrder, Broadcast, PeersArray;
    NoEmptyId(g);
    assert OnJoin(g, late, l, b.password, true) == Enter(g, late, l);
    InsertElements(b.peerIds, late);
    assert q in b.orderedIds + [late] + Insert(b.peerIds, late);
  }

  /**
   Wherever a run can orphan somebody it can go on to leak them: closed and swept, they are believed connected again,
   with no socket behind them, as soon as anybody joins the lobby that still lists them.
   */
  lemma OrphaningCanLeak(g: Game, l: Id, host: Id, q: Id, late: Id, order: seq<Id>, now: int, limit: int)
    requires Inv(g) && l in g.lobbies && Orphans(g, l, host) && host in Active(g)
    requires q in g.lobbies[l].peerIds && q != host && Enumerates(order, g.disconnected.Keys + {q})
    requires late in Active(g) && g.peers[late].lobbyId == ""
    ensures var steps := LeakingSteps(host, q, late, l, g.lobbies[l].password, order, now, limit);
            && Legal(g, steps) && q in Active(After(g, steps)) && After(g, steps).peers[q] == NewPeer("")
            && After(g, steps).lobbies.Keys <= g.lobbies.Keys
  {
    hide Apply, Enabled, Inv, Leftover, Lingers, Active, Legal, After;
    OrphaningLeaves(g, l, host, q, late);
    FirstStep(g, Leave(host));
    var s1 := [Leave(host)];
    var b := After(g, s1).lobbies[l];
    CloseLeaves(After(g, s1), l, b, q, late, now);
    CloseEnabled(After(g, s1), q, now);
    NextStep(g, s1, Close(q, now));
    var s2 := s1 + [Close(q, now)];
    SweepLeaves(After(g, s2), l, b, q, late, order, now, limit);
    NextStep(g, s2, Runs.Sweep(order, now, limit));
    var s3 := s2 + [Runs.Sweep(order, now, limit)];
    JoinRevives(After(g, s3), l, b, q, late);
    NextStep(g, s3, Join(late, l, b.password, true));
  }

  lemma CloseEnabled(g: Game, q: Id, now: int)
    ensures Enabled(g, Close(q, now))
  {
  }

  // ----- the other way: a look-up of one target -----

  /** The host walks out and comes back by the lobby's id; a member it orphaned closes and is swept; the host tells it. */
  function TellingSteps(host: Id, q: Id, l: Id, password: string, now: int, limit: int, t: Talk): seq<Step>
  {
    [Leave(host)] + [Join(host, l, password, true)] + [Close(q, now)] + [Runs.Sweep([q], now, limit)] +
    [Tell(host, t)]
  }

  /** The host is back, and `q` still on the roster. */
  ghost predicate Back(g: Game, l: Id, host: Id, q: Id)
  {
    && !g.config.scripted && l != "" && l in g.lobbies && g.lobbies[l].host == host && q in g.lobbies[l].peerIds
    && host != "" && host != q && q != ""
    && host in Active(g) && g.peers[host].id == host && g.peers[host].lobbyId == l
    && (q in g.peers ==> g.peers[q].lobbyId == "")
  }

  /** Everybody is out of `l`, and it stands. */
  ghost predicate Vacant(g: Game, l: Id, host: Id, q: Id)
  {
    && l != "" && l in g.lobbies && "" !in g.lobbies && !g.config.scripted && g.disconnected == map[]
    && g.lobbies[l].host == host && q in g.lobbies[l].peerIds && |g.lobbies[l].peerIds| < U64(g.lobbies[l].maxPlayers)
    && host != "" && host != q && q != "" && q in g.peers && g.peers[q].lobbyId == ""
    && host in Active(g) && g.peers[host].id == host && g.peers[host].lobbyId == "" && !g.peers[host].disconnected
    && (forall k :: k in g.lobbies[l].orderedIds + g.lobbies[l].peerIds ==> k in g.peers)
  }

  lemma HostLeaves(g: Game, l: Id, host: Id, q: Id)
    requires Inv(g) && l in g.lobbies && Orphans(g, l, host) && host in Active(g) && g.disconnected == map[]
    requires q in g.lobbies[l].peerIds && q != host
    ensures Enabled(g, Leave(host)) && Looked(g, Leave(host)) <= g.peers.Keys
    ensures var g1 := Apply(g, Leave(host)).g;
            Vacant(g1, l, host, q) && g1.lobbies[l].password == g.lobbies[l].password
  {
    hide RemovePeer, Weak, Strong, Looked;
    OrphanState(g, l, host);
    InvActs(g, host);
    RosterFacts(g, l, host, q);
    WithoutShorter(g.lobbies[l].peerIds, host);
    WithoutElements(g.lobbies[l].peerIds, host);
    WithoutElements(g.lobbies[l].orderedIds, host);
    assert Apply(g, Leave(host)).g == RemovePeer(g, l, host, false).g;
    LeaveLooks(g, l, host);
    StepKeepsConfig(g, Leave(host));
    if "" in g.lobbies { NoEmptyLobbyId(g, ""); }
  }

  lemma LeaveLooks(g: Game, l: Id, host: Id)
    requires Inv(g) && l in g.lobbies && host in Active(g) && g.peers[host].lobbyId == l && l != "" && host != ""
    ensures Looked(g, Leave(host)) <= g.peers.Keys
  {
    assert LobbyStrong(g, l);
    assert PeerStrong(g, host);
  }

  lemma RosterFacts(g: Game, l: Id, host: Id, q: Id)
    requires Inv(g) && l in g.lobbies && host in g.peers && q in g.lobbies[l].peerIds
    ensures q in g.peers && q != "" && l != "" && host != ""
    ensures forall k :: k in g.lobbies[l].orderedIds + g.lobbies[l].peerIds ==> k in g.peers
  {
    assert LobbyStrong(g, l) && LobbyWeak(g, l);
    assert PeerStrong(g, q) && PeerStrong(g, host);
  }

  lemma HostReturns(g: Game, l: Id, host: Id, q: Id)
    requires Vacant(g, l, host, q)
    ensures var s := Join(host, l, g.lobbies[l].password, true);
            && Enabled(g, s) && Looked(g, s) <= g.peers.Keys
            && Back(Apply(g, s).g, l, host, q) && q in Apply(g, s).g.peers
            && Apply(g, s).g.disconnected == map[] && "" !in Apply(g, s).g.lobbies
  {
    hide SortByOrder, Broadcast, PeersArray;
    InsertElements(g.lobbies[l].peerIds, host);
    assert OnJoin(g, host, l, g.lobbies[l].password, true) == Enter(g, host, l);
    assert EnterLooks(g, host, l) <= g.peers.Keys;
  }

  lemma GoneMember(g: Game, l: Id, host: Id, q: Id, now: int, limit: int)
    requires Back(g, l, host, q) && q in g.peers && g.disconnected == map[] && "" !in g.lobbies
    ensures var g1 := Apply(g, Close(q, now)).g;
            && Enabled(g, Close(q, now)) && Looked(g, Close(q, now)) <= g.peers.Keys && g1.peers.Keys == g.peers.Keys
            && Enabled(g1, Runs.Sweep([q], now, limit)) && Looked(g1, Runs.Sweep([q], now, limit)) <= g1.peers.Keys
            && var g2 := Apply(g1, Runs.Sweep([q], now, limit)).g;
               Back(g2, l, host, q) && q !in g2.peers && g2.disconnected == map[]
  {
    hide Broadcast;
    var g1 := Apply(g, Close(q, now)).g;
    assert g1.disconnected == map[q := now] && g1.disconnected.Keys == {q} && "" !in g1.lobbies;
    OneBy(q);
    assert SweepLooks(g1, [], now, limit) == {};
    assert SweepLooks(g1, [q], now, limit) == {};
    assert [q][..0] == [];
    assert SweepLoop(g1, [], now, limit) == SweepState(g1, [], {});
    assert SweepLoop(g1, [q], now, limit) == SweepOne(SweepState(g1, [], {}), q, now, limit);
  }

  /** The target has no entry any more, so one is inserted; whether the command carries anything does not matter. */
  lemma TellRevives(g: Game, l: Id, host: Id, q: Id, t: Talk)
    requires Names(t) && t.target == q && Back(g, l, host, q) && q !in g.peers && q !in g.disconnected
    ensures var s := Tell(host, t);
            && Enabled(g, s) && !(Looked(g, s) <= g.peers.Keys)
            && q in Active(Apply(g, s).g) && Apply(g, s).g.peers[q] == NewPeer("")
  {
    var s := Tell(host, t);
    assert Target(g, host, s.talk) == [q];
    assert q in Looked(g, s);
  }

  /** Every look-up of every step hits. */
  ghost predicate LooksHit(g: Game, steps: seq<Step>)
    requires Legal(g, steps)
  {
    steps == [] ||
    (var n := |steps| - 1;
     LooksHit(g, steps[..n]) && Looked(After(g, steps[..n]), steps[n]) <= After(g, steps[..n]).peers.Keys)
  }

  lemma NextHit(g: Game, steps: seq<Step>, s: Step)
    requires Legal(g, steps) && Enabled(After(g, steps), s) && LooksHit(g, steps)
    requires Looked(After(g, steps), s) <= After(g, steps).peers.Keys
    ensures Legal(g, steps + [s]) && LooksHit(g, steps + [s])
  {
    hide Enabled, Looked;
    NextStep(g, steps, s);
    assert (steps + [s])[..|steps|] == steps;
  }

  /**
   Nobody joins, and every look-up up to the last one hits: NOTIFY_TO, and DATA_TO just the same, look the target up in
   `peers` once it is found on the roster, before they read what they carry.
   */
  lemma TellingCanLeak(g: Game, l: Id, host: Id, q: Id, now: int, limit: int, t: Talk)
    requires Names(t) && t.target == q
    requires Inv(g) && l in g.lobbies && Orphans(g, l, host) && host in Active(g) && g.disconnected == map[]
    requires q in g.lobbies[l].peerIds && q != host
    ensures var steps := TellingSteps(host, q, l, g.lobbies[l].password, now, limit, t);
            && Legal(g, steps[..4]) && LooksHit(g, steps[..4]) && q !in After(g, steps[..4]).peers
            && Legal(g, steps) && q in Active(After(g, steps)) && After(g, steps).peers[q] == NewPeer("")
  {
    hide Apply, Enabled, Inv, Active, Legal, After, Looked, Back, Vacant;
    var s1, s2 := Leave(host), Join(host, l, g.lobbies[l].password, true);
    var s3, s4, s5 := Close(q, now), Runs.Sweep([q], now, limit), Tell(host, t);
    HostLeaves(g, l, host, q);
    NoStep(g);
    NextStep(g, [], s1);
    NextHit(g, [], s1);
    assert [] + [s1] == [s1];
    HostReturns(After(g, [s1]), l, host, q);
    NextStep(g, [s1], s2);
    NextHit(g, [s1], s2);
    var t2 := [s1] + [s2];
    GoneMember(After(g, t2), l, host, q, now, limit);
    NextStep(g, t2, s3);
    NextHit(g, t2, s3);
    NextStep(g, t2 + [s3], s4);
    NextHit(g, t2 + [s3], s4);
    var t4 := t2 + [s3] + [s4];
    TellRevives(After(g, t4), l, host, q, t);
    NextStep(g, t4, s5);
    assert TellingSteps(host, q, l, g.lobbies[l].password, now, limit, t) == t4 + [s5];
    assert (t4 + [s5])[..4] == t4;
  }

  lemma NoStep(g: Game)
    ensures Legal(g, []) && After(g, []) == g && LooksHit(g, [])
  {
  }

  // ----- from a new game -----

  /** Three peers connect to a default relay game; `a` creates lobby `l` and `b` joins it. */
  function PartySteps(a: Id, b: Id, c: Id, l: Id): seq<Step>
  {
    [Connect(a)] + [Connect(b)] + [Connect(c)] + [Create(a, Args(l), true)] + [Join(b, l, "", true)]
  }

  function Args(l: Id): CreateArgs
  {
    CreateArgs(l, "", "", 3, false, map[], 0)
  }

  const RELAY := Config(false, false)

  lemma ConnectNew(g: Game, p: Id)
    requires p != "" && p !in g.peers && p !in g.disconnected
    ensures Enabled(g, Connect(p)) && Apply(g, Connect(p)).g == g.(peers := g.peers[p := NewPeer(p)])
  {
  }

  lemma CreateFirst(g: Game, a: Id, l: Id)
    requires Inv(g) && a in Active(g) && g.peers[a] == NewPeer(a) && l != "" && l !in g.lobbies
    ensures Enabled(g, Create(a, Args(l), true))
    ensures var g1 := Apply(g, Create(a, Args(l), true)).g;
            && Inv(g1) && g1.config == g.config && g1.disconnected == g.disconnected
            && g1.lobbies == g.lobbies[l := NewLobby(Args(l), a)]
            && g1.peers == g.peers[a := NewPeer(a).(lobbyId := l)]
  {
    hide Weak, Strong, OnCreate;
    InvActs(g, a);
    CreateEffect(g, a, Args(l), true);
    StepKeepsInv(g, Create(a, Args(l), true));
    StepKeepsConfig(g, Create(a, Args(l), true));
    CreateOff(g, a, Args(l), true);
  }

  lemma CreateOff(g: Game, p: Id, args: CreateArgs, can: bool)
    requires p in g.peers
    ensures OnCreate(g, p, args, can).g.disconnected == g.disconnected
  {
    hide PeersArray, Touch;
  }

  lemma JoinSecond(g: Game, a: Id, b: Id, l: Id)
    requires Inv(g) && b in Active(g) && g.peers[b] == NewPeer(b) && a != b
    requires l in g.lobbies && g.lobbies[l] == NewLobby(Args(l), a)
    ensures Enabled(g, Join(b, l, "", true))
    ensures var g1 := Apply(g, Join(b, l, "", true)).g;
            && Inv(g1) && g1.config == g.config && g1.disconnected == g.disconnected
            && g1.lobbies == g.lobbies[l := WithMember(g.lobbies[l], b)]
            && g1.peers == g.peers[b := Entered(NewPeer(b), g.lobbies[l])]
  {
    hide Weak, Strong, Enter;
    InvActs(g, b);
    NoEmptyId(g);
    assert OnJoin(g, b, l, "", true) == Enter(g, b, l);
    EntryState(g, b, l);
    StepKeepsInv(g, Join(b, l, "", true));
    EnterKeeps(g, b, l);
  }

  lemma EnterKeeps(g: Game, p: Id, l: Id)
    requires p in g.peers && l in g.lobbies
    ensures Enter(g, p, l).g.config == g.config && Enter(g, p, l).g.disconnected == g.disconnected
  {
    hide SortByOrder, PeersArray, Broadcast, Insert, Touch;
  }

  lemma {:induction false} TwoMembers(a: Id, b: Id)
    requires a != b
    ensures |Insert([a], b)| == 2 && a in Insert([a], b) && b in Insert([a], b)
  {
    assert Insert([a][1..], b) == [b];
    InsertElements([a], b);
  }

  lemma Party(a: Id, b: Id, c: Id, l: Id)
    requires a != b && b != c && a != c && a != "" && b != "" && c != "" && l != ""
    ensures Legal(NewGame(RELAY), PartySteps(a, b, c, l))
    ensures var g := After(NewGame(RELAY), PartySteps(a, b, c, l));
            && Inv(g) && g.disconnected == map[] && g.peers.Keys == {a, b, c} && g.lobbies.Keys == {l}
            && Orphans(g, l, a) && b in g.lobbies[l].peerIds && g.lobbies[l].password == "" && g.peers[c] == NewPeer(c)
  {
    hide Enabled, Inv, Legal, After, Apply;
    var g0 := NewGame(RELAY);
    NewIsInv(RELAY);
    ConnectNew(g0, a);
    FirstStep(g0, Connect(a));
    var s1 := [Connect(a)];
    StepKeepsInv(g0, Connect(a));
    ConnectNew(After(g0, s1), b);
    NextStep(g0, s1, Connect(b));
    StepKeepsInv(After(g0, s1), Connect(b));
    var s2 := s1 + [Connect(b)];
    ConnectNew(After(g0, s2), c);
    NextStep(g0, s2, Connect(c));
    StepKeepsInv(After(g0, s2), Connect(c));
    var s3 := s2 + [Connect(c)];
    CreateFirst(After(g0, s3), a, l);
    NextStep(g0, s3, Create(a, Args(l), true));
    var s4 := s3 + [Create(a, Args(l), true)];
    JoinSecond(After(g0, s4), a, b, l);
    NextStep(g0, s4, Join(b, l, "", true));
    TwoMembers(a, b);
  }

  lemma NewIsInv(config: Config)
    ensures Inv(NewGame(config))
  {
  }

  // ----- what a made-up entry does to its lobby -----

  lemma MadeUpCreate(g: Game, q: Id, m: Id)
    requires q in Active(g) && q != "" && g.peers[q] == NewPeer("") && m != "" && m !in g.lobbies
    ensures Enabled(g, Create(q, Args(m), true)) && Intrudes(g, Create(q, Args(m), true))
    ensures var g1 := Apply(g, Create(q, Args(m), true)).g;
            && q in Active(g1) && g1.peers[q] == NewPeer("").(lobbyId := m)
            && m in g1.lobbies && g1.lobbies[m] == NewLobby(Args(m), "") && g1.config == g.config
  {
    hide PeersArray, SummaryOf;
  }

  lemma MadeUpLeave(g: Game, q: Id, m: Id)
    requires q in Active(g) && q != "" && g.peers[q] == NewPeer("").(lobbyId := m) && m != ""
    requires m in g.lobbies && g.lobbies[m] == NewLobby(Args(m), "")
    ensures Enabled(g, Leave(q))
    ensures var g1 := Apply(g, Leave(q)).g;
            q in Active(g1) && g1.peers[q].lobbyId == m && m !in g1.lobbies
  {
    hide RemovalNotes, FirstOther;
    assert OnLeave(g, q).g == RemovePeer(g, m, "", false).g;
    assert Without([""], "") == Without([""][1..], "") == [];
  }

  /**
   So the weak invariant is not kept by every run.  In a default relay game the host orphans `b`; `b` closes, is swept,
   is made up again by a join of `c`, and comes back before the socket side has cleared it.  Its entry has no id, so the
   lobby it creates lists somebody else, and its leave deletes that lobby without taking it out: the next look-up of
   `game.lobbies[peer.lobby_id]` misses.
   */
  lemma MadeUpEntryLosesLobby(a: Id, b: Id, c: Id, l: Id, m: Id)
    requires a != b && b != c && a != c && a != "" && b != "" && c != "" && l != "" && m != "" && l != m
    ensures var steps := PartySteps(a, b, c, l) + LeakingSteps(a, b, c, l, "", [b], 0, 0) +
                         [Connect(b)] + [Create(b, Args(m), true)] + [Leave(b)];
            && Legal(NewGame(RELAY), steps) && !NoIntrusion(NewGame(RELAY), steps)
            && b in Active(After(NewGame(RELAY), steps)) && !Acting(After(NewGame(RELAY), steps), b)
  {
    hide Enabled, Inv, Legal, After, Apply, Intrudes, PartySteps, LeakingSteps;
    var g0, party, leak := NewGame(RELAY), PartySteps(a, b, c, l), LeakingSteps(a, b, c, l, "", [b], 0, 0);
    Party(a, b, c, l);
    OneBy(b);
    OrphaningCanLeak(After(g0, party), l, a, b, c, [b], 0, 0);
    LegalConcat(g0, party, leak);
    var s := party + leak;
    ConnectAgain(After(g0, s), b);
    NextStep(g0, s, Connect(b));
    var s1 := s + [Connect(b)];
    MadeUpCreate(After(g0, s1), b, m);
    NextStep(g0, s1, Create(b, Args(m), true));
    var s2 := s1 + [Create(b, Args(m), true)];
    MadeUpLeave(After(g0, s2), b, m);
    NextStep(g0, s2, Leave(b));
    IntrusionStays(g0, s1, Create(b, Args(m), true), Leave(b));
  }

  lemma OneBy(b: Id)
    ensures Enumerates([b], {b})
  {
  }

  lemma ConnectAgain(g: Game, q: Id)
    requires q in Active(g) && q != ""
    ensures Enabled(g, Connect(q)) && Apply(g, Connect(q)).g == g.(disconnected := g.disconnected - {q})
    ensures q in Active(Apply(g, Connect(q)).g)
  {
  }

  lemma {:induction false} LegalConcat(g: Game, a: seq<Step>, b: seq<Step>)
    requires Legal(g, a) && Legal(After(g, a), b)
    ensures Legal(g, a + b) && After(g, a + b) == After(After(g, a), b)
  {
    hide Enabled, Apply;
    if b == [] {
      assert a + b == a;
    } else {
      var n := |b| - 1;
      LegalConcat(g, a, b[..n]);
      assert (a + b)[..|a + b| - 1] == a + b[..n];
    }
  }

  lemma IntrusionStays(g: Game, steps: seq<Step>, s: Step, t: Step)
    requires Legal(g, steps) && Enabled(After(g, steps), s) && Intrudes(After(g, steps), s)
    requires Legal(g, steps + [s]) && Legal(g, steps + [s] + [t])
    ensures !NoIntrusion(g, steps + [s] + [t])
  {
    hide Enabled, Intrudes;
    assert (steps + [s] + [t])[..|steps| + 1] == steps + [s] && (steps + [s])[..|steps|] == steps;
  }
}
