/** The steps of one game, its runs, and the invariants over every run. */
module Runs {
  import opened FlatSets
  import opened AnyTypes
  import opened SharedData
  import opened GameState
  import opened Handlers
  import opened Membership
  import opened Invariants
  import opened QuickJoins
  import opened Sweep
  import opened Talks

  /** One event or one periodic task.  Iteration orders and script verdicts are inputs. */
  datatype Step =
    | Connect(p: Id)
    | Close(p: Id, now: int)
    | Create(p: Id, args: CreateArgs, can: bool)
    | Join(p: Id, wanted: Id, password: string, can: bool)
    | QuickJoin(p: Id, wanted: Id, args: CreateArgs, order: seq<Id>, cans: seq<bool>, can: bool)
    | Leave(p: Id)
    | Kick(p: Id, target: Id, can: bool)
    | SetReady(p: Id, ready: bool, can: bool)
    | EditLobby(p: Id, edit: Edit, can: bool)
    | PutLobbyData(p: Id, patch: Dict)
    | PutDataTo(p: Id, target: Id, patch: Dict)
    | PutDataToAll(p: Id, patch: Dict)
    | Call(p: Id, lobbyWrites: seq<Write>, peerWrites: map<Id, seq<Write>>)
    | Tell(p: Id, talk: Talk)
    | List(p: Id, order: seq<Id>)
    | StopList(p: Id)
    | Flush(order: seq<Id>, readers: seq<Id>)
    | Sweep(order: seq<Id>, now: int, limit: int)

  /** Steps that stand for a MESSAGE of `p`. */
  predicate IsCommand(s: Step)
  {
    !s.Connect? && !s.Close? && !s.Flush? && !s.Sweep?
  }

  function VisibleSet(g: Game, p: Id): set<Id>
  {
    set l | l in g.lobbies && Visible(g, p, l)
  }

  ghost predicate ByTime(g: Game, order: seq<Id>)
    requires forall l :: l in order ==> l in g.lobbies
  {
    forall i, j :: 0 <= i < j < |order| ==> g.lobbies[order[i]].createTime <= g.lobbies[order[j]].createTime
  }

  /** What the inputs of a step are: fresh ids, true iteration orders, writes that reach members only. */
  ghost predicate Inputs(g: Game, s: Step)
  {
    if IsCommand(s) then
      && (s.Create? || s.QuickJoin? ==> s.args.id != "" && s.args.id !in g.lobbies)
      && (s.QuickJoin? ==> Enumerates(s.order, g.lobbies.Keys))
      && (s.Call? && Acting(g, s.p) && g.peers[s.p].lobbyId != "" ==>
            forall q :: q in s.peerWrites ==> q in g.lobbies[g.peers[s.p].lobbyId].peerIds)
      && (s.List? ==> Enumerates(s.order, VisibleSet(g, s.p)) && ByTime(g, s.order))
    else
      match s
      case Connect(p) => p != ""
      case Flush(order, readers) => Enumerates(order, g.updated) && Enumerates(readers, g.listing)
      case Sweep(order, _, _) => Enumerates(order, g.disconnected.Keys)
      case _ => true
  }

  /** The inputs are right, and the OPEN of who acts was taken: nothing more is known of its entry. */
  ghost predicate Enabled(g: Game, s: Step)
  {
    (IsCommand(s) ==> s.p != "" && s.p in Active(g)) && Inputs(g, s)
  }

  ghost function Apply(g: Game, s: Step): Outcome
    requires Enabled(g, s)
  {
    match s
    case Connect(p) => OnConnect(g, p)
    case Close(p, now) => OnClose(g, p, now)
    case Create(p, a, can) => OnCreate(g, p, a, can)
    case Join(p, wanted, pw, can) => var o := OnJoin(g, p, wanted, pw, can); Outcome(o.g, o.outs)
    case QuickJoin(p, wanted, a, order, cans, can) => OnQuickJoin(g, p, wanted, a, order, cans, can)
    case Leave(p) => OnLeave(g, p)
    case Kick(p, target, can) => OnKick(g, p, target, can)
    case SetReady(p, ready, can) => OnReady(g, p, ready, can)
    case EditLobby(p, e, can) => OnEdit(g, p, e, can)
    case PutLobbyData(p, patch) => OnLobbyData(g, p, patch)
    case PutDataTo(p, target, patch) => OnDataTo(g, p, target, patch)
    case PutDataToAll(p, patch) => OnDataToAll(g, p, patch)
    case Call(p, lw, pw) => OnCall(g, p, lw, pw)
    case Tell(p, t) => OnTalk(g, p, t)
    case List(p, order) => OnList(g, p, order)
    case StopList(p) => OnStopList(g, p)
    case Flush(order, readers) => OnFlush(g, order, readers)
    case Sweep(order, now, limit) => var o := OnSweep(g, order, now, limit); Outcome(o.g, o.outs)
  }

  /** The step orphans nobody.  Always so in a scripted game or with `disband_on_leave`. */
  ghost predicate Settled(g: Game, s: Step)
    requires Enabled(g, s)
  {
    match s
    case Leave(p) => g.peers[p].lobbyId in g.lobbies ==> !Orphans(g, g.peers[p].lobbyId, p)
    case Sweep(order, now, limit) => SweepSafe(g, order, now, limit)
    case _ => true
  }

  predicate Coherent(config: Config)
  {
    config.scripted || config.disbandOnLeave
  }

  lemma CoherentSettled(g: Game, s: Step)
    requires Enabled(g, s) && Coherent(g.config)
    ensures Settled(g, s)
  {
    if s.Sweep? { CoherentIsSafe(g, s.order, s.now, s.limit); }
  }

  // ----- one step -----

  /** Steps that may change who is in which lobby. */
  predicate Moves(s: Step)
  {
    s.Connect? || s.Close? || s.Create? || s.Join? || s.QuickJoin? || s.Leave? || s.Kick? || s.Sweep?
  }

  /** Who acts has its own entry, not one that `operator[]` made up. */
  predicate Own(g: Game, s: Step)
  {
    IsCommand(s) ==> Genuine(g, s.p)
  }

  lemma MoveKeepsWeak(g: Game, s: Step)
    requires Weak(g) && Enabled(g, s) && Moves(s) && Own(g, s)
    ensures Weak(Apply(g, s).g)
  {
    hide Weak, OnConnect, OnClose, OnCreate, OnJoin, OnQuickJoin, OnLeave, OnKick, OnSweep;
    if IsCommand(s) { WeakActs(g, s.p); }
    match s
    case Connect(p) => ConnectKeeps(g, p);
    case Close(p, now) => CloseKeeps(g, p, now);
    case Create(p, a, can) => CreateKeeps(g, p, a, can);
    case Join(p, wanted, pw, can) => JoinKeeps(g, p, wanted, pw, can);
    case QuickJoin(p, wanted, a, order, cans, can) => QuickJoinKeeps(g, p, wanted, a, order, cans, can);
    case Leave(p) => LeaveKeeps(g, p);
    case Kick(p, target, can) => KickKeeps(g, p, target, can);
    case Sweep(order, now, limit) => SweepKeeps(g, order, now, limit);
  }

  lemma StayKeepsWeak(g: Game, s: Step)
    requires Weak(g) && Enabled(g, s) && !Moves(s) && Own(g, s)
    ensures Weak(Apply(g, s).g)
  {
    hide Weak, OnReady, OnEdit, OnLobbyData, OnDataTo, OnDataToAll, OnCall, OnTalk, OnList, OnStopList, OnFlush;
    if IsCommand(s) { WeakActs(g, s.p); }
    match s
    case SetReady(p, ready, can) => ReadyKeeps(g, p, ready, can);
    case EditLobby(p, e, can) => EditKeeps(g, p, e, can);
    case PutLobbyData(p, patch) => LobbyDataKeeps(g, p, patch);
    case PutDataTo(p, target, patch) => DataToKeeps(g, p, target, patch);
    case PutDataToAll(p, patch) => DataToAllKeeps(g, p, patch);
    case Call(p, lw, pw) => CallKeepsWeak(g, p, lw, pw);
    case Tell(p, t) => TalkKeeps(g, p, t);
    case List(p, order) => ListKeeps(g, p, order);
    case StopList(p) => StopListKeeps(g, p);
    case Flush(order, readers) => FlushKeeps(g, order, readers);
  }

  // ----- who acts through a made-up entry -----

  /** The command puts its peer into a lobby, if it is in none. */
  predicate GetsLobby(g: Game, s: Step)
  {
    match s
    case Create(_, a, can) => a.maxPlayers >= 1 && can
    case Join(_, wanted, password, can) =>
      && wanted in g.lobbies && g.lobbies[wanted].password == password && can
      && (g.lobbies[wanted].maxPlayers == 0 || |g.lobbies[wanted].peerIds| < U64(g.lobbies[wanted].maxPlayers))
    case QuickJoin(_, _, a, order, cans, can) =>
      FirstWilling(Eligibles(g, order, a.tags), a.password, cans).Chosen? || (a.maxPlayers >= 1 && can)
    case _ => false
  }

  /** A made-up entry is about to get a lobby: under a roster entry that is not its key. */
  predicate Intrudes(g: Game, s: Step)
  {
    IsCommand(s) && !Genuine(g, s.p) && GetsLobby(g, s)
  }

  lemma MadeUp(g: Game, p: Id)
    requires Weak(g) && p in g.peers && p != "" && !Genuine(g, p)
    ensures g.peers[p].id == "" && g.peers[p].lobbyId == ""
  {
    assert PeerWeak(g, p);
  }

  lemma HousedMadeUp(g: Game, p: Id)
    requires p in g.peers && g.peers[p].id == "" && g.peers[p].lobbyId != ""
    ensures !Weak(g)
  {
    assert !PeerWeak(g, p);
  }

  lemma SetAside(g: Game, p: Id)
    requires Weak(g) && p in g.peers && g.peers[p].lobbyId == ""
    ensures Weak(g.(peers := g.peers[p := LeaveLobby(g.peers[p])]))
  {
    var g' := g.(peers := g.peers[p := LeaveLobby(g.peers[p])]);
    forall k | k in g'.peers ensures PeerWeak(g', k) { assert PeerWeak(g, k); }
    forall l | l in g'.lobbies ensures LobbyWeak(g', l) { assert LobbyWeak(g, l); }
  }

  lemma MadeUpCreates(g: Game, p: Id, a: CreateArgs, can: bool)
    requires Weak(g) && p in g.peers && g.peers[p].id == "" && g.peers[p].lobbyId == ""
    requires a.id != "" && a.id !in g.lobbies
    ensures Weak(OnCreate(g, p, a, can).g) <==> !(a.maxPlayers >= 1 && can)
  {
    hide Weak, PeersArray, SummaryOf;
    var g' := OnCreate(g, p, a, can).g;
    if a.maxPlayers >= 1 {
      if can {
        HousedMadeUp(g', p);
      } else {
        SetAside(g, p);
        assert g.lobbies - {a.id} == g.lobbies;
      }
    }
  }

  lemma MadeUpEnters(g: Game, p: Id, l: Id)
    requires p in g.peers && g.peers[p].id == "" && l in g.lobbies && l != ""
    ensures !Weak(Enter(g, p, l).g)
  {
    hide Weak, SortByOrder, Insert, Broadcast, PeersArray;
    HousedMadeUp(Enter(g, p, l).g, p);
  }

  lemma MadeUpJoins(g: Game, s: Step)
    requires Weak(g) && Enabled(g, s) && s.Join? && g.peers[s.p].id == "" && g.peers[s.p].lobbyId == ""
    ensures Weak(Apply(g, s).g) <==> !GetsLobby(g, s)
  {
    hide Weak, Enter, Rejoin;
    NoEmptyId(g);
    if s.wanted in g.lobbies { MadeUpEnters(g, s.p, s.wanted); }
  }

  lemma MadeUpQuickJoins(g: Game, s: Step)
    requires Weak(g) && Enabled(g, s) && s.QuickJoin? && g.peers[s.p].id == "" && g.peers[s.p].lobbyId == ""
    ensures Weak(Apply(g, s).g) <==> !GetsLobby(g, s)
  {
    hide Weak, OnQuickJoin, Enter, OnCreate, FirstWilling, Eligibles, UpTo, HostsOf, Eligible;
    NoEmptyId(g);
    QuickJoinAnywhere(g, s.p, s.wanted, s.args, s.order, s.cans, s.can);
    match FirstWilling(Eligibles(g, s.order, s.args.tags), s.args.password, s.cans)
    case Chosen(l) => MadeUpEnters(Visited(g, UpTo(s.order, l)), s.p, l);
    case Nobody => {
      TouchWeak(g, HostsOf(g, s.order));
      MadeUpCreates(Visited(g, s.order), s.p, s.args, s.can);
    }
  }

  /** Of the commands that give no lobby, only the list commands change anything for a peer in none. */
  lemma MadeUpOnly(g: Game, s: Step)
    requires Weak(g) && Enabled(g, s) && IsCommand(s) && g.peers[s.p].id == "" && g.peers[s.p].lobbyId == ""
    requires !s.Create? && !s.Join? && !s.QuickJoin?
    ensures Weak(Apply(g, s).g)
  {
    hide Weak, Apply;
    if s.List? || s.StopList? { ListsKeepWeak(g, s); } else { MadeUpIdle(g, s); }
  }

  lemma ListsKeepWeak(g: Game, s: Step)
    requires Weak(g) && Enabled(g, s) && (s.List? || s.StopList?)
    ensures Weak(Apply(g, s).g)
  {
    hide Weak, Apply;
    OnlyListing(g, s);
    FrameWeak(g, Apply(g, s).g);
  }

  lemma OnlyListing(g: Game, s: Step)
    requires Enabled(g, s) && (s.List? || s.StopList?)
    ensures var g' := Apply(g, s).g; g' == g.(listing := g'.listing)
  {
    hide Entries, Send, First100;
  }

  lemma MadeUpIdle(g: Game, s: Step)
    requires Enabled(g, s) && IsCommand(s) && g.peers[s.p].lobbyId == ""
    requires !s.Create? && !s.Join? && !s.QuickJoin? && !s.List? && !s.StopList?
    ensures Apply(g, s).g == g
  {
    hide RemovePeer, EditIn, Merge, MergePeers, SendPeerDiffs, NotifyChanges, Written, Entries, Send, OnTalk;
    if s.Tell? { TalkEffect(g, s.p, s.talk); }
  }

  /** In every mode a step keeps the weak invariant if and only if no made-up entry gets a lobby by it. */
  lemma StepKeepsWeakIff(g: Game, s: Step)
    requires Weak(g) && Enabled(g, s)
    ensures Weak(Apply(g, s).g) <==> !Intrudes(g, s)
  {
    hide Weak, Apply, GetsLobby;
    if Own(g, s) {
      if Moves(s) { MoveKeepsWeak(g, s); } else { StayKeepsWeak(g, s); }
    } else {
      MadeUp(g, s.p);
      CreatesIs(g, s);
      if s.Join? { MadeUpJoins(g, s); }
      else if s.QuickJoin? { MadeUpQuickJoins(g, s); }
      else if !s.Create? { MadeUpOnly(g, s); GetsNone(g, s); }
    }
  }

  lemma CreatesIs(g: Game, s: Step)
    requires Weak(g) && Enabled(g, s) && IsCommand(s) && g.peers[s.p].id == "" && g.peers[s.p].lobbyId == ""
    ensures s.Create? ==> (Weak(Apply(g, s).g) <==> !GetsLobby(g, s))
  {
    hide Weak, OnCreate;
    if s.Create? { MadeUpCreates(g, s.p, s.args, s.can); }
  }

  lemma GetsNone(g: Game, s: Step)
    requires !s.Create? && !s.Join? && !s.QuickJoin?
    ensures !GetsLobby(g, s)
  {
  }

  /** The active peers change only by connections. */
  function ActiveAfter(active: set<Id>, s: Step): set<Id>
  {
    match s
    case Connect(p) => active + {p}
    case Close(p, _) => active - {p}
    case _ => active
  }

  /** Where every entry is genuine, whoever acts is, and its lobby is found. */
  lemma InvActs(g: Game, p: Id)
    requires Inv(g) && p in g.peers
    ensures Genuine(g, p) && Acting(g, p)
    ensures g.peers[p].lobbyId != "" ==> p in g.lobbies[g.peers[p].lobbyId].peerIds
  {
    assert PeerStrong(g, p) && PeerWeak(g, p);
  }

  lemma MoveKeepsInv(g: Game, s: Step)
    requires Inv(g) && Enabled(g, s) && Settled(g, s) && Moves(s)
    ensures Inv(Apply(g, s).g) && Active(Apply(g, s).g) == ActiveAfter(Active(g), s)
  {
    hide Weak, Strong, OnConnect, OnClose, OnCreate, OnJoin, OnQuickJoin, OnLeave, OnKick, OnSweep;
    if IsCommand(s) { InvActs(g, s.p); }
    match s
    case Connect(p) => ConnectKeeps(g, p);
    case Close(p, now) => CloseKeeps(g, p, now);
    case Create(p, a, can) => CreateKeeps(g, p, a, can);
    case Join(p, wanted, pw, can) => JoinKeeps(g, p, wanted, pw, can);
    case QuickJoin(p, wanted, a, order, cans, can) => QuickJoinKeeps(g, p, wanted, a, order, cans, can);
    case Leave(p) => LeaveKeeps(g, p);
    case Kick(p, target, can) => KickKeeps(g, p, target, can);
    case Sweep(order, now, limit) => SweepKeeps(g, order, now, limit);
  }

  lemma StayKeepsInv(g: Game, s: Step)
    requires Inv(g) && Enabled(g, s) && !Moves(s)
    ensures Inv(Apply(g, s).g) && Active(Apply(g, s).g) == Active(g)
  {
    hide Weak, Strong, OnReady, OnEdit, OnLobbyData, OnDataTo, OnDataToAll, OnCall, OnTalk, OnList, OnStopList, OnFlush;
    if IsCommand(s) { InvActs(g, s.p); }
    match s
    case SetReady(p, ready, can) => ReadyKeeps(g, p, ready, can);
    case EditLobby(p, e, can) => EditKeeps(g, p, e, can);
    case PutLobbyData(p, patch) => LobbyDataKeeps(g, p, patch);
    case PutDataTo(p, target, patch) => DataToKeeps(g, p, target, patch);
    case PutDataToAll(p, patch) => DataToAllKeeps(g, p, patch);
    case Call(p, lw, pw) => CallKeeps(g, p, lw, pw);
    case Tell(p, t) => TalkKeeps(g, p, t);
    case List(p, order) => ListKeeps(g, p, order);
    case StopList(p) => StopListKeeps(g, p);
    case Flush(order, readers) => FlushKeeps(g, order, readers);
  }

  lemma StepKeepsInv(g: Game, s: Step)
    requires Inv(g) && Enabled(g, s) && Settled(g, s)
    ensures Inv(Apply(g, s).g) && Active(Apply(g, s).g) == ActiveAfter(Active(g), s)
  {
    hide Weak, Strong, Apply, Settled;
    if Moves(s) { MoveKeepsInv(g, s); } else { StayKeepsInv(g, s); }
  }

  lemma StepKeepsConfig(g: Game, s: Step)
    requires Enabled(g, s)
    ensures Apply(g, s).g.config == g.config
  {
    hide Broadcast, Entries, Send, DiffNotes, RemovalNotes, PeersArray, OnTalk;
    if s.QuickJoin? {
      QuickJoinConfig(g, s.p, s.wanted, s.args, s.order, s.cans, s.can);
    } else if s.Sweep? {
      LoopConfig(g, s.order, s.now, s.limit);
    } else if s.Tell? {
      TalkEffect(g, s.p, s.talk);
    }
  }

  lemma QuickJoinConfig(g: Game, p: Id, wanted: Id, a: CreateArgs, order: seq<Id>, cans: seq<bool>, can: bool)
    requires p in g.peers
    ensures OnQuickJoin(g, p, wanted, a, order, cans, can).g.config == g.config
  {
    TryJoinsConfig(g, p, a, order, if g.peers[p].lobbyId != "" then Later(cans) else cans);
  }

  lemma {:induction false} TryJoinsConfig(g: Game, p: Id, a: CreateArgs, order: seq<Id>, cans: seq<bool>)
    requires p in g.peers
    ensures TryJoins(g, p, a, order, cans).g.config == g.config
    decreases order
  {
    if order != [] {
      var l := order[0];
      if l !in g.lobbies { TryJoinsConfig(g, p, a, order[1..], cans); }
      else if !Eligible(g, l, a.tags) { TryJoinsConfig(Considered(g, l), p, a, order[1..], cans); }
      else { TryJoinsConfig(Considered(g, l), p, a, order[1..], Later(cans)); }
    }
  }

  lemma {:induction false} LoopConfig(g: Game, order: seq<Id>, now: int, limit: int)
    requires forall p :: p in order ==> p in g.disconnected
    ensures SweepLoop(g, order, now, limit).g.config == g.config
  {
    if order != [] { LoopConfig(g, order[..|order| - 1], now, limit); }
  }

  // ----- runs -----

  /** The steps can be taken one after the other from `g`. */
  ghost predicate Legal(g: Game, steps: seq<Step>)
    decreases |steps|, 0
  {
    steps == [] ||
    (var n := |steps| - 1;
     Legal(g, steps[..n]) && Enabled(After(g, steps[..n]), steps[n]))
  }

  ghost function After(g: Game, steps: seq<Step>): Game
    requires Legal(g, steps)
    decreases |steps|, 1
  {
    if steps == [] then g
    else
      var n := |steps| - 1;
      Apply(After(g, steps[..n]), steps[n]).g
  }

  /** No step of the run orphans anybody. */
  ghost predicate AllSettled(g: Game, steps: seq<Step>)
    requires Legal(g, steps)
  {
    steps == [] ||
    (var n := |steps| - 1;
     AllSettled(g, steps[..n]) && Settled(After(g, steps[..n]), steps[n]))
  }

  /** No step of the run lets a made-up entry get a lobby. */
  ghost predicate NoIntrusion(g: Game, steps: seq<Step>)
    requires Legal(g, steps)
  {
    steps == [] ||
    (var n := |steps| - 1;
     NoIntrusion(g, steps[..n]) && !Intrudes(After(g, steps[..n]), steps[n]))
  }

  /** The weak invariant holds at every point of the run. */
  ghost predicate AlwaysWeak(g: Game, steps: seq<Step>)
    requires Legal(g, steps)
  {
    Weak(After(g, steps)) && (steps != [] ==> AlwaysWeak(g, steps[..|steps| - 1]))
  }

  /**
   In every mode a run has every set `lobby_id` name a live lobby that lists the peer, all along, if and only if no
   made-up entry gets a lobby in it.
   */
  lemma {:induction false} AlwaysWeakIff(config: Config, steps: seq<Step>)
    requires Legal(NewGame(config), steps)
    ensures AlwaysWeak(NewGame(config), steps) <==> NoIntrusion(NewGame(config), steps)
  {
    hide Apply, Intrudes, Enabled, LobbyWeak, PeerWeak;
    if steps != [] {
      var n := |steps| - 1;
      AlwaysWeakIff(config, steps[..n]);
      WeakNow(NewGame(config), steps[..n]);
      if Weak(After(NewGame(config), steps[..n])) { StepKeepsWeakIff(After(NewGame(config), steps[..n]), steps[n]); }
    }
  }

  lemma WeakNow(g: Game, steps: seq<Step>)
    requires Legal(g, steps)
    ensures AlwaysWeak(g, steps) ==> Weak(After(g, steps))
  {
  }

  lemma EveryRunIsWeak(config: Config, steps: seq<Step>)
    requires Legal(NewGame(config), steps) && NoIntrusion(NewGame(config), steps)
    ensures Weak(After(NewGame(config), steps))
  {
    hide Weak;
    AlwaysWeakIff(config, steps);
  }

  /** Every run that orphans nobody keeps two-way membership, hosts, join order, capacity and clean diffs. */
  lemma {:induction false} SettledRunKeepsInv(config: Config, steps: seq<Step>)
    requires Legal(NewGame(config), steps) && AllSettled(NewGame(config), steps)
    ensures Inv(After(NewGame(config), steps)) && Agreement(After(NewGame(config), steps))
  {
    if steps != [] {
      var n := |steps| - 1;
      SettledRunKeepsInv(config, steps[..n]);
      StepKeepsInv(After(NewGame(config), steps[..n]), steps[n]);
    }
    InvGivesAgreement(After(NewGame(config), steps));
  }

  /** And no entry is made up in it. */
  lemma {:induction false} SettledRunIntrudesNowhere(config: Config, steps: seq<Step>)
    requires Legal(NewGame(config), steps) && AllSettled(NewGame(config), steps)
    ensures NoIntrusion(NewGame(config), steps)
  {
    hide Weak, Strong, Enabled, Apply, Settled, GetsLobby, Agreement;
    if steps != [] {
      var n := |steps| - 1;
      SettledRunIntrudesNowhere(config, steps[..n]);
      SettledRunKeepsInv(config, steps[..n]);
      ActsGenuinely(After(NewGame(config), steps[..n]), steps[n]);
    }
  }

  lemma ActsGenuinely(g: Game, s: Step)
    requires Inv(g) && Enabled(g, s)
    ensures !Intrudes(g, s)
  {
    hide Weak, Strong, Inputs, GetsLobby;
    if IsCommand(s) { InvActs(g, s.p); }
  }

  /** In a coherent game every run orphans nobody. */
  lemma {:induction false} CoherentRunSettled(config: Config, steps: seq<Step>)
    requires Coherent(config) && Legal(NewGame(config), steps)
    ensures AllSettled(NewGame(config), steps) && After(NewGame(config), steps).config == config
  {
    if steps != [] {
      var n := |steps| - 1;
      CoherentRunSettled(config, steps[..n]);
      var g := After(NewGame(config), steps[..n]);
      CoherentSettled(g, steps[n]);
      StepKeepsConfig(g, steps[n]);
    }
  }

  /** A peer that is still in a lobby takes no second slot anywhere, whatever its join leads to. */
  lemma RejoinTakesNoSlot(g: Game, p: Id, wanted: Id, password: string, can: bool)
    requires p in g.peers && g.peers[p].lobbyId != ""
    ensures OnJoin(g, p, wanted, password, can).g.lobbies == g.lobbies
  {
  }

  /** The plain capacity bound wherever the limit is not negative. */
  lemma CapacityBound(config: Config, steps: seq<Step>, l: Id)
    requires Legal(NewGame(config), steps) && NoIntrusion(NewGame(config), steps)
    requires l in After(NewGame(config), steps).lobbies
    ensures var b := After(NewGame(config), steps).lobbies[l];
            && 1 <= |b.peerIds| <= U64(b.maxPlayers)
            && (b.maxPlayers >= 0 ==> |b.peerIds| <= b.maxPlayers)
  {
    EveryRunIsWeak(config, steps);
    assert LobbyWeak(After(NewGame(config), steps), l);
  }
}
