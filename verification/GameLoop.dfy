/** The switch that hands every event and every periodic task to its handler, and whole runs of it. */
module GameLoop {
  import opened FlatSets
  import opened AnyTypes
  import opened SharedData
  import opened GameState
  import opened Walks
  import opened GameThreads
  import Handlers
  import opened Talks
  import opened Runs
  import opened Rosters

  /** A step with the orders the code goes by: the pairs of a command's object, the writes of a script. */
  datatype Work = Work(s: Step, keys: seq<string>, script: seq<ScriptWrite>)

  ghost predicate Lists(keys: seq<string>, patch: Dict)
  {
    forall k :: k in keys <==> k in patch
  }

  ghost predicate Fits(g: Game, w: Work)
    requires Enabled(g, w.s)
  {
    match w.s
    case EditLobby(_, e, _) => e.Retag? ==> Lists(w.keys, e.tags)
    case PutLobbyData(_, patch) => Lists(w.keys, patch)
    case PutDataTo(_, _, patch) => Lists(w.keys, patch)
    case PutDataToAll(_, patch) => Lists(w.keys, patch)
    case Call(p, lobbyWrites, peerWrites) =>
      && Reaches(w.script, Members(g, p))
      && lobbyWrites == LobbyWrites(w.script) && peerWrites == PeerWrites(w.script, Members(g, p))
    case _ => true
  }

  method Edit(t: GameThread, p: Id, e: GameState.Edit, can: bool, keys: seq<string>)
    requires p in t.peers && (e.Retag? ==> Lists(keys, e.tags))
    modifies t
    ensures t.Did(Handlers.OnEdit(old(t.State()), p, e, can), old(t.sent))
  {
    hide Handlers.OnEdit;
    match e
    case Resize(max) => t.OnLobbyMaxPlayers(p, max, can);
    case Retitle(name) => t.OnLobbyTitle(p, name, can);
    case Protect(password) => t.OnLobbyPassword(p, password, can);
    case Retag(tags) => t.OnLobbyTags(p, true, tags, keys, can);
    case Seal(sealed) => t.OnSealLobby(p, sealed, can);
  }

  /** The commands about the data of a lobby and its members. */
  method Share(t: GameThread, w: Work)
    requires w.s.PutLobbyData? || w.s.PutDataTo? || w.s.PutDataToAll? || w.s.Call?
    requires FlatRosters(t.State()) && Enabled(t.State(), w.s) && Fits(t.State(), w)
    modifies t
    ensures t.Did(Apply(old(t.State()), w.s), old(t.sent))
  {
    hide FlatRosters, Handlers.OnLobbyData, Handlers.OnDataTo, Handlers.OnDataToAll, Handlers.OnCall;
    hide LobbyWrites, PeerWrites;
    match w.s
    case PutLobbyData(p, patch) => t.OnLobbyData(p, true, patch, w.keys);
    case PutDataTo(p, target, patch) => t.OnDataTo(p, target, true, patch, w.keys);
    case PutDataToAll(p, patch) => t.OnDataToAll(p, true, patch, w.keys);
    case Call(p, _, _) => t.OnLobbyCall(p, w.script);
  }

  /** What members tell each other, and commands that carry nothing readable. */
  method Speak(t: GameThread, p: Id, talk: Talk)
    requires p in t.peers
    modifies t
    ensures t.Did(OnTalk(old(t.State()), p, talk), old(t.sent))
  {
    hide OnTalk;
    match talk
    case Chat(valid, meta, can) => t.OnChatLobby(p, valid, meta, can);
    case PutUserData(good) => t.OnUserData(p, good);
    case Notify(good) => t.OnLobbyNotify(p, good);
    case NotifyTo(target, good) => t.OnNotifyTo(p, target, good);
    case SpoiltTags => t.OnLobbyTags(p, false, map[], [], true);
    case SpoiltData => t.OnLobbyData(p, false, map[], []);
    case SpoiltDataTo(target) => t.OnDataTo(p, target, false, map[], []);
  }

  /** One event or task: what the handlers do to the object is what `Apply` says of its state. */
  method HandleEvent(t: GameThread, w: Work)
    requires FlatRosters(t.State()) && Enabled(t.State(), w.s) && Fits(t.State(), w)
    modifies t
    ensures t.Did(Apply(old(t.State()), w.s), old(t.sent))
    ensures FlatRosters(t.State())
  {
    hide FlatRosters, Fits, Handlers.OnConnect, Handlers.OnClose, Handlers.OnCreate, Handlers.OnJoin;
    hide Handlers.OnQuickJoin, Handlers.OnLeave, Handlers.OnKick, Handlers.OnReady, Handlers.OnEdit;
    hide Handlers.OnList, Handlers.OnStopList, Handlers.OnFlush, Handlers.OnSweep, Handlers.OnLobbyData;
    hide Handlers.OnDataTo, Handlers.OnDataToAll, Handlers.OnCall, OnTalk;
    StepKeepsFlat(t.State(), w.s);
    match w.s
    case Connect(p) => t.OnConnect(p);
    case Close(p, now) => t.OnClose(p, now);
    case Create(p, a, can) => t.OnCreateLobby(p, a, can);
    case Join(p, wanted, password, can) => { var _ := t.OnJoinLobby(p, wanted, password, can); }
    case QuickJoin(p, wanted, a, order, cans, can) => t.OnQuickJoin(p, wanted, a, order, cans, can);
    case Leave(p) => t.OnLeaveLobby(p);
    case Kick(p, target, can) => t.OnKickPeer(p, target, can);
    case SetReady(p, ready, can) => t.OnLobbyReady(p, ready, can);
    case EditLobby(p, e, can) => { FitsEdit(t.State(), w); Edit(t, p, e, can, w.keys); }
    case Tell(p, talk) => Speak(t, p, talk);
    case List(p, order) => t.OnListLobby(p, order);
    case StopList(p) => t.OnStopListLobby(p);
    case Flush(order, readers) => t.HandleLobbyList(order, readers);
    case Sweep(order, now, limit) => { var _ := t.HandleDisconnects(order, now, limit); }
    case _ => Share(t, w);
  }

  lemma FitsEdit(g: Game, w: Work)
    requires Enabled(g, w.s) && w.s.EditLobby? && Fits(g, w)
    ensures w.s.edit.Retag? ==> Lists(w.keys, w.s.edit.tags)
  {
  }

  function Steps(ws: seq<Work>): seq<Step>
  {
    seq(|ws|, i requires 0 <= i < |ws| => ws[i].s)
  }

  ghost predicate AllFit(g: Game, ws: seq<Work>)
    requires Legal(g, Steps(ws))
  {
    ws == [] ||
    (var n := |ws| - 1;
     assert Steps(ws)[..n] == Steps(ws[..n]);
     AllFit(g, ws[..n]) && Fits(After(g, Steps(ws[..n])), ws[n]))
  }

  lemma {:induction false} FitPrefix(g: Game, ws: seq<Work>, k: nat)
    requires k < |ws| && Legal(g, Steps(ws)) && AllFit(g, ws)
    ensures Legal(g, Steps(ws[..k])) && Enabled(After(g, Steps(ws[..k])), ws[k].s)
    ensures Fits(After(g, Steps(ws[..k])), ws[k])
    ensures Legal(g, Steps(ws[..k + 1])) && After(g, Steps(ws[..k + 1])) == Apply(After(g, Steps(ws[..k])), ws[k].s).g
  {
    hide Enabled, Fits, Apply;
    var n := |ws| - 1;
    assert Steps(ws)[..n] == Steps(ws[..n]);
    if k < n {
      assert ws[..n][..k] == ws[..k] && ws[..n][..k + 1] == ws[..k + 1];
      FitPrefix(g, ws[..n], k);
    } else {
      assert ws[..k + 1] == ws;
    }
  }

  /** Everything the steps of the run accept, in order. */
  ghost function OutsOf(g: Game, steps: seq<Step>): seq<Out>
    requires Legal(g, steps)
  {
    if steps == [] then []
    else
      var n := |steps| - 1;
      OutsOf(g, steps[..n]) + Apply(After(g, steps[..n]), steps[n]).outs
  }

  lemma OutsPrefix(g: Game, ws: seq<Work>, k: nat)
    requires k < |ws| && Legal(g, Steps(ws[..k])) && Enabled(After(g, Steps(ws[..k])), ws[k].s)
    requires Legal(g, Steps(ws[..k + 1]))
    ensures OutsOf(g, Steps(ws[..k + 1])) ==
            OutsOf(g, Steps(ws[..k])) + Apply(After(g, Steps(ws[..k])), ws[k].s).outs
  {
    hide Enabled, Apply;
    assert Steps(ws[..k + 1])[..k] == Steps(ws[..k]);
  }

  /** A whole run of the object, in any mode, is the run of its state, and sends what the steps of the run say. */
  method Serve(t: GameThread, ws: seq<Work>)
    requires FlatRosters(t.State()) && Legal(t.State(), Steps(ws)) && AllFit(t.State(), ws)
    modifies t
    ensures t.State() == After(old(t.State()), Steps(ws)) && FlatRosters(t.State())
    ensures t.sent == old(t.sent) + OutsOf(old(t.State()), Steps(ws))
  {
    hide FlatRosters, Enabled, Fits, Apply, AllFit;
    ghost var g := t.State();
    assert Steps(ws[..0]) == [];
    for k := 0 to |ws|
      invariant FlatRosters(t.State())
      invariant Legal(g, Steps(ws[..k])) && t.State() == After(g, Steps(ws[..k]))
      invariant t.sent == old(t.sent) + OutsOf(g, Steps(ws[..k]))
    {
      FitPrefix(g, ws, k);
      OutsPrefix(g, ws, k);
      HandleEvent(t, ws[k]);
    }
    assert ws[..|ws|] == ws;
  }
}
