/** Over every run: a connected client that folds its messages holds the server's lobby exactly. */
module ReplicaRuns {
  import opened FlatSets
  import opened AnyTypes
  import opened SharedData
  import opened GameState
  import opened Handlers
  import opened Membership
  import opened Invariants
  import opened Sweep
  import opened Talks
  import opened Runs
  import opened Replica
  import opened ReplicaSteps
  import opened ReplicaRemoval
  import opened ReplicaData

  /** Script calls drop no key that clients see; commands of a relay never do. */
  ghost predicate KeepsKeys(g: Game, s: Step)
    requires Enabled(g, s)
  {
    s.Call? && g.peers[s.p].lobbyId in g.lobbies ==> CallDropsNoKey(g, g.peers[s.p].lobbyId, s.lobbyWrites, s.peerWrites)
  }

  /** An OPEN comes for a peer that is not believed connected. */
  predicate FreshOpen(g: Game, s: Step)
  {
    s.Connect? ==> s.p !in Active(g)
  }

  /** The view of client `c` after the step. */
  ghost function ViewAfter(g: Game, s: Step, c: Id, v: View): View
    requires Enabled(g, s)
  {
    Deliver(v, Apply(g, s).outs, c)
  }

  lemma ListingInStep(g: Game, g': Game, p: Id, note: Note, c: Id, v: View)
    requires InStep(g, c, v) && g' == g.(listing := g'.listing, updated := g'.updated)
    requires note.LobbyList? || note.StopListing?
    ensures InStep(g', c, Deliver(v, Send(g.disconnected, p, note), c))
  {
    DeliverSend(v, g.disconnected, p, note, c);
    if c in Active(g) && g.peers[c].lobbyId != "" { assert SameSight(g, g', g.peers[c].lobbyId); }
    Unaffected(g, g', c, v);
  }

  lemma FlushInStep(g: Game, order: seq<Id>, readers: seq<Id>, c: Id, v: View)
    requires InStep(g, c, v) && NoDup(readers)
    ensures var o := OnFlush(g, order, readers); InStep(o.g, c, Deliver(v, o.outs, c))
  {
    hide Weak, Strong, Deliver, Broadcast, Items;
    var o := OnFlush(g, order, readers);
    DeliverNothing(v, c);
    DeliverBroadcast(v, g.disconnected, readers, {}, LobbyList(Items(g, order)), c);
    if c in Active(g) && g.peers[c].lobbyId != "" { assert SameSight(g, o.g, g.peers[c].lobbyId); }
    Unaffected(g, o.g, c, v);
  }

  lemma {:induction false} IdleDelivery(v: View, outs: seq<Out>, c: Id)
    requires AllIdle(outs)
    ensures Deliver(v, outs, c) == v
  {
    if outs != [] {
      var n := |outs| - 1;
      assert AllIdle(outs[..n]) && Idle(outs[n].note);
      IdleDelivery(v, outs[..n], c);
    }
  }

  lemma TalkInStep(g: Game, p: Id, t: Talk, c: Id, v: View)
    requires Inv(g) && Acting(g, p) && InStep(g, c, v)
    ensures var o := OnTalk(g, p, t); InStep(o.g, c, Deliver(v, o.outs, c))
  {
    hide Weak, Strong, InStep, Deliver, OnTalk;
    TalkKeeps(g, p, t);
    TalkIdle(g, p, t);
    IdleDelivery(v, OnTalk(g, p, t).outs, c);
  }

  lemma MoveInStep(g: Game, s: Step, c: Id, v: View)
    requires Inv(g) && Enabled(g, s) && Settled(g, s) && FreshOpen(g, s) && Moves(s) && InStep(g, c, v)
    ensures InStep(Apply(g, s).g, c, ViewAfter(g, s, c, v))
  {
    hide Weak, Strong, InStep, Deliver, OnConnect, OnClose, OnCreate, OnJoin, OnQuickJoin, OnLeave, OnKick, OnSweep;
    if IsCommand(s) { InvActs(g, s.p); }
    match s
    case Connect(p) => ConnectInStep(g, p, c, v);
    case Close(p, now) => CloseInStep(g, p, now, c, v);
    case Create(p, a, can) => CreateInStep(g, p, a, can, c, v);
    case Join(p, wanted, pw, can) => JoinInStep(g, p, wanted, pw, can, c, v);
    case QuickJoin(p, wanted, a, order, cans, can) => QuickJoinInStep(g, p, wanted, a, order, cans, can, c, v);
    case Leave(p) => LeaveInStep(g, p, c, v);
    case Kick(p, target, can) => KickInStep(g, p, target, can, c, v);
    case Sweep(order, now, limit) => SweepInStep(g, order, now, limit, c, v);
  }

  lemma StayInStep(g: Game, s: Step, c: Id, v: View)
    requires Inv(g) && Enabled(g, s) && KeepsKeys(g, s) && !Moves(s) && InStep(g, c, v)
    ensures InStep(Apply(g, s).g, c, ViewAfter(g, s, c, v))
  {
    hide Weak, Strong, InStep, Deliver, OnReady, OnEdit, OnLobbyData, OnDataTo, OnDataToAll, OnCall, OnTalk, OnFlush,
         Entries;
    if IsCommand(s) { InvActs(g, s.p); }
    match s
    case SetReady(p, ready, can) => ReadyInStep(g, p, ready, can, c, v);
    case EditLobby(p, e, can) => EditInStep(g, p, e, can, c, v);
    case PutLobbyData(p, patch) => LobbyDataInStep(g, p, patch, c, v);
    case PutDataTo(p, target, patch) => DataToInStep(g, p, target, patch, c, v);
    case PutDataToAll(p, patch) => DataToAllInStep(g, p, patch, c, v);
    case Call(p, lw, pw) => CallInStep(g, p, lw, pw, c, v);
    case Tell(p, t) => TalkInStep(g, p, t, c, v);
    case List(p, order) =>
      ListingInStep(g, g, p, LobbyList([]), c, v);
      ListingInStep(g, OnList(g, p, order).g, p, LobbyList(Entries(g, First100(order))), c, v);
    case StopList(p) =>
      ListingInStep(g, g, p, LobbyList([]), c, v);
      ListingInStep(g, OnStopList(g, p).g, p, StopListing, c, v);
    case Flush(order, readers) => FlushInStep(g, order, readers, c, v);
  }

  lemma StepInStep(g: Game, s: Step, c: Id, v: View)
    requires Inv(g) && Enabled(g, s) && Settled(g, s) && KeepsKeys(g, s) && FreshOpen(g, s) && InStep(g, c, v)
    ensures InStep(Apply(g, s).g, c, ViewAfter(g, s, c, v))
  {
    hide Weak, Strong, InStep, Apply, Settled, KeepsKeys;
    if Moves(s) { MoveInStep(g, s, c, v); } else { StayInStep(g, s, c, v); }
  }

  // ----- runs -----

  /** Every step meets the two conditions. */
  ghost predicate Tidy(g: Game, steps: seq<Step>)
    requires Legal(g, steps)
  {
    steps == [] ||
    (var n := |steps| - 1;
     Tidy(g, steps[..n]) && KeepsKeys(After(g, steps[..n]), steps[n]) && FreshOpen(After(g, steps[..n]), steps[n]))
  }

  /** Everything accepted up to the last OPEN of `c`. */
  ghost function OutsBefore(g: Game, steps: seq<Step>, c: Id): seq<Out>
    requires Legal(g, steps)
  {
    if steps == [] then []
    else
      var n := |steps| - 1;
      if steps[n] == Connect(c) then OutsBefore(g, steps[..n], c) + OutsSince(g, steps[..n], c)
      else OutsBefore(g, steps[..n], c)
  }

  /** Everything accepted since, beginning with the answer to that OPEN. */
  ghost function OutsSince(g: Game, steps: seq<Step>, c: Id): seq<Out>
    requires Legal(g, steps)
  {
    if steps == [] then []
    else
      var n := |steps| - 1;
      var outs := Apply(After(g, steps[..n]), steps[n]).outs;
      if steps[n] == Connect(c) then outs else OutsSince(g, steps[..n], c) + outs
  }

  /** Of a client that is not connected nothing is asked, so whatever reaches it there does not matter. */
  lemma AnyView(g: Game, c: Id, v: View, w: View)
    requires c !in Active(g) && InStep(g, c, v)
    ensures InStep(g, c, w)
  {
  }

  lemma {:induction false} EveryRunInStep(config: Config, steps: seq<Step>, c: Id, v: View)
    requires Legal(NewGame(config), steps)
    requires AllSettled(NewGame(config), steps) && Tidy(NewGame(config), steps)
    ensures InStep(After(NewGame(config), steps), c, Deliver(v, OutsSince(NewGame(config), steps, c), c))
  {
    hide Weak, Strong, InStep, Deliver, Enabled, Apply, Settled, KeepsKeys, Active;
    if steps == [] {
      NobodyInStep(config, c, Deliver(v, [], c));
    } else {
      var n, g0 := |steps| - 1, NewGame(config);
      var g, s, since := After(g0, steps[..n]), steps[n], OutsSince(g0, steps[..n], c);
      EveryRunInStep(config, steps[..n], c, v);
      SettledRunKeepsInv(config, steps[..n]);
      if s == Connect(c) {
        AnyView(g, c, Deliver(v, since, c), v);
        StepInStep(g, s, c, v);
      } else {
        StepInStep(g, s, c, Deliver(v, since, c));
        DeliverConcat(v, since, Apply(g, s).outs, c);
      }
    }
  }

  lemma NobodyInStep(config: Config, c: Id, v: View)
    ensures InStep(NewGame(config), c, v)
  {
  }

  /**
   Member set, host, ready and disconnected flags, lobby data and every member's data: at the end of any such run a
   connected client holds them all exactly, once it has folded what was accepted since its last OPEN.  What it held
   before and what else reached it first, `v`, does not matter.  A client that came back and has not yet rejoined holds
   nothing, and can tell.
   */
  lemma ReplicaIsExact(config: Config, steps: seq<Step>, c: Id, v: View)
    requires Legal(NewGame(config), steps)
    requires AllSettled(NewGame(config), steps) && Tidy(NewGame(config), steps)
    requires c in Active(After(NewGame(config), steps))
    ensures var g := After(NewGame(config), steps);
            var w := Deliver(v, OutsSince(NewGame(config), steps, c), c);
            Acting(g, c) && if w.Unsynced? then Waiting(g, c) else w == Snapshot(g, c)
  {
    EveryRunInStep(config, steps, c, v);
  }
}
