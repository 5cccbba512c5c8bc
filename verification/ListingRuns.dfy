/** Over every run, in every configuration: the incremental list equals the full list. */
module ListingRuns {
  import opened FlatSets
  import opened AnyTypes
  import opened SharedData
  import opened GameState
  import opened Handlers
  import opened Membership
  import opened Invariants
  import opened Sweep
  import opened Talks
  import opened Runs
  import opened Listing

  /** Subscribers are connected; the empty id is what a made-up entry subscribes. */
  ghost predicate Subscribed(g: Game)
  {
    forall q :: q in g.listing && q != "" ==> q in Active(g)
  }

  /** The invariant with what it rests on. */
  ghost predicate ListInv(g: Game, c: Id, v: ListView)
  {
    Weak(g) && Subscribed(g) && c != "" && ListInStep(g, c, v)
  }

  // ----- the list messages -----

  lemma {:induction false} UpsertEntries(known: map<Id, Summary>, g: Game, ids: seq<Id>, l: Id)
    requires Weak(g) && forall i :: i in ids ==> i in g.lobbies
    ensures var k := Upserts(known, Entries(g, ids));
            if l in ids then l in k && k[l] == SummaryOf(g.lobbies[l])
            else (l in k <==> l in known) && (l in k ==> k[l] == known[l])
  {
    hide Weak, SummaryOf;
    if ids != [] {
      var n := |ids| - 1;
      UpsertEntries(known, g, ids[..n], l);
      EntryNamed(g, ids[n]);
      assert ids == ids[..n] + [ids[n]];
      var e := Entries(g, ids);
      assert e[..|e| - 1] == Entries(g, ids[..n]);
    }
  }

  lemma EntryNamed(g: Game, l: Id)
    requires Weak(g) && l in g.lobbies
    ensures SummaryOf(g.lobbies[l]).id == l
  {
    LobbyNamed(g, l);
  }

  lemma {:induction false} UpsertItems(known: map<Id, Summary>, g: Game, ids: seq<Id>, l: Id)
    requires Weak(g)
    ensures var k := Upserts(known, Items(g, ids));
            if l !in ids then (l in k <==> l in known) && (l in k ==> k[l] == known[l])
            else if l in g.lobbies && !g.lobbies[l].sealed then l in k && k[l] == SummaryOf(g.lobbies[l])
            else l !in k
  {
    hide Weak, SummaryOf;
    if ids != [] {
      var n := |ids| - 1;
      UpsertItems(known, g, ids[..n], l);
      if ids[n] in g.lobbies { EntryNamed(g, ids[n]); }
      assert ids == ids[..n] + [ids[n]];
      var e := Items(g, ids);
      assert e[..|e| - 1] == Items(g, ids[..n]);
    }
  }

  lemma LastFresh(ids: seq<Id>)
    requires NoDup(ids) && ids != []
    ensures NoDup(ids[..|ids| - 1]) && ids[|ids| - 1] !in ids[..|ids| - 1]
  {
  }

  lemma {:induction false} DeliverListBroadcast(
    v: ListView, off: map<Id, int>, ids: seq<Id>, items: seq<Item>, c: Id)
    requires NoDup(ids)
    ensures DeliverList(v, Broadcast(off, ids, {}, LobbyList(items)), c) ==
            if c in ids && c !in off then LearnList(v, LobbyList(items)) else v
  {
    hide LearnList, NoDup;
    if ids != [] { LastFresh(ids); }
    if ids != [] {
      var n := |ids| - 1;
      DeliverListBroadcast(v, off, ids[..n], items, c);
      assert ids == ids[..n] + [ids[n]];
      var b := Broadcast(off, ids[..n], {}, LobbyList(items));
      if ids[n] !in off {
        assert (b + [Out(ids[n], LobbyList(items))])[..|b|] == b;
      } else {
        assert b + [] == b;
      }
    }
  }

  lemma DeliverListSend(v: ListView, off: map<Id, int>, to: Id, note: Note, c: Id)
    ensures DeliverList(v, Send(off, to, note), c) == if c == to && c !in off then LearnList(v, note) else v
  {
    if to !in off {
      var s := Send(off, to, note);
      assert s[..0] == [];
    }
  }

  // ----- the steps that concern the list -----

  /** What the subscriber starts from: a closed connection forgets, a subscription begins empty. */
  ghost function Before(g: Game, s: Step, c: Id, v: ListView): ListView
    requires Enabled(g, s)
  {
    if s.Close? && s.p == c then NotListing
    else if s.List? && s.p == c && g.peers[c].id == c && c !in g.listing then
      Listing(map[], |s.order| <= 100, g.peers[c].lobbyId)
    else v
  }

  ghost function ListViewAfter(g: Game, s: Step, c: Id, v: ListView): ListView
    requires Enabled(g, s)
  {
    DeliverList(Before(g, s, c, v), Apply(g, s).outs, c)
  }

  lemma SameLobbies(g: Game, g': Game, c: Id, v: ListView)
    requires g'.lobbies == g.lobbies && g'.updated == g.updated
    requires ListInStep(g, c, v) && (c in g.listing <==> c in g'.listing)
    ensures ListInStep(g', c, v)
  {
    if v.Listing? && v.complete {
      forall l | l !in g'.updated ensures EntryRight(g', v, l) { assert EntryRight(g, v, l); }
    }
  }

  lemma ConnectList(g: Game, p: Id, c: Id, v: ListView)
    requires ListInStep(g, c, v) && Subscribed(g)
    ensures var o := OnConnect(g, p); ListInStep(o.g, c, DeliverList(v, o.outs, c)) && Subscribed(o.g)
  {
    var o := OnConnect(g, p);
    DeliverListSend(v, o.g.disconnected, o.g.peers[p].id, PeerState(ViewOf(o.g.peers[p])), c);
    SameLobbies(g, o.g, c, v);
  }

  lemma CloseList(g: Game, p: Id, now: int, c: Id, v: ListView)
    requires ListInStep(g, c, v) && Subscribed(g)
    ensures var o := OnClose(g, p, now);
            && ListInStep(o.g, c, DeliverList(if c == p then NotListing else v, o.outs, c))
            && Subscribed(o.g)
  {
    var o, w := OnClose(g, p, now), if c == p then NotListing else v;
    CloseQuiet(g, p, now);
    QuietDelivery(w, o.outs, c);
    CloseFrame(g, p, now);
    if c != p { SameLobbies(g, o.g, c, v); }
  }

  lemma CloseQuiet(g: Game, p: Id, now: int)
    ensures Quiet(OnClose(g, p, now).outs) && OnClose(g, p, now).g.updated == g.updated
  {
    hide Broadcast;
    if p in g.peers && g.peers[p].lobbyId in g.lobbies {
      BroadcastQuiet(OnClose(g, p, now).g.disconnected, g.lobbies[g.peers[p].lobbyId].peerIds, {p}, PeerDisconnected(p));
    }
  }

  lemma SubscribeList(g: Game, p: Id, order: seq<Id>)
    requires Weak(g) && p in g.peers && p !in g.listing && Enumerates(order, VisibleSet(g, p))
    requires forall l :: l in order ==> l in g.lobbies
    ensures var known := Upserts(map[], Entries(g, First100(order)));
            ListInStep(g.(listing := g.listing + {p}), p, Listing(known, |order| <= 100, g.peers[p].lobbyId))
  {
    hide Weak, Entries, Upserts;
    var known := Upserts(map[], Entries(g, First100(order)));
    var g', v := g.(listing := g.listing + {p}), Listing(known, |order| <= 100, g.peers[p].lobbyId);
    if |order| <= 100 {
      forall l | l !in g'.updated ensures EntryRight(g', v, l) {
        UpsertEntries(map[], g, order, l);
        if l in g.lobbies { LobbyNamed(g, l); }
        assert l in order <==> l in VisibleSet(g, p);
      }
    }
  }

  lemma ListList(g: Game, p: Id, order: seq<Id>, c: Id, v: ListView)
    requires ListInv(g, c, v) && p in Active(g) && Enumerates(order, VisibleSet(g, p))
    ensures var o := OnList(g, p, order);
            var own := p == c && g.peers[c].id == c && c !in g.listing;
            var w := if own then Listing(map[], |order| <= 100, g.peers[c].lobbyId) else v;
            ListInStep(o.g, c, DeliverList(w, o.outs, c)) && Subscribed(o.g)
  {
    hide Weak, Entries, Upserts, DeliverList;
    var o, id := OnList(g, p, order), g.peers[p].id;
    NamedByKey(g, p);
    if id in g.listing {
      DeliverListSend(v, g.disconnected, id, LobbyList([]), c);
      assert LearnList(v, LobbyList([])) == v by { UpsertNothing(v); }
    } else {
      var first := Listing(map[], |order| <= 100, g.peers[p].lobbyId);
      var note := LobbyList(Entries(g, First100(order)));
      DeliverListSend(if id == c then first else v, g.disconnected, id, note, c);
      if id == c {
        SubscribeList(g, p, order);
      } else {
        SameLobbies(g, o.g, c, v);
      }
    }
  }

  /** An entry carries its key as id, or none. */
  lemma NamedByKey(g: Game, p: Id)
    requires Weak(g) && p in g.peers
    ensures g.peers[p].id == p || g.peers[p].id == ""
  {
    assert PeerWeak(g, p);
  }

  lemma UpsertNothing(v: ListView)
    ensures LearnList(v, LobbyList([])) == v
  {
  }

  lemma StopListList(g: Game, p: Id, c: Id, v: ListView)
    requires ListInv(g, c, v) && p in Active(g)
    ensures var o := OnStopList(g, p);
            ListInStep(o.g, c, DeliverList(v, o.outs, c)) && Subscribed(o.g)
  {
    hide Weak, Upserts, DeliverList;
    var o, id := OnStopList(g, p), g.peers[p].id;
    NamedByKey(g, p);
    if id !in g.listing {
      DeliverListSend(v, g.disconnected, id, LobbyList([]), c);
      UpsertNothing(v);
    } else {
      DeliverListSend(v, g.disconnected, id, StopListing, c);
      if id != c { SameLobbies(g, o.g, c, v); }
    }
  }

  /** After a flush nothing is pending, and the subscriber is right about every lobby. */
  lemma FlushList(g: Game, order: seq<Id>, readers: seq<Id>, c: Id, v: ListView)
    requires ListInv(g, c, v) && Enumerates(order, g.updated) && Enumerates(readers, g.listing)
    ensures var o := OnFlush(g, order, readers);
            ListInStep(o.g, c, DeliverList(v, o.outs, c)) && Subscribed(o.g)
  {
    hide Weak, Upserts, Items, Broadcast;
    var o := OnFlush(g, order, readers);
    var w := DeliverList(v, o.outs, c);
    DeliverListBroadcast(v, g.disconnected, readers, Items(g, order), c);
    assert c in readers <==> c in g.listing;
    if v.Listing? && v.complete {
      forall l ensures EntryRight(o.g, w, l) {
        UpsertItems(v.known, g, order, l);
        if l !in g.updated { assert EntryRight(g, v, l); }
      }
    }
  }

  // ----- the sweep -----

  /** The loop keeps peers, marks what it changes, and sends no list. */
  lemma {:induction false} LoopOrdinary(g: Game, order: seq<Id>, now: int, limit: int)
    requires Weak(g) && forall p :: p in order ==> p in g.disconnected
    ensures var s := SweepLoop(g, order, now, limit);
            Ordinary(g, s.g, s.outs) && s.erased <= g.disconnected.Keys
  {
    hide Weak, RemovePeer, Marks, Grows, Quiet;
    if order != [] {
      var n := |order| - 1;
      LoopOrdinary(g, order[..n], now, limit);
      LoopWeak(g, order[..n], now, limit);
      var s, p := SweepLoop(g, order[..n], now, limit), order[n];
      TurnOrdinary(s, p, now, limit);
      OrdinaryOuts(g, s, SweepOne(s, p, now, limit), p, now, limit);
    } else {
      NothingOrdinary(g);
    }
  }

  lemma NothingOrdinary(g: Game)
    ensures Ordinary(g, g, [])
  {
  }

  lemma TurnOrdinary(s: SweepState, p: Id, now: int, limit: int)
    requires Weak(s.g) && p in s.g.disconnected
    ensures var t := SweepOne(s, p, now, limit);
            exists more :: t.outs == s.outs + more && Ordinary(s.g, t.g, more)
  {
    hide Weak, RemovePeer;
    var t := SweepOne(s, p, now, limit);
    if Housed(s.g, p) && Expired(s.g, p, now, limit) {
      var l := s.g.peers[p].lobbyId;
      LobbyNamed(s.g, l);
      RemovalOrdinary(s.g, l, s.g.peers[p].id, true);
    } else {
      assert t.outs == s.outs + [] && Ordinary(s.g, t.g, []);
    }
  }

  lemma OrdinaryOuts(g: Game, s: SweepState, t: SweepState, p: Id, now: int, limit: int)
    requires Ordinary(g, s.g, s.outs) && p in s.g.disconnected
    requires exists more :: t.outs == s.outs + more && Ordinary(s.g, t.g, more)
    ensures Ordinary(g, t.g, t.outs)
  {
    hide Ordinary;
    var more :| t.outs == s.outs + more && Ordinary(s.g, t.g, more);
    OrdinaryTwice(g, s.g, t.g, s.outs, more);
  }

  lemma SweepList(g: Game, order: seq<Id>, now: int, limit: int, c: Id, v: ListView)
    requires ListInv(g, c, v) && forall p :: p in order ==> p in g.disconnected
    ensures var o := OnSweep(g, order, now, limit);
            ListInStep(o.g, c, DeliverList(v, o.outs, c)) && Subscribed(o.g)
  {
    hide Weak, DeliverList, SweepLoop;
    LoopOrdinary(g, order, now, limit);
    var s := SweepLoop(g, order, now, limit);
    OrdinaryInStep(g, s.g, s.outs, c, v);
    var g', w := Erase(s.g, s.erased), DeliverList(v, s.outs, c);
    assert c !in s.erased || c !in g.listing;
    SameLobbies(s.g, g', c, w);
    assert g'.peers.Keys == s.g.peers.Keys - s.erased;
    assert g'.disconnected.Keys == s.g.disconnected.Keys - s.erased;
  }

  // ----- every step -----

  lemma TalkOrdinary(g: Game, p: Id, t: Talk)
    requires Acting(g, p)
    ensures var o := OnTalk(g, p, t); Ordinary(g, o.g, o.outs)
  {
    hide OnTalk, Target;
    TalkEffect(g, p, t);
    TalkIdle(g, p, t);
    forall i | 0 <= i < |OnTalk(g, p, t).outs| ensures QuietNote(OnTalk(g, p, t).outs[i].note) {
      assert Idle(OnTalk(g, p, t).outs[i].note);
    }
  }

  lemma OrdinaryStep(g: Game, s: Step)
    requires Weak(g) && Enabled(g, s)
    requires !s.Connect? && !s.Close? && !s.List? && !s.StopList? && !s.Flush? && !s.Sweep?
    ensures Ordinary(g, Apply(g, s).g, Apply(g, s).outs)
  {
    hide Weak, Ordinary, OnCreate, OnJoin, OnQuickJoin, OnLeave, OnKick, OnReady, OnEdit, OnLobbyData, OnDataTo,
         OnDataToAll, OnCall, OnTalk;
    WeakActs(g, s.p);
    match s
    case Create(p, a, can) => CreateOrdinary(g, p, a, can);
    case Join(p, wanted, pw, can) => JoinOrdinary(g, p, wanted, pw, can);
    case QuickJoin(p, wanted, a, order, cans, can) => QuickJoinOrdinary(g, p, wanted, a, order, cans, can);
    case Leave(p) => LeaveOrdinary(g, p);
    case Kick(p, target, can) => KickOrdinary(g, p, target, can);
    case SetReady(p, ready, can) => ReadyOrdinary(g, p, ready, can);
    case EditLobby(p, e, can) => EditOrdinary(g, p, e, can);
    case PutLobbyData(p, patch) => LobbyDataOrdinary(g, p, patch);
    case PutDataTo(p, target, patch) => DataToOrdinary(g, p, target, patch);
    case PutDataToAll(p, patch) => DataToAllOrdinary(g, p, patch);
    case Call(p, lw, pw) => CallOrdinary(g, p, lw, pw);
    case Tell(p, t) => TalkOrdinary(g, p, t);
  }

  lemma OrdinaryActive(g: Game, g': Game, outs: seq<Out>)
    requires Ordinary(g, g', outs) && Subscribed(g)
    ensures Subscribed(g')
  {
  }

  lemma OrdinaryKeepsList(g: Game, s: Step, c: Id, v: ListView)
    requires ListInv(g, c, v) && Enabled(g, s)
    requires !s.Connect? && !s.Close? && !s.List? && !s.StopList? && !s.Flush? && !s.Sweep?
    ensures var o := Apply(g, s);
            ListInStep(o.g, c, DeliverList(v, o.outs, c)) && Subscribed(o.g)
  {
    hide Weak, Ordinary, ListInStep, DeliverList, Apply;
    OrdinaryStep(g, s);
    OrdinaryInStep(g, Apply(g, s).g, Apply(g, s).outs, c, v);
    OrdinaryActive(g, Apply(g, s).g, Apply(g, s).outs);
  }

  lemma StepInList(g: Game, s: Step, c: Id, v: ListView)
    requires ListInv(g, c, v) && Enabled(g, s)
    ensures ListInStep(Apply(g, s).g, c, ListViewAfter(g, s, c, v))
    ensures Subscribed(Apply(g, s).g)
  {
    hide Weak, Ordinary, ListInStep, DeliverList, OnCreate, OnJoin, OnQuickJoin, OnLeave, OnKick, OnReady, OnEdit,
         OnLobbyData, OnDataTo, OnDataToAll, OnCall, OnTalk, OnConnect, OnClose, OnList, OnStopList, OnFlush, OnSweep;
    match s
    case Connect(p) => ConnectList(g, p, c, v);
    case Close(p, now) => CloseList(g, p, now, c, v);
    case List(p, order) => ListList(g, p, order, c, v);
    case StopList(p) => StopListList(g, p, c, v);
    case Flush(order, readers) => FlushList(g, order, readers, c, v);
    case Sweep(order, now, limit) => SweepList(g, order, now, limit, c, v);
    case _ => OrdinaryKeepsList(g, s, c, v);
  }

  lemma StepKeepsList(g: Game, s: Step, c: Id, v: ListView)
    requires ListInv(g, c, v) && Enabled(g, s) && !Intrudes(g, s)
    ensures ListInv(Apply(g, s).g, c, ListViewAfter(g, s, c, v))
  {
    hide Weak, ListInStep, ListViewAfter, Apply, Intrudes;
    StepKeepsWeakIff(g, s);
    StepInList(g, s, c, v);
  }

  // ----- runs -----

  /** The list of `c` at the end of the run. */
  ghost function FinalList(g: Game, steps: seq<Step>, c: Id): ListView
    requires Legal(g, steps)
  {
    if steps == [] then NotListing
    else
      var n := |steps| - 1;
      ListViewAfter(After(g, steps[..n]), steps[n], c, FinalList(g, steps[..n], c))
  }

  lemma {:induction false} EveryRunKeepsList(config: Config, steps: seq<Step>, c: Id)
    requires Legal(NewGame(config), steps) && NoIntrusion(NewGame(config), steps) && c != ""
    ensures ListInv(After(NewGame(config), steps), c, FinalList(NewGame(config), steps, c))
  {
    hide Weak, ListInStep, Enabled, ListViewAfter, Apply, Intrudes;
    if steps != [] {
      var n := |steps| - 1;
      EveryRunKeepsList(config, steps[..n], c);
      StepKeepsList(After(NewGame(config), steps[..n]), steps[n], c, FinalList(NewGame(config), steps[..n], c));
    } else {
      NoList(config, c);
    }
  }

  lemma NoList(config: Config, c: Id)
    requires c != ""
    ensures ListInv(NewGame(config), c, NotListing)
  {
  }

  /**
   At the end of any run in which no made-up entry gets a lobby, a subscriber whose first list was complete is right
   about every lobby with no update pending: the current entry of an unsealed one, nothing for one that is gone; a
   sealed one is absent too, unless it is the lobby it was in when it subscribed, and then its entry is current.
   */
  lemma ListIsExact(config: Config, steps: seq<Step>, c: Id, l: Id)
    requires Legal(NewGame(config), steps) && NoIntrusion(NewGame(config), steps) && c != ""
    ensures var g, v := After(NewGame(config), steps), FinalList(NewGame(config), steps, c);
            && (c in g.listing <==> v.Listing?)
            && (v.Listing? && v.complete && l !in g.updated ==>
                  if l !in g.lobbies then l !in v.known
                  else if !g.lobbies[l].sealed then l in v.known && v.known[l] == SummaryOf(g.lobbies[l])
                  else l in v.known ==> l == v.own && v.known[l] == SummaryOf(g.lobbies[l]))
  {
    EveryRunKeepsList(config, steps, c);
    var g, v := After(NewGame(config), steps), FinalList(NewGame(config), steps, c);
    if v.Listing? && v.complete && l !in g.updated { assert EntryRight(g, v, l); }
  }

  /** The public data field is not part of this: a data command never marks the lobby, even when the data changed. */
  lemma DataIsNotMarked(g: Game, p: Id, patch: Dict)
    requires Acting(g, p) && RelayRefusal(g, p) == ""
    ensures var g', l := OnLobbyData(g, p, patch).g, g.peers[p].lobbyId;
            && g'.updated == g.updated
            && g'.lobbies[l].shared.data == Patch(g.lobbies[l].shared.data, patch)
  {
  }
}
