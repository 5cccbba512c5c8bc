/**
 What each command does and whom it tells, in the fields of the game and nothing else: the answer of every handler for
 every input, in any game that orphaned nobody.
 */
module Effects {
  import opened FlatSets
  import opened AnyTypes
  import opened SharedData
  import opened GameState
  import opened Mail
  import opened Handlers
  import opened Membership
  import opened Invariants
  import opened ReplicaSteps

  /** Nothing changed, and `p` alone is told so. */
  ghost predicate OnlyRefused(g: Game, o: Outcome, p: Id)
  {
    && o.g == g
    && (forall c :: c != p || c in g.disconnected ==> NotesTo(o.outs, c) == [])
    && (p !in g.disconnected ==> |NotesTo(o.outs, p)| == 1 && NotesTo(o.outs, p)[0].Error?)
  }

  lemma FailRefuses(g: Game, p: Id, message: string)
    ensures OnlyRefused(g, Fail(g, p, message), p)
  {
    hide NotesTo, Send;
    forall c
      ensures NotesTo(Fail(g, p, message).outs, c) == if c == p && c !in g.disconnected then [Error(message)] else []
    {
      SendNotes(g.disconnected, p, Error(message), c);
    }
  }

  // ----- connections -----

  lemma ConnectEffect(g: Game, p: Id)
    requires Inv(g) && p != ""
    ensures var o := OnConnect(g, p);
            && (p in g.peers ==> o.g == g.(disconnected := g.disconnected - {p}))
            && (p !in g.peers ==>
                  o.g == g.(peers := g.peers[p := Peer(p, 0, "", false, false, Tracked(map[], map[], false))]))
            && forall c :: NotesTo(o.outs, c) ==
                 if c != p then []
                 else if p in g.peers then
                   var e := g.peers[p];
                   [PeerState(PeerView(p, e.orderId, e.lobbyId, e.shared.data, e.disconnected, e.ready))]
                 else [PeerState(PeerView(p, 0, "", map[], false, false))]
  {
    hide NotesTo, Send;
    if p in g.peers { Self(g, p); } else { assert p !in g.disconnected; }
    var o := OnConnect(g, p);
    forall c ensures NotesTo(o.outs, c) == if c == p then [PeerState(ViewOf(o.g.peers[p]))] else [] {
      SendNotes(o.g.disconnected, p, PeerState(ViewOf(o.g.peers[p])), c);
    }
  }

  /** The first close keeps its time; who is in a lobby stays in it, and the connected others are told. */
  lemma CloseEffect(g: Game, p: Id, now: int)
    requires Inv(g)
    ensures var o := OnClose(g, p, now);
            && o.g == g.(peers := o.g.peers, disconnected := o.g.disconnected, listing := g.listing - {p})
            && (p !in g.peers ==> o.g.peers == g.peers && o.g.disconnected == g.disconnected && o.outs == [])
            && (p in g.peers ==>
                  && o.g.peers == g.peers[p := g.peers[p].(ready := false, disconnected := true)]
                  && o.g.disconnected == (if p in g.disconnected then g.disconnected else g.disconnected[p := now])
                  && forall c :: NotesTo(o.outs, c) ==
                       if c != p && c !in g.disconnected && c in g.peers && g.peers[p].lobbyId != "" &&
                          g.peers[c].lobbyId == g.peers[p].lobbyId
                       then [PeerDisconnected(p)] else [])
  {
    hide NotesTo, Broadcast;
    if p in g.peers {
      Self(g, p);
      var l, off := g.peers[p].lobbyId, OnClose(g, p, now).g.disconnected;
      NobodySays();
      if l in g.lobbies {
        Roster(g, l);
        forall c ensures NotesTo(OnClose(g, p, now).outs, c) ==
                         if c in g.lobbies[l].peerIds && c != p && c !in off then [PeerDisconnected(p)] else []
        {
          BroadcastNotes(off, g.lobbies[l].peerIds, {p}, PeerDisconnected(p), c);
        }
        forall c | c in g.peers && g.peers[c].lobbyId == l ensures c in g.lobbies[l].peerIds { Self(g, c); }
      }
    }
  }

  lemma NobodySays()
    ensures forall c :: NotesTo([], c) == []
  {
  }

  // ----- creating -----

  /** A refusal changes nothing; a veto leaves the peer's own entry as one in no lobby. */
  lemma CreateRefused(g: Game, p: Id, a: CreateArgs, can: bool)
    requires Inv(g) && p in g.peers && a.id != "" && a.id !in g.lobbies
    requires !(g.peers[p].lobbyId == "" && a.maxPlayers >= 1 && can)
    ensures var o := OnCreate(g, p, a, can);
            && (if g.peers[p].lobbyId != "" || a.maxPlayers < 1 then o.g == g
                else o.g == g.(peers := g.peers[p := g.peers[p].(ready := false, orderId := 0, disconnected := false,
                                                                 shared := Tracked(map[], map[], false))]))
            && (forall c :: c != p ==> NotesTo(o.outs, c) == [])
            && (p !in g.disconnected ==> |NotesTo(o.outs, p)| == 1 && NotesTo(o.outs, p)[0].Error?)
  {
    hide NotesTo, Send, OnCreate, Weak, Strong;
    Self(g, p);
    CreateRefusal(g, p, a, can);
    CleanEntry(g, p);
    var o := OnCreate(g, p, a, can);
    SendNotes(g.disconnected, p, CreateError(g, p, a), p);
    forall c | c != p ensures NotesTo(o.outs, c) == [] { SendNotes(g.disconnected, p, CreateError(g, p, a), c); }
  }

  lemma CleanEntry(g: Game, p: Id)
    requires Inv(g) && p in g.peers
    ensures IsClean(g.peers[p].shared) && (g.peers[p].lobbyId == "" ==> g.peers[p].orderId == 0)
  {
    assert PeerWeak(g, p) && PeerStrong(g, p);
  }

  function CreateError(g: Game, p: Id, a: CreateArgs): Note
    requires p in g.peers
  {
    Error(if g.peers[p].lobbyId != "" then "ERROR_PEER_IS_IN_A_LOBBY"
          else if a.maxPlayers < 1 then "ERROR_LOBBY_FULL"
          else "script")
  }

  lemma CreateRefusal(g: Game, p: Id, a: CreateArgs, can: bool)
    requires p in g.peers && g.peers[p].id == p && a.id !in g.lobbies
    requires !(g.peers[p].lobbyId == "" && a.maxPlayers >= 1 && can)
    ensures var o := OnCreate(g, p, a, can);
            && o.outs == Send(g.disconnected, p, CreateError(g, p, a)) && o.g == g.(peers := o.g.peers)
            && (if g.peers[p].lobbyId != "" || a.maxPlayers < 1 then o.g == g
                else o.g.peers == g.peers[p := g.peers[p].(ready := false, orderId := 0, disconnected := false,
                                                           shared := g.peers[p].shared.(data := map[]))])
  {
    hide Send, PeersArray, SummaryOf, Touch;
    assert g.lobbies - {a.id} == g.lobbies;
  }

  /** The lobby gets what the command carries, its creator as host and only member, and nobody else moves. */
  lemma CreateMakes(g: Game, p: Id, a: CreateArgs)
    requires Inv(g) && p in g.peers && a.id != "" && a.id !in g.lobbies && g.peers[p].lobbyId == "" && a.maxPlayers >= 1
    ensures var o := OnCreate(g, p, a, true);
            && o.g == g.(peers := o.g.peers, lobbies := o.g.lobbies, updated := g.updated + {a.id})
            && o.g.peers == g.peers[p := g.peers[p].(lobbyId := a.id, disconnected := false)]
            && o.g.lobbies.Keys == g.lobbies.Keys + {a.id}
            && (forall l :: l in g.lobbies ==> o.g.lobbies[l] == g.lobbies[l])
            && var b := o.g.lobbies[a.id];
               && b.id == a.id && b.name == a.name && b.host == p && b.password == a.password
               && b.maxPlayers == a.maxPlayers && b.peerIds == [p] && b.orderedIds == [p] && b.createTime == a.now
               && b.sealed == a.sealed && b.tags == a.tags && b.orderCounter == 0
               && b.shared == Tracked(map[], map[], false)
  {
    hide Send, SummaryOf, PeersArray;
    Self(g, p);
    TouchHits(g.peers[p := g.peers[p].(lobbyId := a.id, disconnected := false)], [p]);
  }

  /** The notice says whether there is a password, not which. */
  lemma CreateTells(g: Game, p: Id, a: CreateArgs, c: Id)
    requires Inv(g) && p in g.peers && a.id != "" && a.id !in g.lobbies && g.peers[p].lobbyId == "" && a.maxPlayers >= 1
    ensures var e := g.peers[p];
            NotesTo(OnCreate(g, p, a, true).outs, c) ==
            if c != p || c in g.disconnected then []
            else [Created(Summary(a.id, a.name, p, a.sealed, a.maxPlayers, 1, a.now, a.password != "", a.tags), map[],
                          [PeerView(p, 0, a.id, e.shared.data, false, e.ready)])]
  {
    hide NotesTo, Send;
    Self(g, p);
    var peers := g.peers[p := g.peers[p].(lobbyId := a.id, disconnected := false)];
    TouchHits(peers, [p]);
    assert [p][..0] == [];
    assert PeersArray(peers, []) == [];
    assert PeersArray(peers, [p]) == [ViewOf(peers[p])];
    var b := NewLobby(a, p);
    SendNotes(g.disconnected, p, Created(SummaryOf(b), b.shared.data, PeersArray(peers, [p])), c);
  }

  // ----- readiness -----

  /** The flag flips, and every connected member is told, exactly when it differs and the script agrees. */
  lemma ReadyEffect(g: Game, p: Id, ready: bool, can: bool)
    requires Inv(g) && p in g.peers
    ensures var o, l := OnReady(g, p, ready, can), g.peers[p].lobbyId;
            if l != "" && g.peers[p].ready != ready && can then
              && o.g == g.(peers := g.peers[p := g.peers[p].(ready := ready)])
              && forall c :: NotesTo(o.outs, c) ==
                   if c in g.lobbies[l].peerIds && c !in g.disconnected
                   then [if ready then PeerReady(p) else PeerUnready(p)] else []
            else OnlyRefused(g, o, p)
  {
    hide NotesTo, Broadcast, Send, OnlyRefused;
    Self(g, p);
    var l, note := g.peers[p].lobbyId, if ready then PeerReady(p) else PeerUnready(p);
    FailRefuses(g, p, "script");
    FailRefuses(g, p, "ERROR_PEER_NOT_IN_A_LOBBY");
    FailRefuses(g, p, if ready then "ERROR_PEER_IS_READY" else "ERROR_PEER_IS_NOT_READY");
    if l != "" && g.peers[p].ready != ready && can {
      Roster(g, l);
      forall c ensures NotesTo(OnReady(g, p, ready, can).outs, c) ==
                       if c in g.lobbies[l].peerIds && c !in g.disconnected then [note] else []
      {
        ToldNotes(g.disconnected, g.lobbies[l].peerIds, p, note, note, c);
      }
    }
  }

  // ----- settings -----

  /**
   Who may change what: tags and seal are the host's; a limit, read as unsigned, must hold those inside; only a password
   asks no script.
   */
  predicate Allowed(b: Lobby, p: Id, e: Edit, can: bool)
  {
    match e
    case Resize(m) => (if m < 0 then m + 0x1_0000_0000_0000_0000 else m) >= |b.peerIds| && can
    case Retitle(_) => can
    case Protect(_) => true
    case Retag(_) => b.host == p && can
    case Seal(s) => b.host == p && s != b.sealed && can
  }

  /** The one field that changes. */
  ghost predicate Edited1(b: Lobby, b': Lobby, e: Edit)
  {
    match e
    case Resize(m) => b' == b.(maxPlayers := m)
    case Retitle(n) => b' == b.(name := n)
    case Protect(pw) => b' == b.(password := pw)
    case Seal(s) => b' == b.(sealed := s)
    case Retag(t) => b' == b.(tags := b'.tags) && Overlaid(b.tags, t, b'.tags)
  }

  lemma EditEffect(g: Game, p: Id, e: Edit, can: bool)
    requires Inv(g) && p in g.peers && g.peers[p].lobbyId != "" 
    requires Allowed(g.lobbies[g.peers[p].lobbyId], p, e, can)
    ensures var o, l := OnEdit(g, p, e, can), g.peers[p].lobbyId;
            && l in o.g.lobbies && o.g == g.(lobbies := g.lobbies[l := o.g.lobbies[l]], updated := g.updated + {l})
            && Edited1(g.lobbies[l], o.g.lobbies[l], e)
            && forall c :: NotesTo(o.outs, c) ==
                 if c in g.lobbies[l].peerIds && c !in g.disconnected
                 then [Edited(if e.Retag? then Retag(o.g.lobbies[l].tags) else e)] else []
  {
    hide NotesTo, Broadcast, Send, OnEdit, Edited1, Allowed, Announced, Weak, Strong;
    Self(g, p);
    var l := g.peers[p].lobbyId;
    Roster(g, l);
    EditIs(g, p, e, can);
    var b' := OnEdit(g, p, e, can).g.lobbies[l];
    var note := Edited(if e.Retag? then Retag(b'.tags) else e);
    forall c ensures NotesTo(OnEdit(g, p, e, can).outs, c) ==
                     if c in g.lobbies[l].peerIds && c !in g.disconnected then [note] else []
    {
      ToldNotes(g.disconnected, g.lobbies[l].peerIds, p, note, note, c);
    }
  }

  lemma EditIs(g: Game, p: Id, e: Edit, can: bool)
    requires p in g.peers && g.peers[p].id == p && g.peers[p].lobbyId != "" && g.peers[p].lobbyId in g.lobbies
    requires g.lobbies[g.peers[p].lobbyId].id == g.peers[p].lobbyId && Allowed(g.lobbies[g.peers[p].lobbyId], p, e, can)
    ensures var o, l := OnEdit(g, p, e, can), g.peers[p].lobbyId;
            && l in o.g.lobbies && o.g == g.(lobbies := g.lobbies[l := o.g.lobbies[l]], updated := g.updated + {l})
            && Edited1(g.lobbies[l], o.g.lobbies[l], e)
            && var note := Edited(if e.Retag? then Retag(o.g.lobbies[l].tags) else e);
               o.outs == Broadcast(g.disconnected, g.lobbies[l].peerIds, {p}, note) + Send(g.disconnected, p, note)
  {
    hide Broadcast, Send;
    if e.Retag? { PatchOverlays(g.lobbies[g.peers[p].lobbyId].tags, e.tags); }
  }

  /** Otherwise nothing changes; a seal that is there already is confirmed to its host alone. */
  lemma EditRefused(g: Game, p: Id, e: Edit, can: bool)
    requires Inv(g) && p in g.peers
    requires var l := g.peers[p].lobbyId;
             l != "" ==> !Allowed(g.lobbies[l], p, e, can)
    ensures var o, l := OnEdit(g, p, e, can), g.peers[p].lobbyId;
            if l != "" && e.Seal? && g.lobbies[l].host == p && g.lobbies[l].sealed == e.sealed then
              o.g == g && forall c :: NotesTo(o.outs, c) == if c == p && c !in g.disconnected then [Edited(e)] else []
            else OnlyRefused(g, o, p)
  {
    hide NotesTo, Broadcast, Send, OnlyRefused, Edits, Announced;
    Self(g, p);
    FailRefuses(g, p, "script");
    FailRefuses(g, p, "ERROR_PEER_NOT_IN_A_LOBBY");
    FailRefuses(g, p, "ERROR_PEER_NOT_HOST");
    FailRefuses(g, p, "ERROR_LOBBY_FULL");
    forall c { SendNotes(g.disconnected, p, Edited(e), c); }
  }

  // ----- listing -----

  /** The reply to a LIST holds at most the first 100 lobbies; a second one is empty. */
  lemma ListEffect(g: Game, p: Id, order: seq<Id>, c: Id)
    requires Inv(g) && p in g.peers && forall l :: l in order ==> l in g.lobbies
    ensures var o := OnList(g, p, order);
            && o.g == g.(listing := g.listing + {p})
            && (c != p || c in g.disconnected ==> NotesTo(o.outs, c) == [])
            && (c == p && c !in g.disconnected ==>
                  |NotesTo(o.outs, c)| == 1 && NotesTo(o.outs, c)[0].LobbyList? &&
                  var items := NotesTo(o.outs, c)[0].items;
                  if p in g.listing then items == []
                  else |items| == (if |order| <= 100 then |order| else 100) &&
                       forall i :: 0 <= i < |items| ==> items[i] == Entry(SummaryOf(g.lobbies[order[i]])))
  {
    hide NotesTo, Send, SummaryOf;
    Self(g, p);
    SendNotes(g.disconnected, p, LobbyList([]), c);
    SendNotes(g.disconnected, p, LobbyList(Entries(g, First100(order))), c);
    EntriesAre(g, First100(order));
    if p in g.listing { assert g.listing + {p} == g.listing; }
  }

  lemma {:induction false} EntriesAre(g: Game, ids: seq<Id>)
    requires forall l :: l in ids ==> l in g.lobbies
    ensures |Entries(g, ids)| == |ids|
    ensures forall i :: 0 <= i < |ids| ==> Entries(g, ids)[i] == Entry(SummaryOf(g.lobbies[ids[i]]))
  {
    hide SummaryOf;
    if ids != [] { EntriesAre(g, ids[..|ids| - 1]); }
  }

  lemma StopListEffect(g: Game, p: Id, c: Id)
    requires Inv(g) && p in g.peers
    ensures var o := OnStopList(g, p);
            && o.g == g.(listing := g.listing - {p})
            && NotesTo(o.outs, c) == if c != p || c in g.disconnected then []
                                     else if p in g.listing then [StopListing] else [LobbyList([])]
  {
    hide NotesTo, Send;
    Self(g, p);
    SendNotes(g.disconnected, p, LobbyList([]), c);
    SendNotes(g.disconnected, p, StopListing, c);
    if p !in g.listing { assert g.listing - {p} == g.listing; }
  }

  /** After a flush nothing is marked; every connected subscriber was sent one message about every lobby that was. */
  lemma FlushEffect(g: Game, order: seq<Id>, readers: seq<Id>, c: Id)
    requires Enumerates(order, g.updated) && Enumerates(readers, g.listing)
    ensures var o := OnFlush(g, order, readers);
            && o.g == g.(updated := {})
            && (c !in g.listing || c in g.disconnected || g.updated == {} ==> NotesTo(o.outs, c) == [])
            && (c in g.listing && c !in g.disconnected && g.updated != {} ==>
                  |NotesTo(o.outs, c)| == 1 && NotesTo(o.outs, c)[0].LobbyList? &&
                  var items := NotesTo(o.outs, c)[0].items;
                  && |items| == |order|
                  && forall i :: 0 <= i < |order| ==>
                       items[i] == if order[i] in g.lobbies && !g.lobbies[order[i]].sealed
                                   then Entry(SummaryOf(g.lobbies[order[i]])) else Gone(order[i]))
  {
    hide NotesTo, Broadcast, SummaryOf;
    BroadcastNotes(g.disconnected, readers, {}, LobbyList(Items(g, order)), c);
    NobodySays();
    ItemsAre(g, order);
    if order == [] { assert g.updated == {}; } else { assert order[0] in g.updated; }
  }

  lemma {:induction false} ItemsAre(g: Game, ids: seq<Id>)
    ensures |Items(g, ids)| == |ids|
    ensures forall i :: 0 <= i < |ids| ==>
              Items(g, ids)[i] == if ids[i] in g.lobbies && !g.lobbies[ids[i]].sealed
                                  then Entry(SummaryOf(g.lobbies[ids[i]])) else Gone(ids[i])
  {
    hide SummaryOf;
    if ids != [] { ItemsAre(g, ids[..|ids| - 1]); }
  }
}
