/** When a join succeeds, and what the two kinds of success do: a member gets its lobby back, a newcomer a place. */
module JoinEffects {
  import opened FlatSets
  import opened AnyTypes
  import opened SharedData
  import opened GameState
  import opened Mail
  import opened Handlers
  import opened Membership
  import opened Invariants
  import opened QuickJoins
  import opened Replica
  import opened ReplicaSteps
  import opened Effects

  /** A limit of 0 is none; a negative one is read as unsigned. */
  predicate Admits(max: int64, inside: nat)
  {
    max == 0 || inside < if max < 0 then max + 0x1_0000_0000_0000_0000 else max
  }

  /**
   In any game: a member that had been disconnected gets its lobby back, whatever it asked for, exactly when that lobby
   lives and the script agrees; a peer in no lobby gets in exactly when the lobby lives, the password is right, there is
   room and the script agrees; nobody else does, and then nothing changes.
   */
  lemma JoinedIff(g: Game, p: Id, wanted: Id, password: string, can: bool)
    requires p in g.peers
    ensures var o, me := OnJoin(g, p, wanted, password, can), g.peers[p];
            && (o.joined <==>
                  || (me.lobbyId != "" && me.disconnected && me.lobbyId in g.lobbies && can)
                  || (me.lobbyId == "" && wanted != "" && wanted in g.lobbies &&
                      g.lobbies[wanted].password == password &&
                      Admits(g.lobbies[wanted].maxPlayers, |g.lobbies[wanted].peerIds|) && can))
            && (!o.joined ==> OnlyRefused(g, Outcome(o.g, o.outs), me.id))
  {
    hide Enter, Rejoin, OnlyRefused;
    var id := g.peers[p].id;
    FailRefuses(g, id, "ERROR_LOBBY_NOT_FOUND");
    FailRefuses(g, id, "ERROR_PEER_IS_IN_A_LOBBY");
    FailRefuses(g, id, "ERROR_LOBBY_WRONG_PASSWORD");
    FailRefuses(g, id, "ERROR_LOBBY_FULL");
    FailRefuses(g, id, "script");
    JoinedAre(g, p, wanted, password, can);
  }

  lemma JoinedAre(g: Game, p: Id, wanted: Id, password: string, can: bool)
    requires p in g.peers
    ensures var me := g.peers[p];
            && (me.lobbyId in g.lobbies ==> Rejoin(g, p, me.lobbyId).joined)
            && (wanted in g.lobbies ==> Enter(g, p, wanted).joined)
  {
    hide Broadcast, Send, PeersArray, SortByOrder, Touch, Insert;
  }

  // ----- coming back -----

  /** Two flags go down and nothing else changes; the others hear of it, and the peer gets the lobby as it is. */
  lemma RejoinEffect(g: Game, p: Id, wanted: Id, password: string)
    requires Inv(g) && p in g.peers && g.peers[p].lobbyId != "" && g.peers[p].disconnected
    ensures var o, l := OnJoin(g, p, wanted, password, true), g.peers[p].lobbyId;
            && o.joined && o.g == g.(peers := g.peers[p := g.peers[p].(ready := false, disconnected := false)])
            && forall c :: NotesTo(o.outs, c) ==
                 if c in g.disconnected then []
                 else if c == p then
                   [Joined(SummaryOf(g.lobbies[l]), g.lobbies[l].shared.data,
                           PeersArray(o.g.peers, g.lobbies[l].peerIds))]
                 else if c in g.lobbies[l].peerIds then [PeerReconnected(p)] else []
  {
    hide NotesTo, Broadcast, Send, SummaryOf, PeersArray, Weak, Strong, Touch;
    Self(g, p);
    var l := g.peers[p].lobbyId;
    Roster(g, l);
    TouchHits(g.peers[p := g.peers[p].(ready := false, disconnected := false)], g.lobbies[l].peerIds);
    assert OnJoin(g, p, wanted, password, true) == Rejoin(g, p, l);
    var o := Rejoin(g, p, l);
    var note := Joined(SummaryOf(g.lobbies[l]), g.lobbies[l].shared.data, PeersArray(o.g.peers, g.lobbies[l].peerIds));
    forall c ensures NotesTo(o.outs, c) == if c in g.disconnected then [] else if c == p then [note]
                                           else if c in g.lobbies[l].peerIds then [PeerReconnected(p)] else []
    {
      ToldNotes(g.disconnected, g.lobbies[l].peerIds, p, PeerReconnected(p), note, c);
    }
  }

  /** So a client that waits is in step again: it holds the lobby exactly, not nothing. */
  lemma RejoinSyncs(g: Game, p: Id, wanted: Id, password: string, v: View)
    requires Inv(g) && p in Active(g) && Waiting(g, p) && InStep(g, p, v)
    ensures var o := OnJoin(g, p, wanted, password, true);
            && p in o.g.peers && Acting(o.g, p) && Deliver(v, o.outs, p) == Snapshot(o.g, p)
            && Deliver(v, o.outs, p).Inside? && !Waiting(o.g, p)
  {
    hide Weak, Strong, Deliver, Rejoin, InStep;
    Self(g, p);
    var l := g.peers[p].lobbyId;
    assert OnJoin(g, p, wanted, password, true) == Rejoin(g, p, l);
    RejoinEffect(g, p, wanted, password);
    RejoinInStep(g, p, l, p, v);
    NotWaiting(Rejoin(g, p, l).g, p, Deliver(v, Rejoin(g, p, l).outs, p));
  }

  lemma NotWaiting(g: Game, p: Id, v: View)
    requires InStep(g, p, v) && p in Active(g) && !g.peers[p].disconnected && g.peers[p].lobbyId != ""
    ensures Acting(g, p) && v == Snapshot(g, p) && v.Inside? && !Waiting(g, p)
  {
  }

  // ----- going in -----

  /** The newcomer is last, with the next order id, and inside; its other flags and data stay. */
  lemma EnterEffect(g: Game, p: Id, l: Id, password: string)
    requires Inv(g) && p in g.peers && g.peers[p].lobbyId == "" && l in g.lobbies && g.lobbies[l].password == password
    requires Admits(g.lobbies[l].maxPlayers, |g.lobbies[l].peerIds|)
    ensures var o, b := OnJoin(g, p, l, password, true), g.lobbies[l];
            && o.joined && o.g == g.(peers := o.g.peers, lobbies := o.g.lobbies, updated := g.updated + {l})
            && o.g.peers == g.peers[p := g.peers[p].(orderId := b.orderCounter + 1, lobbyId := l, disconnected := false)]
            && var b' := o.g.lobbies[l];
               && o.g.lobbies == g.lobbies[l := b']
               && b' == b.(peerIds := b'.peerIds, orderedIds := b.orderedIds + [p], orderCounter := b.orderCounter + 1)
               && Sorted(b'.peerIds) && (forall x :: x in b'.peerIds <==> x in b.peerIds || x == p)
  {
    hide Weak, Strong, Enter, JoinOrder, Insert;
    Self(g, p);
    assert OnJoin(g, p, l, password, true) == Enter(g, p, l);
    LobbyIsSorted(g, l);
    EntryState(g, p, l);
    EnterFields(g, p, l);
    InsertElements(g.lobbies[l].peerIds, p);
    InsertSorted(g.lobbies[l].peerIds, p);
  }

  lemma LobbyIsSorted(g: Game, l: Id)
    requires Inv(g) && l in g.lobbies
    ensures g.lobbies[l].id == l && Sorted(g.lobbies[l].peerIds)
  {
    assert LobbyWeak(g, l);
  }

  lemma EnterFields(g: Game, p: Id, l: Id)
    requires p in g.peers && l in g.lobbies
    ensures var o := Enter(g, p, l);
            o.joined && o.g == g.(peers := o.g.peers, lobbies := o.g.lobbies, updated := g.updated + {l})
  {
    hide Broadcast, Send, PeersArray, SortByOrder, Touch, Insert;
  }

  /** Everybody inside hears who came, and the newcomer gets the lobby with itself in it. */
  lemma EnterTells(g: Game, p: Id, l: Id, password: string, c: Id)
    requires Inv(g) && p in g.peers && g.peers[p].lobbyId == "" && l in g.lobbies && g.lobbies[l].password == password
    requires Admits(g.lobbies[l].maxPlayers, |g.lobbies[l].peerIds|)
    ensures var o, e := OnJoin(g, p, l, password, true), g.peers[p];
            && l in o.g.lobbies
            && NotesTo(o.outs, c) ==
               if c in g.disconnected then []
               else if c == p then
                 [Joined(SummaryOf(o.g.lobbies[l]), g.lobbies[l].shared.data,
                         PeersArray(o.g.peers, o.g.lobbies[l].peerIds))]
               else if c in g.lobbies[l].peerIds then
                 [PeerJoined(PeerView(p, g.lobbies[l].orderCounter + 1, l, e.shared.data, false, e.ready))]
               else []
  {
    hide Weak, Strong, NotesTo, Broadcast, Send, SummaryOf, PeersArray, SortByOrder, Insert, Touch;
    Self(g, p);
    EnterEffect(g, p, l, password);
    assert OnJoin(g, p, l, password, true) == Enter(g, p, l);
    var o := Enter(g, p, l);
    var b' := o.g.lobbies[l];
    SortedNoDup(b'.peerIds);
    EnterOuts(g, p, l);
    ToldNotes(g.disconnected, b'.peerIds, p, PeerJoined(ViewOf(o.g.peers[p])),
              Joined(SummaryOf(b'), b'.shared.data, PeersArray(o.g.peers, b'.peerIds)), c);
  }

  lemma EnterOuts(g: Game, p: Id, l: Id)
    requires p in g.peers && g.peers[p].id == p && l in g.lobbies
    requires Enter(g, p, l).g.peers == g.peers[p := g.peers[p].(orderId := g.lobbies[l].orderCounter + 1, lobbyId := l,
                                                               disconnected := false)]
    ensures var o := Enter(g, p, l);
            var b' := o.g.lobbies[l];
            o.outs == Broadcast(g.disconnected, b'.peerIds, {p}, PeerJoined(ViewOf(o.g.peers[p]))) +
                      Send(g.disconnected, p, Joined(SummaryOf(b'), b'.shared.data, PeersArray(o.g.peers, b'.peerIds)))
  {
    hide Broadcast, Send, SummaryOf, PeersArray, SortByOrder, Insert, Touch;
  }

  // ----- quick join -----

  /** Nothing but errors, and those for the one who asked only, and then `last`. */
  ghost predicate ErrorsThen(notes: seq<Note>, last: seq<Note>, asked: bool)
  {
    exists k :: 0 <= k <= |notes| && notes[k..] == last && AllErrors(notes[..k]) && (!asked ==> k == 0)
  }

  ghost predicate AllErrors(notes: seq<Note>)
  {
    forall i :: 0 <= i < |notes| ==> notes[i].Error?
  }

  lemma LastAlone(last: seq<Note>, asked: bool)
    ensures ErrorsThen(last, last, asked)
  {
    assert last[0..] == last;
  }

  lemma OneMoreError(first: seq<Note>, notes: seq<Note>, last: seq<Note>, asked: bool)
    requires ErrorsThen(notes, last, asked) && AllErrors(first) && (!asked ==> first == [])
    ensures ErrorsThen(first + notes, last, asked)
  {
    var k :| 0 <= k <= |notes| && notes[k..] == last && AllErrors(notes[..k]) && (!asked ==> k == 0);
    assert (first + notes)[|first| + k..] == last && (first + notes)[..|first| + k] == first + notes[..k];
  }

  lemma RefusedErrors(g: Game, o: Outcome, p: Id, c: Id)
    requires OnlyRefused(g, o, p)
    ensures AllErrors(NotesTo(o.outs, c))
    ensures c != p ==> NotesTo(o.outs, c) == []
  {
  }

  /** The attempts that fail say so to the one who asked; the one that succeeds says what a join says. */
  lemma {:induction false} TryJoinsTells(g: Game, p: Id, a: CreateArgs, order: seq<Id>, cans: seq<bool>, c: Id)
    requires Inv(g) && p in g.peers && g.peers[p].lobbyId == ""
    ensures var o := TryJoins(g, p, a, order, cans);
            if o.joined then
              && p in o.g.peers && o.g.peers[p].lobbyId in g.lobbies
              && ErrorsThen(NotesTo(o.outs, c),
                            NotesTo(OnJoin(g, p, o.g.peers[p].lobbyId, a.password, true).outs, c), c == p)
            else o.g == g && ErrorsThen(NotesTo(o.outs, c), [], c == p)
    decreases order
  {
    hide Weak, Strong, OnJoin, Eligible, NotesTo, ErrorsThen, OnlyRefused;
    if order == [] {
      NobodySays();
      LastAlone([], c == p);
    } else if order[0] !in g.lobbies {
      TryJoinsTells(g, p, a, order[1..], cans, c);
    } else {
      var l := order[0];
      ConsideredKeeps(g, l);
      if !Eligible(g, l, a.tags) {
        TryJoinsTells(g, p, a, order[1..], cans, c);
      } else {
        var o := OnJoin(g, p, l, a.password, Verdict(cans));
        Attempt(g, p, l, a.password, Verdict(cans));
        Self(g, p);
        if o.joined {
          LastAlone(NotesTo(o.outs, c), c == p);
        } else {
          var rest := TryJoins(g, p, a, order[1..], Later(cans));
          TryJoinsTells(g, p, a, order[1..], Later(cans), c);
          NotesConcat(o.outs, rest.outs, c);
          RefusedErrors(g, Outcome(o.g, o.outs), p, c);
          OneMoreError(NotesTo(o.outs, c), NotesTo(rest.outs, c),
                       if rest.joined then NotesTo(OnJoin(g, p, rest.g.peers[p].lobbyId, a.password, true).outs, c) else [],
                       c == p);
        }
      }
    }
  }

  lemma Attempt(g: Game, p: Id, l: Id, password: string, can: bool)
    requires Inv(g) && p in g.peers && g.peers[p].lobbyId == "" && l in g.lobbies
    ensures var o := OnJoin(g, p, l, password, can);
            && (o.joined ==> can && p in o.g.peers && o.g.peers[p].lobbyId == l)
            && (!o.joined ==> OnlyRefused(g, Outcome(o.g, o.outs), p) && o.g == g)
  {
    hide Weak, Strong, OnJoin, NotesTo;
    Self(g, p);
    JoinedIff(g, p, l, password, can);
    if OnJoin(g, p, l, password, can).joined { EnterEffect(g, p, l, password); }
  }

  /** So quick join says what its last attempt says, after nothing but errors for the attempts before it. */
  lemma QuickJoinTells(
    g: Game, p: Id, wanted: Id, a: CreateArgs, order: seq<Id>, cans: seq<bool>, can: bool, c: Id)
    requires Inv(g) && p in g.peers && g.peers[p].lobbyId == "" && a.id != "" && a.id !in g.lobbies
    ensures var o := OnQuickJoin(g, p, wanted, a, order, cans, can);
            && p in o.g.peers
            && ErrorsThen(NotesTo(o.outs, c),
                          if o.g.peers[p].lobbyId in g.lobbies
                          then NotesTo(OnJoin(g, p, o.g.peers[p].lobbyId, a.password, true).outs, c)
                          else NotesTo(OnCreate(g, p, a, can).outs, c),
                          c == p)
  {
    hide Inv, OnJoin, OnCreate, TryJoins, NotesTo, ErrorsThen, OnlyRefused;
    TryJoinsTells(g, p, a, order, cans, c);
    var second := TryJoins(g, p, a, order, cans);
    assert [] + second.outs == second.outs;
    if !second.joined {
      Self(g, p);
      var third := OnCreate(g, p, a, can);
      CreatedNew(g, p, a, can);
      NotesConcat(second.outs, third.outs, c);
      ErrorsBefore(NotesTo(second.outs, c), NotesTo(third.outs, c), c == p);
    }
  }

  lemma ErrorsBefore(notes: seq<Note>, last: seq<Note>, asked: bool)
    requires ErrorsThen(notes, [], asked)
    ensures ErrorsThen(notes + last, last, asked)
  {
    var k :| 0 <= k <= |notes| && notes[k..] == [] && AllErrors(notes[..k]) && (!asked ==> k == 0);
    assert k == |notes| && (notes + last)[k..] == last && (notes + last)[..k] == notes[..k];
  }

  lemma CreatedNew(g: Game, p: Id, a: CreateArgs, can: bool)
    requires Inv(g) && p in g.peers && g.peers[p].lobbyId == "" && a.id != "" && a.id !in g.lobbies
    ensures var o := OnCreate(g, p, a, can); p in o.g.peers && o.g.peers[p].lobbyId !in g.lobbies
  {
    hide Weak, Strong, OnCreate, NotesTo;
    Self(g, p);
    if a.maxPlayers >= 1 && can { CreateMakes(g, p, a); } else { CreateRefused(g, p, a, can); }
  }
}
