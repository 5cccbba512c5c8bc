/** Who leaves when somebody leaves, is kicked or is swept, who becomes host, and who is told what. */
module RemovalEffects {
  import opened FlatSets
  import opened AnyTypes
  import opened SharedData
  import opened GameState
  import opened Mail
  import opened Handlers
  import opened Membership
  import opened Invariants
  import opened Sweep
  import opened ReplicaSteps
  import opened Effects

  /** An entry after its peer left: only the id is kept. */
  function Gone(p: Id): Peer
  {
    Peer(p, 0, "", false, false, Tracked(map[], map[], false))
  }

  lemma LeaveIsGone(g: Game, p: Id)
    requires Inv(g) && p in g.peers
    ensures LeaveLobby(g.peers[p]) == Gone(p)
  {
    CleanEntry(g, p);
    Self(g, p);
  }

  /** `ids` without `p`, in the same order. */
  ghost predicate Lacks(ids: seq<Id>, ids': seq<Id>, p: Id)
  {
    exists i :: 0 <= i < |ids| && ids[i] == p && ids' == ids[..i] + ids[i + 1..]
  }

  lemma WithoutOne(ids: seq<Id>, p: Id)
    requires NoDup(ids) && p in ids
    ensures Lacks(ids, Without(ids, p), p)
  {
    hide NoDup, Without;
    var i :| 0 <= i < |ids| && ids[i] == p;
    WithoutAt(ids, i, p);
  }

  lemma {:induction false} WithoutAt(ids: seq<Id>, i: nat, p: Id)
    requires NoDup(ids) && i < |ids| && ids[i] == p
    ensures Without(ids, p) == ids[..i] + ids[i + 1..]
  {
    hide NoDup, Lacks;
    var rest := ids[1..];
    Tail(ids);
    if i == 0 {
      WithoutNone(rest, p);
      assert ids[..0] + ids[1..] == rest;
    } else {
      assert rest[i - 1] == p && ids[0] != p;
      WithoutAt(rest, i - 1, p);
      Shift(ids, i);
    }
  }

  lemma Tail(ids: seq<Id>)
    requires NoDup(ids) && ids != []
    ensures NoDup(ids[1..]) && ids[0] !in ids[1..]
  {
  }

  lemma Shift(ids: seq<Id>, i: nat)
    requires 0 < i < |ids|
    ensures [ids[0]] + (ids[1..][..i - 1] + ids[1..][i..]) == ids[..i] + ids[i + 1..]
  {
  }

  lemma {:induction false} WithoutNone(ids: seq<Id>, p: Id)
    requires p !in ids
    ensures Without(ids, p) == ids
  {
    if ids != [] {
      WithoutNone(ids[1..], p);
      assert ids == [ids[0]] + ids[1..];
    }
  }

  // ----- a member that is not the host -----

  lemma MemberGoes(g: Game, l: Id, p: Id, kicked: bool)
    requires Inv(g) && l in g.lobbies && p in g.lobbies[l].peerIds && p != g.lobbies[l].host
    ensures var o, b := RemovePeer(g, l, p, kicked).g, g.lobbies[l];
            && l in o.lobbies && o == g.(peers := g.peers[p := Gone(p)], lobbies := g.lobbies[l := o.lobbies[l]],
                                         updated := g.updated + {l})
            && o.lobbies[l] == b.(peerIds := o.lobbies[l].peerIds, orderedIds := o.lobbies[l].orderedIds)
            && Lacks(b.peerIds, o.lobbies[l].peerIds, p) && Lacks(b.orderedIds, o.lobbies[l].orderedIds, p)
            && (forall m :: m in o.lobbies ==> p !in o.lobbies[m].peerIds)
  {
    hide RemovalNotes, Weak, Strong, PeersAfterRemoval, Disbands;
    Roster(g, l);
    Ordered(g, l);
    LeaveIsGone(g, p);
    NoDisband(g, l, p);
    RemovalPeers(g, l, p);
    WithoutOne(g.lobbies[l].peerIds, p);
    WithoutOne(g.lobbies[l].orderedIds, p);
    WithoutElements(g.lobbies[l].peerIds, p);
    HostStays(g, l, p);
    Elsewhere2(g, l, p);
  }

  lemma NoDisband(g: Game, l: Id, p: Id)
    requires l in g.lobbies && p != g.lobbies[l].host
    ensures !Disbands(g, g.lobbies[l], p)
  {
  }

  lemma Ordered(g: Game, l: Id)
    requires Inv(g) && l in g.lobbies
    ensures NoDup(g.lobbies[l].orderedIds)
    ensures forall x :: x in g.lobbies[l].orderedIds <==> x in g.lobbies[l].peerIds
  {
    assert LobbyStrong(g, l);
  }

  lemma HostStays(g: Game, l: Id, p: Id)
    requires l in g.lobbies && g.lobbies[l].host in g.lobbies[l].peerIds && p != g.lobbies[l].host
    ensures Without(g.lobbies[l].peerIds, p) != []
  {
    WithoutElements(g.lobbies[l].peerIds, p);
  }

  lemma Elsewhere2(g: Game, l: Id, p: Id)
    requires Inv(g) && l in g.lobbies && p in g.lobbies[l].peerIds
    ensures forall m :: m in g.lobbies && m != l ==> p !in g.lobbies[m].peerIds
  {
    forall m | m in g.lobbies && m != l ensures p !in g.lobbies[m].peerIds {
      if p in g.lobbies[m].peerIds { OneLobbyEach(g, p, l, m); }
    }
  }

  /** Whoever stays hears who went and how; the one who goes, if connected, hears whether it was kicked. */
  lemma MemberGoesNotes(g: Game, l: Id, p: Id, kicked: bool, c: Id)
    requires Inv(g) && l in g.lobbies && p in g.lobbies[l].peerIds && p != g.lobbies[l].host
    ensures NotesTo(RemovePeer(g, l, p, kicked).outs, c) ==
            if c in g.disconnected then []
            else if c == p then [if kicked then LobbyKicked else LobbyLeft]
            else if c in g.lobbies[l].peerIds then [PeerLeft(p, kicked)] else []
  {
    hide NotesTo, Broadcast, Send, Weak, Strong, PeersAfterRemoval, LobbiesAfterRemoval;
    Roster(g, l);
    var b, off := g.lobbies[l], g.disconnected;
    var first := Broadcast(off, b.peerIds, if kicked then {p, b.host} else {p}, PeerLeft(p, kicked));
    var second := Send(off, p, if kicked then LobbyKicked else LobbyLeft);
    var third := if kicked then Send(off, b.host, PeerLeft(p, true)) else [];
    BroadcastNotes(off, b.peerIds, if kicked then {p, b.host} else {p}, PeerLeft(p, kicked), c);
    SendNotes(off, p, if kicked then LobbyKicked else LobbyLeft, c);
    SendNotes(off, b.host, PeerLeft(p, true), c);
    NobodySays();
    NotesConcat(first, second, c);
    NotesConcat(first + second, third, c);
    assert RemovePeer(g, l, p, kicked).outs == first + second + third;
  }

  // ----- the host -----

  /** Whether the host takes the lobby with it. */
  predicate TakesAll(g: Game, l: Id)
    requires l in g.lobbies
  {
    g.config.disbandOnLeave || !g.config.scripted || |g.lobbies[l].peerIds| == 1
  }

  /** A scripted lobby lives on under the least of the others. */
  lemma HostHandsOver(g: Game, l: Id, kicked: bool)
    requires Inv(g) && l in g.lobbies && !TakesAll(g, l)
    ensures var o, b, p := RemovePeer(g, l, g.lobbies[l].host, kicked).g, g.lobbies[l], g.lobbies[l].host;
            && l in o.lobbies && o == g.(peers := g.peers[p := Gone(p)], lobbies := g.lobbies[l := o.lobbies[l]],
                                         updated := g.updated + {l})
            && var b' := o.lobbies[l];
               && b' == b.(host := b'.host, peerIds := b'.peerIds, orderedIds := b'.orderedIds)
               && Lacks(b.peerIds, b'.peerIds, p) && Lacks(b.orderedIds, b'.orderedIds, p)
               && b'.host in b.peerIds && b'.host != p
               && (forall q :: q in b.peerIds && q != p && q != b'.host ==> Less(b'.host, q))
  {
    hide RemovalNotes, Weak, Strong, PeersAfterRemoval, Less, FirstOther;
    var p, b := g.lobbies[l].host, g.lobbies[l];
    Roster(g, l);
    Ordered(g, l);
    LeaveIsGone(g, p);
    RemovalPeers(g, l, p);
    WithoutOne(b.peerIds, p);
    WithoutOne(b.orderedIds, p);
    HasAnother(g, l);
    FirstOtherIsLeast(b.peerIds, p);
    SortedRoster(g, l);
    WithoutElements(b.peerIds, p);
  }

  lemma SortedRoster(g: Game, l: Id)
    requires Inv(g) && l in g.lobbies
    ensures Sorted(g.lobbies[l].peerIds) && g.lobbies[l].peerIds != []
  {
    assert LobbyWeak(g, l);
  }

  lemma HasAnother(g: Game, l: Id)
    requires Inv(g) && l in g.lobbies && |g.lobbies[l].peerIds| != 1
    ensures exists q :: q in g.lobbies[l].peerIds && q != g.lobbies[l].host
  {
    var ids, host := g.lobbies[l].peerIds, g.lobbies[l].host;
    Roster(g, l);
    SortedRoster(g, l);
    assert ids[0] in ids && ids[1] in ids && ids[0] != ids[1];
  }

  lemma HostHandsOverNotes(g: Game, l: Id, kicked: bool, c: Id)
    requires Inv(g) && l in g.lobbies && !TakesAll(g, l)
    ensures var o, b, p := RemovePeer(g, l, g.lobbies[l].host, kicked), g.lobbies[l], g.lobbies[l].host;
            && l in o.g.lobbies
            && NotesTo(o.outs, c) ==
               if c in g.disconnected then []
               else if c == p then [LobbyLeft]
               else if c in b.peerIds then [PeerLeft(p, false), Hosted(o.g.lobbies[l].host)] else []
  {
    hide NotesTo, Broadcast, Send, Weak, Strong, PeersAfterRemoval, FirstOther;
    Roster(g, l);
    HostHandsOver(g, l, kicked);
    var b, p, off := g.lobbies[l], g.lobbies[l].host, g.disconnected;
    var h := FirstOther(b.peerIds, p);
    ToldNotes(off, b.peerIds, p, PeerLeft(p, false), LobbyLeft, c);
    BroadcastNotes(off, b.peerIds, {p}, Hosted(h), c);
    NotesConcat(Broadcast(off, b.peerIds, {p}, PeerLeft(p, false)) + Send(off, p, LobbyLeft),
                Broadcast(off, b.peerIds, {p}, Hosted(h)), c);
  }

  /** Everybody is out.  The lobby goes, unless it orphans the others. */
  lemma HostTakesAll(g: Game, l: Id, kicked: bool)
    requires Inv(g) && l in g.lobbies && TakesAll(g, l)
    ensures var o, b := RemovePeer(g, l, g.lobbies[l].host, kicked).g, g.lobbies[l];
            && o == g.(peers := o.peers, lobbies := o.lobbies, updated := g.updated + {l})
            && o.peers.Keys == g.peers.Keys
            && (forall q :: q in g.peers ==> o.peers[q] == if q in b.peerIds then Gone(q) else g.peers[q])
            && (g.config.disbandOnLeave || |b.peerIds| == 1 ==> o.lobbies == g.lobbies - {l})
            && (!g.config.disbandOnLeave && |b.peerIds| >= 2 ==>
                  && l in o.lobbies && o.lobbies == g.lobbies[l := o.lobbies[l]]
                  && o.lobbies[l] == b.(peerIds := o.lobbies[l].peerIds, orderedIds := o.lobbies[l].orderedIds)
                  && Lacks(b.peerIds, o.lobbies[l].peerIds, b.host))
  {
    hide RemovalNotes, Weak, Strong, PeersAfterRemoval, FirstOther;
    var p, b := g.lobbies[l].host, g.lobbies[l];
    Roster(g, l);
    SortedRoster(g, l);
    RemovalPeers(g, l, p);
    forall q | q in b.peerIds ensures LeaveLobby(g.peers[q]) == Gone(q) { LeaveIsGone(g, q); }
    WithoutOne(b.peerIds, p);
    RemovalShrinks(b.peerIds, p);
    assert g.lobbies[l := LobbyAfterRemoval(g, b, p)] - {l} == g.lobbies - {l};
  }

  lemma HostTakesAllNotes(g: Game, l: Id, kicked: bool, c: Id)
    requires Inv(g) && l in g.lobbies && TakesAll(g, l)
    ensures NotesTo(RemovePeer(g, l, g.lobbies[l].host, kicked).outs, c) ==
            if c in g.disconnected then []
            else if c == g.lobbies[l].host then [LobbyLeft]
            else if c in g.lobbies[l].peerIds then [LobbyKicked] else []
  {
    hide NotesTo, Broadcast, Send, Weak, Strong, PeersAfterRemoval, LobbiesAfterRemoval;
    Roster(g, l);
    ToldNotes(g.disconnected, g.lobbies[l].peerIds, g.lobbies[l].host, LobbyKicked, LobbyLeft, c);
  }

  // ----- the commands -----

  /** A kick removes its target exactly when a host names another member and the script agrees. */
  lemma KickIff(g: Game, p: Id, target: Id, can: bool)
    requires Inv(g) && p in g.peers
    ensures var o, l := OnKick(g, p, target, can), g.peers[p].lobbyId;
            if l != "" && g.lobbies[l].host == p && target in g.lobbies[l].peerIds && target != p && can then
              && (forall m :: m in o.g.lobbies ==> target !in o.g.lobbies[m].peerIds)
              && o.g.peers == g.peers[target := Gone(target)] && o.g.disconnected == g.disconnected
              && l in o.g.lobbies && o.g.lobbies == g.lobbies[l := o.g.lobbies[l]] && o.g.lobbies[l].host == p
              && Lacks(g.lobbies[l].peerIds, o.g.lobbies[l].peerIds, target)
              && forall c :: NotesTo(o.outs, c) ==
                   if c in g.disconnected then []
                   else if c == target then [LobbyKicked]
                   else if c in g.lobbies[l].peerIds then [PeerLeft(target, true)] else []
            else OnlyRefused(g, o, p)
  {
    hide NotesTo, Send, OnlyRefused, RemovePeer, Weak, Strong, Lacks;
    Self(g, p);
    var l := g.peers[p].lobbyId;
    FailRefuses(g, p, "script");
    FailRefuses(g, p, "ERROR_PEER_NOT_IN_A_LOBBY");
    FailRefuses(g, p, "ERROR_PEER_NOT_HOST");
    FailRefuses(g, p, "ERROR_CANNOT_KICK_SELF");
    if l != "" && g.lobbies[l].host == p && target in g.lobbies[l].peerIds && target != p && can {
      Roster(g, l);
      Self(g, target);
      assert OnKick(g, p, target, can) == RemovePeer(g, l, target, true);
      MemberGoes(g, l, target, true);
      forall c { MemberGoesNotes(g, l, target, true, c); }
    }
  }

  /** A leave takes out the leaver, whoever it is; who goes along or takes over is said above, by the kind of lobby. */
  lemma LeaveEffect(g: Game, p: Id)
    requires Inv(g) && p in g.peers
    ensures var o, l := OnLeave(g, p), g.peers[p].lobbyId;
            if l == "" then OnlyRefused(g, o, p)
            else
              && l in g.lobbies && o == RemovePeer(g, l, p, false) && o.g.peers.Keys == g.peers.Keys
              && o.g.peers[p] == Gone(p) && (forall m :: m in o.g.lobbies ==> p !in o.g.lobbies[m].peerIds)
              && (forall q :: q in g.peers && q !in g.lobbies[l].peerIds ==> o.g.peers[q] == g.peers[q])
              && (p != g.lobbies[l].host || !TakesAll(g, l) ==> o.g.peers == g.peers[p := Gone(p)])
              && (p !in g.disconnected ==> NotesTo(o.outs, p) == [LobbyLeft])
  {
    hide NotesTo, Send, OnlyRefused, RemovePeer, Weak, Strong, Lacks, TakesAll;
    Self(g, p);
    var l := g.peers[p].lobbyId;
    FailRefuses(g, p, "ERROR_PEER_NOT_IN_A_LOBBY");
    if l != "" {
      Roster(g, l);
      Elsewhere2(g, l, p);
      if p != g.lobbies[l].host {
        MemberGoes(g, l, p, false);
        MemberGoesNotes(g, l, p, false, p);
      } else if TakesAll(g, l) {
        HostTakesAll(g, l, false);
        HostTakesAllNotes(g, l, false, p);
        LacksIt(g, l, RemovePeer(g, l, p, false).g);
      } else {
        HostHandsOver(g, l, false);
        HostHandsOverNotes(g, l, false, p);
        LacksIt(g, l, RemovePeer(g, l, p, false).g);
      }
    }
  }

  /** A sweep removes an expired member as a kick does: the others hear that it went, and not by its own will. */
  lemma SweptMember(s: SweepState, p: Id, now: int, limit: int, c: Id)
    requires Inv(s.g) && p in s.g.disconnected && p in s.g.peers && now - s.g.disconnected[p] > limit
    requires s.g.peers[p].lobbyId in s.g.lobbies && s.g.lobbies[s.g.peers[p].lobbyId].host != p
    ensures var t, l := SweepOne(s, p, now, limit), s.g.peers[p].lobbyId;
            && l in s.g.lobbies && t.erased == s.erased + {p} && t.g.peers == s.g.peers[p := Gone(p)]
            && l in t.g.lobbies && Lacks(s.g.lobbies[l].peerIds, t.g.lobbies[l].peerIds, p)
            && NotesTo(t.outs, c) ==
               NotesTo(s.outs, c) +
               if c !in s.g.disconnected && c in s.g.lobbies[l].peerIds then [PeerLeft(p, true)] else []
  {
    hide NotesTo, RemovePeer, Weak, Strong, Lacks;
    Self(s.g, p);
    var l := s.g.peers[p].lobbyId;
    MemberGoes(s.g, l, p, true);
    MemberGoesNotes(s.g, l, p, true, c);
    NotesConcat(s.outs, RemovePeer(s.g, l, p, true).outs, c);
  }

  lemma LacksIt(g: Game, l: Id, h: Game)
    requires Inv(g) && l in g.lobbies
    ensures l in h.lobbies && Lacks(g.lobbies[l].peerIds, h.lobbies[l].peerIds, g.lobbies[l].host) ==>
              g.lobbies[l].host !in h.lobbies[l].peerIds
  {
    Roster(g, l);
  }
}
