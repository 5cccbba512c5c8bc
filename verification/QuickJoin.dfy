/** Where quick join puts a peer, for any iteration order over the lobbies. */
module QuickJoins {
  import opened FlatSets
  import opened AnyTypes
  import opened SharedData
  import opened GameState
  import opened Handlers
  import opened Membership
  import opened Invariants

  /** The lobbies that pass the filter, in the order they are tried. */
  function Eligibles(g: Game, order: seq<Id>, tags: Dict): seq<Id>
  {
    if order == [] then []
    else (if order[0] in g.lobbies && Eligible(g, order[0], tags) then [order[0]] else []) +
         Eligibles(g, order[1..], tags)
  }

  datatype Choice = Nobody | Chosen(l: Id)

  /** The first lobby that does not refuse: the password of the command must be empty, the script must agree. */
  function FirstWilling(lobbies: seq<Id>, password: string, cans: seq<bool>): Choice
  {
    if lobbies == [] || password != "" then Nobody
    else if Verdict(cans) then Chosen(lobbies[0])
    else FirstWilling(lobbies[1..], password, Later(cans))
  }

  lemma {:induction false} FirstWillingIn(lobbies: seq<Id>, password: string, cans: seq<bool>)
    ensures FirstWilling(lobbies, password, cans).Chosen? ==> FirstWilling(lobbies, password, cans).l in lobbies
  {
    if lobbies != [] && password == "" && !Verdict(cans) { FirstWillingIn(lobbies[1..], password, Later(cans)); }
  }

  lemma {:induction false} EligiblesIn(g: Game, order: seq<Id>, tags: Dict)
    ensures forall l :: l in Eligibles(g, order, tags) <==> l in order && l in g.lobbies && Eligible(g, l, tags)
  {
    hide Eligible;
    if order != [] {
      EligiblesIn(g, order[1..], tags);
      assert order == [order[0]] + order[1..];
    }
  }

  /** An attempt at an eligible lobby succeeds exactly when password and script allow it. */
  lemma AttemptIff(g: Game, p: Id, l: Id, tags: Dict, password: string, can: bool)
    requires p in g.peers && g.peers[p].lobbyId == "" && l in g.lobbies && l != "" && Eligible(g, l, tags)
    ensures var o := OnJoin(g, p, l, password, can);
            && (o.joined <==> password == "" && can)
            && (if o.joined then o == Enter(g, p, l) else o.g == g)
  {
    hide Rejoin, ContainsTags, Broadcast, SortByOrder, PeersArray, Insert, Touch;
  }

  // ----- the host entries looked up on the way -----

  /** Trying a lobby looks its host up, unless the cheaper conditions fail. */
  function HostsOf(g: Game, order: seq<Id>): seq<Id>
  {
    if order == [] then []
    else
      var l := order[0];
      (if l in g.lobbies && HasRoom(g.lobbies[l]) && g.lobbies[l].host != "" then [g.lobbies[l].host] else []) +
      HostsOf(g, order[1..])
  }

  /** The state after the lobbies of `order` were considered: hosts that were missing have an entry. */
  function Visited(g: Game, order: seq<Id>): (h: Game)
    ensures g.peers.Keys <= h.peers.Keys && forall q :: q in g.peers ==> h.peers[q] == g.peers[q]
  {
    g.(peers := Touch(g.peers, HostsOf(g, order)))
  }

  /** The lobbies of `order` up to and with `l`. */
  function UpTo(order: seq<Id>, l: Id): seq<Id>
  {
    if order == [] then []
    else if order[0] == l then [l]
    else [order[0]] + UpTo(order[1..], l)
  }

  /** Considering a lobby does not change what is eligible, or whose hosts are looked up. */
  lemma {:induction false} ConsideredSame(g: Game, l: Id, order: seq<Id>, tags: Dict)
    requires l in g.lobbies
    ensures var h := Considered(g, l);
            Eligibles(h, order, tags) == Eligibles(g, order, tags) && HostsOf(h, order) == HostsOf(g, order)
  {
    hide ContainsTags, HasRoom;
    if order != [] { ConsideredSame(g, l, order[1..], tags); }
  }

  lemma VisitedNone(g: Game)
    ensures Visited(g, []) == g
  {
    assert Touch(g.peers, []) == g.peers;
  }

  lemma VisitedNext(g: Game, order: seq<Id>, rest: seq<Id>)
    requires order != []
    ensures var l := order[0];
            Visited(g, [l] + rest) == Visited(if l in g.lobbies then Considered(g, l) else g, rest)
  {
    var l := order[0];
    assert ([l] + rest)[1..] == rest;
    if l in g.lobbies {
      ConsideredSame(g, l, rest, map[]);
      if HasRoom(g.lobbies[l]) && g.lobbies[l].host != "" { TouchTwice(g.peers, [g.lobbies[l].host], HostsOf(g, rest)); }
    }
    assert [] + HostsOf(g, rest) == HostsOf(g, rest);
  }

  // ----- the loop, in any game -----

  /** What the loop over `order` comes to from `g`. */
  ghost predicate Exact(g: Game, p: Id, a: CreateArgs, order: seq<Id>, cans: seq<bool>, o: JoinOutcome)
    requires p in g.peers
  {
    match FirstWilling(Eligibles(g, order, a.tags), a.password, cans)
    case Nobody => !o.joined && o.g == Visited(g, order)
    case Chosen(l) => l in g.lobbies && o.joined && o.g == Enter(Visited(g, UpTo(order, l)), p, l).g
  }

  lemma {:induction false} TryJoinsExact(g: Game, p: Id, a: CreateArgs, order: seq<Id>, cans: seq<bool>)
    requires p in g.peers && g.peers[p].lobbyId == "" && "" !in g.lobbies && NoDup(order)
    ensures Exact(g, p, a, order, cans, TryJoins(g, p, a, order, cans))
    decreases order
  {
    hide Eligible, OnJoin, Considered, Exact, Eligibles, NoDup;
    if order == [] {
      LoopEnds(g, p, a, cans);
    } else {
      var l, rest := order[0], order[1..];
      Rest(order);
      if l !in g.lobbies {
        TryJoinsExact(g, p, a, rest, cans);
        HeadSkipped(g, p, a, order, cans, TryJoins(g, p, a, rest, cans));
      } else {
        var h := Considered(g, l);
        ConsideredFrame(g, l, p);
        if !Eligible(g, l, a.tags) {
          TryJoinsExact(h, p, a, rest, cans);
          HeadSkipped(g, p, a, order, cans, TryJoins(h, p, a, rest, cans));
        } else {
          EligibleStill(g, l, a.tags);
          AttemptIff(h, p, l, a.tags, a.password, Verdict(cans));
          TryJoinsExact(h, p, a, rest, Later(cans));
          HeadTried(g, p, a, order, cans, OnJoin(h, p, l, a.password, Verdict(cans)), TryJoins(h, p, a, rest, Later(cans)));
        }
      }
    }
  }

  lemma Rest(order: seq<Id>)
    requires NoDup(order) && order != []
    ensures NoDup(order[1..]) && order[0] !in order[1..]
  {
  }

  lemma LoopEnds(g: Game, p: Id, a: CreateArgs, cans: seq<bool>)
    requires p in g.peers
    ensures Exact(g, p, a, [], cans, JoinOutcome(false, g, []))
  {
    VisitedNone(g);
  }

  lemma HeadSkipped(g: Game, p: Id, a: CreateArgs, order: seq<Id>, cans: seq<bool>, o: JoinOutcome)
    requires p in g.peers && order != [] && (order[0] in g.lobbies ==> !Eligible(g, order[0], a.tags))
    requires var h := if order[0] in g.lobbies then Considered(g, order[0]) else g;
             p in h.peers && Exact(h, p, a, order[1..], cans, o)
    ensures Exact(g, p, a, order, cans, o)
  {
    hide Eligible, Enter, Visited, Considered, FirstWilling;
    var l, rest := order[0], order[1..];
    assert [] + Eligibles(g, rest, a.tags) == Eligibles(g, rest, a.tags) && [l] + rest == order;
    VisitedNext(g, order, rest);
    if l in g.lobbies { ConsideredSame(g, l, rest, a.tags); ConsideredFrame(g, l, p); }
    var choice := FirstWilling(Eligibles(g, order, a.tags), a.password, cans);
    if choice.Chosen? {
      FirstWillingIn(Eligibles(g, order, a.tags), a.password, cans);
      EligiblesIn(g, order, a.tags);
      VisitedNext(g, order, UpTo(rest, choice.l));
    }
  }

  lemma HeadTried(
    g: Game, p: Id, a: CreateArgs, order: seq<Id>, cans: seq<bool>, first: JoinOutcome, later: JoinOutcome)
    requires p in g.peers && order != [] && order[0] in g.lobbies && Eligible(g, order[0], a.tags)
    requires order[0] !in order[1..]
    requires var h := Considered(g, order[0]);
             && p in h.peers && h.lobbies == g.lobbies
             && (first.joined <==> a.password == "" && Verdict(cans))
             && (first.joined ==> first == Enter(h, p, order[0]))
             && Exact(h, p, a, order[1..], Later(cans), later)
    ensures Exact(g, p, a, order, cans, if first.joined then first
                                        else JoinOutcome(later.joined, later.g, first.outs + later.outs))
  {
    hide Eligible, Enter, Visited, Considered;
    var l, rest := order[0], order[1..];
    var e := Eligibles(g, rest, a.tags);
    assert ([l] + e)[1..] == e && [l] + rest == order;
    VisitedNext(g, order, rest);
    VisitedOne(g, l);
    ConsideredSame(g, l, rest, a.tags);
    var choice := FirstWilling(e, a.password, Later(cans));
    if !first.joined && choice.Chosen? {
      FirstWillingIn(e, a.password, Later(cans));
      EligiblesIn(g, rest, a.tags);
      VisitedNext(g, order, UpTo(rest, choice.l));
    }
  }
  lemma VisitedOne(g: Game, l: Id)
    requires l in g.lobbies
    ensures Visited(g, [l]) == Considered(g, l)
  {
    VisitedNext(g, [l], []);
    VisitedNone(Considered(g, l));
    assert [l] + [] == [l];
  }

  lemma ConsideredFrame(g: Game, l: Id, p: Id)
    requires l in g.lobbies && p in g.peers
    ensures var h := Considered(g, l); h == g.(peers := h.peers) && p in h.peers && h.peers[p] == g.peers[p]
  {
  }

  lemma EligibleStill(g: Game, l: Id, tags: Dict)
    requires l in g.lobbies
    ensures Considered(g, l).lobbies == g.lobbies && (Eligible(Considered(g, l), l, tags) <==> Eligible(g, l, tags))
  {
    hide ContainsTags;
  }

  /**
   In any game, orphaned lobbies and made-up entries or not: a peer in no lobby enters the first eligible lobby that
   does not refuse, as the look-ups of hosts so far have left the game, and creates one only if all refuse.
   */
  lemma QuickJoinAnywhere(
    g: Game, p: Id, wanted: Id, a: CreateArgs, order: seq<Id>, cans: seq<bool>, can: bool)
    requires p in g.peers && g.peers[p].lobbyId == "" && "" !in g.lobbies && NoDup(order)
    ensures var g' := OnQuickJoin(g, p, wanted, a, order, cans, can).g;
            match FirstWilling(Eligibles(g, order, a.tags), a.password, cans)
            case Chosen(l) =>
              && l in order && l in g.lobbies && Eligible(g, l, a.tags)
              && g' == Enter(Visited(g, UpTo(order, l)), p, l).g
            case Nobody => g' == OnCreate(Visited(g, order), p, a, can).g
  {
    hide Eligible, OnJoin, Enter, OnCreate, TryJoins, Visited, UpTo, NoDup;
    TryJoinsExact(g, p, a, order, cans);
    FirstWillingIn(Eligibles(g, order, a.tags), a.password, cans);
    EligiblesIn(g, order, a.tags);
  }

  /** Where every lobby knows its host, nothing is made up on the way. */
  lemma {:induction false} HostsKnown(g: Game, order: seq<Id>)
    requires Inv(g)
    ensures forall q :: q in HostsOf(g, order) ==> q in g.peers
  {
    hide Weak;
    if order != [] {
      HostsKnown(g, order[1..]);
      if order[0] in g.lobbies { assert LobbyStrong(g, order[0]); }
    }
  }

  lemma NoEmptyLobbyId(g: Game, l: Id)
    requires Weak(g) && l in g.lobbies
    ensures l != ""
  {
    assert LobbyWeak(g, l);
  }

  /** Where nobody was orphaned: the state after quick join, by the first willing of the eligible lobbies. */
  lemma QuickJoinState(
    g: Game, p: Id, wanted: Id, a: CreateArgs, order: seq<Id>, cans: seq<bool>, can: bool)
    requires Inv(g) && p in g.peers && g.peers[p].lobbyId == "" && a.id != "" && a.id !in g.lobbies
    requires Enumerates(order, g.lobbies.Keys)
    ensures var g' := OnQuickJoin(g, p, wanted, a, order, cans, can).g;
            match FirstWilling(Eligibles(g, order, a.tags), a.password, cans)
            case Chosen(l) =>
              && l in g.lobbies && Eligible(g, l, a.tags)
              && g'.lobbies == g.lobbies[l := WithMember(g.lobbies[l], p)]
              && g'.peers == g.peers[p := Entered(g.peers[p], g.lobbies[l])]
            case Nobody =>
              if a.maxPlayers >= 1 && can then
                && g'.lobbies == g.lobbies[a.id := NewLobby(a, p)]
                && g'.peers == g.peers[p := g.peers[p].(lobbyId := a.id, disconnected := false)]
              else
                && g'.lobbies == g.lobbies
                && (g'.peers == g.peers || g'.peers == g.peers[p := LeaveLobby(g.peers[p])])
    ensures forall l :: l in g.lobbies && Eligible(g, l, a.tags) <==> l in Eligibles(g, order, a.tags)
  {
    hide Weak, Strong, Eligible, Enter, OnQuickJoin, OnCreate, FirstWilling, Eligibles, UpTo;
    if "" in g.lobbies { NoEmptyLobbyId(g, ""); }
    QuickJoinAnywhere(g, p, wanted, a, order, cans, can);
    EligiblesIn(g, order, a.tags);
    assert forall l :: l in g.lobbies ==> l in order;
    match FirstWilling(Eligibles(g, order, a.tags), a.password, cans)
    case Chosen(l) =>
      HostsKnown(g, UpTo(order, l));
      TouchHits(g.peers, HostsOf(g, UpTo(order, l)));
      EntryState(g, p, l);
    case Nobody =>
      HostsKnown(g, order);
      TouchHits(g.peers, HostsOf(g, order));
      CreateEffect(g, p, a, can);
  }

  lemma EntryState(g: Game, p: Id, l: Id)
    requires Inv(g) && p in g.peers && g.peers[p].lobbyId == "" && l in g.lobbies
    ensures var g' := Enter(g, p, l).g;
            && g'.lobbies == g.lobbies[l := WithMember(g.lobbies[l], p)]
            && g'.peers == g.peers[p := Entered(g.peers[p], g.lobbies[l])]
  {
    hide Enter, WithMember, Entered, JoinOrder;
    assert LobbyWeak(g, l) && LobbyStrong(g, l) && PeerStrong(g, p);
    EnterState(g, p, l);
  }

  lemma CreateEffect(g: Game, p: Id, a: CreateArgs, can: bool)
    requires Inv(g) && p in g.peers && g.peers[p].lobbyId == "" && a.id !in g.lobbies
    ensures var g' := OnCreate(g, p, a, can).g;
            if a.maxPlayers >= 1 && can then
              && g'.lobbies == g.lobbies[a.id := NewLobby(a, p)]
              && g'.peers == g.peers[p := g.peers[p].(lobbyId := a.id, disconnected := false)]
            else
              && g'.lobbies == g.lobbies
              && (g'.peers == g.peers || g'.peers == g.peers[p := LeaveLobby(g.peers[p])])
  {
    hide Weak;
    assert PeerStrong(g, p);
    TouchHits(g.peers[p := g.peers[p].(lobbyId := a.id, disconnected := false)], [p]);
  }

  // ----- the outcome in the fields of the game -----

  /** What quick join looks for: open to all, with a place free, a host that is not away, and every requested tag. */
  predicate Suits(g: Game, l: Id, tags: Dict)
    requires l in g.lobbies
  {
    var b := g.lobbies[l];
    && !b.sealed && b.password == ""
    && |b.peerIds| < (if b.maxPlayers < 0 then b.maxPlayers + 0x1_0000_0000_0000_0000 else b.maxPlayers)
    && (b.host == "" || b.host !in g.peers || !g.peers[b.host].disconnected)
    && forall k :: k in tags ==> k in b.tags && Eq(b.tags[k], tags[k])
  }

  lemma EligibleIsSuits(g: Game, l: Id, tags: Dict)
    requires l in g.lobbies
    ensures Eligible(g, l, tags) <==> Suits(g, l, tags)
  {
  }

  /** How many lobbies are tried before the `i`-th one of the order. */
  function Tried(g: Game, order: seq<Id>, i: nat, tags: Dict): nat
    requires i <= |order| && forall l :: l in order ==> l in g.lobbies
  {
    if i == 0 then 0 else Tried(g, order, i - 1, tags) + if Suits(g, order[i - 1], tags) then 1 else 0
  }

  /** The script's answer to the `k`-th attempt. */
  predicate Says(cans: seq<bool>, k: nat)
  {
    k >= |cans| || cans[k]
  }

  /** The `i`-th lobby of the order does not suit, or the command's password or the script keeps the peer out of it. */
  predicate TurnsAway(g: Game, order: seq<Id>, i: nat, a: CreateArgs, cans: seq<bool>)
    requires i < |order| && forall l :: l in order ==> l in g.lobbies
  {
    !Suits(g, order[i], a.tags) || a.password != "" || !Says(cans, Tried(g, order, i, a.tags))
  }

  lemma {:induction false} EligiblesUpTo(g: Game, order: seq<Id>, i: nat, tags: Dict)
    requires i <= |order| && forall l :: l in order ==> l in g.lobbies
    ensures |Eligibles(g, order[..i], tags)| == Tried(g, order, i, tags)
  {
    hide Eligible, Suits;
    if i == 0 {
      assert order[..0] == [];
    } else {
      EligiblesUpTo(g, order, i - 1, tags);
      EligiblesConcat(g, order[..i - 1], [order[i - 1]], tags);
      assert order[..i] == order[..i - 1] + [order[i - 1]];
      assert [order[i - 1]][1..] == [];
      EligibleIsSuits(g, order[i - 1], tags);
    }
  }

  lemma EligiblesFirst(g: Game, order: seq<Id>, tags: Dict)
    requires order != []
    ensures Eligibles(g, order, tags) == Eligibles(g, [order[0]], tags) + Eligibles(g, order[1..], tags)
  {
    hide Eligible;
    assert [order[0]][1..] == [] && Eligibles(g, [], tags) == [];
  }

  lemma {:induction false} EligiblesConcat(g: Game, a: seq<Id>, b: seq<Id>, tags: Dict)
    ensures Eligibles(g, a + b, tags) == Eligibles(g, a, tags) + Eligibles(g, b, tags)
  {
    hide Eligibles;
    if a == [] {
      NoneEligible(g, tags);
      assert a + b == b;
    } else {
      var rest := a[1..];
      EligiblesConcat(g, rest, b, tags);
      TailOf(a, b);
      EligiblesFirst(g, a + b, tags);
      EligiblesFirst(g, a, tags);
      Regroup(Eligibles(g, [a[0]], tags), Eligibles(g, rest, tags), Eligibles(g, b, tags));
    }
  }

  lemma NoneEligible(g: Game, tags: Dict)
    ensures Eligibles(g, [], tags) == []
  {
  }

  lemma TailOf(a: seq<Id>, b: seq<Id>)
    requires a != []
    ensures (a + b)[1..] == a[1..] + b && (a + b)[0] == a[0]
  {
  }

  lemma Regroup(x: seq<Id>, y: seq<Id>, z: seq<Id>)
    ensures x + (y + z) == (x + y) + z
  {
  }

  /** The `i`-th lobby of the order, if it suits, is tried after exactly those that suit before it. */
  lemma PlaceOf(g: Game, order: seq<Id>, i: nat, tags: Dict)
    requires i < |order| && (forall l :: l in order ==> l in g.lobbies) && Suits(g, order[i], tags)
    ensures var e, k := Eligibles(g, order, tags), Tried(g, order, i, tags); k < |e| && e[k] == order[i]
  {
    hide Eligible, Suits;
    EligiblesUpTo(g, order, i, tags);
    assert order == order[..i] + ([order[i]] + order[i + 1..]);
    EligiblesConcat(g, order[..i], [order[i]] + order[i + 1..], tags);
    EligibleIsSuits(g, order[i], tags);
    assert ([order[i]] + order[i + 1..])[0] == order[i];
  }

  lemma {:induction false} FirstWillingSpelled(lobbies: seq<Id>, password: string, cans: seq<bool>)
    ensures match FirstWilling(lobbies, password, cans)
            case Nobody => password != "" || forall k :: 0 <= k < |lobbies| ==> !Says(cans, k)
            case Chosen(l) =>
              password == "" && exists k :: 0 <= k < |lobbies| && lobbies[k] == l && Says(cans, k) &&
                                            forall j :: 0 <= j < k ==> !Says(cans, j)
  {
    if lobbies != [] && password == "" {
      if Verdict(cans) {
        assert Says(cans, 0) && lobbies[0] == lobbies[0];
      } else {
        FirstWillingSpelled(lobbies[1..], password, Later(cans));
        forall k: nat ensures Says(Later(cans), k) == Says(cans, k + 1) {}
        match FirstWilling(lobbies[1..], password, Later(cans))
        case Nobody =>
          forall k | 0 <= k < |lobbies| ensures !Says(cans, k) {
            if k > 0 { assert !Says(Later(cans), k - 1); }
          }
        case Chosen(l) =>
          var k :| 0 <= k < |lobbies[1..]| && lobbies[1..][k] == l && Says(Later(cans), k) &&
                   forall j :: 0 <= j < k ==> !Says(Later(cans), j);
          forall j | 0 <= j < k + 1 ensures !Says(cans, j) {
            if j > 0 { assert !Says(Later(cans), j - 1); }
          }
          assert lobbies[k + 1] == l && Says(cans, k + 1);
      }
    }
  }

  lemma {:induction false} EligiblesOnce(g: Game, order: seq<Id>, tags: Dict)
    requires NoDup(order)
    ensures NoDup(Eligibles(g, order, tags))
  {
    hide Eligible, NoDup;
    if order != [] {
      Rest(order);
      EligiblesOnce(g, order[1..], tags);
      EligiblesIn(g, order[1..], tags);
      Once(order[0], Eligibles(g, order[1..], tags));
      assert [] + Eligibles(g, order[1..], tags) == Eligibles(g, order[1..], tags);
    }
  }

  lemma Once(x: Id, s: seq<Id>)
    requires NoDup(s)
    ensures x !in s ==> NoDup([x] + s)
  {
  }

  /** The choice, told by places in the order. */
  lemma ChoiceSpelled(g: Game, order: seq<Id>, a: CreateArgs, cans: seq<bool>)
    requires NoDup(order) && forall l :: l in order ==> l in g.lobbies
    ensures match FirstWilling(Eligibles(g, order, a.tags), a.password, cans)
            case Nobody => forall i :: 0 <= i < |order| ==> TurnsAway(g, order, i, a, cans)
            case Chosen(l) => exists i :: 0 <= i < |order| && order[i] == l && !TurnsAway(g, order, i, a, cans) &&
                                          forall j :: 0 <= j < i ==> TurnsAway(g, order, j, a, cans)
  {
    hide Eligible, Suits, FirstWilling, Eligibles, NoDup, Says;
    var e := Eligibles(g, order, a.tags);
    FirstWillingSpelled(e, a.password, cans);
    EligiblesIn(g, order, a.tags);
    match FirstWilling(e, a.password, cans)
    case Nobody =>
      forall i | 0 <= i < |order| ensures TurnsAway(g, order, i, a, cans) {
        if Suits(g, order[i], a.tags) { PlaceOf(g, order, i, a.tags); }
      }
    case Chosen(l) =>
      var k :| 0 <= k < |e| && e[k] == l && Says(cans, k) && forall j :: 0 <= j < k ==> !Says(cans, j);
      assert l in e;
      var i :| 0 <= i < |order| && order[i] == l;
      EligibleIsSuits(g, l, a.tags);
      PlaceOf(g, order, i, a.tags);
      EligiblesOnce(g, order, a.tags);
      SamePlace(e, k, Tried(g, order, i, a.tags));
      forall j | 0 <= j < i ensures TurnsAway(g, order, j, a, cans) {
        if Suits(g, order[j], a.tags) { TriedGrows(g, order, j, i, a.tags); }
      }
  }

  lemma SamePlace(s: seq<Id>, i: nat, j: nat)
    requires NoDup(s) && i < |s| && j < |s| && s[i] == s[j]
    ensures i == j
  {
  }

  lemma {:induction false} TriedGrows(g: Game, order: seq<Id>, j: nat, i: nat, tags: Dict)
    requires j < i <= |order| && (forall l :: l in order ==> l in g.lobbies) && Suits(g, order[j], tags)
    ensures Tried(g, order, j, tags) < Tried(g, order, i, tags)
  {
    hide Suits;
    if j < i - 1 { TriedGrows(g, order, j, i - 1, tags); }
  }

  /**
   A peer in no lobby enters the first lobby of the order that suits and does not turn it away; if all do, it creates one,
   if the command and the script allow that.  Nobody else moves.
   */
  lemma QuickJoinOutcome(
    g: Game, p: Id, wanted: Id, a: CreateArgs, order: seq<Id>, cans: seq<bool>, can: bool)
    requires Inv(g) && p in g.peers && g.peers[p].lobbyId == "" && a.id != "" && a.id !in g.lobbies
    requires Enumerates(order, g.lobbies.Keys)
    ensures var g' := OnQuickJoin(g, p, wanted, a, order, cans, can).g;
            && (forall l :: l in order ==> l in g.lobbies) && p in g'.peers && g'.peers.Keys == g.peers.Keys
            && (forall q :: q in g.peers && q != p ==> g'.peers[q] == g.peers[q])
            && if exists i :: 0 <= i < |order| && !TurnsAway(g, order, i, a, cans) then
                 exists i :: 0 <= i < |order| && !TurnsAway(g, order, i, a, cans) &&
                   (forall j :: 0 <= j < i ==> TurnsAway(g, order, j, a, cans)) && Placed(g, g', p, order[i])
               else if a.maxPlayers >= 1 && can then
                 && g'.peers[p].lobbyId == a.id && g'.lobbies.Keys == g.lobbies.Keys + {a.id}
                 && (forall m :: m in g.lobbies ==> g'.lobbies[m] == g.lobbies[m])
                 && g'.lobbies[a.id].host == p && g'.lobbies[a.id].peerIds == [p]
               else
                 g'.lobbies == g.lobbies && g'.peers[p].lobbyId == ""
  {
    hide Weak, Strong, Eligible, OnQuickJoin, FirstWilling, Eligibles, TurnsAway, NoDup, Placed;
    assert forall l :: l in order ==> l in g.lobbies;
    QuickJoinState(g, p, wanted, a, order, cans, can);
    ChoiceSpelled(g, order, a, cans);
    var g' := OnQuickJoin(g, p, wanted, a, order, cans, can).g;
    match FirstWilling(Eligibles(g, order, a.tags), a.password, cans)
    case Chosen(l) => WithMemberPlaced(g, g', p, l);
    case Nobody =>
  }

  /** `p` is in `l` now, and nowhere else, and no other lobby changed. */
  ghost predicate Placed(g: Game, g': Game, p: Id, l: Id)
  {
    && p in g'.peers && g'.peers[p].lobbyId == l && l in g.lobbies && g'.lobbies.Keys == g.lobbies.Keys
    && (forall m :: m in g.lobbies && m != l ==> g'.lobbies[m] == g.lobbies[m] && p !in g'.lobbies[m].peerIds)
    && (forall x :: x in g'.lobbies[l].peerIds <==> x in g.lobbies[l].peerIds || x == p)
    && g'.lobbies[l].host == g.lobbies[l].host && g'.lobbies[l].orderedIds == g.lobbies[l].orderedIds + [p]
  }

  lemma WithMemberPlaced(g: Game, g': Game, p: Id, l: Id)
    requires Inv(g) && p in g.peers && g.peers[p].lobbyId == "" && l in g.lobbies
    requires g'.lobbies == g.lobbies[l := WithMember(g.lobbies[l], p)]
    requires g'.peers == g.peers[p := Entered(g.peers[p], g.lobbies[l])]
    ensures Placed(g, g', p, l)
  {
    hide Insert, Weak, Strong;
    InsertElements(g.lobbies[l].peerIds, p);
    NamedById(g, l);
    NowhereYet(g, p);
  }

  lemma NamedById(g: Game, l: Id)
    requires Weak(g) && l in g.lobbies
    ensures g.lobbies[l].id == l
  {
    assert LobbyWeak(g, l);
  }

  lemma NowhereYet(g: Game, p: Id)
    requires Inv(g) && p in g.peers && g.peers[p].lobbyId == ""
    ensures forall m :: m in g.lobbies ==> p !in g.lobbies[m].peerIds
  {
    forall m | m in g.lobbies ensures p !in g.lobbies[m].peerIds { assert LobbyStrong(g, m) && LobbyWeak(g, m); }
  }
}
