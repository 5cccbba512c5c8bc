/** Runs of the socket side, and what its two maps and its event stream guarantee. */
module Reconnection {
  import opened FlatSets
  import opened RateLimiter
  import opened Sockets

  /** What can happen on the socket thread; `Push` and `Clear` are the deferred calls of the game thread. */
  datatype SocketStep =
    | Open(d: Hello)
    | Receive(h: Handle, text: string, now: int, max: nat, room: bool)
    | Drop(h: Handle)
    | Push(p: Id)
    | Clear(ids: seq<Id>)

  ghost predicate Ready(s: Server, t: SocketStep)
  {
    match t
    case Open(d) => Newcomer(s, d)
    case Receive(h, _, _, _, _) => h in s.sockets && s.sockets[h].open
    case Drop(h) => h in s.sockets && s.sockets[h].open
    case _ => true
  }

  ghost function Do(s: Server, t: SocketStep): Server
    requires Ready(s, t)
  {
    match t
    case Open(d) => OnOpen(s, d)
    case Receive(h, text, now, max, room) => OnMessage(s, h, text, now, max, room)
    case Drop(h) => OnClose(s, h)
    case Push(p) => SendClose(s, p)
    case Clear(ids) => ClearUsers(s, ids)
  }

  lemma DoKeeps(s: Server, t: SocketStep)
    requires Ok(s) && Ready(s, t)
    ensures Ok(Do(s, t))
  {
    hide OkBut;
    match t
    case Open(d) => OpenKeeps(s, d);
    case Receive(h, text, now, max, room) => MessageKeeps(s, h, text, now, max, room);
    case Drop(h) => CloseKeeps(s, {}, h);
    case Push(p) => SendCloseKeeps(s, {}, p);
    case Clear(ids) => ClearKeeps(s, ids);
  }

  ghost predicate Legal(steps: seq<SocketStep>)
    decreases |steps|, 0
  {
    steps == [] || (Legal(steps[..|steps| - 1]) && Ready(After(steps[..|steps| - 1]), steps[|steps| - 1]))
  }

  ghost function After(steps: seq<SocketStep>): Server
    requires Legal(steps)
    decreases |steps|, 1
  {
    if steps == [] then START else Do(After(steps[..|steps| - 1]), steps[|steps| - 1])
  }

  lemma {:induction false} EveryRunOk(steps: seq<SocketStep>)
    requires Legal(steps)
    ensures Ok(After(steps))
  {
    if steps != [] {
      EveryRunOk(steps[..|steps| - 1]);
      DoKeeps(After(steps[..|steps| - 1]), steps[|steps| - 1]);
    }
  }

  // ----- sockets and entries -----

  /** In every run: an open socket is the one its peer's entry holds, and no peer has two. */
  lemma OneSocketEach(steps: seq<SocketStep>, h: Handle, g: Handle)
    requires Legal(steps)
    requires var s := After(steps);
             h in s.sockets && g in s.sockets && s.sockets[h].open && s.sockets[g].open
    ensures var s := After(steps);
            && s.sockets[h].id in s.conns && s.conns[s.sockets[h].id].ws == Live(h)
            && (s.sockets[h].id == s.sockets[g].id ==> h == g)
  {
    EveryRunOk(steps);
    assert SocketOk(After(steps), h) && SocketOk(After(steps), g);
  }

  /** In every run: the socket an entry holds is open, and its id, game and token are the entry's. */
  lemma EntryHoldsOpenSocket(steps: seq<SocketStep>, p: Id)
    requires Legal(steps) && p in After(steps).conns && After(steps).conns[p].ws.Live?
    ensures var s := After(steps);
            var c := s.conns[p];
            && c.ws.h in s.sockets && s.sockets[c.ws.h].open
            && s.sockets[c.ws.h].id == p && s.sockets[c.ws.h].game == c.game && s.sockets[c.ws.h].token == c.token
  {
    EveryRunOk(steps);
    assert ConnOk(After(steps), p);
  }

  /** Whatever socket closes, an entry that holds another one is left alone. */
  lemma StaleCloseKeepsNewer(s: Server, h: Handle, p: Id)
    requires h in s.sockets && p in s.conns && s.conns[p].ws != Live(h)
    ensures p in OnClose(s, h).conns && OnClose(s, h).conns[p] == s.conns[p]
  {
  }

  // ----- the event stream -----

  /** The peer has an open socket exactly when its queued events end in an unclosed OPEN. */
  lemma UpIffOpenSocket(s: Server, p: Id)
    requires Ok(s)
    ensures PhaseOf(s.events, p).Up? <==> exists h :: h in s.sockets && s.sockets[h].open && s.sockets[h].id == p
  {
    assert PhaseOk(s, p);
    if PhaseOf(s.events, p).Up? {
      assert ConnOk(s, p);
      assert s.sockets[s.conns[p].ws.h].id == p;
    }
    if h :| h in s.sockets && s.sockets[h].open && s.sockets[h].id == p {
      assert SocketOk(s, h);
    }
  }

  /** In every run and for every id the queued events are a prefix of (OPEN MESSAGE* CLOSE)*, or a lone CLOSE. */
  lemma StreamShape(steps: seq<SocketStep>, p: Id)
    requires Legal(steps)
    ensures !PhaseOf(After(steps).events, p).Broken?
  {
    EveryRunOk(steps);
    assert PhaseOk(After(steps), p);
  }

  lemma {:induction false} BrokenForGood(events: seq<Event>, more: seq<Event>, p: Id)
    requires PhaseOf(events, p).Broken?
    ensures PhaseOf(events + more, p).Broken?
  {
    if more == [] {
      assert events + more == events;
    } else {
      var k := |more| - 1;
      BrokenForGood(events, more[..k], p);
      assert (events + more)[..|events + more| - 1] == events + more[..k];
    }
  }

  predicate Played(ph: Phase, g: Id)
  {
    ph == Up(g) || ph == Down(g)
  }

  /** A peer id never changes game. */
  lemma {:induction false} GameForGood(events: seq<Event>, more: seq<Event>, p: Id, g: Id)
    requires Played(PhaseOf(events, p), g) && !PhaseOf(events + more, p).Broken?
    ensures Played(PhaseOf(events + more, p), g)
  {
    if more == [] {
      assert events + more == events;
    } else {
      var k := |more| - 1;
      assert (events + more)[..|events + more| - 1] == events + more[..k];
      GameForGood(events, more[..k], p, g);
    }
  }

  // ----- the reconnection index -----

  /** In every run: the index is always found in the connections, under the key the entry was built from. */
  lemma IndexAlwaysHits(steps: seq<SocketStep>, k: string)
    requires Legal(steps) && k in After(steps).recons
    ensures var s := After(steps);
            s.recons[k].peer in s.conns && KeyOf(s.conns[s.recons[k].peer]) == k
  {
    EveryRunOk(steps);
    IndexHits(After(steps), k);
  }

  /** Two keys never name one peer. */
  lemma OneKeyEach(steps: seq<SocketStep>, j: string, k: string)
    requires Legal(steps) && j in After(steps).recons && k in After(steps).recons
    requires After(steps).recons[j].peer == After(steps).recons[k].peer
    ensures j == k
  {
    IndexAlwaysHits(steps, j);
    IndexAlwaysHits(steps, k);
  }

  /** The peer can come back with its token. */
  predicate Indexed(s: Server, p: Id)
  {
    p in s.conns && KeyOf(s.conns[p]) in s.recons && s.recons[KeyOf(s.conns[p])].peer == p
  }

  /** Clearing `p` takes the way back from another peer exactly when the two share a key that names the other. */
  lemma ClearStrandsIff(s: Server, p: Id, q: Id)
    requires Ok(s) && Indexed(s, q) && q != p
    ensures !Indexed(ClearUser(s, p), q) <==> p in s.conns && KeyOf(s.conns[p]) == KeyOf(s.conns[q])
  {
    SendCloseKeeps(s, {}, p);
  }

  ghost predicate AllIndexed(s: Server)
  {
    forall p :: p in s.conns ==> Indexed(s, p)
  }

  /** Named users arrive with the token they will be given; a made-up token is new. */
  predicate Tokened(s: Server, d: Hello)
  {
    && (d.platform != "anon" ==> d.token == d.platform + ":" + d.platformId)
    && (TokenOf(d) != d.token || d.token == "" ==> Key(d.game, TokenOf(d)) !in s.recons)
  }

  /** The socket comes with an indexed token that is too old. */
  predicate Expires(s: Server, d: Hello)
  {
    && d.token != "" && Key(d.game, d.token) in s.recons
    && s.recons[Key(d.game, d.token)].stamp < d.now - MAX_RECONNECTION_TIME
  }

  /**
   While every entry is indexed nobody can be stranded, and an arriving socket keeps it so exactly when it does not
   present an expired token: that branch drops the index of a peer whose entry, and maybe socket, lives on.
   */
  lemma OpenKeepsIndexedIff(s: Server, d: Hello)
    requires Ok(s) && Newcomer(s, d) && Tokened(s, d) && AllIndexed(s)
    ensures AllIndexed(OnOpen(s, d)) <==> !Expires(s, d)
  {
    hide OkBut, SendClose;
    ArrivedKeeps(s, d);
    var k := Key(d.game, d.token);
    if d.token != "" && k in s.recons {
      IndexHits(s, k);
      var p := s.recons[k].peer;
      var s0 := Arrived(s, d);
      if Expires(s, d) {
        RejectKeeps0(s0, d, k);
        assert p in OnOpen(s, d).conns && !Indexed(OnOpen(s, d), p);
      } else if s.conns[p].game != d.game {
        RejectKeeps(s0, d);
        forall q | q in s.conns ensures Indexed(OnOpen(s, d), q) { assert Indexed(s, q); }
      } else {
        SendCloseKeeps(s0, {d.h}, p);
        forall q | q in OnOpen(s, d).conns ensures Indexed(OnOpen(s, d), q) {
          assert Indexed(s, q) && Indexed(s, p);
        }
      }
    } else {
      forall q | q in OnOpen(s, d).conns ensures Indexed(OnOpen(s, d), q) {
        if q != d.id { assert Indexed(s, q); }
      }
    }
  }

  lemma RejectKeeps0(s: Server, d: Hello, k: string)
    requires OkBut(s, {d.h}) && d.id !in s.conns && d.id != "" && PhaseOf(s.events, d.id).Fresh?
    requires d.h in s.sockets && s.sockets[d.h] == Socket(d.id, d.game, d.token, true, Meter(0, 0))
    ensures End(Unindexed(s, k), d.h).conns == s.conns && End(Unindexed(s, k), d.h).recons == s.recons - {k}
  {
    UnindexedKeeps(s, {d.h}, k);
    RejectKeeps(Unindexed(s, k), d);
  }

  lemma ClearKeepsIndexed(s: Server, p: Id)
    requires Ok(s) && AllIndexed(s)
    ensures AllIndexed(ClearUser(s, p))
  {
    hide SendClose;
    SendCloseKeeps(s, {}, p);
    var s' := ClearUser(s, p);
    forall q | q in s'.conns ensures Indexed(s', q) {
      assert Indexed(s, q) && (p in s.conns ==> Indexed(s, p));
    }
  }

  /** The connections keep their ids, games and tokens, and the index its entries. */
  predicate SameWays(s: Server, s': Server)
  {
    && s'.recons == s.recons && s'.conns.Keys == s.conns.Keys
    && forall p :: p in s.conns ==> KeyOf(s'.conns[p]) == KeyOf(s.conns[p])
  }

  lemma SameWaysKeep(s: Server, s': Server)
    requires SameWays(s, s') && AllIndexed(s)
    ensures AllIndexed(s')
  {
    forall p | p in s'.conns ensures Indexed(s', p) { assert Indexed(s, p); }
  }

  lemma CloseSameWays(s: Server, h: Handle)
    requires h in s.sockets
    ensures SameWays(s, OnClose(s, h))
  {
  }

  lemma SendCloseSameWays(s: Server, p: Id)
    requires Ok(s)
    ensures SameWays(s, SendClose(s, p))
  {
    hide OkBut, SendClose;
    SendCloseKeeps(s, {}, p);
  }

  lemma MessageSameWays(s: Server, h: Handle, text: string, now: int, max: nat, room: bool)
    requires Ok(s) && h in s.sockets
    ensures SameWays(s, OnMessage(s, h, text, now, max, room))
  {
    hide OkBut, SendClose;
    MeterKeeps(s, h, Arrive(s.sockets[h].meter, now));
    var d := s.sockets[h];
    SendCloseSameWays(s.(sockets := s.sockets[h := d.(meter := Arrive(d.meter, now))]), d.id);
  }

  lemma {:induction false} ClearsKeepIndexed(s: Server, ids: seq<Id>)
    requires Ok(s) && AllIndexed(s)
    ensures AllIndexed(ClearUsers(s, ids))
  {
    hide OkBut, AllIndexed, ClearUser;
    if ids != [] {
      var n := |ids| - 1;
      ClearsKeepIndexed(s, ids[..n]);
      ClearKeeps(s, ids[..n]);
      ClearKeepsIndexed(ClearUsers(s, ids[..n]), ids[n]);
    }
  }

  /** Of all steps only an arrival that presents an expired token takes somebody out of the index. */
  lemma StepKeepsIndexedIff(s: Server, t: SocketStep)
    requires Ok(s) && Ready(s, t) && AllIndexed(s) && (t.Open? ==> Tokened(s, t.d))
    ensures AllIndexed(Do(s, t)) <==> !(t.Open? && Expires(s, t.d))
  {
    hide OkBut, AllIndexed, OnOpen, OnMessage, OnClose, SendClose, SameWays, Tokened, Expires, Newcomer;
    match t
    case Open(d) => OpenKeepsIndexedIff(s, d);
    case Receive(h, text, now, max, room) => {
      MessageSameWays(s, h, text, now, max, room);
      SameWaysKeep(s, Do(s, t));
    }
    case Drop(h) => {
      CloseSameWays(s, h);
      SameWaysKeep(s, Do(s, t));
    }
    case Push(p) => {
      SendCloseSameWays(s, p);
      SameWaysKeep(s, Do(s, t));
    }
    case Clear(ids) => ClearsKeepIndexed(s, ids);
  }

  ghost predicate AllTokened(steps: seq<SocketStep>)
    requires Legal(steps)
  {
    steps == [] ||
    (var n := |steps| - 1;
     AllTokened(steps[..n]) && (steps[n].Open? ==> Tokened(After(steps[..n]), steps[n].d)))
  }

  /** No arrival of the run presents an expired token. */
  ghost predicate NoneExpires(steps: seq<SocketStep>)
    requires Legal(steps)
  {
    steps == [] ||
    (var n := |steps| - 1;
     NoneExpires(steps[..n]) && !(steps[n].Open? && Expires(After(steps[..n]), steps[n].d)))
  }

  ghost predicate AlwaysIndexed(steps: seq<SocketStep>)
    requires Legal(steps)
  {
    AllIndexed(After(steps)) && (steps != [] ==> AlwaysIndexed(steps[..|steps| - 1]))
  }

  /**
   Over every run: everybody connected can come back with their token, all along, if and only if no arrival presents an
   expired one.
   */
  lemma {:induction false} AlwaysIndexedIff(steps: seq<SocketStep>)
    requires Legal(steps) && AllTokened(steps)
    ensures AlwaysIndexed(steps) <==> NoneExpires(steps)
  {
    hide AllIndexed, Tokened, Expires, Ready, Do, OkBut;
    if steps == [] {
      NobodyYet();
    } else {
      var n := |steps| - 1;
      AlwaysIndexedIff(steps[..n]);
      EveryRunOk(steps[..n]);
      IndexedNow(steps[..n]);
      if AlwaysIndexed(steps[..n]) { StepKeepsIndexedIff(After(steps[..n]), steps[n]); }
    }
  }

  lemma NobodyYet()
    ensures AllIndexed(START)
  {
  }

  lemma IndexedNow(steps: seq<SocketStep>)
    requires Legal(steps)
    ensures AlwaysIndexed(steps) ==> AllIndexed(After(steps))
  {
  }

  /** In such runs no clear strands anybody. */
  lemma NobodyStranded(steps: seq<SocketStep>, p: Id, q: Id)
    requires Legal(steps) && AllTokened(steps) && NoneExpires(steps) && q != p
    ensures !Strands(After(steps), p, q)
  {
    hide OkBut, AllTokened, NoneExpires, Legal, After, SendClose;
    AlwaysIndexedIff(steps);
    IndexedNow(steps);
    EveryRunOk(steps);
    var s := After(steps);
    ClearKeepsIndexed(s, p);
    SendCloseKeeps(s, {}, p);
    if Indexed(s, q) { assert q in ClearUser(s, p).conns; }
  }

  /** Three sockets present the same token; the second comes too late for the first one's index entry. */
  function Visit(h: Handle, id: Id, game: Id, token: string, now: int): Hello
  {
    Hello(h, id, game, token, "anon", "", "uuid", now)
  }

  lemma NewVisit(s: Server, d: Hello)
    requires d.token != "" && d.platform == "anon" && Key(d.game, d.token) !in s.recons
    ensures var s' := OnOpen(s, d);
            && s'.conns == s.conns[d.id := Conn(d.id, d.game, d.token, Live(d.h))]
            && s'.recons == s.recons[Key(d.game, d.token) := Recon(d.id, d.now)]
            && s'.sockets.Keys == s.sockets.Keys + {d.h}
            && s'.events == s.events + [Opened(d.id, d.game)]
  {
  }

  lemma LateVisit(s: Server, d: Hello)
    requires Ok(s) && Newcomer(s, d) && Expires(s, d)
    ensures var s' := OnOpen(s, d);
            && s'.conns == s.conns && s'.recons == s.recons - {Key(d.game, d.token)}
            && s'.sockets.Keys == s.sockets.Keys + {d.h}
            && s'.events == s.events + [Closed(d.id, d.game)]
  {
    hide OkBut;
    ArrivedKeeps(s, d);
    UnindexedKeeps(Arrived(s, d), {d.h}, Key(d.game, d.token));
    RejectKeeps(Unindexed(Arrived(s, d), Key(d.game, d.token)), d);
  }

  lemma OneMore(steps: seq<SocketStep>, t: SocketStep)
    requires Legal(steps) && Ready(After(steps), t)
    ensures Legal(steps + [t]) && After(steps + [t]) == Do(After(steps), t) && Ok(After(steps + [t]))
  {
    assert (steps + [t])[..|steps|] == steps;
    EveryRunOk(steps + [t]);
  }

  lemma FirstVisit(a: Id, game: Id, token: string) returns (steps: seq<SocketStep>)
    requires a != "" && token != ""
    ensures Legal(steps) && Ok(After(steps))
    ensures var s := After(steps);
            && s.sockets.Keys == {0} && s.recons == map[Key(game, token) := Recon(a, 0)]
            && s.conns == map[a := Conn(a, game, token, Live(0))] && s.events == [Opened(a, game)]
  {
    hide OkBut, OnOpen, PhaseOf, Key;
    var d := Visit(0, a, game, token, 0);
    NoEvents(a);
    NewVisit(START, d);
    OneMore([], Open(d));
    steps := [] + [Open(d)];
  }

  lemma SecondVisit(a: Id, b: Id, game: Id, token: string) returns (steps: seq<SocketStep>)
    requires a != b && a != "" && b != "" && token != ""
    ensures Legal(steps) && Ok(After(steps))
    ensures var s := After(steps);
            && s.sockets.Keys == {0, 1} && s.recons == map[]
            && s.conns == map[a := Conn(a, game, token, Live(0))] && s.events == [Opened(a, game)] + [Closed(b, game)]
  {
    hide OkBut, OnOpen, PhaseOf, Key, Legal, After;
    var first := FirstVisit(a, game, token);
    var d := Visit(1, b, game, token, MAX_RECONNECTION_TIME + 1);
    OthersFresh([], Opened(a, game), b);
    LateVisit(After(first), d);
    OneMore(first, Open(d));
    steps := first + [Open(d)];
  }

  lemma OthersFresh(events: seq<Event>, e: Event, p: Id)
    requires (events == [] || PhaseOf(events, p) == Fresh) && e.id != p
    ensures PhaseOf(events + [e], p) == Fresh && (events == [] ==> PhaseOf([e], p) == Fresh)
  {
    NoEvents(p);
    PhaseMore(events, e, p);
    assert [] + [e] == [e];
  }

  /** So a run can take the way back from a peer who is connected at that moment. */
  lemma StrandingHappens(a: Id, b: Id, c: Id, game: Id, token: string)
    requires a != b && b != c && a != c && a != "" && b != "" && c != "" && token != ""
    ensures exists steps :: Legal(steps) && Strands(After(steps), a, c)
  {
    hide OkBut, OnOpen, PhaseOf, Legal, After, ClearUser;
    var steps := SecondVisit(a, b, game, token);
    var d := Visit(2, c, game, token, MAX_RECONNECTION_TIME + 1);
    OthersFresh([], Opened(a, game), c);
    OthersFresh([Opened(a, game)], Closed(b, game), c);
    NewVisit(After(steps), d);
    OneMore(steps, Open(d));
    ClearStrandsIff(After(steps + [Open(d)]), a, c);
    assert Strands(After(steps + [Open(d)]), a, c);
  }

  lemma NoEvents(p: Id)
    ensures PhaseOf([], p) == Fresh
  {
  }

  /** Clearing `p` now costs the connected peer `q` its way back. */
  predicate Strands(s: Server, p: Id, q: Id)
  {
    Indexed(s, q) && s.conns[q].ws.Live? && !Indexed(ClearUser(s, p), q)
  }
}
