/** The rate limit over whole runs of the socket side: what one socket can get into the queue. */
module SocketRate {
  import opened FlatSets
  import opened RateLimiter
  import opened Sockets
  import opened Reconnection

  /** The times of the messages of socket `h`. */
  function Times(steps: seq<SocketStep>, h: Handle): seq<int>
  {
    if steps == [] then []
    else
      var t := steps[|steps| - 1];
      Times(steps[..|steps| - 1], h) + if t.Receive? && t.h == h then [t.now] else []
  }

  /** The step put a MESSAGE of socket `h` into the queue. */
  ghost predicate Enqueues(s: Server, t: SocketStep, h: Handle)
    requires Ready(s, t)
  {
    t.Receive? && t.h == h && |Do(s, t).events| > |s.events| && Do(s, t).events[|s.events|].Message?
  }

  /** The times of those that were queued. */
  ghost function QueuedTimes(steps: seq<SocketStep>, h: Handle): seq<int>
    requires Legal(steps)
  {
    if steps == [] then []
    else
      var n := |steps| - 1;
      QueuedTimes(steps[..n], h) + if Enqueues(After(steps[..n]), steps[n], h) then [steps[n].now] else []
  }

  ghost predicate Limited(steps: seq<SocketStep>, max: nat)
  {
    forall i :: 0 <= i < |steps| && steps[i].Receive? ==> steps[i].max == max
  }

  // ----- other steps leave a socket alone, or close it -----

  ghost predicate Untouched(s: Server, s': Server, h: Handle)
  {
    h in s.sockets ==>
      h in s'.sockets && (s'.sockets[h] == s.sockets[h] || s'.sockets[h] == s.sockets[h].(open := false))
  }

  lemma SendCloseUntouched(s: Server, p: Id, h: Handle)
    ensures Untouched(s, SendClose(s, p), h)
    ensures SendClose(s, p).sockets.Keys == s.sockets.Keys
  {
  }

  lemma {:induction false} ClearUntouched(s: Server, ids: seq<Id>, h: Handle)
    ensures Untouched(s, ClearUsers(s, ids), h)
    ensures ClearUsers(s, ids).sockets.Keys == s.sockets.Keys
  {
    hide SendClose;
    if ids != [] {
      ClearUntouched(s, ids[..|ids| - 1], h);
      SendCloseUntouched(ClearUsers(s, ids[..|ids| - 1]), ids[|ids| - 1], h);
    }
  }

  lemma OthersUntouched(s: Server, t: SocketStep, h: Handle)
    requires Ready(s, t) && !(t.Receive? && t.h == h)
    ensures Untouched(s, Do(s, t), h)
    ensures h !in s.sockets && h in Do(s, t).sockets ==> Do(s, t).sockets[h].meter == Meter(0, 0)
  {
    match t
    case Open(d) => OpenUntouched(s, d, h);
    case Receive(g, _, now, _, _) => {
      var s1 := s.(sockets := s.sockets[g := s.sockets[g].(meter := Arrive(s.sockets[g].meter, now))]);
      SendCloseUntouched(s1, s.sockets[g].id, h);
    }
    case Drop(_) => {}
    case Push(p) => SendCloseUntouched(s, p, h);
    case Clear(ids) => ClearUntouched(s, ids, h);
  }

  lemma OpenUntouched(s: Server, d: Hello, h: Handle)
    requires Newcomer(s, d)
    ensures Untouched(s, OnOpen(s, d), h)
    ensures h !in s.sockets && h in OnOpen(s, d).sockets ==> OnOpen(s, d).sockets[h].meter == Meter(0, 0)
  {
    hide SendClose;
    var k := Key(d.game, d.token);
    if k in s.recons { SendCloseUntouched(Arrived(s, d), s.recons[k].peer, h); }
  }

  // ----- a message of the socket itself -----

  /** Over the limit, or without room, the socket that sent it is closed; otherwise the message is queued. */
  lemma OwnMessage(s: Server, t: SocketStep)
    requires Ok(s) && Ready(s, t) && t.Receive?
    ensures var m, s' := Arrive(s.sockets[t.h].meter, t.now), Do(s, t);
            && t.h in s'.sockets && s'.sockets[t.h].meter == m
            && (Enqueues(s, t, t.h) <==> m.count <= t.max && t.room)
            && (s'.sockets[t.h].open <==> m.count <= t.max && t.room)
  {
    hide OkBut;
    var d := s.sockets[t.h];
    var s1 := s.(sockets := s.sockets[t.h := d.(meter := Arrive(d.meter, t.now))]);
    MeterKeeps(s, t.h, Arrive(d.meter, t.now));
    SendCloseIs(s1, {}, d.id);
    OwnEntry(s1, t.h);
  }

  lemma OwnEntry(s: Server, h: Handle)
    requires Ok(s) && h in s.sockets && s.sockets[h].open
    ensures s.sockets[h].id in s.conns && s.conns[s.sockets[h].id].ws == Live(h)
  {
    assert SocketOk(s, h);
  }

  // ----- the invariant -----

  /** An open socket is where its limiter is; a closed one queued no more than its limiter accepted. */
  ghost predicate Follows(s: Server, h: Handle, times: seq<int>, queued: seq<int>, max: nat)
  {
    var r := Run(times, max);
    && queued <= r.accepted
    && (h !in s.sockets ==> times == [])
    && (h in s.sockets && s.sockets[h].open ==> !r.closed && s.sockets[h].meter == r.meter && queued == r.accepted)
  }

  lemma OneMoreTime(times: seq<int>, now: int, max: nat)
    requires !Run(times, max).closed
    ensures var r, m := Run(times, max), Arrive(Run(times, max).meter, now);
            Run(times + [now], max) ==
            if m.count > max then Traffic(m, r.accepted, true) else Traffic(m, r.accepted + [now], false)
  {
    assert (times + [now])[..|times|] == times;
  }

  lemma {:induction false} RunFollows(steps: seq<SocketStep>, h: Handle, max: nat)
    requires Legal(steps) && Limited(steps, max)
    ensures Follows(After(steps), h, Times(steps, h), QueuedTimes(steps, h), max)
  {
    hide OkBut, Do, Enqueues;
    if steps != [] {
      var n := |steps| - 1;
      var s, t := After(steps[..n]), steps[n];
      var times, queued := Times(steps[..n], h), QueuedTimes(steps[..n], h);
      RunFollows(steps[..n], h, max);
      EveryRunOk(steps[..n]);
      if t.Receive? && t.h == h {
        OwnMessage(s, t);
        OneMoreTime(times, t.now, max);
        assert queued + [] == queued;
      } else {
        OthersUntouched(s, t, h);
        NotEnqueued(s, t, h);
        assert times + [] == times && queued + [] == queued;
      }
    }
  }

  lemma NotEnqueued(s: Server, t: SocketStep, h: Handle)
    requires Ready(s, t) && !(t.Receive? && t.h == h)
    ensures !Enqueues(s, t, h)
  {
  }

  lemma {:induction false} CountPrefix(a: seq<int>, b: seq<int>, lo: int, hi: int)
    requires a <= b
    ensures CountIn(a, lo, hi) <= CountIn(b, lo, hi)
    decreases |b|
  {
    if a != b { CountPrefix(a, b[..|b| - 1], lo, hi); }
  }

  /**
   In every run, whatever else happens on the socket thread: one socket gets at most `2 * max - 1` messages into the
   queue in any second, and none when `max` is zero.
   */
  lemma SocketRateBound(steps: seq<SocketStep>, h: Handle, max: nat, lo: int)
    requires Legal(steps) && Limited(steps, max) && Clocked(Times(steps, h))
    ensures InSecond(QueuedTimes(steps, h), lo) <= if max == 0 then 0 else 2 * max - 1
  {
    RunFollows(steps, h, max);
    RateBound(Times(steps, h), max, lo);
    CountPrefix(QueuedTimes(steps, h), Run(Times(steps, h), max).accepted, lo, lo + WINDOW);
  }
}
