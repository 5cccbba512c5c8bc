/** The per-socket rate limit: a counter in a fixed window of one second that starts with the first message after it. */
module RateLimiter {

  const WINDOW := 1000

  /** `message_count` and `last_message_time` of one socket. */
  datatype Meter = Meter(count: nat, since: int)

  function Arrive(m: Meter, now: int): Meter
  {
    if now - m.since < WINDOW then m.(count := m.count + 1) else Meter(1, now)
  }

  /** One socket's life: the messages it enqueued, and whether the limit closed it. */
  datatype Traffic = Traffic(meter: Meter, accepted: seq<int>, closed: bool)

  function Run(times: seq<int>, max: nat): Traffic
  {
    if times == [] then Traffic(Meter(0, 0), [], false)
    else
      var n := |times| - 1;
      var r := Run(times[..n], max);
      var m := Arrive(r.meter, times[n]);
      if r.closed then r
      else if m.count > max then Traffic(m, r.accepted, true)
      else Traffic(m, r.accepted + [times[n]], false)
  }

  /** How many of `ts` lie in `[lo, hi)`. */
  function CountIn(ts: seq<int>, lo: int, hi: int): nat
  {
    if ts == [] then 0
    else CountIn(ts[..|ts| - 1], lo, hi) + if lo <= ts[|ts| - 1] < hi then 1 else 0
  }

  function InSecond(ts: seq<int>, lo: int): nat
  {
    CountIn(ts, lo, lo + WINDOW)
  }

  ghost predicate Clocked(times: seq<int>)
  {
    && (forall i, j :: 0 <= i <= j < |times| ==> times[i] <= times[j])
    && (times != [] ==> times[0] >= WINDOW)
  }

  lemma {:induction false} CountSplits(ts: seq<int>, lo: int, mid: int, hi: int)
    requires lo <= mid <= hi
    ensures CountIn(ts, lo, hi) == CountIn(ts, lo, mid) + CountIn(ts, mid, hi)
  {
    if ts != [] { CountSplits(ts[..|ts| - 1], lo, mid, hi); }
  }

  lemma {:induction false} CountMonotone(ts: seq<int>, lo: int, hi: int, lo': int, hi': int)
    requires lo' <= lo && hi <= hi'
    ensures CountIn(ts, lo, hi) <= CountIn(ts, lo', hi')
  {
    if ts != [] { CountMonotone(ts[..|ts| - 1], lo, hi, lo', hi'); }
  }

  lemma CountOneMore(ts: seq<int>, t: int, lo: int, hi: int)
    ensures CountIn(ts + [t], lo, hi) == CountIn(ts, lo, hi) + if lo <= t < hi then 1 else 0
  {
    assert (ts + [t])[..|ts|] == ts;
  }

  lemma SecondOneMore(ts: seq<int>, t: int, lo: int)
    ensures InSecond(ts + [t], lo) == InSecond(ts, lo) + if lo <= t < lo + WINDOW then 1 else 0
  {
    CountOneMore(ts, t, lo, lo + WINDOW);
  }

  lemma {:induction false} CountNone(ts: seq<int>, lo: int, hi: int)
    requires forall i :: 0 <= i < |ts| ==> ts[i] < lo
    ensures CountIn(ts, lo, hi) == 0
  {
    if ts != [] { CountNone(ts[..|ts| - 1], lo, hi); }
  }

  /**
   What holds between messages of an open socket: the current window holds `count` accepted messages, the first of
   them exactly at its start, and less than `max` of the window before it is still in reach.
   */
  ghost predicate Metered(r: Traffic, last: int, max: nat)
  {
    var since := r.meter.since;
    && since <= last < since + WINDOW
    && 1 <= r.meter.count <= max
    && (forall i :: 0 <= i < |r.accepted| ==> r.accepted[i] <= last)
    && (forall hi :: hi > last ==> CountIn(r.accepted, since, hi) == r.meter.count)
    && CountIn(r.accepted, since, since + 1) >= 1
    && (forall lo :: lo > since - WINDOW ==> CountIn(r.accepted, lo, since) + 1 <= max)
    && (forall lo :: lo <= since - WINDOW ==> InSecond(r.accepted, lo) + 1 <= 2 * max)
  }

  lemma MeteredBound(r: Traffic, last: int, max: nat, lo: int)
    requires Metered(r, last, max)
    ensures InSecond(r.accepted, lo) + 1 <= 2 * max
  {
    hide CountIn;
    var since := r.meter.since;
    var hi := if lo + WINDOW > last then lo + WINDOW else last + 1;
    if lo > since {
      CountMonotone(r.accepted, lo, lo + WINDOW, since, hi);
    } else if lo > since - WINDOW {
      CountSplits(r.accepted, lo, since, lo + WINDOW);
      CountMonotone(r.accepted, since, lo + WINDOW, since, hi);
      assert CountIn(r.accepted, lo, since) + 1 <= max;
    }
  }

  lemma FirstMetered(t: int, max: nat)
    requires max >= 1
    ensures Metered(Traffic(Meter(1, t), [t], false), t, max)
  {
    forall lo, hi ensures CountIn([t], lo, hi) == if lo <= t < hi then 1 else 0 { CountOneMore([], t, lo, hi); }
  }

  lemma SameWindow(r: Traffic, last: int, t: int, max: nat)
    requires Metered(r, last, max) && last <= t < r.meter.since + WINDOW && r.meter.count < max
    ensures Metered(Traffic(r.meter.(count := r.meter.count + 1), r.accepted + [t], false), t, max)
  {
    hide CountIn;
    forall lo, hi
      ensures CountIn(r.accepted + [t], lo, hi) == CountIn(r.accepted, lo, hi) + if lo <= t < hi then 1 else 0
    {
      CountOneMore(r.accepted, t, lo, hi);
    }
    forall lo | lo <= r.meter.since - WINDOW ensures InSecond(r.accepted + [t], lo) + 1 <= 2 * max {
      SecondOneMore(r.accepted, t, lo);
    }
  }

  /** A window opens: of the one before it, all but its first message may still be in reach. */
  lemma NextWindow(r: Traffic, last: int, t: int, max: nat)
    requires Metered(r, last, max) && t >= r.meter.since + WINDOW
    ensures Metered(Traffic(Meter(1, t), r.accepted + [t], false), t, max)
  {
    hide CountIn;
    var acc, since := r.accepted, r.meter.since;
    forall lo, hi ensures CountIn(acc + [t], lo, hi) == CountIn(acc, lo, hi) + if lo <= t < hi then 1 else 0 {
      CountOneMore(acc, t, lo, hi);
    }
    forall hi ensures CountIn(acc, t, hi) == 0 { CountNone(acc, t, hi); }
    forall lo | lo > t - WINDOW ensures CountIn(acc, lo, t) + 1 <= max {
      CountSplits(acc, since, since + 1, t);
      CountMonotone(acc, lo, t, since + 1, t);
    }
    forall lo | lo <= t - WINDOW ensures InSecond(acc + [t], lo) + 1 <= 2 * max {
      SecondOneMore(acc, t, lo);
      MeteredBound(r, last, max, lo);
    }
  }

  lemma {:induction false} RunMetered(times: seq<int>, max: nat)
    requires Clocked(times) && times != [] && !Run(times, max).closed
    ensures Metered(Run(times, max), times[|times| - 1], max)
  {
    var n := |times| - 1;
    var r, t := Run(times[..n], max), times[n];
    if n == 0 {
      assert times[..0] == [] && [] + [t] == [t];
      FirstMetered(t, max);
    } else {
      RunMetered(times[..n], max);
      if t - r.meter.since < WINDOW { SameWindow(r, times[n - 1], t, max); } else { NextWindow(r, times[n - 1], t, max); }
    }
  }

  /** Once closed, nothing more is enqueued, and what was is what an open socket had. */
  lemma {:induction false} ClosedForGood(times: seq<int>, more: seq<int>, max: nat)
    requires Run(times, max).closed
    ensures Run(times + more, max) == Run(times, max)
  {
    if more == [] {
      assert times + more == times;
    } else {
      var k := |more| - 1;
      ClosedForGood(times, more[..k], max);
      assert (times + more)[..|times + more| - 1] == times + more[..k];
    }
  }

  /**
   With a clock that does not run back, from time 1000 on: never more than `max` in the current window, and at most
   `2 * max - 1` in any interval of one second; none at all when `max` is zero.
   */
  lemma {:induction false} RateBound(times: seq<int>, max: nat, lo: int)
    requires Clocked(times)
    ensures InSecond(Run(times, max).accepted, lo) <= if max == 0 then 0 else 2 * max - 1
    ensures !Run(times, max).closed ==> Run(times, max).meter.count <= max
  {
    if times != [] {
      var n := |times| - 1;
      if Run(times, max).closed {
        RateBound(times[..n], max, lo);
      } else {
        RunMetered(times, max);
        MeteredBound(Run(times, max), times[n], max, lo);
      }
    }
  }

  function Repeat(t: int, n: nat): seq<int>
  {
    if n == 0 then [] else Repeat(t, n - 1) + [t]
  }

  lemma {:induction false} RunRepeat(times: seq<int>, t: int, n: nat, max: nat, lo: int, hi: int)
    requires var r := Run(times, max);
             !r.closed && (n > 0 ==> Arrive(r.meter, t).count + n - 1 <= max)
    ensures var r, r' := Run(times, max), Run(times + Repeat(t, n), max);
            && !r'.closed
            && r'.meter == (if n == 0 then r.meter
                            else Meter(Arrive(r.meter, t).count + n - 1, Arrive(r.meter, t).since))
            && CountIn(r'.accepted, lo, hi) == CountIn(r.accepted, lo, hi) + if lo <= t < hi then n else 0
  {
    hide CountIn;
    if n == 0 {
      assert times + Repeat(t, 0) == times;
    } else {
      RunRepeat(times, t, n - 1, max, lo, hi);
      var all := times + Repeat(t, n);
      assert all[..|all| - 1] == times + Repeat(t, n - 1) && all[|all| - 1] == t;
      CountOneMore(Run(all[..|all| - 1], max).accepted, t, lo, hi);
    }
  }

  lemma {:induction false} RepeatAll(t: int, n: nat)
    ensures |Repeat(t, n)| == n && forall i :: 0 <= i < n ==> Repeat(t, n)[i] == t
  {
    if n > 0 { RepeatAll(t, n - 1); }
  }

  /** One message, the rest of the allowance at the end of its window, a full allowance at the start of the next. */
  function Burst(max: nat): seq<int>
    requires max >= 1
  {
    [1000] + Repeat(1999, max - 1) + Repeat(2000, max)
  }

  lemma BurstClocked(max: nat)
    requires max >= 1
    ensures Clocked(Burst(max))
  {
    hide Repeat;
    RepeatAll(1999, max - 1);
    RepeatAll(2000, max);
  }

  lemma NoneIn(lo: int, hi: int)
    ensures CountIn([], lo, hi) == 0
  {
  }

  /** The bound is attained for every limit. */
  lemma BoundAttained(max: nat)
    requires max >= 1
    ensures Clocked(Burst(max)) && !Run(Burst(max), max).closed
    ensures InSecond(Run(Burst(max), max).accepted, 1001) == 2 * max - 1
  {
    hide CountIn, Clocked, Repeat;
    BurstClocked(max);
    NoneIn(1001, 2001);
    var r := Run([1000], max);
    assert [1000][..0] == [] && [] + [1000] == [1000];
    assert Run([], max) == Traffic(Meter(0, 0), [], false);
    assert r == Traffic(Meter(1, 1000), [1000], false);
    CountOneMore([], 1000, 1001, 2001);
    RunRepeat([1000], 1999, max - 1, max, 1001, 2001);
    RunRepeat([1000] + Repeat(1999, max - 1), 2000, max, max, 1001, 2001);
  }
}
