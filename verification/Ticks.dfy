/** The tick clock: every game catches up in steps of its own rate, one step a pass, while all share one `now`. */
module Ticks {

  /** `tick_rate` and `last_tick_time` of one game, and the times its lobbies have seen in their ticks. */
  datatype Schedule = Schedule(rate: int, last: int, seen: seq<int>)

  /** `GameData::open`: the start of the interval that `now` is in. */
  function Opened(rate: int, now: int): Schedule
    requires now >= 0
  {
    Schedule(rate, if rate > 0 then now / rate * rate else 0, [])
  }

  function Tick(g: Schedule, now: int): Schedule
  {
    if g.rate == 0 || g.last + g.rate > now then g
    else Schedule(g.rate, g.last + g.rate, g.seen + [g.last + g.rate])
  }

  /** One pass after another, at the given times. */
  function TickAll(g: Schedule, times: seq<int>): Schedule
  {
    if times == [] then g else Tick(TickAll(g, times[..|times| - 1]), times[|times| - 1])
  }

  function Max(start: int, times: seq<int>): int
  {
    if times == [] then start
    else
      var m := Max(start, times[..|times| - 1]);
      if times[|times| - 1] > m then times[|times| - 1] else m
  }

  // ----- multiples -----

  lemma MultipleOf(q: int, rate: int)
    requires rate > 0
    ensures (q * rate) % rate == 0
  {
    var d, r := (q * rate) / rate, (q * rate) % rate;
    assert (q - d) * rate == r;
    if q - d >= 1 { ScaledAtLeast(q - d, rate); }
    if d - q >= 1 { ScaledAtLeast(d - q, rate); }
  }

  lemma ScaledAtLeast(k: int, rate: int)
    requires rate > 0 && k >= 1
    ensures k * rate >= rate
  {
  }

  lemma MultipleMore(a: int, n: int, rate: int)
    requires rate > 0 && a % rate == 0
    ensures (a + n * rate) % rate == 0
  {
    var q := a / rate;
    assert (q + n) * rate == q * rate + n * rate;
    MultipleOf(q + n, rate);
  }

  /** Two multiples of the rate are a whole interval apart. */
  lemma MultiplesApart(a: int, b: int, rate: int)
    requires rate > 0 && a % rate == 0 && b % rate == 0 && a < b
    ensures a + rate <= b
  {
    var d := b / rate - a / rate;
    assert d * rate == b - a;
    if d <= 0 { NotPositive(d, rate); }
    ScaledAtLeast(d, rate);
  }

  lemma NotPositive(k: int, rate: int)
    requires rate > 0 && k <= 0
    ensures k * rate <= 0
  {
  }

  lemma IntervalOf(rate: int, now: int)
    requires rate > 0
    ensures var t := now / rate * rate; t % rate == 0 && t <= now < t + rate
  {
    MultipleOf(now / rate, rate);
  }

  lemma OpenedAligned(rate: int, now: int)
    requires now >= 0 && rate > 0
    ensures var g := Opened(rate, now);
            g.last % rate == 0 && g.last <= now < g.last + rate && g.seen == []
  {
    IntervalOf(rate, now);
  }

  /** The k-th tick sees exactly `t0 + k * rate`: none is skipped, none comes twice, whatever the passes' times. */
  lemma {:induction false} TicksInOrder(g: Schedule, times: seq<int>)
    requires g.rate > 0 && g.seen == []
    ensures var r := TickAll(g, times);
            && r.rate == g.rate && |r.seen| <= |times|
            && r.last == g.last + |r.seen| * g.rate
            && (forall k :: 0 <= k < |r.seen| ==> r.seen[k] == g.last + (k + 1) * g.rate)
            && r.last <= Max(g.last, times)
  {
    if times != [] {
      var n := |times| - 1;
      TicksInOrder(g, times[..n]);
      var p := TickAll(g, times[..n]);
      assert (|p.seen| + 1) * g.rate == |p.seen| * g.rate + g.rate;
    }
  }

  /** The last tick stays a multiple of the rate. */
  lemma StaysAligned(g: Schedule, times: seq<int>)
    requires g.rate > 0 && g.seen == [] && g.last % g.rate == 0
    ensures TickAll(g, times).last % g.rate == 0
  {
    TicksInOrder(g, times);
    MultipleMore(g.last, |TickAll(g, times).seen|, g.rate);
  }

  function Repeated(now: int, n: nat): seq<int>
  {
    seq(n, _ => now)
  }

  lemma {:induction false} CatchUpTo(g: Schedule, now: int, target: int, n: nat)
    requires g.rate > 0 && g.last % g.rate == 0 && target % g.rate == 0
    requires g.last <= target <= now < target + g.rate
    ensures var r := TickAll(g, Repeated(now, n));
            && r.rate == g.rate && r.last % g.rate == 0
            && r.last == if g.last + n * g.rate <= target then g.last + n * g.rate else target
  {
    if n == 0 {
      assert Repeated(now, 0) == [];
    } else {
      CatchUpTo(g, now, target, n - 1);
      assert Repeated(now, n)[..n - 1] == Repeated(now, n - 1);
      var p := TickAll(g, Repeated(now, n - 1));
      OneMore(n, g.rate);
      if p.last < target {
        MultiplesApart(p.last, target, g.rate);
        MultipleMore(p.last, 1, g.rate);
      }
    }
  }

  lemma OneMore(n: int, rate: int)
    ensures n * rate == (n - 1) * rate + rate
  {
  }

  /** Passes at a fixed time close the gap one interval each, and stop at the interval the time is in. */
  lemma CatchUp(g: Schedule, now: int, n: nat)
    requires g.rate > 0 && g.last % g.rate == 0 && g.last <= now
    ensures var target := now / g.rate * g.rate;
            TickAll(g, Repeated(now, n)).last == if g.last + n * g.rate <= target then g.last + n * g.rate else target
  {
    var target := now / g.rate * g.rate;
    IntervalOf(g.rate, now);
    if target < g.last { MultiplesApart(target, g.last, g.rate); }
    CatchUpTo(g, now, target, n);
  }

  /**
   `handle_tick`: while it visits a game it sets the shared `now` to that game's tick, yet every game advances as if it
   were alone, and `now` is put back.
   */
  class Clock {
    var now: int
    var games: seq<Schedule>

    constructor (now: int, games: seq<Schedule>)
      ensures this.now == now && this.games == games
    {
      this.now, this.games := now, games;
    }

    method HandleTick()
      modifies this
      ensures now == old(now) && |games| == |old(games)|
      ensures forall i :: 0 <= i < |games| ==> games[i] == Tick(old(games)[i], old(now))
    {
      var previous := now;
      for i := 0 to |games|
        invariant |games| == |old(games)|
        invariant forall j :: 0 <= j < i ==> games[j] == Tick(old(games)[j], previous)
        invariant forall j :: i <= j < |games| ==> games[j] == old(games)[j]
      {
        var g := games[i];
        if g.rate == 0 || g.last + g.rate > previous { continue; }
        now := g.last + g.rate;
        games := games[i := Schedule(g.rate, now, g.seen + [now])];
      }
      now := previous;
    }
  }

  /** A game's schedule over any number of passes depends on its own rate and start only. */
  method Passes(clock: Clock, times: seq<int>)
    modifies clock
    ensures |clock.games| == |old(clock.games)|
    ensures forall i :: 0 <= i < |clock.games| ==> clock.games[i] == TickAll(old(clock.games)[i], times)
  {
    for k := 0 to |times|
      invariant |clock.games| == |old(clock.games)|
      invariant forall i :: 0 <= i < |clock.games| ==> clock.games[i] == TickAll(old(clock.games)[i], times[..k])
    {
      assert times[..k + 1][..k] == times[..k];
      clock.now := times[k];
      clock.HandleTick();
    }
    assert times[..|times|] == times;
  }
}
