/** Sending: at once, or gathered per peer and flushed as one JSON array when the send interval has passed. */
module Batching {
  import opened FlatSets

  /** What is handed to the socket loop. */
  datatype Parcel = One(to: Id, text: string) | Batch(data: map<Id, seq<string>>) | Shut(to: Id)

  /** The sending side of one game: `send_rate`, `last_send_time`, `peers_send_data`, and all that was deferred. */
  datatype Outbox = Outbox(rate: int, last: int, waiting: map<Id, seq<string>>, deferred: seq<Parcel>)

  /** A TEXT, a CLOSE, or a pass of `handle_send`.  `off` says the peer is marked disconnected at that moment. */
  datatype Act = Text(to: Id, text: string, off: bool) | Close(to: Id) | Flush(now: int)

  function WaitingFor(waiting: map<Id, seq<string>>, p: Id): seq<string>
  {
    if p in waiting then waiting[p] else []
  }

  function Perform(o: Outbox, a: Act): Outbox
  {
    match a
    case Text(to, text, off) =>
      if off then o
      else if o.rate == 0 then o.(deferred := o.deferred + [One(to, text)])
      else o.(waiting := o.waiting[to := WaitingFor(o.waiting, to) + [text]])
    case Close(to) => o.(deferred := o.deferred + [Shut(to)])
    case Flush(now) =>
      if o.rate == 0 || o.last + o.rate > now then o
      else Outbox(o.rate, o.last + o.rate, map[], o.deferred + [Batch(o.waiting)])
  }

  function PerformAll(o: Outbox, acts: seq<Act>): Outbox
  {
    if acts == [] then o else Perform(PerformAll(o, acts[..|acts| - 1]), acts[|acts| - 1])
  }

  /** The TEXT messages accepted for `p`, in order. */
  function Accepted(acts: seq<Act>, p: Id): seq<string>
  {
    if acts == [] then []
    else Accepted(acts[..|acts| - 1], p) + NewText(acts[|acts| - 1], p)
  }

  function NewText(a: Act, p: Id): seq<string>
  {
    if a.Text? && a.to == p && !a.off then [a.text] else []
  }

  function TextsIn(d: Parcel, p: Id): seq<string>
  {
    match d
    case One(to, text) => if to == p then [text] else []
    case Batch(data) => WaitingFor(data, p)
    case Shut(_) => []
  }

  /** The TEXT messages deferred for `p`, taken out of their batches. */
  function Deferred(ds: seq<Parcel>, p: Id): seq<string>
  {
    if ds == [] then [] else Deferred(ds[..|ds| - 1], p) + TextsIn(ds[|ds| - 1], p)
  }

  lemma DeferredMore(ds: seq<Parcel>, d: Parcel, p: Id)
    ensures Deferred(ds + [d], p) == Deferred(ds, p) + TextsIn(d, p)
  {
    assert (ds + [d])[..|ds|] == ds;
  }

  lemma TextConserves(o: Outbox, a: Act, p: Id)
    requires a.Text? && (o.rate == 0 ==> o.waiting == map[])
    ensures var o' := Perform(o, a);
            && Deferred(o'.deferred, p) + WaitingFor(o'.waiting, p) ==
               Deferred(o.deferred, p) + WaitingFor(o.waiting, p) + NewText(a, p)
            && (o.rate == 0 ==> o'.waiting == map[]) && o'.rate == o.rate
  {
    hide Deferred;
    var d, w := Deferred(o.deferred, p), WaitingFor(o.waiting, p);
    DeferredMore(o.deferred, One(a.to, a.text), p);
    assert d + [] == d && d + w + [] == d + w && d + (w + [a.text]) == d + w + [a.text];
  }

  lemma PerformConserves(o: Outbox, a: Act, p: Id)
    requires o.rate == 0 ==> o.waiting == map[]
    ensures var o' := Perform(o, a);
            && Deferred(o'.deferred, p) + WaitingFor(o'.waiting, p) ==
               Deferred(o.deferred, p) + WaitingFor(o.waiting, p) + NewText(a, p)
            && (o.rate == 0 ==> o'.waiting == map[]) && o'.rate == o.rate
  {
    hide Deferred;
    var d, w := Deferred(o.deferred, p), WaitingFor(o.waiting, p);
    assert d + [] == d && d + w + [] == d + w;
    match a
    case Text(_, _, _) => TextConserves(o, a, p);
    case Close(to) => DeferredMore(o.deferred, Shut(to), p);
    case Flush(_) => DeferredMore(o.deferred, Batch(o.waiting), p);
  }

  /**
   For every peer and any mix of sends, closes and flushes: what was deferred and then what still waits are exactly the
   accepted messages, in their order.  An unbatched game keeps nothing waiting.
   */
  lemma {:induction false} OrderConserved(rate: int, last: int, acts: seq<Act>, p: Id)
    ensures var o := PerformAll(Outbox(rate, last, map[], []), acts);
            && Deferred(o.deferred, p) + WaitingFor(o.waiting, p) == Accepted(acts, p)
            && (rate == 0 ==> o.waiting == map[]) && o.rate == rate
  {
    if acts != [] {
      var n := |acts| - 1;
      OrderConserved(rate, last, acts[..n], p);
      PerformConserves(PerformAll(Outbox(rate, last, map[], []), acts[..n]), acts[n], p);
    }
  }

  // ----- one batch on the wire -----

  function Join(ms: seq<string>, delimiter: string): string
  {
    if ms == [] then ""
    else if |ms| == 1 then ms[0]
    else Join(ms[..|ms| - 1], delimiter) + delimiter + ms[|ms| - 1]
  }

  function Wire(ms: seq<string>): string
  {
    "[" + Join(ms, ",") + "]"
  }

  /** Where a reader is in a JSON text: nesting depth, and whether inside a string or after a backslash in one. */
  datatype Place = Outside(depth: nat) | Inside(depth: nat) | Escaped(depth: nat) | Lost

  function Read(at: Place, c: char): Place
  {
    match at
    case Outside(d) =>
      if c == '"' then Inside(d)
      else if c == '[' || c == '{' then Outside(d + 1)
      else if c == ']' || c == '}' then (if d == 0 then Lost else Outside(d - 1))
      else at
    case Inside(d) => if c == '"' then Outside(d) else if c == '\\' then Escaped(d) else at
    case Escaped(d) => Inside(d)
    case Lost => Lost
  }

  /** The elements read so far, the one being read, and the reader's place. */
  datatype Reader = Reader(done: seq<string>, current: string, at: Place)

  function Feed(r: Reader, c: char): Reader
  {
    if r.at == Outside(0) && c == ',' then Reader(r.done + [r.current], "", r.at)
    else Reader(r.done, r.current + [c], Read(r.at, c))
  }

  function FeedAll(r: Reader, s: string): Reader
  {
    if s == "" then r else Feed(FeedAll(r, s[..|s| - 1]), s[|s| - 1])
  }

  /** The elements of a bracketed list, split at the commas that no string and no bracket encloses. */
  function Elements(wire: string): seq<string>
  {
    if |wire| < 2 then []
    else
      var r := FeedAll(Reader([], "", Outside(0)), wire[1..|wire| - 1]);
      r.done + [r.current]
  }

  /** A text whose strings and brackets close and whose commas are enclosed, as every JSON value's are. */
  predicate Whole(m: string)
  {
    FeedAll(Reader([], "", Outside(0)), m) == Reader([], m, Outside(0))
  }

  lemma {:induction false} FeedSplit(r: Reader, s: string, t: string)
    ensures FeedAll(r, s + t) == FeedAll(FeedAll(r, s), t)
  {
    if t == "" {
      assert s + t == s;
    } else {
      var n := |t| - 1;
      FeedSplit(r, s, t[..n]);
      assert (s + t)[..|s + t| - 1] == s + t[..n];
    }
  }

  /** Elements already read do not matter to what follows. */
  lemma {:induction false} FeedFrom(done: seq<string>, s: string, k: nat)
    requires k <= |s|
    ensures var r := FeedAll(Reader([], "", Outside(0)), s[..k]);
            FeedAll(Reader(done, "", Outside(0)), s[..k]) == Reader(done + r.done, r.current, r.at)
  {
    if k > 0 {
      FeedFrom(done, s, k - 1);
      assert s[..k][..k - 1] == s[..k - 1];
      var r := FeedAll(Reader([], "", Outside(0)), s[..k - 1]);
      assert done + (r.done + [r.current]) == (done + r.done) + [r.current];
    } else {
      assert s[..0] == "";
    }
  }

  lemma WholeFrom(done: seq<string>, m: string)
    requires Whole(m)
    ensures FeedAll(Reader(done, "", Outside(0)), m) == Reader(done, m, Outside(0))
  {
    FeedFrom(done, m, |m|);
    assert m[..|m|] == m && done + [] == done;
  }

  lemma {:induction false} ReadJoin(ms: seq<string>)
    requires ms != [] && forall i :: 0 <= i < |ms| ==> Whole(ms[i])
    ensures FeedAll(Reader([], "", Outside(0)), Join(ms, ",")) == Reader(ms[..|ms| - 1], ms[|ms| - 1], Outside(0))
  {
    var n := |ms| - 1;
    if n == 0 {
      WholeFrom([], ms[0]);
    } else {
      var start := Reader([], "", Outside(0));
      ReadJoin(ms[..n]);
      FeedSplit(start, Join(ms[..n], ",") + ",", ms[n]);
      FeedSplit(start, Join(ms[..n], ","), ",");
      assert ","[..0] == "" && ms[..n][..n - 1] + [ms[..n][n - 1]] == ms[..n];
      assert FeedAll(start, Join(ms[..n], ",") + ",") == Reader(ms[..n], "", Outside(0));
      WholeFrom(ms[..n], ms[n]);
    }
  }

  /** A reader of a batch gets back exactly the messages that went into it. */
  lemma BatchRoundTrip(ms: seq<string>)
    requires ms != [] && forall i :: 0 <= i < |ms| ==> Whole(ms[i])
    ensures |Wire(ms)| >= 2 && Wire(ms)[0] == '[' && Wire(ms)[|Wire(ms)| - 1] == ']'
    ensures Elements(Wire(ms)) == ms
  {
    hide FeedAll, Join, Whole;
    ReadJoin(ms);
    assert Wire(ms)[1..|Wire(ms)| - 1] == Join(ms, ",");
    assert ms[..|ms| - 1] + [ms[|ms| - 1]] == ms;
  }

  /** What reaches a peer of a batched game, read back frame by frame. */
  function Frames(ds: seq<Parcel>, p: Id): seq<string>
  {
    if ds == [] then []
    else
      var d := ds[|ds| - 1];
      Frames(ds[..|ds| - 1], p) +
      if d.Batch? && WaitingFor(d.data, p) != [] then [Wire(WaitingFor(d.data, p))] else []
  }

  function ReadBack(frames: seq<string>): seq<string>
  {
    if frames == [] then [] else ReadBack(frames[..|frames| - 1]) + Elements(frames[|frames| - 1])
  }

  lemma {:induction false} AcceptedWhole(acts: seq<Act>, p: Id)
    requires forall i :: 0 <= i < |acts| && acts[i].Text? ==> Whole(acts[i].text)
    ensures forall i :: 0 <= i < |Accepted(acts, p)| ==> Whole(Accepted(acts, p)[i])
  {
    if acts != [] { AcceptedWhole(acts[..|acts| - 1], p); }
  }

  ghost predicate Batches(ds: seq<Parcel>)
  {
    forall i :: 0 <= i < |ds| ==> !ds[i].One?
  }

  lemma FrameMore(ds: seq<Parcel>, d: Parcel, p: Id)
    requires d.Batch? || d.Shut?
    requires forall i :: 0 <= i < |TextsIn(d, p)| ==> Whole(TextsIn(d, p)[i])
    ensures ReadBack(Frames(ds + [d], p)) == ReadBack(Frames(ds, p)) + TextsIn(d, p)
  {
    hide Whole, Elements, Join;
    var texts, frames := TextsIn(d, p), Frames(ds, p);
    assert (ds + [d])[..|ds|] == ds;
    assert frames + [] == frames && ReadBack(frames) + [] == ReadBack(frames);
    if texts != [] {
      BatchRoundTrip(texts);
      assert (frames + [Wire(texts)])[..|frames|] == frames;
    }
  }

  lemma {:induction false} FramesReadBack(ds: seq<Parcel>, p: Id)
    requires Batches(ds) && forall i :: 0 <= i < |Deferred(ds, p)| ==> Whole(Deferred(ds, p)[i])
    ensures ReadBack(Frames(ds, p)) == Deferred(ds, p)
  {
    hide Whole, TextsIn, Wire;
    if ds != [] {
      var n := |ds| - 1;
      var before, texts := Deferred(ds[..n], p), TextsIn(ds[n], p);
      forall i | 0 <= i < |before| ensures Whole(before[i]) { assert Deferred(ds, p)[i] == before[i]; }
      forall i | 0 <= i < |texts| ensures Whole(texts[i]) { assert Deferred(ds, p)[|before| + i] == texts[i]; }
      FramesReadBack(ds[..n], p);
      FrameMore(ds[..n], ds[n], p);
      assert ds == ds[..n] + [ds[n]];
    }
  }

  lemma {:induction false} OnlyBatches(rate: int, last: int, acts: seq<Act>)
    requires rate != 0
    ensures var o := PerformAll(Outbox(rate, last, map[], []), acts); Batches(o.deferred) && o.rate == rate
  {
    if acts != [] { OnlyBatches(rate, last, acts[..|acts| - 1]); }
  }

  /**
   End to end in a batched game: the frames deferred for a peer, each read as a JSON array, and then what still waits,
   are the messages accepted for it.
   */
  lemma FramesConserve(rate: int, last: int, acts: seq<Act>, p: Id)
    requires rate != 0
    requires forall i :: 0 <= i < |acts| && acts[i].Text? ==> Whole(acts[i].text)
    ensures var o := PerformAll(Outbox(rate, last, map[], []), acts);
            ReadBack(Frames(o.deferred, p)) + WaitingFor(o.waiting, p) == Accepted(acts, p)
  {
    var o := PerformAll(Outbox(rate, last, map[], []), acts);
    OrderConserved(rate, last, acts, p);
    OnlyBatches(rate, last, acts);
    AcceptedWhole(acts, p);
    forall i | 0 <= i < |Deferred(o.deferred, p)| ensures Whole(Deferred(o.deferred, p)[i]) {
      assert Deferred(o.deferred, p)[i] == Accepted(acts, p)[i];
    }
    FramesReadBack(o.deferred, p);
  }

  // ----- as it is written -----

  /** `join`, appending to a stream. */
  method JoinTexts(ms: seq<string>, delimiter: string) returns (s: string)
    ensures s == Join(ms, delimiter)
  {
    if ms == [] { return ""; }
    s := ms[0];
    for i := 1 to |ms|
      invariant s == Join(ms[..i], delimiter)
    {
      assert ms[..i + 1][..i] == ms[..i];
      s := s + delimiter + ms[i];
    }
    assert ms[..|ms|] == ms;
  }

  class Sender {
    const sendRate: int
    var lastSendTime: int
    var peersSendData: map<Id, seq<string>>
    var deferred: seq<Parcel>

    constructor (sendRate: int, lastSendTime: int)
      ensures State() == Outbox(sendRate, lastSendTime, map[], [])
    {
      this.sendRate, this.lastSendTime, peersSendData, deferred := sendRate, lastSendTime, map[], [];
    }

    function State(): Outbox
      reads this
    {
      Outbox(sendRate, lastSendTime, peersSendData, deferred)
    }

    /** `send`; a CLOSE is never held back and never dropped. */
    method Send(to: Id, text: string, closing: bool, off: bool)
      modifies this
      ensures State() == Perform(old(State()), if closing then Close(to) else Text(to, text, off))
    {
      if off && !closing { return; }
      if closing {
        deferred := deferred + [Shut(to)];
      } else if sendRate == 0 {
        deferred := deferred + [One(to, text)];
      } else {
        if to !in peersSendData { peersSendData := peersSendData[to := []]; }
        peersSendData := peersSendData[to := peersSendData[to] + [text]];
      }
    }

    method HandleSend(now: int)
      modifies this
      ensures State() == Perform(old(State()), Flush(now))
    {
      if sendRate == 0 || lastSendTime + sendRate > now { return; }
      lastSendTime := lastSendTime + sendRate;
      deferred := deferred + [Batch(peersSendData)];
      peersSendData := map[];
    }
  }
}
