/**
 The same through the send queue: messages wait in batches, a close does not empty them, and a flush after a reconnect
 hands the new connection what was accepted for the old one.
 */
module Delivery {
  import opened FlatSets
  import opened GameState
  import opened Mail
  import opened Handlers
  import opened Membership
  import opened Runs
  import opened Replica
  import opened ReplicaRuns
  import B = Batching

  // ----- folding notes instead of outputs -----

  function Learns(v: View, notes: seq<Note>): View
  {
    if notes == [] then v else Learn(Learns(v, notes[..|notes| - 1]), notes[|notes| - 1])
  }

  lemma {:induction false} DeliverIsLearns(v: View, outs: seq<Out>, c: Id)
    ensures Deliver(v, outs, c) == Learns(v, NotesTo(outs, c))
  {
    if outs != [] {
      var n := |outs| - 1;
      DeliverIsLearns(v, outs[..n], c);
      var before := NotesTo(outs[..n], c);
      assert (before + [outs[n].note])[..|before|] == before && before + [] == before;
    }
  }

  lemma {:induction false} LearnsConcat(v: View, a: seq<Note>, b: seq<Note>)
    ensures Learns(v, a + b) == Learns(Learns(v, a), b)
  {
    if b == [] {
      assert a + b == a;
    } else {
      var n := |b| - 1;
      LearnsConcat(v, a, b[..n]);
      assert (a + b)[..|a + b| - 1] == a + b[..n];
    }
  }

  // ----- texts -----

  function Texts(notes: seq<Note>, write: Note -> string): seq<string>
  {
    seq(|notes|, i requires 0 <= i < |notes| => write(notes[i]))
  }

  function Notes(texts: seq<string>, read: string -> Note): seq<Note>
  {
    seq(|texts|, i requires 0 <= i < |texts| => read(texts[i]))
  }

  lemma {:induction false} ReadBackConcat(a: seq<string>, b: seq<string>)
    ensures B.ReadBack(a + b) == B.ReadBack(a) + B.ReadBack(b)
  {
    hide B.Elements;
    if b == [] {
      assert a + b == a;
    } else {
      var n := |b| - 1;
      ReadBackConcat(a, b[..n]);
      assert (a + b)[..|a + b| - 1] == a + b[..n];
    }
  }

  /** All notes accepted for `c` in the run: those up to its last OPEN, and those since. */
  ghost function AllNotes(g: Game, steps: seq<Step>, c: Id): seq<Note>
    requires Legal(g, steps)
  {
    NotesTo(OutsBefore(g, steps, c), c) + NotesTo(OutsSince(g, steps, c), c)
  }

  /** It is what the steps sent, in order. */
  lemma {:induction false} AllNotesInOrder(g: Game, steps: seq<Step>, c: Id)
    requires Legal(g, steps) && steps != []
    ensures var n := |steps| - 1;
            AllNotes(g, steps, c) == AllNotes(g, steps[..n], c) + NotesTo(Apply(After(g, steps[..n]), steps[n]).outs, c)
  {
    hide Enabled, Apply, NotesTo;
    var n := |steps| - 1;
    var outs := Apply(After(g, steps[..n]), steps[n]).outs;
    NotesConcat(OutsBefore(g, steps[..n], c), OutsSince(g, steps[..n], c), c);
    NotesConcat(OutsSince(g, steps[..n], c), outs, c);
    Joined3(NotesTo(OutsBefore(g, steps[..n], c), c), NotesTo(OutsSince(g, steps[..n], c), c), NotesTo(outs, c));
  }

  lemma Joined3(a: seq<Note>, b: seq<Note>, c: seq<Note>)
    ensures a + (b + c) == (a + b) + c
  {
  }

  /**
   End to end, in a batched game whose notes were the texts accepted for `c` and were all flushed: a connection that
   got the last frames, at least from the answer to its OPEN on, ends with the lobby exactly, whatever backlog of earlier
   connections came first and whatever the client held.
   */
  lemma FlushedReplica(
    config: Config, steps: seq<Step>, c: Id, rate: int, last: int, acts: seq<B.Act>,
    write: Note -> string, read: string -> Note, lost: nat, v: View)
    requires Legal(NewGame(config), steps)
    requires AllSettled(NewGame(config), steps) && Tidy(NewGame(config), steps)
    requires c in Active(After(NewGame(config), steps))
    requires rate != 0 && forall n :: n in AllNotes(NewGame(config), steps, c) ==> read(write(n)) == n
    requires forall i :: 0 <= i < |acts| && acts[i].Text? ==> B.Whole(acts[i].text)
    requires B.Accepted(acts, c) == Texts(AllNotes(NewGame(config), steps, c), write)
    requires var o := B.PerformAll(B.Outbox(rate, last, map[], []), acts);
             && B.WaitingFor(o.waiting, c) == []
             && lost <= |B.Frames(o.deferred, c)|
             && |B.ReadBack(B.Frames(o.deferred, c)[..lost])| <= |NotesTo(OutsBefore(NewGame(config), steps, c), c)|
    ensures var g, o := After(NewGame(config), steps), B.PerformAll(B.Outbox(rate, last, map[], []), acts);
            var w := Learns(v, Notes(B.ReadBack(B.Frames(o.deferred, c)[lost..]), read));
            Acting(g, c) && if w.Unsynced? then Waiting(g, c) else w == Snapshot(g, c)
  {
    hide Enabled, Apply, AllSettled, Tidy, Legal, After, OutsBefore, OutsSince, Learns, Deliver, NotesTo, Texts, Notes;
    hide B.PerformAll, B.Accepted, B.Frames, B.ReadBack, B.Whole, Acting, Waiting, Snapshot, Active, NewGame;
    var g0 := NewGame(config);
    var frames := B.Frames(B.PerformAll(B.Outbox(rate, last, map[], []), acts).deferred, c);
    B.FramesConserve(rate, last, acts, c);
    assert frames == frames[..lost] + frames[lost..];
    ReadBackConcat(frames[..lost], frames[lost..]);
    var k := |B.ReadBack(frames[..lost])|;
    var before, since := NotesTo(OutsBefore(g0, steps, c), c), NotesTo(OutsSince(g0, steps, c), c);
    GotSuffix(B.ReadBack(frames[..lost]), B.ReadBack(frames[lost..]), before, since, write, read);
    LearnsConcat(v, before[k..], since);
    var u := Learns(v, before[k..]);
    DeliverIsLearns(u, OutsSince(g0, steps, c), c);
    ReplicaIsExact(config, steps, c, u);
  }

  /** What was not lost, read back, is the rest of the backlog and then all notes since. */
  lemma GotSuffix(
    gone: seq<string>, got: seq<string>, before: seq<Note>, since: seq<Note>,
    write: Note -> string, read: string -> Note)
    requires gone + got == Texts(before + since, write) && |gone| <= |before|
    requires forall n :: n in before + since ==> read(write(n)) == n
    ensures Notes(got, read) == before[|gone|..] + since
  {
    forall i | 0 <= i < |got| ensures read(got[i]) == (before[|gone|..] + since)[i] {
      assert got[i] == (gone + got)[|gone| + i] == write((before + since)[|gone| + i]);
    }
    assert |gone + got| == |before + since|;
  }

  // ----- the backlog of a closed connection -----

  lemma {:induction false} LegalBegins(g: Game, steps: seq<Step>, more: seq<Step>, c: Id)
    requires Legal(g, steps + more)
    ensures Legal(g, steps) && AllNotes(g, steps, c) <= AllNotes(g, steps + more, c)
  {
    hide Enabled, Apply, AllNotes, NotesTo;
    if more == [] {
      assert steps + more == steps;
    } else {
      var n := |more| - 1;
      assert (steps + more)[..|steps + more| - 1] == steps + more[..n];
      LegalBegins(g, steps, more[..n], c);
      AllNotesInOrder(g, steps + more, c);
    }
  }

  /** Without a flush everything accepted waits, and nothing is handed over. */
  lemma {:induction false} Gathered(rate: int, last: int, acts: seq<B.Act>, c: Id)
    requires rate != 0 && forall i :: 0 <= i < |acts| ==> !acts[i].Flush?
    ensures var o := B.PerformAll(B.Outbox(rate, last, map[], []), acts);
            && o.rate == rate && o.last == last
            && B.WaitingFor(o.waiting, c) == B.Accepted(acts, c) && B.Frames(o.deferred, c) == []
  {
    if acts != [] {
      var n := |acts| - 1;
      Gathered(rate, last, acts[..n], c);
      var ds := B.PerformAll(B.Outbox(rate, last, map[], []), acts[..n]).deferred;
      if acts[n].Close? { assert (ds + [B.Shut(acts[n].to)])[..|ds|] == ds; }
    }
  }

  /** As in every run that orphans nobody: `c` has its own entry, or none and no mark of being disconnected. */
  predicate Returns(g: Game, c: Id)
  {
    if c in g.peers then g.peers[c].id == c else c !in g.disconnected
  }

  lemma ConnectSays(g: Game, c: Id)
    requires c != "" && Returns(g, c)
    ensures var notes := NotesTo(OnConnect(g, c).outs, c); |notes| == 1 && notes[0].PeerState?
  {
    var outs := OnConnect(g, c).outs;
    assert |outs| == 1 && outs[..0] == [];
    assert NotesTo(outs, c) == NotesTo(outs[..0], c) + [outs[0].note];
  }

  /**
   A close does not empty the queue.  If nothing is flushed before a peer that closed is back, one batch on the new
   connection holds everything accepted for the old one, and then the notice that answers the new one, last.
   */
  lemma BacklogFirst(
    g: Game, before: seq<Step>, closedAt: int, between: seq<Step>, c: Id,
    rate: int, last: int, acts: seq<B.Act>, now: int, write: Note -> string)
    requires Legal(g, before + [Step.Close(c, closedAt)] + between) && c != ""
    requires Returns(After(g, before + [Step.Close(c, closedAt)] + between), c)
    requires rate != 0 && last + rate <= now && forall i :: 0 <= i < |acts| ==> !acts[i].Flush?
    requires var steps := before + [Step.Close(c, closedAt)] + between + [Connect(c)];
             Legal(g, steps) ==> B.Accepted(acts, c) == Texts(AllNotes(g, steps, c), write)
    ensures var steps := before + [Step.Close(c, closedAt)] + between + [Connect(c)];
            && Legal(g, before) && Legal(g, steps)
            && var notes := AllNotes(g, steps, c);
               && notes != [] && AllNotes(g, before, c) <= notes[..|notes| - 1] && notes[|notes| - 1].PeerState?
               && B.Frames(B.PerformAll(B.Outbox(rate, last, map[], []), acts + [B.Flush(now)]).deferred, c) ==
                  [B.Wire(Texts(notes, write))]
  {
    hide AllNotes, NotesTo, Legal, After, Enabled, B.Accepted, Active, NewGame;
    var shut := before + [Step.Close(c, closedAt)] + between;
    var steps := shut + [Connect(c)];
    ReturnIsLegal(g, shut, c);
    assert shut == before + ([Step.Close(c, closedAt)] + between);
    LegalBegins(g, before, [Step.Close(c, closedAt)] + between, c);
    AllNotesInOrder(g, steps, c);
    assert steps[..|steps| - 1] == shut;
    ConnectSays(After(g, shut), c);
    var said := NotesTo(OnConnect(After(g, shut), c).outs, c);
    assert AllNotes(g, steps, c) == AllNotes(g, shut, c) + said;
    Gathered(rate, last, acts, c);
    var o := B.PerformAll(B.Outbox(rate, last, map[], []), acts);
    assert (acts + [B.Flush(now)])[..|acts|] == acts;
    assert (o.deferred + [B.Batch(o.waiting)])[..|o.deferred|] == o.deferred;
  }

  lemma ReturnIsLegal(g: Game, steps: seq<Step>, c: Id)
    requires Legal(g, steps) && c != ""
    ensures Legal(g, steps + [Connect(c)]) && Apply(After(g, steps), Connect(c)) == OnConnect(After(g, steps), c)
  {
    assert (steps + [Connect(c)])[..|steps|] == steps;
  }
}
