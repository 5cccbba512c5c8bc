/** The list client behind the send queue: updates of an earlier connection may come first, and do no harm. */
module ListDelivery {
  import opened FlatSets
  import opened GameState
  import opened Mail
  import opened Handlers
  import opened Membership
  import opened Runs
  import opened Listing
  import opened ListingRuns
  import opened Delivery
  import B = Batching

  /** The LIST that makes `c` a subscriber. */
  predicate Subscribes(g: Game, s: Step, c: Id)
  {
    s.List? && s.p == c && c in g.peers && g.peers[c].id == c && c !in g.listing
  }

  /** Everything accepted before the last such LIST. */
  ghost function ListBefore(g: Game, steps: seq<Step>, c: Id): seq<Out>
    requires Legal(g, steps)
  {
    if steps == [] then []
    else
      var n := |steps| - 1;
      if Subscribes(After(g, steps[..n]), steps[n], c) then ListBefore(g, steps[..n], c) + ListSince(g, steps[..n], c)
      else ListBefore(g, steps[..n], c)
  }

  /** Everything accepted since, beginning with its reply. */
  ghost function ListSince(g: Game, steps: seq<Step>, c: Id): seq<Out>
    requires Legal(g, steps)
  {
    if steps == [] then []
    else
      var n := |steps| - 1;
      var outs := Apply(After(g, steps[..n]), steps[n]).outs;
      if Subscribes(After(g, steps[..n]), steps[n], c) then outs else ListSince(g, steps[..n], c) + outs
  }

  /** Together they are all notes for `c`. */
  lemma {:induction false} ListNotesAreAll(g: Game, steps: seq<Step>, c: Id)
    requires Legal(g, steps)
    ensures NotesTo(ListBefore(g, steps, c), c) + NotesTo(ListSince(g, steps, c), c) == AllNotes(g, steps, c)
  {
    hide Enabled, Apply, NotesTo, Subscribes;
    if steps == [] {
      assert NotesTo([], c) + NotesTo([], c) == AllNotes(g, steps, c);
    } else {
      var n := |steps| - 1;
      var before, since := ListBefore(g, steps[..n], c), ListSince(g, steps[..n], c);
      var outs := Apply(After(g, steps[..n]), steps[n]).outs;
      ListNotesAreAll(g, steps[..n], c);
      AllNotesInOrder(g, steps, c);
      NotesConcat(before, since, c);
      NotesConcat(since, outs, c);
      Joined3(NotesTo(before, c), NotesTo(since, c), NotesTo(outs, c));
    }
  }

  /** What a reader of list messages holds who starts from `known`. */
  function Reads(known: map<Id, Summary>, notes: seq<Note>): map<Id, Summary>
  {
    if notes == [] then known
    else
      var n := |notes| - 1;
      var k := Reads(known, notes[..n]);
      if notes[n].LobbyList? then Upserts(k, notes[n].items) else k
  }

  /** Whoever lists after a note has listed before. */
  lemma ListingLearns(v: ListView, n: Note)
    requires LearnList(v, n).Listing?
    ensures v.Listing? && LearnList(v, n) == v.(known := Reads(v.known, [n]))
  {
    hide Upserts;
    assert [n][..0] == [] && Reads(v.known, []) == v.known;
  }

  lemma ReadsMore(known: map<Id, Summary>, notes: seq<Note>, n: Note)
    ensures Reads(known, notes + [n]) == Reads(Reads(known, notes), [n])
  {
    hide Upserts;
    assert (notes + [n])[..|notes|] == notes && [n][..0] == [];
    var k := Reads(known, notes);
    assert Reads(k, []) == k;
  }

  /** Whoever lists at the end has listed all along, and holds what the list messages say. */
  lemma {:induction false} ListingIsReading(v: ListView, outs: seq<Out>, c: Id)
    requires DeliverList(v, outs, c).Listing?
    ensures v.Listing? && DeliverList(v, outs, c) == v.(known := Reads(v.known, NotesTo(outs, c)))
  {
    hide LearnList, Upserts;
    if outs != [] {
      var n := |outs| - 1;
      var w, before, last := DeliverList(v, outs[..n], c), NotesTo(outs[..n], c), outs[n].note;
      if outs[n].to == c { ListingLearns(w, last); }
      ListingIsReading(v, outs[..n], c);
      ReadsMore(v.known, before, last);
      assert before + [] == before;
    }
  }

  lemma {:induction false} DeliverListConcat(v: ListView, a: seq<Out>, b: seq<Out>, c: Id)
    ensures DeliverList(v, a + b, c) == DeliverList(DeliverList(v, a, c), b, c)
  {
    if b == [] {
      assert a + b == a;
    } else {
      var n := |b| - 1;
      DeliverListConcat(v, a, b[..n], c);
      assert (a + b)[..|a + b| - 1] == a + b[..n];
    }
  }

  /** A subscriber's list depends on nothing that was accepted before its LIST, and starts with the reply. */
  lemma {:induction false} ListStartsAtReply(g: Game, steps: seq<Step>, c: Id)
    requires Legal(g, steps) && FinalList(g, steps, c).Listing?
    ensures var v, notes := FinalList(g, steps, c), NotesTo(ListSince(g, steps, c), c);
            && v == DeliverList(v.(known := map[]), ListSince(g, steps, c), c)
            && v.known == Reads(map[], notes) && notes != [] && notes[0].LobbyList?
  {
    hide Enabled, Apply, DeliverList, NotesTo, Reads;
    var n := |steps| - 1;
    var h, s, w := After(g, steps[..n]), steps[n], FinalList(g, steps[..n], c);
    var v, outs := FinalList(g, steps, c), Apply(h, s).outs;
    ListingIsReading(Before(h, s, c, w), outs, c);
    if Subscribes(h, s, c) {
      ReplyFirst(h, s, c);
    } else {
      var since := ListSince(g, steps[..n], c);
      SubscribedBefore(h, s, c, w);
      ListStartsAtReply(g, steps[..n], c);
      DeliverListConcat(v.(known := map[]), since, outs, c);
      NotesConcat(since, outs, c);
      ListingIsReading(v.(known := map[]), since + outs, c);
    }
  }

  lemma SubscribedBefore(g: Game, s: Step, c: Id, v: ListView)
    requires Enabled(g, s) && !Subscribes(g, s, c) && Before(g, s, c, v).Listing?
    ensures Before(g, s, c, v) == v
  {
  }

  lemma ReplyFirst(g: Game, s: Step, c: Id)
    requires Enabled(g, s) && Subscribes(g, s, c)
    ensures var notes := NotesTo(Apply(g, s).outs, c); notes != [] && notes[0].LobbyList?
    ensures Before(g, s, c, NotListing) == Listing(map[], |s.order| <= 100, g.peers[c].lobbyId)
    ensures forall v: ListView :: Before(g, s, c, v) == Before(g, s, c, NotListing)
  {
    hide Entries;
    var outs := Apply(g, s).outs;
    assert |outs| == 1 && outs[..0] == [];
    assert NotesTo(outs, c) == NotesTo(outs[..0], c) + [outs[0].note];
  }

  /**
   End to end: in a batched game all of whose notes for `c` were flushed, a subscriber that got at least the reply to
   its LIST and what follows is right, once it has applied these, about every lobby with no update pending.  Whatever
   was accepted before, such as updates for an earlier connection, comes before the reply, which the subscriber knows by
   the id of its command, and takes no part.
   */
  lemma FlushedList(
    config: Config, steps: seq<Step>, c: Id, rate: int, last: int, acts: seq<B.Act>,
    write: Note -> string, read: string -> Note, lost: nat)
    requires Legal(NewGame(config), steps) && NoIntrusion(NewGame(config), steps) && c != ""
    requires FinalList(NewGame(config), steps, c).Listing? && FinalList(NewGame(config), steps, c).complete
    requires rate != 0 && forall n :: n in AllNotes(NewGame(config), steps, c) ==> read(write(n)) == n
    requires forall i :: 0 <= i < |acts| && acts[i].Text? ==> B.Whole(acts[i].text)
    requires B.Accepted(acts, c) == Texts(AllNotes(NewGame(config), steps, c), write)
    requires var o := B.PerformAll(B.Outbox(rate, last, map[], []), acts);
             && B.WaitingFor(o.waiting, c) == []
             && lost <= |B.Frames(o.deferred, c)|
             && |B.ReadBack(B.Frames(o.deferred, c)[..lost])| <= |NotesTo(ListBefore(NewGame(config), steps, c), c)|
    ensures var g, o := After(NewGame(config), steps), B.PerformAll(B.Outbox(rate, last, map[], []), acts);
            var got := Notes(B.ReadBack(B.Frames(o.deferred, c)[lost..]), read);
            var since := NotesTo(ListSince(NewGame(config), steps, c), c);
            && |since| <= |got| && got[|got| - |since|..] == since && since != [] && since[0].LobbyList?
            && var v := Listing(Reads(map[], since), true, FinalList(NewGame(config), steps, c).own);
               forall l :: l !in g.updated ==> EntryRight(g, v, l)
  {
    hide Enabled, Apply, Legal, After, NoIntrusion, ListBefore, ListSince, NotesTo, Texts, Notes, AllNotes, Reads;
    hide FinalList, DeliverList, EntryRight, NewGame;
    hide B.PerformAll, B.Accepted, B.Frames, B.ReadBack, B.Whole;
    var g0 := NewGame(config);
    var frames := B.Frames(B.PerformAll(B.Outbox(rate, last, map[], []), acts).deferred, c);
    B.FramesConserve(rate, last, acts, c);
    assert frames == frames[..lost] + frames[lost..];
    ReadBackConcat(frames[..lost], frames[lost..]);
    var before, since := NotesTo(ListBefore(g0, steps, c), c), NotesTo(ListSince(g0, steps, c), c);
    ListNotesAreAll(g0, steps, c);
    GotSuffix(B.ReadBack(frames[..lost]), B.ReadBack(frames[lost..]), before, since, write, read);
    ListStartsAtReply(g0, steps, c);
    EveryRunKeepsList(config, steps, c);
  }
}
