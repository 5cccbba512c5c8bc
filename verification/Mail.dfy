/** Who is sent what: the notes of an output that are for one recipient, in order. */
module Mail {
  import opened FlatSets
  import opened GameState

  function NotesTo(outs: seq<Out>, c: Id): seq<Note>
  {
    if outs == [] then []
    else
      var n := |outs| - 1;
      NotesTo(outs[..n], c) + if outs[n].to == c then [outs[n].note] else []
  }

  lemma {:induction false} NotesConcat(a: seq<Out>, b: seq<Out>, c: Id)
    ensures NotesTo(a + b, c) == NotesTo(a, c) + NotesTo(b, c)
  {
    if b == [] {
      assert a + b == a;
    } else {
      var n := |b| - 1;
      NotesConcat(a, b[..n], c);
      assert (a + b)[..|a + b| - 1] == a + b[..n];
    }
  }

  /** Nobody who is marked disconnected is sent anything. */
  lemma SendNotes(off: map<Id, int>, to: Id, note: Note, c: Id)
    ensures NotesTo(Send(off, to, note), c) == if c == to && c !in off then [note] else []
  {
    if to !in off {
      var s := Send(off, to, note);
      assert s[..0] == [];
      assert NotesTo(s, c) == NotesTo(s[..0], c) + if to == c then [note] else [];
    }
  }

  lemma {:induction false} BroadcastNotes(off: map<Id, int>, ids: seq<Id>, skip: set<Id>, note: Note, c: Id)
    requires NoDup(ids)
    ensures NotesTo(Broadcast(off, ids, skip, note), c) == if c in ids && c !in skip && c !in off then [note] else []
  {
    hide NoDup;
    if ids != [] {
      var n := |ids| - 1;
      LastOnce(ids);
      BroadcastNotes(off, ids[..n], skip, note, c);
      NotesConcat(Broadcast(off, ids[..n], skip, note), if ids[n] in skip then [] else Send(off, ids[n], note), c);
      SendNotes(off, ids[n], note, c);
    }
  }

  lemma LastOnce(ids: seq<Id>)
    requires NoDup(ids) && ids != []
    ensures NoDup(ids[..|ids| - 1])
    ensures forall c :: c in ids <==> c in ids[..|ids| - 1] || c == ids[|ids| - 1]
    ensures ids[|ids| - 1] !in ids[..|ids| - 1]
  {
    assert ids == ids[..|ids| - 1] + [ids[|ids| - 1]];
  }

  /** All members but one are told one thing, and that one another, or the same. */
  lemma ToldNotes(off: map<Id, int>, ids: seq<Id>, p: Id, note: Note, own: Note, c: Id)
    requires NoDup(ids)
    ensures NotesTo(Broadcast(off, ids, {p}, note) + Send(off, p, own), c) ==
            if c in off then [] else if c == p then [own] else if c in ids then [note] else []
  {
    hide NotesTo, Broadcast, Send, NoDup;
    NotesConcat(Broadcast(off, ids, {p}, note), Send(off, p, own), c);
    BroadcastNotes(off, ids, {p}, note, c);
    SendNotes(off, p, own, c);
  }
}
