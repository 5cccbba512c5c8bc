/** What the loops of the game thread have done after part of their walk, and how one more turn continues it. */
module Walks {
  import opened FlatSets
  import opened AnyTypes
  import opened SharedData
  import opened GameState
  import Handlers

  // ----- look-ups -----

  lemma NoTouch(peers: map<Id, Peer>)
    ensures Touch(peers, []) == peers
  {
  }

  lemma TouchOne(peers: map<Id, Peer>, q: Id)
    ensures Touch(peers, [q]) == peers[q := At(peers, q)]
    ensures At(peers[q := At(peers, q)], q) == At(peers, q)
  {
  }

  // ----- members leaving and being told -----

  /** The entries after a walk in which `p`, or everyone, leaves. */
  function Vacated(peers: map<Id, Peer>, ids: seq<Id>, p: Id, everyone: bool): map<Id, Peer>
  {
    map q | q in peers.Keys + (set x | x in ids) ::
      if q in ids && (everyone || q == p) then LeaveLobby(At(peers, q)) else At(peers, q)
  }

  lemma VacatedStep(peers: map<Id, Peer>, ids: seq<Id>, i: nat, p: Id, everyone: bool)
    requires i < |ids|
    ensures var m, q := Vacated(peers, ids[..i], p, everyone), ids[i];
            Vacated(peers, ids[..i + 1], p, everyone) ==
            m[q := if everyone || q == p then LeaveLobby(At(m, q)) else At(m, q)]
  {
    var m, n, q := Vacated(peers, ids[..i], p, everyone), Vacated(peers, ids[..i + 1], p, everyone), ids[i];
    assert ids[..i + 1] == ids[..i] + [q];
    assert n.Keys == m.Keys + {q};
    forall x | x in n && x != q ensures x in m && n[x] == m[x] {}
  }

  lemma BroadcastStep(off: map<Id, int>, ids: seq<Id>, i: nat, skip: set<Id>, note: Note)
    requires i < |ids|
    ensures Broadcast(off, ids[..i + 1], skip, note) ==
            Broadcast(off, ids[..i], skip, note) + if ids[i] in skip then [] else GameState.Send(off, ids[i], note)
  {
    assert ids[..i + 1][..i] == ids[..i];
  }

  lemma TouchStep(peers: map<Id, Peer>, ids: seq<Id>, i: nat)
    requires i < |ids|
    ensures var m := Touch(peers, ids[..i]);
            Touch(peers, ids[..i + 1]) == m[ids[i] := At(m, ids[i])] && At(m, ids[i]) == At(peers, ids[i])
  {
    var m, n := Touch(peers, ids[..i]), Touch(peers, ids[..i + 1]);
    assert ids[..i + 1] == ids[..i] + [ids[i]];
    assert n.Keys == m.Keys + {ids[i]};
  }

  lemma Regroup(before: seq<Out>, a: seq<Out>, b: seq<Out>, c: seq<Out>)
    ensures before + a + b + c == before + (a + b + c)
    ensures a + b + [] == a + b && before + a + b + [] == before + a + b
  {
  }

  /** A refused join leaves the state alone. */
  lemma RefusalKeeps(g: Game, p: Id, wanted: Id, password: string, can: bool)
    requires p in g.peers && !Handlers.OnJoin(g, p, wanted, password, can).joined
    ensures Handlers.OnJoin(g, p, wanted, password, can).g == g
  {
  }

  lemma {:induction false} ArrayOfTouched(peers: map<Id, Peer>, touched: seq<Id>, ids: seq<Id>)
    ensures PeersArray(Touch(peers, touched), ids) == PeersArray(peers, ids)
  {
    if ids != [] { ArrayOfTouched(peers, touched, ids[..|ids| - 1]); }
  }

  /** The part of a command's object merged so far. */
  function Part(patch: Dict, keys: seq<string>): Dict
    requires forall k :: k in keys ==> k in patch
  {
    map k | k in keys :: patch[k]
  }

  lemma PartStep(t: Tracked, patch: Dict, keys: seq<string>, i: nat)
    requires i < |keys| && forall k :: k in keys ==> k in patch
    ensures Merge(t, Part(patch, keys[..i + 1])) ==
            MergeKey(Merge(t, Part(patch, keys[..i])), keys[i], patch[keys[i]])
  {
    MergeStep(t, Part(patch, keys[..i]), keys[i], patch[keys[i]]);
    assert keys[..i + 1] == keys[..i] + [keys[i]];
    assert Part(patch, keys[..i + 1]) == Part(patch, keys[..i])[keys[i] := patch[keys[i]]];
  }

  lemma PartEnds(t: Tracked, patch: Dict, keys: seq<string>)
    requires forall k :: k in keys <==> k in patch
    ensures Part(patch, keys) == patch && Merge(t, Part(patch, keys[..0])) == t
  {
    assert Part(patch, keys) == patch;
    assert Part(patch, keys[..0]) == map[];
    assert Patch(t.data, map[]) == t.data && t.diff + map[] == t.diff;
  }

  // ----- sharing data with members -----

  /** A member's entry after the command's object was merged and its diff sent. */
  function Settle(e: Peer, patch: Dict): Peer
  {
    var t := Merge(e.shared, patch);
    e.(shared := if t.dirty then Flushed(t) else t)
  }

  function Shared(peers: map<Id, Peer>, ids: seq<Id>, patch: Dict): map<Id, Peer>
  {
    map q | q in peers.Keys + (set x | x in ids) :: if q in ids then Settle(At(peers, q), patch) else peers[q]
  }

  function Merged(peers: map<Id, Peer>, ids: seq<Id>, patch: Dict): map<Id, Peer>
  {
    Handlers.MergePeers(Touch(peers, ids), ids, patch)
  }

  lemma ShareNone(peers: map<Id, Peer>, ids: seq<Id>, patch: Dict)
    ensures Shared(peers, ids[..0], patch) == peers
  {
  }

  lemma NotYet(targets: seq<Id>, i: nat)
    requires i < |targets| && NoDup(targets)
    ensures targets[i] !in targets[..i] && targets[..i + 1] == targets[..i] + [targets[i]]
  {
  }

  lemma ShareOne(peers: map<Id, Peer>, targets: seq<Id>, i: nat, patch: Dict)
    requires i < |targets| && NoDup(targets)
    ensures var m, q := Shared(peers, targets[..i], patch), targets[i];
            && At(m, q) == At(peers, q)
            && Shared(peers, targets[..i + 1], patch) == m[q := Settle(At(peers, q), patch)]
  {
    hide Settle, NoDup;
    NotYet(targets, i);
    ShareMore(peers, targets[..i], targets[i], patch);
  }

  lemma ShareMore(peers: map<Id, Peer>, before: seq<Id>, q: Id, patch: Dict)
    requires q !in before
    ensures Shared(peers, before + [q], patch) == Shared(peers, before, patch)[q := Settle(At(peers, q), patch)]
  {
    hide Settle, At;
    var m, n := Shared(peers, before, patch), Shared(peers, before + [q], patch);
    assert n.Keys == m.Keys + {q};
    forall x | x in n && x != q ensures x in m && n[x] == m[x] {}
  }

  lemma NoteOne(off: map<Id, int>, peers: map<Id, Peer>, ids: seq<Id>, targets: seq<Id>, i: nat, patch: Dict)
    requires i < |targets|
    ensures var t, all := Merge(At(peers, targets[i]).shared, patch), Merged(peers, targets, patch);
            DiffNotes(off, ids, targets[..i + 1], all) ==
            DiffNotes(off, ids, targets[..i], all) +
            if t.dirty then Broadcast(off, ids, {}, DataTo(targets[i], t.diff)) else []
  {
    hide Merge, Broadcast;
    assert targets[..i + 1][..i] == targets[..i];
    assert targets[i] in targets;
  }

  lemma SharedIs(g: Game, ids: seq<Id>, targets: seq<Id>, patch: Dict)
    ensures var all := Handlers.MergePeers(Touch(g.peers, targets), targets, patch);
            && all == Merged(g.peers, targets, patch)
            && Handlers.SendPeerDiffs(g, ids, targets, all) ==
               Handlers.Outcome(g.(peers := Shared(g.peers, targets, patch)), DiffNotes(g.disconnected, ids, targets, all))
  {
    hide Merge, DiffNotes;
    var all := Merged(g.peers, targets, patch);
    assert Handlers.SendPeerDiffs(g, ids, targets, all).g.peers == Shared(g.peers, targets, patch);
  }

  lemma NoNotes(off: map<Id, int>, ids: seq<Id>, targets: seq<Id>, peers: map<Id, Peer>)
    ensures DiffNotes(off, ids, targets[..0], peers) == []
  {
  }

  lemma MergeNothing(t: Tracked)
    ensures Merge(t, map[]) == t
  {
    assert Patch(t.data, map[]) == t.data && t.diff + map[] == t.diff;
  }

  lemma MergedNothing(peers: map<Id, Peer>, ids: seq<Id>)
    ensures Merged(peers, ids, map[]) == Touch(peers, ids)
  {
    hide Merge;
    forall q | q in Touch(peers, ids) ensures Merge(At(peers, q).shared, map[]) == At(peers, q).shared {
      MergeNothing(At(peers, q).shared);
    }
    assert Merged(peers, ids, map[]) == Touch(peers, ids);
  }

  // ----- rosters are flat sets -----

  /** Every roster is kept sorted. */
  ghost predicate FlatRosters(g: Game)
  {
    forall l :: l in g.lobbies ==> Sorted(g.lobbies[l].peerIds)
  }

  lemma FlatSought(g: Game, l: Id)
    requires FlatRosters(g)
    ensures FlatRosters(Sought(g, l)) && NoDup(Sought(g, l).lobbies[l].peerIds)
  {
    SortedNoDup(Sought(g, l).lobbies[l].peerIds);
  }

  /** The members a command of `p` is about. */
  function Members(g: Game, p: Id): seq<Id>
    requires p in g.peers
  {
    var l := g.peers[p].lobbyId;
    if l == "" then [] else Sought(g, l).lobbies[l].peerIds
  }

  lemma FlatMembers(g: Game, p: Id)
    requires FlatRosters(g) && p in g.peers
    ensures NoDup(Members(g, p))
  {
    if g.peers[p].lobbyId != "" { FlatSought(g, g.peers[p].lobbyId); }
  }

  // ----- a script's writes, target by target -----

  datatype ScriptWrite = ToLobby(w: Write) | ToPeer(q: Id, w: Write)

  predicate Reaches(script: seq<ScriptWrite>, ids: seq<Id>)
  {
    forall i :: 0 <= i < |script| && script[i].ToPeer? ==> script[i].q in ids
  }

  function LobbyWrites(script: seq<ScriptWrite>): seq<Write>
  {
    if script == [] then []
    else
      var n := |script| - 1;
      LobbyWrites(script[..n]) + if script[n].ToLobby? then [script[n].w] else []
  }

  function WritesTo(script: seq<ScriptWrite>, q: Id): seq<Write>
  {
    if script == [] then []
    else
      var n := |script| - 1;
      WritesTo(script[..n], q) + if script[n].ToPeer? && script[n].q == q then [script[n].w] else []
  }

  function PeerWrites(script: seq<ScriptWrite>, ids: seq<Id>): map<Id, seq<Write>>
  {
    map q | q in ids :: WritesTo(script, q)
  }

  lemma ScriptStart(g: Game, l: Id, script: seq<ScriptWrite>)
    requires l in g.lobbies
    ensures Handlers.Written(g, l, LobbyWrites(script[..0]), PeerWrites(script[..0], g.lobbies[l].peerIds)) ==
            g.(peers := Touch(g.peers, g.lobbies[l].peerIds))
  {
    var ids := g.lobbies[l].peerIds;
    var r := Handlers.Written(g, l, [], PeerWrites([], ids));
    assert r.lobbies == g.lobbies;
    assert r.peers == Touch(g.peers, ids);
  }

  /** Writes to different targets do not disturb each other. */
  lemma ScriptStep(script: seq<ScriptWrite>, i: nat, ids: seq<Id>)
    requires i < |script| && (script[i].ToPeer? ==> script[i].q in ids)
    ensures var ws, pw := LobbyWrites(script[..i]), PeerWrites(script[..i], ids);
            match script[i]
            case ToLobby(w) => LobbyWrites(script[..i + 1]) == ws + [w] && PeerWrites(script[..i + 1], ids) == pw
            case ToPeer(q, w) =>
              LobbyWrites(script[..i + 1]) == ws && PeerWrites(script[..i + 1], ids) == pw[q := pw[q] + [w]]
  {
    assert script[..i + 1][..i] == script[..i];
    forall x | x in ids
      ensures WritesTo(script[..i + 1], x) ==
              WritesTo(script[..i], x) + if script[i].ToPeer? && script[i].q == x then [script[i].w] else []
    {
    }
    var ws, pw, pw' := LobbyWrites(script[..i]), PeerWrites(script[..i], ids), PeerWrites(script[..i + 1], ids);
    assert ws + [] == ws && forall x | x in ids :: WritesTo(script[..i], x) + [] == WritesTo(script[..i], x);
    match script[i]
    case ToLobby(_) => assert pw' == pw;
    case ToPeer(q, w) => assert pw' == pw[q := pw[q] + [w]];
  }

  lemma WriteAppended(t: Tracked, ws: seq<Write>, w: Write)
    ensures ApplyWrites(t, ws + [w]) == ApplyWrite(ApplyWrites(t, ws), w)
  {
    assert (ws + [w])[..|ws|] == ws;
  }

  lemma LobbyWritten(g: Game, l: Id, ws: seq<Write>, w: Write, pw: map<Id, seq<Write>>)
    requires l in g.lobbies
    ensures var r := Handlers.Written(g, l, ws, pw);
            Handlers.Written(g, l, ws + [w], pw) ==
            r.(lobbies := r.lobbies[l := r.lobbies[l].(shared := ApplyWrite(r.lobbies[l].shared, w))])
  {
    hide ApplyWrite, ApplyWrites, Touch;
    WriteAppended(g.lobbies[l].shared, ws, w);
  }

  lemma PeerWritten(g: Game, l: Id, ws: seq<Write>, pw: map<Id, seq<Write>>, q: Id, w: Write)
    requires l in g.lobbies && q in g.lobbies[l].peerIds && q in pw
    ensures var r := Handlers.Written(g, l, ws, pw);
            && q in r.peers
            && Handlers.Written(g, l, ws, pw[q := pw[q] + [w]]) ==
               r.(peers := r.peers[q := r.peers[q].(shared := ApplyWrite(r.peers[q].shared, w))])
  {
    hide ApplyWrite, ApplyWrites, At;
    var r, r' := Handlers.Written(g, l, ws, pw), Handlers.Written(g, l, ws, pw[q := pw[q] + [w]]);
    WriteAppended(At(g.peers, q).shared, pw[q], w);
    assert r'.peers == r.peers[q := r.peers[q].(shared := ApplyWrite(r.peers[q].shared, w))];
  }

  lemma ToMember(script: seq<ScriptWrite>, ids: seq<Id>, q: Id)
    requires q in ids
    ensures q in PeerWrites(script, ids)
  {
  }

  lemma WrittenKeeps(g: Game, l: Id, lobbyWrites: seq<Write>, peerWrites: map<Id, seq<Write>>)
    requires l in g.lobbies
    ensures var r := Handlers.Written(g, l, lobbyWrites, peerWrites);
            l in r.lobbies && r.lobbies[l].peerIds == g.lobbies[l].peerIds
  {
  }

  // ----- entering -----

  lemma {:induction false} SortOfTouched(peers: map<Id, Peer>, a: seq<Id>, b: seq<Id>, ids: seq<Id>)
    ensures SortByOrder(ids, Touch(peers, a)) == SortByOrder(ids, Touch(peers, a + b))
  {
    if ids != [] {
      var n := |ids| - 1;
      SortOfTouched(peers, a, b, ids[..n]);
      InsertOfTouched(peers, a, b, SortByOrder(ids[..n], Touch(peers, a)), ids[n]);
    }
  }

  lemma {:induction false} InsertOfTouched(peers: map<Id, Peer>, a: seq<Id>, b: seq<Id>, ids: seq<Id>, x: Id)
    ensures InsertByOrder(ids, x, Touch(peers, a)) == InsertByOrder(ids, x, Touch(peers, a + b))
  {
    if ids != [] {
      InsertOfTouched(peers, a, b, ids[..|ids| - 1], x);
    }
  }

  function Elements(ids: seq<Id>): set<Id>
  {
    set x | x in ids
  }

  // ----- quick join -----

  lemma TryNext(g: Game, p: Id, a: Handlers.CreateArgs, order: seq<Id>, cans: seq<bool>)
    requires p in g.peers && order != []
    ensures var l := order[0];
            Handlers.TryJoins(g, p, a, order, cans) ==
            if l !in g.lobbies then Handlers.TryJoins(g, p, a, order[1..], cans)
            else if !Handlers.Eligible(g, l, a.tags) then
              Handlers.TryJoins(Handlers.Considered(g, l), p, a, order[1..], cans)
            else
              var o := Handlers.OnJoin(Handlers.Considered(g, l), p, l, a.password, Handlers.Verdict(cans));
              var rest := Handlers.TryJoins(Handlers.Considered(g, l), p, a, order[1..], Handlers.Later(cans));
              if o.joined then o else Handlers.JoinOutcome(rest.joined, rest.g, o.outs + rest.outs)
  {
    hide Handlers.OnJoin, Handlers.Eligible, Handlers.Considered;
  }

  lemma NoneLeft(g: Game, p: Id, a: Handlers.CreateArgs, order: seq<Id>, cans: seq<bool>)
    requires p in g.peers && order == []
    ensures Handlers.TryJoins(g, p, a, order, cans) == Handlers.JoinOutcome(false, g, [])
  {
  }

  /** The whole walk is what was done so far and then the rest. */
  ghost predicate Continues(all: Handlers.JoinOutcome, done: seq<Out>, rest: Handlers.JoinOutcome)
  {
    all == Handlers.JoinOutcome(rest.joined, rest.g, done + rest.outs)
  }

  lemma VacatedThenLeft(g: Game, b: Lobby, p: Id)
    ensures var m := Vacated(g.peers, b.peerIds, p, Handlers.Disbands(g, b, p));
            m[p := At(m, p).(lobbyId := "", ready := false)] == Handlers.PeersAfterRemoval(g, b, p)
  {
    var m, n := Vacated(g.peers, b.peerIds, p, Handlers.Disbands(g, b, p)), Handlers.PeersAfterRemoval(g, b, p);
    assert n.Keys == m.Keys + {p};
  }

  lemma ConsideredIs(g: Game, l: Id)
    requires l in g.lobbies && Handlers.HasRoom(g.lobbies[l])
    ensures var b := g.lobbies[l];
            Handlers.Considered(g, l) ==
            if b.host != "" then g.(peers := g.peers[b.host := At(g.peers, b.host)]) else g
  {
    var h := g.lobbies[l].host;
    assert Touch(g.peers, [h]) == g.peers[h := At(g.peers, h)];
  }
}
