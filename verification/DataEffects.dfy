/** What the data commands put where, what talk carries to whom, and who may use them. */
module DataEffects {
  import opened FlatSets
  import opened AnyTypes
  import opened SharedData
  import opened GameState
  import opened Mail
  import opened Handlers
  import opened Membership
  import opened Invariants
  import opened Talks
  import opened Effects

  /** The host of a relay lobby. */
  predicate Commands(g: Game, p: Id)
    requires p in g.peers
  {
    var me := g.peers[p];
    me.lobbyId != "" && me.lobbyId in g.lobbies && g.lobbies[me.lobbyId].host == me.id && !g.config.scripted
  }

  /** Data with `patch` put over it, announced and clean. */
  ghost predicate Settled(old': Tracked, patch: Dict, now: Tracked)
  {
    Overlaid(old'.data, patch, now.data) && now.diff == map[] && !now.dirty
  }

  lemma CommandsIff(g: Game, p: Id)
    requires Acting(g, p)
    ensures Commands(g, p) <==> RelayRefusal(g, p) == ""
    ensures AtLobby(g, p) == g
  {
  }

  lemma RosterOnce(g: Game, l: Id)
    requires Weak(g) && l in g.lobbies
    ensures NoDup(g.lobbies[l].peerIds) && IsClean(g.lobbies[l].shared)
  {
    assert LobbyWeak(g, l);
    SortedNoDup(g.lobbies[l].peerIds);
  }

  lemma EntryClean(g: Game, q: Id)
    requires Weak(g)
    ensures IsClean(At(g.peers, q).shared)
  {
    if q in g.peers { assert PeerWeak(g, q); }
  }

  // ----- the lobby's data -----

  /** Every connected member is sent the command's object, nulls and all, unless it is empty. */
  lemma LobbyDataEffect(g: Game, p: Id, patch: Dict)
    requires Weak(g) && Acting(g, p)
    ensures var o, me := OnLobbyData(g, p, patch), g.peers[p];
            if Commands(g, p) then
              && me.lobbyId in o.g.lobbies
              && var b, b' := g.lobbies[me.lobbyId], o.g.lobbies[me.lobbyId];
                 && o.g == g.(lobbies := g.lobbies[me.lobbyId := b']) && b' == b.(shared := b'.shared)
                 && Settled(b.shared, patch, b'.shared)
                 && forall c :: NotesTo(o.outs, c) ==
                      if patch != map[] && c !in g.disconnected && (c in b.peerIds || c == me.id)
                      then [LobbyData(patch)] else []
            else OnlyRefused(g, o, me.id)
  {
    hide NotesTo, Broadcast, Send, OnlyRefused, Weak, Settled;
    CommandsIff(g, p);
    var me := g.peers[p];
    FailRefuses(g, me.id, RelayRefusal(g, p));
    if Commands(g, p) {
      var b := g.lobbies[me.lobbyId];
      RosterOnce(g, me.lobbyId);
      MergeClean(b.shared, patch);
      MergeSettles(b.shared, patch);
      NobodySays();
      forall c { ToldNotes(g.disconnected, b.peerIds, me.id, LobbyData(patch), LobbyData(patch), c); }
    }
  }

  lemma MergeSettles(t: Tracked, patch: Dict)
    requires IsClean(t)
    ensures Settled(t, patch, Flushed(Merge(t, patch)))
    ensures Settled(t, patch, if Merge(t, patch).dirty then Flushed(Merge(t, patch)) else Merge(t, patch))
  {
    PatchOverlays(t.data, patch);
    MergeClean(t, patch);
  }

  // ----- members' data -----

  /** The diffs of the dirty among `targets`, in order. */
  function Diffs(peers: map<Id, Peer>, targets: seq<Id>): seq<Note>
  {
    if targets == [] then []
    else
      var n := |targets| - 1;
      var t := At(peers, targets[n]).shared;
      Diffs(peers, targets[..n]) + if t.dirty then [DataTo(targets[n], t.diff)] else []
  }

  lemma {:induction false} DiffsTold(off: map<Id, int>, ids: seq<Id>, targets: seq<Id>, peers: map<Id, Peer>, c: Id)
    requires NoDup(ids)
    ensures NotesTo(DiffNotes(off, ids, targets, peers), c) == if c in ids && c !in off then Diffs(peers, targets) else []
  {
    hide NotesTo, Broadcast, NoDup;
    NobodySays();
    if targets != [] {
      var n := |targets| - 1;
      var t := At(peers, targets[n]).shared;
      var last := if t.dirty then Broadcast(off, ids, {}, DataTo(targets[n], t.diff)) else [];
      DiffsTold(off, ids, targets[..n], peers, c);
      NotesConcat(DiffNotes(off, ids, targets[..n], peers), last, c);
      if t.dirty { BroadcastNotes(off, ids, {}, DataTo(targets[n], t.diff), c); }
    }
  }

  /** One note for each target. */
  function Announcements(targets: seq<Id>, patch: Dict): seq<Note>
  {
    seq(|targets|, i requires 0 <= i < |targets| => DataTo(targets[i], patch))
  }

  lemma {:induction false} DiffsAnnounce(peers: map<Id, Peer>, targets: seq<Id>, patch: Dict)
    requires forall q :: q in targets ==> At(peers, q).shared.diff == patch && At(peers, q).shared.dirty
    ensures Diffs(peers, targets) == Announcements(targets, patch)
  {
    if targets != [] { DiffsAnnounce(peers, targets[..|targets| - 1], patch); }
  }

  lemma {:induction false} DiffsNone(peers: map<Id, Peer>, targets: seq<Id>)
    requires forall q :: q in targets ==> !At(peers, q).shared.dirty
    ensures Diffs(peers, targets) == []
  {
    if targets != [] { DiffsNone(peers, targets[..|targets| - 1]); }
  }

  /** The entries after `patch` was put on each of `targets`; one without an entry gets it on a new one. */
  ghost predicate Shared(g: Game, g': Game, targets: seq<Id>, patch: Dict)
  {
    && g' == g.(peers := g'.peers) && (forall q :: q in g'.peers <==> q in g.peers || q in targets)
    && (forall q :: q in g.peers && q !in targets ==> g'.peers[q] == g.peers[q])
    && (forall q :: q in targets && q in g'.peers ==>
          && g'.peers[q] == At(g.peers, q).(shared := g'.peers[q].shared)
          && Settled(At(g.peers, q).shared, patch, g'.peers[q].shared))
  }

  lemma SharesPatch(g: Game, ids: seq<Id>, targets: seq<Id>, patch: Dict)
    requires Weak(g)
    ensures var o := SendPeerDiffs(g, ids, targets, MergePeers(Touch(g.peers, targets), targets, patch));
            Shared(g, o.g, targets, patch)
  {
    hide Weak, Merge, Settled, DiffNotes;
    var o := SendPeerDiffs(g, ids, targets, MergePeers(Touch(g.peers, targets), targets, patch));
    forall q | q in targets ensures Settled(At(g.peers, q).shared, patch, o.g.peers[q].shared) {
      EntryClean(g, q);
      MergeSettles(At(g.peers, q).shared, patch);
    }
  }

  lemma SharesTell(g: Game, ids: seq<Id>, targets: seq<Id>, patch: Dict, c: Id)
    requires Weak(g) && NoDup(ids)
    ensures var o := SendPeerDiffs(g, ids, targets, MergePeers(Touch(g.peers, targets), targets, patch));
            NotesTo(o.outs, c) ==
            if patch != map[] && c in ids && c !in g.disconnected then Announcements(targets, patch) else []
  {
    hide Weak, NotesTo, DiffNotes, NoDup, Diffs, Merge;
    var peers := MergePeers(Touch(g.peers, targets), targets, patch);
    DiffsTold(g.disconnected, ids, targets, peers, c);
    forall q | q in targets
      ensures At(peers, q).shared.diff == patch && (At(peers, q).shared.dirty <==> patch != map[])
    {
      EntryClean(g, q);
      MergeClean(At(g.peers, q).shared, patch);
    }
    if patch != map[] { DiffsAnnounce(peers, targets, patch); } else { DiffsNone(peers, targets); }
  }

  /** The target alone gets the data; every connected member is sent them, and the host is told it is done. */
  lemma DataToEffect(g: Game, p: Id, target: Id, patch: Dict)
    requires Weak(g) && Acting(g, p)
    ensures var o, me := OnDataTo(g, p, target, patch), g.peers[p];
            if Commands(g, p) && target != "" && target in g.lobbies[me.lobbyId].peerIds then
              && Shared(g, o.g, [target], patch)
              && forall c :: NotesTo(o.outs, c) ==
                   (if patch != map[] && c in g.lobbies[me.lobbyId].peerIds && c !in g.disconnected
                    then [DataTo(target, patch)] else []) +
                   (if c == me.id && c !in g.disconnected then [Done] else [])
            else OnlyRefused(g, o, me.id)
  {
    hide NotesTo, Send, OnlyRefused, Weak, SendPeerDiffs, MergePeers, Touch, Shared, RelayRefusal;
    CommandsIff(g, p);
    var me := g.peers[p];
    FailRefuses(g, me.id, RelayRefusal(g, p));
    FailRefuses(g, me.id, "ERROR_PEER_NOT_FOUND");
    if Commands(g, p) && target != "" && target in g.lobbies[me.lobbyId].peerIds {
      var ids := g.lobbies[me.lobbyId].peerIds;
      RosterOnce(g, me.lobbyId);
      SharesPatch(g, ids, [target], patch);
      var o := SendPeerDiffs(g, ids, [target], MergePeers(Touch(g.peers, [target]), [target], patch));
      assert Announcements([target], patch) == [DataTo(target, patch)];
      forall c ensures NotesTo(OnDataTo(g, p, target, patch).outs, c) ==
                       NotesTo(o.outs, c) + if c == me.id && c !in g.disconnected then [Done] else []
      {
        NotesConcat(o.outs, Send(g.disconnected, me.id, Done), c);
        SendNotes(g.disconnected, me.id, Done, c);
      }
      forall c { SharesTell(g, ids, [target], patch, c); }
    }
  }

  /** Every member gets the data, one after the other, and every connected member is sent them all. */
  lemma DataToAllEffect(g: Game, p: Id, patch: Dict)
    requires Weak(g) && Acting(g, p)
    ensures var o, me := OnDataToAll(g, p, patch), g.peers[p];
            if Commands(g, p) then
              var ids := g.lobbies[me.lobbyId].peerIds;
              && Shared(g, o.g, ids, patch)
              && forall c :: NotesTo(o.outs, c) ==
                   (if patch != map[] && c in ids && c !in g.disconnected then Announcements(ids, patch) else []) +
                   (if c == me.id && c !in g.disconnected then [Done] else [])
            else OnlyRefused(g, o, me.id)
  {
    hide NotesTo, Send, OnlyRefused, Weak, SendPeerDiffs, MergePeers, Touch, Shared, RelayRefusal;
    CommandsIff(g, p);
    var me := g.peers[p];
    FailRefuses(g, me.id, RelayRefusal(g, p));
    if Commands(g, p) {
      var ids := g.lobbies[me.lobbyId].peerIds;
      RosterOnce(g, me.lobbyId);
      SharesPatch(g, ids, ids, patch);
      var o := SendPeerDiffs(g, ids, ids, MergePeers(Touch(g.peers, ids), ids, patch));
      forall c ensures NotesTo(OnDataToAll(g, p, patch).outs, c) ==
                       NotesTo(o.outs, c) + if c == me.id && c !in g.disconnected then [Done] else []
      {
        NotesConcat(o.outs, Send(g.disconnected, me.id, Done), c);
        SendNotes(g.disconnected, me.id, Done, c);
      }
      forall c { SharesTell(g, ids, ids, patch, c); }
    }
  }
}
