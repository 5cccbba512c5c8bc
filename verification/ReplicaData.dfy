/** Public data: every broadcast diff takes the clients' copies to the server's. */
module ReplicaData {
  import opened FlatSets
  import opened AnyTypes
  import opened SharedData
  import opened GameState
  import opened Handlers
  import opened Membership
  import opened Invariants
  import opened Replica
  import opened ReplicaSteps

  /** A view after the diffs of the dirty targets, one after the other. */
  function Patches(v: View, targets: seq<Id>, peers: map<Id, Peer>): View
  {
    if targets == [] then v
    else
      var n := |targets| - 1;
      var w, t := Patches(v, targets[..n], peers), At(peers, targets[n]).shared;
      if t.dirty then Learn(w, DataTo(targets[n], t.diff)) else w
  }

  lemma {:induction false} DeliverDiffs(
    v: View, off: map<Id, int>, ids: seq<Id>, targets: seq<Id>, peers: map<Id, Peer>, c: Id)
    requires NoDup(ids)
    ensures Deliver(v, DiffNotes(off, ids, targets, peers), c) ==
            if c in ids && c !in off then Patches(v, targets, peers) else v
  {
    hide Broadcast, Learn, Deliver;
    if targets != [] {
      var n := |targets| - 1;
      var t := At(peers, targets[n]).shared;
      var first := DiffNotes(off, ids, targets[..n], peers);
      var last := if t.dirty then Broadcast(off, ids, {}, DataTo(targets[n], t.diff)) else [];
      DeliverDiffs(v, off, ids, targets[..n], peers, c);
      DeliverConcat(v, first, last, c);
      if t.dirty {
        DeliverBroadcast(Deliver(v, first, c), off, ids, {}, DataTo(targets[n], t.diff), c);
      } else {
        DeliverNothing(Deliver(v, first, c), c);
      }
    } else {
      DeliverNothing(v, c);
    }
  }

  lemma DeliverNothing(v: View, c: Id)
    ensures Deliver(v, [], c) == v
  {
  }

  /** The diffs change the data of the dirty targets, and nothing else. */
  lemma {:induction false} PatchesMembers(v: View, targets: seq<Id>, peers: map<Id, Peer>)
    requires NoDup(targets)
    ensures var r := Patches(v, targets, peers);
            && (!v.Inside? ==> r == v)
            && (v.Inside? ==>
                  && r.Inside? && r.members.Keys == v.members.Keys && r == v.(members := r.members)
                  && (forall q :: q in v.members ==>
                        var t := At(peers, q).shared;
                        r.members[q] == if q in targets && t.dirty
                                        then v.members[q].(data := Patch(v.members[q].data, t.diff))
                                        else v.members[q]))
  {
    hide Patch;
    if targets != [] {
      var n := |targets| - 1;
      PatchesMembers(v, targets[..n], peers);
      assert targets == targets[..n] + [targets[n]];
    }
  }

  /** The data of `q` as the diffs in `peers` announce it. */
  predicate Announces(before: Peer, shared: Tracked, after: Peer)
  {
    && after.ready == before.ready && after.disconnected == before.disconnected
    && Strip(after.shared.data) ==
       if shared.dirty then Patch(Strip(before.shared.data), shared.diff) else Strip(before.shared.data)
  }

  /** Peer data of lobby `l` changed as announced. */
  ghost predicate PeersAnnounced(g: Game, g': Game, l: Id, targets: seq<Id>, peers: map<Id, Peer>)
    requires l in g.lobbies
  {
    && g'.peers.Keys == g.peers.Keys && g'.disconnected == g.disconnected
    && (forall q :: q in g.peers && q !in g.lobbies[l].peerIds ==> g'.peers[q] == g.peers[q])
    && (forall q :: q in g.lobbies[l].peerIds ==>
          && q in g.peers && q in peers && g'.peers[q].lobbyId == g.peers[q].lobbyId
          && (if q in targets then Announces(g.peers[q], peers[q].shared, g'.peers[q])
              else g'.peers[q] == g.peers[q]))
  }

  lemma PatchedInner(g: Game, g': Game, l: Id, targets: seq<Id>, peers: map<Id, Peer>)
    requires l in g.lobbies && g'.lobbies == g.lobbies && NoDup(targets) && PeersAnnounced(g, g', l, targets, peers)
    ensures Patches(Inner(g, l), targets, peers) == Inner(g', l)
  {
    hide Strip, Patch, Patches;
    var v, r, ids := Inner(g, l), Patches(Inner(g, l), targets, peers), g.lobbies[l].peerIds;
    PatchesMembers(v, targets, peers);
    forall q | q in ids ensures r.members[q] == SeenAt(g', q) {
      assert v.members[q] == SeenAt(g, q);
    }
    assert r.members == MembersOf(g', ids);
  }

  lemma DiffsInStep(g: Game, g': Game, l: Id, targets: seq<Id>, peers: map<Id, Peer>, c: Id, v: View)
    requires Inv(g) && l in g.lobbies && NoDup(targets) && InStep(g, c, v)
    requires g'.lobbies == g.lobbies && PeersAnnounced(g, g', l, targets, peers)
    ensures var ids := g.lobbies[l].peerIds;
            InStep(g', c, Deliver(v, DiffNotes(g.disconnected, ids, targets, peers), c))
  {
    hide Weak, Strong, Deliver, DiffNotes, Patches, Strip, Patch, MembersOf;
    Roster(g, l);
    DeliverDiffs(v, g.disconnected, g.lobbies[l].peerIds, targets, peers, c);
    if c in g.lobbies[l].peerIds && c !in g.disconnected {
      ConnectedMember(g, l, c, v);
      PatchedInner(g, g', l, targets, peers);
      PatchesMembers(v, targets, peers);
      MemberStep(g, g', l, c, v, Patches(v, targets, peers));
    } else {
      Elsewhere(g, g', l, c, v);
    }
  }

  // ----- lobby data -----

  /** The lobby's own data changed by `diff`, and every connected member learns it. */
  lemma LobbyDiffInStep(g: Game, l: Id, t: Tracked, diff: Dict, c: Id, v: View)
    requires Inv(g) && l in g.lobbies && InStep(g, c, v)
    requires Strip(t.data) == Patch(Strip(g.lobbies[l].shared.data), diff)
    ensures var ids := g.lobbies[l].peerIds;
            InStep(g.(lobbies := g.lobbies[l := g.lobbies[l].(shared := t)]), c,
                   if c in ids && c !in g.disconnected then Learn(v, LobbyData(diff)) else v)
  {
    hide Weak, Strong, Strip, Patch, MembersOf;
    var g' := g.(lobbies := g.lobbies[l := g.lobbies[l].(shared := t)]);
    Roster(g, l);
    if c in g.lobbies[l].peerIds && c !in g.disconnected {
      ConnectedMember(g, l, c, v);
      assert Inner(g', l) == Inner(g, l).(data := Strip(t.data)) by { SameMembers(g, g', g.lobbies[l].peerIds); }
      MemberStep(g, g', l, c, v, Learn(v, LobbyData(diff)));
    } else {
      Elsewhere(g, g', l, c, v);
    }
  }

  lemma SameMembers(g: Game, g': Game, ids: seq<Id>)
    requires g'.peers == g.peers
    ensures MembersOf(g', ids) == MembersOf(g, ids)
  {
  }

  lemma LobbyDataInStep(g: Game, p: Id, patch: Dict, c: Id, v: View)
    requires Inv(g) && p in Active(g) && Acting(g, p) && InStep(g, c, v)
    ensures var o := OnLobbyData(g, p, patch); InStep(o.g, c, Deliver(v, o.outs, c))
  {
    hide Weak, Strong, Deliver, InStep, Merge, Learn, Patch, Strip, Broadcast;
    var me := g.peers[p];
    Self(g, p);
    RefusalInStep(g, p, RelayRefusal(g, p), c, v);
    if RelayRefusal(g, p) == "" {
      var l := me.lobbyId;
      var b := g.lobbies[l];
      Roster(g, l);
      MergeClean(b.shared, patch);
      MergeExact(b.shared, patch);
      var t := Merge(b.shared, patch);
      if t.dirty {
        ToAll(v, g.disconnected, b.peerIds, p, LobbyData(t.diff), c);
        LobbyDiffInStep(g, l, Flushed(t), t.diff, c, v);
      } else {
        DeliverNothing(v, c);
        assert g.lobbies[l := b.(shared := t)] == g.lobbies;
      }
    }
  }

  // ----- peer data -----

  lemma MergeAnnounced(g: Game, l: Id, targets: seq<Id>, patch: Dict)
    requires Inv(g) && l in g.lobbies && forall t :: t in targets ==> t in g.lobbies[l].peerIds
    ensures var peers := MergePeers(g.peers, targets, patch);
            PeersAnnounced(g, SendPeerDiffs(g, g.lobbies[l].peerIds, targets, peers).g, l, targets, peers)
  {
    hide Weak, Strong, Patch, Strip, Merge, SendPeerDiffs, DiffNotes;
    Roster(g, l);
    CleanParts(g, l);
    SentPeers(g, g.lobbies[l].peerIds, targets, patch);
    var peers := MergePeers(g.peers, targets, patch);
    forall q | q in targets ensures Announces(g.peers[q], peers[q].shared, Patched(g.peers[q], true, patch)) {
      MergeClean(g.peers[q].shared, patch);
      MergeExact(g.peers[q].shared, patch);
      MergedData(g.peers[q].shared, patch);
    }
  }

  lemma MergedData(t: Tracked, patch: Dict)
    ensures Merge(t, patch).data == Patch(t.data, patch)
  {
  }

  lemma PeerDiffsInStep(g: Game, p: Id, l: Id, targets: seq<Id>, patch: Dict, c: Id, v: View)
    requires Inv(g) && l in g.lobbies && NoDup(targets) && InStep(g, c, v)
    requires forall t :: t in targets ==> t in g.lobbies[l].peerIds
    ensures var o := SendPeerDiffs(g, g.lobbies[l].peerIds, targets, MergePeers(Touch(g.peers, targets), targets, patch));
            InStep(o.g, c, Deliver(v, o.outs + Send(g.disconnected, p, Done), c))
  {
    hide Weak, Strong, Deliver, InStep, DiffNotes, Send, PeersAnnounced;
    Roster(g, l);
    TouchHits(g.peers, targets);
    var o := SendPeerDiffs(g, g.lobbies[l].peerIds, targets, MergePeers(g.peers, targets, patch));
    MergeAnnounced(g, l, targets, patch);
    DiffsInStep(g, o.g, l, targets, MergePeers(g.peers, targets, patch), c, v);
    DeliverConcat(v, o.outs, Send(g.disconnected, p, Done), c);
    DeliverSend(Deliver(v, o.outs, c), g.disconnected, p, Done, c);
  }

  lemma DataToInStep(g: Game, p: Id, target: Id, patch: Dict, c: Id, v: View)
    requires Inv(g) && Acting(g, p) && InStep(g, c, v)
    ensures var o := OnDataTo(g, p, target, patch); InStep(o.g, c, Deliver(v, o.outs, c))
  {
    hide Weak, Strong, Deliver, InStep, SendPeerDiffs, MergePeers, Touch;
    Self(g, p);
    RefusalInStep(g, p, RelayRefusal(g, p), c, v);
    RefusalInStep(g, p, "ERROR_PEER_NOT_FOUND", c, v);
    var l := g.peers[p].lobbyId;
    if RelayRefusal(g, p) == "" && target in g.lobbies[l].peerIds {
      PeerDiffsInStep(g, p, l, [target], patch, c, v);
    }
  }

  lemma DataToAllInStep(g: Game, p: Id, patch: Dict, c: Id, v: View)
    requires Inv(g) && Acting(g, p) && InStep(g, c, v)
    ensures var o := OnDataToAll(g, p, patch); InStep(o.g, c, Deliver(v, o.outs, c))
  {
    hide Weak, Strong, Deliver, InStep, SendPeerDiffs, MergePeers, Touch;
    Self(g, p);
    RefusalInStep(g, p, RelayRefusal(g, p), c, v);
    var l := g.peers[p].lobbyId;
    if RelayRefusal(g, p) == "" {
      Roster(g, l);
      PeerDiffsInStep(g, p, l, g.lobbies[l].peerIds, patch, c, v);
    }
  }

  // ----- script calls -----

  /** No write of the call drops a key that clients see. */
  predicate CallDropsNoKey(g: Game, l: Id, lobbyWrites: seq<Write>, peerWrites: map<Id, seq<Write>>)
    requires l in g.lobbies
  {
    && DropsNoKey(g.lobbies[l].shared.data, lobbyWrites)
    && forall q :: q in peerWrites && q in g.peers ==> DropsNoKey(g.peers[q].shared.data, peerWrites[q])
  }

  lemma WritesAnnounced(g: Game, l: Id, peerWrites: map<Id, seq<Write>>, written: map<Id, Peer>, g': Game)
    requires Inv(g) && l in g.lobbies && (forall q :: q in peerWrites ==> q in g.lobbies[l].peerIds)
    requires forall q :: q in peerWrites && q in g.peers ==> DropsNoKey(g.peers[q].shared.data, peerWrites[q])
    requires g'.peers.Keys == g.peers.Keys && g'.disconnected == g.disconnected && written.Keys == g.peers.Keys
    requires forall q :: q in g.peers ==> g'.peers[q] == PeerAfterWrites(g.peers[q], q, peerWrites)
    requires forall q :: q in g.peers && q in peerWrites ==>
               written[q].shared == ApplyWrites(g.peers[q].shared, peerWrites[q])
    requires forall q :: q in g.peers && q !in peerWrites ==> written[q].shared == g.peers[q].shared
    ensures PeersAnnounced(g, g', l, g.lobbies[l].peerIds, written)
  {
    hide Weak, Strong, Strip, Patch, ApplyWrites, DropsNoKey;
    Roster(g, l);
    CleanParts(g, l);
    forall q | q in g.lobbies[l].peerIds ensures Announces(g.peers[q], written[q].shared, g'.peers[q]) {
      if q in peerWrites { ScriptDiffExact(g.peers[q].shared, peerWrites[q]); }
    }
  }

  lemma CallInStep(
    g: Game, p: Id, lobbyWrites: seq<Write>, peerWrites: map<Id, seq<Write>>, c: Id, v: View)
    requires Inv(g) && Acting(g, p) && InStep(g, c, v)
    requires g.peers[p].lobbyId != "" ==>
               && (forall q :: q in peerWrites ==> q in g.lobbies[g.peers[p].lobbyId].peerIds)
               && CallDropsNoKey(g, g.peers[p].lobbyId, lobbyWrites, peerWrites)
    ensures var o := OnCall(g, p, lobbyWrites, peerWrites); InStep(o.g, c, Deliver(v, o.outs, c))
  {
    hide Weak, Strong, Deliver, InStep, NotifyChanges;
    Self(g, p);
    RefusalInStep(g, p, "ERROR_PEER_NOT_IN_A_LOBBY", c, v);
    RefusalInStep(g, p, "ERROR_GAME_NOT_SCRIPTED", c, v);
    var l := g.peers[p].lobbyId;
    if l != "" && g.config.scripted {
      var o := NotifyChanges(Written(g, l, lobbyWrites, peerWrites), l);
      NotifyInStep(g, l, lobbyWrites, peerWrites, c, v);
      DeliverConcat(v, o.outs, Send(g.disconnected, p, Done), c);
      DeliverSend(Deliver(v, o.outs, c), g.disconnected, p, Done, c);
    }
  }

  /** The lobby's diff, broadcast after `notes`. */
  lemma LobbyDiffSent(g: Game, l: Id, t: Tracked, diff: Dict, c: Id, v: View, notes: seq<Out>)
    requires Inv(g) && l in g.lobbies && InStep(g, c, Deliver(v, notes, c))
    requires Strip(t.data) == Patch(Strip(g.lobbies[l].shared.data), diff)
    ensures var last := Broadcast(g.disconnected, g.lobbies[l].peerIds, {}, LobbyData(diff));
            InStep(g.(lobbies := g.lobbies[l := g.lobbies[l].(shared := t)]), c, Deliver(v, notes + last, c))
  {
    hide Weak, Strong, Deliver, InStep, Broadcast, Strip, Patch, Learn;
    Roster(g, l);
    var ids := g.lobbies[l].peerIds;
    LobbyDiffInStep(g, l, t, diff, c, Deliver(v, notes, c));
    DeliverConcat(v, notes, Broadcast(g.disconnected, ids, {}, LobbyData(diff)), c);
    DeliverBroadcast(Deliver(v, notes, c), g.disconnected, ids, {}, LobbyData(diff), c);
  }

  lemma NotifyInStep(
    g: Game, l: Id, lobbyWrites: seq<Write>, peerWrites: map<Id, seq<Write>>, c: Id, v: View)
    requires Inv(g) && l in g.lobbies && InStep(g, c, v)
    requires (forall q :: q in peerWrites ==> q in g.lobbies[l].peerIds) && CallDropsNoKey(g, l, lobbyWrites, peerWrites)
    ensures var o := NotifyChanges(Written(g, l, lobbyWrites, peerWrites), l); InStep(o.g, c, Deliver(v, o.outs, c))
  {
    hide Weak, Strong, Deliver, InStep, DiffNotes, Broadcast, ApplyWrites, PeersAnnounced, Strip, Patch, DropsNoKey, Learn;
    Roster(g, l);
    CleanParts(g, l);
    var b, ids := g.lobbies[l], g.lobbies[l].peerIds;
    var w := Written(g, l, lobbyWrites, peerWrites);
    TouchHits(g.peers, ids);
    TouchHits(w.peers, ids);
    CallEffect(g, l, lobbyWrites, peerWrites);
    var o := NotifyChanges(w, l);
    var t := ApplyWrites(b.shared, lobbyWrites);
    ScriptDiffExact(b.shared, lobbyWrites);
    // first the peers' diffs, then the lobby's
    var g1 := g.(peers := o.g.peers);
    WritesAnnounced(g, l, peerWrites, w.peers, g1);
    DiffsInStep(g, g1, l, ids, w.peers, c, v);
    var notes := DiffNotes(g.disconnected, ids, ids, w.peers);
    if t.dirty {
      CallMiddle(g, g1, l, peerWrites);
      LobbyDiffSent(g1, l, Flushed(t), t.diff, c, v, notes);
    } else {
      assert o.g == g1 by { assert g.lobbies[l := b.(shared := Clean(t.data))] == g.lobbies; }
    }
  }

  /** Between the two halves of the broadcast the game is in order as well. */
  lemma CallMiddle(g: Game, g1: Game, l: Id, peerWrites: map<Id, seq<Write>>)
    requires Inv(g) && g1 == g.(peers := g1.peers) && g1.peers.Keys == g.peers.Keys
    requires forall q :: q in g.peers ==> g1.peers[q] == PeerAfterWrites(g.peers[q], q, peerWrites)
    ensures Inv(g1)
  {
    hide Weak, Strong, ApplyWrites;
    FrameBoth(g, g1);
  }
}
