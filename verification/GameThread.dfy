/**
 The game thread as it is written: the handlers update one game's containers in place and walk over the members.
 Each is proved equal, in its new state and in the messages it accepted, to its description in `Handlers`.
 */
module GameThreads {
  import opened FlatSets
  import opened AnyTypes
  import opened SharedData
  import opened GameState
  import opened Walks
  import Handlers
  import opened Talks

  class GameThread {
    const config: Config
    var peers: map<Id, Peer>
    var disconnectedPeers: map<Id, int>
    var lobbies: map<Id, Lobby>
    var lobbyListingPeers: set<Id>
    var lobbiesUpdated: set<Id>
    /** Every message `Send` accepted, in order. */
    var sent: seq<Out>

    constructor (config: Config)
      ensures State() == NewGame(config) && sent == []
    {
      this.config := config;
      peers, disconnectedPeers, lobbies, lobbyListingPeers, lobbiesUpdated, sent := map[], map[], map[], {}, {}, [];
    }

    function State(): Game
      reads this
    {
      Game(config, peers, disconnectedPeers, lobbies, lobbyListingPeers, lobbiesUpdated)
    }

    /** The call reached the state and added the messages that `o` says. */
    ghost predicate Did(o: Handlers.Outcome, before: seq<Out>)
      reads this
    {
      State() == o.g && sent == before + o.outs
    }

    method Send(to: Id, note: Note)
      modifies `sent
      ensures sent == old(sent) + GameState.Send(disconnectedPeers, to, note)
    {
      if to in disconnectedPeers { return; }
      sent := sent + [Out(to, note)];
    }

    /** `game.lobbies[l]`: an empty lobby is inserted when the id is missing. */
    method Lookup(l: Id) returns (b: Lobby)
      modifies `lobbies
      ensures State() == Sought(old(State()), l) && b == lobbies[l]
    {
      if l !in lobbies { lobbies := lobbies[l := NO_LOBBY]; }
      b := lobbies[l];
    }

    method OnError(to: Id, message: string)
      modifies `sent
      ensures Did(Handlers.Fail(State(), to, message), old(sent))
    {
      Send(to, Error(message));
    }

    /** The loop over members that skips some of them. */
    method SendToMembers(ids: seq<Id>, skip: set<Id>, note: Note)
      modifies `sent
      ensures sent == old(sent) + Broadcast(disconnectedPeers, ids, skip, note)
    {
      for i := 0 to |ids|
        invariant sent == old(sent) + Broadcast(disconnectedPeers, ids[..i], skip, note)
      {
        BroadcastStep(disconnectedPeers, ids, i, skip, note);
        if ids[i] in skip { continue; }
        Send(ids[i], note);
      }
      assert ids[..|ids|] == ids;
    }

    // ----- leaving -----

    /** The walks of a removal: `p`, or everyone, leaves; those not skipped are told. */
    method WalkOut(ids: seq<Id>, p: Id, everyone: bool, skip: set<Id>, note: Note)
      modifies `peers, `sent
      ensures peers == Vacated(old(peers), ids, p, everyone)
      ensures sent == old(sent) + Broadcast(disconnectedPeers, ids, skip, note)
    {
      assert peers == Vacated(peers, ids[..0], p, everyone);
      for i := 0 to |ids|
        invariant peers == Vacated(old(peers), ids[..i], p, everyone)
        invariant sent == old(sent) + Broadcast(disconnectedPeers, ids[..i], skip, note)
      {
        VacatedStep(old(peers), ids, i, p, everyone);
        BroadcastStep(disconnectedPeers, ids, i, skip, note);
        var q := ids[i];
        var entry := At(peers, q);
        peers := peers[q := if everyone || q == p then LeaveLobby(entry) else entry];
        if q !in skip { Send(q, note); }
      }
      assert ids[..|ids|] == ids;
    }

    method NextHost(ids: seq<Id>, p: Id) returns (host: Id)
      ensures host == FirstOther(ids, p)
    {
      host := "";
      for i := 0 to |ids|
        invariant host == "" && FirstOther(ids, p) == FirstOther(ids[i..], p)
      {
        if ids[i] != p { return ids[i]; }
      }
    }

    /** The first part of a removal: members leave and are told; the lobby's next host comes back. */
    method AnnounceRemoval(b: Lobby, p: Id, kicked: bool) returns (host: Id)
      modifies `peers, `sent
      ensures peers == Vacated(old(peers), b.peerIds, p, Handlers.Disbands(old(State()), b, p))
      ensures sent == old(sent) + Handlers.RemovalNotes(old(State()), b, p, kicked)
      ensures host == Handlers.LobbyAfterRemoval(old(State()), b, p).host
    {
      hide Vacated, Broadcast, FirstOther, GameState.Send;
      ghost var off, s0 := disconnectedPeers, sent;
      host := b.host;
      if p == b.host {
        if config.disbandOnLeave || !config.scripted || |b.peerIds| == 1 {
          WalkOut(b.peerIds, p, true, {p}, LobbyKicked);
          Send(p, LobbyLeft);
          Regroup(s0, Broadcast(off, b.peerIds, {p}, LobbyKicked), GameState.Send(off, p, LobbyLeft), []);
        } else {
          WalkOut(b.peerIds, p, false, {p}, PeerLeft(p, false));
          Send(p, LobbyLeft);
          host := NextHost(b.peerIds, p);
          SendToMembers(b.peerIds, {p}, Hosted(host));
          Regroup(s0, Broadcast(off, b.peerIds, {p}, PeerLeft(p, false)), GameState.Send(off, p, LobbyLeft),
                  Broadcast(off, b.peerIds, {p}, Hosted(host)));
        }
      } else {
        var skip, note := if kicked then {p, host} else {p}, if kicked then LobbyKicked else LobbyLeft;
        WalkOut(b.peerIds, p, false, skip, PeerLeft(p, kicked));
        Send(p, note);
        if kicked { Send(host, PeerLeft(p, true)); }
        Regroup(s0, Broadcast(off, b.peerIds, skip, PeerLeft(p, kicked)), GameState.Send(off, p, note),
                if kicked then GameState.Send(off, host, PeerLeft(p, true)) else []);
      }
    }

    method RemovePeerFromLobby(l: Id, p: Id, kicked: bool)
      requires l in lobbies
      modifies this
      ensures Did(Handlers.RemovePeer(old(State()), l, p, kicked), old(sent))
    {
      hide Vacated, Without, FirstOther, Handlers.PeersAfterRemoval, Handlers.RemovalNotes, LeaveLobby;
      ghost var g := State();
      var b := lobbies[l];
      var host := AnnounceRemoval(b, p, kicked);
      peers := peers[p := At(peers, p).(lobbyId := "", ready := false)];
      VacatedThenLeft(g, b, p);
      var b' := b.(host := host, peerIds := Without(b.peerIds, p), orderedIds := Without(b.orderedIds, p));
      lobbies := lobbies[l := b'];
      lobbiesUpdated := lobbiesUpdated + {b.id};
      if (p == b.host && config.disbandOnLeave) || b'.peerIds == [] {
        lobbies := lobbies - {b.id};
      }
    }

    method OnLeaveLobby(p: Id)
      requires p in peers
      modifies this
      ensures Did(Handlers.OnLeave(old(State()), p), old(sent))
    {
      hide Handlers.RemovePeer;
      var me := peers[p];
      if me.lobbyId == "" {
        OnError(me.id, "ERROR_PEER_NOT_IN_A_LOBBY");
      } else {
        var _ := Lookup(me.lobbyId);
        RemovePeerFromLobby(me.lobbyId, me.id, false);
      }
    }

    method OnKickPeer(p: Id, target: Id, can: bool)
      requires p in peers
      modifies this
      ensures Did(Handlers.OnKick(old(State()), p, target, can), old(sent))
    {
      hide Handlers.RemovePeer, Sought;
      var me := peers[p];
      if me.lobbyId == "" {
        OnError(me.id, "ERROR_PEER_NOT_IN_A_LOBBY");
        return;
      }
      var b := Lookup(me.lobbyId);
      if b.host != me.id {
        OnError(me.id, "ERROR_PEER_NOT_HOST");
      } else if target == "" || target !in b.peerIds {
        OnError(me.id, "ERROR_PEER_NOT_IN_A_LOBBY");
      } else if me.id == target {
        OnError(me.id, "ERROR_CANNOT_KICK_SELF");
      } else if !can {
        OnError(me.id, "script");
      } else {
        RemovePeerFromLobby(me.lobbyId, target, true);
      }
    }

    // ----- connections -----

    method OnConnect(p: Id)
      modifies this
      ensures Did(Handlers.OnConnect(old(State()), p), old(sent))
    {
      if p in peers {
        disconnectedPeers := disconnectedPeers - {p};
      } else {
        peers := peers[p := NewPeer(p)];
      }
      Send(peers[p].id, PeerState(ViewOf(peers[p])));
    }

    method OnClose(p: Id, now: int)
      modifies this
      ensures Did(Handlers.OnClose(old(State()), p, now), old(sent))
    {
      lobbyListingPeers := lobbyListingPeers - {p};
      if p !in peers { return; }
      peers := peers[p := peers[p].(ready := false, disconnected := true)];
      if p !in disconnectedPeers {
        disconnectedPeers := disconnectedPeers[p := now];
      }
      var l := peers[p].lobbyId;
      if l in lobbies {
        SendToMembers(lobbies[l].peerIds, {p}, PeerDisconnected(p));
      }
    }

    // ----- entering -----

    method PeersToArray(ids: seq<Id>) returns (views: seq<PeerView>)
      modifies `peers
      ensures peers == Touch(old(peers), ids) && views == PeersArray(peers, ids)
    {
      views := [];
      assert peers == Touch(peers, ids[..0]);
      for i := 0 to |ids|
        invariant peers == Touch(old(peers), ids[..i]) && views == PeersArray(old(peers), ids[..i])
      {
        TouchStep(old(peers), ids, i);
        assert ids[..i + 1][..i] == ids[..i];
        peers := peers[ids[i] := At(peers, ids[i])];
        views := views + [ViewOf(peers[ids[i]])];
      }
      assert ids[..|ids|] == ids;
      ArrayOfTouched(old(peers), ids, ids);
    }

    method OnCreateLobby(p: Id, a: Handlers.CreateArgs, can: bool)
      requires p in peers
      modifies this
      ensures Did(Handlers.OnCreate(old(State()), p, a, can), old(sent))
    {
      hide Broadcast, PeersArray, Touch, SummaryOf, Handlers.NewLobby;
      var me := peers[p];
      if me.lobbyId != "" {
        OnError(me.id, "ERROR_PEER_IS_IN_A_LOBBY");
        return;
      }
      if a.maxPlayers < 1 {
        OnError(me.id, "ERROR_LOBBY_FULL");
        return;
      }
      peers := peers[p := me.(lobbyId := a.id)];
      if a.id !in lobbies {
        lobbies := lobbies[a.id := Handlers.NewLobby(a, me.id)];
      }
      if !can {
        peers := peers[p := LeaveLobby(peers[p])];
        lobbies := lobbies - {a.id};
        assert peers == old(peers)[p := LeaveLobby(me)] && lobbies == old(lobbies) - {a.id};
        OnError(me.id, "script");
        return;
      }
      peers := peers[p := peers[p].(disconnected := false)];
      assert peers == old(peers)[p := me.(lobbyId := a.id, disconnected := false)];
      var b := lobbies[a.id];
      var views := PeersToArray(b.peerIds);
      Send(me.id, Created(SummaryOf(b), b.shared.data, views));
      lobbiesUpdated := lobbiesUpdated + {a.id};
    }

    method OnJoinLobby(p: Id, wanted: Id, password: string, can: bool) returns (joined: bool)
      requires p in peers
      modifies this
      ensures var o := Handlers.OnJoin(old(State()), p, wanted, password, can);
              joined == o.joined && Did(Handlers.Outcome(o.g, o.outs), old(sent))
    {
      var me := peers[p];
      var again := me.disconnected && me.lobbyId != "";
      var l := if again then me.lobbyId else wanted;
      if l == "" || l !in lobbies {
        OnError(me.id, "ERROR_LOBBY_NOT_FOUND");
        return false;
      }
      var b := lobbies[l];
      if !again {
        if me.lobbyId != "" {
          OnError(me.id, "ERROR_PEER_IS_IN_A_LOBBY");
          return false;
        }
        if b.password != password {
          OnError(me.id, "ERROR_LOBBY_WRONG_PASSWORD");
          return false;
        }
        if b.maxPlayers != 0 && |b.peerIds| >= U64(b.maxPlayers) {
          OnError(me.id, "ERROR_LOBBY_FULL");
          return false;
        }
      }
      if !can {
        OnError(me.id, "script");
        return false;
      }
      if again {
        Rejoin(p, l);
      } else {
        Enter(p, l);
      }
      return true;
    }

    /** A reconnecting member comes back: no slot is taken, nothing is listed. */
    method Rejoin(p: Id, l: Id)
      requires p in peers && l in lobbies
      modifies this
      ensures var o := Handlers.Rejoin(old(State()), p, l); Did(Handlers.Outcome(o.g, o.outs), old(sent))
    {
      hide Broadcast, PeersArray, Touch;
      var b := lobbies[l];
      peers := peers[p := peers[p].(ready := false)];
      peers := peers[p := peers[p].(disconnected := false)];
      assert peers == old(peers)[p := old(peers)[p].(ready := false, disconnected := false)];
      var me := peers[p];
      SendToMembers(b.peerIds, {me.id}, PeerReconnected(me.id));
      var views := PeersToArray(b.peerIds);
      Send(me.id, Joined(SummaryOf(b), b.shared.data, views));
    }

    method Enter(p: Id, l: Id)
      requires p in peers && l in lobbies
      modifies this
      ensures var o := Handlers.Enter(old(State()), p, l); Did(Handlers.Outcome(o.g, o.outs), old(sent))
    {
      hide Broadcast, PeersArray, Touch, Insert, SortByOrder;
      var b := lobbies[l];
      b := b.(orderCounter := b.orderCounter + 1);
      peers := peers[p := peers[p].(orderId := b.orderCounter, lobbyId := l)];
      var me := peers[p];
      b := b.(peerIds := Insert(b.peerIds, me.id), orderedIds := b.orderedIds + [me.id]);
      peers := peers[p := me.(disconnected := false)];
      me := peers[p];
      assert peers == old(peers)[p := me];
      ghost var before := peers;
      ghost var ordered := b.orderedIds;
      peers := Touch(peers, b.orderedIds);
      TouchTwice(before, ordered, b.peerIds);
      SortOfTouched(before, ordered, b.peerIds, ordered);
      b := b.(orderedIds := SortByOrder(b.orderedIds, peers));
      lobbies := lobbies[l := b];
      lobbiesUpdated := lobbiesUpdated + {l};
      SendToMembers(b.peerIds, {me.id}, PeerJoined(ViewOf(me)));
      var views := PeersToArray(b.peerIds);
      Send(me.id, Joined(SummaryOf(b), b.shared.data, views));
    }

    method OnQuickJoin(
      p: Id, wanted: Id, a: Handlers.CreateArgs, order: seq<Id>, cans: seq<bool>, can: bool)
      requires p in peers
      modifies this
      ensures Did(Handlers.OnQuickJoin(old(State()), p, wanted, a, order, cans, can), old(sent))
    {
      hide Handlers.OnJoin, Handlers.TryJoins, Handlers.OnCreate;
      ghost var g0 := State();
      var cs := cans;
      if peers[p].lobbyId != "" {
        var joined := OnJoinLobby(p, wanted, a.password, Handlers.Verdict(cs));
        if joined { return; }
        RefusalKeeps(g0, p, wanted, a.password, Handlers.Verdict(cs));
        cs := Handlers.Later(cs);
      }
      var joined := TryLobbies(p, a, order, cs);
      if !joined {
        Handlers.TryJoinsKeepsPeer(g0, p, a, order, cs);
        OnCreateLobby(p, a, can);
      }
    }

    method TryLobbies(p: Id, a: Handlers.CreateArgs, order: seq<Id>, cans: seq<bool>) returns (joined: bool)
      requires p in peers
      modifies this
      ensures var o := Handlers.TryJoins(old(State()), p, a, order, cans);
              joined == o.joined && Did(Handlers.Outcome(o.g, o.outs), old(sent))
    {
      hide Handlers.OnJoin, Handlers.TryJoins, Handlers.Eligible, Handlers.Considered, Handlers.Verdict, Handlers.Later;
      var cs := cans;
      ghost var all, done := Handlers.TryJoins(State(), p, a, order, cans), [];
      for i := 0 to |order|
        invariant p in peers
        invariant sent == old(sent) + done
        invariant Continues(all, done, Handlers.TryJoins(State(), p, a, order[i..], cs))
      {
        var l := order[i];
        TryNext(State(), p, a, order[i..], cs);
        assert order[i..][1..] == order[i + 1..];
        if l in lobbies {
          var eligible := Consider(l, a.tags);
          if eligible {
            ghost var here := State();
            ghost var o := Handlers.OnJoin(here, p, l, a.password, Handlers.Verdict(cs));
            joined := OnJoinLobby(p, l, a.password, Handlers.Verdict(cs));
            if joined { return; }
            RefusalKeeps(here, p, l, a.password, Handlers.Verdict(cs));
            done := done + o.outs;
            cs := Handlers.Later(cs);
          }
        }
      }
      NoneLeft(State(), p, a, order[|order|..], cs);
      return false;
    }

    /** The filter of quick join, which looks the host's entry up. */
    method Consider(l: Id, tags: Dict) returns (eligible: bool)
      requires l in lobbies
      modifies `peers
      ensures State() == Handlers.Considered(old(State()), l) && old(peers).Keys <= peers.Keys
      ensures eligible <==> Handlers.Eligible(old(State()), l, tags)
    {
      hide Handlers.ContainsTags;
      var b := lobbies[l];
      if !Handlers.HasRoom(b) { return false; }
      ConsideredIs(State(), l);
      if b.host != "" { peers := peers[b.host := At(peers, b.host)]; }
      eligible := (b.host == "" || !peers[b.host].disconnected) && Handlers.ContainsTags(tags, b.tags);
    }

    // ----- readiness and settings -----

    /** `set_lobby_ready` behind its two commands. */
    method OnLobbyReady(p: Id, ready: bool, can: bool)
      requires p in peers
      modifies this
      ensures Did(Handlers.OnReady(old(State()), p, ready, can), old(sent))
    {
      var me := peers[p];
      if me.lobbyId == "" {
        OnError(me.id, "ERROR_PEER_NOT_IN_A_LOBBY");
      } else if me.ready == ready {
        OnError(me.id, if ready then "ERROR_PEER_IS_READY" else "ERROR_PEER_IS_NOT_READY");
      } else {
        peers := peers[p := me.(ready := ready)];
        if !can {
          peers := peers[p := peers[p].(ready := me.ready)];
          OnError(me.id, "script");
          return;
        }
        var b := Lookup(me.lobbyId);
        var note := if ready then PeerReady(me.id) else PeerUnready(me.id);
        SendToMembers(b.peerIds, {me.id}, note);
        Send(me.id, note);
      }
    }

    method OnLobbyMaxPlayers(p: Id, max: int64, can: bool)
      requires p in peers
      modifies this
      ensures Did(Handlers.OnEdit(old(State()), p, Resize(max), can), old(sent))
    {
      hide Sought;
      var me := peers[p];
      if me.lobbyId == "" {
        OnError(me.id, "ERROR_PEER_NOT_IN_A_LOBBY");
        return;
      }
      var b := Lookup(me.lobbyId);
      if U64(max) < |b.peerIds| {
        OnError(me.id, "ERROR_LOBBY_FULL");
      } else if !can {
        OnError(me.id, "script");
      } else {
        lobbies := lobbies[me.lobbyId := b.(maxPlayers := max)];
        SendToMembers(b.peerIds, {me.id}, Edited(Resize(max)));
        Send(me.id, Edited(Resize(max)));
        lobbiesUpdated := lobbiesUpdated + {b.id};
      }
    }

    method OnLobbyTitle(p: Id, name: string, can: bool)
      requires p in peers
      modifies this
      ensures Did(Handlers.OnEdit(old(State()), p, Retitle(name), can), old(sent))
    {
      hide Sought;
      var me := peers[p];
      if me.lobbyId == "" {
        OnError(me.id, "ERROR_PEER_NOT_IN_A_LOBBY");
        return;
      }
      var b := Lookup(me.lobbyId);
      if !can {
        OnError(me.id, "script");
      } else {
        lobbies := lobbies[me.lobbyId := b.(name := name)];
        SendToMembers(b.peerIds, {me.id}, Edited(Retitle(name)));
        Send(me.id, Edited(Retitle(name)));
        lobbiesUpdated := lobbiesUpdated + {b.id};
      }
    }

    method OnLobbyPassword(p: Id, password: string, can: bool)
      requires p in peers
      modifies this
      ensures Did(Handlers.OnEdit(old(State()), p, Protect(password), can), old(sent))
    {
      hide Sought;
      var me := peers[p];
      if me.lobbyId == "" {
        OnError(me.id, "ERROR_PEER_NOT_IN_A_LOBBY");
      } else {
        var b := Lookup(me.lobbyId);
        lobbies := lobbies[me.lobbyId := b.(password := password)];
        SendToMembers(b.peerIds, {me.id}, Edited(Protect(password)));
        Send(me.id, Edited(Protect(password)));
        lobbiesUpdated := lobbiesUpdated + {b.id};
      }
    }

    method SetLobbySealed(l: Id, p: Id, sealed: bool)
      requires l in lobbies
      modifies `lobbies, `lobbiesUpdated, `sent
      ensures var b := old(lobbies)[l];
              && lobbies == old(lobbies)[l := b.(sealed := sealed)]
              && lobbiesUpdated == old(lobbiesUpdated) + (if b.sealed != sealed then {b.id} else {})
              && sent == old(sent) +
                 (if b.sealed != sealed then Broadcast(disconnectedPeers, b.peerIds, {p}, Edited(Seal(sealed))) else []) +
                 GameState.Send(disconnectedPeers, p, Edited(Seal(sealed)))
    {
      var b := lobbies[l];
      lobbies := lobbies[l := b.(sealed := sealed)];
      if b.sealed != sealed {
        SendToMembers(b.peerIds, {p}, Edited(Seal(sealed)));
        lobbiesUpdated := lobbiesUpdated + {b.id};
      }
      Send(p, Edited(Seal(sealed)));
    }

    /** The two seal commands; asking for what is already so consults no script. */
    method OnSealLobby(p: Id, sealed: bool, can: bool)
      requires p in peers
      modifies this
      ensures Did(Handlers.OnEdit(old(State()), p, Seal(sealed), can), old(sent))
    {
      hide Sought;
      var me := peers[p];
      if me.lobbyId == "" {
        OnError(me.id, "ERROR_PEER_NOT_IN_A_LOBBY");
        return;
      }
      var b := Lookup(me.lobbyId);
      if b.host != me.id {
        OnError(me.id, "ERROR_PEER_NOT_HOST");
      } else if b.sealed != sealed && !can {
        OnError(me.id, "script");
      } else {
        assert b.sealed == sealed ==> lobbies[me.lobbyId := b.(sealed := sealed)] == lobbies;
        SetLobbySealed(me.lobbyId, me.id, sealed);
      }
    }

    /** `on_lobby_tags`: only the tags named change, null erases, and all of them are announced; `good`: they decode. */
    method OnLobbyTags(p: Id, good: bool, patch: Dict, keys: seq<string>, can: bool)
      requires p in peers
      requires forall k :: k in keys <==> k in patch
      modifies this
      ensures Did(if good then Handlers.OnEdit(old(State()), p, Retag(patch), can)
                  else OnTalk(old(State()), p, SpoiltTags), old(sent))
    {
      hide Sought;
      NoTouch(peers);
      var me := peers[p];
      if me.lobbyId == "" {
        OnError(me.id, "ERROR_PEER_NOT_IN_A_LOBBY");
        return;
      }
      var b := Lookup(me.lobbyId);
      if b.host != me.id {
        OnError(me.id, "ERROR_PEER_NOT_HOST");
      } else if !good {
        OnError(me.id, UNREADABLE);
      } else if !can {
        OnError(me.id, "script");
      } else {
        var merged := MergeFields(Clean(b.tags), patch, keys);
        lobbies := lobbies[me.lobbyId := b.(tags := merged.data)];
        SendToMembers(b.peerIds, {me.id}, Edited(Retag(merged.data)));
        Send(me.id, Edited(Retag(merged.data)));
        lobbiesUpdated := lobbiesUpdated + {b.id};
      }
    }

    // ----- shared data -----

    /** The loop over the pairs of a command's object. */
    static method MergeFields(t: Tracked, patch: Dict, keys: seq<string>) returns (r: Tracked)
      requires forall k :: k in keys <==> k in patch
      ensures r == Merge(t, patch)
    {
      r := t;
      PartEnds(t, patch, keys);
      for i := 0 to |keys|
        invariant r == Merge(t, Part(patch, keys[..i]))
      {
        PartStep(t, patch, keys, i);
        var k, v := keys[i], patch[keys[i]];
        if v.Null? {
          r := Tracked(r.data - {k}, r.diff[k := v], true);
        } else {
          r := Tracked(r.data[k := v], r.diff[k := v], true);
        }
      }
      assert keys[..|keys|] == keys;
    }

    /** The guards of the three relay data commands. */
    method RefuseRelay(p: Id) returns (refused: bool)
      requires p in peers
      modifies `lobbies, `sent
      ensures refused <==> Handlers.RelayRefusal(old(State()), p) != ""
      ensures !refused ==> peers[p].lobbyId in lobbies && peers[p].lobbyId != ""
      ensures var g, why := Handlers.AtLobby(old(State()), p), Handlers.RelayRefusal(old(State()), p);
              if refused then Did(Handlers.Fail(g, peers[p].id, why), old(sent)) else State() == g && sent == old(sent)
    {
      var me := peers[p];
      refused := true;
      if me.lobbyId == "" {
        OnError(me.id, "ERROR_PEER_NOT_IN_A_LOBBY");
        return;
      }
      var b := Lookup(me.lobbyId);
      if b.host != me.id {
        OnError(me.id, "ERROR_PEER_NOT_HOST");
      } else if config.scripted {
        OnError(me.id, "ERROR_GAME_NOT_RELAY");
      } else {
        refused := false;
      }
    }

    method OnLobbyData(p: Id, good: bool, patch: Dict, keys: seq<string>)
      requires p in peers
      requires forall k :: k in keys <==> k in patch
      modifies this
      ensures Did(if good then Handlers.OnLobbyData(old(State()), p, patch)
                  else OnTalk(old(State()), p, SpoiltData), old(sent))
    {
      hide Broadcast, Merge, Handlers.RelayRefusal, Sought;
      NoTouch(peers);
      var refused := RefuseRelay(p);
      if refused { return; }
      var me := peers[p];
      if !good {
        OnError(me.id, UNREADABLE);
        return;
      }
      var b := lobbies[me.lobbyId];
      var t := MergeFields(b.shared, patch, keys);
      lobbies := lobbies[me.lobbyId := b.(shared := t)];
      if t.dirty {
        SendToMembers(b.peerIds, {me.id}, LobbyData(t.diff));
        Send(me.id, LobbyData(t.diff));
        lobbies := lobbies[me.lobbyId := b.(shared := Flushed(t))];
      }
    }

    /** The diff of a dirty peer goes to every member and is cleared. */
    method SendPeerDiff(q: Id, ids: seq<Id>)
      requires q in peers
      modifies `peers, `sent
      ensures var t := old(peers)[q].shared;
              && peers == old(peers)[q := old(peers)[q].(shared := if t.dirty then Flushed(t) else t)]
              && sent == old(sent) + if t.dirty then Broadcast(disconnectedPeers, ids, {}, DataTo(q, t.diff)) else []
    {
      var t := peers[q].shared;
      if t.dirty {
        SendToMembers(ids, {}, DataTo(q, t.diff));
        peers := peers[q := peers[q].(shared := Flushed(t))];
      }
    }

    /** One target of the two commands that put data on members. */
    method ShareWith(q: Id, ids: seq<Id>, patch: Dict, keys: seq<string>)
      requires forall k :: k in keys <==> k in patch
      modifies `peers, `sent
      ensures peers == old(peers)[q := Settle(At(old(peers), q), patch)]
      ensures var t := Merge(At(old(peers), q).shared, patch);
              sent == old(sent) + if t.dirty then Broadcast(disconnectedPeers, ids, {}, DataTo(q, t.diff)) else []
    {
      hide Merge, Broadcast;
      var entry := At(peers, q);
      var t := MergeFields(entry.shared, patch, keys);
      peers := peers[q := entry.(shared := t)];
      SendPeerDiff(q, ids);
    }

    /** The target's entry is looked up, and so inserted, before the command's object is. */
    method OnDataTo(p: Id, target: Id, good: bool, patch: Dict, keys: seq<string>)
      requires p in peers
      requires forall k :: k in keys <==> k in patch
      modifies this
      ensures Did(if good then Handlers.OnDataTo(old(State()), p, target, patch)
                  else OnTalk(old(State()), p, SpoiltDataTo(target)), old(sent))
    {
      hide Broadcast, Merge, Touch, Shared, Merged, Settle, DiffNotes;
      hide Handlers.SendPeerDiffs, Handlers.MergePeers, Handlers.RelayRefusal, Sought;
      var refused := RefuseRelay(p);
      if refused { return; }
      ghost var g := State();
      var me := peers[p];
      var ids := lobbies[me.lobbyId].peerIds;
      if target == "" || target !in ids {
        NoTouch(peers);
        OnError(me.id, "ERROR_PEER_NOT_FOUND");
        return;
      }
      TouchOne(peers, target);
      peers := peers[target := At(peers, target)];
      if !good {
        OnError(me.id, UNREADABLE);
        return;
      }
      ShareNone(g.peers, [target], patch);
      ShareOne(g.peers, [target], 0, patch);
      NoteOne(g.disconnected, g.peers, ids, [target], 0, patch);
      NoNotes(g.disconnected, ids, [target], Merged(g.peers, [target], patch));
      ShareWith(target, ids, patch, keys);
      assert [target][..1] == [target];
      SharedIs(g, ids, [target], patch);
      Send(me.id, Done);
    }

    method OnDataToAll(p: Id, good: bool, patch: Dict, keys: seq<string>)
      requires p in peers
      requires FlatRosters(State())
      requires forall k :: k in keys <==> k in patch
      modifies this
      ensures Did(if good then Handlers.OnDataToAll(old(State()), p, patch)
                  else OnTalk(old(State()), p, SpoiltData), old(sent))
    {
      hide Broadcast, Merge, Touch, Shared, Merged, Settle, DiffNotes;
      hide Handlers.SendPeerDiffs, Handlers.MergePeers, Handlers.RelayRefusal, Sought;
      FlatMembers(State(), p);
      NoTouch(peers);
      var refused := RefuseRelay(p);
      if refused { return; }
      ghost var g := State();
      var me := peers[p];
      if !good {
        OnError(me.id, UNREADABLE);
        return;
      }
      var ids := lobbies[me.lobbyId].peerIds;
      ShareNone(g.peers, ids, patch);
      NoNotes(g.disconnected, ids, ids, Merged(g.peers, ids, patch));
      for i := 0 to |ids|
        modifies `peers, `sent
        invariant peers == Shared(g.peers, ids[..i], patch)
        invariant sent == old(sent) + DiffNotes(g.disconnected, ids, ids[..i], Merged(g.peers, ids, patch))
      {
        ShareOne(g.peers, ids, i, patch);
        NoteOne(g.disconnected, g.peers, ids, ids, i, patch);
        ShareWith(ids[i], ids, patch, keys);
      }
      assert ids[..|ids|] == ids;
      SharedIs(g, ids, ids, patch);
      Send(me.id, Done);
    }

    // ----- between members -----

    method OnChatLobby(p: Id, valid: bool, meta: bool, can: bool)
      requires p in peers
      modifies this
      ensures Did(OnTalk(old(State()), p, Chat(valid, meta, can)), old(sent))
    {
      hide Sought, Broadcast, Touch;
      NoTouch(peers);
      var me := peers[p];
      if me.lobbyId == "" {
        OnError(me.id, "ERROR_PEER_NOT_IN_A_LOBBY");
        return;
      }
      var b := Lookup(me.lobbyId);
      if !valid {
        OnError(me.id, "Invalid chat message");
        return;
      }
      if !meta { OnError(me.id, UNREADABLE); }
      if !can {
        OnError(me.id, "script");
        return;
      }
      SendToMembers(b.peerIds, {me.id}, Chatted(me.id));
      Send(me.id, Chatted(me.id));
    }

    method OnUserData(p: Id, good: bool)
      requires p in peers
      modifies this
      ensures Did(OnTalk(old(State()), p, PutUserData(good)), old(sent))
    {
      hide Sought, Touch;
      NoTouch(peers);
      var me := peers[p];
      if !good {
        OnError(me.id, UNREADABLE);
        return;
      }
      if me.lobbyId != "" {
        var b := Lookup(me.lobbyId);
        SendToMembers(b.peerIds, {me.id}, UserDataOf(me.id));
      }
      Send(me.id, UserDataOf(me.id));
    }

    /** `on_notify_to`: like `on_data_to` it inserts an entry for an unknown target before it reads what to tell. */
    method OnNotifyTo(p: Id, target: Id, good: bool)
      requires p in peers
      modifies this
      ensures Did(OnTalk(old(State()), p, NotifyTo(target, good)), old(sent))
    {
      hide Sought, Broadcast, Touch, Handlers.RelayRefusal;
      NoTouch(peers);
      var refused := RefuseRelay(p);
      if refused { return; }
      var me := peers[p];
      if target == "" || target !in lobbies[me.lobbyId].peerIds {
        OnError(me.id, "ERROR_PEER_NOT_FOUND");
        return;
      }
      TouchOne(peers, target);
      peers := peers[target := At(peers, target)];
      if !good {
        OnError(me.id, UNREADABLE);
        return;
      }
      Send(target, Told(me.id));
      Send(me.id, Done);
    }

    method OnLobbyNotify(p: Id, good: bool)
      requires p in peers
      modifies this
      ensures Did(OnTalk(old(State()), p, Notify(good)), old(sent))
    {
      hide Sought, Broadcast, Touch;
      NoTouch(peers);
      var me := peers[p];
      if me.lobbyId == "" {
        OnError(me.id, "ERROR_PEER_NOT_IN_A_LOBBY");
        return;
      }
      var b := Lookup(me.lobbyId);
      if config.scripted {
        OnError(me.id, "ERROR_GAME_NOT_RELAY");
        return;
      }
      if !good {
        OnError(me.id, UNREADABLE);
        return;
      }
      if b.host == me.id {
        SendToMembers(b.peerIds, {}, Told(me.id));
      } else {
        Send(b.host, Told(me.id));
      }
      Send(me.id, Done);
    }

    // ----- what a script changed -----

    method NotifyLobbyChanges(l: Id)
      requires l in lobbies && NoDup(lobbies[l].peerIds)
      modifies `peers, `lobbies, `sent
      ensures Did(Handlers.NotifyChanges(old(State()), l), old(sent))
    {
      hide Broadcast, Merge, Touch, Shared, Merged, DiffNotes, Handlers.SendPeerDiffs, Handlers.MergePeers;
      ghost var g := State();
      var b := lobbies[l];
      var ids := b.peerIds;
      ShareNone(g.peers, ids, map[]);
      NoNotes(g.disconnected, ids, ids, Merged(g.peers, ids, map[]));
      for i := 0 to |ids|
        modifies `peers, `sent
        invariant peers == Shared(g.peers, ids[..i], map[])
        invariant sent == old(sent) + DiffNotes(g.disconnected, ids, ids[..i], Merged(g.peers, ids, map[]))
      {
        ShareOne(g.peers, ids, i, map[]);
        NoteOne(g.disconnected, g.peers, ids, ids, i, map[]);
        MergeNothing(At(peers, ids[i]).shared);
        peers := peers[ids[i] := At(peers, ids[i])];
        SendPeerDiff(ids[i], ids);
      }
      assert ids[..|ids|] == ids;
      SharedIs(g, ids, ids, map[]);
      MergedNothing(g.peers, ids);
      if b.shared.dirty {
        SendToMembers(ids, {}, LobbyData(b.shared.diff));
        lobbies := lobbies[l := b.(shared := Flushed(b.shared))];
      }
    }

    // ----- script writes -----

    /** `lobby_newindex` on the lobby's public data. */
    method WriteLobby(l: Id, w: Write)
      requires l in lobbies
      modifies `lobbies
      ensures lobbies == old(lobbies)[l := old(lobbies)[l].(shared := ApplyWrite(old(lobbies)[l].shared, w))]
    {
      var b := lobbies[l];
      match w
      case Key(k, v) =>
        lobbies := lobbies[l := b.(shared := Tracked(b.shared.data[k := v], b.shared.diff[k := v], true))];
      case Table(m) =>
        if b.shared.dirty || !DictEq(b.shared.data, m) {
          lobbies := lobbies[l := b.(shared := Tracked(m, m, true))];
        }
    }

    /** `lobby_newindex` on a member's public data. */
    method WritePeer(q: Id, w: Write)
      requires q in peers
      modifies `peers
      ensures peers == old(peers)[q := old(peers)[q].(shared := ApplyWrite(old(peers)[q].shared, w))]
    {
      var me := peers[q];
      match w
      case Key(k, v) =>
        peers := peers[q := me.(shared := Tracked(me.shared.data[k := v], me.shared.diff[k := v], true))];
      case Table(m) =>
        if me.shared.dirty || !DictEq(me.shared.data, m) {
          peers := peers[q := me.(shared := Tracked(m, m, true))];
        }
    }

    /** `on_lobby_call`: the script's writes in the order it does them, then the notifications. */
    method OnLobbyCall(p: Id, script: seq<ScriptWrite>)
      requires p in peers && FlatRosters(State())
      requires Reaches(script, Members(State(), p))
      modifies this
      ensures var ids := Members(old(State()), p);
              Did(Handlers.OnCall(old(State()), p, LobbyWrites(script), PeerWrites(script, ids)), old(sent))
    {
      hide Handlers.NotifyChanges, Handlers.Written, ApplyWrite, ApplyWrites, LobbyWrites, PeerWrites, Touch, Sought;
      var me := peers[p];
      if me.lobbyId == "" {
        OnError(me.id, "ERROR_PEER_NOT_IN_A_LOBBY");
        return;
      }
      if !config.scripted {
        OnError(me.id, "ERROR_GAME_NOT_SCRIPTED");
        return;
      }
      var l := me.lobbyId;
      FlatSought(State(), l);
      var b := Lookup(l);
      ghost var g := State();
      var ids := b.peerIds;
      peers := Touch(peers, ids);
      ScriptStart(g, l, script);
      for i := 0 to |script|
        modifies `peers, `lobbies
        invariant State() == Handlers.Written(g, l, LobbyWrites(script[..i]), PeerWrites(script[..i], ids))
      {
        WrittenKeeps(g, l, LobbyWrites(script[..i]), PeerWrites(script[..i], ids));
        ScriptStep(script, i, ids);
        match script[i]
        case ToLobby(w) => {
          LobbyWritten(g, l, LobbyWrites(script[..i]), w, PeerWrites(script[..i], ids));
          WriteLobby(l, w);
        }
        case ToPeer(q, w) => {
          ToMember(script[..i], ids, q);
          PeerWritten(g, l, LobbyWrites(script[..i]), PeerWrites(script[..i], ids), q, w);
          WritePeer(q, w);
        }
      }
      assert script[..|script|] == script;
      WrittenKeeps(g, l, LobbyWrites(script), PeerWrites(script, ids));
      NotifyLobbyChanges(l);
      Send(me.id, Done);
    }

    // ----- listing -----

    /** `order` is the array of visible lobbies after the sort by creation time. */
    method OnListLobby(p: Id, order: seq<Id>)
      requires p in peers && forall l :: l in order ==> l in lobbies
      modifies this
      ensures Did(Handlers.OnList(old(State()), p, order), old(sent))
    {
      var me := peers[p];
      if me.id in lobbyListingPeers {
        Send(me.id, LobbyList([]));
        return;
      }
      ghost var g := State();
      lobbyListingPeers := lobbyListingPeers + {me.id};
      var items := [];
      var n := if |order| < 100 then |order| else 100;
      for i := 0 to n
        invariant items == Handlers.Entries(g, order[..i])
      {
        assert order[..i + 1][..i] == order[..i];
        items := items + [Entry(SummaryOf(lobbies[order[i]]))];
      }
      assert order[..n] == Handlers.First100(order);
      Send(me.id, LobbyList(items));
    }

    method OnStopListLobby(p: Id)
      requires p in peers
      modifies this
      ensures Did(Handlers.OnStopList(old(State()), p), old(sent))
    {
      var me := peers[p];
      if me.id !in lobbyListingPeers {
        Send(me.id, LobbyList([]));
        return;
      }
      lobbyListingPeers := lobbyListingPeers - {me.id};
      Send(me.id, StopListing);
    }

    /** `order` runs through `lobbies_updated`, `readers` through `lobby_listing_peers`. */
    method HandleLobbyList(order: seq<Id>, readers: seq<Id>)
      requires Enumerates(order, lobbiesUpdated) && Enumerates(readers, lobbyListingPeers)
      modifies this
      ensures Did(Handlers.OnFlush(old(State()), order, readers), old(sent))
    {
      if lobbiesUpdated == {} || lobbyListingPeers == {} {
        if order != [] { assert order[0] in order; }
        if readers != [] { assert readers[0] in readers; }
        lobbiesUpdated := {};
        return;
      }
      ghost var g := State();
      var items := [];
      for i := 0 to |order|
        invariant items == Handlers.Items(g, order[..i])
      {
        assert order[..i + 1][..i] == order[..i];
        var l := order[i];
        if l !in lobbies {
          items := items + [Gone(l)];
        } else if lobbies[l].sealed {
          items := items + [Gone(l)];
        } else {
          items := items + [Entry(SummaryOf(lobbies[l]))];
        }
      }
      assert order[..|order|] == order;
      SendToMembers(readers, {}, LobbyList(items));
      lobbiesUpdated := {};
      assert order != [] && readers != [];
    }

    // ----- the disconnect sweep -----

    /** `order` runs through `disconnected_peers`; the ids erased are handed to the socket side. */
    method HandleDisconnects(order: seq<Id>, now: int, limit: int) returns (toErase: seq<Id>)
      requires forall p :: p in order ==> p in disconnectedPeers
      modifies this
      ensures var s := Handlers.OnSweep(old(State()), order, now, limit);
              Did(Handlers.Outcome(s.g, s.outs), old(sent)) && s.erased == Elements(toErase)
    {
      hide Handlers.RemovePeer, LeaveLobby;
      ghost var g := State();
      toErase := [];
      for i := 0 to |order|
        invariant var s := Handlers.SweepLoop(g, order[..i], now, limit);
                  Did(Handlers.Outcome(s.g, s.outs), old(sent)) && s.erased == Elements(toErase)
        invariant disconnectedPeers == g.disconnected
      {
        assert order[..i + 1][..i] == order[..i];
        var p := order[i];
        InsertElements(toErase, p);
        assert Elements(Insert(toErase, p)) == Elements(toErase) + {p};
        if p !in peers {
          toErase := Insert(toErase, p);
          continue;
        }
        var me := peers[p];
        if me.lobbyId !in lobbies {
          peers := peers[p := LeaveLobby(me)];
          toErase := Insert(toErase, p);
          continue;
        }
        if now - disconnectedPeers[p] > limit {
          RemovePeerFromLobby(me.lobbyId, me.id, true);
          toErase := Insert(toErase, p);
        }
      }
      assert order[..|order|] == order;
      EraseAll(toErase);
    }

    method EraseAll(ids: seq<Id>)
      modifies `peers, `disconnectedPeers, `lobbyListingPeers
      ensures State() == Handlers.Erase(old(State()), Elements(ids))
    {
      for i := 0 to |ids|
        invariant State() == Handlers.Erase(old(State()), Elements(ids[..i]))
      {
        assert ids[..i + 1] == ids[..i] + [ids[i]];
        assert Elements(ids[..i + 1]) == Elements(ids[..i]) + {ids[i]};
        disconnectedPeers := disconnectedPeers - {ids[i]};
        peers := peers - {ids[i]};
        lobbyListingPeers := lobbyListingPeers - {ids[i]};
      }
      assert ids[..|ids|] == ids;
    }
  }
}
