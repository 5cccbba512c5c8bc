/** Who hears what members say to each other, and who hears what a script wrote. */
module TalkEffects {
  import opened FlatSets
  import opened AnyTypes
  import opened SharedData
  import opened GameState
  import opened Mail
  import opened Handlers
  import opened Membership
  import opened Invariants
  import opened Talks
  import opened ReplicaSteps
  import opened Effects
  import opened DataEffects

  // ----- talk -----

  /** The state stays (`TalkKeeps`); what matters is who is sent `Said`, and when. */
  lemma Passes(g: Game, p: Id, t: Talk)
    requires Inv(g) && p in g.peers && Refusal(g, p, t) == "" && !(t.PutUserData? && !t.good)
    requires Names(t) ==> Target(g, p, t) != []
    ensures OnTalk(g, p, t) == Outcome(g, Said(g.disconnected, p, Mine(g, p), t))
  {
    hide Said, Refusal, Weak, Strong, Target, Touch, Mine;
    Self(g, p);
    TalkKeeps(g, p, t);
  }

  lemma Stopped(g: Game, p: Id, t: Talk)
    requires Inv(g) && p in g.peers
    requires (t.PutUserData? && !t.good) || Refusal(g, p, t) != "" || (Names(t) && Target(g, p, t) == [])
    ensures OnlyRefused(g, OnTalk(g, p, t), p)
  {
    hide Said, Refusal, Weak, Strong, Target, Touch, OnlyRefused;
    Self(g, p);
    FailRefuses(g, p, UNREADABLE);
    FailRefuses(g, p, Refusal(g, p, t));
    FailRefuses(g, p, "ERROR_PEER_NOT_FOUND");
  }

  /** A chat goes to every connected member, sender included, if the script lets it; an unreadable extra is reported. */
  lemma ChatEffect(g: Game, p: Id, valid: bool, meta: bool, can: bool)
    requires Inv(g) && p in g.peers
    ensures var o, l := OnTalk(g, p, Chat(valid, meta, can)), g.peers[p].lobbyId;
            if l == "" || !valid then OnlyRefused(g, o, p)
            else
              && o.g == g
              && (forall c :: c in g.disconnected ==> NotesTo(o.outs, c) == [])
              && forall c :: c !in g.disconnected ==>
                   NotesTo(o.outs, c) ==
                   (if c == p && !meta then [Error(UNREADABLE)] else []) +
                   (if can then (if c in g.lobbies[l].peerIds then [Chatted(p)] else [])
                    else if c == p then [Error("script")] else [])
  {
    hide NotesTo, Broadcast, Send, Weak, Strong, OnlyRefused, OnTalk;
    Self(g, p);
    var t, l := Chat(valid, meta, can), g.peers[p].lobbyId;
    if l == "" {
      Stopped(g, p, t);
    } else {
      Passes(g, p, t);
      Roster(g, l);
      var off, b := g.disconnected, g.lobbies[l];
      if !valid {
        FailRefuses(g, p, "Invalid chat message");
        FailIs(g, OnTalk(g, p, t), p, "Invalid chat message");
      } else {
        var warn := if meta then [] else Send(off, p, Error(UNREADABLE));
        var rest := if !can then Send(off, p, Error("script"))
                    else Broadcast(off, b.peerIds, {p}, Chatted(p)) + Send(off, p, Chatted(p));
        NobodySays();
        forall c ensures NotesTo(warn + rest, c) == NotesTo(warn, c) + NotesTo(rest, c) { NotesConcat(warn, rest, c); }
        forall c { SendNotes(off, p, Error(UNREADABLE), c); }
        forall c { SendNotes(off, p, Error("script"), c); }
        forall c { ToldNotes(off, b.peerIds, p, Chatted(p), Chatted(p), c); }
      }
    }
  }

  lemma FailIs(g: Game, o: Outcome, p: Id, message: string)
    requires o == Fail(g, p, message)
    ensures OnlyRefused(g, o, p)
  {
    hide OnlyRefused;
    FailRefuses(g, p, message);
  }

  /** New user data go to the connected members of the lobby, if there is one, and to their owner. */
  lemma UserDataEffect(g: Game, p: Id, good: bool)
    requires Inv(g) && p in g.peers
    ensures var o, l := OnTalk(g, p, PutUserData(good)), g.peers[p].lobbyId;
            if !good then OnlyRefused(g, o, p)
            else
              && o.g == g
              && forall c :: NotesTo(o.outs, c) ==
                   if c !in g.disconnected && (c == p || (l != "" && c in g.lobbies[l].peerIds)) then [UserDataOf(p)] else []
  {
    hide NotesTo, Broadcast, Send, Weak, Strong, OnlyRefused, OnTalk;
    Self(g, p);
    var t, l := PutUserData(good), g.peers[p].lobbyId;
    if !good {
      Stopped(g, p, t);
    } else {
      Passes(g, p, t);
      if l != "" { Roster(g, l); }
      forall c { ToldNotes(g.disconnected, Mine(g, p).peerIds, p, UserDataOf(p), UserDataOf(p), c); }
    }
  }

  /** In a relay a host tells every connected member, itself included, and a member tells its host. */
  lemma NotifyEffect(g: Game, p: Id, good: bool)
    requires Inv(g) && p in g.peers
    ensures var o, l := OnTalk(g, p, Notify(good)), g.peers[p].lobbyId;
            if l == "" || g.config.scripted || !good then OnlyRefused(g, o, p)
            else
              && o.g == g
              && forall c :: NotesTo(o.outs, c) ==
                   if c in g.disconnected then []
                   else
                     (if g.lobbies[l].host == p then (if c in g.lobbies[l].peerIds then [Told(p)] else [])
                      else if c == g.lobbies[l].host then [Told(p)] else []) +
                     (if c == p then [Done] else [])
  {
    hide NotesTo, Broadcast, Send, Weak, Strong, OnlyRefused, OnTalk;
    Self(g, p);
    var t, l := Notify(good), g.peers[p].lobbyId;
    if l == "" || g.config.scripted {
      Stopped(g, p, t);
    } else {
      Passes(g, p, t);
      Roster(g, l);
      var off, b := g.disconnected, g.lobbies[l];
      if !good {
        FailIs(g, OnTalk(g, p, t), p, UNREADABLE);
      } else {
        var first := if b.host == p then Broadcast(off, b.peerIds, {}, Told(p)) else Send(off, b.host, Told(p));
        forall c ensures NotesTo(first + Send(off, p, Done), c) == NotesTo(first, c) + NotesTo(Send(off, p, Done), c) {
          NotesConcat(first, Send(off, p, Done), c);
        }
        forall c { BroadcastNotes(off, b.peerIds, {}, Told(p), c); }
        forall c { SendNotes(off, b.host, Told(p), c); }
        forall c { SendNotes(off, p, Done, c); }
      }
    }
  }

  /** A relay host can tell one member something, and only that one hears it. */
  lemma NotifyToEffect(g: Game, p: Id, target: Id, good: bool)
    requires Inv(g) && p in g.peers
    ensures var o, l := OnTalk(g, p, NotifyTo(target, good)), g.peers[p].lobbyId;
            if Commands(g, p) && target in g.lobbies[l].peerIds && good then
              && o.g == g
              && forall c :: NotesTo(o.outs, c) ==
                   if c in g.disconnected then []
                   else (if c == target then [Told(p)] else []) + (if c == p then [Done] else [])
            else OnlyRefused(g, o, p)
  {
    hide NotesTo, Broadcast, Send, Weak, Strong, OnlyRefused, OnTalk, RelayRefusal;
    Self(g, p);
    CommandsIff(g, p);
    var t, l, off := NotifyTo(target, good), g.peers[p].lobbyId, g.disconnected;
    if Commands(g, p) && target in g.lobbies[l].peerIds {
      Roster(g, l);
      Self(g, target);
      Passes(g, p, t);
      if good {
        forall c ensures NotesTo(Send(off, target, Told(p)) + Send(off, p, Done), c) ==
                         NotesTo(Send(off, target, Told(p)), c) + NotesTo(Send(off, p, Done), c)
        {
          NotesConcat(Send(off, target, Told(p)), Send(off, p, Done), c);
        }
        forall c { SendNotes(off, target, Told(p), c); }
        forall c { SendNotes(off, p, Done, c); }
      } else {
        FailIs(g, OnTalk(g, p, t), p, UNREADABLE);
      }
    } else {
      Stopped(g, p, t);
    }
  }

  /** Tags and relay data without a readable object only get an error. */
  lemma SpoiltEffect(g: Game, p: Id, t: Talk)
    requires Inv(g) && p in g.peers && (t.SpoiltTags? || t.SpoiltData? || t.SpoiltDataTo?)
    ensures OnlyRefused(g, OnTalk(g, p, t), p)
  {
    hide NotesTo, Weak, Strong, OnlyRefused, OnTalk, Refusal, Target;
    if Refusal(g, p, t) != "" || (Names(t) && Target(g, p, t) == []) {
      Stopped(g, p, t);
    } else {
      Passes(g, p, t);
      FailIs(g, OnTalk(g, p, t), p, UNREADABLE);
    }
  }

  // ----- script calls -----

  function WrittenBy(g: Game, q: Id, peerWrites: map<Id, seq<Write>>): Tracked
  {
    if q in peerWrites then ApplyWrites(At(g.peers, q).shared, peerWrites[q]) else At(g.peers, q).shared
  }

  /** The diffs of the members that the script wrote to, in order. */
  function WriteNotes(g: Game, targets: seq<Id>, peerWrites: map<Id, seq<Write>>): seq<Note>
  {
    if targets == [] then []
    else
      var n := |targets| - 1;
      var t := WrittenBy(g, targets[n], peerWrites);
      WriteNotes(g, targets[..n], peerWrites) + if t.dirty then [DataTo(targets[n], t.diff)] else []
  }

  lemma {:induction false} WriteNotesAre(g: Game, peers: map<Id, Peer>, targets: seq<Id>, peerWrites: map<Id, seq<Write>>)
    requires forall q :: q in targets ==> At(peers, q).shared == WrittenBy(g, q, peerWrites)
    ensures Diffs(peers, targets) == WriteNotes(g, targets, peerWrites)
  {
    hide WrittenBy;
    if targets != [] { WriteNotesAre(g, peers, targets[..|targets| - 1], peerWrites); }
  }

  /** What a script wrote is announced to every connected member, and then the caller is answered. */
  lemma CallTells(g: Game, p: Id, lobbyWrites: seq<Write>, peerWrites: map<Id, seq<Write>>, c: Id)
    requires Inv(g) && p in g.peers
    requires g.peers[p].lobbyId != "" && g.config.scripted
    requires forall q :: q in peerWrites ==> q in g.lobbies[g.peers[p].lobbyId].peerIds
    ensures var o, b := OnCall(g, p, lobbyWrites, peerWrites), g.lobbies[g.peers[p].lobbyId];
            var t := ApplyWrites(b.shared, lobbyWrites);
            NotesTo(o.outs, c) ==
            if c in g.disconnected then []
            else
              (if c in b.peerIds then WriteNotes(g, b.peerIds, peerWrites) + (if t.dirty then [LobbyData(t.diff)] else [])
               else []) +
              (if c == p then [Done] else [])
  {
    hide NotesTo, Broadcast, Send, Weak, Strong, DiffNotes, Diffs, WriteNotes, ApplyWrites, WrittenBy;
    Self(g, p);
    var l, off := g.peers[p].lobbyId, g.disconnected;
    var b := g.lobbies[l];
    Roster(g, l);
    var w := Written(g, l, lobbyWrites, peerWrites);
    var t := ApplyWrites(b.shared, lobbyWrites);
    var peers := Touch(w.peers, b.peerIds);
    WrittenPeers(g, l, lobbyWrites, peerWrites);
    WriteNotesAre(g, peers, b.peerIds, peerWrites);
    DiffsTold(off, b.peerIds, b.peerIds, peers, c);
    var first, second := DiffNotes(off, b.peerIds, b.peerIds, peers), Broadcast(off, b.peerIds, {}, LobbyData(t.diff));
    BroadcastNotes(off, b.peerIds, {}, LobbyData(t.diff), c);
    SendNotes(off, p, Done, c);
    NotesConcat(first, second, c);
    NotesConcat(first + second, Send(off, p, Done), c);
    NotesConcat(first, Send(off, p, Done), c);
    CallOuts(g, p, lobbyWrites, peerWrites);
  }

  lemma WrittenPeers(g: Game, l: Id, lobbyWrites: seq<Write>, peerWrites: map<Id, seq<Write>>)
    requires l in g.lobbies
    ensures var peers := Touch(Written(g, l, lobbyWrites, peerWrites).peers, g.lobbies[l].peerIds);
            forall q :: q in g.lobbies[l].peerIds ==> At(peers, q).shared == WrittenBy(g, q, peerWrites)
  {
    hide ApplyWrites;
  }

  lemma CallOuts(g: Game, p: Id, lobbyWrites: seq<Write>, peerWrites: map<Id, seq<Write>>)
    requires p in g.peers && g.peers[p].id == p && g.peers[p].lobbyId != "" && g.config.scripted
    requires g.peers[p].lobbyId in g.lobbies
    ensures var l := g.peers[p].lobbyId;
            var b, w := g.lobbies[l], Written(g, l, lobbyWrites, peerWrites);
            var t := ApplyWrites(b.shared, lobbyWrites);
            OnCall(g, p, lobbyWrites, peerWrites).outs ==
            DiffNotes(g.disconnected, b.peerIds, b.peerIds, Touch(w.peers, b.peerIds)) +
            (if t.dirty then Broadcast(g.disconnected, b.peerIds, {}, LobbyData(t.diff)) else []) +
            Send(g.disconnected, p, Done)
  {
    hide Broadcast, Send, DiffNotes, ApplyWrites, Touch;
    var s := Send(g.disconnected, p, Done);
    forall x: seq<Out> ensures x + [] + s == x + s { assert x + [] == x; }
  }

  /** And what was written is there, clean, on the lobby and on the members, and nowhere else. */
  lemma CallWrites(g: Game, p: Id, lobbyWrites: seq<Write>, peerWrites: map<Id, seq<Write>>)
    requires Inv(g) && p in g.peers
    requires g.peers[p].lobbyId != "" && g.config.scripted
    requires forall q :: q in peerWrites ==> q in g.lobbies[g.peers[p].lobbyId].peerIds
    ensures var g', l := OnCall(g, p, lobbyWrites, peerWrites).g, g.peers[p].lobbyId;
            && g' == g.(peers := g'.peers, lobbies := g'.lobbies) && g'.peers.Keys == g.peers.Keys
            && g'.lobbies == g.lobbies[l := g.lobbies[l].(shared :=
                 Tracked(ApplyWrites(g.lobbies[l].shared, lobbyWrites).data, map[], false))]
            && forall q :: q in g.peers ==>
                 g'.peers[q] == if q in peerWrites
                   then g.peers[q].(shared := Tracked(ApplyWrites(g.peers[q].shared, peerWrites[q]).data, map[], false))
                   else g.peers[q]
  {
    hide Weak, Strong, Written, NotifyChanges, ApplyWrites;
    Self(g, p);
    var l := g.peers[p].lobbyId;
    Roster(g, l);
    forall q | q in g.peers ensures IsClean(g.peers[q].shared) { CleanEntry(g, q); }
    CallEffect(g, l, lobbyWrites, peerWrites);
  }

  lemma CallRefused(g: Game, p: Id, lobbyWrites: seq<Write>, peerWrites: map<Id, seq<Write>>)
    requires Inv(g) && p in g.peers && (g.peers[p].lobbyId == "" || !g.config.scripted)
    ensures OnlyRefused(g, OnCall(g, p, lobbyWrites, peerWrites), p)
  {
    hide OnlyRefused, Weak, Strong, NotifyChanges, Written;
    Self(g, p);
    FailRefuses(g, p, "ERROR_PEER_NOT_IN_A_LOBBY");
    FailRefuses(g, p, "ERROR_GAME_NOT_SCRIPTED");
  }
}
