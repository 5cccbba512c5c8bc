/** The commands that carry something between members and change no lobby, and commands refused for what they carry. */
module Talks {
  import opened FlatSets
  import opened AnyTypes
  import opened SharedData
  import opened GameState
  import opened Handlers
  import opened Membership
  import opened Invariants

  /**
   `good`: the object the command carries is there and decodes.  The three last are tags and relay data without such an
   object; the last one, like `NotifyTo`, has looked its target up by then.
   */
  datatype Talk =
    | Chat(valid: bool, meta: bool, can: bool)
    | PutUserData(good: bool)
    | Notify(good: bool)
    | NotifyTo(target: Id, good: bool)
    | SpoiltTags
    | SpoiltData
    | SpoiltDataTo(target: Id)

  const UNREADABLE := "ERROR_CANNOT_PARSE_JSON"

  /** The checks before anything else is looked up. */
  function Refusal(g: Game, p: Id, t: Talk): string
    requires p in g.peers
  {
    var me := g.peers[p];
    match t
    case PutUserData(_) => ""
    case Chat(_, _, _) => if me.lobbyId == "" then "ERROR_PEER_NOT_IN_A_LOBBY" else ""
    case Notify(_) =>
      if me.lobbyId == "" then "ERROR_PEER_NOT_IN_A_LOBBY"
      else if g.config.scripted then "ERROR_GAME_NOT_RELAY"
      else ""
    case SpoiltTags =>
      if me.lobbyId == "" then "ERROR_PEER_NOT_IN_A_LOBBY"
      else if Sought(g, me.lobbyId).lobbies[me.lobbyId].host != me.id then "ERROR_PEER_NOT_HOST"
      else ""
    case _ => RelayRefusal(g, p)
  }

  /** The lobby of the one who talks, after the look-up; an empty one for a peer in none. */
  function Mine(g: Game, p: Id): Lobby
    requires p in g.peers
  {
    if g.peers[p].lobbyId == "" then NO_LOBBY else Sought(g, g.peers[p].lobbyId).lobbies[g.peers[p].lobbyId]
  }

  predicate Names(t: Talk)
  {
    t.NotifyTo? || t.SpoiltDataTo?
  }

  /** The member the command looks up besides its own sender. */
  function Target(g: Game, p: Id, t: Talk): seq<Id>
    requires p in g.peers
  {
    if Names(t) && Refusal(g, p, t) == "" && t.target != "" && t.target in Mine(g, p).peerIds then [t.target] else []
  }

  /** What is sent once the checks are passed. */
  function Said(off: map<Id, int>, me: Id, b: Lobby, t: Talk): seq<Out>
  {
    match t
    case Chat(valid, meta, can) =>
      if !valid then Send(off, me, Error("Invalid chat message"))
      else
        (if meta then [] else Send(off, me, Error(UNREADABLE))) +
        if !can then Send(off, me, Error("script"))
        else Broadcast(off, b.peerIds, {me}, Chatted(me)) + Send(off, me, Chatted(me))
    case PutUserData(_) => Broadcast(off, b.peerIds, {me}, UserDataOf(me)) + Send(off, me, UserDataOf(me))
    case Notify(good) =>
      if !good then Send(off, me, Error(UNREADABLE))
      else
        (if b.host == me then Broadcast(off, b.peerIds, {}, Told(me)) else Send(off, b.host, Told(me))) +
        Send(off, me, Done)
    case NotifyTo(target, good) =>
      if !good then Send(off, me, Error(UNREADABLE)) else Send(off, target, Told(me)) + Send(off, me, Done)
    case _ => Send(off, me, Error(UNREADABLE))
  }

  function OnTalk(g: Game, p: Id, t: Talk): Outcome
    requires p in g.peers
  {
    var me, h := g.peers[p], AtLobby(g, p);
    if t.PutUserData? && !t.good then Fail(g, me.id, UNREADABLE)
    else if Refusal(g, p, t) != "" then Fail(h, me.id, Refusal(g, p, t))
    else if Names(t) && Target(g, p, t) == [] then Fail(h, me.id, "ERROR_PEER_NOT_FOUND")
    else Outcome(h.(peers := Touch(h.peers, Target(g, p, t))), Said(h.disconnected, me.id, Mine(g, p), t))
  }

  // ----- what it does to the game -----

  /** At most an entry for the target, and an empty lobby where the sender's own is missing. */
  lemma TalkEffect(g: Game, p: Id, t: Talk)
    requires p in g.peers
    ensures var g' := OnTalk(g, p, t).g;
            && g' == g.(peers := g'.peers, lobbies := g'.lobbies) && g'.peers == Touch(g.peers, Target(g, p, t))
            && (g'.lobbies == g.lobbies || g'.lobbies == g.lobbies[g.peers[p].lobbyId := NO_LOBBY])
            && (Acting(g, p) ==> g'.lobbies == g.lobbies)
            && (g.peers[p].lobbyId == "" ==> g' == g)
            && (g'.lobbies == g.lobbies || g.peers[p].lobbyId !in g.lobbies)
  {
    hide Said, Refusal;
    assert Touch(g.peers, []) == g.peers by { TouchHits(g.peers, []); }
    if g.peers[p].lobbyId == "" { assert Target(g, p, t) == []; }
  }

  lemma TalkKeeps(g: Game, p: Id, t: Talk)
    requires Weak(g) && Acting(g, p)
    ensures var g' := OnTalk(g, p, t).g; Weak(g') && (Inv(g) ==> g' == g)
  {
    hide Weak, Strong, OnTalk, Touch;
    TalkEffect(g, p, t);
    TouchWeak(g, Target(g, p, t));
    if Inv(g) {
      TargetKnown(g, p, t);
      TouchHits(g.peers, Target(g, p, t));
    }
  }

  lemma TargetKnown(g: Game, p: Id, t: Talk)
    requires Inv(g) && Acting(g, p)
    ensures forall q :: q in Target(g, p, t) ==> q in g.peers
  {
    hide Refusal;
    var l := g.peers[p].lobbyId;
    if l != "" { assert LobbyStrong(g, l); }
  }

  /** And nothing that members or subscribers of the list keep track of is sent. */
  predicate Idle(n: Note)
  {
    n.Chatted? || n.UserDataOf? || n.Told? || n.Done? || n.Error?
  }

  ghost predicate AllIdle(outs: seq<Out>)
  {
    forall i :: 0 <= i < |outs| ==> Idle(outs[i].note)
  }

  lemma {:induction false} BroadcastIdle(off: map<Id, int>, ids: seq<Id>, skip: set<Id>, note: Note)
    requires Idle(note)
    ensures AllIdle(Broadcast(off, ids, skip, note))
  {
    if ids != [] { BroadcastIdle(off, ids[..|ids| - 1], skip, note); }
  }

  lemma SaidIdle(off: map<Id, int>, me: Id, b: Lobby, t: Talk)
    ensures AllIdle(Said(off, me, b, t))
  {
    hide Broadcast;
    BroadcastIdle(off, b.peerIds, {me}, Chatted(me));
    BroadcastIdle(off, b.peerIds, {me}, UserDataOf(me));
    BroadcastIdle(off, b.peerIds, {}, Told(me));
  }

  lemma TalkIdle(g: Game, p: Id, t: Talk)
    requires p in g.peers
    ensures AllIdle(OnTalk(g, p, t).outs)
  {
    hide Refusal, Said, Target, Touch;
    SaidIdle(AtLobby(g, p).disconnected, g.peers[p].id, Mine(g, p), t);
  }
}
