# A model of the lobby server and proofs about it

The server keeps multiplayer lobbies for many games. A socket thread accepts WebSocket connections, gives each a peer id
and a reconnection token, and queues OPEN, MESSAGE and CLOSE events. A game thread takes the events in order, keeps one
state per game (peers, disconnected peers, lobbies, listing subscribers, updated lobbies), answers with notifications,
sweeps disconnected peers, publishes the incremental lobby list, batches messages and drives ticks. Closes and clears go
back to the socket thread through a second queue.

`dafny verify dfyconfig.toml` checks everything. Files, from the ground up:

| file | contents |
|---|---|
| `FlatSets`, `AnyTypes`, `JsonRoundTrip`, `JsonValues`, `SharedData` | sorted sets of ids; the variant tree and its exchange with JSON values; data maps with diffs and dirty flags |
| `GameState`, `Handlers`, `Talk` | the state of one game and, as a function of state and inputs, what every handler does and sends |
| `Membership`, `Invariants`, `Sweep`, `QuickJoin`, `Runs`, `JoinOrders` | who is in which lobby, for every step and every run |
| `Lookups`, `Rosters` | the peers each step looks up, which decide who is believed connected; rosters stay sorted in every mode |
| `Orphaned` | runs from a new game in which a peer leaks, and in which a made-up entry leaves its lobby behind |
| `Mail`, `Effects`, `JoinEffects`, `RemovalEffects`, `DataEffects`, `TalkEffects` | the answer of every handler in the fields of the game: what changes, what does not, and which notes each recipient gets |
| `Replica`, `ReplicaSteps`, `ReplicaRemoval`, `ReplicaData`, `ReplicaRuns` | a client that folds its notifications holds the server's lobby |
| `Listing`, `ListingRuns` | a subscriber that applies list updates holds the current list |
| `Walks`, `GameThread`, `GameLoop` | the handlers as the source writes them: a class with mutable containers and loops, each method proved equal to its description in `Handlers`, and whole runs of the object |
| `RateLimiter`, `Sockets`, `Arrivals`, `Reconnection`, `SocketRate`, `WebSocketServer` | the socket side as functions, its invariants and runs, and as a class proved equal to them |
| `System`, `SystemRuns`, `Lingering`, `Projection`, `LeakRun` | both threads and both queues, every interleaving, any number of games; what such a run is for one game; the run from the start that leaks a peer |
| `Batching`, `Ticks`, `Delivery`, `ListDelivery` | gathered sending, the catch-up clock, and the clients behind the send queue |

Conventions. Iteration orders of containers, fresh ids, clock readings and script verdicts are inputs of a step, so a
theorem about every run holds for each of them. `operator[]` on a missing key inserts a default entry, and the model does
the same (`Touch`, `At`). Integer widths are written out where they decide something (`U64`, `AsSigned`).

The `...Effects` files and `Arrivals` state what each handler answers without naming the functions that describe it:
`NotesTo(outs, c)` is what recipient `c` is sent, in order. They are about games in which nobody was orphaned (`Inv`, below);
`JoinedIff` holds in any game, and the data commands in any that is `Weak`.

Two invariants. `Weak` says that a set `lobby_id` names a live lobby that lists the peer, that rosters are sorted, not
empty and within capacity, and that diffs are clear between steps. `Strong` adds two-way membership, one lobby a peer, a
host who is a member, and join order; `Inv` is both.

`Strong` holds until a step *orphans* somebody: a relay host without `disband_on_leave` leaves a lobby with other
members, all of whom are told the lobby is gone while it stays listed with them on its roster. `RemovalAgreesIff` proves
that this branch, and no other, breaks agreement. A game with `lobby_control == "lua"` or with `disband_on_leave` never
takes it, so there the theorems hold for every run; a default relay game, such as one created by a message for an unknown
game, has them for every run without that step. Theorems about such runs require `AllSettled`, which `CoherentRunSettled`
discharges for those games.

`Weak` holds in every mode for as long as no *made-up* entry gets a lobby. After an orphaning, `operator[]` can insert an
entry without an id for a peer that was swept; if that peer comes back before the socket side has cleared it, it acts
through this entry, and what it creates or joins lists "" instead of it. A step keeps `Weak` if and only if it is not
such a command (`StepKeepsWeakIff`), a run has it all along if and only if there is none (`AlwaysWeakIff`, condition
`NoIntrusion`), and there is a run from a new game that loses it (`MadeUpEntryLosesLobby`). `NoIntrusion` can be checked
before each command: the entry of the sender has its own id, or the command does not get it a lobby. A run that orphans
nobody meets it (`SettledRunIntrudesNowhere`).

Over both threads, what a game believes of who is connected stays true, all along, if and only if its steps look up known
peers only (`AlwaysBelievedIff`, condition `AllFound`). That is so in every interleaving that orphans nobody
(`SettledRunFound`), and so wherever only scripted or disbanding games move (`CoherentGamesAreSafe`); it fails from the
start of a server for a default relay game (`PeerLeaks`, `TellingLeaks`). What does not depend on it, such as that every message comes from a known peer, is proved in every interleaving.

What the proofs found, each with its exact condition or a run that shows it:

- A relay lobby orphaned by its host can leak a peer: once swept, it is believed connected again, without a socket, as
  soon as anyone joins the lobby by id (`OrphaningCanLeak`, from any good state; `PeerLeaks`, from the start of the server).
  Nobody has to join: a host that came back to the lobby leaks the swept member by naming it in a NOTIFY_TO or a DATA_TO,
  even in one that is refused for what it carries, as the target is looked up first (`TellingCanLeak`, `TellingLeaks`).
- A peer that comes back to such an entry can delete the lobby it is in and keep its `lobby_id`, so that the next
  `game.lobbies[peer.lobby_id]` misses (`MadeUpEntryLosesLobby`).
- What waits in the send queue of a closed connection is flushed to the next one: a snapshot from before the close can
  arrive in one batch with the PEER_STATE of the new connection (`BacklogFirst`). A client stays right if it starts over
  at every PEER_STATE, whatever it held and whatever came first (`ReplicaIsExact`, `FlushedReplica`); a list client, if it
  starts from the reply to its LIST (`FlushedList`).
- `operator==` on values does not tell 0.0 from -0.0, which a JSON text can carry, so a write that only changes that sign
  is skipped (`EqIsSame`, `DictEqIsSame`). Scripts cannot cause it: `decode_luavalue` reads -0.0 as the integer 0.
- Clearing a user can take the way back from another one who is connected at that moment (`StrandingHappens`), exactly
  when the two share an index key that names the other (`ClearStrandsIff`). Over whole runs everybody stays indexed if and
  only if no socket presents an expired token (`AlwaysIndexedIff`), and then nobody can be stranded (`NobodyStranded`); the
  age of a token counts from the opening of the connection, so this can happen while its peer is online.
- A whole-table write by a script reaches clients exactly when it drops no key they see (`ScriptDiffExact`): a diff has no
  way to say that a key went.
- A negative `max_players` acts as a huge limit, since it is compared unsigned; the capacity bound is stated for that
  reading, and as the plain one wherever the limit is not negative.
- `ARCHITECTURE.md:58-64` reserves the size, title and password of a lobby for its host; the handlers do not check this,
  and the model follows the handlers.

## Model

| member | source | states |
|---|---|---|
| Membership.InvGivesAgreement | src/game/game_thread.cpp:599-698 | the invariant of settled runs contains two-way membership and a host who is a member |
| Membership.OneLobbyEach | src/game/game_thread.cpp:1032-1041 | a peer listed by two lobbies is listed by one |
| Membership.RemovalAgreesIff | src/game/game_thread.cpp:599-698 | removing a member keeps two-way membership, and the whole invariant, if and only if it is not a relay host without disband_on_leave leaving others behind |
| Membership.OrphanedLobby | src/game/game_thread.cpp:602-617 | after that branch the lobby still lists everyone it put out and its host is no member |
| Membership.RemovalKeysIff | src/game/game_thread.cpp:608-611 | removal makes entries up if and only if the roster names a peer the game no longer has |
| Membership.RemovalWeak | src/game/game_thread.cpp:599-698 | removal of any id keeps the weak invariant |
| Membership.RemovalStrong | src/game/game_thread.cpp:599-698 | a removal that orphans nobody keeps membership, hosts and join order of every lobby, and who is believed connected |
| Invariants.SortIdentity | src/game/game_thread.cpp:1036-1041 | the sort on join leaves a list that is already increasing as it is |
| Invariants.SortUnique | src/game/game_thread.cpp:1036-1041 | any list with the same elements that is sorted by order id is that list, so the choice of sort does not matter |
| Invariants.EnterState | src/game/game_thread.cpp:1032-1043 | a newcomer goes to the end of the ordered list, with the next order id, and into the roster; join order is kept |
| Invariants.JoinKeeps | src/game/game_thread.cpp:985-1082 | join, refused, vetoed, fresh or reconnecting, keeps both invariants and who is believed connected |
| Invariants.CreateKeeps | src/game/game_thread.cpp:913-983 | create, refused, vetoed and reverted or done, keeps both invariants |
| Invariants.QuickJoinKeeps | src/game/game_thread.cpp:886-911 | quick join with all its attempts keeps both invariants |
| Invariants.ConnectKeeps | src/game/game_thread.cpp:749-783 | a connection adds exactly its peer to those believed connected and keeps both invariants |
| Invariants.CloseKeeps | src/game/game_thread.cpp:785-818 | a close removes exactly its peer from them and keeps both invariants |
| Invariants.CallEffect | src/game/game_thread.cpp:1977-2060 | a script call leaves the written data with all public diffs and flags clear, and nothing else changed |
| Invariants.KickKeeps | src/game/game_thread.cpp:1260-1291 | a kick never orphans anybody and keeps both invariants |
| Invariants.LeaveKeeps | src/game/game_thread.cpp:1084-1094 | a leave by a peer with its own entry keeps the weak invariant always, the strong one unless it orphans |
| Sweep.SweepKeeps | src/game/game_thread.cpp:497-530 | the sweep keeps both invariants and who is believed connected, even when hosts it removes disband lobbies on the way |
| Sweep.ErasedIff | src/game/game_thread.cpp:501-518 | in any state, a disconnected peer is erased if and only if at its turn it was unknown, lobby-less or expired |
| Sweep.SweepErases | src/game/game_thread.cpp:497-530 | every expired or lobby-less disconnected peer goes from peers, disconnected peers and listing; nobody connected goes; no lobby lists one that went |
| Sweep.TwoSweepsReachFixpoint | src/game/game_thread.cpp:497-530 | with the time fixed, a third sweep after two changes nothing and sends nothing, in every mode and any orders |
| Sweep.QuietSweep | src/game/game_thread.cpp:501-518 | a sweep that finds nobody expired leaves every lobby and every other entry as it is, sends nothing and erases exactly the disconnected peers without a live lobby |
| Talks.TalkKeeps | src/game/game_thread.cpp:1157-1331 | chat, user data, both notify commands and commands refused for what they carry keep the weak invariant, and where nobody was orphaned the whole state |
| Talks.TalkEffect | src/game/game_thread.cpp:1799-1872 | in any state they insert at most an entry for the member they name and an empty lobby where the sender's own is missing |
| Runs.StepKeepsWeakIff | src/game/game_thread.cpp:365-495 | a step of any mode, by anybody whose OPEN was taken, keeps the weak invariant if and only if it does not get a lobby for a made-up entry |
| Runs.StepKeepsInv | src/game/game_thread.cpp:365-495 | every step that orphans nobody keeps the full invariant; only OPEN and CLOSE change who is believed connected |
| Runs.AlwaysWeakIff | src/game/game_thread.cpp:365-495 | a run of any mode has the weak invariant at every point if and only if no made-up entry gets a lobby in it |
| Runs.EveryRunIsWeak | src/game/game_thread.cpp:365-495 | in every run of every mode in which no made-up entry gets a lobby, a set lobby id is found in the lobbies and that lobby lists the peer |
| Runs.SettledRunKeepsInv | src/game/game_thread.cpp:365-495 | in every run that orphans nobody, two-way membership, hosts, join order, capacity and clear diffs hold |
| Runs.SettledRunIntrudesNowhere | src/game/game_thread.cpp:753-766 | in a run that orphans nobody no made-up entry gets a lobby: whoever acts has its own entry |
| Runs.CoherentRunSettled | src/game/game_thread.cpp:604-604 | in a scripted game or one with disband_on_leave, no run orphans anybody |
| Runs.CapacityBound | src/game/game_thread.cpp:1011-1015 | in every such run a roster is not empty and at most max_players read as unsigned 64-bit, and the plain bound where the limit is not negative |
| Runs.RejoinTakesNoSlot | src/game/game_thread.cpp:994-1035 | a join by a peer still in a lobby changes no roster, whether it rejoins or is refused |
| JoinEffects.JoinedIff | src/game/game_thread.cpp:985-1029 | in any game a join succeeds if and only if the peer had been disconnected, its lobby lives and the script agrees, or it is in no lobby, the lobby lives, the password is right, there is room and the script agrees; a refusal changes nothing |
| JoinEffects.RejoinEffect | src/game/game_thread.cpp:1029-1067 | coming back clears the flags ready and disconnected and nothing else; connected members are told, and the peer gets its lobby |
| JoinEffects.RejoinSyncs | src/game/game_thread.cpp:994-1067 | a client that waits for its lobby holds it exactly after a JOIN, and waits no longer |
| JoinEffects.EnterEffect | src/game/game_thread.cpp:1032-1043 | a newcomer is last in the order, inside, and its own entry gets the lobby and the next order id; nothing else changes |
| JoinEffects.EnterTells | src/game/game_thread.cpp:1045-1067 | connected members hear who came, the newcomer gets the lobby with itself in it, and nobody else hears anything |
| RemovalEffects.KickIff | src/game/game_thread.cpp:1260-1291 | a kick removes its target from its lobby exactly if the host names another member and the script agrees; only the target's entry changes, the target hears it was kicked and the other connected members who went; otherwise nothing happens |
| RemovalEffects.LeaveEffect | src/game/game_thread.cpp:1084-1094 | a leave takes the leaver, and whoever goes along, out of the lobby, and it hears that it left |
| RemovalEffects.MemberGoes | src/game/game_thread.cpp:653-698 | when a member that is not host goes, host and all other entries stay, and the rosters lose exactly it |
| RemovalEffects.HostHandsOver | src/game/game_thread.cpp:630-650 | a scripted lobby that stays gets the least of the other members as host |
| RemovalEffects.HostHandsOverNotes | src/game/game_thread.cpp:618-650 | those who stay hear who left and then who is host |
| RemovalEffects.HostTakesAll | src/game/game_thread.cpp:602-617 | a host that takes all along leaves every member's entry empty; the lobby goes, unless it orphans the others |
| RemovalEffects.HostTakesAllNotes | src/game/game_thread.cpp:602-617 | then every other connected member hears that it was put out |
| RemovalEffects.SweptMember | src/game/game_thread.cpp:513-518 | a sweep removes an expired member as a kick does, and the connected others hear it |
| Effects.ConnectEffect | src/game/game_thread.cpp:749-772 | a connection makes an entry or unmarks the one there is, and sends that entry to its peer alone |
| Effects.CloseEffect | src/game/game_thread.cpp:785-807 | a close sets the flags, keeps the first time, ends the subscription and tells the connected others in the lobby |
| Effects.CreateMakes | src/game/game_thread.cpp:913-983 | the lobby created has exactly the name, password, limit, seal and tags of the command, its creator as host and only member |
| Effects.CreateTells | src/game/game_thread.cpp:966-970 | the creator is sent the lobby, and whether there is a password but not which |
| Effects.CreateRefused | src/game/game_thread.cpp:917-962 | a refused creation changes nothing; a vetoed one leaves the peer's entry as one in no lobby |
| Effects.ReadyEffect | src/game/game_thread.cpp:1333-1409 | the flag flips, and every connected member hears it, exactly if it differs and the script agrees |
| Effects.EditEffect | src/game/game_thread.cpp:1203-1258 | an edit that is allowed changes its one field, marks the lobby and is told to every connected member; tags are sent whole |
| Effects.EditRefused | src/game/game_thread.cpp:1411-1506 | an edit that is not allowed changes nothing; a seal that is there already is confirmed to its host alone |
| Effects.ListEffect | src/game/game_thread.cpp:1096-1135 | the reply to a LIST holds the first 100 lobbies at most; a second LIST gets an empty one |
| Effects.FlushEffect | src/game/game_thread.cpp:564-597 | after a flush nothing is marked, and every connected subscriber got one message about every marked lobby |
| JoinOrders.StepOrders | src/game/game_thread.cpp:1032-1041 | across any step a member keeps its order id and a newcomer gets one above the lobby's counter, which never falls |
| JoinOrders.OrderIdsNeverReused | src/game/game_thread.cpp:1032-1041 | over a lobby's life no order id given to a newcomer was given before |
| JoinOrders.QuickJoinWhenIn | src/game/game_thread.cpp:889-893 | quick join by a peer in a lobby changes nothing, or brings it back to its own lobby if it had been disconnected |
| QuickJoins.TryJoinsExact | src/game/game_thread.cpp:899-909 | in any game the loop joins the first eligible lobby in container order that does not refuse, and otherwise leaves all but the hosts it looked up alone |
| QuickJoins.AttemptIff | src/game/game_thread.cpp:1002-1029 | an attempt at an eligible lobby succeeds if and only if the command's password is empty and the script agrees |
| QuickJoins.QuickJoinAnywhere | src/game/game_thread.cpp:886-911 | in any game, orphaned lobbies included: a peer in no lobby enters the first eligible lobby that does not refuse, with an entry inserted for each unknown host looked up on the way, and creates one only if all refuse |
| QuickJoins.QuickJoinOutcome | src/game/game_thread.cpp:886-911 | where nobody was orphaned, a peer in no lobby enters the first lobby in container order that is unsealed, without password, below its limit, with a host not marked disconnected and every requested tag, and that neither the command's password nor the script turns away; a new lobby is made exactly if there is none such and the command and the script allow; nobody else moves |
| JoinEffects.QuickJoinTells | src/game/game_thread.cpp:886-911 | everybody hears of a quick join what they would hear of the join or creation it ends in; the one who asked gets only errors before that |
| Lookups.CommandKeys | src/game/game_thread.cpp:412-487 | a command of any kind, refused or not, makes entries for exactly the ids it looks up in vain |
| Lookups.StepActive | src/game/game_thread.cpp:365-530 | in every mode, those believed connected after a step are those that OPEN and CLOSE make so, and those it looked up in vain |
| Lookups.ActiveIff | src/game/game_thread.cpp:365-530 | in every mode, who is believed connected changes by OPEN and CLOSE alone if and only if every id the step looks up is known |
| Rosters.StepKeepsFlat | src/game/game_data.h:41-49 | every step of every mode, made-up entries included, keeps each roster sorted without duplicates |
| Orphaned.OrphaningCanLeak | src/game/game_thread.cpp:604-617 | from any good state where a host can orphan a member, whoever else is disconnected and whatever the password, four further steps make the game believe connected a peer that closed and was swept, under an entry without an id |
| Orphaned.TellingCanLeak | src/game/game_thread.cpp:1799-1835 | from any good state with nobody disconnected where a host can orphan a member: it leaves, comes back by id, the member closes and is swept, every look-up so far hits, and then naming the member in a NOTIFY_TO or a refused DATA_TO makes the game believe it connected |
| Orphaned.MadeUpEntryLosesLobby | src/game/game_thread.cpp:753-766 | a run from a new relay game in which such a peer comes back, creates a lobby and leaves it, and keeps a lobby id that is not in the lobbies |
| ReplicaSteps.ConnectInStep | src/game/game_thread.cpp:749-772 | a connection keeps every client's view right; the newcomer's state notice makes it right from any view it held |
| ReplicaSteps.CloseInStep | src/game/game_thread.cpp:785-803 | a close keeps every other client's view right; nothing is asked of the closed one's, whatever still reaches it |
| ReplicaSteps.EnterInStep | src/game/game_thread.cpp:1045-1067 | after an entry the newcomer's snapshot and the members' note both give the lobby exactly |
| ReplicaRemoval.RemovalInStep | src/game/game_thread.cpp:599-698 | disband, host migration, leave and kick each give every client exactly the lobby it is still in, or none |
| ReplicaRemoval.SweepInStep | src/game/game_thread.cpp:497-530 | a sweep's notes keep every client's view right |
| ReplicaData.DataToAllInStep | src/game/game_thread.cpp:1723-1798 | the diffs a data command sends keep every client's copy of every member's data right |
| ReplicaData.LobbyDataInStep | src/game/game_thread.cpp:1570-1645 | the diff a lobby data command sends keeps every client's copy right |
| ReplicaData.CallInStep | src/game/game_thread.cpp:1977-2060 | the diffs after a script call that drops no visible key keep every client's copy right |
| ReplicaRuns.EveryRunInStep | src/game/game_thread.cpp:599-803 | at the end of every run that orphans nobody, drops no visible key and opens no peer twice, each connected client's view, folded since its last OPEN from any view at all, is its lobby, or none while it has no snapshot |
| ReplicaRuns.ReplicaIsExact | src/game/game_thread.cpp:1028-1067 | at the end of such runs member set, host, ready and disconnected flags, lobby data and members' data of a synced client are exactly the server's, whatever backlog reached it before the answer to its last OPEN |
| Delivery.BacklogFirst | src/game/game_thread.cpp:284-304 | for any run in which a peer closes and comes back before anything is flushed, one batch on the new connection holds everything accepted for the old one, and the notice that answers the new one last |
| Delivery.FlushedReplica | src/game/game_thread.cpp:284-304 | through the send queue: a connection that got at least the frames from its state notice on, read back, ends with the lobby exactly, whatever backlog came first and whatever the client held |
| Delivery.AllNotesInOrder | src/game/game_thread.cpp:700-722 | the notes up to the last OPEN and those since are together what the steps sent, in order |
| Listing.OrdinaryInStep | src/game/game_thread.cpp:564-597 | a step that marks every lobby whose entry it changes leaves a subscriber right about all unmarked ones |
| ListingRuns.EveryRunKeepsList | src/game/game_thread.cpp:564-597 | in every run of every mode in which no made-up entry gets a lobby, a subscriber is right about every lobby without a pending update |
| ListingRuns.ListIsExact | src/game/game_thread.cpp:564-597 | spelled out for such runs: the current entry if unsealed, nothing if gone or sealed, its own sealed lobby at subscription excepted |
| ListDelivery.ListStartsAtReply | src/game/game_thread.cpp:1096-1135 | a subscriber's list depends on nothing accepted before its LIST: it is what the reply and the messages after it say |
| ListDelivery.FlushedList | src/game/game_thread.cpp:284-304 | through the send queue: a subscriber that got at least the reply to its LIST and what follows is right about every lobby without a pending update, whatever updates of earlier connections came first |
| ListingRuns.DataIsNotMarked | src/game/game_thread.cpp:1570-1645 | a lobby data command changes the data without marking the lobby, so the list's data field is not covered |
| SharedData.ScriptDiffExact | src/lua/script_lua.cpp:60-112 | for any writes in one call, the diff applied to the old data gives the new if and only if no whole table dropped a visible key that was not written after it; nothing written, nothing sent |
| SharedData.LastWriteWins | src/lua/script_lua.cpp:60-112 | the last write of a key, or the last whole table after it, decides its value, up to the sign of a zero |
| SharedData.MergeExact | src/game/game_thread.cpp:1594-1617 | the diff of a relay command, null erasing, takes readers from the old data to the new |
| DataEffects.LobbyDataEffect | src/game/game_thread.cpp:1570-1637 | exactly for a relay host the lobby's data get the command's keys, null erasing, and every connected member is sent them, unless there are none |
| DataEffects.DataToEffect | src/game/game_thread.cpp:1646-1707 | exactly for a relay host naming a member, that member alone gets the data, every connected member is sent them, and the host is told it is done |
| DataEffects.DataToAllEffect | src/game/game_thread.cpp:1723-1798 | exactly for a relay host every member gets the data and every connected member is sent all of them in roster order |
| TalkEffects.CallTells | src/game/game_thread.cpp:1977-2060 | every diff that a script call left is sent once to each connected member, members first, then the lobby, and the caller is answered last |
| TalkEffects.CallWrites | src/lua/script_lua.cpp:60-162 | after a script call lobby and members hold what was written, clean, and nothing else changed |
| TalkEffects.ChatEffect | src/game/game_thread.cpp:1157-1201 | a chat reaches every connected member exactly if it is valid and the script agrees |
| TalkEffects.UserDataEffect | src/game/game_thread.cpp:1293-1331 | user data reach their owner and the connected members of its lobby, if it has one |
| TalkEffects.NotifyEffect | src/game/game_thread.cpp:1836-1872 | in a relay a host tells all connected members and a member tells its host |
| TalkEffects.NotifyToEffect | src/game/game_thread.cpp:1799-1835 | exactly for a relay host naming a member that member alone hears it |
| SharedData.DictEqIsSame | src/common/any_type.h:88-94 | operator== finds data maps equal if and only if they hold the same values up to the signs of zeros, and no NaN |
| JsonRoundTrip.RoundTrip | src/common/any_type.h:21-52 | decoding what was encoded gives an equal value if and only if no string holds NUL and no number is NaN, for every finite tree |
| JsonRoundTrip.Normalised | src/common/any_type.cpp:63-104 | encoding what was decoded is an idempotent normal form |
| JsonRoundTrip.LastDuplicateWins | src/common/any_type.cpp:106-128 | of several members with one name the last is kept |
| JsonRoundTrip.DecodeShape | src/common/any_type.cpp:63-104 | whatever is decoded has sorted keys without duplicates at every depth and no NUL |
| JsonRoundTrip.EqIsSame | src/common/any_type.h:72-98 | operator== holds if and only if the trees are identical up to the signs of zeros and hold no NaN |
| JsonValues.ScalarsOut | src/common/any_type.h:21-52 | each scalar becomes the JSON value of its kind; a string ends before its first NUL |
| JsonValues.ScalarsIn | src/common/any_type.cpp:63-104 | and back; unsigned numbers are taken modulo 2 to the 64 |
| JsonValues.ContainersOut | src/common/any_type.h:21-52 | arrays and objects are encoded element by element under their own names |
| JsonValues.ArrayIn | src/common/any_type.cpp:43-61 | an array decodes element by element, exactly if each of them does |
| AnyTypes.ToYyjson | src/common/any_type.h:21-52 | the appending loops compute the specified tree |
| AnyTypes.DecodeValue | src/common/any_type.cpp:63-104 | the dispatch computes the specified value or error |
| AnyTypes.DecodeArray | src/common/any_type.cpp:43-61 | the loop decodes all elements in order, or stops at the first error |
| AnyTypes.DecodeObject | src/common/any_type.cpp:106-128 | the loop assigns pair by pair, or stops at the first error |
| GameThreads.GameThread.Send | src/game/game_thread.cpp:700-722 | a text for a disconnected peer is dropped, any other is accepted in order |
| GameThreads.GameThread.WalkOut | src/game/game_thread.cpp:608-630 | the member loops of a removal: who leaves, who is told, in order |
| GameThreads.GameThread.NextHost | src/game/game_thread.cpp:630-637 | the new host is the first other member |
| GameThreads.GameThread.RemovePeerFromLobby | src/game/game_thread.cpp:599-698 | the in-place removal reaches the state and sends the messages of the described one |
| GameThreads.GameThread.OnClose | src/game/game_thread.cpp:785-807 | state and messages of the described handler |
| GameThreads.GameThread.OnCreateLobby | src/game/game_thread.cpp:913-983 | state and messages of the described handler; a veto undoes the tentative lobby |
| GameThreads.GameThread.OnJoinLobby | src/game/game_thread.cpp:985-1082 | state, messages and result of the described handler |
| GameThreads.GameThread.OnQuickJoin | src/game/game_thread.cpp:886-911 | attempts one by one over the live state come to the described outcome |
| GameThreads.GameThread.OnLeaveLobby | src/game/game_thread.cpp:1084-1094 | state and messages of the described handler |
| GameThreads.GameThread.OnKickPeer | src/game/game_thread.cpp:1260-1291 | state and messages of the described handler, with its refusals in order |
| GameThreads.GameThread.PeersToArray | src/game/game_data.h:41-49 | the entries of the members in order, missing ones inserted |
| GameThreads.GameThread.OnLobbyReady | src/game/game_thread.cpp:1389-1409 | state and messages of the described handler; a veto restores the flag |
| GameThreads.GameThread.OnLobbyMaxPlayers | src/game/game_thread.cpp:1469-1506 | state and messages of the described edit, with the unsigned comparison |
| GameThreads.GameThread.OnLobbyTags | src/game/game_thread.cpp:1203-1258 | the loop over the tags, null erasing, comes to the described edit; unreadable tags are refused |
| GameThreads.GameThread.SetLobbySealed | src/game/game_thread.cpp:1874-1898 | the flag is set; others are told and the lobby is marked only if it changed |
| GameThreads.GameThread.OnSealLobby | src/game/game_thread.cpp:1411-1467 | state and messages of the described edit |
| GameThreads.GameThread.MergeFields | src/game/game_thread.cpp:1594-1617 | the loop over a command's pairs merges the whole object, in any order of its keys |
| GameThreads.GameThread.OnLobbyData | src/game/game_thread.cpp:1570-1637 | state and messages of the described handler |
| GameThreads.GameThread.OnDataTo | src/game/game_thread.cpp:1646-1722 | state and messages of the described handler, refused or not; the target is looked up before the command's object |
| GameThreads.GameThread.OnDataToAll | src/game/game_thread.cpp:1723-1798 | the nested loops come to the described state and messages |
| GameThreads.GameThread.OnLobbyNotify | src/game/game_thread.cpp:1836-1872 | state and messages of the described command: a host tells everybody, a member its host |
| GameThreads.GameThread.OnNotifyTo | src/game/game_thread.cpp:1799-1835 | state and messages of the described command: the target is looked up before what is to be told |
| GameThreads.GameThread.OnChatLobby | src/game/game_thread.cpp:1157-1201 | state and messages of the described command: an unreadable extra is reported and the chat goes on |
| GameThreads.GameThread.NotifyLobbyChanges | src/game/game_thread.cpp:1977-2054 | every dirty diff is sent once and cleared |
| GameThreads.GameThread.OnLobbyCall | src/game/game_thread.cpp:836-869 | interleaved writes to the lobby and to members act target by target, then the changes are notified |
| GameThreads.GameThread.OnListLobby | src/game/game_thread.cpp:1096-1135 | state and messages of the described handler: at most the 100 oldest visible lobbies |
| GameThreads.GameThread.HandleLobbyList | src/game/game_thread.cpp:564-597 | one update with every marked lobby for every subscriber, then no marks |
| GameThreads.GameThread.HandleDisconnects | src/game/game_thread.cpp:497-530 | the two loops come to the described sweep, and the ids handed on are those erased |
| GameLoop.HandleEvent | src/game/game_thread.cpp:365-495 | in every mode and for whoever's OPEN was taken, made-up entries included, the switch over all its commands does to the object what the step says of its state |
| GameLoop.Serve | src/game/game_thread.cpp:143-163 | a whole run of the object, in every mode, is the run of its state, and sends the messages of its steps in order |
| RateLimiter.RateBound | src/websocket/websocket_server.cpp:151-166 | from time 1000 on, at most max messages in the running window and 2 * max - 1 in any second |
| RateLimiter.BoundAttained | src/websocket/websocket_server.cpp:151-166 | for every max, messages that attain the bound |
| RateLimiter.ClosedForGood | src/websocket/websocket_server.cpp:161-166 | after the limit closed the socket nothing more is enqueued |
| SocketRate.OwnMessage | src/websocket/websocket_server.cpp:151-179 | a message is queued if and only if it is within the limit and there is room, and otherwise it is its own socket that is closed |
| SocketRate.SocketRateBound | src/websocket/websocket_server.cpp:151-179 | in every run of the socket side one socket gets at most 2 * max - 1 messages into the queue in any second |
| Sockets.OpenKeeps | src/websocket/websocket_server.cpp:80-150 | every branch of on_open keeps the invariant of sockets, connections, index and event stream |
| Sockets.CloseKeeps | src/websocket/websocket_server.cpp:180-198 | a close keeps it and clears only an entry that holds this socket |
| Sockets.MessageKeeps | src/websocket/websocket_server.cpp:151-179 | a message, accepted, over the limit or without room, keeps it |
| Sockets.SendCloseIs | src/websocket/websocket_server.cpp:200-218 | sending CLOSE closes the peer's socket through the close handler; the second clearing of the entry changes nothing |
| Sockets.ClearKeeps | src/websocket/websocket_server.cpp:239-250 | clearing any users keeps it |
| Arrivals.ReturnEffect | src/websocket/websocket_server.cpp:112-136 | a valid token gives the peer back: the new socket is open under the peer's id and held by its entry, the old one is closed, CLOSE, if it was open, and then OPEN are queued, and nobody else is touched |
| Arrivals.ReturnIndexes | src/websocket/websocket_server.cpp:112-135 | and the way back is open again from then on |
| Arrivals.FirstEffect | src/websocket/websocket_server.cpp:119-150 | a socket without a known token comes in under its own new id, with OPEN queued |
| Arrivals.TurnedAwayEffect | src/websocket/websocket_server.cpp:83-111 | a token that is too old or for another game gets the socket closed, and only one too old is forgotten |
| Arrivals.MessageEffect | src/websocket/websocket_server.cpp:151-179 | a message within the limit and with room is queued as it is, and otherwise its socket is closed and CLOSE queued |
| Arrivals.ClearEffect | src/websocket/websocket_server.cpp:239-250 | clearing users removes exactly their entries and index keys and closes exactly their sockets |
| Reconnection.EveryRunOk | src/websocket/websocket_server.cpp:80-250 | every run of socket steps, deferred closes and clears keeps the invariant |
| Reconnection.OneSocketEach | src/websocket/websocket_server.cpp:129-134 | an open socket is the one its peer's entry holds, and no peer has two |
| Reconnection.EntryHoldsOpenSocket | src/websocket/websocket_server.h:31-36 | a socket an entry holds is open and its id, game and token are the entry's |
| Reconnection.StaleCloseKeepsNewer | src/websocket/websocket_server.cpp:184-189 | closing a superseded socket leaves the newer entry alone, in any state |
| Reconnection.UpIffOpenSocket | src/websocket/websocket_server.cpp:136-198 | a peer has an open socket if and only if its events end in an unclosed OPEN |
| Reconnection.StreamShape | src/websocket/websocket_server.cpp:80-198 | in every run the events of an id are a prefix of (OPEN MESSAGE* CLOSE)* for one game, or a lone CLOSE |
| Reconnection.GameForGood | src/websocket/websocket_server.cpp:103-109 | a peer id never changes game |
| Reconnection.IndexAlwaysHits | src/websocket/websocket_server.cpp:94-101 | an index entry always names a present connection of that game and token, so that lookup cannot fail |
| Reconnection.OneKeyEach | src/websocket/websocket_server.cpp:127-128 | two keys never name one peer |
| Reconnection.ClearStrandsIff | src/websocket/websocket_server.cpp:239-250 | clearing one user takes the way back from another if and only if both have one key and it names the other |
| Reconnection.OpenKeepsIndexedIff | src/websocket/websocket_server.cpp:87-93 | an arrival keeps every connection indexed if and only if it does not present an expired token |
| Reconnection.ClearKeepsIndexed | src/websocket/websocket_server.cpp:239-250 | while every connection is indexed, clearing strands nobody |
| Reconnection.StepKeepsIndexedIff | src/websocket/websocket_server.cpp:80-250 | of all socket steps, deferred closes and clears, only an arrival with an expired token takes somebody out of the index |
| Reconnection.AlwaysIndexedIff | src/websocket/websocket_server.cpp:80-250 | over every run every connection stays indexed, all along, if and only if no arrival presents an expired token |
| Reconnection.NobodyStranded | src/websocket/websocket_server.cpp:239-250 | in such runs clearing one user never takes the way back from a connected one |
| Reconnection.StrandingHappens | src/websocket/websocket_server.cpp:83-150 | a run in which clearing one user strands a connected one |
| WebSocketServers.WebSocketServer.OnOpen | src/websocket/websocket_server.cpp:80-150 | the in-place steps come to the described state |
| WebSocketServers.WebSocketServer.OnMessage | src/websocket/websocket_server.cpp:151-179 | the in-place steps come to the described state |
| WebSocketServers.WebSocketServer.OnClose | src/websocket/websocket_server.cpp:180-198 | the in-place steps come to the described state |
| WebSocketServers.WebSocketServer.SendClose | src/websocket/websocket_server.cpp:200-218 | the in-place steps come to the described state |
| WebSocketServers.WebSocketServer.ClearUsers | src/websocket/websocket_server.cpp:239-250 | the loop comes to the described state |
| Systems.AlwaysPlayable | src/game/game_thread.cpp:365-410 | in every state a run can reach, every possible turn meets its handler's preconditions: the OPEN of who acts was taken |
| Systems.TurnKeepsSound | src/game/game_thread.cpp:365-530 | every turn of either thread in every mode, orphaning or not, keeps the socket invariant, and that whoever opened as far as taken is believed connected by its game |
| Systems.TurnBelievesIff | src/game/game_thread.cpp:365-530 | from a true belief of who is connected, a turn keeps it true if and only if its game step looks up known peers only |
| SystemRuns.EveryRunSound | src/game/game_thread.cpp:365-530 | every interleaving keeps what TurnKeepsSound says |
| SystemRuns.AlwaysBelievedIff | src/game/game_thread.cpp:365-530 | in every interleaving the games know who is connected, all along, if and only if they look up known peers only |
| SystemRuns.SettledRunFound | src/game/game_thread.cpp:599-698 | in an interleaving without an orphaning turn every game keeps its full invariant and looks up known peers only |
| SystemRuns.RunExtends | src/game/game_thread.cpp:365-375 | a run can be continued by any possible turn, orphaning or not: nothing is assumed of who is connected |
| SystemRuns.NoLeakedPeer | src/game/game_thread.cpp:497-530 | where games look up known peers only, so wherever nobody was orphaned, a peer believed connected has an open socket or its CLOSE is queued |
| SystemRuns.NoForgottenSocket | src/game/game_thread.cpp:749-757 | in every interleaving, orphaning turns included, an open socket's peer is believed connected or its OPEN is queued |
| SystemRuns.SidesAgreeWhenQuiet | src/game/game_thread.cpp:365-375 | where games look up known peers only, with the queue empty, those believed connected are exactly those with an open socket for that game |
| SystemRuns.PeerAlwaysFound | src/game/game_thread.cpp:403-408 | in every interleaving, orphaning turns included, a text taken comes from a known, connected peer, so ERROR_PEER_NOT_FOUND is never said |
| SystemRuns.OneGameEach | src/game/game_thread.cpp:371-378 | where games look up known peers only, no peer is believed connected by two games |
| SystemRuns.OpenOnlyWhenGone | src/game/game_thread.cpp:749-757 | where games look up known peers only, an OPEN taken is for a peer not believed connected |
| SystemRuns.NonsenseIsKicked | src/game/game_thread.cpp:384-408 | a text that makes no sense or comes from an unknown peer moves nobody and asks for its sender to be closed |
| SystemRuns.KickCloses | src/websocket/websocket_server.cpp:200-218 | and when the socket thread comes to that, no socket of the peer stays open |
| LeakRuns.ScriptHappens | src/game/game_thread.cpp:365-378 | whatever run one game can go through with peers that connect before they speak, the whole system can be driven through from its start, for any other configuration |
| LeakRuns.PeerLeaks | src/game/game_thread.cpp:604-617 | a run from the start of any server that leaks a peer of a default relay game: believed connected, with no open socket, no CLOSE queued and nothing deferred |
| LeakRuns.TellingLeaks | src/game/game_thread.cpp:1646-1664 | the same from the start of any server through such a look-up, with nobody joining the lobby |
| Projections.GameRun | src/game/game_thread.cpp:365-378 | in every interleaving each game goes through a run of its own and ends where that run ends |
| Projections.ReplicaOverSockets | src/game/game_thread.cpp:1028-1067 | over both threads, where nobody is orphaned and no script call drops a visible key, whoever a game believes connected holds its lobby exactly once it has folded what was accepted since its last OPEN taken |
| Projections.SettledGamesAgree | src/game/game_thread.cpp:599-698 | in every interleaving without an orphaning turn the lobbies and members of every game agree both ways |
| Projections.CoherentMovesSettle | src/game/game_thread.cpp:604-604 | an interleaving in which only scripted or disband_on_leave games move orphans nobody |
| Projections.CoherentGamesAreSafe | src/game/game_thread.cpp:599-698 | so there, by configuration alone, lobbies and members agree and whoever is believed connected has an open socket or its CLOSE queued |
| Lingering.NoLingeringEntry | src/websocket/websocket_server.cpp:239-250 | in every interleaving, orphaning turns included, a connection entry without a socket has its CLOSE queued, or is disconnected in its game, or has a clear pending |
| Batching.OrderConserved | src/game/game_thread.cpp:700-722 | under any mix of sends, closes and flushes, what was deferred and then what waits are exactly the accepted texts, in order, for each peer |
| Batching.BatchRoundTrip | src/game/game_thread.cpp:297-299 | splitting a batch at its top-level commas gives back its messages, if each is a text whose strings and brackets close |
| Batching.FramesConserve | src/game/game_thread.cpp:284-304 | frames read back and what waits are the accepted texts |
| Batching.JoinTexts | src/game/game_thread.cpp:270-282 | the stream loop computes the joined text |
| Batching.Sender.Send | src/game/game_thread.cpp:700-722 | the described step; CLOSE is neither held back nor dropped |
| Batching.Sender.HandleSend | src/game/game_thread.cpp:284-304 | the described step, one interval a pass |
| Ticks.OpenedAligned | src/game/game_data.h:56-67 | the clock starts at the multiple of the rate whose interval holds now |
| Ticks.TicksInOrder | src/game/game_thread.cpp:306-321 | the k-th tick sees exactly t0 + k * rate, none skipped or repeated, and the clock is never ahead of time |
| Ticks.StaysAligned | src/game/game_thread.cpp:306-321 | the last tick stays a multiple of the rate |
| Ticks.CatchUp | src/game/game_thread.cpp:306-321 | n passes at a fixed time reach min(t0 + n * rate, floor(now / rate) * rate) |
| Ticks.Clock.HandleTick | src/game/game_thread.cpp:306-336 | though games share now, each advances as if alone, and now is restored |
| Ticks.Passes | src/game/game_thread.cpp:306-336 | so over any passes a game's schedule depends on itself alone |

## Left out

- Private data of lobbies and peers, the contents of chat, user data and notifications, command ids and message texts. Who looks whom up and who is told is modelled for all of them (`Talk`); a notification is kept as its kind and the fields a client folds.
- Script callbacks are verdicts. Their data writes are modelled in `on_lobby_call` only; writes during other callbacks would add the same notifications at more places. Tag, title, size and seal writes by scripts, and timers they start, are not modelled. The look-ups of members after each callback happen in scripted games only, where nobody is orphaned and they hit.
- Scripts that call back into kick_peer, set_lobby_host or max_players: these bypass the membership and capacity checks, and set_lobby_host does not mark the lobby updated. The theorems are about runs without them.
- A script function that ends in an error: its writes are notified all the same; only calls that succeed are modelled.
- handle_afk and handle_timers: both change containers they iterate over and have no meaning to prove. The theorems are about servers without games that set max_afk_time.
- The database, authentication, upgrade and reload of games: peer ids are fresh, and a message for an unknown game creates a relay game.
- uWebSockets, queues and threads: `ws->end` runs the close handler before it returns, unbounded enqueues succeed, and each handler runs to its end before the next. The game thread's clock, which another thread advances, is a reading given to each step.
- `connected_users`: it is decremented for rejected sockets without having been incremented, so it counts nothing.
- JSON text and yyjson itself: the value tree is modelled. Malformed text is a branch of delivery that closes the sender. Keys that are not strings cannot occur in JSON; decode errors for tags are therefore not reachable and have no branch.
- Aliasing: entries of maps are values that a method reads and writes back; the source holds references into the maps, whose invalidation by default insertion into a flat_map is not modelled.
- The encoding of characters: strings are sequences of characters, cut at the first NUL where the source goes through C strings.
- `decode_int_or_default` narrows to 32 bits before max_players is stored; the model allows every 64-bit value. `order_id` is an int fed from a 64-bit counter; the model does not wrap it.
- Ready checks for the script flip the flag and restore it on a veto; what a script could read in between is not modelled.
- GameThreads.GameThread.Send: CLOSE, and whether a text goes out at once or waits for its batch, are modelled in Batching.Sender.Send, because they do not depend on the state of the game.
- GameThreads.GameThread.OnLobbyData: does not model the private branch, which writes the same way to data that only the host reads.
- GameThreads.GameThread.OnDataTo: does not model the private branch, which writes the same way to data that only the target reads.
- GameThreads.GameThread.OnDataToAll: does not model the private branch, for the same reason; it names a target by its key on the roster, where the source uses the id inside the entry, which differs only for entries made up after an orphaning step.
- GameThreads.GameThread.NotifyLobbyChanges: covers public data; private data, tags, title, size and seal written by a script are not modelled.
- GameThreads.GameThread.OnLobbyCall: covers calls that succeed; the refusals of bad arguments look nothing up and change nothing (`Aside`).
- Tags of a create or quick join command that do not decode: the refusal changes nothing, or comes after the attempt to join that is modelled.
- A lobby that a missed look-up of `game.lobbies[peer.lobby_id]` inserts has an empty id field: the model inserts it too (`Sought`), but joins it, and tries it in quick join, by its key, where peers_to_array and quick join go by that field. Only runs with a made-up entry in a lobby get there.
- SystemRuns.NoLeakedPeer: requires that games looked up known peers only, because it fails otherwise (LeakRuns.PeerLeaks).
- GameThreads.GameThread.OnListLobby: the sort by creation time, with ties in any order, is an input; that the list is right does not depend on it, only which 100 lobbies come first.
- The snapshot a relay host gets on joining carries the private data in the field of the password flag; that field is not modelled.
- Sending is modelled for one game; games are flushed independently. The notifications are taken to be texts whose strings and brackets close, as a JSON writer's output is.
- A negative tick rate, which would run the clock backwards, is excluded from the theorems; the schedules, not what scripts do in a tick, are modelled.
