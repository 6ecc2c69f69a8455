# Ravenfall client synchronisation core, in Dafny

This project models the two parts of the Ravenfall game client that keep the
local world in step with the server:

- **PlayerManager** (`Players` module, `players.dfy`): the client's mirror of
  the live players. It is an ordered list of NetworkPlayer objects looked up by
  server id, plus the `Me` reference to the local player. Adding appends. Removing
  drops the first entry with the id. Every per-player handler (move, animation,
  stats, stat, level-up, equipment, action result) looks up the first entry with
  the id and does nothing when there is none. `ResetState` destroys every
  object and empties the list.
- **NetworkClient** (`Network` module, `network.dfy`): the per-frame `Update`
  tick. When the client is not connected, the tick tries to connect. When it is
  connected but not authenticated, it tries to authenticate. Otherwise it polls
  one player event and one object event and routes each to its manager. The
  module also covers the two guarded attempt coroutines and the outbound
  commands `MoveTo`, `SendPosition` and `SendObjectAction`.

`models.dfy` (module `Models`) holds the shared value types: positions,
players, scene objects and the event variants.

Both managers are written the same way. First, each operation is a function on
a value: a `Registry` for the player list, a `Session` for the client. The
properties are stated and proved about those functions. Then a class keeps the
same state in fields (`PlayerManager`, `NetworkClient`). Each of its methods
changes those fields and is proved to produce exactly what the function says
(`ensures State() == Moved(old(State()), player)`,
`ensures Snapshot() == UpdateNext(old(Snapshot()))`).

Modelling choices:

- A NetworkPlayer object is an `Entry` record. Its `handle` stands for the
  object's identity, and every new object gets a new handle from a counter.
  `Me` holds a handle. So, as in the source, `Me` refers to one object and not
  to a server id. After `ResetState` it still refers to that object, which has
  been destroyed.
- `Destroy` is recorded in the `destroyed` list, in call order.
- What a NetworkPlayer does with `SetStats`, `UpdateStat`, `SetAnimationState`,
  `SetEquipmentState` and `PlayLevelUpAnimation` is not part of this model.
  Each handler appends the update it forwards to the matched entry's `applied`
  list.
- The transport (`gameClient`) and the authentication module (`Auth`) are
  value fields of the client. They hold their status flags, a count of
  `ConnectAsync` and `Authenticate` calls, the two event queues that
  `PollEvent` reads oldest first, and the list of sent messages with their
  `SendOption`. `ObjectManager` is not part of this model; the calls routed to
  it are recorded in `objectCalls`.
- The methods `TransportReports`, `AuthenticationReports`,
  `PlayerEventArrives` and `ObjectEventArrives` of `NetworkClient` stand for
  that foreign code changing what the client reads. They model no line of the
  client.
- Each coroutine is split into two steps. The first is what runs at once
  inside `Connect()` or `Authenticate()`: take the guard, (reset,) call the
  transport. The second is its end, once the transport or module stops
  reporting "connecting" or "authenticating" (`FinishConnect`,
  `FinishAuthenticate`). An exception inside the `try` is a third exit
  (`ConnectFaulted`, `AuthenticateFaulted`). Each of these exits releases the guard.
  `ConnectToServer` takes its guard and resets before its `try` opens, so an
  exception thrown by the reset is not covered; see "Left out".
  `Valid()` states that each guard is clear exactly when no attempt of its kind
  is running.

Behaviour of the code worth noting:

- Adding a player whose id is already present is not rejected; the new entry
  stays hidden behind the older one (`AddedLookup`).
- Removing an absent id only logs.
- The sends do not check that the session is authenticated.
- The registries are reset when the next connect attempt starts, not when a
  disconnect is detected.
- At most one event per kind is consumed per tick.

## Model

| member | source | states |
|---|---|---|
| `Players.FirstIndex` | Client/Assets/Scripts/Managers/PlayerManager.cs:16 | the index found is the first entry with the id; None exactly when no entry has it |
| `Players.PlayerManager.Find` | Client/Assets/Scripts/Managers/PlayerManager.cs:16 | the loop returns the first-match index, as `FirstIndex` specifies |
| `Players.IndexOfHandle` | Client/Assets/Scripts/NetworkClient.cs:29 | finds the live object a reference points at, or reports that it is gone |
| `Players.MePosition` | Client/Assets/Scripts/Managers/PlayerManager.cs:12 | `Me`'s position is defined exactly when `Me` is set and its object is still in the list |
| `Players.Added` | Client/Assets/Scripts/Managers/PlayerManager.cs:26-41 | one entry appended with the player's id, `isMe` flag and position, named after the player with " [ME]" appended for the local player, earlier entries unchanged and in order, a fresh object identity, navigation to the destination only when it differs from the position, `Me` set to the new object exactly when the player is "me", otherwise unchanged |
| `Players.AddedCount` | Client/Assets/Scripts/Managers/PlayerManager.cs:41 | duplicates are not rejected: the count of the added id grows by one, other ids keep theirs |
| `Players.CountAppend` | Client/Assets/Scripts/Managers/PlayerManager.cs:41 | appending an entry adds one to the count of its id only |
| `Players.AddedLookup` | Client/Assets/Scripts/Managers/PlayerManager.cs:26-41 | after an add, an id present before still resolves to the same entry; only a new id resolves to the appended entry |
| `Players.MeAfterAdd` | Client/Assets/Scripts/Managers/PlayerManager.cs:32-37 | adding a "me" player makes `Me` the new, live object at the player's position |
| `Players.Removed` | Client/Assets/Scripts/Managers/PlayerManager.cs:44-59 | absent id: nothing changes; present id: one entry fewer and exactly the first match's object destroyed |
| `Players.RemovedIsRemoveFirst` | Client/Assets/Scripts/Managers/PlayerManager.cs:48-58 | removing equals the reference "drop the first entry with this id", so the others keep their order |
| `Players.SliceIsRemoveFirst` | Client/Assets/Scripts/Managers/PlayerManager.cs:55 | cutting the list at the first match is the reference removal |
| `Players.RemovedCount` | Client/Assets/Scripts/Managers/PlayerManager.cs:48-58 | removing takes exactly one entry with the id away when there is one and leaves every other id's count alone |
| `Players.RemoveFirstCount` | Client/Assets/Scripts/Managers/PlayerManager.cs:55 | the same count property for the reference removal |
| `Players.RemovedIds` | Client/Assets/Scripts/Managers/PlayerManager.cs:55 | removing brings in no id |
| `Players.CountFound` | Client/Assets/Scripts/Managers/PlayerManager.cs:16 | the lookup succeeds exactly when some entry carries the id |
| `Players.Moved` | Client/Assets/Scripts/Managers/PlayerManager.cs:14-24 | absent id: nothing changes; present: only the first match gets the new position and walks to the destination, keeping its name, `isMe` flag and received updates; identities, length and all other entries unchanged |
| `Players.LookupIgnoresPayload` | Client/Assets/Scripts/Managers/PlayerManager.cs:16 | lookups depend only on identities, so moves and attribute updates never change which entry an id resolves to |
| `Players.SameIdentitiesSameIds` | Client/Assets/Scripts/Managers/PlayerManager.cs:16 | lists with the same identities hold the same ids |
| `Players.Updated` | Client/Assets/Scripts/Managers/PlayerManager.cs:61-124 | absent id: nothing changes; present: only the first match receives the update, keeping its name, `isMe` flag, position and navigation; length, identities and all other entries unchanged |
| `Players.Reset` | Client/Assets/Scripts/Managers/PlayerManager.cs:126-134 | the list is emptied, every object destroyed in list order, `Me` kept |
| `Players.MeAfterReset` | Client/Assets/Scripts/Managers/PlayerManager.cs:126-134 | after a reset `Me` is still set but refers to a destroyed object |
| `Players.PlayerManager.constructor` | Client/Assets/Scripts/Managers/PlayerManager.cs:11-12 | an empty list with no `Me` |
| `Players.PlayerManager.OnPlayerMove` | Client/Assets/Scripts/Managers/PlayerManager.cs:14-24 | the new state is `Moved` of the old |
| `Players.PlayerManager.OnPlayerAdded` | Client/Assets/Scripts/Managers/PlayerManager.cs:26-42 | the new state is `Added` of the old |
| `Players.PlayerManager.OnPlayerRemoved` | Client/Assets/Scripts/Managers/PlayerManager.cs:44-59 | the new state is `Removed` of the old |
| `Players.PlayerManager.ForwardToFirst` | Client/Assets/Scripts/Managers/PlayerManager.cs:64-71 | the new state is `Updated` of the old (the shared lookup-then-forward shape) |
| `Players.PlayerManager.OnPlayerAnimationStateChanged` | Client/Assets/Scripts/Managers/PlayerManager.cs:61-72 | `Updated` with the animation state |
| `Players.PlayerManager.OnPlayerStatsUpdated` | Client/Assets/Scripts/Managers/PlayerManager.cs:74-85 | `Updated` with all stats |
| `Players.PlayerManager.OnPlayerStatUpdated` | Client/Assets/Scripts/Managers/PlayerManager.cs:87-98 | `Updated` with one stat |
| `Players.PlayerManager.OnPlayerLevelUp` | Client/Assets/Scripts/Managers/PlayerManager.cs:100-111 | `Updated` with the level-up |
| `Players.PlayerManager.OnPlayerEquipmentStateChanged` | Client/Assets/Scripts/Managers/PlayerManager.cs:113-124 | `Updated` with the equipment change |
| `Players.PlayerManager.ResetState` | Client/Assets/Scripts/Managers/PlayerManager.cs:126-134 | the loop destroys each object in order, then the list is cleared: the new state is `Reset` of the old |
| `Players.PlayerManager.OnPlayerAction` | Client/Assets/Scripts/Managers/PlayerManager.cs:136-150 | never changes the registry (the method has no write frame) |
| `Network.Dequeued` | Client/Assets/Scripts/NetworkClient.cs:115 | a poll takes exactly the oldest event, if any |
| `Network.ApplyPlayerEvent` | Client/Assets/Scripts/NetworkClient.cs:118-155 | each variant reaches exactly its own handler (Added → `Added`, Removed → `Removed`, Moved → `Moved`, the five attribute events → `Updated` with the matching update); the action result and unknown variants change nothing; hence only Added grows the list, by one at the end, only Removed shrinks it, no variant but Added brings in an id, any handler on an absent id changes nothing, and well-formedness is kept |
| `Network.ObjectCallFor` | Client/Assets/Scripts/NetworkClient.cs:97-110 | Added, Updated and Removed go to the matching object-manager call with the same object; any other variant is ignored |
| `Network.ReplayEmptyWithoutAdds` | Client/Assets/Scripts/NetworkClient.cs:113-156 | from an empty registry, any run of ticks without an Added event leaves the whole registry unchanged (no entry, no destroy, same `Me`) |
| `Network.ResetThenNoAdds` | Client/Assets/Scripts/Managers/PlayerManager.cs:126-134 | after a reset, every handler is a no-op until a player is added again: the registry stays exactly the reset one |
| `Network.ReplayIds` | Client/Assets/Scripts/NetworkClient.cs:113-156 | over any run of ticks, every id in the registry was there at the start or came with an Added event |
| `Network.AddedIds1` | Client/Assets/Scripts/Managers/PlayerManager.cs:41 | an add contributes exactly its own id |
| `Network.ResetNext` | Client/Assets/Scripts/NetworkClient.cs:228-233 | authentication flags cleared, player registry reset as `Reset` does, object manager reset, transport and all four guard fields untouched |
| `Network.ConnectNext` | Client/Assets/Scripts/NetworkClient.cs:164-206 | nothing happens unless not connecting, not connected and `canConnect`; otherwise the guard is taken, authentication is cleared, the player registry becomes `Reset` of the old one (objects destroyed in order, `Me` kept), the object manager is reset, and the transport is dialled once |
| `Network.StrandedGuardBlocksConnect` | Client/Assets/Scripts/NetworkClient.cs:164-206 | a disconnected session whose connect guard is taken is left unchanged by every tick: the client never tries to connect again |
| `Network.ConnectTwice` | Client/Assets/Scripts/NetworkClient.cs:164-168 | a second connect trigger while an attempt runs does nothing |
| `Network.ConnectEndNext` | Client/Assets/Scripts/NetworkClient.cs:208-225 | every exit of the connect coroutine gives back `canConnect` and changes nothing else |
| `Network.AuthenticateNext` | Client/Assets/Scripts/NetworkClient.cs:158-177 | nothing happens unless not authenticating and `canAuthenticate`; otherwise the guard is taken and exactly one request is sent |
| `Network.AuthenticateTwice` | Client/Assets/Scripts/NetworkClient.cs:158-162 | a second authenticate trigger while an attempt runs does nothing |
| `Network.AuthenticateEndNext` | Client/Assets/Scripts/NetworkClient.cs:179-195 | every exit of the authenticate coroutine gives back `canAuthenticate` and changes nothing else |
| `Network.PlayerUpdatesNext` | Client/Assets/Scripts/NetworkClient.cs:113-117 | an empty poll changes nothing; otherwise exactly the oldest player event is consumed and applied to the registry |
| `Network.ObjectUpdatesNext` | Client/Assets/Scripts/NetworkClient.cs:92-111 | an empty poll changes nothing; otherwise exactly the oldest object event is consumed and the object manager receives exactly `ObjectCallFor` of it (Added/Updated/Removed to the matching call with the same object, anything else to no call) |
| `Network.UpdateNext` | Client/Assets/Scripts/NetworkClient.cs:69-86 | not connected: the tick is `ConnectNext` (at most one dial, no poll, no authentication); connected but not authenticated: the tick is `AuthenticateNext` (at most one request, no poll, transport and registries untouched); synchronised: at most one event of each kind consumed, the registry takes `ApplyPlayerEvent` of the oldest player event and the object manager `ObjectCallFor` of the oldest object event, no attempt started and both guards and both attempt flags unchanged; the guard discipline is kept |
| `Network.MoveRequest` | Client/Assets/Scripts/NetworkClient.cs:27-36 | no message exactly when the destination is where the player stands; otherwise one Reliable move request carrying both endpoints |
| `Network.NetworkClient.constructor` | Client/Assets/Scripts/NetworkClient.cs:18-19 | both guards clear, disconnected, unauthenticated, nothing queued or sent |
| `Network.NetworkClient.Start` | Client/Assets/Scripts/NetworkClient.cs:57-66 | the first frame tries to connect (`ConnectNext`) |
| `Network.NetworkClient.Update` | Client/Assets/Scripts/NetworkClient.cs:69-86 | the new session is `UpdateNext` of the old |
| `Network.NetworkClient.PollPlayerEvent` | Client/Assets/Scripts/NetworkClient.cs:115-116 | returns the oldest player event or nothing, and removes it from the queue |
| `Network.NetworkClient.PollObjectEvent` | Client/Assets/Scripts/NetworkClient.cs:94-95 | returns the oldest object event or nothing, and removes it from the queue |
| `Network.NetworkClient.HandlePlayerUpdates` | Client/Assets/Scripts/NetworkClient.cs:113-156 | polls at most one player event and routes it: the new session is `PlayerUpdatesNext` of the old |
| `Network.NetworkClient.RoutePlayerEvent` | Client/Assets/Scripts/NetworkClient.cs:118-155 | the switch calls the PlayerManager handler matching the event's variant: the registry becomes `ApplyPlayerEvent` of the old one and stays well formed |
| `Network.NetworkClient.HandleObjectUpdates` | Client/Assets/Scripts/NetworkClient.cs:92-111 | the new session is `ObjectUpdatesNext` of the old |
| `Network.NetworkClient.Connect` | Client/Assets/Scripts/NetworkClient.cs:164-206 | the new session is `ConnectNext` of the old |
| `Network.NetworkClient.FinishConnect` | Client/Assets/Scripts/NetworkClient.cs:208-225 | once the transport stops connecting, reports whether it connected and releases the guard (`ConnectEndNext`) |
| `Network.NetworkClient.ConnectFaulted` | Client/Assets/Scripts/NetworkClient.cs:203-225 | an exception inside the attempt still releases the guard |
| `Network.NetworkClient.Authenticate` | Client/Assets/Scripts/NetworkClient.cs:158-177 | the new session is `AuthenticateNext` of the old |
| `Network.NetworkClient.FinishAuthenticate` | Client/Assets/Scripts/NetworkClient.cs:179-195 | once the module stops authenticating, reports the outcome and releases the guard |
| `Network.NetworkClient.AuthenticateFaulted` | Client/Assets/Scripts/NetworkClient.cs:173-195 | an exception inside the attempt still releases the guard |
| `Network.NetworkClient.ResetState` | Client/Assets/Scripts/NetworkClient.cs:228-233 | the new session is `ResetNext` of the old |
| `Network.NetworkClient.MoveTo` | Client/Assets/Scripts/NetworkClient.cs:27-36 | sends `MoveRequest` from `Me`'s position if it gives one, and nothing else |
| `Network.NetworkClient.SendPosition` | Client/Assets/Scripts/NetworkClient.cs:38-44 | always sends one best-effort position update, nothing else changes |
| `Network.NetworkClient.SendObjectAction` | Client/Assets/Scripts/NetworkClient.cs:46-54 | always sends one best-effort object action request, nothing else changes |
| `Network.LifecycleScenario` | Client/Assets/Scripts/NetworkClient.cs:69-86 | from a fresh client, ticks and transport reports reach the synchronised state; the contract states exactly one dial, one object-manager reset and one authentication request |

## Left out

- Unity engine effects (`Instantiate`, `GetComponent`, `transform`, `Destroy` beyond recording it, the navigation agent's movement over time). A moved player's position is the one the server sent, not where the agent has walked since.
- NetworkPlayer's own handling of stats, animation, equipment and level-ups: it is not shown, so forwarded updates are only recorded.
- Unity's tolerant `Vector3 ==`: positions compare exactly. The experience values, `decimal` in the source, are `real`.
- Coroutine timing (`WaitForSeconds`, including the one-second pause after a failed connect) and the `volatile` qualifier. A coroutine stopped by Unity before its `finally` runs is not modelled.
- What `ConnectAsync`, `Auth.Authenticate` and `PollEvent` do inside the transport and the authentication module. Their flags and queues change only through the four reporting methods. `Auth.Reset` is taken to clear both authentication flags.
- The random user name and fixed password of the authentication request, the server address and port, and the fallback to the loopback address when the address does not parse.
- Logging, `HandleNpcUpdates` (empty in the source), `OnApplicationQuit` (disposing the transport) and the module lookups in `Start`.
- ObjectManager is not part of this model; only the calls made to it are recorded.
- Network.NetworkClient.MoveTo: requires `Me` to be set and alive. The source dereferences `Me` unguarded and throws when it was never set or its object was destroyed, by a reset or by removing the local player.
- An exception thrown by `ResetState` inside `ConnectToServer` (`Auth.Reset`, a `Destroy`, or `ObjectManager.ResetState`) before its `try` opens: `canConnect` then stays false and no later `Connect()` does anything. The model has no such exit, so `Valid()` (each guard clear exactly when no attempt of its kind runs) holds in every modelled state but not in that one. `StrandedGuardBlocksConnect` states that such a state makes no progress.
- Server/src/Servers/GameServer/ObjectActions/AfterActionEventArgs.cs is a data holder with no behaviour and is not part of this model.
