/** The client's synchronisation driver (NetworkClient): the per-frame tick
    that connects, then authenticates, then drains one player event and one
    object event; the two guarded attempt coroutines; and the outbound
    commands.

    The transport (game client) and the authentication module are foreign
    code; they appear as value-typed status: flags, counters of the calls made
    into them, the queues their handlers poll from and the messages sent. The
    object manager is foreign too; the calls routed to it are recorded.

    As for the player registry, each operation is first a function on a
    Session value, then a method of the class NetworkClient proved to follow
    that function. */
module Network {
  import opened Models
  import opened Players

  /** SendOption.Reliable and SendOption.None (best effort). */
  datatype SendOption = Reliable | BestEffort

  datatype Message =
    | PlayerMoveRequest(position: Vector3, destination: Vector3)
    | PlayerPositionUpdate(position: Vector3)
    | PlayerObjectActionRequest(objectServerId: int, actionId: int, parameterId: int)

  datatype Outbound = Outbound(message: Message, option: SendOption)

  /** The transport as the client sees it. `dialled` counts ConnectAsync
      calls; the two queues are what the player and object handlers poll. */
  datatype GameClient = GameClient(
    isConnected: bool,
    isConnecting: bool,
    dialled: nat,
    sent: seq<Outbound>,
    playerEvents: seq<PlayerEvent>,
    objectEvents: seq<ObjectEvent>)

  /** The authentication module: its two flags and the number of
      Authenticate requests made to it. */
  datatype Authentication = Authentication(authenticated: bool, authenticating: bool, requests: nat)

  /** A call into the object manager. */
  datatype ObjectManagerCall =
    | OnObjectAdded(obj: SceneObject)
    | OnObjectUpdated(obj: SceneObject)
    | OnObjectRemoved(obj: SceneObject)
    | ResetObjects

  /** Everything one tick can read or change. `connectAttempt` and
      `authAttempt` say whether a ConnectToServer or AuthenticateWithServer
      coroutine is running. */
  datatype Session = Session(
    client: GameClient,
    auth: Authentication,
    canConnect: bool,
    canAuthenticate: bool,
    connectAttempt: bool,
    authAttempt: bool,
    registry: Registry,
    objectCalls: seq<ObjectManagerCall>)

  /** The guard discipline: each guard is held exactly while its attempt runs. */
  ghost predicate Consistent(s: Session) {
    && s.canConnect == !s.connectAttempt
    && s.canAuthenticate == !s.authAttempt
    && WellFormed(s.registry)
  }

  /** What a poll leaves in a queue: the queue without its oldest event. */
  function Dequeued<T>(q: seq<T>): (r: seq<T>)
    ensures q == [] ==> r == []
    ensures q != [] ==> [q[0]] + r == q
  {
    if q == [] then [] else q[1..]
  }

  // ---------------------------------------------------------------------
  // Routing (HandlePlayerUpdates, HandleObjectUpdates)

  /** The registry after the player-event switch has called the matching
      PlayerManager handler. */
  function ApplyPlayerEvent(r: Registry, e: PlayerEvent): (r': Registry)
    // Each variant reaches exactly its own handler.
    ensures e.PlayerAdded? ==> r' == Added(r, e.entity)
    ensures e.PlayerRemoved? ==> r' == Removed(r, e.entity.id)
    ensures e.PlayerMoved? ==> r' == Moved(r, e.entity)
    ensures e.PlayerAnimationStateUpdated? ==>
      r' == Updated(r, e.entity.id, AnimationState(e.animationState, e.enabled, e.trigger, e.action))
    ensures e.PlayerEquipmentStateUpdated? ==> r' == Updated(r, e.entity.id, EquipmentState(e.itemId, e.equipped))
    ensures e.PlayerStatUpdated? ==>
      r' == Updated(r, e.entity.id, Stat(e.skill, e.level, e.effectiveLevel, e.experience))
    ensures e.PlayerStatsUpdated? ==> r' == Updated(r, e.entity.id, Stats(e.allExperience, e.allEffectiveLevels))
    ensures e.PlayerLeveledUp? ==> r' == Updated(r, e.entity.id, LevelUp(e.skill, e.gainedLevels))
    // What that means for the list.
    ensures e.PlayerAdded? ==> |r'.players| == |r.players| + 1 && r'.players[..|r.players|] == r.players
    ensures e.PlayerRemoved? ==>
      |r'.players| == |r.players| - (if FirstIndex(r.players, e.entity.id).Some? then 1 else 0)
    ensures !e.PlayerAdded? && !e.PlayerRemoved? ==> SameIdentities(r.players, r'.players)
    ensures !e.PlayerAdded? ==> IdsOf(r'.players) <= IdsOf(r.players)
    ensures e.PlayerObjectAction? || e.OtherPlayerEvent? ==> r' == r
    ensures !e.PlayerAdded? && !e.OtherPlayerEvent? && FirstIndex(r.players, e.entity.id).None? ==> r' == r
    ensures WellFormed(r) ==> WellFormed(r')
  {
    match e
    case PlayerAdded(p) => Added(r, p)
    case PlayerRemoved(p) => RemovedIds(r, p.id); Removed(r, p.id)
    case PlayerMoved(p) => SameIdentitiesSameIds(r.players, Moved(r, p).players); Moved(r, p)
    case PlayerObjectAction(p, _, _, _, _) => r
    case PlayerAnimationStateUpdated(p, state, enabled, trigger, action) =>
      var u := AnimationState(state, enabled, trigger, action);
      SameIdentitiesSameIds(r.players, Updated(r, p.id, u).players); Updated(r, p.id, u)
    case PlayerEquipmentStateUpdated(p, itemId, equipped) =>
      var u := EquipmentState(itemId, equipped);
      SameIdentitiesSameIds(r.players, Updated(r, p.id, u).players); Updated(r, p.id, u)
    case PlayerStatUpdated(p, skill, level, effectiveLevel, experience) =>
      var u := Stat(skill, level, effectiveLevel, experience);
      SameIdentitiesSameIds(r.players, Updated(r, p.id, u).players); Updated(r, p.id, u)
    case PlayerStatsUpdated(p, experience, effectiveLevels) =>
      var u := Stats(experience, effectiveLevels);
      SameIdentitiesSameIds(r.players, Updated(r, p.id, u).players); Updated(r, p.id, u)
    case PlayerLeveledUp(p, skill, gainedLevels) =>
      var u := LevelUp(skill, gainedLevels);
      SameIdentitiesSameIds(r.players, Updated(r, p.id, u).players); Updated(r, p.id, u)
    case OtherPlayerEvent => r
  }

  /** The object-manager call the object-event switch makes, if any. */
  function ObjectCallFor(e: ObjectEvent): (c: Option<ObjectManagerCall>)
    ensures c.None? <==> e.OtherObjectEvent?
    ensures c.Some? ==> !c.value.ResetObjects? && c.value.obj == e.obj
    ensures c.Some? ==> (c.value.OnObjectAdded? <==> e.ObjectAdded?) && (c.value.OnObjectRemoved? <==> e.ObjectRemoved?)
  {
    match e
    case ObjectAdded(o) => Some(OnObjectAdded(o))
    case ObjectUpdated(o) => Some(OnObjectUpdated(o))
    case ObjectRemoved(o) => Some(OnObjectRemoved(o))
    case OtherObjectEvent => None
  }

  /** The registry after one player event per tick for `|evs|` ticks. */
  function Replay(r: Registry, evs: seq<PlayerEvent>): Registry
    decreases |evs|
  {
    if evs == [] then r else Replay(ApplyPlayerEvent(r, evs[0]), evs[1..])
  }

  function AddedIds(evs: seq<PlayerEvent>): set<int> {
    set k | 0 <= k < |evs| && evs[k].PlayerAdded? :: evs[k].entity.id
  }

  // ---------------------------------------------------------------------
  // The session, step by step

  /** The guard of Connect(). */
  predicate MayConnect(s: Session) {
    !s.client.isConnecting && !s.client.isConnected && s.canConnect
  }

  /** The guard of Authenticate(). */
  predicate MayAuthenticate(s: Session) {
    !s.auth.authenticating && s.canAuthenticate
  }

  /** ResetState: reset authentication and empty both registries. */
  function ResetNext(s: Session): (s': Session)
    ensures !s'.auth.authenticated && !s'.auth.authenticating && s'.auth.requests == s.auth.requests
    ensures s'.registry == Reset(s.registry) && s'.registry.players == []
    ensures s'.objectCalls == s.objectCalls + [ResetObjects]
    ensures s'.client == s.client
    ensures s'.canConnect == s.canConnect && s'.connectAttempt == s.connectAttempt
    ensures s'.canAuthenticate == s.canAuthenticate && s'.authAttempt == s.authAttempt
    ensures Consistent(s) ==> Consistent(s')
  {
    s.(auth := s.auth.(authenticated := false, authenticating := false),
       registry := Reset(s.registry),
       objectCalls := s.objectCalls + [ResetObjects])
  }

  /** Connect(), with the part of ConnectToServer that runs before its first
      wait: take the guard, reset, dial. */
  function ConnectNext(s: Session): (s': Session)
    ensures !MayConnect(s) ==> s' == s
    ensures MayConnect(s) ==>
      && !s'.canConnect && s'.connectAttempt
      && !s'.auth.authenticated && !s'.auth.authenticating && s'.auth.requests == s.auth.requests
      && s'.registry == Reset(s.registry) && s'.objectCalls == s.objectCalls + [ResetObjects]
      && s'.client == s.client.(dialled := s.client.dialled + 1)
      && s'.canAuthenticate == s.canAuthenticate && s'.authAttempt == s.authAttempt
    ensures Consistent(s) ==> Consistent(s')
  {
    if !MayConnect(s) then s
    else
      var s1 := s.(canConnect := false, connectAttempt := true);
      var s2 := ResetNext(s1);
      s2.(client := s2.client.(dialled := s2.client.dialled + 1))
  }

  /** The end of a ConnectToServer coroutine, on any exit path: the finally
      block gives the guard back. */
  function ConnectEndNext(s: Session): (s': Session)
    requires s.connectAttempt
    ensures s'.canConnect && !s'.connectAttempt
    ensures s'.client == s.client && s'.auth == s.auth && s'.registry == s.registry && s'.objectCalls == s.objectCalls
    ensures s'.canAuthenticate == s.canAuthenticate && s'.authAttempt == s.authAttempt
  {
    s.(canConnect := true, connectAttempt := false)
  }

  /** Authenticate(), with the part of AuthenticateWithServer that runs
      before its first wait: take the guard and send the request. */
  function AuthenticateNext(s: Session): (s': Session)
    ensures !MayAuthenticate(s) ==> s' == s
    ensures MayAuthenticate(s) ==>
      && !s'.canAuthenticate && s'.authAttempt
      && s'.auth == s.auth.(requests := s.auth.requests + 1)
      && s'.client == s.client && s'.registry == s.registry && s'.objectCalls == s.objectCalls
      && s'.canConnect == s.canConnect && s'.connectAttempt == s.connectAttempt
    ensures Consistent(s) ==> Consistent(s')
  {
    if !MayAuthenticate(s) then s
    else s.(canAuthenticate := false, authAttempt := true, auth := s.auth.(requests := s.auth.requests + 1))
  }

  /** The end of an AuthenticateWithServer coroutine, on any exit path. */
  function AuthenticateEndNext(s: Session): (s': Session)
    requires s.authAttempt
    ensures s'.canAuthenticate && !s'.authAttempt
    ensures s'.client == s.client && s'.auth == s.auth && s'.registry == s.registry && s'.objectCalls == s.objectCalls
    ensures s'.canConnect == s.canConnect && s'.connectAttempt == s.connectAttempt
  {
    s.(canAuthenticate := true, authAttempt := false)
  }

  /** HandlePlayerUpdates: poll one player event and route it. */
  function PlayerUpdatesNext(s: Session): (s': Session)
    ensures s.client.playerEvents == [] ==> s' == s
    ensures s.client.playerEvents != [] ==>
      s'.registry == ApplyPlayerEvent(s.registry, s.client.playerEvents[0])
    ensures s'.client == s.client.(playerEvents := Dequeued(s.client.playerEvents))
    ensures s'.auth == s.auth && s'.objectCalls == s.objectCalls
    ensures s'.canConnect == s.canConnect && s'.canAuthenticate == s.canAuthenticate
    ensures s'.connectAttempt == s.connectAttempt && s'.authAttempt == s.authAttempt
    ensures Consistent(s) ==> Consistent(s')
  {
    if s.client.playerEvents == [] then s
    else s.(client := s.client.(playerEvents := s.client.playerEvents[1..]),
            registry := ApplyPlayerEvent(s.registry, s.client.playerEvents[0]))
  }

  /** HandleObjectUpdates: poll one object event and route it. */
  function ObjectUpdatesNext(s: Session): (s': Session)
    ensures s.client.objectEvents == [] ==> s' == s
    ensures s.client.objectEvents != [] ==>
      |s'.objectCalls| == |s.objectCalls| + (if s.client.objectEvents[0].OtherObjectEvent? then 0 else 1)
    ensures s'.objectCalls[..|s.objectCalls|] == s.objectCalls
    ensures s.client.objectEvents != [] ==>
      s'.objectCalls == s.objectCalls + (match ObjectCallFor(s.client.objectEvents[0])
                                          case None => []
                                          case Some(c) => [c])
    ensures s'.client == s.client.(objectEvents := Dequeued(s.client.objectEvents))
    ensures s'.auth == s.auth && s'.registry == s.registry
    ensures s'.canConnect == s.canConnect && s'.canAuthenticate == s.canAuthenticate
    ensures s'.connectAttempt == s.connectAttempt && s'.authAttempt == s.authAttempt
    ensures Consistent(s) ==> Consistent(s')
  {
    if s.client.objectEvents == [] then s
    else
      var calls := match ObjectCallFor(s.client.objectEvents[0])
        case None => s.objectCalls
        case Some(c) => s.objectCalls + [c];
      s.(client := s.client.(objectEvents := s.client.objectEvents[1..]), objectCalls := calls)
  }

  /** Update: one frame of the driver. */
  function UpdateNext(s: Session): (s': Session)
    // Not connected: only a connect is tried; nothing is polled, no authentication is asked for.
    ensures !s.client.isConnected ==>
      && s'.client.playerEvents == s.client.playerEvents && s'.client.objectEvents == s.client.objectEvents
      && s'.auth.requests == s.auth.requests && s'.authAttempt == s.authAttempt
      && s'.client.dialled <= s.client.dialled + 1
    ensures !s.client.isConnected ==> s' == ConnectNext(s)
    // Connected, not authenticated: only an authentication is tried; nothing is polled.
    ensures s.client.isConnected && !s.auth.authenticated ==>
      && s'.client == s.client && s'.registry == s.registry && s'.objectCalls == s.objectCalls
      && s'.connectAttempt == s.connectAttempt
      && s'.auth.requests <= s.auth.requests + 1
    ensures s.client.isConnected && !s.auth.authenticated ==> s' == AuthenticateNext(s)
    // Synchronised: at most one event of each kind is consumed; no attempt is started.
    ensures s.client.isConnected && s.auth.authenticated ==>
      && s'.client == s.client.(playerEvents := Dequeued(s.client.playerEvents),
                                objectEvents := Dequeued(s.client.objectEvents))
      && s'.auth == s.auth
      && s'.canConnect == s.canConnect && s'.canAuthenticate == s.canAuthenticate
      && s'.connectAttempt == s.connectAttempt && s'.authAttempt == s.authAttempt
      && s'.registry == (if s.client.playerEvents == [] then s.registry
                         else ApplyPlayerEvent(s.registry, s.client.playerEvents[0]))
      && s'.objectCalls == (if s.client.objectEvents == [] then s.objectCalls
                            else match ObjectCallFor(s.client.objectEvents[0])
                                 case None => s.objectCalls
                                 case Some(c) => s.objectCalls + [c])
    ensures Consistent(s) ==> Consistent(s')
  {
    if !s.client.isConnected then ConnectNext(s)
    else if !s.auth.authenticated then AuthenticateNext(s)
    else ObjectUpdatesNext(PlayerUpdatesNext(s))
  }

  // ---------------------------------------------------------------------
  // Outbound commands

  /** The message MoveTo sends, if any, for the local player at `from`. */
  function MoveRequest(from: Vector3, destination: Vector3): (m: Option<Outbound>)
    ensures m.None? <==> from == destination
    ensures m.Some? ==> m.value.option == Reliable
    ensures m.Some? ==> m.value.message.PlayerMoveRequest? && m.value.message.position == from && m.value.message.destination == destination
  {
    if from == destination then None
    else Some(Outbound(PlayerMoveRequest(from, destination), Reliable))
  }

  // ---------------------------------------------------------------------
  // Properties over several ticks

  /** A second connect trigger while an attempt is in flight does nothing:
      there is never more than one attempt. */
  lemma ConnectTwice(s: Session)
    ensures ConnectNext(ConnectNext(s)) == ConnectNext(s)
  {
  }

  /** A disconnected client whose connect guard is taken makes no progress:
      every tick leaves it as it is. This is the state ConnectToServer leaves
      behind if its reset throws before the `try` that would give the guard
      back. */
  lemma StrandedGuardBlocksConnect(s: Session)
    requires !s.client.isConnected && !s.canConnect
    ensures UpdateNext(s) == s
  {
  }

  /** Same for authentication. */
  lemma AuthenticateTwice(s: Session)
    ensures AuthenticateNext(AuthenticateNext(s)) == AuthenticateNext(s)
  {
  }

  /** Without Added events every handler call is a no-op on an empty
      registry: nothing is moved, updated or destroyed, and `Me` is kept. */
  lemma {:induction false} ReplayEmptyWithoutAdds(r: Registry, evs: seq<PlayerEvent>)
    requires r.players == []
    requires forall k :: 0 <= k < |evs| ==> !evs[k].PlayerAdded?
    ensures Replay(r, evs) == r
    decreases |evs|
  {
    if evs != [] {
      var r1 := ApplyPlayerEvent(r, evs[0]);
      ReplayEmptyWithoutAdds(r1, evs[1..]);
    }
  }

  /** After a reset, no event changes the registry until a player is added
      again: the reset state is kept as it is. */
  lemma ResetThenNoAdds(r: Registry, evs: seq<PlayerEvent>)
    requires forall k :: 0 <= k < |evs| ==> !evs[k].PlayerAdded?
    ensures Replay(Reset(r), evs) == Reset(r)
  {
    ReplayEmptyWithoutAdds(Reset(r), evs);
  }

  /** The registry never invents a player: every id in it was there at the
      start or came with an Added event. */
  lemma {:induction false} ReplayIds(r: Registry, evs: seq<PlayerEvent>)
    ensures IdsOf(Replay(r, evs).players) <= IdsOf(r.players) + AddedIds(evs)
    decreases |evs|
  {
    if evs != [] {
      var r1 := ApplyPlayerEvent(r, evs[0]);
      ReplayIds(r1, evs[1..]);
      assert AddedIds(evs[1..]) <= AddedIds(evs) by {
        forall x | x in AddedIds(evs[1..]) ensures x in AddedIds(evs) {
          var k :| 0 <= k < |evs[1..]| && evs[1..][k].PlayerAdded? && evs[1..][k].entity.id == x;
          assert evs[k + 1] == evs[1..][k];
        }
      }
      if evs[0].PlayerAdded? {
        assert evs[0].entity.id in AddedIds(evs);
        AddedIds1(r, evs[0].entity);
      }
    }
  }

  /** Helper: the ids after an add are the old ones plus the added one. */
  lemma AddedIds1(r: Registry, p: Player)
    ensures IdsOf(Added(r, p).players) == IdsOf(r.players) + {p.id}
  {
  }

  // ---------------------------------------------------------------------
  // The imperative client

  class NetworkClient {
    const playerManager: PlayerManager
    var client: GameClient
    var auth: Authentication
    var canConnect: bool
    var canAuthenticate: bool
    var connectAttempt: bool
    var authAttempt: bool
    var objectCalls: seq<ObjectManagerCall>

    function Snapshot(): Session
      reads this, playerManager
    {
      Session(client, auth, canConnect, canAuthenticate, connectAttempt, authAttempt,
              playerManager.State(), objectCalls)
    }

    ghost predicate Valid()
      reads this, playerManager
    {
      playerManager.Valid() && Consistent(Snapshot())
    }

    constructor (manager: PlayerManager)
      requires manager.Valid()
      ensures Valid() && playerManager == manager
      ensures Snapshot() == Session(GameClient(false, false, 0, [], [], []), Authentication(false, false, 0),
                                    true, true, false, false, manager.State(), [])
    {
      playerManager := manager;
      client := GameClient(false, false, 0, [], [], []);
      auth := Authentication(false, false, 0);
      canConnect, canAuthenticate := true, true;
      connectAttempt, authAttempt := false, false;
      objectCalls := [];
    }

    method Start()
      requires Valid()
      modifies this, playerManager
      ensures Valid()
      ensures Snapshot() == ConnectNext(old(Snapshot()))
    {
      Connect();
    }

    method Update()
      requires Valid()
      modifies this, playerManager
      ensures Valid()
      ensures Snapshot() == UpdateNext(old(Snapshot()))
    {
      if !client.isConnected {
        Connect();
        return;
      }
      if !auth.authenticated {
        Authenticate();
        return;
      }
      HandlePlayerUpdates();
      HandleObjectUpdates();
    }

    /** PollEvent on the player handler: the oldest pending event, if any. */
    method PollPlayerEvent() returns (e: Option<PlayerEvent>)
      modifies this
      ensures e.None? <==> old(client.playerEvents) == []
      ensures e.Some? ==> e.value == old(client.playerEvents)[0]
      ensures client == old(client).(playerEvents := Dequeued(old(client.playerEvents)))
      ensures auth == old(auth) && objectCalls == old(objectCalls)
      ensures canConnect == old(canConnect) && canAuthenticate == old(canAuthenticate)
      ensures connectAttempt == old(connectAttempt) && authAttempt == old(authAttempt)
    {
      if client.playerEvents == [] {
        return None;
      }
      e := Some(client.playerEvents[0]);
      client := client.(playerEvents := client.playerEvents[1..]);
    }

    /** PollEvent on the object handler. */
    method PollObjectEvent() returns (e: Option<ObjectEvent>)
      modifies this
      ensures e.None? <==> old(client.objectEvents) == []
      ensures e.Some? ==> e.value == old(client.objectEvents)[0]
      ensures client == old(client).(objectEvents := Dequeued(old(client.objectEvents)))
      ensures auth == old(auth) && objectCalls == old(objectCalls)
      ensures canConnect == old(canConnect) && canAuthenticate == old(canAuthenticate)
      ensures connectAttempt == old(connectAttempt) && authAttempt == old(authAttempt)
    {
      if client.objectEvents == [] {
        return None;
      }
      e := Some(client.objectEvents[0]);
      client := client.(objectEvents := client.objectEvents[1..]);
    }

    method HandlePlayerUpdates()
      requires Valid()
      modifies this, playerManager
      ensures Valid()
      ensures Snapshot() == PlayerUpdatesNext(old(Snapshot()))
    {
      var stateChange := PollPlayerEvent();
      if stateChange.None? {
        return;
      }
      RoutePlayerEvent(stateChange.value);
    }

    /** The switch of HandlePlayerUpdates: call the handler matching the variant. */
    method RoutePlayerEvent(stateChange: PlayerEvent)
      requires playerManager.Valid()
      modifies playerManager
      ensures playerManager.Valid()
      ensures playerManager.State() == ApplyPlayerEvent(old(playerManager.State()), stateChange)
    {
      match stateChange
      case PlayerAdded(p) =>
        playerManager.OnPlayerAdded(p);
      case PlayerRemoved(p) =>
        playerManager.OnPlayerRemoved(p);
      case PlayerMoved(p) =>
        playerManager.OnPlayerMove(p);
      case PlayerObjectAction(p, objectId, actionType, parameterId, status) =>
        playerManager.OnPlayerAction(p, objectId, actionType, parameterId, status);
      case PlayerAnimationStateUpdated(p, state, enabled, trigger, action) =>
        playerManager.OnPlayerAnimationStateChanged(p, state, enabled, trigger, action);
      case PlayerEquipmentStateUpdated(p, itemId, equipped) =>
        playerManager.OnPlayerEquipmentStateChanged(p, itemId, equipped);
      case PlayerStatUpdated(p, skill, level, effectiveLevel, experience) =>
        playerManager.OnPlayerStatUpdated(p, skill, level, effectiveLevel, experience);
      case PlayerStatsUpdated(p, experience, effectiveLevels) =>
        playerManager.OnPlayerStatsUpdated(p, experience, effectiveLevels);
      case PlayerLeveledUp(p, skill, gainedLevels) =>
        playerManager.OnPlayerLevelUp(p, skill, gainedLevels);
      case OtherPlayerEvent =>
    }

    method HandleObjectUpdates()
      requires Valid()
      modifies this
      ensures Valid()
      ensures Snapshot() == ObjectUpdatesNext(old(Snapshot()))
    {
      var stateChange := PollObjectEvent();
      if stateChange.None? {
        return;
      }
      match stateChange.value
      case ObjectAdded(o) =>
        objectCalls := objectCalls + [OnObjectAdded(o)];
      case ObjectUpdated(o) =>
        objectCalls := objectCalls + [OnObjectUpdated(o)];
      case ObjectRemoved(o) =>
        objectCalls := objectCalls + [OnObjectRemoved(o)];
      case OtherObjectEvent =>
    }

    method Connect()
      requires Valid()
      modifies this, playerManager
      ensures Valid()
      ensures Snapshot() == ConnectNext(old(Snapshot()))
    {
      if client.isConnecting || client.isConnected || !canConnect {
        return;
      }
      // ConnectToServer, up to its first wait
      canConnect := false;
      connectAttempt := true;
      ResetState();
      client := client.(dialled := client.dialled + 1);
    }

    /** ConnectToServer resumes once the transport stops connecting; whether it
        connected or not, its finally block releases the guard. */
    method FinishConnect() returns (connected: bool)
      requires Valid() && connectAttempt && !client.isConnecting
      modifies this
      ensures Valid()
      ensures connected == old(client.isConnected)
      ensures Snapshot() == ConnectEndNext(old(Snapshot()))
    {
      connected := client.isConnected;
      canConnect := true;
      connectAttempt := false;
    }

    /** ConnectToServer leaves through an exception: the finally block still
        releases the guard. */
    method ConnectFaulted()
      requires Valid() && connectAttempt
      modifies this
      ensures Valid()
      ensures Snapshot() == ConnectEndNext(old(Snapshot()))
    {
      canConnect := true;
      connectAttempt := false;
    }

    method Authenticate()
      requires Valid()
      modifies this
      ensures Valid()
      ensures Snapshot() == AuthenticateNext(old(Snapshot()))
    {
      if auth.authenticating || !canAuthenticate {
        return;
      }
      // AuthenticateWithServer, up to its first wait
      canAuthenticate := false;
      authAttempt := true;
      auth := auth.(requests := auth.requests + 1);
    }

    /** AuthenticateWithServer resumes once the module stops authenticating. */
    method FinishAuthenticate() returns (authenticated: bool)
      requires Valid() && authAttempt && !auth.authenticating
      modifies this
      ensures Valid()
      ensures authenticated == old(auth.authenticated)
      ensures Snapshot() == AuthenticateEndNext(old(Snapshot()))
    {
      authenticated := auth.authenticated;
      canAuthenticate := true;
      authAttempt := false;
    }

    /** AuthenticateWithServer leaves through an exception. */
    method AuthenticateFaulted()
      requires Valid() && authAttempt
      modifies this
      ensures Valid()
      ensures Snapshot() == AuthenticateEndNext(old(Snapshot()))
    {
      canAuthenticate := true;
      authAttempt := false;
    }

    method ResetState()
      requires Valid()
      modifies this, playerManager
      ensures Valid()
      ensures Snapshot() == ResetNext(old(Snapshot()))
    {
      auth := auth.(authenticated := false, authenticating := false);
      playerManager.ResetState();
      objectCalls := objectCalls + [ResetObjects];
    }

    /** Send a move request from where the local player stands; nothing when it
        already stands at the destination. The source reads `Me` unguarded, so
        the local player must be set and alive. */
    method MoveTo(destination: Vector3)
      requires Valid() && MePosition(playerManager.State()).Some?
      modifies this
      ensures Valid()
      ensures var m := MoveRequest(MePosition(playerManager.State()).value, destination);
        client == old(client).(sent := old(client.sent) + (if m.Some? then [m.value] else []))
      ensures Snapshot() == old(Snapshot()).(client := client)
    {
      var from := MePosition(playerManager.State()).value;
      if from == destination {
        return;
      }
      client := client.(sent := client.sent + [Outbound(PlayerMoveRequest(from, destination), Reliable)]);
    }

    method SendPosition(position: Vector3)
      requires Valid()
      modifies this
      ensures Valid()
      ensures client == old(client).(sent := old(client.sent) + [Outbound(PlayerPositionUpdate(position), BestEffort)])
      ensures Snapshot() == old(Snapshot()).(client := client)
    {
      client := client.(sent := client.sent + [Outbound(PlayerPositionUpdate(position), BestEffort)]);
    }

    method SendObjectAction(objectServerId: int, actionId: int, actionParameterId: int)
      requires Valid()
      modifies this
      ensures Valid()
      ensures client == old(client).(sent := old(client.sent) +
        [Outbound(PlayerObjectActionRequest(objectServerId, actionId, actionParameterId), BestEffort)])
      ensures Snapshot() == old(Snapshot()).(client := client)
    {
      client := client.(sent := client.sent +
        [Outbound(PlayerObjectActionRequest(objectServerId, actionId, actionParameterId), BestEffort)]);
    }
    // The foreign side: the transport, the authentication module and the
    // server's events change the status this client reads.

    method TransportReports(connecting: bool, connected: bool)
      requires Valid()
      modifies this
      ensures Valid()
      ensures Snapshot() == old(Snapshot()).(client := old(client).(isConnecting := connecting, isConnected := connected))
    {
      client := client.(isConnecting := connecting, isConnected := connected);
    }

    method AuthenticationReports(authenticating: bool, authenticated: bool)
      requires Valid()
      modifies this
      ensures Valid()
      ensures Snapshot() == old(Snapshot()).(auth := old(auth).(authenticating := authenticating, authenticated := authenticated))
    {
      auth := auth.(authenticating := authenticating, authenticated := authenticated);
    }

    method PlayerEventArrives(e: PlayerEvent)
      requires Valid()
      modifies this
      ensures Valid()
      ensures Snapshot() == old(Snapshot()).(client := old(client).(playerEvents := old(client.playerEvents) + [e]))
    {
      client := client.(playerEvents := client.playerEvents + [e]);
    }

    method ObjectEventArrives(e: ObjectEvent)
      requires Valid()
      modifies this
      ensures Valid()
      ensures Snapshot() == old(Snapshot()).(client := old(client).(objectEvents := old(client.objectEvents) + [e]))
    {
      client := client.(objectEvents := client.objectEvents + [e]);
    }
  }

  /** A client of the specifications: start disconnected, connect (resetting
      the registries once), then authenticate; retries are held off while an
      attempt runs. */
  method LifecycleScenario() returns (network: NetworkClient)
    ensures network.Valid() && network.client.isConnected && network.auth.authenticated
    ensures network.client.dialled == 1 && network.auth.requests == 1 && network.objectCalls == [ResetObjects]
  {
    var manager := new PlayerManager();
    network := new NetworkClient(manager);
    network.Update();
    assert network.connectAttempt && network.client.dialled == 1 && network.objectCalls == [ResetObjects];
    network.TransportReports(true, false);
    network.Update();
    assert network.client.dialled == 1;
    network.TransportReports(false, true);
    var connected := network.FinishConnect();
    assert connected && network.canConnect;
    network.Update();
    assert network.auth.requests == 1 && network.authAttempt;
    network.Update();
    assert network.auth.requests == 1;
    network.AuthenticationReports(false, true);
    var authenticated := network.FinishAuthenticate();
    assert authenticated && network.canAuthenticate && network.client.dialled == 1;
  }

  /** Once synchronised, a tick drains events instead of retrying. */
  method SynchronisedScenario(network: NetworkClient)
    requires network.Valid() && network.client.isConnected && network.auth.authenticated
    requires network.client.playerEvents == [] && network.playerManager.players == []
    modifies network, network.playerManager
  {
    var origin := Vector3(0.0, 0.0, 0.0);
    var dialled, requests := network.client.dialled, network.auth.requests;
    network.PlayerEventArrives(PlayerAdded(Player(1, "p", true, origin, origin)));
    network.Update();
    assert |network.playerManager.players| == 1 && network.client.playerEvents == [];
    assert network.client.dialled == dialled && network.auth.requests == requests;
  }
}
