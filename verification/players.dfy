/** The client's local mirror of live players (PlayerManager): an ordered list
    of NetworkPlayer objects looked up by server id, plus the `Me` reference.

    The registry is first specified on values (Registry and the functions
    Added, Removed, Moved, Updated, Reset), then implemented by the class
    PlayerManager, whose methods are proved to follow those functions. */
module Players {
  import opened Models

  /** Identity of one instantiated NetworkPlayer game object. Two entries with
      the same server id are still two objects; handles tell them apart. */
  type Handle = nat

  /** What the entry's navigation agent is doing. */
  datatype Navigation = Idle | MovingTo(target: Vector3)

  /** An update the manager forwards to a NetworkPlayer. What the player does
      with it is not part of this model, so the entry just records it. */
  datatype AttributeUpdate =
    | AnimationState(state: string, enabled: bool, trigger: bool, action: int)
    | Stats(allExperience: seq<real>, allEffectiveLevels: seq<int>)
    | Stat(skill: int, level: int, effectiveLevel: int, experience: real)
    | LevelUp(skill: int, gainedLevels: int)
    | EquipmentState(itemId: int, equipped: bool)

  /** One NetworkPlayer object in the list. */
  datatype Entry = Entry(
    handle: Handle,
    id: int,
    isMe: bool,
    name: string,
    position: Vector3,
    navigation: Navigation,
    applied: seq<AttributeUpdate>)

  /** The whole state of a PlayerManager: the list, the handle `Me` refers to,
      the objects destroyed so far (in order) and the next fresh handle. */
  datatype Registry = Registry(players: seq<Entry>, me: Option<Handle>, destroyed: seq<Handle>, nextHandle: Handle)

  /** Object identities are sound: live objects are distinct, were allocated,
      and have not been destroyed. Duplicate server ids are allowed. */
  ghost predicate WellFormed(r: Registry) {
    && (forall i :: 0 <= i < |r.players| ==> r.players[i].handle < r.nextHandle && r.players[i].handle !in r.destroyed)
    && (forall i, j :: 0 <= i < j < |r.players| ==> r.players[i].handle != r.players[j].handle)
    && (forall k :: 0 <= k < |r.destroyed| ==> r.destroyed[k] < r.nextHandle)
    && (r.me.Some? ==> r.me.value < r.nextHandle)
  }

  /** Two lists hold the same objects with the same ids, in the same order;
      only their positions, navigation and attributes may differ. */
  ghost predicate SameIdentities(a: seq<Entry>, b: seq<Entry>) {
    |a| == |b| && forall j :: 0 <= j < |a| ==> a[j].handle == b[j].handle && a[j].id == b[j].id
  }

  /** The server ids present in a list. */
  function IdsOf(players: seq<Entry>): set<int> {
    set e | e in players :: e.id
  }

  lemma SameIdentitiesSameIds(a: seq<Entry>, b: seq<Entry>)
    requires SameIdentities(a, b)
    ensures IdsOf(a) == IdsOf(b)
  {
  }

  // ---------------------------------------------------------------------
  // Lookup

  /** The index of the first entry with server id `id` (FirstOrDefault). */
  function FirstIndex(players: seq<Entry>, id: int): (r: Option<nat>)
    ensures r.Some? ==> r.value < |players| && players[r.value].id == id
    ensures r.Some? ==> forall j :: 0 <= j < r.value ==> players[j].id != id
    ensures r.None? ==> forall j :: 0 <= j < |players| ==> players[j].id != id
  {
    if players == [] then None
    else if players[0].id == id then Some(0)
    else match FirstIndex(players[1..], id)
      case None => None
      case Some(k) => Some(k + 1)
  }

  /** The index of the object with handle `h`, if it is still in the list. */
  function IndexOfHandle(players: seq<Entry>, h: Handle): (r: Option<nat>)
    ensures r.Some? ==> r.value < |players| && players[r.value].handle == h
    ensures r.None? ==> forall j :: 0 <= j < |players| ==> players[j].handle != h
  {
    if players == [] then None
    else if players[0].handle == h then Some(0)
    else match IndexOfHandle(players[1..], h)
      case None => None
      case Some(k) => Some(k + 1)
  }

  /** Number of entries with server id `id`. */
  function Count(players: seq<Entry>, id: int): nat {
    if players == [] then 0
    else (if players[0].id == id then 1 else 0) + Count(players[1..], id)
  }

  /** Reference definition of "drop the first entry with this id". */
  function RemoveFirst(players: seq<Entry>, id: int): seq<Entry> {
    if players == [] then []
    else if players[0].id == id then players[1..]
    else [players[0]] + RemoveFirst(players[1..], id)
  }

  function HandlesOf(players: seq<Entry>): seq<Handle> {
    seq(|players|, k requires 0 <= k < |players| => players[k].handle)
  }

  // ---------------------------------------------------------------------
  // The registry operations, on values

  /** The object OnPlayerAdded instantiates for `p`. */
  function NewEntry(p: Player, h: Handle): Entry {
    Entry(h, p.id, p.isMe, p.name + (if p.isMe then " [ME]" else ""), p.position,
          if p.destination != p.position then MovingTo(p.destination) else Idle, [])
  }

  /** OnPlayerAdded: instantiate a fresh object for `p` and append it. */
  function Added(r: Registry, p: Player): (r': Registry)
    ensures |r'.players| == |r.players| + 1 && r'.players[..|r.players|] == r.players
    ensures var e := r'.players[|r.players|];
      && e.id == p.id && e.isMe == p.isMe && e.position == p.position && e.applied == []
      && e.name == p.name + (if p.isMe then " [ME]" else "")
      && (p.destination != p.position <==> e.navigation == MovingTo(p.destination))
      && (p.destination == p.position <==> e.navigation == Idle)
      && (p.isMe ==> r'.me == Some(e.handle))
      && (WellFormed(r) ==> forall j :: 0 <= j < |r.players| ==> r.players[j].handle != e.handle)
    ensures !p.isMe ==> r'.me == r.me
    ensures r'.destroyed == r.destroyed
    ensures WellFormed(r) ==> WellFormed(r')
  {
    var e := NewEntry(p, r.nextHandle);
    r.(players := r.players + [e],
       me := if p.isMe then Some(r.nextHandle) else r.me,
       nextHandle := r.nextHandle + 1)
  }

  /** OnPlayerRemoved: destroy and drop the first entry with `id`, if any. */
  function Removed(r: Registry, id: int): (r': Registry)
    ensures FirstIndex(r.players, id).None? ==> r' == r
    ensures FirstIndex(r.players, id).Some? ==>
      var i := FirstIndex(r.players, id).value;
      |r'.players| == |r.players| - 1 && r'.destroyed == r.destroyed + [r.players[i].handle]
    ensures r'.me == r.me && r'.nextHandle == r.nextHandle
    ensures WellFormed(r) ==> WellFormed(r')
  {
    match FirstIndex(r.players, id)
    case None => r
    case Some(i) =>
      r.(players := r.players[..i] + r.players[i + 1..], destroyed := r.destroyed + [r.players[i].handle])
  }

  /** OnPlayerMove: place the first entry with `p.id` at `p.position` and send
      it walking to `p.destination`. */
  function Moved(r: Registry, p: Player): (r': Registry)
    ensures FirstIndex(r.players, p.id).None? ==> r' == r
    ensures SameIdentities(r.players, r'.players)
    ensures FirstIndex(r.players, p.id).Some? ==>
      var i := FirstIndex(r.players, p.id).value;
      && r'.players[i].position == p.position
      && r'.players[i].navigation == MovingTo(p.destination)
      && r'.players[i].name == r.players[i].name && r'.players[i].isMe == r.players[i].isMe
      && r'.players[i].applied == r.players[i].applied
      && forall j :: 0 <= j < |r.players| && j != i ==> r'.players[j] == r.players[j]
    ensures r'.me == r.me && r'.destroyed == r.destroyed && r'.nextHandle == r.nextHandle
    ensures WellFormed(r) ==> WellFormed(r')
  {
    match FirstIndex(r.players, p.id)
    case None => r
    case Some(i) =>
      r.(players := r.players[i := r.players[i].(position := p.position, navigation := MovingTo(p.destination))])
  }

  /** The animation, stats, stat, level-up and equipment handlers: forward
      `u` to the first entry with `id`, if any. */
  function Updated(r: Registry, id: int, u: AttributeUpdate): (r': Registry)
    ensures FirstIndex(r.players, id).None? ==> r' == r
    ensures SameIdentities(r.players, r'.players)
    ensures FirstIndex(r.players, id).Some? ==>
      var i := FirstIndex(r.players, id).value;
      && r'.players[i].applied == r.players[i].applied + [u]
      && r'.players[i].name == r.players[i].name && r'.players[i].isMe == r.players[i].isMe
      && r'.players[i].position == r.players[i].position
      && r'.players[i].navigation == r.players[i].navigation
      && forall j :: 0 <= j < |r.players| && j != i ==> r'.players[j] == r.players[j]
    ensures r'.me == r.me && r'.destroyed == r.destroyed && r'.nextHandle == r.nextHandle
    ensures WellFormed(r) ==> WellFormed(r')
  {
    match FirstIndex(r.players, id)
    case None => r
    case Some(i) =>
      r.(players := r.players[i := r.players[i].(applied := r.players[i].applied + [u])])
  }

  /** ResetState: destroy every object in list order and empty the list.
      `Me` keeps referring to its (now destroyed) object. */
  function Reset(r: Registry): (r': Registry)
    ensures r'.players == [] && r'.me == r.me && r'.nextHandle == r.nextHandle
    ensures |r'.destroyed| == |r.destroyed| + |r.players| && r'.destroyed[..|r.destroyed|] == r.destroyed
    ensures forall j :: 0 <= j < |r.players| ==> r'.destroyed[|r.destroyed| + j] == r.players[j].handle
    ensures WellFormed(r) ==> WellFormed(r')
  {
    r.(players := [], destroyed := r.destroyed + HandlesOf(r.players))
  }

  /** The position of the object `Me` refers to, when that object is still
      alive; None when `Me` was never set or its object has been destroyed. */
  function MePosition(r: Registry): (pos: Option<Vector3>)
    ensures pos.Some? ==> r.me.Some? && exists j :: 0 <= j < |r.players| && r.players[j].handle == r.me.value && r.players[j].position == pos.value
    ensures pos.None? ==> r.me.None? || forall j :: 0 <= j < |r.players| ==> r.players[j].handle != r.me.value
  {
    match r.me
    case None => None
    case Some(h) =>
      match IndexOfHandle(r.players, h)
      case None => None
      case Some(i) => Some(r.players[i].position)
  }

  // ---------------------------------------------------------------------
  // Properties of the registry

  /** An id is found exactly when some entry carries it. */
  lemma {:induction false} CountFound(players: seq<Entry>, id: int)
    ensures Count(players, id) > 0 <==> FirstIndex(players, id).Some?
  {
    if players != [] {
      CountFound(players[1..], id);
    }
  }

  lemma {:induction false} CountAppend(players: seq<Entry>, e: Entry, x: int)
    ensures Count(players + [e], x) == Count(players, x) + (if e.id == x then 1 else 0)
  {
    if players != [] {
      assert (players + [e])[1..] == players[1..] + [e];
      CountAppend(players[1..], e, x);
    }
  }

  /** Adding never rejects a duplicate: the number of entries with the added
      id grows by one, whatever was there already; other ids keep their count. */
  lemma AddedCount(r: Registry, p: Player, x: int)
    ensures Count(Added(r, p).players, x) == Count(r.players, x) + (if p.id == x then 1 else 0)
  {
    CountAppend(r.players, NewEntry(p, r.nextHandle), x);
  }

  /** A lookup after an add finds the earlier entry when there is one: a
      duplicate add stays hidden behind the entry that was there first. */
  lemma AddedLookup(r: Registry, p: Player, id: int)
    ensures FirstIndex(Added(r, p).players, id) ==
      if FirstIndex(r.players, id).Some? then FirstIndex(r.players, id)
      else if p.id == id then Some(|r.players|)
      else None
  {
  }

  lemma {:induction false} RemoveFirstCount(players: seq<Entry>, id: int, x: int)
    ensures Count(RemoveFirst(players, id), x) == Count(players, x) - (if x == id && Count(players, id) > 0 then 1 else 0)
  {
    if players != [] && players[0].id != id {
      RemoveFirstCount(players[1..], id, x);
      assert ([players[0]] + RemoveFirst(players[1..], id))[1..] == RemoveFirst(players[1..], id);
    }
  }

  lemma {:induction false} SliceIsRemoveFirst(players: seq<Entry>, id: int)
    ensures FirstIndex(players, id).None? ==> RemoveFirst(players, id) == players
    ensures FirstIndex(players, id).Some? ==>
      var i := FirstIndex(players, id).value;
      RemoveFirst(players, id) == players[..i] + players[i + 1..]
  {
    if players != [] && players[0].id != id {
      var tail := players[1..];
      SliceIsRemoveFirst(tail, id);
      match FirstIndex(tail, id)
      case None =>
        assert players == [players[0]] + tail;
      case Some(k) =>
        assert players[..k + 1] == [players[0]] + tail[..k];
        assert players[k + 2..] == tail[k + 1..];
    }
  }

  /** OnPlayerRemoved drops exactly the first entry with the id and keeps the
      others in order; an absent id leaves the list alone. */
  lemma RemovedIsRemoveFirst(r: Registry, id: int)
    ensures Removed(r, id).players == RemoveFirst(r.players, id)
  {
    SliceIsRemoveFirst(r.players, id);
  }

  /** Removing never brings in an id. */
  lemma RemovedIds(r: Registry, id: int)
    ensures IdsOf(Removed(r, id).players) <= IdsOf(r.players)
  {
  }

  /** Removing takes one entry with the id away when there is one, and never
      changes how many entries other ids have. */
  lemma RemovedCount(r: Registry, id: int, x: int)
    ensures Count(Removed(r, id).players, x) == Count(r.players, x) - (if x == id && Count(r.players, id) > 0 then 1 else 0)
  {
    RemovedIsRemoveFirst(r, id);
    RemoveFirstCount(r.players, id, x);
  }

  /** Lookups depend only on identities: moves and attribute updates never
      change which entry an id resolves to. */
  lemma LookupIgnoresPayload(a: seq<Entry>, b: seq<Entry>, id: int)
    requires SameIdentities(a, b)
    ensures FirstIndex(a, id) == FirstIndex(b, id)
  {
  }

  /** Adding a player flagged as "me" makes `Me` the new, live object. */
  lemma MeAfterAdd(r: Registry, p: Player)
    requires WellFormed(r) && p.isMe
    ensures MePosition(Added(r, p)) == Some(p.position)
  {
  }

  /** A reset leaves `Me` set but pointing at a destroyed object. */
  lemma MeAfterReset(r: Registry)
    requires r.me.Some?
    ensures Reset(r).me == r.me && MePosition(Reset(r)) == None
  {
  }

  // ---------------------------------------------------------------------
  // The imperative manager

  class PlayerManager {
    var players: seq<Entry>
    var me: Option<Handle>
    var destroyed: seq<Handle>
    var nextHandle: Handle

    function State(): Registry
      reads this
    {
      Registry(players, me, destroyed, nextHandle)
    }

    ghost predicate Valid()
      reads this
    {
      WellFormed(State())
    }

    constructor ()
      ensures Valid() && State() == Registry([], None, [], 0)
    {
      players := [];
      me := None;
      destroyed := [];
      nextHandle := 0;
    }

    /** players.FirstOrDefault(x => x.Id == id), as an index. */
    method Find(id: int) returns (r: Option<nat>)
      ensures r == FirstIndex(players, id)
    {
      var i := 0;
      while i < |players|
        invariant 0 <= i <= |players|
        invariant forall j :: 0 <= j < i ==> players[j].id != id
      {
        if players[i].id == id {
          return Some(i);
        }
        i := i + 1;
      }
      return None;
    }

    method OnPlayerMove(player: Player)
      requires Valid()
      modifies this
      ensures Valid()
      ensures State() == Moved(old(State()), player)
    {
      var target := Find(player.id);
      if target.None? {
        return;
      }
      var i := target.value;
      players := players[i := players[i].(position := player.position, navigation := MovingTo(player.destination))];
    }

    method OnPlayerAdded(player: Player)
      requires Valid()
      modifies this
      ensures Valid()
      ensures State() == Added(old(State()), player)
    {
      var entry := Entry(nextHandle, player.id, player.isMe,
                         player.name + (if player.isMe then " [ME]" else ""), player.position, Idle, []);
      if player.isMe {
        me := Some(nextHandle);
      }
      if player.destination != player.position {
        entry := entry.(navigation := MovingTo(player.destination));
      }
      players := players + [entry];
      nextHandle := nextHandle + 1;
    }

    method OnPlayerRemoved(player: Player)
      requires Valid()
      modifies this
      ensures Valid()
      ensures State() == Removed(old(State()), player.id)
    {
      var target := Find(player.id);
      if target.None? {
        return;
      }
      var i := target.value;
      destroyed := destroyed + [players[i].handle];
      players := players[..i] + players[i + 1..];
    }

    /** Shared body of the attribute handlers: forward `u` to the first entry
        with `id`, or do nothing when there is none. */
    method ForwardToFirst(id: int, u: AttributeUpdate)
      requires Valid()
      modifies this
      ensures Valid()
      ensures State() == Updated(old(State()), id, u)
    {
      var target := Find(id);
      if target.None? {
        return;
      }
      var i := target.value;
      players := players[i := players[i].(applied := players[i].applied + [u])];
    }

    method OnPlayerAnimationStateChanged(entity: Player, animationState: string, enabled: bool, trigger: bool, action: int)
      requires Valid()
      modifies this
      ensures Valid()
      ensures State() == Updated(old(State()), entity.id, AnimationState(animationState, enabled, trigger, action))
    {
      ForwardToFirst(entity.id, AnimationState(animationState, enabled, trigger, action));
    }

    method OnPlayerStatsUpdated(entity: Player, experience: seq<real>, effectiveLevel: seq<int>)
      requires Valid()
      modifies this
      ensures Valid()
      ensures State() == Updated(old(State()), entity.id, Stats(experience, effectiveLevel))
    {
      ForwardToFirst(entity.id, Stats(experience, effectiveLevel));
    }

    method OnPlayerStatUpdated(entity: Player, skill: int, level: int, effectiveLevel: int, experience: real)
      requires Valid()
      modifies this
      ensures Valid()
      ensures State() == Updated(old(State()), entity.id, Stat(skill, level, effectiveLevel, experience))
    {
      ForwardToFirst(entity.id, Stat(skill, level, effectiveLevel, experience));
    }

    method OnPlayerLevelUp(entity: Player, skill: int, gainedLevels: int)
      requires Valid()
      modifies this
      ensures Valid()
      ensures State() == Updated(old(State()), entity.id, LevelUp(skill, gainedLevels))
    {
      ForwardToFirst(entity.id, LevelUp(skill, gainedLevels));
    }

    method OnPlayerEquipmentStateChanged(entity: Player, itemId: int, equipped: bool)
      requires Valid()
      modifies this
      ensures Valid()
      ensures State() == Updated(old(State()), entity.id, EquipmentState(itemId, equipped))
    {
      ForwardToFirst(entity.id, EquipmentState(itemId, equipped));
    }

    method ResetState()
      requires Valid()
      modifies this
      ensures Valid()
      ensures State() == Reset(old(State()))
    {
      var i := 0;
      while i < |players|
        invariant 0 <= i <= |players|
        invariant players == old(players) && me == old(me) && nextHandle == old(nextHandle)
        invariant destroyed == old(destroyed) + HandlesOf(players[..i])
      {
        assert HandlesOf(players[..i + 1]) == HandlesOf(players[..i]) + [players[i].handle];
        destroyed := destroyed + [players[i].handle];
        i := i + 1;
      }
      assert players[..i] == players;
      players := [];
    }

    /** The server's answer to an object action: the player is looked up and
        nothing else happens. No `modifies` clause: the registry cannot change. */
    method OnPlayerAction(player: Player, objectId: int, actionType: int, parameterId: int, status: byte)
      requires Valid()
      ensures State() == old(State())
    {
      var target := Find(player.id);
    }
  }

  /** A client of the specifications: add, move, remove, then update a stat
      of the removed player. */
  method RegistryScenario()
  {
    var manager := new PlayerManager();
    var origin := Vector3(0.0, 0.0, 0.0);
    var target := Vector3(5.0, 0.0, 0.0);
    var p := Player(1, "p", false, origin, origin);
    manager.OnPlayerAdded(p);
    assert |manager.players| == 1 && manager.players[0].position == origin && manager.players[0].navigation == Idle;
    manager.OnPlayerMove(p.(destination := target));
    assert manager.players[0].navigation == MovingTo(target);
    manager.OnPlayerRemoved(p);
    assert manager.players == [];
    var before := manager.State();
    manager.OnPlayerStatUpdated(p, 0, 1, 1, 0.0);
    assert manager.State() == before;
  }
}
