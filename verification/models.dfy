/** Value types shared by the client's managers: the network models the server
    sends (players, scene objects, positions) and the events the transport's
    player and object handlers hand out. */
module Models {

  datatype Option<T> = None | Some(value: T)

  newtype byte = x: int | 0 <= x < 256

  /** A world position. Unity compares vectors within a tolerance; this model
      compares them exactly. */
  datatype Vector3 = Vector3(x: real, y: real, z: real)

  /** A player as the server describes it in an event. */
  datatype Player = Player(id: int, name: string, isMe: bool, position: Vector3, destination: Vector3)

  /** A scene object as the server describes it; only its identity is used here. */
  datatype SceneObject = SceneObject(id: int)

  /** What the player handler's poll can return (besides nothing). The last
      variant stands for any event type the client's switch has no case for. */
  datatype PlayerEvent =
    | PlayerAdded(entity: Player)
    | PlayerRemoved(entity: Player)
    | PlayerMoved(entity: Player)
    | PlayerObjectAction(entity: Player, objectId: int, actionType: int, parameterId: int, status: byte)
    | PlayerAnimationStateUpdated(entity: Player, animationState: string, enabled: bool, trigger: bool, action: int)
    | PlayerEquipmentStateUpdated(entity: Player, itemId: int, equipped: bool)
    | PlayerStatUpdated(entity: Player, skill: int, level: int, effectiveLevel: int, experience: real)
    | PlayerStatsUpdated(entity: Player, allExperience: seq<real>, allEffectiveLevels: seq<int>)
    | PlayerLeveledUp(entity: Player, skill: int, gainedLevels: int)
    | OtherPlayerEvent

  /** What the object handler's poll can return (besides nothing). */
  datatype ObjectEvent =
    | ObjectAdded(obj: SceneObject)
    | ObjectUpdated(obj: SceneObject)
    | ObjectRemoved(obj: SceneObject)
    | OtherObjectEvent
}
