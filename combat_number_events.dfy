/**
 * The values that travel through the combat-numbers socket: scene references,
 * the payload of one combat number, a send recorded by the socket and a call
 * recorded by the combat number layer.
 */
module CombatNumberEvents {

  /** A scene reference as JavaScript holds it: a scene id, or one of the two
      "no value" values, which strict equality keeps apart. */
  datatype SceneRef = SceneId(id: string) | Null | Undefined

  /** JavaScript strict equality (`===`) on scene references, case by case:
      two ids are equal when their strings are, `null` equals only `null` and
      `undefined` only `undefined`. It coincides with identity of scene
      references: there is no partial or loose matching. */
  predicate StrictEquals(a: SceneRef, b: SceneRef): (eq: bool)
    ensures eq <==> a == b
  {
    match (a, b)
    case (SceneId(s), SceneId(t)) => s == t
    case (Null, Null) => true
    case (Undefined, Undefined) => true
    case _ => false
  }

  /** The object `{number, x, y, sceneId}` sent on the channel. */
  datatype Payload = Payload(number: int, x: int, y: int, sceneId: SceneRef)

  /** One `socket.emit(channel, payload)` call. */
  datatype Send = Send(channel: string, payload: Payload)

  /** One `layer.addCombatNumber(number, x, y)` call. */
  datatype LayerCall = AddCombatNumber(number: int, x: int, y: int)
}
