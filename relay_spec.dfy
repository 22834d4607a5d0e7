/**
 * The socket controller as a value: what one participant can observe of it
 * (pause flag, viewed scene, the socket's handler table, the send log and the
 * layer's call log), and the effect of each operation on that value. The
 * controller class is proved against `Step`; the properties of the relay are
 * proved about `Step` and `Run`.
 */
module RelaySpec {
  import opened CombatNumberEvents

  /** The one channel the controller uses. */
  const SocketName: string := "module.combat-numbers"

  datatype Relay = Relay(
    paused: bool,
    viewedScene: SceneRef,
    listeners: set<string>,
    sent: seq<Send>,
    rendered: seq<LayerCall>)

  /** What can happen to one participant: the controller's own operations, an
      event arriving on a channel, and the two external changes it reads. */
  datatype Op =
    | Init
    | Deactivate
    | Emit(payload: Payload)
    | Receive(channel: string, data: Payload)
    | SetPauseBroadcast(pause: bool)
    | ViewScene(scene: SceneRef)

  /** The layer calls the handler makes for one received event: none when the
      event comes from a scene other than the viewed one, and otherwise exactly
      the event's number and position. */
  function HandlerCalls(viewedScene: SceneRef, data: Payload): (calls: seq<LayerCall>)
    ensures |calls| <= 1
    ensures calls != [] <==> viewedScene == data.sceneId
    ensures forall c :: c in calls ==> c == AddCombatNumber(data.number, data.x, data.y)
  {
    if !StrictEquals(viewedScene, data.sceneId) then []
    else [AddCombatNumber(data.number, data.x, data.y)]
  }

  /** The effect of one operation. Each operation touches only its own part of
      the relay: only an emit sends, only a received event renders, only init
      and deactivate change handlers and then only on the controller's
      channel, and the pause flag and the viewed scene change only from
      outside. */
  function Step(r: Relay, op: Op): (s: Relay)
    ensures !op.Emit? ==> s.sent == r.sent
    ensures !op.Receive? ==> s.rendered == r.rendered
    ensures !op.SetPauseBroadcast? ==> s.paused == r.paused
    ensures !op.ViewScene? ==> s.viewedScene == r.viewedScene
    ensures s.listeners - {SocketName} == r.listeners - {SocketName}
    ensures !op.Init? && !op.Deactivate? ==> s.listeners == r.listeners
    ensures op.Init? ==> SocketName in s.listeners
    ensures op.Deactivate? ==> SocketName !in s.listeners
  {
    match op
    case Init => r.(listeners := r.listeners + {SocketName})
    case Deactivate => r.(listeners := r.listeners - {SocketName})
    case Emit(p) =>
      if r.paused then r else r.(sent := r.sent + [Send(SocketName, p)])
    case Receive(channel, data) =>
      if channel == SocketName && SocketName in r.listeners
      then r.(rendered := r.rendered + HandlerCalls(r.viewedScene, data))
      else r
    case SetPauseBroadcast(b) => r.(paused := b)
    case ViewScene(s) => r.(viewedScene := s)
  }

  /** The relay after the operations `ops`, in order. Both logs only grow. */
  function Run(r: Relay, ops: seq<Op>): (s: Relay)
    ensures r.sent <= s.sent && r.rendered <= s.rendered
    decreases |ops|
  {
    if ops == [] then r else Run(Step(r, ops[0]), ops[1..])
  }
}
