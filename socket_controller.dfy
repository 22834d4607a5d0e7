/**
 * The socket controller of the combat-numbers module: it sends combat numbers
 * on one named channel of the shared socket, unless broadcasting is paused,
 * and renders the combat numbers it receives on that channel when they come
 * from the scene the user is viewing.
 */
module SocketControl {
  import opened CombatNumberEvents
  import opened PauseState
  import opened Host
  import opened RelaySpec

  class SocketController {
    const socket: Socket
    const user: User
    const state: State
    const layer: CombatNumberLayer
    /** The name of the controller's channel. */
    const socketName: string := SocketName

    /** The controller's view of its collaborators, as a relay value. */
    ghost function Snapshot(): Relay
      reads socket, state, user, layer
    {
      Relay(state.isPauseBroadcast, user.viewedScene, socket.listeners, socket.sent, layer.calls)
    }

    constructor(socket: Socket, user: User, state: State, layer: CombatNumberLayer)
      ensures this.socket == socket && this.user == user && this.state == state && this.layer == layer
      ensures socketName == "module.combat-numbers"
    {
      this.socket := socket;
      this.user := user;
      this.state := state;
      this.layer := layer;
    }

    /** Starts listening on the controller's channel. */
    method Init()
      modifies socket
      ensures Snapshot() == Step(old(Snapshot()), Op.Init)
      ensures socket.listeners == old(socket.listeners) + {socketName}
      ensures socket.sent == old(socket.sent)
    {
      Listen();
    }

    /** Stops listening on the controller's channel. */
    method Deactivate()
      modifies socket
      ensures Snapshot() == Step(old(Snapshot()), Op.Deactivate)
      ensures socket.listeners == old(socket.listeners) - {socketName}
      ensures socket.sent == old(socket.sent)
    {
      RemoveListener();
    }

    /** Sends one combat number on the channel, unless broadcasting is paused. */
    method Emit(number: int, x: int, y: int, sceneId: SceneRef)
      modifies socket
      ensures Snapshot() == Step(old(Snapshot()), Op.Emit(Payload(number, x, y, sceneId)))
      ensures state.isPauseBroadcast ==> socket.sent == old(socket.sent)
      ensures !state.isPauseBroadcast ==>
                socket.sent == old(socket.sent) + [Send(socketName, Payload(number, x, y, sceneId))]
      ensures socket.listeners == old(socket.listeners)
    {
      var paused := state.GetIsPauseBroadcast();
      if paused {
        return;
      }
      socket.Emit(socketName, Payload(number, x, y, sceneId));
    }

    /** Registers `HandleCombatNumber` as the handler of the channel. */
    method Listen()
      modifies socket
      ensures socket.listeners == old(socket.listeners) + {socketName}
      ensures socket.sent == old(socket.sent)
    {
      socket.On(socketName);
    }

    /** The handler `Listen` registers: renders a received combat number when it
        comes from the scene the user is viewing, and ignores it otherwise. The
        pause flag plays no part. */
    method HandleCombatNumber(data: Payload)
      modifies layer
      ensures layer.calls == old(layer.calls) + HandlerCalls(user.viewedScene, data)
    {
      if !ShouldShowInScene(data.sceneId) {
        return;
      }
      layer.AddCombatNumber(data.number, data.x, data.y);
    }

    /** The socket delivering an event that arrived on `channel`: it reaches
        `HandleCombatNumber` only on the controller's channel and only while
        the handler is registered there. */
    method Receive(channel: string, data: Payload)
      modifies layer
      ensures Snapshot() == Step(old(Snapshot()), Op.Receive(channel, data))
      ensures layer.calls == old(layer.calls) +
                (if channel == socketName && socketName in socket.listeners
                 then HandlerCalls(user.viewedScene, data) else [])
    {
      if channel == socketName && channel in socket.listeners {
        HandleCombatNumber(data);
      }
    }

    /** Removes the handler registered under the channel's name. */
    method RemoveListener()
      modifies socket
      ensures socket.listeners == old(socket.listeners) - {socketName}
      ensures socket.sent == old(socket.sent)
    {
      socket.Off(socketName);
    }

    /** Whether the user is viewing the scene `sceneId`, by strict equality. */
    function ShouldShowInScene(sceneId: SceneRef): (show: bool)
      reads user
      ensures show <==> user.viewedScene == sceneId
    {
      StrictEquals(user.viewedScene, sceneId)
    }
  }

  /** A participant with fresh collaborators, listening, viewing `scene`, not paused. */
  method NewListeningParticipant(scene: SceneRef) returns (c: SocketController)
    ensures fresh(c.socket) && fresh(c.user) && fresh(c.state) && fresh(c.layer)
    ensures c.Snapshot() == Relay(false, scene, {SocketName}, [], [])
  {
    var socket := new Socket({});
    var user := new User(scene);
    var state := new State();
    var layer := new CombatNumberLayer();
    c := new SocketController(socket, user, state, layer);
    c.Init();
  }

  /** Two participants on the same scene: what one emits, the other renders
      once. After the receiver moves to another scene, the same event renders
      nothing. */
  method TwoParticipantScenario() {
    var scene1 := SceneId("scene1");
    var a := NewListeningParticipant(scene1);
    var b := NewListeningParticipant(scene1);

    a.Emit(7, 100, 200, scene1);
    assert a.socket.sent == [Send(SocketName, Payload(7, 100, 200, scene1))];
    var out := a.socket.sent[0];
    assert out.channel == b.socketName && b.socketName in b.socket.listeners;
    b.Receive(out.channel, out.payload);
    assert b.layer.calls == [AddCombatNumber(7, 100, 200)];

    b.user.View(SceneId("scene2"));
    assert HandlerCalls(b.user.viewedScene, out.payload) == [];
    b.Receive(out.channel, out.payload);
    assert b.layer.calls == [AddCombatNumber(7, 100, 200)];
  }

  /** A paused participant sends nothing but still renders what it receives;
      after it deactivates, nothing reaches its layer. */
  method PausedParticipantScenario(data: Payload) {
    var socket := new Socket({});
    var user := new User(data.sceneId);
    var state := new State();
    var layer := new CombatNumberLayer();
    var c := new SocketController(socket, user, state, layer);
    c.Init();
    state.SetIsPauseBroadcast(true);

    c.Emit(data.number, data.x, data.y, data.sceneId);
    assert socket.sent == [];
    c.Receive(SocketName, data);
    assert layer.calls == [AddCombatNumber(data.number, data.x, data.y)];

    c.Deactivate();
    c.Receive(SocketName, data);
    assert layer.calls == [AddCombatNumber(data.number, data.x, data.y)];
  }
}
