/**
 * The host objects the socket controller talks to, reduced to what the
 * controller can observe: the socket's table of channels with a handler and
 * the log of what it sent, the user's viewed scene, and the log of calls made
 * to the combat number layer.
 */
module Host {
  import opened CombatNumberEvents

  /** A socket shared by every module of the client. */
  class Socket {
    /** Channel names that currently have a handler registered. */
    var listeners: set<string>
    /** Every `emit` made on this socket, oldest first. */
    var sent: seq<Send>

    constructor(listeners: set<string>)
      ensures this.listeners == listeners && sent == []
    {
      this.listeners := listeners;
      sent := [];
    }

    /** `socket.on(name, handler)`: registers a handler under `name`. */
    method On(name: string)
      modifies this
      ensures listeners == old(listeners) + {name}
      ensures sent == old(sent)
    {
      listeners := listeners + {name};
    }

    /** `socket.off(name)`: removes the handler registered under `name`, if any. */
    method Off(name: string)
      modifies this
      ensures listeners == old(listeners) - {name}
      ensures sent == old(sent)
    {
      listeners := listeners - {name};
    }

    /** `socket.emit(name, payload)`: sends one payload on `name`. */
    method Emit(name: string, payload: Payload)
      modifies this
      ensures sent == old(sent) + [Send(name, payload)]
      ensures listeners == old(listeners)
    {
      sent := sent + [Send(name, payload)];
    }
  }

  /** The current user; only the scene they are viewing matters here. */
  class User {
    var viewedScene: SceneRef

    constructor(viewedScene: SceneRef)
      ensures this.viewedScene == viewedScene
    {
      this.viewedScene := viewedScene;
    }

    /** The user switches to another scene. */
    method View(scene: SceneRef)
      modifies this
      ensures viewedScene == scene
    {
      viewedScene := scene;
    }
  }

  /** The rendering layer; its rendering is not modelled, only the calls it receives. */
  class CombatNumberLayer {
    var calls: seq<LayerCall>

    constructor()
      ensures calls == []
    {
      calls := [];
    }

    method AddCombatNumber(number: int, x: int, y: int)
      modifies this
      ensures calls == old(calls) + [LayerCall.AddCombatNumber(number, x, y)]
    {
      calls := calls + [LayerCall.AddCombatNumber(number, x, y)];
    }
  }
}
