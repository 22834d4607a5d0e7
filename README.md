# combat-numbers socket relay, in Dafny

This project models the `SocketController` of the combat-numbers module. The
controller relays combat numbers (damage and heal figures drawn at a position
on a scene) between the participants of a game session over one named channel,
`module.combat-numbers`, of the shared socket:

- `emit` sends `{number, x, y, sceneId}` on the channel, unless the module's
  state has the pause-broadcast flag set. In that case it sends nothing, and
  the number is lost.
- `init` registers a handler on the channel, and `deactivate` removes it.
- The handler passes a received number and position to the combat number layer
  only when the event's `sceneId` is strictly equal to the scene the user is
  viewing. It never looks at the pause flag.

Layout:

- `combat_number_events.dfy` (`CombatNumberEvents`): scene references with
  JavaScript strict equality, the payload, the send and layer-call records.
- `pause_state.dfy` (`PauseState`): the `State` class, a single boolean with a
  getter and a setter, plus a client method that mirrors its two tests.
- `host.dfy` (`Host`): the collaborators, reduced to what the controller can
  observe. `Socket` holds the set of channels that have a handler and a log of
  sends. `User` holds the viewed scene. `CombatNumberLayer` holds a log of
  `addCombatNumber` calls.
- `relay_spec.dfy` (`RelaySpec`): one participant as a value (`Relay`), the
  effect of each operation on it (`Step`), and a run of operations (`Run`).
  Besides the controller's own operations, an operation can also be an event
  arriving on a channel, a change of the pause flag, or a change of scene.
- `socket_controller.dfy` (`SocketControl`): the `SocketController` class.
  `Init`, `Deactivate`, `Emit` and `Receive` are proved to change the
  collaborators exactly as `Step` says. `Listen`, `RemoveListener` and
  `HandleCombatNumber` state their effect on the socket or the layer directly.
  Two client scenarios run two participants, and a paused then
  deactivated one.
- `relay_properties.dfy` (`RelayProperties`): inductive properties over runs of
  operations.

## Model

| member | source | states |
|---|---|---|
| PauseState.State.constructor | tests/module/state.test.js:3-8 | a fresh state does not pause broadcasting |
| PauseState.State.GetIsPauseBroadcast | tests/module/state.test.js:3-8 | reports the current pause-broadcast flag |
| PauseState.State.SetIsPauseBroadcast | tests/module/state.test.js:10-14 | after setting, the flag reads back as the value set |
| SocketControl.SocketController.constructor | src/module/socketController.js:19-54 | keeps the four collaborators it is given; the channel name is `module.combat-numbers` |
| SocketControl.SocketController.Init | src/module/socketController.js:61-63 | adds a handler on the controller's channel and changes nothing else (no sends, other channels as they were) |
| SocketControl.SocketController.Listen | src/module/socketController.js:114-115 | registers the handler under exactly the controller's channel name |
| SocketControl.SocketController.Deactivate | src/module/socketController.js:70-72 | removes the handler on the controller's channel, whether or not one was there, and changes nothing else |
| SocketControl.SocketController.RemoveListener | src/module/socketController.js:137-139 | removes the handler under exactly the controller's channel name |
| SocketControl.SocketController.Emit | src/module/socketController.js:90-103 | paused: no send at all; not paused: exactly one send on the channel with the four arguments unchanged; never touches the flag, the scene, the handlers or the layer |
| SocketControl.SocketController.HandleCombatNumber | src/module/socketController.js:115-127 | appends exactly one `addCombatNumber(number, x, y)` when the event's scene is the viewed one, and nothing otherwise; the pause flag plays no part |
| SocketControl.SocketController.Receive | src/module/socketController.js:114-127 | an event reaches the handler only on the controller's channel while the handler is registered; otherwise the layer log is unchanged |
| SocketControl.SocketController.ShouldShowInScene | src/module/socketController.js:154-156 | true exactly when the viewed scene equals the given scene id (strict equality; null and undefined are distinct) |
| CombatNumberEvents.StrictEquals | src/module/socketController.js:155 | JavaScript `===` on scene references, case by case; it holds exactly when the two references are identical, so there is no partial matching and `null` never equals `undefined` |
| RelaySpec.Step | src/module/socketController.js:61-139 | the effect of init, deactivate, emit, a received event, and the two outside changes on one participant. Each operation touches only its own part: only emit sends, only a received event renders, only init and deactivate change handlers, and only on the controller's channel (init leaves it registered, deactivate leaves it unregistered), and the flag and scene change only from outside. Its `Receive` case includes the socket's routing (the event must arrive on the controller's channel while the handler is registered), which is the socket's behaviour and not in the source |
| RelaySpec.HandlerCalls | src/module/socketController.js:118-126 | at most one layer call; one exactly when the scenes are equal, and it carries the event's number and position |
| RelaySpec.Run | src/module/socketController.js:90-127 | over any run of operations, the send log and the layer log only grow (each old log is a prefix of the new one) |
| RelayProperties.PausedEmitsChangeNothing | src/module/socketController.js:90-93 | any number of emits while paused leaves the whole participant unchanged |
| RelayProperties.UnpausedEmitsSendEach | src/module/socketController.js:97-102 | while not paused, a run of emits sends exactly one record per emit, in order, on the channel, with each payload unchanged, and changes nothing else |
| RelayProperties.SuppressionGate | src/module/socketController.js:90-102 | pause, any emits, unpause, one emit: exactly that last payload is sent, so nothing is buffered or replayed |
| RelayProperties.SendsOnlyOnSocketName | src/module/socketController.js:97-102 | every send of any run of operations is on `module.combat-numbers` |
| RelayProperties.OtherChannelsUntouched | src/module/socketController.js:114-139 | no run of operations changes the handler of any channel other than the controller's |
| RelayProperties.ReceptionIgnoresPause | src/module/socketController.js:115-127 | two participants that differ only in pause flag and send log render exactly the same numbers over any run |
| RelayProperties.DeactivatedRendersNothing | src/module/socketController.js:137-139 | once the handler is removed and until the next init, no received event reaches the layer |
| RelayProperties.OtherScenesNeverRendered | src/module/socketController.js:118-120 | while the user stays on a scene, events from any other scene never reach the layer |
| RelayProperties.Lifecycle | src/module/socketController.js:61-72 | deactivating twice equals deactivating once; init, deactivate, init leaves the handler registered |
| RelayProperties.RelayBetweenParticipants | src/module/socketController.js:97-126 | what a non-paused sender emits is rendered once, on the same scene, by a receiver that registered its handler once, and not at all on another scene |

## Left out

- Logging with `console.debug` when sending and receiving: it has no effect on behaviour.
- `async` and promises: every method is one sequential step, and nothing awaited can interleave.
- `Number(...)` coercion of the received `number`, `x` and `y`: the fields are integers throughout. JavaScript's double-precision numbers, string-to-number parsing and `NaN` are not modelled.
- The socket transport: network delivery between participants, ordering across participants, and several handlers on one name. The socket keeps only the set of channel names with a handler. So a second `init` without `deactivate` registers nothing extra in the model, while a real socket may keep two handlers. `SocketController.Receive` stands for the socket calling the handler registered on the controller's channel, and it assumes that handler is the controller's own.
- Rendering inside `CombatNumberLayer.addCombatNumber`: only the calls are recorded.
- The inside of the module's `State` beyond the flag and its getter and setter: the file that defines it is not part of this model.
- The controller's five fields (`socket`, `user`, `state`, `layer` and `socketName`) are constant fields. The source assigns them as ordinary properties in the constructor and never reassigns them. So the model does not cover code outside the controller swapping a collaborator, and the `Snapshot` equations depend on those references staying fixed. `socketName` has an initializer instead of a constructor assignment.
