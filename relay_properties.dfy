/**
 * Properties of the relay over whole sequences of operations: the pause gate,
 * the channel discipline, the scene filter and the listener lifecycle.
 */
module RelayProperties {
  import opened CombatNumberEvents
  import opened RelaySpec

  predicate AllEmits(ops: seq<Op>) {
    forall i :: 0 <= i < |ops| ==> ops[i].Emit?
  }

  lemma AllEmitsTail(ops: seq<Op>)
    requires ops != [] && AllEmits(ops)
    ensures AllEmits(ops[1..])
  {
  }

  /** The sends a run of emits makes when nothing pauses it: one per emit, on
      the controller's channel, with the emitted payload. */
  function EmittedSends(ops: seq<Op>): seq<Send>
    requires AllEmits(ops)
  {
    seq(|ops|, i requires 0 <= i < |ops| => Send(SocketName, ops[i].payload))
  }

  /** Running `a` and then `b` is running `a + b`. */
  lemma {:induction false} RunAppend(r: Relay, a: seq<Op>, b: seq<Op>)
    ensures Run(r, a + b) == Run(Run(r, a), b)
    decreases |a|
  {
    if a != [] {
      assert (a + b)[1..] == a[1..] + b;
      RunAppend(Step(r, a[0]), a[1..], b);
    } else {
      assert a + b == b;
    }
  }

  /** While the pause-broadcast flag is set, emits change nothing at all. */
  lemma {:induction false} PausedEmitsChangeNothing(r: Relay, ops: seq<Op>)
    requires r.paused && AllEmits(ops)
    ensures Run(r, ops) == r
    decreases |ops|
  {
    if ops != [] {
      AllEmitsTail(ops);
      PausedEmitsChangeNothing(Step(r, ops[0]), ops[1..]);
    }
  }

  /** While the flag is clear, every emit sends exactly its own payload on the
      controller's channel, in order, and nothing else changes. */
  lemma {:induction false} UnpausedEmitsSendEach(r: Relay, ops: seq<Op>)
    requires !r.paused && AllEmits(ops)
    ensures Run(r, ops) == r.(sent := r.sent + EmittedSends(ops))
    decreases |ops|
  {
    if ops == [] {
      assert r.sent + EmittedSends(ops) == r.sent;
    } else {
      var rest := ops[1..];
      AllEmitsTail(ops);
      var r1 := Step(r, ops[0]);
      UnpausedEmitsSendEach(r1, rest);
      assert EmittedSends(ops) == [Send(SocketName, ops[0].payload)] + EmittedSends(rest);
      assert r1.sent + EmittedSends(rest) == r.sent + EmittedSends(ops);
    }
  }

  /** Emits made while paused are lost, not buffered: after pausing, any number
      of emits, and unpausing, the next emit is the only send. */
  lemma SuppressionGate(r: Relay, ops: seq<Op>, p: Payload)
    requires AllEmits(ops)
    ensures Run(r, [SetPauseBroadcast(true)] + ops + [SetPauseBroadcast(false), Emit(p)]).sent
            == r.sent + [Send(SocketName, p)]
  {
    var pause, resume := [SetPauseBroadcast(true)], [SetPauseBroadcast(false), Emit(p)];
    var paused := Step(r, SetPauseBroadcast(true));
    assert Run(r, pause) == Run(paused, []) == paused;
    RunAppend(r, pause, ops);
    PausedEmitsChangeNothing(paused, ops);
    assert Run(r, pause + ops) == paused;
    RunAppend(r, pause + ops, resume);
    var resumed := Step(paused, SetPauseBroadcast(false));
    assert resume[1..] == [Emit(p)];
    assert Run(paused, resume) == Run(resumed, [Emit(p)]);
    var sent := Step(resumed, Emit(p));
    assert Run(resumed, [Emit(p)]) == Run(sent, []) == sent;
    assert sent.sent == r.sent + [Send(SocketName, p)];
  }

  /** Every send the controller makes is on its own channel. */
  lemma {:induction false} SendsOnlyOnSocketName(r: Relay, ops: seq<Op>)
    ensures forall i :: |r.sent| <= i < |Run(r, ops).sent| ==> Run(r, ops).sent[i].channel == SocketName
    decreases |ops|
  {
    if ops != [] {
      SendsOnlyOnSocketName(Step(r, ops[0]), ops[1..]);
    }
  }

  /** The controller registers and removes a handler on its own channel only:
      the handlers of every other channel are left as they were. */
  lemma {:induction false} OtherChannelsUntouched(r: Relay, ops: seq<Op>)
    ensures Run(r, ops).listeners - {SocketName} == r.listeners - {SocketName}
    decreases |ops|
  {
    if ops != [] {
      OtherChannelsUntouched(Step(r, ops[0]), ops[1..]);
    }
  }

  /** Two relays that differ only in the pause flag and the send log. */
  predicate SameReception(a: Relay, b: Relay) {
    a.viewedScene == b.viewedScene && a.listeners == b.listeners && a.rendered == b.rendered
  }

  /** Reception never consults the pause flag: a paused and an unpaused
      controller render exactly the same events. */
  lemma {:induction false} ReceptionIgnoresPause(a: Relay, b: Relay, ops: seq<Op>)
    requires SameReception(a, b)
    ensures SameReception(Run(a, ops), Run(b, ops))
    decreases |ops|
  {
    if ops != [] {
      ReceptionIgnoresPause(Step(a, ops[0]), Step(b, ops[0]), ops[1..]);
    }
  }

  predicate NoInit(ops: seq<Op>) {
    forall i :: 0 <= i < |ops| ==> !ops[i].Init?
  }

  lemma NoInitTail(ops: seq<Op>)
    requires ops != [] && NoInit(ops)
    ensures NoInit(ops[1..])
  {
  }

  /** Once the handler is removed, and until it is registered again, no event
      reaches the layer. */
  lemma {:induction false} DeactivatedRendersNothing(r: Relay, ops: seq<Op>)
    requires SocketName !in r.listeners && NoInit(ops)
    ensures Run(r, ops).rendered == r.rendered
    ensures SocketName !in Run(r, ops).listeners
    decreases |ops|
  {
    if ops != [] {
      NoInitTail(ops);
      DeactivatedRendersNothing(Step(r, ops[0]), ops[1..]);
    }
  }

  /** Events from scenes other than the viewed one are never rendered, however
      often they arrive, as long as the user stays on that scene. */
  predicate FromOtherScenes(ops: seq<Op>, viewed: SceneRef) {
    forall i :: 0 <= i < |ops| ==>
      !ops[i].ViewScene? && (ops[i].Receive? ==> ops[i].data.sceneId != viewed)
  }

  lemma FromOtherScenesTail(ops: seq<Op>, viewed: SceneRef)
    requires ops != [] && FromOtherScenes(ops, viewed)
    ensures FromOtherScenes(ops[1..], viewed)
  {
  }

  lemma {:induction false} OtherScenesNeverRendered(r: Relay, ops: seq<Op>)
    requires FromOtherScenes(ops, r.viewedScene)
    ensures Run(r, ops).rendered == r.rendered
    decreases |ops|
  {
    if ops != [] {
      FromOtherScenesTail(ops, r.viewedScene);
      OtherScenesNeverRendered(Step(r, ops[0]), ops[1..]);
    }
  }

  /** The listener lifecycle: removing twice is the same as removing once,
      and init, deactivate, init leaves the handler registered. */
  lemma Lifecycle(r: Relay)
    ensures Step(Step(r, Deactivate), Deactivate) == Step(r, Deactivate)
    ensures SocketName !in Step(r, Deactivate).listeners
    ensures Run(r, [Init, Deactivate, Init]).listeners == r.listeners + {SocketName}
  {
  }

  /** One event from a sender to a listening receiver: the receiver's layer gets
      the sender's number and position exactly once when both are on the same
      scene, and nothing otherwise. */
  lemma RelayBetweenParticipants(sender: Relay, receiver: Relay, p: Payload)
    requires !sender.paused && SocketName in receiver.listeners
    ensures var out := Step(sender, Emit(p)).sent[|sender.sent|];
            Step(receiver, Receive(out.channel, out.payload)).rendered
            == receiver.rendered
               + (if receiver.viewedScene == p.sceneId then [AddCombatNumber(p.number, p.x, p.y)] else [])
  {
  }
}
