/**
 * The subscriber coordinator (src/bluetooth.rs: `start_subscriber`): it
 * reads the connection states the manager sends and keeps at most one
 * subscription handler running, for the latest connected tracker.
 *
 * Tasks are identified by the order in which they are spawned; aborting a
 * task marks its id dead.
 */
module BluetoothCoordinator {
  import opened Wrappers
  import opened BluetoothTypes

  /** A running subscription handler: its task and the tracker it serves. */
  datatype Handler = Handler(task: nat, tracker: Peripheral)

  /** What the coordinator does to the outside world. */
  datatype CoordAction =
    | Spawn(task: nat, tracker: Peripheral, chr: Characteristic)
    | Abort(task: nat)
    | Disconnect(tracker: Peripheral)

  /** The two loops of `start_subscriber`, and its return. */
  datatype Phase = Initializing | Active | Done

  datatype Coord = Coord(phase: Phase, handler: Option<Handler>, nextTask: nat)

  const InitialCoord := Coord(Initializing, None, 0)

  /** The actions that take down the current handler, if there is one. */
  function AbortHandler(h: Option<Handler>): (actions: seq<CoordAction>)
    ensures h.None? <==> actions == []
    ensures h.Some? ==> actions == [Abort(h.value.task)]
  {
    if h.Some? then [Abort(h.value.task)] else []
  }

  /** The coordinator's reaction to one state message. */
  function CoordStep(c: Coord, msg: State): (r: (Coord, seq<CoordAction>))
    // initialisation: Stopping ends with nothing spawned, Connected spawns the first handler
    ensures c.phase == Initializing && msg == Stopping ==> r == (Coord(Done, None, c.nextTask), [])
    ensures c.phase == Initializing && msg.Connected? ==>
      r == (Coord(Active, Some(Handler(c.nextTask, msg.tracker)), c.nextTask + 1), [Spawn(c.nextTask, msg.tracker, msg.chr)])
    ensures c.phase == Initializing && (msg == Starting || msg == Connecting) ==> r == (c, [])
    // main phase: Connecting and Starting take the handler down
    ensures c.phase == Active && (msg == Starting || msg == Connecting) ==>
      r == (Coord(Active, None, c.nextTask), AbortHandler(c.handler))
    // a new connection installs a fresh handler and aborts the previous one
    ensures c.phase == Active && msg.Connected? ==>
      r == (Coord(Active, Some(Handler(c.nextTask, msg.tracker)), c.nextTask + 1),
            [Spawn(c.nextTask, msg.tracker, msg.chr)] + AbortHandler(c.handler))
    // Stopping aborts the handler, disconnects its tracker and ends
    ensures c.phase == Active && msg == Stopping ==>
      r.0 == Coord(Done, None, c.nextTask) &&
      r.1 == AbortHandler(c.handler) + (if c.handler.Some? then [Disconnect(c.handler.value.tracker)] else [])
    ensures c.phase == Done ==> r == (c, [])
  {
    match c.phase
    case Done => (c, [])
    case Initializing =>
      (match msg
       case Stopping => (Coord(Done, None, c.nextTask), [])
       case Connected(t, chr) =>
         (Coord(Active, Some(Handler(c.nextTask, t)), c.nextTask + 1), [Spawn(c.nextTask, t, chr)])
       case _ => (c, []))
    case Active =>
      (match msg
       case Stopping =>
         (Coord(Done, None, c.nextTask),
          AbortHandler(c.handler) + (if c.handler.Some? then [Disconnect(c.handler.value.tracker)] else []))
       case Connected(t, chr) =>
         (Coord(Active, Some(Handler(c.nextTask, t)), c.nextTask + 1),
          [Spawn(c.nextTask, t, chr)] + AbortHandler(c.handler))
       case _ => (Coord(Active, None, c.nextTask), AbortHandler(c.handler)))
  }

  /** The result of feeding messages to the coordinator: its final state and everything it did. */
  datatype Outcome = Outcome(final: Coord, actions: seq<CoordAction>)

  /** The coordinator over the messages received before the channel closes; after `Done` it reads no more. */
  function CoordRun(c: Coord, msgs: seq<State>): Outcome
    decreases |msgs|
  {
    if msgs == [] || c.phase == Done then Outcome(c, [])
    else
      var step := CoordStep(c, msgs[0]);
      var rest := CoordRun(step.0, msgs[1..]);
      Outcome(rest.final, step.1 + rest.actions)
  }

  function Spawned(actions: seq<CoordAction>): set<nat>
  {
    set a | a in actions && a.Spawn? :: a.task
  }

  function Aborted(actions: seq<CoordAction>): set<nat>
  {
    set a | a in actions && a.Abort? :: a.task
  }

  /** The handlers spawned and not aborted. */
  function Live(actions: seq<CoordAction>): set<nat>
  {
    Spawned(actions) - Aborted(actions)
  }

  /** The trackers handlers were spawned for. */
  function SpawnedTrackers(actions: seq<CoordAction>): set<Peripheral>
  {
    set a | a in actions && a.Spawn? :: a.tracker
  }

  /** The trackers disconnected. */
  function Disconnected(actions: seq<CoordAction>): set<Peripheral>
  {
    set a | a in actions && a.Disconnect? :: a.tracker
  }

  function HandlerTasks(h: Option<Handler>): set<nat>
  {
    if h.Some? then {h.value.task} else {}
  }

  /**
   * What the coordinator's state says about what it has done: the live
   * handlers are exactly the current one, task ids below `nextTask` are
   * used, only spawned tasks are aborted, after the return nothing is kept,
   * and the current handler's tracker and every tracker disconnected are
   * trackers a handler was spawned for.
   */
  predicate CoordInv(c: Coord, actions: seq<CoordAction>)
  {
    && Live(actions) == HandlerTasks(c.handler)
    && (forall t :: t in Spawned(actions) ==> t < c.nextTask)
    && Aborted(actions) <= Spawned(actions)
    && (c.phase != Active ==> c.handler.None?)
    && (c.handler.Some? ==> c.handler.value.tracker in SpawnedTrackers(actions))
    && Disconnected(actions) <= SpawnedTrackers(actions)
  }

  lemma CoordStepKeepsInv(c: Coord, actions: seq<CoordAction>, msg: State)
    requires CoordInv(c, actions)
    ensures CoordInv(CoordStep(c, msg).0, actions + CoordStep(c, msg).1)
  {
    var (c', a) := CoordStep(c, msg);
    var all := actions + a;
    assert forall x :: x in all <==> x in actions || x in a;
    assert Spawned(all) == Spawned(actions) + Spawned(a);
    assert Aborted(all) == Aborted(actions) + Aborted(a);
    assert SpawnedTrackers(all) == SpawnedTrackers(actions) + SpawnedTrackers(a);
    assert Disconnected(all) == Disconnected(actions) + Disconnected(a);
    assert c.nextTask !in Spawned(actions) && c.nextTask !in Aborted(actions);
    if c.phase == Active && msg.Connected? {
      assert Spawned(a) == {c.nextTask};
      assert Aborted(a) == HandlerTasks(c.handler);
      assert Live(all) == {c.nextTask};
    } else if c.phase == Active {
      assert Spawned(a) == {};
      assert Aborted(a) == HandlerTasks(c.handler);
      assert Live(all) == {};
    } else if c.phase == Initializing && msg.Connected? {
      assert Spawned(a) == {c.nextTask} && Aborted(a) == {};
      assert Live(all) == {c.nextTask};
    } else {
      assert a == [] && all == actions;
    }
  }

  lemma {:induction false} CoordRunKeepsInv(c: Coord, actions: seq<CoordAction>, msgs: seq<State>)
    requires CoordInv(c, actions)
    ensures CoordInv(CoordRun(c, msgs).final, actions + CoordRun(c, msgs).actions)
    decreases |msgs|
  {
    if msgs == [] || c.phase == Done {
      assert actions + [] == actions;
    } else {
      var step := CoordStep(c, msgs[0]);
      CoordStepKeepsInv(c, actions, msgs[0]);
      CoordRunKeepsInv(step.0, actions + step.1, msgs[1..]);
      assert actions + step.1 + CoordRun(step.0, msgs[1..]).actions == actions + CoordRun(c, msgs).actions;
    }
  }

  /**
   * Whatever messages arrive, at most one spawned handler is not aborted;
   * after a `Stopping` has been handled there is none; and each tracker
   * disconnected is the tracker of a spawned handler.
   */
  lemma AtMostOneLiveHandler(msgs: seq<State>)
    ensures var r := CoordRun(InitialCoord, msgs);
      && |Live(r.actions)| <= 1
      && (r.final.phase == Done ==> Live(r.actions) == {})
      && Disconnected(r.actions) <= SpawnedTrackers(r.actions)
  {
    assert CoordInv(InitialCoord, []);
    CoordRunKeepsInv(InitialCoord, [], msgs);
    assert [] + CoordRun(InitialCoord, msgs).actions == CoordRun(InitialCoord, msgs).actions;
  }

  /** A `Stopping` before any `Connected` ends the coordinator before it spawns anything. */
  lemma {:induction false} StoppingDuringInitSpawnsNothing(msgs: seq<State>, k: nat)
    requires k < |msgs| && msgs[k] == Stopping
    requires forall j :: 0 <= j < k ==> msgs[j] == Starting || msgs[j] == Connecting
    ensures CoordRun(InitialCoord, msgs) == Outcome(Coord(Done, None, 0), [])
    decreases k
  {
    if k > 0 {
      StoppingDuringInitSpawnsNothing(msgs[1..], k - 1);
    }
  }

  /** The first `Connected` during initialisation spawns handler 0 for its tracker and starts the main phase. */
  lemma {:induction false} FirstConnectedSpawnsOnce(msgs: seq<State>, k: nat, rest: seq<State>)
    requires k < |msgs| && msgs[k].Connected?
    requires forall j :: 0 <= j < k ==> msgs[j] == Starting || msgs[j] == Connecting
    ensures var r := CoordRun(InitialCoord, msgs[..k + 1] + rest);
      var after := CoordRun(Coord(Active, Some(Handler(0, msgs[k].tracker)), 1), rest);
      r == Outcome(after.final, [Spawn(0, msgs[k].tracker, msgs[k].chr)] + after.actions)
    decreases k
  {
    var whole := msgs[..k + 1] + rest;
    assert whole[0] == msgs[0];
    if k > 0 {
      FirstConnectedSpawnsOnce(msgs[1..], k - 1, rest);
      assert whole[1..] == msgs[1..][..k] + rest;
    } else {
      assert whole[1..] == rest;
    }
  }

  /** The coordinator's run, unfolded at position `i`. */
  lemma CoordRunAt(c: Coord, msgs: seq<State>, i: nat)
    requires i < |msgs| && c.phase != Done
    ensures CoordRun(c, msgs[i..]) ==
      Outcome(CoordRun(CoordStep(c, msgs[i]).0, msgs[i + 1..]).final,
              CoordStep(c, msgs[i]).1 + CoordRun(CoordStep(c, msgs[i]).0, msgs[i + 1..]).actions)
  {
    assert msgs[i..][0] == msgs[i] && msgs[i..][1..] == msgs[i + 1..];
  }

  /** The body of the main loop on the local `handler` and the next task id. */
  method HandleMessage(handler: Option<Handler>, next: nat, msg: State)
    returns (handler': Option<Handler>, next': nat, acts: seq<CoordAction>, stop: bool)
    ensures (Coord(if stop then Done else Active, handler', next'), acts) == CoordStep(Coord(Active, handler, next), msg)
  {
    handler', next', acts, stop := handler, next, [], false;
    match msg {
      case Stopping =>
        if handler.Some? {
          var h := handler.value;
          handler' := None;
          acts := [Abort(h.task), Disconnect(h.tracker)];
        }
        stop := true;
        assert acts == AbortHandler(handler) + (if handler.Some? then [Disconnect(handler.value.tracker)] else []);
      case Connected(t, chr) =>
        var prev := handler;
        handler' := Some(Handler(next, t));
        acts := [Spawn(next, t, chr)];
        next' := next + 1;
        if prev.Some? {
          acts := acts + [Abort(prev.value.task)];
        }
        assert acts == [Spawn(next, t, chr)] + AbortHandler(handler);
      case _ =>
        if handler.Some? {
          acts := [Abort(handler.value.task)];
          handler' := None;
        }
    }
  }

  /** The second loop of `start_subscriber`, from position `i` with the current handler. */
  method MainPhase(msgs: seq<State>, i0: nat, handler0: Option<Handler>, next0: nat)
    returns (actions: seq<CoordAction>, stopped: bool)
    requires i0 <= |msgs|
    ensures var r := CoordRun(Coord(Active, handler0, next0), msgs[i0..]);
      actions == r.actions && (stopped <==> r.final.phase == Done)
  {
    var handler, next, i := handler0, next0, i0;
    actions := [];
    ghost var whole := CoordRun(Coord(Active, handler0, next0), msgs[i0..]);
    assert [] + whole.actions == whole.actions;
    while i < |msgs|
      invariant i0 <= i <= |msgs|
      invariant whole == Outcome(CoordRun(Coord(Active, handler, next), msgs[i..]).final,
                                 actions + CoordRun(Coord(Active, handler, next), msgs[i..]).actions)
    {
      CoordRunAt(Coord(Active, handler, next), msgs, i);
      ghost var step := CoordStep(Coord(Active, handler, next), msgs[i]);
      ghost var rest := CoordRun(step.0, msgs[i + 1..]);
      assert actions + (step.1 + rest.actions) == actions + step.1 + rest.actions;
      var acts, stop;
      handler, next, acts, stop := HandleMessage(handler, next, msgs[i]);
      actions := actions + acts;
      if stop {
        assert rest == Outcome(step.0, []);
        assert actions + [] == actions;
        return actions, true;
      }
      i := i + 1;
    }
    assert msgs[i..] == [];
    assert actions + [] == actions;
    stopped := false;
  }

  /**
   * `start_subscriber` over the messages received before the channel
   * closes: the actions taken and whether it returned on `Stopping`.
   * The first loop waits for the first connection; the second handles
   * every state change.
   */
  method StartSubscriber(msgs: seq<State>) returns (actions: seq<CoordAction>, stopped: bool)
    ensures actions == CoordRun(InitialCoord, msgs).actions
    ensures stopped <==> CoordRun(InitialCoord, msgs).final.phase == Done
    ensures |Live(actions)| <= 1
    ensures stopped ==> Live(actions) == {}
    ensures Disconnected(actions) <= SpawnedTrackers(actions)
  {
    ghost var whole := CoordRun(InitialCoord, msgs);
    actions, stopped := [], false;
    var i := 0;
    assert msgs[0..] == msgs;
    while i < |msgs|
      invariant i <= |msgs|
      invariant whole == CoordRun(InitialCoord, msgs[i..])
      invariant actions == [] && !stopped
    {
      CoordRunAt(InitialCoord, msgs, i);
      match msgs[i] {
        case Stopping =>
          stopped := true;
          break;
        case Connected(t, chr) =>
          var more;
          more, stopped := MainPhase(msgs, i + 1, Some(Handler(0, t)), 1);
          actions := [Spawn(0, t, chr)] + more;
          break;
        case _ =>
          i := i + 1;
      }
    }
    assert i == |msgs| ==> msgs[i..] == [];
    assert actions == whole.actions && (stopped <==> whole.final.phase == Done);
    AtMostOneLiveHandler(msgs);
  }
}
