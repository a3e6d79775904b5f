/**
 * The subscription handler (src/bluetooth.rs: `ensure_connection`,
 * `subscribe`): read the tracker's side, then turn each notification into
 * calls on the application state.
 */
module BluetoothSubscribe {
  import opened Wrappers
  import opened BluetoothTypes

  /** The faces of the tracker are numbered 1 to 8; any other byte means it rests on an edge. */
  predicate IsSide(b: byte)
  {
    1 <= b <= 8
  }

  /** The face rule: start entry `side` unless it is already the open entry. */
  function FaceCalls(side: byte, open: Option<nat>): (calls: seq<AppCall>)
    requires IsSide(side)
    ensures calls == [] || calls == [StartEntry(side)]
    ensures calls == [] <==> open == Some(side)
  {
    if open.None? || open.value != side then [StartEntry(side)] else []
  }

  /** The calls made for the value read when the subscription starts: faces only, edges are ignored. */
  function InitialReadCalls(value: seq<byte>, open: Option<nat>): (calls: seq<AppCall>)
    ensures forall k :: 0 <= k < |calls| ==> calls[k].StartEntry?
    ensures calls != [] <==> value != [] && IsSide(value[0]) && open != Some(value[0])
    ensures calls != [] ==> calls == [StartEntry(value[0])]
    ensures OpenAfter(open, calls) == if value != [] && IsSide(value[0]) then Some(value[0]) else open
  {
    if value != [] && IsSide(value[0]) then FaceCalls(value[0], open) else []
  }

  /** The calls made for one notification: the face rule on faces, closing the open entry on edges. */
  function NotificationCalls(value: seq<byte>, open: Option<nat>, now: Timestamp): (calls: seq<AppCall>)
    ensures value == [] ==> calls == []
    ensures value != [] && IsSide(value[0]) ==> calls == InitialReadCalls(value, open)
    ensures value != [] && !IsSide(value[0]) ==> calls == [CloseEntryIfOpen(now)]
    ensures OpenAfter(open, calls) ==
      if value == [] then open else if IsSide(value[0]) then Some(value[0]) else None
  {
    if value == [] then []
    else if IsSide(value[0]) then FaceCalls(value[0], open)
    else [CloseEntryIfOpen(now)]
  }

  /** The outcomes of the platform calls one liveness check makes. */
  datatype LivenessCheck = LivenessCheck(isConnected: Probe<bool>, reconnected: bool, recheck: Probe<bool>)

  /**
   * `ensure_connection`: connected, or reconnected and then found connected.
   * A failed call anywhere is an error; a reconnect that succeeds without the
   * tracker being connected afterwards is `Ok(false)`.
   */
  function EnsureConnection(c: LivenessCheck): (r: Probe<bool>)
    ensures r == Ok(true) <==>
      c.isConnected == Ok(true) || (c.isConnected == Ok(false) && c.reconnected && c.recheck == Ok(true))
    ensures r == Ok(false) <==> c.isConnected == Ok(false) && c.reconnected && c.recheck == Ok(false)
  {
    match c.isConnected
    case Err => Err
    case Ok(still) =>
      if still then Ok(true)
      else if !c.reconnected then Err
      else c.recheck
  }

  /** What the notification loop sees next: a notification, five quiet seconds, or the end of the stream. */
  datatype ListenEvent = Notification(value: seq<byte>, now: Timestamp) | Quiet(check: LivenessCheck) | StreamEnd

  /** How a subscription session ends: `Err`, `Ok(())`, or still listening when the inputs run out. */
  datatype SessionEnd = Failed | Finished | Listening

  /** The platform outcomes one subscription session meets, in the order `subscribe` consults them. */
  datatype Session = Session(
    startCheck: LivenessCheck,
    initialRead: Probe<seq<byte>>,
    subscribed: bool,
    streamOpened: bool,
    events: seq<ListenEvent>)

  /** The notification loop: how it ends and the calls it makes, given the open entry number. */
  function Listen(events: seq<ListenEvent>, open: Option<nat>): (r: (SessionEnd, seq<AppCall>))
    decreases |events|
  {
    if events == [] then (Listening, [])
    else match events[0]
      case StreamEnd => (Finished, [])
      case Quiet(check) =>
        (match EnsureConnection(check)
         case Err => (Failed, [])
         case Ok(alive) => if alive then Listen(events[1..], open) else (Finished, []))
      case Notification(value, now) =>
        var calls := NotificationCalls(value, open, now);
        var rest := Listen(events[1..], OpenAfter(open, calls));
        (rest.0, calls + rest.1)
  }

  /** A whole `subscribe` call: the start-up checks, the initial read, then the loop. */
  function SubscribeSpec(s: Session, open: Option<nat>): (r: (SessionEnd, seq<AppCall>))
  {
    match EnsureConnection(s.startCheck)
    case Err => (Failed, [])
    case Ok(alive) =>
      if !alive then (Finished, [])
      else if s.initialRead.Err? || !s.subscribed || !s.streamOpened then (Failed, [])
      else
        var first := InitialReadCalls(s.initialRead.value, open);
        var rest := Listen(s.events, OpenAfter(open, first));
        (rest.0, first + rest.1)
  }

  /** Every call the loop makes is a start of a face 1..8 or a close; none is redundant. */
  lemma {:induction false} ListenCallsAreSound(events: seq<ListenEvent>, open: Option<nat>)
    ensures NoRedundantStart(open, Listen(events, open).1)
    ensures forall k :: 0 <= k < |Listen(events, open).1| ==>
      var c := Listen(events, open).1[k];
      !c.SetConnected? && (c.StartEntry? ==> 1 <= c.number <= 8)
    decreases |events|
  {
    if events != [] && events[0].Notification? {
      var calls := NotificationCalls(events[0].value, open, events[0].now);
      ListenCallsAreSound(events[1..], OpenAfter(open, calls));
      NoRedundantStartAppend(open, calls, Listen(events[1..], OpenAfter(open, calls)).1);
    } else if events != [] && events[0].Quiet? && EnsureConnection(events[0].check) == Ok(true) {
      ListenCallsAreSound(events[1..], open);
    }
  }

  /** A notification stream that keeps reporting one face starts that entry at most once. */
  lemma {:induction false} RepeatedFaceStartsOnce(events: seq<ListenEvent>, open: Option<nat>, side: byte)
    requires IsSide(side)
    requires forall k :: 0 <= k < |events| ==>
      events[k].Notification? && events[k].value != [] && events[k].value[0] == side
    ensures Listen(events, open).1 == if events == [] || open == Some(side) then [] else [StartEntry(side)]
    ensures Listen(events, open).0 == Listening
    decreases |events|
  {
    if events != [] {
      var calls := NotificationCalls(events[0].value, open, events[0].now);
      RepeatedFaceStartsOnce(events[1..], Some(side), side);
      assert OpenAfter(open, calls) == Some(side);
    }
  }

  /** An edge notification ends whatever entry is open, with exactly one close at its timestamp. */
  lemma EdgeClosesOnce(value: seq<byte>, open: Option<nat>, now: Timestamp, rest: seq<ListenEvent>)
    requires value != [] && !IsSide(value[0])
    ensures var r := Listen([Notification(value, now)] + rest, open).1;
      r[..1] == [CloseEntryIfOpen(now)] && OpenAfter(open, r[..1]) == None
  {
    var events := [Notification(value, now)] + rest;
    assert events[1..] == rest;
  }

  /** A whole session makes no redundant start and only starts faces or closes. */
  lemma SubscribeCallsAreSound(s: Session, open: Option<nat>)
    ensures NoRedundantStart(open, SubscribeSpec(s, open).1)
    ensures forall k :: 0 <= k < |SubscribeSpec(s, open).1| ==>
      var c := SubscribeSpec(s, open).1[k];
      !c.SetConnected? && (c.StartEntry? ==> 1 <= c.number <= 8)
  {
    if EnsureConnection(s.startCheck) == Ok(true) && s.initialRead.Ok? && s.subscribed && s.streamOpened {
      var first := InitialReadCalls(s.initialRead.value, open);
      ListenCallsAreSound(s.events, OpenAfter(open, first));
      NoRedundantStartAppend(open, first, Listen(s.events, OpenAfter(open, first)).1);
    }
  }

  /** One notification: the calls it makes and the open entry number afterwards. */
  method HandleNotification(value: seq<byte>, cur: Option<nat>, now: Timestamp) returns (step: seq<AppCall>, next: Option<nat>)
    ensures step == NotificationCalls(value, cur, now)
    ensures next == OpenAfter(cur, step)
  {
    step := [];
    next := cur;
    if |value| > 0 {
      var side := value[0];
      if 1 <= side <= 8 {
        if cur.None? || cur.value != side {
          step := [StartEntry(side)];
          next := Some(side);
        }
      } else {
        step := [CloseEntryIfOpen(now)];
        next := None;
      }
    }
  }

  /** The notification loop of `subscribe`, from the open entry number `open`. */
  method ListenLoop(events: seq<ListenEvent>, open: Option<nat>) returns (end: SessionEnd, calls: seq<AppCall>)
    ensures (end, calls) == Listen(events, open)
  {
    calls := [];
    var cur := open;
    var i := 0;
    end := Listening;
    assert events[0..] == events && [] + Listen(events, open).1 == Listen(events, open).1;
    while i < |events|
      invariant i <= |events|
      invariant Listen(events, open) == (Listen(events[i..], cur).0, calls + Listen(events[i..], cur).1)
    {
      var ev := events[i];
      assert events[i..][0] == ev && events[i..][1..] == events[i + 1..];
      match ev {
        case StreamEnd =>
          end := Finished;
          break;
        case Quiet(check) =>
          var ok := EnsureConnection(check);
          if ok.Err? {
            end := Failed;
            break;
          }
          if !ok.value {
            end := Finished;
            break;
          }
        case Notification(value, now) =>
          ghost var rest := Listen(events[i + 1..], OpenAfter(cur, NotificationCalls(value, cur, now)));
          var step;
          step, cur := HandleNotification(value, cur, now);
          assert calls + (step + rest.1) == (calls + step) + rest.1;
          calls := calls + step;
      }
      i := i + 1;
    }
    if end == Listening {
      assert events[i..] == [];
    }
    assert calls + [] == calls;
  }

  /**
   * `subscribe`: check the connection, read the current side, subscribe,
   * apply the face rule to the read value, then handle notifications until
   * the stream ends or a liveness check fails. `open` is the open entry
   * number when the session starts; the result lists the calls made on the
   * application state.
   */
  method Subscribe(s: Session, open: Option<nat>) returns (end: SessionEnd, calls: seq<AppCall>)
    ensures (end, calls) == SubscribeSpec(s, open)
    ensures NoRedundantStart(open, calls)
    ensures forall k :: 0 <= k < |calls| ==> !calls[k].SetConnected? && (calls[k].StartEntry? ==> 1 <= calls[k].number <= 8)
  {
    var alive := EnsureConnection(s.startCheck);
    if alive.Err? {
      return Failed, [];
    }
    if !alive.value {
      return Finished, [];
    }
    if s.initialRead.Err? || !s.subscribed || !s.streamOpened {
      return Failed, [];
    }
    var current := s.initialRead.value;
    var first: seq<AppCall> := [];
    var cur := open;
    if |current| > 0 && 1 <= current[0] <= 8 && (cur.None? || cur.value != current[0]) {
      first := [StartEntry(current[0])];
      cur := Some(current[0]);
    }
    assert first == InitialReadCalls(current, open);
    var more;
    end, more := ListenLoop(s.events, cur);
    calls := first + more;
    SubscribeCallsAreSound(s, open);
  }
}
