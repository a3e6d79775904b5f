/**
 * The connection manager (src/bluetooth.rs: `create_conn_mgr`): scan for a
 * tracker, connect to the first one found, and report each connection
 * change to the subscriber and to the application state.
 */
module BluetoothManager {
  import opened Wrappers
  import opened BluetoothTypes

  /** The advertised properties of a peripheral, reduced to its local name. */
  datatype Props = Props(localName: Option<string>)

  /**
   * The outcomes of the platform calls made while identifying a discovered
   * peripheral: the lookup, the properties read, the connect, the service
   * discovery, and the characteristics then known.
   */
  datatype Candidate = Candidate(
    lookup: bool,
    properties: Probe<Option<Props>>,
    connected: bool,
    discovered: bool,
    characteristics: seq<Characteristic>)

  /**
   * The events of the central's event stream. A discovery carries the
   * outcomes of identifying the peripheral and of stopping the scan; a
   * disconnection the outcome of restarting the scan.
   */
  datatype CentralEvent =
    | DeviceDiscovered(id: PeripheralId, candidate: Candidate, stopScanOk: bool)
    | DeviceUpdated(id: PeripheralId)
    | DeviceConnected(id: PeripheralId)
    | DeviceDisconnected(id: PeripheralId, startScanOk: bool)
    | ManufacturerDataAdvertisement(id: PeripheralId)
    | ServiceDataAdvertisement(id: PeripheralId)
    | ServicesAdvertisement(id: PeripheralId)

  /** `sub` occurs in `s` starting at index `i`. */
  predicate OccursAt(s: string, sub: string, i: int)
  {
    0 <= i && i + |sub| <= |s| && s[i..i + |sub|] == sub
  }

  /** An occurrence in `s` past its first character is an occurrence in `s[1..]`, one index earlier. */
  lemma ShiftOccurs(s: string, sub: string)
    requires |s| >= 1
    ensures forall i :: 1 <= i ==> (OccursAt(s, sub, i) <==> OccursAt(s[1..], sub, i - 1))
  {
    forall i | 1 <= i
      ensures OccursAt(s, sub, i) <==> OccursAt(s[1..], sub, i - 1)
    {
      if i + |sub| <= |s| {
        assert s[1..][i - 1..i - 1 + |sub|] == s[i..i + |sub|];
      }
    }
  }

  /** `str::contains`: `sub` occurs in `s` as a contiguous substring. */
  function Contains(s: string, sub: string): (r: bool)
    ensures r <==> exists i :: OccursAt(s, sub, i)
    decreases |s|
  {
    if |sub| > |s| then false
    else if s[..|sub|] == sub then assert OccursAt(s, sub, 0); true
    else
      var t := s[1..];
      ShiftOccurs(s, sub);
      var r := Contains(t, sub);
      if r then
        var i :| OccursAt(t, sub, i);
        assert OccursAt(s, sub, i + 1);
        true
      else
        assert !OccursAt(s, sub, 0);
        false
  }

  /** A peripheral whose local name contains the tracker's name. */
  predicate NamedLikeTracker(props: Option<Props>)
  {
    props.Some? && props.value.localName.Some? && Contains(props.value.localName.value, TRACKER_NAME)
  }

  /** The first characteristic with the side characteristic's uuid. */
  function FindSideCharacteristic(chars: seq<Characteristic>): (r: Option<Characteristic>)
    ensures r.Some? <==> exists c :: c in chars && c.uuid == TRACKER_SIDE_CH
    ensures r.Some? ==> r.value.uuid == TRACKER_SIDE_CH
    ensures r.Some? ==>
      exists k :: 0 <= k < |chars| && chars[k] == r.value && (forall j :: 0 <= j < k ==> chars[j].uuid != TRACKER_SIDE_CH)
  {
    if chars == [] then None
    else if chars[0].uuid == TRACKER_SIDE_CH then Some(chars[0])
    else
      var r := FindSideCharacteristic(chars[1..]);
      assert forall c :: c in chars[1..] ==> c in chars;
      assert forall c :: c in chars && c != chars[0] ==> c in chars[1..];
      if r.Some? then
        var k :| 0 <= k < |chars[1..]| && chars[1..][k] == r.value &&
          (forall j :: 0 <= j < k ==> chars[1..][j].uuid != TRACKER_SIDE_CH);
        assert chars[k + 1] == r.value;
        r
      else r
  }

  /** Identifying a discovered peripheral: the side characteristic of a tracker, or `None` on any failure. */
  function ProbeTracker(c: Candidate): (r: Option<Characteristic>)
    ensures r.Some? <==>
      c.lookup && c.properties.Ok? && NamedLikeTracker(c.properties.value) && c.connected && c.discovered &&
      exists chr :: chr in c.characteristics && chr.uuid == TRACKER_SIDE_CH
    ensures r.Some? ==> r.value.uuid == TRACKER_SIDE_CH && r.value in c.characteristics
  {
    if !c.lookup || c.properties.Err? || !NamedLikeTracker(c.properties.value) || !c.connected || !c.discovered then None
    else FindSideCharacteristic(c.characteristics)
  }

  /** The manager's own state: the remembered tracker and whether a scan is running. */
  datatype Manager = Manager(trackerId: Option<PeripheralId>, scanning: bool)

  /** The effect of one event: the new state, the states sent, the application calls, and whether the manager fails. */
  datatype Step = Step(next: Manager, sent: seq<State>, calls: seq<AppCall>, fatal: bool)

  /** Outside a failure a tracker is remembered exactly when no scan runs. */
  predicate MgrInv(m: Manager)
  {
    m.trackerId.Some? <==> !m.scanning
  }

  /** The handling of one event by the manager's event loop. */
  function HandleEvent(m: Manager, e: CentralEvent): (r: Step)
    // a remembered tracker makes discoveries no-ops
    ensures e.DeviceDiscovered? && m.trackerId.Some? ==> r == Step(m, [], [], false)
    // a tracker is remembered exactly when every identification step succeeds
    ensures e.DeviceDiscovered? && m.trackerId.None? ==>
      (r.next.trackerId.Some? <==> ProbeTracker(e.candidate).Some?)
    ensures e.DeviceDiscovered? && m.trackerId.None? && ProbeTracker(e.candidate).None? ==> r == Step(m, [], [], false)
    ensures e.DeviceDiscovered? && m.trackerId.None? && ProbeTracker(e.candidate).Some? ==>
      && r.next.trackerId == Some(e.id)
      && r.sent == [Connected(Peripheral(e.id), ProbeTracker(e.candidate).value)]
      && r.calls == [SetConnected(true)]
      && (r.fatal <==> !e.stopScanOk)
      && (!r.fatal ==> !r.next.scanning)
    // a disconnect of the remembered tracker forgets it and restarts the scan if it was stopped
    ensures e.DeviceDisconnected? && m.trackerId == Some(e.id) ==>
      && r.next.trackerId.None?
      && r.sent == [Connecting]
      && r.calls == [SetConnected(false)]
      && (r.fatal <==> !m.scanning && !e.startScanOk)
      && (!r.fatal ==> r.next.scanning)
    // any other disconnect, and every other event, changes nothing
    ensures e.DeviceDisconnected? && m.trackerId != Some(e.id) ==> r == Step(m, [], [], false)
    ensures !e.DeviceDiscovered? && !e.DeviceDisconnected? ==> r == Step(m, [], [], false)
  {
    match e
    case DeviceDiscovered(id, candidate, stopScanOk) =>
      if m.trackerId.Some? then Step(m, [], [], false)
      else
        (match ProbeTracker(candidate)
         case None => Step(m, [], [], false)
         case Some(chr) =>
           Step(Manager(Some(id), if stopScanOk then false else m.scanning),
                [Connected(Peripheral(id), chr)], [SetConnected(true)], !stopScanOk))
    case DeviceDisconnected(id, startScanOk) =>
      if m.trackerId != Some(id) then Step(m, [], [], false)
      else if m.scanning then Step(Manager(None, true), [Connecting], [SetConnected(false)], false)
      else Step(Manager(None, startScanOk), [Connecting], [SetConnected(false)], !startScanOk)
    case _ => Step(m, [], [], false)
  }

  /** The manager's invariant holds after every event that does not end it. */
  lemma HandleEventKeepsInv(m: Manager, e: CentralEvent)
    requires MgrInv(m)
    ensures !HandleEvent(m, e).fatal ==> MgrInv(HandleEvent(m, e).next)
    ensures e.DeviceDisconnected? && m.trackerId == Some(e.id) ==> (HandleEvent(m, e).fatal <==> !e.startScanOk)
  {
  }

  /**
   * How a `create_conn_mgr` call ends: it returns `Err` or `Ok(())`, or it is
   * still waiting for the next event of a stream that has not ended, and so
   * has not returned.
   */
  datatype ConnMgrExit = MgrErr | MgrOk | MgrRunning

  /** The trace of a run of the event loop: how it ends, the states sent and the application calls. */
  datatype Trace = Trace(exit: ConnMgrExit, sent: seq<State>, calls: seq<AppCall>)

  /**
   * The event loop over the events the stream yields; `ends` tells whether
   * the stream then ends (the loop returns `Ok`) or stays open (the loop
   * keeps waiting).
   */
  function RunEvents(m: Manager, events: seq<CentralEvent>, ends: bool): Trace
    decreases |events|
  {
    if events == [] then Trace(if ends then MgrOk else MgrRunning, [], [])
    else
      var step := HandleEvent(m, events[0]);
      if step.fatal then Trace(MgrErr, step.sent, step.calls)
      else
        var rest := RunEvents(step.next, events[1..], ends);
        Trace(rest.exit, step.sent + rest.sent, step.calls + rest.calls)
  }

  /** The event loop returns `Ok` only when the stream ends, and keeps waiting only while it stays open. */
  lemma {:induction false} RunEventsExit(m: Manager, events: seq<CentralEvent>, ends: bool)
    ensures RunEvents(m, events, ends).exit == MgrOk ==> ends
    ensures RunEvents(m, events, ends).exit == MgrRunning ==> !ends
    decreases |events|
  {
    if events != [] && !HandleEvent(m, events[0]).fatal {
      RunEventsExit(HandleEvent(m, events[0]).next, events[1..], ends);
    }
  }

  /**
   * The outcomes of the platform calls made before the event loop, and
   * whether the event stream ends after the events it yields.
   */
  datatype Setup = Setup(managerOk: bool, adapters: Probe<nat>, eventsOk: bool, startScanOk: bool, streamEnds: bool)

  /** A whole `create_conn_mgr` call: find an adapter, report `Connecting`, subscribe to events, scan, loop. */
  function CreateConnMgrSpec(setup: Setup, events: seq<CentralEvent>): (t: Trace)
  {
    if !setup.managerOk || setup.adapters.Err? then Trace(MgrErr, [], [])
    else if setup.adapters.value == 0 then Trace(MgrOk, [Stopping], [])
    else if !setup.eventsOk || !setup.startScanOk then Trace(MgrErr, [Connecting], [])
    else
      var t := RunEvents(Manager(None, true), events, setup.streamEnds);
      Trace(t.exit, [Connecting] + t.sent, t.calls)
  }

  /**
   * The states sent alternate between `Connected` (to a side characteristic)
   * and `Connecting`, beginning with `Connected` when no tracker is
   * remembered, and each is matched by the application call that sets the
   * connected flag accordingly.
   */
  predicate Alternates(tracked: bool, t: Trace)
  {
    && |t.calls| == |t.sent|
    && (forall k :: 0 <= k < |t.sent| ==>
          (t.sent[k].Connected? || t.sent[k] == Connecting)
          && (t.sent[k].Connected? <==> (k % 2 == 0) != tracked)
          && (t.sent[k].Connected? ==> t.sent[k].chr.uuid == TRACKER_SIDE_CH))
    && (forall k :: 0 <= k < |t.calls| ==> t.calls[k] == SetConnected(t.sent[k].Connected?))
  }

  /** One reported change in front of an alternating trace of the opposite parity. */
  lemma AlternatesCons(tracked: bool, x: State, rest: Trace)
    requires x.Connected? || x == Connecting
    requires x.Connected? <==> !tracked
    requires x.Connected? ==> x.chr.uuid == TRACKER_SIDE_CH
    requires Alternates(!tracked, rest)
    ensures Alternates(tracked, Trace(rest.exit, [x] + rest.sent, [SetConnected(x.Connected?)] + rest.calls))
  {
    var t := Trace(rest.exit, [x] + rest.sent, [SetConnected(x.Connected?)] + rest.calls);
    forall k | 1 <= k < |t.sent|
      ensures t.sent[k] == rest.sent[k - 1] && t.calls[k] == rest.calls[k - 1]
    {
    }
  }

  lemma {:induction false} RunEventsAlternates(m: Manager, events: seq<CentralEvent>, ends: bool)
    requires MgrInv(m)
    ensures Alternates(m.trackerId.Some?, RunEvents(m, events, ends))
    decreases |events|
  {
    if events != [] {
      var step := HandleEvent(m, events[0]);
      HandleEventKeepsInv(m, events[0]);
      if step.fatal {
        assert |step.sent| == 1;
      } else {
        RunEventsAlternates(step.next, events[1..], ends);
        var rest := RunEvents(step.next, events[1..], ends);
        if step.sent == [] {
          assert step.calls == [];
          assert step.sent + rest.sent == rest.sent && step.calls + rest.calls == rest.calls;
        } else {
          AlternatesCons(m.trackerId.Some?, step.sent[0], rest);
        }
      }
    }
  }

  /** A run that found an adapter reports `Connecting` first and then alternates. */
  lemma CreateConnMgrAlternates(setup: Setup, events: seq<CentralEvent>)
    requires setup.managerOk && setup.adapters.Ok? && setup.adapters.value > 0
    ensures var t := CreateConnMgrSpec(setup, events);
      |t.sent| >= 1 && t.sent[0] == Connecting && Alternates(false, Trace(t.exit, t.sent[1..], t.calls))
  {
    if setup.eventsOk && setup.startScanOk {
      RunEventsAlternates(Manager(None, true), events, setup.streamEnds);
      var t := CreateConnMgrSpec(setup, events);
      assert t.sent[1..] == RunEvents(Manager(None, true), events, setup.streamEnds).sent;
    }
  }

  /** The body of the event loop on the locals `tracker_id` and `scanning`. */
  method OnEvent(trackerId: Option<PeripheralId>, scanning: bool, e: CentralEvent)
    returns (trackerId': Option<PeripheralId>, scanning': bool, sent: seq<State>, calls: seq<AppCall>, fatal: bool)
    ensures Step(Manager(trackerId', scanning'), sent, calls, fatal) == HandleEvent(Manager(trackerId, scanning), e)
  {
    trackerId', scanning', sent, calls, fatal := trackerId, scanning, [], [], false;
    match e {
      case DeviceDiscovered(id, candidate, stopScanOk) =>
        if trackerId.None? {
          var chr := ProbeTracker(candidate);
          if chr.Some? {
            trackerId' := Some(id);
            sent := [Connected(Peripheral(id), chr.value)];
            calls := [SetConnected(true)];
            if !stopScanOk {
              fatal := true;
              return;
            }
            scanning' := false;
          }
        }
      case DeviceDisconnected(id, startScanOk) =>
        if trackerId == Some(id) {
          trackerId' := None;
          sent := [Connecting];
          calls := [SetConnected(false)];
          if !scanning {
            if !startScanOk {
              fatal := true;
              return;
            }
            scanning' := true;
          }
        }
      case _ =>
    }
  }

  /** The event loop, unfolded at position `i`. */
  lemma RunEventsAt(m: Manager, events: seq<CentralEvent>, ends: bool, i: nat)
    requires i < |events|
    ensures var step := HandleEvent(m, events[i]);
      RunEvents(m, events[i..], ends) ==
        if step.fatal then Trace(MgrErr, step.sent, step.calls)
        else Trace(RunEvents(step.next, events[i + 1..], ends).exit,
                   step.sent + RunEvents(step.next, events[i + 1..], ends).sent,
                   step.calls + RunEvents(step.next, events[i + 1..], ends).calls)
  {
    assert events[i..][0] == events[i] && events[i..][1..] == events[i + 1..];
  }

  /** The event loop of `create_conn_mgr`, from no remembered tracker and a running scan. */
  method EventLoop(events: seq<CentralEvent>, ends: bool) returns (exit: ConnMgrExit, sent: seq<State>, calls: seq<AppCall>)
    ensures Trace(exit, sent, calls) == RunEvents(Manager(None, true), events, ends)
  {
    var trackerId: Option<PeripheralId> := None;
    var scanning := true;
    sent, calls := [], [];
    var i := 0;
    ghost var whole := RunEvents(Manager(None, true), events, ends);
    assert events[0..] == events && [] + whole.sent == whole.sent && [] + whole.calls == whole.calls;
    while i < |events|
      invariant i <= |events|
      invariant whole == Trace(RunEvents(Manager(trackerId, scanning), events[i..], ends).exit,
        sent + RunEvents(Manager(trackerId, scanning), events[i..], ends).sent,
        calls + RunEvents(Manager(trackerId, scanning), events[i..], ends).calls)
    {
      RunEventsAt(Manager(trackerId, scanning), events, ends, i);
      var s, c, fatal;
      trackerId, scanning, s, c, fatal := OnEvent(trackerId, scanning, events[i]);
      if fatal {
        return MgrErr, sent + s, calls + c;
      }
      ghost var rest := RunEvents(Manager(trackerId, scanning), events[i + 1..], ends);
      assert sent + (s + rest.sent) == (sent + s) + rest.sent;
      assert calls + (c + rest.calls) == (calls + c) + rest.calls;
      sent, calls := sent + s, calls + c;
      i := i + 1;
    }
    assert events[i..] == [];
    assert sent + [] == sent && calls + [] == calls;
    exit := if ends then MgrOk else MgrRunning;
  }

  /**
   * `create_conn_mgr`: the platform outcomes of the set-up and the events
   * the stream yields before it ends determine how it returns, the states
   * it sends to the subscriber and the calls it makes on the application.
   */
  method CreateConnMgr(setup: Setup, events: seq<CentralEvent>) returns (exit: ConnMgrExit, sent: seq<State>, calls: seq<AppCall>)
    ensures Trace(exit, sent, calls) == CreateConnMgrSpec(setup, events)
    ensures exit == MgrRunning ==>
      setup.managerOk && setup.adapters.Ok? && setup.adapters.value > 0 && setup.eventsOk && setup.startScanOk && !setup.streamEnds
    ensures setup.managerOk && setup.adapters == Ok(0) ==> sent == [Stopping] && calls == []
    ensures setup.managerOk && setup.adapters.Ok? && setup.adapters.value > 0 ==>
      |sent| >= 1 && sent[0] == Connecting && Alternates(false, Trace(exit, sent[1..], calls))
  {
    if !setup.managerOk || setup.adapters.Err? {
      return MgrErr, [], [];
    }
    if setup.adapters.value == 0 {
      return MgrOk, [Stopping], [];
    }
    CreateConnMgrAlternates(setup, events);
    if !setup.eventsOk || !setup.startScanOk {
      return MgrErr, [Connecting], [];
    }
    var more;
    exit, more, calls := EventLoop(events, setup.streamEnds);
    RunEventsExit(Manager(None, true), events, setup.streamEnds);
    sent := [Connecting] + more;
    assert sent[1..] == more;
  }
}
