/**
 * Types shared by the Bluetooth tracker components (src/bluetooth.rs).
 *
 * Platform objects are reduced to the identities the logic compares, and
 * every bounded platform call (a btleplug call under `await_timeout!`) to a
 * `Probe`: its value, or `Err` for a platform error and a timeout alike.
 * The application state is seen through the calls made on it.
 */
module BluetoothTypes {
  import opened Wrappers

  type byte = b: int | 0 <= b < 256
  type PeripheralId = nat
  type Uuid = nat
  type Timestamp = int

  /** The tracker's "side" characteristic. */
  const TRACKER_SIDE_CH: Uuid := 0xc7e7_0012_c847_11e6_8175_8c89_a55d_403c
  /** The substring a tracker's advertised local name contains. */
  const TRACKER_NAME: string := "Timeular"

  datatype Peripheral = Peripheral(id: PeripheralId)
  datatype Characteristic = Characteristic(uuid: Uuid)

  /** The connection states sent from the connection manager to the subscriber. */
  datatype State = Starting | Stopping | Connecting | Connected(tracker: Peripheral, chr: Characteristic)

  /** The outcome of one bounded platform call: elapsed timeouts and platform errors are both `Err`. */
  datatype Probe<T> = Ok(value: T) | Err

  /** A call on the shared application state. */
  datatype AppCall = StartEntry(number: nat) | CloseEntryIfOpen(now: Timestamp) | SetConnected(connected: bool)

  /** The number of the open entry after one call: `start_entry` opens its number, `close_entry_if_open` closes. */
  function OpenAfterCall(open: Option<nat>, call: AppCall): Option<nat>
  {
    match call
    case StartEntry(n) => Some(n)
    case CloseEntryIfOpen(_) => None
    case SetConnected(_) => open
  }

  /** The number of the open entry after a sequence of calls. */
  function OpenAfter(open: Option<nat>, calls: seq<AppCall>): Option<nat>
    decreases |calls|
  {
    if calls == [] then open else OpenAfter(OpenAfterCall(open, calls[0]), calls[1..])
  }

  lemma {:induction false} OpenAfterAppend(open: Option<nat>, a: seq<AppCall>, b: seq<AppCall>)
    ensures OpenAfter(open, a + b) == OpenAfter(OpenAfter(open, a), b)
    decreases |a|
  {
    if a != [] {
      assert (a + b)[1..] == a[1..] + b;
      OpenAfterAppend(OpenAfterCall(open, a[0]), a[1..], b);
    } else {
      assert a + b == b;
    }
  }

  /** No `start_entry(n)` is issued while entry `n` is already the open one. */
  predicate NoRedundantStart(open: Option<nat>, calls: seq<AppCall>)
    decreases |calls|
  {
    calls == [] ||
    ((calls[0].StartEntry? ==> open != Some(calls[0].number))
     && NoRedundantStart(OpenAfterCall(open, calls[0]), calls[1..]))
  }

  lemma {:induction false} NoRedundantStartAppend(open: Option<nat>, a: seq<AppCall>, b: seq<AppCall>)
    ensures NoRedundantStart(open, a + b) <==> NoRedundantStart(open, a) && NoRedundantStart(OpenAfter(open, a), b)
    decreases |a|
  {
    if a != [] {
      assert (a + b)[1..] == a[1..] + b;
      NoRedundantStartAppend(OpenAfterCall(open, a[0]), a[1..], b);
    } else {
      assert a + b == b;
    }
  }
}
