# ydnc-time core in Dafny

ydnc-time is a terminal time tracker. The day is a list of time logs. Each
log has a start, an optional end (it is open while it has none) and a
category. The user switches category with the digit keys. A Timeular
tracker can do the same over Bluetooth LE: it is an eight-sided die, and
the face lying up (1 to 8) picks the category.

This project models the sequential decision logic of that program and
proves properties of it:

- `TimeLogs` (`timelog.dfy`, from `src/lib.rs`). `TimeLog::is_open`.
  The in-place list updates `close_entry_if_open` and `start_entry`, as
  methods of an `App` class. The key dispatch of the main loop and its
  autosave counter, as `App.Run` over a finite sequence of loop turns.
  The invariant "only the last entry may be open" is proved for
  `close_entry_if_open`, for a close followed by a start (the digit keys),
  for the dispatch of every key, for any sequence of turns and for
  `App.Run`. `start_entry` on its own does not keep it: it keeps the
  invariant only when the last entry was closed first, which the digit
  keys always do.
- `EditableLists` (`editable_list.dfy`, from `src/ui/editable_list.rs`).
  The `EditableList` class with:
  - wrap-around navigation;
  - edit, save and delete;
  - the three insert operations.

  Each method states its whole new state, and so what stays unchanged.
- `Stats` (`stats.dfy`, from `src/stats.rs`). `TimeStatsBuilder` as a
  class whose `Add` updates it in place. `compute_stats` allocates the
  eight builders and tallies the logs into them. Every count, total and
  mean is proved against recursive reference definitions.
- `Utils` (`utils.dfy`, from `src/utils.rs`). `adjust_datetime_digit`,
  which overwrites one digit of HH:MM:SS with clamping, and
  `datetime_with_zeroed_time`.
- The Bluetooth side of `src/bluetooth.rs`, split into five modules:
  - `BluetoothTypes` (`bt_types.dfy`): shared types, and the open entry
    number after a sequence of calls on the application.
  - `BluetoothSubscribe` (`bt_subscribe.dfy`): the side-byte rules,
    `ensure_connection` and `subscribe`.
  - `BluetoothManager` (`bt_manager.dfy`): `create_conn_mgr` and its
    `tracker_id`/`scanning` event handling.
  - `BluetoothCoordinator` (`bt_coordinator.dfy`): `start_subscriber`'s
    two-phase handling of state messages.
  - `BluetoothRetry` (`bt_retry.dfy`): the five-attempt wrappers
    `start_conn_mgr` and `spawn_sub_task`.

Every platform call is an input. A call whose value the code uses has
type `Probe<T>`: either `Ok(value)` or `Err`. These are `adapters()` in
`create_conn_mgr` (its value is the number of adapters), and the
properties read, the initial side read and the connection checks, which
run under a timeout. For those `Err` stands for a timeout and a platform
error alike. A call whose only outcome that matters is success or failure
is a plain `bool`. Under a timeout, `true` means it succeeded in time:
the peripheral lookup, `connect`, `discover_services`, the reconnect in
`ensure_connection`, `subscribe` and `notifications`. The calls of
`create_conn_mgr` that have no timeout are `Manager::new`, `events`,
`start_scan` and `stop_scan` (`Setup.managerOk`, `Setup.eventsOk`,
`Setup.startScanOk`, `DeviceDiscovered.stopScanOk` and
`DeviceDisconnected.startScanOk`). For these, `true` means the call
returned `Ok` and `false` that it returned `Err`; a call that never
returns cannot be expressed. Whether a stream of events ends after the
events it yields is an input too: a connection manager whose event stream
stays open never returns. The application state is seen through the
calls made on it (`StartEntry(n)`, `CloseEntryIfOpen(now)`,
`SetConnected(b)`), together with the number of the open entry. Each loop
of the async code is a `method` over its locals (`tracker_id`, `scanning`,
`handler`, `i`), with `while` loops and invariants. Each is proved equal
to a pure specification function: one step function plus a fold over the
inputs. The lemmas state the properties of those specification
functions.

The digit keys of `src/lib.rs` start entries labelled by a `char`. The
Bluetooth code and `src/stats.rs` use a later version of the
application, where an entry carries a category `number`. That version of
`App` (`open_entry_number`, `start_entry(n)`, `lock_and_set_connected`)
is not part of this model. For that reason `TimeLogs` and `Stats` each
define their own `TimeLog`, and the Bluetooth modules track only the open
entry number.

## Model

| member | source | states |
|---|---|---|
| Utils.DecimalDigit | src/utils.rs:4 | A character has a decimal value exactly when it is '0'..'9'. That value is the character's code minus the code of '0', so it is below 10. |
| Utils.Refused | src/utils.rs:5-7 | The guard that refuses a digit: a tens digit of the hour above 2, or any tens digit above 5. |
| Utils.FieldAt | src/utils.rs:9-13 | Positions 1-2 read the hour, 3-4 the minute and 5-6 the second. |
| Utils.LimitAt | src/utils.rs:16-19 | The clamp limit is 23 for the hour positions and 59 for the others. |
| Utils.WithFieldAt | src/utils.rs:31-35 | Setting the field that `pos` addresses changes that field only: the other two fields, the date and the nanoseconds are kept. |
| Utils.WithTens | src/utils.rs:21-27 | For odd positions, the new value has the typed digit as its tens digit and keeps the old ones digit. |
| Utils.WithOnes | src/utils.rs:21-27 | For even positions, the new value has the typed digit as its ones digit and keeps the higher digits. |
| Utils.AdjustDigit | src/utils.rs:3-39 | The result is `None` exactly for a non-digit, for `pos == 1` with digit ≥ 3, or for an odd `pos` with digit ≥ 6. Otherwise `pos` is in 1..6 and only the addressed field changes. That field becomes `min(tens replaced, limit)` for odd `pos` and `min(ones replaced, limit)` for even `pos`. The limit is 23 for the hour and 59 otherwise. The precondition excludes only the calls that reach the `panic!`. |
| Utils.AdjustKeepsValid | src/utils.rs:16-29 | Clamping makes every successful edit of a valid time yield a valid time (hour ≤ 23, minute and second ≤ 59). |
| Utils.AdjustSameDigitIsIdentity | src/utils.rs:21-29 | Typing the digit a valid field already has at `pos` returns the same date-time. |
| Utils.ZeroedTime | src/utils.rs:48-57 | Zeroing keeps the calendar day and sets hour, minute, second and nanosecond to 0. |
| Utils.ZeroedTimeStartsTheDay | src/utils.rs:48-57 | The zeroed time is no later than any time of the same day. It equals one exactly when that time is midnight. |
| TimeLogs.CloseLast | src/lib.rs:174-179 | The length and every entry but the last are kept. An open last entry gets `end = now`. The log is unchanged exactly when it is empty or its last entry is closed. Afterwards the last entry is never open. |
| TimeLogs.Started | src/lib.rs:181-187 | Exactly one entry is appended after the unchanged old entries. It is open, starts at `now` and carries the given label. |
| TimeLogs.TimeLog.IsOpen | src/lib.rs:41-43 | An entry is open exactly when it has no end. |
| TimeLogs.OnlyLastOpen | src/lib.rs:133-143 | The invariant of the key handling: no entry before the last one is open. |
| TimeLogs.CloseLastIdempotent | src/lib.rs:176 | Closing twice equals closing once, whatever the second timestamp. |
| TimeLogs.CloseLastClosesAll | src/lib.rs:174-179 | If at most the last entry is open, closing leaves no entry open. |
| TimeLogs.DigitKeyKeepsOnlyLastOpen | src/lib.rs:133-139 | After close-then-start, the previously open entry ends at `now` and the new last entry is the only open one. Earlier entries are unchanged. |
| TimeLogs.Dispatch | src/lib.rs:133-149 | A digit 1-9 adds exactly one entry. '0' and Esc keep the length. No earlier entry changes. Any other key, a resize or a timed-out poll leaves the log unchanged. |
| TimeLogs.DispatchKeepsOnlyLastOpen | src/lib.rs:133-143 | A digit key, '0' and Esc keep "only the last entry may be open". After '0' or Esc nothing is open, and after a digit the new entry is open. |
| TimeLogs.Replay | src/lib.rs:126-163 | The reference fold: the log after dispatching every turn in order. `App.Run` is proved equal to it. |
| TimeLogs.ReplayKeepsOnlyLastOpen | src/lib.rs:126-163 | Any sequence of loop turns keeps "only the last entry may be open". |
| TimeLogs.App.constructor | src/lib.rs:103-107 | `App::default()` starts with an empty log and no message. |
| TimeLogs.App.CloseEntryIfOpen | src/lib.rs:174-179 | The in-place update leaves `today == CloseLast(old today, now)`, and the message is untouched. |
| TimeLogs.App.StartEntry | src/lib.rs:181-187 | The push leaves `today == Started(old today, now, label)`, and the message is untouched. |
| TimeLogs.App.Run | src/lib.rs:110-172 | The loop stops exactly at the first 'q'. The counter is `turns mod 61`, so it stays within 0..=60. An autosave happens every 61st turn, with message "Autosaving..." on those turns and no message on the others. Autosave `j` holds the log as it stood after the first `(j + 1) * 61` turns (`Autosaved`). The log equals the fold of the dispatch over the turns. On quit, the open entry is closed, the message is "Saving time log..." and the final log is saved. "Only the last entry open" is kept, and on quit nothing is open. |
| TimeLogs.App.HandleKey | src/lib.rs:133-149 | One key dispatch in place: `today` becomes `Dispatch(old today, turn)`, so a digit closes then starts, '0' and Esc close, anything else changes nothing. The message is untouched. |
| TimeLogs.App.TurnLoop | src/lib.rs:126-163 | The loop up to the first 'q' or the end of the input. The log is the fold of the dispatch over the turns taken, the counter is `turns mod 61`, and there is one autosave per completed period of 61 turns, each holding the log after that period. |
| TimeLogs.AutosavedLater | src/lib.rs:155-161 | A turn that does not save keeps every earlier snapshot valid. |
| TimeLogs.AutosavedPush | src/lib.rs:155-159 | The turn on which the counter reaches 60 appends the log after that turn, which is the snapshot for the period it completes. |
| EditableLists.Inserted | src/ui/editable_list.rs:151 | `Vec::insert`: the length grows by one, the item sits at `i`, earlier items are kept and later ones shift up by one. |
| EditableLists.Removed | src/ui/editable_list.rs:131 | `Vec::remove`: the length shrinks by one, earlier items are kept and later ones shift down by one. |
| EditableLists.RemoveUndoesInsert | src/ui/editable_list.rs:128-153 | Removing at the index just inserted at gives the original list. |
| EditableLists.PrevIndex | src/ui/editable_list.rs:62-70 | A selection s > 0 moves to s-1. Selection 0 or none wraps to len-1. |
| EditableLists.NextIndex | src/ui/editable_list.rs:72-80 | Selection len-1 or none wraps to 0. Any other s moves to s+1. |
| EditableLists.NavigationStaysInRange | src/ui/editable_list.rs:62-80 | On a non-empty list both moves land in [0, len). |
| EditableLists.NextPrevRoundTrip | src/ui/editable_list.rs:62-80 | From a valid selection, next then prev restores it, and so does prev then next. |
| EditableLists.EditableList.constructor | src/ui/editable_list.rs:50-58 | The list keeps the given options. Nothing is selected, nothing is being edited, caps lock is off and the input is the default item. |
| EditableLists.EditableList.SelectPrev | src/ui/editable_list.rs:62-70 | The selection becomes `PrevIndex` and everything else is unchanged. The precondition is exactly what avoids the `len() - 1` underflow. |
| EditableLists.EditableList.SelectNext | src/ui/editable_list.rs:72-80 | The selection becomes `NextIndex` and everything else is unchanged. It requires a non-empty list, because `len() - 1` is always computed. |
| EditableLists.EditableList.SelectedIsLast | src/ui/editable_list.rs:82-85 | True exactly when `select_next` would wrap to the top, which includes having no selection. |
| EditableLists.EditableList.StartEditing | src/ui/editable_list.rs:88-104 | Editing starts. An existing selection is kept, otherwise `default_item` or 0 is selected. The input becomes the selected option and the options are unchanged. It requires that index to be in bounds. |
| EditableLists.EditableList.SaveEdit | src/ui/editable_list.rs:108-124 | Editing ends. The old input is written over the selected option only, the input is reset to the default, and the index and value are returned. The selection is kept. |
| EditableLists.EditableList.DeleteSelected | src/ui/editable_list.rs:128-144 | With selection i: option i is removed, the selection becomes i-1 (or none when i = 0), the input is reset and `Some(i)` is returned. With no selection nothing changes and `None` is returned. |
| EditableLists.EditableList.InsertAtSelection | src/ui/editable_list.rs:148-153 | The item is inserted at the selected index, or at 0, so it goes before the selected item. The selection is unchanged and the index is returned. |
| EditableLists.EditableList.InsertDefaultAtSelection | src/ui/editable_list.rs:158-162 | Same as `InsertAtSelection` with the default item, which is also returned. |
| EditableLists.EditableList.InsertAtSelectionWith | src/ui/editable_list.rs:168-180 | The inserted value is `f` applied to the selected option, or to nothing, and it is inserted at the selection. |
| Stats.DefaultStats | src/stats.rs:11-19 | The placeholder has task number 0 and zero count, total and mean. |
| Stats.LogDuration | src/stats.rs:42 | A closed log contributes end − start, an open one nothing. |
| Stats.TruncDiv | src/stats.rs:53 | The mean is the quotient truncated toward zero. |
| Stats.LoggedCategoryIsCounted | src/stats.rs:53 | A category that occurs in the logs has a positive count, so `build` does not divide by zero. |
| Stats.CountsCoverAllLogs | src/stats.rs:73-75 | With every number in 1..=8, the eight counts sum to the number of logs. |
| Stats.OutOfRangeLogIsUncounted | src/stats.rs:74 | A log outside 1..=8 belongs to no bucket. This is why the precondition on numbers is needed. |
| Stats.CountsAtMostLength | src/stats.rs:73-75 | The buckets never hold more logs than there are. |
| Stats.TimeStatsBuilder.constructor | src/stats.rs:30-36 | A new builder has the given number, count 0 and total 0. |
| Stats.TimeStatsBuilder.Add | src/stats.rs:38-44 | The count grows by exactly one, the log's duration is added to the total, and the number is unchanged. |
| Stats.TimeStatsBuilder.Build | src/stats.rs:48-55 | The stats copy the number, count and total, and the mean is total ÷ count, truncated. It requires count > 0. |
| Stats.BuildAll | src/stats.rs:77 | The eight results are the builds of the eight builders, in order. |
| Stats.Tally | src/stats.rs:73-75 | After the loop, builder k holds the count and total of category k+1 over all logs. |
| Stats.ComputeStats | src/stats.rs:59-78 | Eight entries. Entry k has task number k+1, the count and total of category k+1, and the truncated mean. None equals the default placeholder. The counts sum to the number of logs. It requires numbers in 1..=8 and every category logged. |
| BluetoothSubscribe.FaceCalls | src/bluetooth.rs:267-274 | A face starts its entry exactly when that entry is not already the open one. Otherwise nothing happens. |
| BluetoothSubscribe.InitialReadCalls | src/bluetooth.rs:235-248 | The initial read makes at most one `start_entry`, never a close. It makes one exactly for a face that differs from the open entry. Afterwards the open entry is that face, or unchanged for an edge or empty value. |
| BluetoothSubscribe.NotificationCalls | src/bluetooth.rs:263-281 | An empty payload does nothing. A face follows the same rule as the initial read. An edge (0 or above 8) makes exactly one `close_entry_if_open(now)`. Afterwards the open entry is the face, or none after an edge. |
| BluetoothSubscribe.EnsureConnection | src/bluetooth.rs:202-217 | `Ok(true)` exactly when still connected, or reconnected and then found connected. `Ok(false)` exactly when the reconnect succeeded but the re-check says disconnected. Every failed call gives `Err`. |
| BluetoothTypes.OpenAfter | src/bluetooth.rs:267-278 | The reference for the open entry number after a sequence of calls: `start_entry(n)` opens `n`, `close_entry_if_open` leaves none open, and `set_connected` changes nothing. |
| BluetoothTypes.NoRedundantStart | src/bluetooth.rs:267-274 | The property the face rule promises: no `start_entry(n)` while entry `n` is already the open one. |
| BluetoothSubscribe.Listen | src/bluetooth.rs:250-283 | The reference for the notification loop. A liveness check that errs ends it with `Err`, and one that finds the tracker gone ends it with `Ok`. The end of the stream gives `Ok`. Each notification makes the calls of the side rule, from the open entry the previous ones left. Inputs that run out mean still listening. |
| BluetoothSubscribe.SubscribeSpec | src/bluetooth.rs:219-286 | The reference for a whole session. The liveness check comes first (an error gives `Err`, the tracker gone gives `Ok`). Then the initial read, the subscription and the notification stream, each of which gives `Err` if it fails. Then the initial side rule, then `Listen`. |
| BluetoothSubscribe.ListenCallsAreSound | src/bluetooth.rs:250-283 | The notification loop never starts the entry that is already open. It only starts faces 1..8 or closes. |
| BluetoothSubscribe.RepeatedFaceStartsOnce | src/bluetooth.rs:267-274 | A stream that keeps reporting the same face starts that entry at most once, and not at all if it is already open. |
| BluetoothSubscribe.EdgeClosesOnce | src/bluetooth.rs:275-278 | An edge notification first makes one close at its timestamp, leaving nothing open. |
| BluetoothSubscribe.SubscribeCallsAreSound | src/bluetooth.rs:219-286 | A whole session never repeats a start of the open entry. |
| BluetoothSubscribe.HandleNotification | src/bluetooth.rs:263-281 | The notification arm makes the calls of the side rule and tracks the open entry after them. |
| BluetoothSubscribe.ListenLoop | src/bluetooth.rs:250-283 | The loop ends as `Listen` does: `Err` on a failed liveness check, `Ok` on a lost connection or the end of the stream. It makes the calls `Listen` lists. |
| BluetoothSubscribe.Subscribe | src/bluetooth.rs:219-286 | It equals `SubscribeSpec`: check, read, subscribe, initial side, then the loop, with each failure mapped to `Err` and a lost connection to `Ok`. No start repeats the open entry, and only faces 1..8 are started. |
| BluetoothManager.Contains | src/bluetooth.rs:105 | `str::contains` holds exactly when the substring occurs at some index. |
| BluetoothManager.FindSideCharacteristic | src/bluetooth.rs:118-119 | It finds a characteristic exactly when one has the side uuid, and returns the first such one. |
| BluetoothManager.ProbeTracker | src/bluetooth.rs:91-124 | A tracker is identified exactly when the lookup, the properties read, a name containing "Timeular", connect and discovery all succeed and a side characteristic exists. The characteristic returned has the side uuid. |
| BluetoothManager.HandleEvent | src/bluetooth.rs:78-174 | With a remembered tracker, discoveries do nothing. Otherwise a tracker is remembered exactly when identification succeeds: `Connected` is sent, connected is set to true, and scanning stops, or the manager fails if stopping the scan fails. A disconnect of the remembered id forgets it, sends `Connecting`, sets connected to false, and restarts the scan only if it was stopped. Every other event changes nothing. |
| BluetoothManager.HandleEventKeepsInv | src/bluetooth.rs:76-155 | "A tracker is remembered exactly when no scan runs" holds after every non-fatal event. So a tracker's disconnect always restarts the scan. |
| BluetoothManager.RunEvents | src/bluetooth.rs:76-180 | The reference for the event loop. It folds `HandleEvent` and stops with `Err` at the first fatal event. Otherwise it returns `Ok` when the stream ends and is still running when it stays open. |
| BluetoothManager.RunEventsExit | src/bluetooth.rs:76-180 | The loop returns `Ok` only when the stream has ended, and it is still running only when the stream stays open. |
| BluetoothManager.CreateConnMgrSpec | src/bluetooth.rs:55-181 | The reference for a whole `create_conn_mgr` call: the set-up failures, the no-adapter `Stopping`, then `Connecting` and the event loop. |
| BluetoothManager.RunEventsAlternates | src/bluetooth.rs:77-175 | The states sent alternate between `Connected` (always to the side characteristic) and `Connecting`. Each one is matched by the call that sets the connected flag the same way. |
| BluetoothManager.CreateConnMgrAlternates | src/bluetooth.rs:55-181 | Once an adapter is found, `Connecting` is sent first, then the alternation follows. |
| BluetoothManager.OnEvent | src/bluetooth.rs:78-174 | The loop body updates `tracker_id` and `scanning` as `HandleEvent` specifies. |
| BluetoothManager.EventLoop | src/bluetooth.rs:76-175 | The event loop equals the fold of `HandleEvent`: it ends with `Err` at the first fatal event and with `Ok` when the stream ends. |
| BluetoothManager.CreateConnMgr | src/bluetooth.rs:55-181 | It equals `CreateConnMgrSpec`. A failed manager or adapter lookup gives `Err`. No adapter sends `Stopping` and returns `Ok`. Otherwise it sends `Connecting`, fails if events or scanning fail, and then runs the loop with the alternation property. It stays running only in the loop, on a stream that has not ended. |
| BluetoothCoordinator.CoordStep | src/bluetooth.rs:311-365 | During initialisation, `Stopping` ends with nothing spawned, the first `Connected` spawns one handler and leaves the phase, and `Starting`/`Connecting` are ignored. In the main phase, `Connecting`/`Starting` abort and clear the handler, and `Connected` spawns a new handler and aborts the previous one. `Stopping` aborts the handler, disconnects its tracker and ends. |
| BluetoothCoordinator.CoordRun | src/bluetooth.rs:311-365 | The reference for `start_subscriber`. It folds `CoordStep` over the messages received and reads nothing after the return on `Stopping`. |
| BluetoothCoordinator.CoordStepKeepsInv | src/bluetooth.rs:335-364 | Each message keeps "the live tasks are exactly the current handler's". |
| BluetoothCoordinator.CoordRunKeepsInv | src/bluetooth.rs:311-365 | The same holds after any sequence of messages. |
| BluetoothCoordinator.AtMostOneLiveHandler | src/bluetooth.rs:311-365 | After any messages at most one spawned handler is not aborted. After `Stopping` none is. Every tracker disconnected is the tracker of a spawned handler. |
| BluetoothCoordinator.StoppingDuringInitSpawnsNothing | src/bluetooth.rs:315-320 | A `Stopping` preceded only by `Starting`/`Connecting` ends the coordinator with no action at all. |
| BluetoothCoordinator.FirstConnectedSpawnsOnce | src/bluetooth.rs:315-325 | The first `Connected` spawns exactly one handler, task 0 for its tracker, and the rest runs in the main phase. |
| BluetoothCoordinator.HandleMessage | src/bluetooth.rs:336-363 | The main loop body's `take`/`replace` of `handler` performs exactly `CoordStep`. |
| BluetoothCoordinator.MainPhase | src/bluetooth.rs:335-364 | The second loop equals the fold of `CoordStep` in the main phase. |
| BluetoothCoordinator.StartSubscriber | src/bluetooth.rs:311-365 | The actions equal `CoordRun`'s. It returns on `Stopping` exactly when `CoordRun` reaches `Done`. At most one handler is live, and none after `Stopping`. Only trackers handlers were spawned for are disconnected. |
| BluetoothRetry.NoticeFor | src/bluetooth.rs:187-191 | "Give up" is chosen exactly when the decremented counter is 0. |
| BluetoothRetry.ConnMgrAttempts | src/bluetooth.rs:183-200 | At most `n` runs. There are fewer only when the last run is still running, and no earlier one is. The k-th recorded result is how the k-th run of the connection manager ends. |
| BluetoothRetry.RunningStaysRunning | src/bluetooth.rs:183-200 | Once a run of the connection manager never returns, no later run starts. |
| BluetoothRetry.CreateConnMgrConnectsSide | src/bluetooth.rs:117-127 | Every `Connected` a run sends names the side characteristic. |
| BluetoothRetry.AttemptsConnectSide | src/bluetooth.rs:183-200 | The same holds across all retries. |
| BluetoothRetry.StartConnMgr | src/bluetooth.rs:183-200 | The connection manager runs at least once and at most 5 times, never a 6th. It runs fewer than 5 times only when the last run is still waiting for events. A notice and a sleep follow each run that returns. "Give up" is chosen only on the 5th. Everything sent has the side characteristic. |
| BluetoothRetry.SubTaskRun | src/bluetooth.rs:288-309 | At most `n` attempts. Fewer only if the last one is still listening, and no earlier one is. Each attempt starts from the open entry the previous one left. |
| BluetoothRetry.StuckStaysStuck | src/bluetooth.rs:288-309 | Once an attempt never returns, no later attempt starts. |
| BluetoothRetry.SubTaskNoRedundantStart | src/bluetooth.rs:288-309 | Across all attempts no `start_entry` repeats the open entry. |
| BluetoothRetry.SpawnSubTask | src/bluetooth.rs:288-309 | The subscription handler runs at most 5 times, starting each attempt from the state the previous one left. A notice and a sleep follow each attempt that returns, and "give up" only follows the 5th. |

## Left out

- Utils.AdjustDigit: does not model `with_hour`/`with_minute`/`with_second` returning `None` when the new local time does not map to exactly one instant. That is a time in a daylight-saving gap, or an ambiguous time in the fold when clocks go back. Every in-range field value is accepted, because a date-time here is a date plus wall-clock fields with no time zone.
- Utils.ZeroedTime: does not model the `unwrap` panics that chrono raises when local midnight is not exactly one instant, whether skipped by a time-zone change or repeated in a fold, or near the smallest representable date-time. Time zones are not modelled.
- Stats.TruncDiv: chrono's `Duration / i32` divides seconds and nanoseconds separately. The model divides the whole duration in nanoseconds, truncating toward zero, because durations are integers here.
- Stats.TimeStatsBuilder.Add: the `u16` count is unbounded here, so a 65536th log in one category (which would overflow in Rust) is not modelled.
- BluetoothRetry.SpawnSubTask: its own ensures do not state that no start repeats the open entry across attempts, because that ensures is too costly to prove inside the method. The lemma `BluetoothRetry.SubTaskNoRedundantStart` states it about `SubTaskRun`, and the method's ensures tie the method to `SubTaskRun`.
- BluetoothCoordinator.StartSubscriber: when the channel closes without a `Stopping`, the current handler is left running, as in the source. The model records this as a live task and does not claim that it ends.
- I/O:
  - `save`, `load` and `get_save_file_path` (`src/lib.rs:47-101`) are left out because they use the filesystem, environment variables and RON serialisation. `App.Run` reports each save as the snapshot of the log that would be written, and starts from whatever log it is given.
  - Drawing, and errors from `terminal.draw`, `event::poll` and `event::read`, are terminal I/O. In the model the loop turns never fail.
  - A failed `save` ends `run` early with `Err`, both in the autosave (`src/lib.rs:158`) and on quit (`src/lib.rs:169`). This is not modelled: every save succeeds, so after an autosave `App.Run` always goes on to the next turn.
- Clocks: `Local::now()` becomes a timestamp carried by each input. The close at quit uses the quitting turn's timestamp.
- Concurrency:
  - Tokio task spawning, `JoinHandle::abort`, the mpsc channel, `BluetoothTask::start`/`stop` and panic propagation (`src/bluetooth.rs:367-423`) are the runtime. Tasks are numbered, and an abort marks a number dead.
  - The `Arc<Mutex<App>>` locking. Key presses in the UI that change the open entry between two Bluetooth notifications are not modelled.
- btleplug and the `await_timeout!` macro (`src/bluetooth.rs:28-37`) are foreign platform calls. Each call is a `Probe` or `bool` input. For a call under `await_timeout!`, `Err` or `false` stands for a timeout and an error alike.
  - Each event stream is the finite sequence of events it yields, plus whether it then ends. For the central's stream this is `Setup.streamEnds`. For the notification stream, `StreamEnd` is an event and running out of inputs means still listening.
  - A connection manager run whose stream stays open reports `MgrRunning`. `StartConnMgr` then starts no further run, because the real call never returns.
  - A subscription session whose inputs run out while it is still listening reports `Listening`. `SpawnSubTask` then starts no further attempt, because the real call never returns.
  - The five-second sleeps are counted, not timed. The log messages are reduced to the retry or give-up choice.
- BluetoothManager.CreateConnMgr: the awaits without a timeout (`Manager::new`, `adapters`, `events`, `start_scan` and `stop_scan`, `src/bluetooth.rs:59`, `:60`, `:71`, `:73`, `:131` and `:150`) are assumed to return, with `Ok` or `Err`. Only an event stream that stays open keeps a run from returning.
- BluetoothRetry.StartConnMgr: inherits that assumption. A run that hangs in one of those awaits would report nothing and start no further run, which the model does not represent.
- The later `App` used by `src/bluetooth.rs` and `src/stats.rs` is not part of this model. That version has entries with a `number`, `open_entry_number`, `start_entry(n)` and `lock_and_set_connected`. The Bluetooth modules keep only the open entry number and the calls made.
- Rendering is left out:
  - `duration_to_pixels` and the x-coordinate helpers, which depend on floating-point rounding;
  - `make_today_row` and `format_total_time`;
  - every `draw`/`ui` function, the donut chart and the percentages in `src/ui/stats.rs`;
  - `src/legend.rs`, `src/ui/utils.rs` and `src/ui/settings.rs`.
- The widget state of `EditableList` (`ListState`/`TableState`) is reduced to its selected index. `draw_list`/`draw_table` are rendering.
