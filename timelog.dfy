/**
 * The day's time log and the key handling of the main loop (src/lib.rs).
 *
 * A `DateTime<Local>` is an integer timestamp here; `Local::now()` becomes a
 * timestamp carried by each input the loop consumes.
 */
module TimeLogs {
  import opened Wrappers

  type Timestamp = int

  /** One logged span of time; it is open while it has no end. */
  datatype TimeLog = TimeLog(start: Timestamp, end: Option<Timestamp>, labelChar: char) {
    /** `TimeLog::is_open`. */
    predicate IsOpen()
    {
      end.None?
    }
  }

  /** The invariant the key handling keeps: no entry but the last one is open. */
  predicate OnlyLastOpen(log: seq<TimeLog>)
  {
    forall i :: 0 <= i < |log| - 1 ==> !log[i].IsOpen()
  }

  /** No entry at all is open. */
  predicate NoneOpen(log: seq<TimeLog>)
  {
    forall i :: 0 <= i < |log| ==> !log[i].IsOpen()
  }

  /** The log after `close_entry_if_open(now)`. */
  function CloseLast(log: seq<TimeLog>, now: Timestamp): (r: seq<TimeLog>)
    ensures |r| == |log|
    ensures forall i :: 0 <= i < |log| - 1 ==> r[i] == log[i]
    ensures |log| > 0 && log[|log| - 1].IsOpen() ==>
              r[|log| - 1] == log[|log| - 1].(end := Some(now))
    ensures r == log <==> log == [] || !log[|log| - 1].IsOpen()
    ensures |r| > 0 ==> !r[|r| - 1].IsOpen()
  {
    if |log| > 0 && log[|log| - 1].IsOpen() then
      log[|log| - 1 := log[|log| - 1].(end := Some(now))]
    else
      log
  }

  /** The log after `start_entry(now, labelChar)`. */
  function Started(log: seq<TimeLog>, now: Timestamp, labelChar: char): (r: seq<TimeLog>)
    ensures |r| == |log| + 1 && r[..|log|] == log
    ensures r[|log|].IsOpen() && r[|log|].start == now && r[|log|].labelChar == labelChar
  {
    log + [TimeLog(now, None, labelChar)]
  }

  /** Closing twice is closing once, whatever the second timestamp. */
  lemma CloseLastIdempotent(log: seq<TimeLog>, now: Timestamp, later: Timestamp)
    ensures CloseLast(CloseLast(log, now), later) == CloseLast(log, now)
  {
  }

  /** Closing keeps the invariant, and under it leaves no entry open. */
  lemma CloseLastClosesAll(log: seq<TimeLog>, now: Timestamp)
    requires OnlyLastOpen(log)
    ensures NoneOpen(CloseLast(log, now))
  {
    var r := CloseLast(log, now);
    forall i | 0 <= i < |r|
      ensures !r[i].IsOpen()
    {
      if i < |log| - 1 {
        assert r[i] == log[i];
      }
    }
  }

  /**
   * A digit key closes then starts: the previously open entry ends at `now`
   * and the new last entry is the only open one.
   */
  lemma DigitKeyKeepsOnlyLastOpen(log: seq<TimeLog>, now: Timestamp, labelChar: char)
    requires OnlyLastOpen(log)
    ensures var r := Started(CloseLast(log, now), now, labelChar);
      && OnlyLastOpen(r)
      && r[|r| - 1].IsOpen()
      && (forall i :: 0 <= i < |r| - 1 ==> !r[i].IsOpen())
      && (|log| > 0 && log[|log| - 1].IsOpen() ==> r[|log| - 1].end == Some(now))
      && (forall i :: 0 <= i < |log| - 1 ==> r[i] == log[i])
  {
    var c := CloseLast(log, now);
    CloseLastClosesAll(log, now);
    var r := Started(c, now, labelChar);
    assert forall i :: 0 <= i < |c| ==> r[i] == c[i];
  }

  /** A key as the terminal reports it. */
  datatype KeyCode = Char(c: char) | Esc | OtherKey

  /** A terminal event; mouse events are disabled and read as `Other`. */
  datatype Event = Key(code: KeyCode) | Resize | Other

  /** One turn of the main loop: the event polled within 5 s, if any, and the clock at that moment. */
  datatype Tick = Tick(event: Option<Event>, now: Timestamp)

  predicate IsQuit(t: Tick)
  {
    t.event == Some(Key(Char('q')))
  }

  /** A key that starts a new entry: the digits '1' to '9'. */
  predicate IsStartKey(t: Tick)
  {
    t.event.Some? && t.event.value.Key? && t.event.value.code.Char? && '1' <= t.event.value.code.c <= '9'
  }

  /** A key that stops tracking: '0' or Esc. */
  predicate IsStopKey(t: Tick)
  {
    t.event == Some(Key(Char('0'))) || t.event == Some(Key(Esc))
  }

  /** The log after the key dispatch of one turn of `run`. */
  function Dispatch(log: seq<TimeLog>, t: Tick): (r: seq<TimeLog>)
    ensures |r| == if IsStartKey(t) then |log| + 1 else |log|
    ensures forall i :: 0 <= i < |log| - 1 ==> r[i] == log[i]
    ensures !IsStartKey(t) && !IsStopKey(t) ==> r == log
  {
    match t.event
    case Some(Key(Char(c))) =>
      if '1' <= c <= '9' then Started(CloseLast(log, t.now), t.now, c)
      else if c == '0' then CloseLast(log, t.now)
      else log
    case Some(Key(Esc)) => CloseLast(log, t.now)
    case _ => log
  }

  /** A digit key, '0' and Esc all keep the invariant that only the last entry may be open. */
  lemma DispatchKeepsOnlyLastOpen(log: seq<TimeLog>, t: Tick)
    requires OnlyLastOpen(log)
    ensures OnlyLastOpen(Dispatch(log, t))
    ensures IsStopKey(t) ==> NoneOpen(Dispatch(log, t))
    ensures IsStartKey(t) ==> Dispatch(log, t)[|log|].IsOpen()
  {
    if IsStartKey(t) {
      DigitKeyKeepsOnlyLastOpen(log, t.now, t.event.value.code.c);
    } else if IsStopKey(t) {
      CloseLastClosesAll(log, t.now);
    }
  }

  /** The log after dispatching every tick of `ticks` in order. */
  function Replay(log: seq<TimeLog>, ticks: seq<Tick>): seq<TimeLog>
  {
    if ticks == [] then log else Dispatch(Replay(log, ticks[..|ticks| - 1]), ticks[|ticks| - 1])
  }

  /** Any sequence of turns keeps the invariant. */
  lemma {:induction false} ReplayKeepsOnlyLastOpen(log: seq<TimeLog>, ticks: seq<Tick>)
    requires OnlyLastOpen(log)
    ensures OnlyLastOpen(Replay(log, ticks))
  {
    if ticks != [] {
      ReplayKeepsOnlyLastOpen(log, ticks[..|ticks| - 1]);
      DispatchKeepsOnlyLastOpen(Replay(log, ticks[..|ticks| - 1]), ticks[|ticks| - 1]);
    }
  }

  const AUTOSAVE_EVERY: nat := 60
  const AUTOSAVING: string := "Autosaving..."
  const SAVING: string := "Saving time log..."

  /** The number of turns after which the `j`-th autosave (from 0) happens. */
  function AutosaveTurn(j: nat): nat
  {
    (j + 1) * (AUTOSAVE_EVERY + 1)
  }

  /**
   * The autosaves made during the first `turns` turns: snapshot `j` is the
   * log after the first `(j + 1) * 61` turns, the moment of the `j`-th save.
   */
  predicate Autosaved(saves: seq<seq<TimeLog>>, start: seq<TimeLog>, ticks: seq<Tick>, turns: nat)
  {
    forall j :: 0 <= j < |saves| ==>
      && AutosaveTurn(j) <= turns
      && AutosaveTurn(j) <= |ticks|
      && saves[j] == Replay(start, ticks[..AutosaveTurn(j)])
  }

  /** A turn without an autosave keeps the snapshots. */
  lemma AutosavedLater(saves: seq<seq<TimeLog>>, start: seq<TimeLog>, ticks: seq<Tick>, turns: nat)
    requires Autosaved(saves, start, ticks, turns)
    ensures Autosaved(saves, start, ticks, turns + 1)
  {
    forall j | 0 <= j < |saves|
      ensures AutosaveTurn(j) <= turns + 1
    {
      assert saves[j] == Replay(start, ticks[..AutosaveTurn(j)]);
    }
  }

  /** The turn that completes the next period appends the log after it. */
  lemma AutosavedPush(saves: seq<seq<TimeLog>>, start: seq<TimeLog>, ticks: seq<Tick>, turns: nat)
    requires Autosaved(saves, start, ticks, turns)
    requires turns < |ticks| && turns % (AUTOSAVE_EVERY + 1) == AUTOSAVE_EVERY
    requires |saves| == turns / (AUTOSAVE_EVERY + 1)
    ensures Autosaved(saves + [Replay(start, ticks[..turns + 1])], start, ticks, turns + 1)
  {
    assert AutosaveTurn(|saves|) == turns + 1;
    var s' := saves + [Replay(start, ticks[..turns + 1])];
    assert forall j :: 0 <= j < |saves| ==> s'[j] == saves[j];
  }

  /** The application: today's log and the status message. */
  class App {
    var today: seq<TimeLog>
    var message: Option<string>

    /** `App::default()`. */
    constructor ()
      ensures today == [] && message == None
    {
      today := [];
      message := None;
    }

    /** `close_entry_if_open`: if the last entry is open, it ends at `now`. */
    method CloseEntryIfOpen(now: Timestamp)
      modifies this
      ensures today == CloseLast(old(today), now)
      ensures message == old(message)
    {
      if |today| > 0 && today[|today| - 1].IsOpen() {
        today := today[|today| - 1 := today[|today| - 1].(end := Some(now))];
      }
    }

    /** `start_entry`: append an open entry starting at `now`. */
    method StartEntry(now: Timestamp, labelChar: char)
      modifies this
      ensures today == Started(old(today), now, labelChar)
      ensures message == old(message)
    {
      today := today + [TimeLog(now, None, labelChar)];
    }

    /** The key dispatch of one turn of `run`: digits start an entry, '0' and Esc stop tracking. */
    method HandleKey(t: Tick)
      modifies this
      ensures today == Dispatch(old(today), t)
      ensures message == old(message)
    {
      match t.event {
        case Some(Key(Char(c))) =>
          if '1' <= c <= '9' {
            CloseEntryIfOpen(t.now);
            StartEntry(t.now, c);
          } else if c == '0' {
            CloseEntryIfOpen(t.now);
          }
        case Some(Key(Esc)) =>
          CloseEntryIfOpen(t.now);
        case _ =>
      }
    }

    /**
     * The loop of `run` up to the first 'q': dispatch keys and count turns
     * for the autosave. It stops at a 'q' (`quit`) or when the ticks run out.
     */
    method TurnLoop(ticks: seq<Tick>) returns (quit: bool, turns: nat, counter: nat, saves: seq<seq<TimeLog>>)
      modifies this
      ensures turns <= |ticks|
      ensures quit <==> turns < |ticks|
      ensures quit ==> IsQuit(ticks[turns])
      ensures forall k :: 0 <= k < turns ==> !IsQuit(ticks[k])
      ensures counter == turns % (AUTOSAVE_EVERY + 1)
      ensures today == Replay(old(today), ticks[..turns])
      ensures |saves| == turns / (AUTOSAVE_EVERY + 1)
      ensures Autosaved(saves, old(today), ticks, turns)
      ensures turns > 0 ==> message == if counter == 0 then Some(AUTOSAVING) else None
    {
      ghost var before := today;
      counter := 0;
      turns, quit, saves := 0, false, [];
      while turns < |ticks|
        invariant turns <= |ticks|
        invariant forall k :: 0 <= k < turns ==> !IsQuit(ticks[k])
        invariant counter == turns % (AUTOSAVE_EVERY + 1)
        invariant before == old(today) && today == Replay(before, ticks[..turns])
        invariant |saves| == turns / (AUTOSAVE_EVERY + 1)
        invariant Autosaved(saves, before, ticks, turns)
        invariant turns > 0 ==> message == if counter == 0 then Some(AUTOSAVING) else None
      {
        var t := ticks[turns];
        if IsQuit(t) {
          quit := true;
          break;
        }
        assert ticks[..turns + 1][..turns] == ticks[..turns];
        HandleKey(t);
        if counter == AUTOSAVE_EVERY {
          AutosavedPush(saves, before, ticks, turns);
          counter := 0;
          message := Some(AUTOSAVING);
          saves := saves + [today];
        } else {
          AutosavedLater(saves, before, ticks, turns);
          counter := counter + 1;
          message := None;
        }
        turns := turns + 1;
      }
    }

    /**
     * The event loop of `run` after loading: the turns up to the first 'q',
     * then on 'q' close the open entry and save. Saving is reported as the
     * snapshots of the log that would be written. When the ticks run out
     * before a 'q', the loop is still waiting (`quit` is false).
     */
    method Run(ticks: seq<Tick>) returns (quit: bool, turns: nat, counter: nat, saves: seq<seq<TimeLog>>)
      modifies this
      ensures turns <= |ticks|
      ensures quit <==> turns < |ticks|
      ensures quit ==> IsQuit(ticks[turns])
      ensures forall k :: 0 <= k < turns ==> !IsQuit(ticks[k])
      ensures counter == turns % (AUTOSAVE_EVERY + 1) && counter <= AUTOSAVE_EVERY
      ensures !quit ==> today == Replay(old(today), ticks)
      ensures !quit ==> |saves| == turns / (AUTOSAVE_EVERY + 1)
      ensures turns / (AUTOSAVE_EVERY + 1) <= |saves|
      ensures Autosaved(saves[..turns / (AUTOSAVE_EVERY + 1)], old(today), ticks, turns)
      ensures !quit && turns > 0 ==> message == if counter == 0 then Some(AUTOSAVING) else None
      ensures quit ==> today == CloseLast(Replay(old(today), ticks[..turns]), ticks[turns].now)
      ensures quit ==> |saves| == turns / (AUTOSAVE_EVERY + 1) + 1 && saves[|saves| - 1] == today
      ensures quit ==> message == Some(SAVING)
      ensures OnlyLastOpen(old(today)) ==> OnlyLastOpen(today)
      ensures quit && OnlyLastOpen(old(today)) ==> NoneOpen(today)
    {
      quit, turns, counter, saves := TurnLoop(ticks);
      assert turns == |ticks| ==> ticks[..turns] == ticks;
      if OnlyLastOpen(old(today)) {
        ReplayKeepsOnlyLastOpen(old(today), ticks[..turns]);
      }
      assert saves[..turns / (AUTOSAVE_EVERY + 1)] == saves;
      if quit {
        CloseEntryIfOpen(ticks[turns].now);
        if OnlyLastOpen(old(today)) {
          CloseLastClosesAll(Replay(old(today), ticks[..turns]), ticks[turns].now);
        }
        message := Some(SAVING);
        ghost var autosaves := saves;
        saves := saves + [today];
        assert saves[..|autosaves|] == autosaves;
      }
    }
  }
}
