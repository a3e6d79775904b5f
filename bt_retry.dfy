/**
 * The retry wrappers (src/bluetooth.rs: `start_conn_mgr`, `spawn_sub_task`):
 * each runs its body a fixed number of times, logging after every return
 * whether it will retry or give up, and sleeping five seconds in between.
 */
module BluetoothRetry {
  import opened Wrappers
  import opened BluetoothTypes
  import opened BluetoothManager
  import opened BluetoothSubscribe

  /** The counter both wrappers start from. */
  const ATTEMPTS: nat := 5

  /** The message logged when an attempt returns: retry after five seconds, or give up. */
  datatype Notice = RetryAfter5s | GiveUp

  /** The message chosen once the counter has been decremented to `remaining`. */
  function NoticeFor(remaining: nat): (n: Notice)
    ensures n == GiveUp <==> remaining == 0
  {
    if remaining > 0 then RetryAfter5s else GiveUp
  }

  /** The environment one run of the connection manager meets. */
  datatype ConnMgrRun = ConnMgrRun(setup: Setup, events: seq<CentralEvent>)

  /** What the runs of the connection manager returned, sent and called, in order. */
  datatype Attempts = Attempts(exits: seq<ConnMgrExit>, sent: seq<State>, calls: seq<AppCall>)

  /** The last run is still waiting for events: it never returns, so no later run starts. */
  predicate StillRunning(exits: seq<ConnMgrExit>)
  {
    |exits| > 0 && exits[|exits| - 1] == MgrRunning
  }

  /**
   * The first `n` runs of the connection manager, or fewer when one of them
   * is still running; run `k` meets the environment `runs(k)`.
   */
  function ConnMgrAttempts(runs: nat -> ConnMgrRun, n: nat): (r: Attempts)
    ensures |r.exits| <= n
    ensures |r.exits| < n ==> StillRunning(r.exits)
    ensures forall j :: 0 <= j < |r.exits| - 1 ==> r.exits[j] != MgrRunning
    ensures forall k :: 0 <= k < |r.exits| ==> r.exits[k] == CreateConnMgrSpec(runs(k).setup, runs(k).events).exit
  {
    if n == 0 then Attempts([], [], [])
    else
      var prev := ConnMgrAttempts(runs, n - 1);
      if StillRunning(prev.exits) then prev
      else
        var t := CreateConnMgrSpec(runs(n - 1).setup, runs(n - 1).events);
        Attempts(prev.exits + [t.exit], prev.sent + t.sent, prev.calls + t.calls)
  }

  /** Once a run is still running, further attempts change nothing. */
  lemma {:induction false} RunningStaysRunning(runs: nat -> ConnMgrRun, n: nat, m: nat)
    requires n <= m && StillRunning(ConnMgrAttempts(runs, n).exits)
    ensures ConnMgrAttempts(runs, m) == ConnMgrAttempts(runs, n)
    decreases m - n
  {
    if n < m {
      RunningStaysRunning(runs, n, m - 1);
    }
  }

  /** Every `Connected` in `sent` names the side characteristic. */
  predicate SentSideOnly(sent: seq<State>)
  {
    forall k :: 0 <= k < |sent| && sent[k].Connected? ==> sent[k].chr.uuid == TRACKER_SIDE_CH
  }

  /** Every `Connected` a run sends names the side characteristic. */
  lemma CreateConnMgrConnectsSide(setup: Setup, events: seq<CentralEvent>)
    ensures SentSideOnly(CreateConnMgrSpec(setup, events).sent)
  {
    var t := CreateConnMgrSpec(setup, events);
    if setup.managerOk && setup.adapters.Ok? && setup.adapters.value > 0 {
      CreateConnMgrAlternates(setup, events);
      forall k | 1 <= k < |t.sent| ensures t.sent[k] == t.sent[1..][k - 1] { }
    }
  }

  /** Across all retries, the subscriber is only ever told to use the side characteristic. */
  lemma {:induction false} AttemptsConnectSide(runs: nat -> ConnMgrRun, n: nat)
    ensures SentSideOnly(ConnMgrAttempts(runs, n).sent)
  {
    if n > 0 {
      AttemptsConnectSide(runs, n - 1);
      var prev := ConnMgrAttempts(runs, n - 1);
      if !StillRunning(prev.exits) {
        CreateConnMgrConnectsSide(runs(n - 1).setup, runs(n - 1).events);
        var t := CreateConnMgrSpec(runs(n - 1).setup, runs(n - 1).events);
        var all := ConnMgrAttempts(runs, n).sent;
        assert all == prev.sent + t.sent;
        forall k | 0 <= k < |all| && all[k].Connected?
          ensures all[k].chr.uuid == TRACKER_SIDE_CH
        {
          if k < |prev.sent| {
            assert all[k] == prev.sent[k];
          } else {
            assert all[k] == t.sent[k - |prev.sent|];
          }
        }
      }
    }
  }

  /**
   * `start_conn_mgr`: run the connection manager against the environment
   * `runs(k)` of its `k`-th attempt, at most `ATTEMPTS` times, choosing the
   * "give up" notice only for the last. A run that is still waiting for
   * events never returns, and then no further attempt starts.
   */
  method StartConnMgr(runs: nat -> ConnMgrRun)
    returns (exits: seq<ConnMgrExit>, notices: seq<Notice>, sleeps: nat, sent: seq<State>, calls: seq<AppCall>)
    ensures Attempts(exits, sent, calls) == ConnMgrAttempts(runs, ATTEMPTS)
    ensures 1 <= |exits| <= ATTEMPTS
    ensures |notices| == sleeps == if StillRunning(exits) then |exits| - 1 else ATTEMPTS
    ensures forall k :: 0 <= k < |notices| ==> (notices[k] == GiveUp <==> k == ATTEMPTS - 1)
    ensures SentSideOnly(sent)
  {
    var i: nat := ATTEMPTS;
    exits, notices, sleeps, sent, calls := [], [], 0, [], [];
    var running := false;
    while i > 0
      invariant i <= ATTEMPTS
      invariant |exits| == |notices| == sleeps == ATTEMPTS - i
      invariant Attempts(exits, sent, calls) == ConnMgrAttempts(runs, ATTEMPTS - i)
      invariant forall k :: 0 <= k < |notices| ==> (notices[k] == GiveUp <==> k == ATTEMPTS - 1)
      invariant !StillRunning(exits)
    {
      i := i - 1;
      var notice := NoticeFor(i);
      var run := runs(ATTEMPTS - 1 - i);
      var exit, s, c := CreateConnMgr(run.setup, run.events);
      exits, sent, calls := exits + [exit], sent + s, calls + c;
      if exit == MgrRunning {
        running := true;
        break;
      }
      notices := notices + [notice];
      sleeps := sleeps + 1;
    }
    if running {
      RunningStaysRunning(runs, |exits|, ATTEMPTS);
    }
    AttemptsConnectSide(runs, ATTEMPTS);
  }

  /** How the attempts of the subscription task went, the calls they made, and the open entry number after them. */
  datatype SubAttempts = SubAttempts(ends: seq<SessionEnd>, calls: seq<AppCall>, open: Option<nat>)

  /** A session still listening when its inputs run out never returns, so no later attempt starts. */
  predicate Stuck(ends: seq<SessionEnd>)
  {
    |ends| > 0 && ends[|ends| - 1] == Listening
  }

  /**
   * The first `n` attempts of the subscription task, from the open entry
   * number `open`; each attempt starts from the open entry number the
   * previous ones left.
   */
  function SubTaskRun(sessions: nat -> Session, open: Option<nat>, n: nat): (r: SubAttempts)
    ensures |r.ends| <= n
    ensures |r.ends| < n ==> Stuck(r.ends)
    ensures forall j :: 0 <= j < |r.ends| - 1 ==> r.ends[j] != Listening
    ensures r.open == OpenAfter(open, r.calls)
  {
    if n == 0 then SubAttempts([], [], open)
    else
      var prev := SubTaskRun(sessions, open, n - 1);
      if Stuck(prev.ends) then prev
      else
        var (end, calls) := SubscribeSpec(sessions(n - 1), prev.open);
        OpenAfterAppend(open, prev.calls, calls);
        SubAttempts(prev.ends + [end], prev.calls + calls, OpenAfter(prev.open, calls))
  }

  /** Once an attempt is stuck listening, further attempts change nothing. */
  lemma {:induction false} StuckStaysStuck(sessions: nat -> Session, open: Option<nat>, n: nat, m: nat)
    requires n <= m && Stuck(SubTaskRun(sessions, open, n).ends)
    ensures SubTaskRun(sessions, open, m) == SubTaskRun(sessions, open, n)
    decreases m - n
  {
    if n < m {
      StuckStaysStuck(sessions, open, n, m - 1);
    }
  }

  /** Across all attempts no `start_entry` repeats the open entry. */
  lemma {:induction false} SubTaskNoRedundantStart(sessions: nat -> Session, open: Option<nat>, n: nat)
    ensures NoRedundantStart(open, SubTaskRun(sessions, open, n).calls)
  {
    if n > 0 {
      SubTaskNoRedundantStart(sessions, open, n - 1);
      var prev := SubTaskRun(sessions, open, n - 1);
      if !Stuck(prev.ends) {
        var (end, calls) := SubscribeSpec(sessions(n - 1), prev.open);
        SubscribeCallsAreSound(sessions(n - 1), prev.open);
        NoRedundantStartAppend(open, prev.calls, calls);
      }
    }
  }

  /**
   * `spawn_sub_task`: run the subscription handler against the session
   * `sessions(k)` of its `k`-th attempt, at most `ATTEMPTS` times, from the
   * open entry number `open`; "give up" is logged only after the last.
   */
  method SpawnSubTask(sessions: nat -> Session, open: Option<nat>)
    returns (ends: seq<SessionEnd>, notices: seq<Notice>, sleeps: nat, calls: seq<AppCall>)
    ensures ends == SubTaskRun(sessions, open, ATTEMPTS).ends && calls == SubTaskRun(sessions, open, ATTEMPTS).calls
    ensures 1 <= |ends| <= ATTEMPTS
    ensures |notices| == sleeps == if Stuck(ends) then |ends| - 1 else ATTEMPTS
    ensures forall k :: 0 <= k < |notices| ==> (notices[k] == GiveUp <==> k == ATTEMPTS - 1)
  {
    var i: nat := ATTEMPTS;
    var cur := open;
    ends, notices, sleeps, calls := [], [], 0, [];
    var listening := false;
    while i > 0
      invariant i <= ATTEMPTS
      invariant |ends| == |notices| == sleeps == ATTEMPTS - i
      invariant forall k :: 0 <= k < |notices| ==> (notices[k] == GiveUp <==> k == ATTEMPTS - 1)
      invariant SubAttempts(ends, calls, cur) == SubTaskRun(sessions, open, ATTEMPTS - i)
      invariant !Stuck(ends)
    {
      i := i - 1;
      var notice := NoticeFor(i);
      var k := ATTEMPTS - 1 - i;
      var end, c := Subscribe(sessions(k), cur);
      ends, calls, cur := ends + [end], calls + c, OpenAfter(cur, c);
      if end == Listening {
        listening := true;
        break;
      }
      notices := notices + [notice];
      sleeps := sleeps + 1;
    }
    if listening {
      StuckStaysStuck(sessions, open, |ends|, ATTEMPTS);
    }
  }
}
