/**
 * The SIP debugging aid: module-level counters of user-agent
 * initialisations and open connections, a bounded history of connection
 * events, and a loop detector that looks for a burst of recent
 * initialisations in that history.
 */
module SipDebug {
  import opened Wrappers
  import opened Strings

  /** One entry of the connection history. */
  datatype DebugEvent = DebugEvent(time: int, action: string, details: Option<string>)

  /** The snapshot `getSIPDebugData` returns. */
  datatype SipDebugData = SipDebugData(initCount: nat, activeConnections: nat, timeSinceLastInit: int,
                                       lastInitTime: int, connectionHistory: seq<DebugEvent>)

  /** The history keeps at most this many events. */
  const HISTORY_LIMIT: nat := 100

  /** Initialisations younger than this many milliseconds count towards a loop. */
  const LOOP_WINDOW_MS: int := 10000

  const INIT: string := "INIT"
  const CLOSE: string := "CLOSE"
  const RESET: string := "RESET"
  const LOOP_DETECTED: string := "LOOP_DETECTED"

  /** Appending to the history, then dropping the oldest event when the limit is exceeded. */
  function AppendBounded(h: seq<DebugEvent>, e: DebugEvent): (r: seq<DebugEvent>)
    requires |h| <= HISTORY_LIMIT
    ensures |r| <= HISTORY_LIMIT && |r| >= 1 && r[|r| - 1] == e
    ensures |h| < HISTORY_LIMIT ==> r == h + [e]
    ensures |h| == HISTORY_LIMIT ==> r == h[1..] + [e]
  {
    var g := h + [e];
    if |g| > HISTORY_LIMIT then g[1..] else g
  }

  /** An event that the loop detector counts at time `now`. */
  predicate IsRecentInit(e: DebugEvent, now: int)
  {
    e.action == INIT && now - e.time < LOOP_WINDOW_MS
  }

  /** The history filtered to recent initialisations, in order. */
  function RecentInits(h: seq<DebugEvent>, now: int): (r: seq<DebugEvent>)
    ensures |r| <= |h|
    ensures forall i :: 0 <= i < |r| ==> IsRecentInit(r[i], now)
  {
    if h == [] then []
    else RecentInits(h[..|h| - 1], now) + (if IsRecentInit(h[|h| - 1], now) then [h[|h| - 1]] else [])
  }

  /** Filtering distributes over appending an event. */
  lemma RecentInitsAppend(h: seq<DebugEvent>, e: DebugEvent, now: int)
    ensures RecentInits(h + [e], now) == RecentInits(h, now) + if IsRecentInit(e, now) then [e] else []
  {
    assert (h + [e])[..|h + [e]| - 1] == h;
  }

  /** A recent initialisation in the history is kept by the filter. */
  lemma {:induction false} RecentInitsKeeps(h: seq<DebugEvent>, i: int, now: int)
    requires 0 <= i < |h| && IsRecentInit(h[i], now)
    ensures h[i] in RecentInits(h, now)
    decreases |h|
  {
    if i < |h| - 1 {
      assert h[..|h| - 1][i] == h[i];
      RecentInitsKeeps(h[..|h| - 1], i, now);
    }
  }

  /** The loop detector's finding. */
  function LoopDetails(n: nat): string
  {
    NatToString(n) + " lần khởi tạo trong 10 giây qua"
  }

  function InitDetails(wsHost: string): string
  {
    "Kết nối đến " + wsHost
  }

  class SipDebugState {
    var initCount: nat
    var activeConnections: nat
    var lastInitTime: int
    var history: seq<DebugEvent>

    ghost predicate Valid()
      reads this
    {
      |history| <= HISTORY_LIMIT
    }

    constructor()
      ensures Valid()
      ensures initCount == 0 && activeConnections == 0 && lastInitTime == 0 && history == []
    {
      initCount := 0;
      activeConnections := 0;
      lastInitTime := 0;
      history := [];
    }

    /** `logSIPEvent`: records the event, keeping only the newest `HISTORY_LIMIT` events. */
    method LogEvent(action: string, details: Option<string>, now: int)
      requires Valid()
      modifies this`history
      ensures Valid()
      ensures history == AppendBounded(old(history), DebugEvent(now, action, details))
    {
      history := history + [DebugEvent(now, action, details)];
      if |history| > HISTORY_LIMIT {
        history := history[1..];
      }
    }

    /** `trackSIPInit`: counts the initialisation and the connection and logs it. */
    method TrackInit(wsHost: string, now: int)
      requires Valid()
      modifies this
      ensures Valid()
      ensures initCount == old(initCount) + 1 && activeConnections == old(activeConnections) + 1
      ensures lastInitTime == now
      ensures history == AppendBounded(old(history), DebugEvent(now, INIT, Some(InitDetails(wsHost))))
    {
      initCount := initCount + 1;
      activeConnections := activeConnections + 1;
      lastInitTime := now;
      LogEvent(INIT, Some(InitDetails(wsHost)), now);
    }

    /** `trackSIPClose`: one connection fewer, never below zero, and logs it. */
    method TrackClose(now: int)
      requires Valid()
      modifies this`activeConnections, this`history
      ensures Valid()
      ensures activeConnections == if old(activeConnections) > 0 then old(activeConnections) - 1 else 0
      ensures history == AppendBounded(old(history), DebugEvent(now, CLOSE, None))
    {
      activeConnections := if activeConnections > 0 then activeConnections - 1 else 0;
      LogEvent(CLOSE, None, now);
    }

    /** `getSIPDebugData`: the counters, the age of the last initialisation and a copy of the history. */
    function DebugData(now: int): (d: SipDebugData)
      reads this
      ensures d.initCount == initCount && d.activeConnections == activeConnections
      ensures d.lastInitTime == lastInitTime && d.timeSinceLastInit == now - lastInitTime
      ensures d.connectionHistory == history
    {
      SipDebugData(initCount, activeConnections, now - lastInitTime, lastInitTime, history)
    }

    /** `resetSIPDebugData`: zeroes everything; the history then holds only the reset itself. */
    method Reset(now: int)
      requires Valid()
      modifies this
      ensures Valid()
      ensures initCount == 0 && activeConnections == 0 && lastInitTime == 0
      ensures history == [DebugEvent(now, RESET, None)]
    {
      initCount := 0;
      activeConnections := 0;
      lastInitTime := 0;
      history := [];
      LogEvent(RESET, None, now);
    }

    /** Counts the recent initialisations in the history, as the detector's filter does. */
    method CountRecentInits(now: int) returns (n: nat)
      ensures n == |RecentInits(history, now)|
    {
      n := 0;
      var i := 0;
      while i < |history|
        invariant 0 <= i <= |history|
        invariant n == |RecentInits(history[..i], now)|
      {
        RecentInitsAppend(history[..i], history[i], now);
        assert history[..i + 1] == history[..i] + [history[i]];
        if IsRecentInit(history[i], now) {
          n := n + 1;
        }
        i := i + 1;
      }
      assert history[..i] == history;
    }

    /**
     * `detectSIPLoop`: after more than three initialisations, three or more
     * of them within the last ten seconds mean a loop, which is logged.
     */
    method DetectLoop(now: int) returns (loop: bool)
      requires Valid()
      modifies this`history
      ensures Valid()
      ensures loop <==> initCount > 3 && |RecentInits(old(history), now)| >= 3
      ensures loop ==> history == AppendBounded(old(history),
                                  DebugEvent(now, LOOP_DETECTED, Some(LoopDetails(|RecentInits(old(history), now)|))))
      ensures !loop ==> history == old(history)
    {
      loop := false;
      if initCount > 3 {
        var n := CountRecentInits(now);
        if n >= 3 {
          LogEvent(LOOP_DETECTED, Some(LoopDetails(n)), now);
          loop := true;
        }
      }
    }
  }

  /**
   * Three initialisations logged within the window, all still in the
   * history, are enough for the detector to find a burst.
   */
  lemma {:induction false} ThreeRecentInitsSuffice(h: seq<DebugEvent>, i: int, j: int, k: int, now: int)
    requires 0 <= i < j < k < |h|
    requires IsRecentInit(h[i], now) && IsRecentInit(h[j], now) && IsRecentInit(h[k], now)
    ensures |RecentInits(h, now)| >= 3
    decreases |h|
  {
    var last := |h| - 1;
    var p := h[..last];
    assert RecentInits(h, now) == RecentInits(p, now) + if IsRecentInit(h[last], now) then [h[last]] else [];
    if k < last {
      assert p[i] == h[i] && p[j] == h[j] && p[k] == h[k];
      ThreeRecentInitsSuffice(p, i, j, k, now);
    } else {
      assert p[i] == h[i] && p[j] == h[j];
      TwoRecentInits(p, i, j, now);
    }
  }

  lemma {:induction false} TwoRecentInits(h: seq<DebugEvent>, i: int, j: int, now: int)
    requires 0 <= i < j < |h|
    requires IsRecentInit(h[i], now) && IsRecentInit(h[j], now)
    ensures |RecentInits(h, now)| >= 2
    decreases |h|
  {
    var last := |h| - 1;
    var p := h[..last];
    assert RecentInits(h, now) == RecentInits(p, now) + if IsRecentInit(h[last], now) then [h[last]] else [];
    if j < last {
      assert p[i] == h[i] && p[j] == h[j];
      TwoRecentInits(p, i, j, now);
    } else {
      assert p[i] == h[i];
      RecentInitsKeeps(p, i, now);
    }
  }
}
