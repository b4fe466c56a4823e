/** The sliding-window counting shared by `RateLimitMiddleware.dispatch` and
    the `rate_limit` dependency. For one client the limiter keeps the list of
    times of its admitted requests; on each request it drops the times that
    are no longer later than `now - 60`, then either refuses the request (the
    window is full) or records `now`. Times are whole seconds here. */
module SlidingWindow {
  import Seqs

  /** Length of the window in seconds (`RATE_WINDOW`, and the `now - 60` of the middleware). */
  const Window: int := 60

  /** `[t for t in history if t > windowStart]`. */
  function Prune(history: seq<int>, windowStart: int): (kept: seq<int>)
    ensures |kept| <= |history|
    ensures forall i :: 0 <= i < |kept| ==> kept[i] > windowStart
    decreases |history|
  {
    if history == [] then []
    else (if history[0] > windowStart then [history[0]] else []) + Prune(history[1..], windowStart)
  }

  /** Pruning drops only expired times: every time after the window start survives. */
  lemma {:induction false} PruneComplete(history: seq<int>, windowStart: int, t: int)
    requires t in history && t > windowStart
    ensures t in Prune(history, windowStart)
    decreases |history|
  {
    if history[0] != t {
      PruneComplete(history[1..], windowStart, t);
    }
  }

  function After(windowStart: int): int -> bool
  {
    (t: int) => t > windowStart
  }

  /** Pruning is the list comprehension: the kept times are the times of the
      history later than the window start, in their original order. */
  lemma {:induction false} PruneIsFilter(history: seq<int>, windowStart: int)
    ensures Prune(history, windowStart) == Seqs.Filter(history, After(windowStart))
    ensures Seqs.IsSubsequence(Prune(history, windowStart), history)
    decreases |history|
  {
    if history != [] {
      PruneIsFilter(history[1..], windowStart);
    }
    Seqs.FilterIsSubsequence(history, After(windowStart));
  }

  lemma {:induction false} PruneAppend(a: seq<int>, b: seq<int>, windowStart: int)
    ensures Prune(a + b, windowStart) == Prune(a, windowStart) + Prune(b, windowStart)
    decreases |a|
  {
    if a == [] {
      assert a + b == b;
    } else {
      assert (a + b)[1..] == a[1..] + b;
      PruneAppend(a[1..], b, windowStart);
    }
  }

  /** Pruning at an earlier window start and then at a later one is pruning at
      the later one; in particular pruning twice at the same start is pruning once. */
  lemma {:induction false} PruneLater(history: seq<int>, earlier: int, later: int)
    requires earlier <= later
    ensures Prune(Prune(history, earlier), later) == Prune(history, later)
    decreases |history|
  {
    if history != [] {
      PruneLater(history[1..], earlier, later);
      var head := if history[0] > earlier then [history[0]] else [];
      PruneAppend(head, Prune(history[1..], earlier), later);
    }
  }

  /** The most times a window may hold under `limit`: a limit of zero or less admits nothing. */
  function Cap(limit: int): nat { if limit > 0 then limit else 0 }

  /** What one request does to a client's list: whether it is admitted, and the list afterwards. */
  datatype Step = Step(admitted: bool, history: seq<int>)

  /** One request at time `now` against `history` with the given limit. */
  function Advance(history: seq<int>, now: int, limit: int): (s: Step)
    ensures s.admitted <==> |Prune(history, now - Window)| < limit
    ensures forall i :: 0 <= i < |s.history| ==> s.history[i] > now - Window
    ensures s.admitted ==> s.history != [] && s.history[|s.history| - 1] == now && |s.history| <= Cap(limit)
    ensures !s.admitted ==> |s.history| >= limit && |s.history| <= |history|
    ensures |history| <= Cap(limit) ==> |s.history| <= Cap(limit)
  {
    var kept := Prune(history, now - Window);
    if |kept| >= limit then Step(false, kept) else Step(true, kept + [now])
  }

  /** The new list is the old one with the expired times dropped, in order,
      followed by `now` exactly when the request is admitted. */
  lemma AdvanceHistory(history: seq<int>, now: int, limit: int)
    ensures var s := Advance(history, now, limit);
      s.history == Seqs.Filter(history, After(now - Window)) + (if s.admitted then [now] else [])
  {
    PruneIsFilter(history, now - Window);
  }

  predicate NonDecreasing(times: seq<int>)
  {
    forall i, j :: 0 <= i < j < |times| ==> times[i] <= times[j]
  }

  /** The limiter's list for one client after a run of requests, and the times
      of the requests it admitted. */
  datatype Trace = Trace(history: seq<int>, admitted: seq<int>)

  /** Feeds the requests at `times`, in order, to a limiter that starts empty. */
  function Replay(times: seq<int>, limit: int): (t: Trace)
    ensures |t.history| <= Cap(limit)
    decreases |times|
  {
    if times == [] then Trace([], [])
    else
      var before := Replay(times[..|times| - 1], limit);
      var now := times[|times| - 1];
      var s := Advance(before.history, now, limit);
      Trace(s.history, if s.admitted then before.admitted + [now] else before.admitted)
  }

  /** One step of the replay keeps "the list is the recently admitted requests". */
  lemma AdvanceRecent(admitted: seq<int>, previous: int, now: int, limit: int)
    requires previous <= now
    ensures var s := Advance(Prune(admitted, previous - Window), now, limit);
      && (s.admitted ==> s.history == Prune(admitted + [now], now - Window))
      && (!s.admitted ==> s.history == Prune(admitted, now - Window))
  {
    PruneLater(admitted, previous - Window, now - Window);
    PruneAppend(admitted, [now], now - Window);
  }

  lemma NonDecreasingPrefix(times: seq<int>, n: nat)
    requires n <= |times| && NonDecreasing(times)
    ensures NonDecreasing(times[..n])
  {
    var prefix := times[..n];
    forall i, j | 0 <= i < j < |prefix| ensures prefix[i] <= prefix[j] {
      assert prefix[i] == times[i] && prefix[j] == times[j];
    }
  }

  /** The replay of `times` extends that of its prefix by one `Advance`, so
      the "recently admitted" description carries over to one more request. */
  lemma ReplayStep(times: seq<int>, limit: int)
    requires |times| >= 2 && times[|times| - 2] <= times[|times| - 1]
    requires var before := Replay(times[..|times| - 1], limit);
      before.history == Prune(before.admitted, times[|times| - 2] - Window)
    ensures Replay(times, limit).history
         == Prune(Replay(times, limit).admitted, times[|times| - 1] - Window)
  {
    var n := |times| - 1;
    var before := Replay(times[..n], limit);
    var s := Advance(before.history, times[n], limit);
    assert Replay(times, limit) == Trace(s.history, if s.admitted then before.admitted + [times[n]] else before.admitted);
    AdvanceRecent(before.admitted, times[n - 1], times[n], limit);
  }

  /** The first request meets an empty list. */
  lemma ReplayFirst(times: seq<int>, limit: int)
    requires |times| == 1
    ensures Replay(times, limit).history == Prune(Replay(times, limit).admitted, times[0] - Window)
  {
    assert times[..0] == [];
    AdvanceRecent([], times[0], times[0], limit);
  }

  /** When time does not run backwards, the limiter's list is exactly the
      admitted requests of the last 60 seconds. */
  lemma {:induction false} ReplayHistoryIsRecentAdmitted(times: seq<int>, limit: int)
    requires times != [] && NonDecreasing(times)
    ensures Replay(times, limit).history
         == Prune(Replay(times, limit).admitted, times[|times| - 1] - Window)
    decreases |times|
  {
    var n := |times| - 1;
    var prefix := times[..n];
    if n == 0 {
      ReplayFirst(times, limit);
    } else {
      NonDecreasingPrefix(times, n);
      ReplayHistoryIsRecentAdmitted(prefix, limit);
      assert prefix[n - 1] == times[n - 1];
      ReplayStep(times, limit);
    }
  }

  /** The rate limit itself: with time not running backwards, no 60-second
      window ending at a request holds more than `limit` admitted requests. */
  lemma RateLimitGuarantee(times: seq<int>, limit: int)
    requires times != [] && NonDecreasing(times)
    ensures |Prune(Replay(times, limit).admitted, times[|times| - 1] - Window)| <= Cap(limit)
  {
    ReplayHistoryIsRecentAdmitted(times, limit);
  }
}
