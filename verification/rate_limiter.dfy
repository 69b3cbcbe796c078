// The sliding-window limit on API requests, one window a routine.
module RateLimiter {
  import opened Common

  type RoutineId = string

  const RATE_LIMIT_WINDOW_MS := 60_000
  const RATE_LIMIT_CAPACITY := 60

  function Recent(times: seq<int>, cutoff: int): seq<int> {
    if times == [] then []
    else if times[0] > cutoff then [times[0]] + Recent(times[1..], cutoff)
    else Recent(times[1..], cutoff)
  }

  /** The stored times after a request, and whether it is refused. */
  function Request(stored: seq<int>, now: int): (seq<int>, bool) {
    var recent := Recent(stored, now - RATE_LIMIT_WINDOW_MS);
    if |recent| >= RATE_LIMIT_CAPACITY then (recent, true) else (recent + [now], false)
  }

  // ---------------------------------------------------------------- whole runs

  /** `accepted`: every accepted time, oldest first. */
  datatype Log = Log(stored: seq<int>, accepted: seq<int>, clock: int)

  function Step(log: Log, now: int): Log {
    var (stored, refused) := Request(log.stored, now);
    Log(stored, if refused then log.accepted else log.accepted + [now], now)
  }

  function Run(log: Log, times: seq<int>): Log
    decreases |times|
  {
    if times == [] then log else Run(Step(log, times[0]), times[1..])
  }

  ghost predicate NonDecreasing(times: seq<int>) {
    forall i, j :: 0 <= i < j < |times| ==> times[i] <= times[j]
  }

  /** Any sixty-one accepted requests in a row span at least the window. */
  ghost predicate Spaced(accepted: seq<int>) {
    forall i :: 0 <= i < |accepted| - RATE_LIMIT_CAPACITY ==> accepted[i + RATE_LIMIT_CAPACITY] - accepted[i] >= RATE_LIMIT_WINDOW_MS
  }

  /** The stored times are exactly the accepted ones still in the window. */
  ghost predicate Good(log: Log) {
    && NonDecreasing(log.accepted)
    && (forall i :: 0 <= i < |log.accepted| ==> log.accepted[i] <= log.clock)
    && Spaced(log.accepted)
    && log.stored == Recent(log.accepted, log.clock - RATE_LIMIT_WINDOW_MS)
  }

  lemma {:induction false} RecentOfRecent(times: seq<int>, early: int, late: int)
    requires early <= late
    ensures Recent(Recent(times, early), late) == Recent(times, late)
  {
    if times != [] {
      RecentOfRecent(times[1..], early, late);
      if times[0] > early {
        assert ([times[0]] + Recent(times[1..], early))[1..] == Recent(times[1..], early);
      }
    }
  }

  lemma {:induction false} RecentOfSnoc(times: seq<int>, t: int, cutoff: int)
    ensures Recent(times + [t], cutoff) == Recent(times, cutoff) + (if t > cutoff then [t] else [])
  {
    if times == [] {
      assert [t][1..] == [];
    } else {
      assert (times + [t])[1..] == times[1..] + [t];
      RecentOfSnoc(times[1..], t, cutoff);
    }
  }

  /** In a non-decreasing list the recent times are the tail. */
  lemma {:induction false} RecentIsTail(times: seq<int>, cutoff: int)
    requires NonDecreasing(times)
    ensures var n := |times| - |Recent(times, cutoff)|;
            0 <= n && Recent(times, cutoff) == times[n..] && (forall i :: 0 <= i < n ==> times[i] <= cutoff)
            && (forall i :: n <= i < |times| ==> times[i] > cutoff)
  {
    if times != [] {
      RecentIsTail(times[1..], cutoff);
      var n := |times[1..]| - |Recent(times[1..], cutoff)|;
      if times[0] > cutoff {
        assert forall i :: 0 <= i < |times[1..]| ==> times[1..][i] >= times[0];
        assert n == 0;
        assert times == [times[0]] + times[1..];
      } else {
        assert times[1..][n..] == times[n + 1..];
        assert forall i :: 1 <= i < |times| ==> times[i] == times[1..][i - 1];
      }
    }
  }

  lemma StepKeepsGood(log: Log, now: int)
    requires Good(log) && now >= log.clock
    ensures Good(Step(log, now))
  {
    hide Recent;
    var cutoff := now - RATE_LIMIT_WINDOW_MS;
    RecentOfRecent(log.accepted, log.clock - RATE_LIMIT_WINDOW_MS, cutoff);
    RecentOfSnoc(log.accepted, now, cutoff);
    RecentIsTail(log.accepted, cutoff);
  }

  lemma {:induction false} RunKeepsGood(log: Log, times: seq<int>)
    requires Good(log) && NonDecreasing(times) && (times != [] ==> times[0] >= log.clock)
    ensures Good(Run(log, times))
    decreases |times|
  {
    hide Good, Step;
    if times != [] {
      StepKeepsGood(log, times[0]);
      StepSetsClock(log, times[0]);
      RunKeepsGood(Step(log, times[0]), times[1..]);
    }
  }

  lemma StepSetsClock(log: Log, now: int)
    ensures Step(log, now).clock == now
  {
  }

  function InWindow(times: seq<int>, from: int): seq<int> {
    if times == [] then []
    else if from <= times[0] < from + RATE_LIMIT_WINDOW_MS then [times[0]] + InWindow(times[1..], from)
    else InWindow(times[1..], from)
  }

  /** In a non-decreasing list the times of a window are consecutive. */
  lemma {:induction false} WindowIsRun(times: seq<int>, from: int) returns (i: nat, j: nat)
    requires NonDecreasing(times)
    ensures i <= j <= |times| && InWindow(times, from) == times[i..j]
    ensures forall k :: i <= k < j ==> from <= times[k] < from + RATE_LIMIT_WINDOW_MS
  {
    if times == [] {
      i, j := 0, 0;
    } else {
      var a, b := WindowIsRun(times[1..], from);
      i, j := a + 1, b + 1;
      assert times[1..][a..b] == times[a + 1..b + 1];
      assert forall k :: i <= k < j ==> times[k] == times[1..][k - 1];
      if from <= times[0] < from + RATE_LIMIT_WINDOW_MS {
        WindowStartsTail(times, from, a, b);
        i, j := 0, b - a + 1;
      }
    }
  }

  lemma WindowStartsTail(times: seq<int>, from: int, a: nat, b: nat)
    requires NonDecreasing(times) && times != [] && from <= times[0] < from + RATE_LIMIT_WINDOW_MS
    requires a <= b <= |times| - 1 && InWindow(times[1..], from) == times[1..][a..b]
    requires forall k :: a <= k < b ==> from <= times[1..][k] < from + RATE_LIMIT_WINDOW_MS
    ensures [times[0]] + times[1..][a..b] == times[0..b - a + 1]
    ensures forall k :: 0 <= k < b - a + 1 ==> from <= times[k] < from + RATE_LIMIT_WINDOW_MS
  {
    var tail := times[1..];
    assert forall k :: 0 <= k < |tail| ==> tail[k] >= times[0];
    HeadOfWindow(tail, from);
    assert |InWindow(tail, from)| == b - a;
    assert tail[..b - a] == tail[a..b];
    assert times[0..b - a + 1] == [times[0]] + tail[..b - a];
    forall k | 0 <= k < b - a + 1
      ensures from <= times[k] < from + RATE_LIMIT_WINDOW_MS
    {
      assert times[0..b - a + 1][k] == times[k];
      if k > 0 {
        assert times[k] == tail[..b - a][k - 1] == tail[a..b][k - 1] == tail[a + k - 1];
      }
    }
  }

  lemma {:induction false} HeadOfWindow(times: seq<int>, from: int)
    requires NonDecreasing(times) && forall k :: 0 <= k < |times| ==> times[k] >= from
    ensures |InWindow(times, from)| <= |times| && InWindow(times, from) == times[..|InWindow(times, from)|]
  {
    if times != [] {
      HeadOfWindow(times[1..], from);
      if times[0] < from + RATE_LIMIT_WINDOW_MS {
        assert times == [times[0]] + times[1..];
      } else {
        NoneInWindow(times[1..], from);
      }
    }
  }

  lemma {:induction false} NoneInWindow(times: seq<int>, from: int)
    requires forall k :: 0 <= k < |times| ==> times[k] >= from + RATE_LIMIT_WINDOW_MS
    ensures InWindow(times, from) == []
  {
    if times != [] {
      NoneInWindow(times[1..], from);
    }
  }

  /** With a clock that never goes back, every half-open window holds at most sixty accepted requests. */
  lemma WindowHoldsAtMostSixty(clock: int, times: seq<int>, from: int)
    requires NonDecreasing(times) && (times != [] ==> times[0] >= clock)
    ensures |InWindow(Run(Log([], [], clock), times).accepted, from)| <= RATE_LIMIT_CAPACITY
  {
    hide Run, Recent, InWindow;
    StartIsGood(clock);
    RunKeepsGood(Log([], [], clock), times);
    var accepted := Run(Log([], [], clock), times).accepted;
    var i, j := WindowIsRun(accepted, from);
    TightIsShort(accepted, i, j);
  }

  /** Accepted times that lie closer together than the window are at most sixty. */
  lemma TightIsShort(accepted: seq<int>, i: nat, j: nat)
    requires Spaced(accepted) && NonDecreasing(accepted) && i <= j <= |accepted|
    requires i < j ==> accepted[j - 1] - accepted[i] < RATE_LIMIT_WINDOW_MS
    ensures j - i <= RATE_LIMIT_CAPACITY
  {
    if i < j {
      var k := Min(i + RATE_LIMIT_CAPACITY, j - 1);
      assert accepted[k] <= accepted[j - 1];
    }
  }

  lemma StartIsGood(clock: int)
    ensures Good(Log([], [], clock))
  {
  }

  /** What is stored is always all that was accepted within the window before the last request. */
  lemma StoredIsTheWindow(clock: int, times: seq<int>)
    requires NonDecreasing(times) && (times != [] ==> times[0] >= clock)
    ensures var log := Run(Log([], [], clock), times);
            log.stored == Recent(log.accepted, log.clock - RATE_LIMIT_WINDOW_MS) && |log.stored| <= RATE_LIMIT_CAPACITY
  {
    hide Run, Recent;
    StartIsGood(clock);
    RunKeepsGood(Log([], [], clock), times);
    var log := Run(Log([], [], clock), times);
    RecentIsTail(log.accepted, log.clock - RATE_LIMIT_WINDOW_MS);
    TightIsShort(log.accepted, |log.accepted| - |log.stored|, |log.accepted|);
  }

  /** How many of the times are later than `from`. */
  function LaterThan(times: seq<int>, from: int): nat {
    |set i | 0 <= i < |times| && times[i] > from|
  }

  lemma {:induction false} RecentCounts(times: seq<int>, cutoff: int)
    ensures |Recent(times, cutoff)| == LaterThan(times, cutoff)
    decreases |times|
  {
    var later := set i | 0 <= i < |times| && times[i] > cutoff;
    if times != [] {
      var n := |times| - 1;
      RecentCounts(times[..n], cutoff);
      RecentOfSnoc(times[..n], times[n], cutoff);
      assert times == times[..n] + [times[n]];
      var before := set i | 0 <= i < |times[..n]| && times[..n][i] > cutoff;
      assert later == if times[n] > cutoff then before + {n} else before;
    } else {
      assert later == {};
    }
  }

  /** While the clock does not go back a request is refused exactly when sixty were accepted in the minute before it; an
      accepted one is recorded at its own time. */
  lemma RefusedIff(clock: int, times: seq<int>, now: int)
    requires NonDecreasing(times) && (times != [] ==> times[0] >= clock && times[|times| - 1] <= now) && clock <= now
    ensures var log := Run(Log([], [], clock), times);
            && (Request(log.stored, now).1 <==> LaterThan(log.accepted, now - 60_000) >= 60)
            && Step(log, now).accepted == if LaterThan(log.accepted, now - 60_000) >= 60 then log.accepted else log.accepted + [now]
  {
    hide Run, Good, LaterThan, NonDecreasing, Request, Step;
    var log := Run(Log([], [], clock), times);
    StartIsGood(clock);
    RunKeepsGood(Log([], [], clock), times);
    RunSetsClock(Log([], [], clock), times);
    NextRequest(log, now);
  }

  lemma NextRequest(log: Log, now: int)
    requires Good(log) && log.clock <= now
    ensures Request(log.stored, now).1 <==> LaterThan(log.accepted, now - 60_000) >= 60
    ensures Step(log, now).accepted == if LaterThan(log.accepted, now - 60_000) >= 60 then log.accepted else log.accepted + [now]
  {
    hide Recent, LaterThan, NonDecreasing, Spaced;
    RecentOfRecent(log.accepted, log.clock - RATE_LIMIT_WINDOW_MS, now - RATE_LIMIT_WINDOW_MS);
    RecentCounts(log.accepted, now - 60_000);
  }

  lemma {:induction false} RunSetsClock(log: Log, times: seq<int>)
    ensures Run(log, times).clock == if times == [] then log.clock else times[|times| - 1]
    decreases |times|
  {
    if times != [] {
      StepSetsClock(log, times[0]);
      RunSetsClock(Step(log, times[0]), times[1..]);
    }
  }

  lemma {:induction false} AllRecent(times: seq<int>, cutoff: int)
    requires forall i :: 0 <= i < |times| ==> times[i] > cutoff
    ensures Recent(times, cutoff) == times
  {
    if times != [] {
      AllRecent(times[1..], cutoff);
    }
  }

  lemma {:induction false} RunOfSnoc(log: Log, times: seq<int>, t: int)
    ensures Run(log, times + [t]) == Step(Run(log, times), t)
    decreases |times|
  {
    if times == [] {
      assert ([] + [t])[1..] == [];
    } else {
      assert (times + [t])[1..] == times[1..] + [t];
      RunOfSnoc(Step(log, times[0]), times[1..], t);
    }
  }

  // ---------------------------------------------------------------- any clock

  /** Reading `j` is a window or more past reading `i`, and reading `k` is back within a window of it. */
  ghost predicate SetsBack(clock: seq<int>, i: int, j: int, k: int) {
    && 0 <= i < j < k < |clock| && clock[j] - clock[i] >= RATE_LIMIT_WINDOW_MS
    && -RATE_LIMIT_WINDOW_MS < clock[k] - clock[i] < RATE_LIMIT_WINDOW_MS
  }

  ghost predicate NeverSetsBack(clock: seq<int>) {
    forall i, j, k :: !SetsBack(clock, i, j, k)
  }

  ghost predicate IsLimited(times: seq<int>) {
    forall from :: |InWindow(Run(Log([], [], 0), times).accepted, from)| <= RATE_LIMIT_CAPACITY
  }

  function Old(times: seq<int>, cutoff: int): seq<int> {
    if times == [] then []
    else if times[0] > cutoff then Old(times[1..], cutoff)
    else [times[0]] + Old(times[1..], cutoff)
  }

  lemma {:induction false} OldOrRecent(times: seq<int>, cutoff: int, from: int)
    ensures |InWindow(times, from)| == |InWindow(Recent(times, cutoff), from)| + |InWindow(Old(times, cutoff), from)|
    ensures |Recent(times, cutoff)| <= |times| && forall t :: t in Recent(times, cutoff) ==> t in times
    ensures forall t :: t in Old(times, cutoff) ==> t in times && t <= cutoff
  {
    if times != [] {
      OldOrRecent(times[1..], cutoff, from);
      var recent, gone := Recent(times[1..], cutoff), Old(times[1..], cutoff);
      assert ([times[0]] + recent)[1..] == recent && ([times[0]] + gone)[1..] == gone;
    }
  }

  lemma {:induction false} WindowOfConcat(a: seq<int>, b: seq<int>, from: int)
    ensures InWindow(a + b, from) == InWindow(a, from) + InWindow(b, from)
  {
    if a == [] {
      assert a + b == b;
    } else {
      assert (a + b)[1..] == a[1..] + b;
      WindowOfConcat(a[1..], b, from);
    }
  }

  lemma {:induction false} WindowIsPart(times: seq<int>, from: int)
    ensures |InWindow(times, from)| <= |times|
    ensures InWindow(times, from) != [] ==> exists t :: t in times && from <= t < from + RATE_LIMIT_WINDOW_MS
  {
    if times != [] {
      WindowIsPart(times[1..], from);
      if InWindow(times[1..], from) != [] {
        var t :| t in times[1..] && from <= t < from + RATE_LIMIT_WINDOW_MS;
        assert t in times;
      } else if InWindow(times, from) != [] {
        assert times[0] in times;
      }
    }
  }

  /** An accepted time that a later request dropped from the list. */
  ghost predicate WasDropped(times: seq<int>, t: int) {
    exists i, j :: 0 <= i < j < |times| && times[i] == t && times[j] - t >= RATE_LIMIT_WINDOW_MS
  }

  /** Every accepted time is stored or dropped. */
  ghost predicate Tracked(times: seq<int>, log: Log, dropped: seq<int>) {
    && |log.stored| <= RATE_LIMIT_CAPACITY
    && (forall t :: t in log.stored ==> t in times)
    && (forall t :: t in dropped ==> WasDropped(times, t))
    && (forall from :: |InWindow(log.accepted, from)| == |InWindow(log.stored, from)| + |InWindow(dropped, from)|)
  }

  lemma StepTracks(times: seq<int>, log: Log, dropped: seq<int>, now: int) returns (more: seq<int>)
    requires Tracked(times, log, dropped)
    ensures Tracked(times + [now], Step(log, now), more)
  {
    hide InWindow, Recent, Old;
    var cutoff := now - RATE_LIMIT_WINDOW_MS;
    var recent, gone := Recent(log.stored, cutoff), Old(log.stored, cutoff);
    var after := times + [now];
    more := dropped + gone;
    OldOrRecent(log.stored, cutoff, 0);
    forall t | t in more
      ensures WasDropped(after, t)
    {
      if t in dropped {
        var i, j :| 0 <= i < j < |times| && times[i] == t && times[j] - t >= RATE_LIMIT_WINDOW_MS;
        assert after[i] == t && after[j] == times[j];
      } else {
        var i :| 0 <= i < |times| && times[i] == t;
        assert after[i] == t && after[|times|] == now;
      }
    }
    forall from
      ensures |InWindow(Step(log, now).accepted, from)| == |InWindow(Step(log, now).stored, from)| + |InWindow(more, from)|
    {
      OldOrRecent(log.stored, cutoff, from);
      WindowOfConcat(dropped, gone, from);
      WindowOfConcat(recent, [now], from);
      WindowOfConcat(log.accepted, [now], from);
    }
  }

  lemma StepStaysLimited(times: seq<int>, log: Log, dropped: seq<int>, now: int, more: seq<int>, from: int)
    requires Tracked(times + [now], Step(log, now), more) && NeverSetsBack(times + [now])
    requires |InWindow(log.accepted, from)| <= RATE_LIMIT_CAPACITY
    ensures |InWindow(Step(log, now).accepted, from)| <= RATE_LIMIT_CAPACITY
  {
    hide Recent;
    var all := times + [now];
    if from <= now < from + RATE_LIMIT_WINDOW_MS {
      WindowIsPart(Step(log, now).stored, from);
      WindowIsPart(more, from);
      forall t | t in more
        ensures !(from <= t < from + RATE_LIMIT_WINDOW_MS)
      {
        var i: nat, j: nat :| i < j < |all| && all[i] == t && all[j] - t >= RATE_LIMIT_WINDOW_MS;
        assert all[|times|] == now;
        assert !SetsBack(all, i, j, |times|);
      }
    } else {
      WindowOfConcat(log.accepted, [now], from);
      assert [now][1..] == [];
      assert InWindow([now], from) == [];
    }
  }

  lemma NeverSetsBackPrefix(clock: seq<int>, n: nat)
    requires NeverSetsBack(clock) && n <= |clock|
    ensures NeverSetsBack(clock[..n])
  {
    forall i, j, k
      ensures !SetsBack(clock[..n], i, j, k)
    {
      assert !SetsBack(clock, i, j, k);
    }
  }

  lemma {:induction false} RunStaysLimited(times: seq<int>) returns (dropped: seq<int>)
    requires NeverSetsBack(times)
    ensures Tracked(times, Run(Log([], [], 0), times), dropped) && IsLimited(times)
    decreases |times|
  {
    hide InWindow, Step, Tracked, NeverSetsBack;
    if times == [] {
      dropped := [];
      NothingIsTracked();
    } else {
      var n := |times| - 1;
      var before, now := times[..n], times[n];
      assert times == before + [now];
      NeverSetsBackPrefix(times, n);
      var earlier := RunStaysLimited(before);
      var log := Run(Log([], [], 0), before);
      RunOfSnoc(Log([], [], 0), before, now);
      dropped := StepTracks(before, log, earlier, now);
      forall from
        ensures |InWindow(Run(Log([], [], 0), times).accepted, from)| <= RATE_LIMIT_CAPACITY
      {
        assert |InWindow(log.accepted, from)| <= RATE_LIMIT_CAPACITY;
        StepStaysLimited(before, log, earlier, now, dropped, from);
      }
    }
  }

  lemma NothingIsTracked()
    ensures Tracked([], Log([], [], 0), [])
    ensures forall from :: InWindow([], from) == []
  {
  }

  /** `counts[i]` requests at each reading of the clock. */
  function Requests(clock: seq<int>, counts: seq<nat>): seq<int>
    requires |counts| == |clock|
  {
    if clock == [] then []
    else
      var n := |clock| - 1;
      Requests(clock[..n], counts[..n]) + Repeat(clock[n], counts[n])
  }

  lemma {:induction false} RequestsFollowTheClock(clock: seq<int>, counts: seq<nat>) returns (at: seq<nat>)
    requires |counts| == |clock|
    ensures |at| == |Requests(clock, counts)|
    ensures forall i :: 0 <= i < |at| ==> at[i] < |clock| && Requests(clock, counts)[i] == clock[at[i]]
    ensures forall i, j :: 0 <= i < j < |at| ==> at[i] <= at[j]
    decreases |clock|
  {
    if clock == [] {
      at := [];
    } else {
      var n := |clock| - 1;
      var before := RequestsFollowTheClock(clock[..n], counts[..n]);
      at := before + Repeat(n, counts[n]);
    }
  }

  lemma RequestsNeverSetBack(clock: seq<int>, counts: seq<nat>)
    requires |counts| == |clock| && NeverSetsBack(clock)
    ensures NeverSetsBack(Requests(clock, counts))
  {
    hide Requests;
    var at := RequestsFollowTheClock(clock, counts);
    forall i, j, k
      ensures !SetsBack(Requests(clock, counts), i, j, k)
    {
      if 0 <= i < j < k < |at| {
        assert !SetsBack(clock, at[i], at[j], at[k]);
      }
    }
  }

  /** Sixty requests at `i`, one at `j`, one at `k`. */
  function Burst(length: nat, i: nat, j: nat, k: nat): (counts: seq<nat>)
    ensures |counts| == length
  {
    seq(length, x requires 0 <= x < length => if x == i then RATE_LIMIT_CAPACITY else if x == j || x == k then 1 else 0)
  }

  lemma {:induction false} BurstRequests(clock: seq<int>, n: nat, i: nat, j: nat, k: nat)
    requires i < j < k < |clock| && n <= |clock|
    ensures Requests(clock[..n], Burst(|clock|, i, j, k)[..n]) ==
            (if i < n then Repeat(clock[i], RATE_LIMIT_CAPACITY) else []) + (if j < n then [clock[j]] else []) + (if k < n then [clock[k]] else [])
  {
    if n > 0 {
      BurstRequests(clock, n - 1, i, j, k);
      var counts := Burst(|clock|, i, j, k);
      assert clock[..n][..n - 1] == clock[..n - 1] && counts[..n][..n - 1] == counts[..n - 1];
      assert clock[..n][n - 1] == clock[n - 1] && counts[..n][n - 1] == counts[n - 1];
      assert Repeat(clock[n - 1], 0) == [] && Repeat(clock[n - 1], 1) == [clock[n - 1]];
    }
  }

  lemma {:induction false} ManyAtOnce(t: int, n: nat)
    requires n <= RATE_LIMIT_CAPACITY
    ensures var log := Run(Log([], [], 0), Repeat(t, n)); log.stored == log.accepted == Repeat(t, n)
  {
    if n == 0 {
      assert Repeat(t, 0) == [];
    } else {
      ManyAtOnce(t, n - 1);
      RunOfSnoc(Log([], [], 0), Repeat(t, n - 1), t);
      assert Repeat(t, n) == Repeat(t, n - 1) + [t];
      AllRecent(Repeat(t, n - 1), t - RATE_LIMIT_WINDOW_MS);
    }
  }

  lemma {:induction false} NoneRecent(times: seq<int>, cutoff: int)
    requires forall i :: 0 <= i < |times| ==> times[i] <= cutoff
    ensures Recent(times, cutoff) == []
  {
    if times != [] {
      NoneRecent(times[1..], cutoff);
    }
  }

  lemma {:induction false} AllInWindow(times: seq<int>, from: int, more: seq<int>)
    requires forall i :: 0 <= i < |times| ==> from <= times[i] < from + RATE_LIMIT_WINDOW_MS
    ensures InWindow(times + more, from) == times + InWindow(more, from)
  {
    if times == [] {
      assert times + more == more;
    } else {
      assert (times + more)[1..] == times[1..] + more;
      AllInWindow(times[1..], from, more);
    }
  }

  /** Sixty requests, one that prunes them, and one back in their window. */
  lemma SetBackBreaksTheLimit(a: int, b: int, c: int)
    requires b - a >= RATE_LIMIT_WINDOW_MS && -RATE_LIMIT_WINDOW_MS < c - a < RATE_LIMIT_WINDOW_MS
    ensures |InWindow(Run(Log([], [], 0), Repeat(a, RATE_LIMIT_CAPACITY) + [b] + [c]).accepted, Min(a, c))| > RATE_LIMIT_CAPACITY
  {
    hide Run;
    var first, from := Repeat(a, RATE_LIMIT_CAPACITY), Min(a, c);
    ManyAtOnce(a, RATE_LIMIT_CAPACITY);
    RunOfSnoc(Log([], [], 0), first, b);
    RunOfSnoc(Log([], [], 0), first + [b], c);
    NoneRecent(first, b - RATE_LIMIT_WINDOW_MS);
    var second := Step(Run(Log([], [], 0), first), b);
    assert second.stored == [b];
    AllRecent([b], c - RATE_LIMIT_WINDOW_MS);
    assert Step(second, c).accepted == first + [b, c];
    AllInWindow(first, from, [b, c]);
    WindowOfConcat([b], [c], from);
    assert [b] + [c] == [b, c] && [c][1..] == [];
    assert InWindow([c], from) == [c];
  }

  /** A clock keeps the limit, however many requests come at each of its readings, exactly when it never goes a
      window ahead of a reading and then back to within a window of it. */
  lemma LimitHoldsIff(clock: seq<int>)
    ensures (forall counts: seq<nat> :: |counts| == |clock| ==> IsLimited(Requests(clock, counts))) <==> NeverSetsBack(clock)
  {
    hide IsLimited, Requests;
    if NeverSetsBack(clock) {
      forall counts: seq<nat> | |counts| == |clock|
        ensures IsLimited(Requests(clock, counts))
      {
        RequestsNeverSetBack(clock, counts);
        var dropped := RunStaysLimited(Requests(clock, counts));
      }
    } else {
      var i: nat, j: nat, k: nat :| SetsBack(clock, i, j, k);
      var counts := Burst(|clock|, i, j, k);
      SetBackIsNotLimited(clock, i, j, k);
      assert |counts| == |clock| && !IsLimited(Requests(clock, counts));
    }
  }

  lemma SetBackIsNotLimited(clock: seq<int>, i: int, j: int, k: int)
    requires SetsBack(clock, i, j, k)
    ensures !IsLimited(Requests(clock, Burst(|clock|, i, j, k)))
  {
    hide Run, InWindow, Requests;
    BurstRequests(clock, |clock|, i, j, k);
    assert clock[..|clock|] == clock && Burst(|clock|, i, j, k)[..|clock|] == Burst(|clock|, i, j, k);
    SetBackBreaksTheLimit(clock[i], clock[j], clock[k]);
  }

  // ---------------------------------------------------------------- the server's table

  class ServerState {
    var rate: map<RoutineId, seq<int>>

    constructor ()
      ensures rate == map[]
    {
      rate := map[];
    }

    method IsRateLimited(routineId: RoutineId, now: int) returns (limited: bool)
      modifies this
      ensures var stored := if routineId in old(rate) then old(rate)[routineId] else [];
              (rate, limited) == (old(rate)[routineId := Request(stored, now).0], Request(stored, now).1)
    {
      var arr := if routineId in rate then rate[routineId] else [];
      var cutoff := now - RATE_LIMIT_WINDOW_MS;
      var recent: seq<int> := [];
      var i := |arr|;
      while i > 0
        invariant 0 <= i <= |arr|
        invariant recent == Recent(arr[i..], cutoff)
      {
        i := i - 1;
        assert arr[i..][1..] == arr[i + 1..];
        if arr[i] > cutoff {
          recent := [arr[i]] + recent;
        }
      }
      if |recent| >= RATE_LIMIT_CAPACITY {
        rate := rate[routineId := recent];
        return true;
      }
      rate := rate[routineId := recent + [now]];
      return false;
    }
  }
}
