// A push trigger that polls several branches is one single-cursor poller for each of them.
module GithubBranches {
  import opened Common
  import opened GithubPoller

  /** The events of one branch, in order. */
  function Of(branch: string, events: seq<Event>): seq<Event> {
    if events == [] then []
    else if events[0].branch == Some(branch) then [events[0]] + Of(branch, events[1..])
    else Of(branch, events[1..])
  }

  lemma {:induction false} OfConcat(branch: string, a: seq<Event>, b: seq<Event>)
    ensures Of(branch, a + b) == Of(branch, a) + Of(branch, b)
  {
    if a == [] {
      assert a + b == b;
    } else {
      assert (a + b)[1..] == a[1..] + b;
      OfConcat(branch, a[1..], b);
    }
  }

  lemma {:induction false} AllOf(branch: string, events: seq<Event>)
    requires forall i :: 0 <= i < |events| ==> events[i].branch == Some(branch)
    ensures Of(branch, events) == events
  {
    if events != [] {
      AllOf(branch, events[1..]);
    }
  }

  lemma {:induction false} NoneOf(branch: string, events: seq<Event>)
    requires forall i :: 0 <= i < |events| ==> events[i].branch != Some(branch)
    ensures Of(branch, events) == []
  {
    if events != [] {
      NoneOf(branch, events[1..]);
    }
  }

  // ---------------------------------------------------------------- the sort, seen from one branch

  function OnBranch(branch: string, events: seq<Event>, order: seq<nat>): seq<nat>
    requires AllBelow(order, |events|)
  {
    if order == [] then []
    else if events[order[0]].branch == Some(branch) then [order[0]] + OnBranch(branch, events, order[1..])
    else OnBranch(branch, events, order[1..])
  }

  lemma {:induction false} InsertRestricts(branch: string, events: seq<Event>, i: nat, sorted: seq<nat>)
    requires i < |events| && AllBelow(sorted, i)
    requires AllBelow(sorted, |events|)
    requires var mine := OnBranch(branch, events, sorted);
             events[i].branch == Some(branch) && mine != [] ==> AllBelow(mine, |events|) && GoesFirst(events, i, mine[0])
    ensures AllBelow(InsertIndex(events, i, sorted), |events|)
    ensures OnBranch(branch, events, InsertIndex(events, i, sorted)) ==
            (if events[i].branch == Some(branch) then [i] else []) + OnBranch(branch, events, sorted)
  {
    var r := InsertIndex(events, i, sorted);
    assert AllBelow(r, i + 1);
    if sorted == [] {
      assert r[1..] == [];
    } else if GoesFirst(events, i, sorted[0]) {
      assert r[1..] == sorted;
    } else {
      assert sorted[0] < i;
      InsertRestricts(branch, events, i, sorted[1..]);
      assert r[1..] == InsertIndex(events, i, sorted[1..]);
    }
  }

  function CountdownOn(branch: string, events: seq<Event>, n: nat): (r: seq<nat>)
    requires n <= |events|
    ensures AllBelow(r, n)
  {
    if n == 0 then []
    else if events[n - 1].branch == Some(branch) then [n - 1] + CountdownOn(branch, events, n - 1)
    else CountdownOn(branch, events, n - 1)
  }

  /** The latest of the branch's events so far comes first among them, and the next one goes before it. */
  lemma NextGoesFirst(branch: string, events: seq<Event>, n: nat)
    requires n < |events| && Descends(Of(branch, events)) && events[n].branch == Some(branch)
    ensures var mine := CountdownOn(branch, events, n); mine != [] ==> AllBelow(mine, |events|) && GoesFirst(events, n, mine[0])
  {
    hide Of, Pick;
    var mine := CountdownOn(branch, events, n);
    assert AllBelow(mine, |events|);
    if mine != [] {
      var before, e, all := Of(branch, events[..n]), events[n], Of(branch, events);
      PickedCountdown(branch, events, n);
      assert |before| > 0 && before[|before| - 1] == events[mine[0]];
      assert events == events[..n] + [e] + events[n + 1..];
      OfConcat(branch, events[..n] + [e], events[n + 1..]);
      OfConcat(branch, events[..n], [e]);
      AllOf(branch, [e]);
      assert all[|before|] == e && all[|before| - 1] == events[mine[0]];
      assert Follows(all, |before|);
    }
  }

  lemma {:induction false} SortRestricts(branch: string, events: seq<Event>, n: nat)
    requires n <= |events| && Descends(Of(branch, events))
    ensures AllBelow(SortedIndices(events, n), |events|)
    ensures OnBranch(branch, events, SortedIndices(events, n)) == CountdownOn(branch, events, n)
  {
    hide Of, InsertIndex;
    if n > 0 {
      var m: nat := n - 1;
      SortRestricts(branch, events, m);
      if events[m].branch == Some(branch) {
        NextGoesFirst(branch, events, m);
      }
      InsertRestricts(branch, events, m, SortedIndices(events, m));
    }
  }

  lemma {:induction false} OfPicked(branch: string, events: seq<Event>, order: seq<nat>)
    requires AllBelow(order, |events|)
    ensures AllBelow(OnBranch(branch, events, order), |events|)
    ensures Of(branch, Pick(events, order)) == Pick(events, OnBranch(branch, events, order))
    decreases |order|
  {
    if order == [] {
      assert Pick(events, order) == [];
    } else {
      OfPicked(branch, events, order[1..]);
      assert Pick(events, order)[1..] == Pick(events, order[1..]);
      var kept := OnBranch(branch, events, order[1..]);
      assert Pick(events, [order[0]] + kept) == [events[order[0]]] + Pick(events, kept);
    }
  }

  lemma {:induction false} PickedCountdown(branch: string, events: seq<Event>, n: nat)
    requires n <= |events|
    ensures AllBelow(CountdownOn(branch, events, n), |events|)
    ensures Pick(events, CountdownOn(branch, events, n)) == Reversed(Of(branch, events[..n]))
  {
    hide Of, Pick, Reversed;
    if n == 0 {
      assert events[..0] == [];
      NoneOf(branch, []);
      PickNothing(events);
    } else {
      var e, before := events[n - 1], Of(branch, events[..n - 1]);
      PickedCountdown(branch, events, n - 1);
      assert events[..n] == events[..n - 1] + [e];
      OfConcat(branch, events[..n - 1], [e]);
      if e.branch == Some(branch) {
        AllOf(branch, [e]);
        PickOneMore(events, n - 1, CountdownOn(branch, events, n - 1), before);
      } else {
        NoneOf(branch, [e]);
        assert before + [] == before;
      }
    }
  }

  lemma PickNothing(events: seq<Event>)
    ensures Pick(events, []) == Reversed([])
  {
  }

  lemma PickOneMore(events: seq<Event>, i: nat, order: seq<nat>, before: seq<Event>)
    requires i < |events| && AllBelow(order, |events|) && Pick(events, order) == Reversed(before)
    ensures Pick(events, [i] + order) == Reversed(before + [events[i]])
  {
    assert Pick(events, [i] + order) == [events[i]] + Pick(events, order);
    assert Reversed(before + [events[i]]) == [events[i]] + Reversed(before);
  }

  lemma ChronologicalOnBranch(branch: string, events: seq<Event>)
    requires Descends(Of(branch, events))
    ensures Of(branch, Chronological(events)) == Reversed(Of(branch, events))
  {
    hide Of, SortedIndices, OnBranch, CountdownOn, AllBelow;
    var n := |events|;
    SortRestricts(branch, events, n);
    var order := SortedIndices(events, n);
    assert Chronological(events) == Pick(events, order);
    OfPicked(branch, events, order);
    PickedCountdown(branch, events, n);
    assert events[..n] == events;
  }

  // ---------------------------------------------------------------- and only then

  /** The branch's events stand together, as one poll brings them. */
  ghost predicate Together(branch: string, events: seq<Event>) {
    forall i, j, k :: 0 <= i < j < k < |events| && events[i].branch == Some(branch) && events[k].branch == Some(branch) ==>
      events[j].branch == Some(branch)
  }

  /** What does not go before its neighbour stays behind it, since both pass the same ones. */
  lemma {:induction false} StaysBehind(branch: string, events: seq<Event>, i: nat, sorted: seq<nat>)
    requires 0 < i < |events| && AllBelow(sorted, i - 1) && !Follows(events, i)
    requires events[i].branch == Some(branch) && events[i - 1].branch == Some(branch)
    ensures AllBelow(InsertIndex(events, i - 1, sorted), i) && AllBelow(InsertIndex(events, i, InsertIndex(events, i - 1, sorted)), |events|)
    ensures var mine := OnBranch(branch, events, InsertIndex(events, i, InsertIndex(events, i - 1, sorted))); mine != [] && mine[0] != i
  {
    var s := InsertIndex(events, i - 1, sorted);
    assert AllBelow(s, i);
    var r := InsertIndex(events, i, s);
    assert AllBelow(r, i + 1);
    if sorted == [] || GoesFirst(events, i - 1, sorted[0]) {
      assert r[0] == s[0] == i - 1;
    } else {
      StaysBehind(branch, events, i, sorted[1..]);
      assert s[0] == sorted[0] && s[1..] == InsertIndex(events, i - 1, sorted[1..]);
      assert !GoesFirst(events, i, sorted[0]);
      assert r[0] == sorted[0] && r[1..] == InsertIndex(events, i, s[1..]);
    }
  }

  /** Taking the inserted index away again. */
  lemma {:induction false} InsertedOnBranch(branch: string, events: seq<Event>, i: nat, sorted: seq<nat>)
    requires i < |events| && AllBelow(sorted, i)
    ensures AllBelow(sorted, |events|) && AllBelow(InsertIndex(events, i, sorted), |events|)
    ensures var mine := OnBranch(branch, events, InsertIndex(events, i, sorted));
            if events[i].branch == Some(branch) then mine != [] && (mine[0] == i ==> mine[1..] == OnBranch(branch, events, sorted))
            else mine == OnBranch(branch, events, sorted)
  {
    var r := InsertIndex(events, i, sorted);
    assert AllBelow(r, i + 1);
    if sorted == [] {
      assert r[1..] == [];
    } else if GoesFirst(events, i, sorted[0]) {
      assert r[1..] == sorted;
    } else {
      InsertedOnBranch(branch, events, i, sorted[1..]);
      assert r[0] == sorted[0] && r[1..] == InsertIndex(events, i, sorted[1..]);
      assert sorted[0] < i;
    }
  }

  /** If the branch's part counts down in the end, it did all along, so each event went before its neighbour. */
  lemma {:induction false} CountsDownOnly(branch: string, events: seq<Event>, n: nat)
    requires n <= |events| && AllBelow(SortedIndices(events, n), |events|)
    requires OnBranch(branch, events, SortedIndices(events, n)) == CountdownOn(branch, events, n)
    ensures forall i :: 0 < i < n && events[i].branch == Some(branch) && events[i - 1].branch == Some(branch) ==> Follows(events, i)
  {
    hide InsertIndex, OnBranch;
    if n > 0 {
      var m: nat := n - 1;
      InsertedOnBranch(branch, events, m, SortedIndices(events, m));
      assert OnBranch(branch, events, SortedIndices(events, m)) == CountdownOn(branch, events, m) by {
        if events[m].branch == Some(branch) {
          assert CountdownOn(branch, events, n)[1..] == CountdownOn(branch, events, m);
        }
      }
      CountsDownOnly(branch, events, m);
      if m > 0 && events[m].branch == Some(branch) && events[m - 1].branch == Some(branch) && !Follows(events, m) {
        StaysBehind(branch, events, m, SortedIndices(events, m - 1));
      }
    }
  }

  lemma {:induction false} NeighboursDescend(branch: string, events: seq<Event>)
    requires Together(branch, events)
    requires forall i :: 0 < i < |events| && events[i].branch == Some(branch) && events[i - 1].branch == Some(branch) ==> Follows(events, i)
    ensures Descends(Of(branch, events))
  {
    if events != [] {
      var tail := events[1..];
      assert forall i :: 0 <= i < |tail| ==> tail[i] == events[i + 1];
      forall i | 0 < i < |tail| && tail[i].branch == Some(branch) && tail[i - 1].branch == Some(branch)
        ensures Follows(tail, i)
      {
        assert Follows(events, i + 1);
      }
      NeighboursDescend(branch, tail);
      if events[0].branch == Some(branch) && Of(branch, tail) != [] {
        HeadOfTogether(branch, events);
        assert Follows(events, 1);
        OneMoreDescends(events[0], Of(branch, tail));
      }
    }
  }

  lemma HeadOfTogether(branch: string, events: seq<Event>)
    requires Together(branch, events) && events != [] && events[0].branch == Some(branch) && Of(branch, events[1..]) != []
    ensures |events| > 1 && events[1].branch == Some(branch) && Of(branch, events[1..])[0] == events[1]
  {
    var tail := events[1..];
    if tail[0].branch != Some(branch) {
      forall i | 0 <= i < |tail|
        ensures tail[i].branch != Some(branch)
      {
        assert tail[i] == events[i + 1] && tail[0] == events[1];
      }
      NoneOf(branch, tail);
    }
  }

  lemma OneMoreDescends(e: Event, rest: seq<Event>)
    requires Descends(rest) && rest != [] && Follows([e, rest[0]], 1)
    ensures Descends([e] + rest)
  {
    var all := [e] + rest;
    forall i | 0 < i < |all|
      ensures Follows(all, i)
    {
      if i > 1 {
        assert Follows(rest, i - 1);
      }
    }
  }

  lemma {:induction false} OnBranchIsCountdown(branch: string, events: seq<Event>, order: seq<nat>)
    requires NoDuplicates(Of(branch, events)) && AllBelow(order, |events|)
    requires AllBelow(OnBranch(branch, events, order), |events|)
    requires Pick(events, OnBranch(branch, events, order)) == Reversed(Of(branch, events))
    ensures OnBranch(branch, events, order) == CountdownOn(branch, events, |events|)
  {
    hide Of, Pick, OnBranch, CountdownOn;
    var n := |events|;
    var mine, down := OnBranch(branch, events, order), CountdownOn(branch, events, n);
    PickedCountdown(branch, events, n);
    assert events[..n] == events;
    assert |mine| == |down|;
    IsOnBranch(branch, events, order);
    forall k | 0 <= k < |mine|
      ensures mine[k] == down[k]
    {
      assert events[mine[k]] == events[down[k]];
      if mine[k] != down[k] {
        TwoPlaces(branch, events, Min(mine[k], down[k]), Max(mine[k], down[k]));
      }
    }
  }

  lemma {:induction false} IsOnBranch(branch: string, events: seq<Event>, order: seq<nat>)
    requires AllBelow(order, |events|)
    ensures var mine := OnBranch(branch, events, order);
            AllBelow(mine, |events|) && forall k :: 0 <= k < |mine| ==> events[mine[k]].branch == Some(branch)
  {
    if order != [] {
      IsOnBranch(branch, events, order[1..]);
    }
  }

  lemma TwoPlaces(branch: string, events: seq<Event>, i: nat, j: nat)
    requires i < j < |events| && events[i].branch == Some(branch) && events[j].branch == Some(branch)
    requires NoDuplicates(Of(branch, events))
    ensures events[i] != events[j]
  {
    hide Of;
    var front, back := events[..j], events[j..];
    assert events == front + back;
    OfConcat(branch, front, back);
    var p := PlaceOf(branch, front, i);
    var q := PlaceOf(branch, back, 0);
    var all := Of(branch, events);
    assert all[p] == events[i] && all[|Of(branch, front)| + q] == events[j];
  }

  lemma {:induction false} PlaceOf(branch: string, events: seq<Event>, j: nat) returns (k: nat)
    requires j < |events| && events[j].branch == Some(branch)
    ensures k < |Of(branch, events)| && Of(branch, events)[k] == events[j]
    decreases |events|
  {
    if j == 0 {
      k := 0;
    } else {
      k := PlaceOf(branch, events[1..], j - 1);
      if events[0].branch == Some(branch) {
        k := k + 1;
      }
    }
  }

  /** Whatever the other branches bring, each branch's part of a batch comes out in the order of arrival exactly when
      its own times follow it. */
  lemma ChronologicalOnBranchIff(branch: string, events: seq<Event>)
    requires Together(branch, events) && NoDuplicates(Of(branch, events))
    ensures Of(branch, Chronological(events)) == Reversed(Of(branch, events)) <==> Descends(Of(branch, events))
  {
    hide Of, SortedIndices, OnBranch, CountdownOn, AllBelow, Together, NoDuplicates, Descends, Follows, Pick;
    if Descends(Of(branch, events)) {
      ChronologicalOnBranch(branch, events);
    }
    if Of(branch, Chronological(events)) == Reversed(Of(branch, events)) {
      var order := SortedIndices(events, |events|);
      SortRestrictsBelow(events);
      OfPicked(branch, events, order);
      OnBranchIsCountdown(branch, events, order);
      CountsDownOnly(branch, events, |events|);
      NeighboursDescend(branch, events);
    }
  }

  lemma SortRestrictsBelow(events: seq<Event>)
    ensures AllBelow(SortedIndices(events, |events|), |events|)
    ensures Chronological(events) == Pick(events, SortedIndices(events, |events|))
  {
  }

  lemma {:induction false} OfCounts(branch: string, events: seq<Event>, e: Event)
    ensures multiset(Of(branch, events))[e] == if e.branch == Some(branch) then multiset(events)[e] else 0
  {
    if events != [] {
      OfCounts(branch, events[1..], e);
      assert events == [events[0]] + events[1..];
    }
  }

  /** Whatever the times, it comes out whole. */
  lemma ChronologicalKeepsBranch(branch: string, events: seq<Event>)
    ensures multiset(Of(branch, Chronological(events))) == multiset(Of(branch, events))
  {
    hide Of, Chronological;
    ChronologicalIsPermutation(events);
    forall e
      ensures multiset(Of(branch, Chronological(events)))[e] == multiset(Of(branch, events))[e]
    {
      OfCounts(branch, events, e);
      OfCounts(branch, Chronological(events), e);
    }
  }

  // ---------------------------------------------------------------- several branches, polled together

  /** A repository as a push trigger sees it: each branch's feed, the stored cursors, all that was handed on. */
  datatype Site = Site(feeds: map<string, seq<Event>>, cursors: map<string, EventId>, handed: seq<Event>)

  datatype SiteEvent =
    | Lands(e: Event)                     // a commit on a branch
    | Ticks(answers: seq<PollEvent>)      // one poll cycle: what came back for each polled branch

  function FeedOf(s: Site, branch: string): seq<Event> {
    if branch in s.feeds then s.feeds[branch] else []
  }

  function CursorOf(cursors: map<string, EventId>, branch: string): Option<EventId> {
    if branch in cursors then Some(cursors[branch]) else None
  }

  ghost predicate SiteEnabled(s: Site, branches: seq<string>, e: SiteEvent) {
    match e
    case Lands(ev) => ev.branch.Some? && DistinctIds(FeedOf(s, ev.branch.value) + [ev])
    case Ticks(answers) =>
      |answers| == |branches|
      && forall i :: 0 <= i < |answers| ==> !answers[i].Arrives? && (answers[i].Succeeds? ==> answers[i].from <= |FeedOf(s, branches[i])|)
  }

  function PollsOf(s: Site, branches: seq<string>, answers: seq<PollEvent>): (polls: seq<BranchPoll>)
    requires |answers| == |branches|
    requires forall i :: 0 <= i < |answers| ==> answers[i].Succeeds? ==> answers[i].from <= |FeedOf(s, branches[i])|
    ensures |polls| == |branches|
    ensures forall i :: 0 <= i < |polls| ==> polls[i].branch == branches[i] && polls[i].ok == answers[i].Succeeds?
                                             && (polls[i].ok ==> polls[i].page == PageOf(FeedOf(s, branches[i]), answers[i].from))
  {
    seq(|branches|, i requires 0 <= i < |branches| =>
      BranchPoll(branches[i], answers[i].Succeeds?, if answers[i].Succeeds? then PageOf(FeedOf(s, branches[i]), answers[i].from) else []))
  }

  /** One step of the code: a commit lands, or a poll cycle runs over all branches and sorts what it found. */
  function SiteStep(t: Trigger, branches: seq<string>, s: Site, e: SiteEvent): Site
    requires SiteEnabled(s, branches, e)
  {
    match e
    case Lands(ev) => s.(feeds := s.feeds[ev.branch.value := FeedOf(s, ev.branch.value) + [ev]])
    case Ticks(answers) =>
      var (cursors, arrived) := PollBranches(t, PollsOf(s, branches, answers), s.cursors);
      s.(cursors := cursors, handed := s.handed + Chronological(arrived))
  }

  ghost predicate SiteRuns(t: Trigger, branches: seq<string>, s: Site, es: seq<SiteEvent>, last: Site)
    decreases |es|
  {
    if es == [] then s == last
    else SiteEnabled(s, branches, es[0]) && SiteRuns(t, branches, SiteStep(t, branches, s, es[0]), es[1..], last)
  }

  // ---------------------------------------------------------------- the same, seen from one branch

  /** What an event is to branch number `k`. */
  function Seen(branches: seq<string>, k: nat, e: SiteEvent): PollEvent
    requires k < |branches| && (e.Ticks? ==> |e.answers| == |branches|)
  {
    match e
    case Lands(ev) => if ev.branch == Some(branches[k]) then Arrives(ev) else FailsOrIsPaused
    case Ticks(answers) => answers[k]
  }

  /** A single-cursor poller agrees with the site about one branch. */
  ghost predicate Linked(s: Site, branch: string, w: Watch) {
    && w.feed == FeedOf(s, branch)
    && w.cursor == CursorOf(s.cursors, branch)
    && multiset(w.handed) == multiset(Of(branch, s.handed))
  }

  ghost predicate Tagged(s: Site) {
    forall b, i :: b in s.feeds && 0 <= i < |s.feeds[b]| ==> s.feeds[b][i].branch == Some(b)
  }

  lemma PageIsTagged(s: Site, branch: string, from: nat)
    requires Tagged(s) && from <= |FeedOf(s, branch)|
    ensures forall i :: 0 <= i < |PageOf(FeedOf(s, branch), from)| ==> PageOf(FeedOf(s, branch), from)[i].branch == Some(branch)
  {
  }

  lemma ArrivedIsTagged(t: Trigger, p: BranchPoll, cursor: Option<EventId>)
    requires forall i :: 0 <= i < |p.page| ==> p.page[i].branch == Some(p.branch)
    ensures var arrived := Filtered(t, AfterCursor(p.page, cursor).arrived);
            forall i :: 0 <= i < |arrived| ==> arrived[i].branch == Some(p.branch)
  {
    var at := FilteredKeepsOrder(t, AfterCursor(p.page, cursor).arrived);
  }

  /** What one cycle brings for one branch is what its own poll brings against its own cursor. */
  lemma {:induction false} BranchOfCycle(t: Trigger, polls: seq<BranchPoll>, cursors: map<string, EventId>, branch: string)
    requires DistinctBranches(polls)
    requires forall p, i :: p in polls && 0 <= i < |p.page| ==> p.page[i].branch == Some(p.branch)
    ensures (forall i :: 0 <= i < |polls| ==> polls[i].branch != branch) ==>
              Of(branch, PollBranches(t, polls, cursors).1) == [] && CursorOf(PollBranches(t, polls, cursors).0, branch) == CursorOf(cursors, branch)
    ensures forall i :: 0 <= i < |polls| && polls[i].branch == branch ==>
              && Of(branch, PollBranches(t, polls, cursors).1) == BranchStep(t, polls[i], cursors).1
              && CursorOf(PollBranches(t, polls, cursors).0, branch) == CursorOf(BranchStep(t, polls[i], cursors).0, branch)
    decreases |polls|
  {
    hide Filtered, AfterCursor, Of, BranchStep, CursorOf;
    if polls == [] {
      assert Of(branch, []) == [] by {
        NoneOf(branch, []);
      }
    } else {
      var n := |polls| - 1;
      assert polls[n] in polls && forall q :: q in polls[..n] ==> q in polls;
      BranchOfCycle(t, polls[..n], cursors, branch);
      OneMorePoll(t, polls, cursors, branch);
    }
  }

  /** The last poll of a cycle adds its own batch, which concerns its own branch only. */
  lemma OneMorePoll(t: Trigger, polls: seq<BranchPoll>, cursors: map<string, EventId>, branch: string)
    requires polls != []
    requires forall p, i :: p in polls && 0 <= i < |p.page| ==> p.page[i].branch == Some(p.branch)
    ensures var n := |polls| - 1;
            var before, after := PollBranches(t, polls[..n], cursors), PollBranches(t, polls, cursors);
            if polls[n].branch == branch && CursorOf(before.0, branch) == CursorOf(cursors, branch) then
              && Of(branch, after.1) == Of(branch, before.1) + BranchStep(t, polls[n], cursors).1
              && CursorOf(after.0, branch) == CursorOf(BranchStep(t, polls[n], cursors).0, branch)
            else if polls[n].branch != branch then
              Of(branch, after.1) == Of(branch, before.1) && CursorOf(after.0, branch) == CursorOf(before.0, branch)
            else true
  {
    hide Filtered, AfterCursor, Of, BranchStep, CursorOf;
    var n := |polls| - 1;
    var p, before := polls[n], PollBranches(t, polls[..n], cursors);
    var more := BranchStep(t, p, before.0).1;
    OfConcat(branch, before.1, more);
    assert p in polls;
    BranchStepIsTagged(t, p, before.0);
    if p.branch == branch {
      AllOf(branch, more);
      if CursorOf(before.0, branch) == CursorOf(cursors, branch) {
        SameCursorSameStep(t, p, before.0, cursors);
      }
    } else {
      NoneOf(branch, more);
      assert Of(branch, before.1) + [] == Of(branch, before.1);
    }
  }

  lemma BranchStepIsTagged(t: Trigger, p: BranchPoll, cursors: map<string, EventId>)
    requires forall i :: 0 <= i < |p.page| ==> p.page[i].branch == Some(p.branch)
    ensures var more := BranchStep(t, p, cursors).1; forall i :: 0 <= i < |more| ==> more[i].branch == Some(p.branch)
    ensures forall b :: b != p.branch ==> CursorOf(BranchStep(t, p, cursors).0, b) == CursorOf(cursors, b)
  {
    hide Filtered, AfterCursor;
    BranchStepIs(t, p, cursors);
    ArrivedIsTagged(t, p, CursorOf(cursors, p.branch));
  }

  lemma BranchStepIs(t: Trigger, p: BranchPoll, cursors: map<string, EventId>)
    ensures var batch := AfterCursor(p.page, CursorOf(cursors, p.branch));
            && BranchStep(t, p, cursors).1 == (if p.ok then Filtered(t, batch.arrived) else [])
            && CursorOf(BranchStep(t, p, cursors).0, p.branch) == (if p.ok && batch.next.Some? then batch.next else CursorOf(cursors, p.branch))
  {
    hide Filtered, AfterCursor;
  }

  lemma SameCursorSameStep(t: Trigger, p: BranchPoll, a: map<string, EventId>, b: map<string, EventId>)
    requires CursorOf(a, p.branch) == CursorOf(b, p.branch)
    ensures BranchStep(t, p, a).1 == BranchStep(t, p, b).1
    ensures CursorOf(BranchStep(t, p, a).0, p.branch) == CursorOf(BranchStep(t, p, b).0, p.branch)
  {
    hide BranchStep;
    BranchStepIs(t, p, a);
    BranchStepIs(t, p, b);
  }

  lemma PollsAreTagged(s: Site, branches: seq<string>, answers: seq<PollEvent>)
    requires Tagged(s) && SiteEnabled(s, branches, Ticks(answers))
    ensures var polls := PollsOf(s, branches, answers);
            forall p, i :: p in polls && 0 <= i < |p.page| ==> p.page[i].branch == Some(p.branch)
  {
    hide PageOf, Tagged;
    var polls := PollsOf(s, branches, answers);
    forall p, i | p in polls && 0 <= i < |p.page|
      ensures p.page[i].branch == Some(p.branch)
    {
      var j :| 0 <= j < |polls| && polls[j] == p;
      if answers[j].Succeeds? {
        PageIsTagged(s, branches[j], answers[j].from);
      }
    }
  }

  /** What a cycle finds for one branch is what its own poll finds. */
  lemma FoundForBranch(t: Trigger, branches: seq<string>, k: nat, s: Site, answers: seq<PollEvent>, w: Watch)
    requires k < |branches| && NoDuplicates(branches) && Tagged(s) && SiteEnabled(s, branches, Ticks(answers))
    requires w.feed == FeedOf(s, branches[k]) && w.cursor == CursorOf(s.cursors, branches[k])
    ensures var (cursors, arrived) := PollBranches(t, PollsOf(s, branches, answers), s.cursors);
            && Of(branches[k], arrived) == (if answers[k].Succeeds? then Found(t, w, answers[k].from) else [])
            && CursorOf(cursors, branches[k]) == Step(t, w, answers[k]).cursor
  {
    hide Filtered, AfterCursor, Chronological, PageOf, Of, Tagged;
    var polls := PollsOf(s, branches, answers);
    PollsAreTagged(s, branches, answers);
    BranchOfCycle(t, polls, s.cursors, branches[k]);
    assert polls[k].branch == branches[k];
    BranchStepIs(t, polls[k], s.cursors);
  }

  lemma TickSeenFromBranch(t: Trigger, branches: seq<string>, k: nat, s: Site, answers: seq<PollEvent>, w: Watch)
    requires k < |branches| && NoDuplicates(branches) && Tagged(s) && SiteEnabled(s, branches, Ticks(answers))
    requires Linked(s, branches[k], w)
    ensures Linked(SiteStep(t, branches, s, Ticks(answers)), branches[k], Step(t, w, answers[k]))
  {
    hide PollBranches, Found, Chronological, PageOf, Of, Tagged, Step;
    var b := branches[k];
    FoundForBranch(t, branches, k, s, answers, w);
    var arrived := PollBranches(t, PollsOf(s, branches, answers), s.cursors).1;
    OfConcat(b, s.handed, Chronological(arrived));
    ChronologicalKeepsBranch(b, arrived);
    ChronologicalIsPermutation(Of(b, arrived));
    StepHands(t, w, answers[k]);
  }

  lemma StepHands(t: Trigger, w: Watch, e: PollEvent)
    requires !e.Arrives? && (e.Succeeds? ==> e.from <= |w.feed|)
    ensures Step(t, w, e).feed == w.feed
    ensures Step(t, w, e).handed == w.handed + (if e.Succeeds? then Chronological(Found(t, w, e.from)) else [])
  {
    hide Chronological, Filtered, AfterCursor, PageOf;
  }

  /** Every step of the site is, for each branch, a step of its own single-cursor poller. */
  lemma StepSeenFromBranch(t: Trigger, branches: seq<string>, k: nat, s: Site, e: SiteEvent, w: Watch)
    requires k < |branches| && NoDuplicates(branches) && Tagged(s) && SiteEnabled(s, branches, e)
    requires Linked(s, branches[k], w)
    ensures Tagged(SiteStep(t, branches, s, e))
    ensures Enabled(w, Seen(branches, k, e)) && Linked(SiteStep(t, branches, s, e), branches[k], Step(t, w, Seen(branches, k, e)))
  {
    hide PollBranches, Chronological, PollOnce, DistinctIds, Of;
    if e.Ticks? {
      TickSeenFromBranch(t, branches, k, s, e.answers, w);
    }
  }

  // ---------------------------------------------------------------- the order, seen from one branch

  lemma {:induction false} ArrivedTogether(t: Trigger, polls: seq<BranchPoll>, cursors: map<string, EventId>, branch: string)
    requires DistinctBranches(polls)
    requires forall p, i :: p in polls && 0 <= i < |p.page| ==> p.page[i].branch == Some(p.branch)
    ensures Together(branch, PollBranches(t, polls, cursors).1)
    ensures (forall i :: 0 <= i < |polls| ==> polls[i].branch != branch) ==> NoneIs(branch, PollBranches(t, polls, cursors).1)
    decreases |polls|
  {
    hide BranchStep;
    if polls != [] {
      var n := |polls| - 1;
      assert polls[n] in polls && forall q :: q in polls[..n] ==> q in polls;
      ArrivedTogether(t, polls[..n], cursors, branch);
      var before := PollBranches(t, polls[..n], cursors);
      BranchStepIsTagged(t, polls[n], before.0);
    }
  }

  ghost predicate NoneIs(branch: string, events: seq<Event>) {
    forall i :: 0 <= i < |events| ==> events[i].branch != Some(branch)
  }

  /** What a cycle hands on of one branch comes in the order of arrival exactly when its own batch is in it. */
  lemma CycleInOrderIff(t: Trigger, branches: seq<string>, k: nat, s: Site, answers: seq<PollEvent>, w: Watch)
    requires k < |branches| && NoDuplicates(branches) && Tagged(s) && SiteEnabled(s, branches, Ticks(answers))
    requires Linked(s, branches[k], w) && Placed(w) && answers[k].Succeeds? && w.cursor.Some?
    requires answers[k].from < w.seen && answers[k].from < |w.feed|
    ensures var arrived := PollBranches(t, PollsOf(s, branches, answers), s.cursors).1;
            Of(branches[k], Chronological(arrived)) == Filtered(t, w.feed[w.seen..]) <==> Descends(Found(t, w, answers[k].from))
  {
    hide PollBranches, Filtered, Chronological, PageOf, Of, Tagged, Descends, Together, DistinctIds, Reversed, AfterCursor;
    var polls := PollsOf(s, branches, answers);
    var arrived := PollBranches(t, polls, s.cursors).1;
    var arrivals := Filtered(t, w.feed[w.seen..]);
    FoundForBranch(t, branches, k, s, answers, w);
    PollsAreTagged(s, branches, answers);
    ArrivedTogether(t, polls, s.cursors, branches[k]);
    FoundOnPage(t, w.feed, answers[k].from, w.seen);
    FilteredIsDistinct(t, w.feed, w.seen);
    ReversedIsDistinct(arrivals);
    ChronologicalOnBranchIff(branches[k], arrived);
    ReverseTwice(arrivals);
  }

  /** A step keeps the order of arrival of a branch exactly when the batch it finds there is in it. */
  lemma StepInOrderIff(t: Trigger, branches: seq<string>, k: nat, s: Site, e: SiteEvent, w: Watch)
    requires k < |branches| && NoDuplicates(branches) && Tagged(s) && SiteEnabled(s, branches, e)
    requires Linked(s, branches[k], w) && Exact(t, w)
    requires var mine := Seen(branches, k, e); mine.Succeeds? && w.cursor.Some? && mine.from < |w.feed| ==> mine.from < w.seen
    ensures var next, mine := SiteStep(t, branches, s, e), Seen(branches, k, e);
            && Enabled(w, mine) && Exact(t, Step(t, w, mine))
            && (Of(branches[k], next.handed) == Due(t, Step(t, w, mine)) <==>
                Of(branches[k], s.handed) == Due(t, w) && (mine.Succeeds? ==> Descends(Found(t, w, mine.from))))
  {
    hide PollBranches, Chronological, Found, DistinctIds, Of, Descends, Tagged, Step, Due, Placed, Linked;
    StepSeenFromBranch(t, branches, k, s, e, w);
    StepExact(t, w, Seen(branches, k, e));
    match e
    case Lands(_) => DueStays(t, w, Seen(branches, k, e));
    case Ticks(answers) => TickInOrderIff(t, branches, k, s, answers, w);
  }

  lemma DueStays(t: Trigger, w: Watch, e: PollEvent)
    requires Exact(t, w) && Enabled(w, e) && !e.Succeeds?
    ensures Placed(Step(t, w, e)) && Due(t, Step(t, w, e)) == Due(t, w)
  {
    hide Filtered;
    StepExact(t, w, e);
    if e.Arrives? && w.cursor.Some? {
      assert (w.feed + [e.e])[w.seed..w.seen] == w.feed[w.seed..w.seen];
    }
  }

  lemma TickInOrderIff(t: Trigger, branches: seq<string>, k: nat, s: Site, answers: seq<PollEvent>, w: Watch)
    requires k < |branches| && NoDuplicates(branches) && Tagged(s) && SiteEnabled(s, branches, Ticks(answers))
    requires Linked(s, branches[k], w) && Exact(t, w) && Exact(t, Step(t, w, answers[k]))
    requires answers[k].Succeeds? && w.cursor.Some? && answers[k].from < |w.feed| ==> answers[k].from < w.seen
    ensures var next := SiteStep(t, branches, s, Ticks(answers));
            Of(branches[k], next.handed) == Due(t, Step(t, w, answers[k])) <==>
            Of(branches[k], s.handed) == Due(t, w) && (answers[k].Succeeds? ==> Descends(Found(t, w, answers[k].from)))
  {
    hide PollBranches, Chronological, Found, DistinctIds, Of, Descends, Tagged, Step, Filtered;
    var b, e := branches[k], answers[k];
    var arrived := PollBranches(t, PollsOf(s, branches, answers), s.cursors).1;
    var more := Of(b, Chronological(arrived));
    FoundForBranch(t, branches, k, s, answers, w);
    OfConcat(b, s.handed, Chronological(arrived));
    ChronologicalKeepsBranch(b, arrived);
    SameSize(more, Of(b, arrived));
    SameSize(Of(b, s.handed), Due(t, w));
    NothingDescends();
    if !e.Succeeds? {
      DueStays(t, w, e);
    } else {
      StepIsDue(t, w, e.from);
      if w.cursor.Some? && e.from < |w.feed| {
        CycleInOrderIff(t, branches, k, s, answers, w);
        SamePartsIff(Of(b, s.handed), more, Due(t, w), Filtered(t, w.feed[w.seen..]));
      }
    }
  }

  /** What a successful poll adds to what is due. */
  lemma StepIsDue(t: Trigger, w: Watch, from: nat)
    requires Exact(t, w) && from <= |w.feed| && (w.cursor.Some? && from < |w.feed| ==> from < w.seen)
    ensures var after := Step(t, w, Succeeds(from));
            && Placed(after)
            && if w.cursor.Some? && from < |w.feed| then Due(t, after) == Due(t, w) + Filtered(t, w.feed[w.seen..])
               else Due(t, after) == Due(t, w) && Found(t, w, from) == []
  {
    hide Filtered, Found, DistinctIds, PollOnce;
    StepExact(t, w, Succeeds(from));
    if from == |w.feed| {
      EmptyPoll(t, w, from);
    } else if w.cursor.Some? {
      PollOnPage(t, w, from);
      FilteredGrows(t, w.feed, w.seed, w.seen, |w.feed|);
      assert w.feed[w.seen..|w.feed|] == w.feed[w.seen..];
    } else {
      PollSeeds(t, w, from);
      assert w.feed[|w.feed|..|w.feed|] == [];
      FilteredAll(t, []);
    }
  }

  ghost predicate Untouched(branch: string, s: Site) {
    FeedOf(s, branch) == [] && branch !in s.cursors && Of(branch, s.handed) == []
  }

  /** A whole run of the site is, for each branch, a run of its own single-cursor poller over the same events. */
  lemma {:induction false} RunSeenFromBranch(t: Trigger, branches: seq<string>, k: nat, s: Site, es: seq<SiteEvent>, last: Site, w: Watch)
    returns (mine: seq<PollEvent>, after: Watch)
    requires k < |branches| && NoDuplicates(branches) && Tagged(s) && SiteRuns(t, branches, s, es, last)
    requires Linked(s, branches[k], w)
    ensures SeenBy(branches, k, es, mine) && Runs(t, w, mine, after) && Linked(last, branches[k], after)
    ensures CursorStaysOnPage(t, w, mine) && Exact(t, w) ==>
              Exact(t, after) && (Of(branches[k], last.handed) == Due(t, after) <==>
                                  Of(branches[k], s.handed) == Due(t, w) && BatchesDescend(t, w, mine))
    decreases |es|
  {
    hide SiteStep, Step, Linked, Tagged, Found, Descends, Due, Of, Exact;
    if es == [] {
      mine, after := [], w;
    } else {
      var e := Seen(branches, k, es[0]);
      StepSeenFromBranch(t, branches, k, s, es[0], w);
      if Exact(t, w) && (e.Succeeds? && w.cursor.Some? && e.from < |w.feed| ==> e.from < w.seen) {
        StepInOrderIff(t, branches, k, s, es[0], w);
      }
      var rest;
      rest, after := RunSeenFromBranch(t, branches, k, SiteStep(t, branches, s, es[0]), es[1..], last, Step(t, w, e));
      mine := [e] + rest;
      assert mine[1..] == rest;
    }
  }

  /** What the events of a site are to one branch, one by one. */
  ghost predicate SeenBy(branches: seq<string>, k: nat, es: seq<SiteEvent>, mine: seq<PollEvent>)
    requires k < |branches|
  {
    && |mine| == |es|
    && forall i :: 0 <= i < |es| ==> (es[i].Ticks? ==> |es[i].answers| == |branches|) && mine[i] == Seen(branches, k, es[i])
  }

  /** From an untouched branch on, while its cursor stays on its pages: right after a successful poll of it, what
      was handed on of this branch is exactly its filtered commits since its cursor was seeded, each once, whatever
      their times and whatever the other branches did in between; and in the order of arrival exactly when the times
      of this branch follow its feed within each batch. */
  lemma EveryCommitIsHandedOnce(t: Trigger, branches: seq<string>, k: nat, s: Site, es: seq<SiteEvent>, last: Site, answers: seq<PollEvent>)
    returns (mine: seq<PollEvent>, before: Watch)
    requires k < |branches| && NoDuplicates(branches) && Tagged(s) && Untouched(branches[k], s)
    requires SiteRuns(t, branches, s, es, last) && SiteEnabled(last, branches, Ticks(answers))
    ensures SeenBy(branches, k, es, mine) && Runs(t, UNSEEDED, mine, before) && Linked(last, branches[k], before)
    ensures CursorStaysOnPage(t, UNSEEDED, mine) && before.cursor.Some? && answers[k].Succeeds? && answers[k].from < before.seen ==>
              var after := SiteStep(t, branches, last, Ticks(answers));
              var due := FeedOf(after, branches[k]);
              && before.seed <= |due|
              && multiset(Of(branches[k], after.handed)) == multiset(Filtered(t, due[before.seed..]))
              && (Of(branches[k], after.handed) == Filtered(t, due[before.seed..]) <==>
                  BatchesDescend(t, UNSEEDED, mine) && Descends(Found(t, before, answers[k].from)))
  {
    hide SiteStep, Filtered, CursorStaysOnPage, BatchesDescend, Of, SiteRuns, Runs, Found, Descends, Due, Placed;
    UnseededIsExact(t);
    mine, before := RunSeenFromBranch(t, branches, k, s, es, last, UNSEEDED);
    if CursorStaysOnPage(t, UNSEEDED, mine) && before.cursor.Some? && answers[k].Succeeds? && answers[k].from < before.seen {
      TaggedRun(t, branches, s, es, last);
      StepSeenFromBranch(t, branches, k, last, Ticks(answers), before);
      EveryArrivalIsHandedOnce(t, mine, before, answers[k].from);
      StepInOrderIff(t, branches, k, last, Ticks(answers), before);
      var own := Step(t, before, answers[k]);
      DueSinceSeed(t, own);
    }
  }

  lemma DueSinceSeed(t: Trigger, w: Watch)
    requires Placed(w) && w.seen == |w.feed| && w.seed <= |w.feed| && w.cursor.Some?
    ensures Due(t, w) == Filtered(t, w.feed[w.seed..])
  {
    assert w.feed[w.seed..w.seen] == w.feed[w.seed..];
  }

  lemma UnseededIsExact(t: Trigger)
    ensures Exact(t, UNSEEDED) && Due(t, UNSEEDED) == []
  {
  }

  lemma {:induction false} TaggedRun(t: Trigger, branches: seq<string>, s: Site, es: seq<SiteEvent>, last: Site)
    requires Tagged(s) && SiteRuns(t, branches, s, es, last)
    ensures Tagged(last)
    decreases |es|
  {
    hide PollBranches, Chronological;
    if es != [] {
      TaggedRun(t, branches, SiteStep(t, branches, s, es[0]), es[1..], last);
    }
  }

  // ---------------------------------------------------------------- the tick is a step of these runs

  /** A cycle of a trigger without branches is a poll of the single-cursor poller over the page it got. */
  lemma TickIsAPoll(t: Trigger, items: seq<Item>, w: Watch, from: nat)
    requires BranchesOf(t) == [] && from <= |w.feed| && t.cursor == w.cursor
    requires Normalise(t.kind, items, None) == PageOf(w.feed, from)
    ensures var (after, handed) := AfterAnswers(t, [Answered(items)]);
            && after == t.(cursor := Step(t, w, Succeeds(from)).cursor)
            && Step(t, w, Succeeds(from)).handed == w.handed + handed
    ensures var (after, handed) := AfterAnswers(t, [Failed(false)]); after == t && handed == []
  {
    hide Normalise, Filtered, AfterCursor, Chronological, PageOf;
  }

  /** A cycle over branches is a cycle of the site over the pages they got. */
  lemma TickIsACycle(t: Trigger, s: Site, answers: seq<Answer>, polls: seq<PollEvent>)
    requires BranchesOf(t) != [] && |answers| == |BranchesOf(t)| && s.cursors == t.branchCursors
    requires SiteEnabled(s, BranchesOf(t), Ticks(polls))
    requires forall i :: 0 <= i < |answers| ==>
               if answers[i].Answered? then
                 polls[i].Succeeds? && Normalise(Push, answers[i].items, Some(BranchesOf(t)[i])) == PageOf(FeedOf(s, BranchesOf(t)[i]), polls[i].from)
               else polls[i].FailsOrIsPaused?
    ensures var (after, handed) := AfterAnswers(t, answers);
            var next := SiteStep(t, BranchesOf(t), s, Ticks(polls));
            after == t.(branchCursors := next.cursors) && next.handed == s.handed + handed
  {
    hide Normalise, PollBranches, Chronological, PageOf, FeedOf;
    var branches := BranchesOf(t);
    assert BranchPolls(branches, answers) == PollsOf(s, branches, polls);
  }
}
