// The GitHub poller: a cursor over a bounded newest-first page of a feed that only grows.
module GithubPoller {
  import opened Common
  import opened Decimal
  import T = Text

  type EventId = string

  const MIN_GITHUB_POLL_MS := 60_000
  const MAX_GITHUB_BACKOFF_MS := 30 * 60_000

  datatype EventKind = PullRequestOpened | PullRequestClosed | IssuesOpened | Push

  datatype Filter = Filter(labels: seq<string>, branches: seq<string>, mergedOnly: bool)

  /** What the poller reads of one item of a result. `time` is zero when it cannot be read. */
  datatype Item = Item(isPullRequest: bool, sha: Option<string>, number: Option<nat>, time: int, merged: bool, labels: seq<string>)

  datatype Event = Event(id: EventId, item: Item, branch: Option<string>)

  datatype Trigger = Trigger(kind: EventKind, filter: Option<Filter>, pollIntervalMs: int, cursor: Option<EventId>, branchCursors: map<string, EventId>)

  // ---------------------------------------------------------------- normalising and filtering

  function IdOf(kind: EventKind, it: Item): Option<EventId> {
    if kind == IssuesOpened && it.isPullRequest then None
    else if kind == Push then (if it.sha.Some? && it.sha.value != "" then it.sha else None)
    else if it.number.Some? then Some(Print(it.number.value))
    else None
  }

  function Normalise(kind: EventKind, items: seq<Item>, branch: Option<string>): (r: seq<Event>)
    ensures forall i :: 0 <= i < |r| ==> r[i].id != "" && r[i].branch == branch
  {
    if items == [] then []
    else
      var rest := Normalise(kind, items[1..], branch);
      var id := IdOf(kind, items[0]);
      if id.Some? then [Event(id.value, items[0], branch)] + rest else rest
  }

  predicate Passes(t: Trigger, e: Event) {
    t.filter.None? ||
    var f := t.filter.value;
    && (t.kind == PullRequestClosed && f.mergedOnly ==> e.item.merged)
    && ((t.kind == PullRequestOpened || t.kind == PullRequestClosed) ==> forall i :: 0 <= i < |f.labels| ==> f.labels[i] in e.item.labels)
    && (t.kind == Push && |f.branches| > 0 ==> (if e.branch.Some? then e.branch.value else "") in f.branches)
  }

  function Filtered(t: Trigger, events: seq<Event>): seq<Event> {
    if events == [] then []
    else if Passes(t, events[0]) then [events[0]] + Filtered(t, events[1..])
    else Filtered(t, events[1..])
  }

  // ---------------------------------------------------------------- the cursor

  datatype Batch = Batch(next: Option<EventId>, arrived: seq<Event>, cursorMissing: bool)

  function IndexOf(events: seq<Event>, id: EventId): (i: nat)
    ensures i <= |events|
    ensures i < |events| ==> events[i].id == id
    ensures forall j :: 0 <= j < i ==> events[j].id != id
  {
    if events == [] || events[0].id == id then 0 else 1 + IndexOf(events[1..], id)
  }

  function AfterCursor(events: seq<Event>, cursor: Option<EventId>): Batch {
    if events == [] then Batch(None, [], false)
    else if cursor.None? then Batch(Some(events[0].id), [], false)
    else
      var i := IndexOf(events, cursor.value);
      if i == |events| then Batch(Some(events[0].id), [], true)
      else Batch(Some(events[0].id), events[..i], false)
  }

  // ---------------------------------------------------------------- putting the batch in order

  /** The comparison of the source: by time when both are known and differ, else later in the list first. */
  predicate GoesFirst(events: seq<Event>, i: nat, j: nat)
    requires i < |events| && j < |events|
  {
    var a, b := events[i].item.time, events[j].item.time;
    if a != 0 && b != 0 && a != b then a < b else i > j
  }

  predicate AllBelow(order: seq<nat>, n: nat) {
    forall i :: 0 <= i < |order| ==> order[i] < n
  }

  /** Insertion into a sorted list of indices. */
  function InsertIndex(events: seq<Event>, i: nat, sorted: seq<nat>): (r: seq<nat>)
    requires i < |events| && AllBelow(sorted, i)
    ensures |r| == |sorted| + 1 && AllBelow(r, i + 1)
  {
    if sorted == [] then [i]
    else if GoesFirst(events, i, sorted[0]) then [i] + sorted
    else [sorted[0]] + InsertIndex(events, i, sorted[1..])
  }

  function SortedIndices(events: seq<Event>, n: nat): (r: seq<nat>)
    requires n <= |events|
    ensures |r| == n && AllBelow(r, n)
  {
    if n == 0 then [] else InsertIndex(events, n - 1, SortedIndices(events, n - 1))
  }

  /** The events at some indices, in their order. */
  function Pick(events: seq<Event>, order: seq<nat>): (r: seq<Event>)
    requires AllBelow(order, |events|)
    ensures |r| == |order| && forall k :: 0 <= k < |r| ==> r[k] == events[order[k]]
  {
    seq(|order|, k requires 0 <= k < |order| => events[order[k]])
  }

  function Chronological(events: seq<Event>): (r: seq<Event>)
    ensures |r| == |events|
    ensures |SortedIndices(events, |events|)| == |events|
    ensures forall k :: 0 <= k < |r| ==> r[k] == events[SortedIndices(events, |events|)[k]]
  {
    Pick(events, SortedIndices(events, |events|))
  }

  function Reversed(events: seq<Event>): (r: seq<Event>)
    ensures |r| == |events| && forall i :: 0 <= i < |r| ==> r[i] == events[|events| - 1 - i]
  {
    seq(|events|, i requires 0 <= i < |events| => events[|events| - 1 - i])
  }

  /** Newest first: no known time is later than the known time just above it. */
  ghost predicate Descends(events: seq<Event>) {
    forall i :: 0 < i < |events| ==> Follows(events, i)
  }

  predicate Follows(events: seq<Event>, i: nat)
    requires 0 < i < |events|
  {
    GoesFirst(events, i, i - 1)
  }

  function Countdown(n: nat): (r: seq<nat>)
    ensures |r| == n && forall k :: 0 <= k < n ==> r[k] == n - 1 - k
  {
    if n == 0 then [] else [n - 1] + Countdown(n - 1)
  }

  lemma {:induction false} SortCountsDownIff(events: seq<Event>, n: nat)
    requires n <= |events|
    ensures SortedIndices(events, n) == Countdown(n) <==> forall i :: 0 < i < n ==> Follows(events, i)
  {
    if n > 0 {
      var m: nat := n - 1;
      SortCountsDownIff(events, m);
      InsertsInFrontIff(events, m, SortedIndices(events, m));
    }
  }

  /** The next index comes out on top exactly when all below it count down and it goes before the first of them. */
  lemma InsertsInFrontIff(events: seq<Event>, i: nat, sorted: seq<nat>)
    requires i < |events| && AllBelow(sorted, i) && |sorted| == i
    ensures InsertIndex(events, i, sorted) == Countdown(i + 1) <==> sorted == Countdown(i) && (i > 0 ==> Follows(events, i))
  {
    var r := InsertIndex(events, i, sorted);
    assert Countdown(i + 1) == [i] + Countdown(i);
    if sorted != [] {
      if GoesFirst(events, i, sorted[0]) {
        assert r[1..] == sorted;
        assert r == Countdown(i + 1) ==> r[1..] == Countdown(i);
      } else {
        assert r[0] == sorted[0] < i;
      }
    }
  }

  lemma ChronologicalReverses(events: seq<Event>)
    requires Descends(events)
    ensures Chronological(events) == Reversed(events)
  {
    hide SortedIndices;
    SortCountsDownIff(events, |events|);
  }

  /** The batch comes out in the order of arrival exactly when times follow the feed from each event to the next. */
  lemma ChronologicalReversesIff(events: seq<Event>)
    requires NoDuplicates(events)
    ensures Chronological(events) == Reversed(events) <==> Descends(events)
  {
    hide SortedIndices;
    var order := SortedIndices(events, |events|);
    SortCountsDownIff(events, |events|);
    if Chronological(events) == Reversed(events) {
      forall k | 0 <= k < |order|
        ensures order[k] == |events| - 1 - k
      {
        assert events[order[k]] == events[|events| - 1 - k];
      }
      assert order == Countdown(|events|);
    }
  }

  lemma {:induction false} InsertedIsPermutation(events: seq<Event>, i: nat, sorted: seq<nat>)
    requires i < |events| && AllBelow(sorted, i)
    ensures multiset(InsertIndex(events, i, sorted)) == multiset(sorted) + multiset{i}
  {
    if sorted != [] {
      InsertedIsPermutation(events, i, sorted[1..]);
      assert sorted == [sorted[0]] + sorted[1..];
    }
  }

  lemma {:induction false} SortedIsPermutation(events: seq<Event>, n: nat)
    requires n <= |events|
    ensures multiset(SortedIndices(events, n)) == multiset(Countdown(n))
  {
    hide InsertIndex, AllBelow;
    if n == 0 {
      assert SortedIndices(events, n) == Countdown(n);
    } else {
      var m: nat := n - 1;
      SortedIsPermutation(events, m);
      InsertedIsPermutation(events, m, SortedIndices(events, m));
      CountdownSnoc(m);
    }
  }

  lemma CountdownSnoc(m: nat)
    ensures multiset(Countdown(m + 1)) == multiset(Countdown(m)) + multiset{m}
  {
    assert Countdown(m + 1) == [m] + Countdown(m);
  }

  /** In any case nothing is lost and nothing repeated: each event of the batch comes out once. */
  lemma ChronologicalKeepsEach(events: seq<Event>, i: nat)
    requires i < |events|
    ensures exists k :: 0 <= k < |events| && SortedIndices(events, |events|)[k] == i && Chronological(events)[k] == events[i]
    ensures forall k, m :: 0 <= k < m < |events| ==> SortedIndices(events, |events|)[k] != SortedIndices(events, |events|)[m]
  {
    hide SortedIndices, Chronological;
    var order := SortedIndices(events, |events|);
    SortedIsPermutation(events, |events|);
    CountdownOnce(|events|, i);
    assert i in multiset(order);
    assert i in order;
    var k :| 0 <= k < |order| && order[k] == i;
    assert Chronological(events)[k] == events[i];
    PermutationOfCountdown(order);
  }

  lemma {:induction false} CountdownOnce(n: nat, x: nat)
    ensures multiset(Countdown(n))[x] == if x < n then 1 else 0
  {
    hide Countdown;
    if n == 0 {
      assert Countdown(n) == [];
    } else {
      CountdownOnce(n - 1, x);
      CountdownSnoc(n - 1);
    }
  }

  lemma PermutationOfCountdown(order: seq<nat>)
    requires multiset(order) == multiset(Countdown(|order|))
    ensures forall k, m :: 0 <= k < m < |order| ==> order[k] != order[m]
  {
    forall k, m | 0 <= k < m < |order|
      ensures order[k] != order[m]
    {
      CountdownOnce(|order|, order[k]);
      CountedTwice(order, k, m);
    }
  }

  lemma CountedTwice(order: seq<nat>, k: nat, m: nat)
    requires k < m < |order|
    ensures order[k] == order[m] ==> multiset(order)[order[k]] >= 2
  {
    assert order == order[..m] + order[m..];
    assert order[..m][k] == order[k] && order[m..][0] == order[m];
    assert order[k] in order[..m] && order[m] in order[m..];
  }

  lemma {:induction false} InsertedPick(events: seq<Event>, i: nat, sorted: seq<nat>)
    requires i < |events| && AllBelow(sorted, i)
    ensures AllBelow(sorted, |events|) && AllBelow(InsertIndex(events, i, sorted), |events|)
    ensures multiset(Pick(events, InsertIndex(events, i, sorted))) == multiset(Pick(events, sorted)) + multiset{events[i]}
  {
    hide Pick;
    var r := InsertIndex(events, i, sorted);
    assert AllBelow(r, i + 1);
    if sorted == [] {
      assert Pick(events, r) == [events[i]] && Pick(events, sorted) == [];
    } else if GoesFirst(events, i, sorted[0]) {
      PickHead(events, r);
      assert r[1..] == sorted;
    } else {
      InsertedPick(events, i, sorted[1..]);
      PickHead(events, r);
      PickHead(events, sorted);
      assert r[1..] == InsertIndex(events, i, sorted[1..]);
    }
  }

  lemma PickHead(events: seq<Event>, order: seq<nat>)
    requires order != [] && AllBelow(order, |events|)
    ensures AllBelow(order[1..], |events|) && Pick(events, order) == [events[order[0]]] + Pick(events, order[1..])
  {
  }

  lemma {:induction false} SortedPick(events: seq<Event>, n: nat)
    requires n <= |events|
    ensures AllBelow(SortedIndices(events, n), |events|)
    ensures multiset(Pick(events, SortedIndices(events, n))) == multiset(events[..n])
  {
    hide Pick, InsertIndex;
    if n == 0 {
      assert Pick(events, SortedIndices(events, n)) == events[..n];
    } else {
      var m: nat := n - 1;
      SortedPick(events, m);
      InsertedPick(events, m, SortedIndices(events, m));
      assert events[..n] == events[..m] + [events[m]];
    }
  }

  /** Whatever the times, the sort keeps the batch as a multiset. */
  lemma ChronologicalIsPermutation(events: seq<Event>)
    ensures multiset(Chronological(events)) == multiset(events)
  {
    hide SortedIndices, Pick;
    SortedPick(events, |events|);
    assert events[..|events|] == events;
  }

  lemma {:induction false} ReversedIsPermutation(events: seq<Event>)
    ensures multiset(Reversed(events)) == multiset(events)
  {
    if events == [] {
      assert Reversed(events) == events;
    } else {
      ReversedIsPermutation(events[1..]);
      assert events == [events[0]] + events[1..];
      assert Reversed(events) == Reversed(events[1..]) + [events[0]];
    }
  }

  // ---------------------------------------------------------------- a growing feed

  /** The oldest event comes first; the page is its newest part, newest first. */
  function PageOf(feed: seq<Event>, from: nat): (page: seq<Event>)
    requires from <= |feed|
    ensures |page| == |feed| - from
  {
    Reversed(feed[from..])
  }

  ghost predicate DistinctIds(feed: seq<Event>) {
    forall i, j :: 0 <= i < j < |feed| ==> feed[i].id != feed[j].id
  }

  /** On the page, the cursor cuts off exactly what arrived after it; off the page, nothing is handed on. */
  lemma AfterCursorOnFeed(feed: seq<Event>, from: nat, seen: nat)
    requires DistinctIds(feed) && from < |feed| && 1 <= seen <= |feed|
    ensures var b := AfterCursor(PageOf(feed, from), Some(feed[seen - 1].id));
            && b.next == Some(feed[|feed| - 1].id)
            && (from < seen ==> b.arrived == Reversed(feed[seen..]) && !b.cursorMissing)
            && (from >= seen ==> b.arrived == [] && b.cursorMissing)
  {
    var page := PageOf(feed, from);
    var i := IndexOf(page, feed[seen - 1].id);
    assert forall k :: 0 <= k < |page| ==> page[k] == feed[|feed| - 1 - k];
    if from < seen {
      FirstIs(page, feed[seen - 1].id, |feed| - seen);
      assert page[..i] == Reversed(feed[seen..]);
    }
  }

  lemma FirstIs(events: seq<Event>, id: EventId, k: nat)
    requires k < |events| && events[k].id == id && forall j :: 0 <= j < k ==> events[j].id != id
    ensures IndexOf(events, id) == k
  {
  }

  lemma {:induction false} FilteredOfConcat(t: Trigger, a: seq<Event>, b: seq<Event>)
    ensures Filtered(t, a + b) == Filtered(t, a) + Filtered(t, b)
  {
    if a == [] {
      assert a + b == b;
    } else {
      assert (a + b)[1..] == a[1..] + b;
      FilteredOfConcat(t, a[1..], b);
    }
  }

  lemma {:induction false} FilterCommutesWithReverse(t: Trigger, events: seq<Event>)
    ensures Filtered(t, Reversed(events)) == Reversed(Filtered(t, events))
  {
    if events == [] {
      assert Reversed(events) == [];
    } else {
      FilterCommutesWithReverse(t, events[1..]);
      assert Reversed(events) == Reversed(events[1..]) + [events[0]];
      FilteredOfConcat(t, Reversed(events[1..]), [events[0]]);
      assert [events[0]][1..] == [];
      if Passes(t, events[0]) {
        assert Reversed([events[0]] + Filtered(t, events[1..])) == Reversed(Filtered(t, events[1..])) + [events[0]];
      }
    }
  }

  /** A filtered list is a sub-list: positions in the feed, in order. */
  lemma {:induction false} FilteredKeepsOrder(t: Trigger, events: seq<Event>) returns (at: seq<nat>)
    ensures |at| == |Filtered(t, events)|
    ensures forall i :: 0 <= i < |at| ==> at[i] < |events| && events[at[i]] == Filtered(t, events)[i]
    ensures forall i, j :: 0 <= i < j < |at| ==> at[i] < at[j]
  {
    if events == [] {
      at := [];
    } else {
      var rest := FilteredKeepsOrder(t, events[1..]);
      var moved := seq(|rest|, i requires 0 <= i < |rest| => rest[i] + 1);
      at := if Passes(t, events[0]) then [0] + moved else moved;
    }
  }

  lemma FilteredIsDistinct(t: Trigger, feed: seq<Event>, from: nat)
    requires DistinctIds(feed) && from <= |feed|
    ensures NoDuplicates(Filtered(t, feed[from..]))
  {
    var at := FilteredKeepsOrder(t, feed[from..]);
    forall i, j | 0 <= i < j < |at|
      ensures Filtered(t, feed[from..])[i] != Filtered(t, feed[from..])[j]
    {
      assert feed[from + at[i]].id != feed[from + at[j]].id;
    }
  }

  lemma ReversedIsDistinct(events: seq<Event>)
    requires NoDuplicates(events)
    ensures NoDuplicates(Reversed(events))
  {
  }

  /** What one successful poll finds, newest first: the filtered arrivals since the cursor. */
  lemma FoundOnPage(t: Trigger, feed: seq<Event>, from: nat, seen: nat)
    requires DistinctIds(feed) && from < seen <= |feed| && from < |feed|
    ensures Filtered(t, AfterCursor(PageOf(feed, from), Some(feed[seen - 1].id)).arrived) == Reversed(Filtered(t, feed[seen..]))
  {
    AfterCursorOnFeed(feed, from, seen);
    FilterCommutesWithReverse(t, feed[seen..]);
  }

  /** What it hands to the queue: each of them once, and in the order of arrival exactly when times follow it. */
  lemma HandedOncePerPoll(t: Trigger, feed: seq<Event>, from: nat, seen: nat)
    requires DistinctIds(feed) && from < seen <= |feed| && from < |feed|
    ensures var found := Filtered(t, AfterCursor(PageOf(feed, from), Some(feed[seen - 1].id)).arrived);
            && multiset(Chronological(found)) == multiset(Filtered(t, feed[seen..]))
            && (Chronological(found) == Filtered(t, feed[seen..]) <==> Descends(found))
  {
    hide Filtered, AfterCursor, Chronological, PageOf, Reversed, Descends, NoDuplicates;
    var arrivals := Filtered(t, feed[seen..]);
    FoundOnPage(t, feed, from, seen);
    ReversedIsPermutation(arrivals);
    ChronologicalIsPermutation(Reversed(arrivals));
    FilteredIsDistinct(t, feed, seen);
    ReversedIsDistinct(arrivals);
    ChronologicalReversesIff(Reversed(arrivals));
    ReverseTwice(arrivals);
  }

  lemma ReverseTwice(events: seq<Event>)
    ensures Reversed(Reversed(events)) == events
  {
  }

  // ---------------------------------------------------------------- whole runs of one cursor

  datatype PollEvent =
    | Arrives(e: Event)
    | Succeeds(from: nat)     // the page starts there; it is empty when nothing on it makes an event
    | FailsOrIsPaused

  /** `seed`: how much of the feed was there when the cursor was seeded; `seen`: how much the cursor covers. */
  datatype Watch = Watch(feed: seq<Event>, cursor: Option<EventId>, seed: nat, seen: nat, handed: seq<Event>)

  ghost predicate Enabled(w: Watch, e: PollEvent) {
    match e
    case Arrives(ev) => DistinctIds(w.feed + [ev])
    case Succeeds(from) => from <= |w.feed|
    case FailsOrIsPaused => true
  }

  /** A single-cursor poll: the new cursor, and what is handed on in order. */
  function PollOnce(t: Trigger, page: seq<Event>, cursor: Option<EventId>): (Option<EventId>, seq<Event>) {
    var b := AfterCursor(page, cursor);
    (if b.next.Some? then b.next else cursor, Chronological(Filtered(t, b.arrived)))
  }

  function Step(t: Trigger, w: Watch, e: PollEvent): Watch
    requires e.Succeeds? ==> e.from <= |w.feed|
  {
    match e
    case Arrives(ev) => w.(feed := w.feed + [ev])
    case FailsOrIsPaused => w
    case Succeeds(from) =>
      var page := PageOf(w.feed, from);
      var (cursor, handed) := PollOnce(t, page, w.cursor);
      var polled := w.(cursor := cursor, handed := w.handed + handed);
      if page == [] then polled
      else polled.(seed := if w.cursor.None? then |w.feed| else w.seed, seen := |w.feed|)
  }

  ghost predicate Runs(t: Trigger, w: Watch, es: seq<PollEvent>, last: Watch)
    decreases |es|
  {
    if es == [] then w == last
    else Enabled(w, es[0]) && Runs(t, Step(t, w, es[0]), es[1..], last)
  }

  /** The cursor is still on every fetched page that is not empty. */
  ghost predicate CursorStaysOnPage(t: Trigger, w: Watch, es: seq<PollEvent>)
    decreases |es|
  {
    es != [] ==>
      && (es[0].Succeeds? ==> es[0].from <= |w.feed| && (w.cursor.Some? && es[0].from < |w.feed| ==> es[0].from < w.seen))
      && CursorStaysOnPage(t, Step(t, w, es[0]), es[1..])
  }

  ghost predicate Placed(w: Watch) {
    && DistinctIds(w.feed)
    && (w.cursor.None? ==> w.handed == [] && w.seen == w.seed == 0)
    && (w.cursor.Some? ==> w.seed <= w.seen && 1 <= w.seen <= |w.feed| && w.cursor == Some(w.feed[w.seen - 1].id))
  }

  /** Everything that passed the filter since the seed. */
  function Due(t: Trigger, w: Watch): seq<Event>
    requires Placed(w)
  {
    if w.cursor.None? then [] else Filtered(t, w.feed[w.seed..w.seen])
  }

  /** It was handed on, each event once. */
  ghost predicate Exact(t: Trigger, w: Watch) {
    Placed(w) && multiset(w.handed) == multiset(Due(t, w))
  }

  /** What a poll finds before it sorts it, newest first. */
  function Found(t: Trigger, w: Watch, from: nat): seq<Event>
    requires from <= |w.feed|
  {
    Filtered(t, AfterCursor(PageOf(w.feed, from), w.cursor).arrived)
  }

  /** In every batch of the run, times follow the feed. */
  ghost predicate BatchesDescend(t: Trigger, w: Watch, es: seq<PollEvent>)
    decreases |es|
  {
    es != [] ==>
      && (es[0].Succeeds? ==> es[0].from <= |w.feed| && Descends(Found(t, w, es[0].from)))
      && BatchesDescend(t, Step(t, w, es[0]), es[1..])
  }

  lemma {:induction false} FilteredGrows(t: Trigger, feed: seq<Event>, a: nat, b: nat, c: nat)
    requires a <= b <= c <= |feed|
    ensures Filtered(t, feed[a..c]) == Filtered(t, feed[a..b]) + Filtered(t, feed[b..c])
  {
    assert feed[a..c] == feed[a..b] + feed[b..c];
    FilteredOfConcat(t, feed[a..b], feed[b..c]);
  }

  lemma StepPlaced(t: Trigger, w: Watch, e: PollEvent)
    requires Placed(w) && Enabled(w, e)
    ensures Placed(Step(t, w, e))
  {
    if e.Succeeds? && e.from == |w.feed| {
      EmptyPoll(t, w, e.from);
    } else if e.Succeeds? {
      var page := PageOf(w.feed, e.from);
      assert page[0] == w.feed[|w.feed| - 1];
      if w.cursor.None? {
        assert Filtered(t, []) == [] && Chronological([]) == [];
      }
    }
  }

  lemma NothingHanded(t: Trigger)
    ensures Chronological(Filtered(t, [])) == []
  {
  }

  lemma PollOnPage(t: Trigger, w: Watch, from: nat)
    requires Placed(w) && w.cursor.Some? && from < w.seen && from < |w.feed|
    ensures var more := Chronological(Found(t, w, from));
            && Step(t, w, Succeeds(from)) == w.(cursor := Some(w.feed[|w.feed| - 1].id), seen := |w.feed|, handed := w.handed + more)
            && multiset(more) == multiset(Filtered(t, w.feed[w.seen..]))
            && (more == Filtered(t, w.feed[w.seen..]) <==> Descends(Found(t, w, from)))
  {
    hide AfterCursor, Chronological, Filtered, PageOf, Reversed, DistinctIds, Descends;
    AfterCursorOnFeed(w.feed, from, w.seen);
    HandedOncePerPoll(t, w.feed, from, w.seen);
  }

  lemma PollOffPage(t: Trigger, w: Watch, from: nat)
    requires Placed(w) && w.cursor.Some? && w.seen <= from < |w.feed|
    ensures Step(t, w, Succeeds(from)) == w.(cursor := Some(w.feed[|w.feed| - 1].id), seen := |w.feed|)
    ensures Found(t, w, from) == []
  {
    hide AfterCursor, Chronological, PageOf, Reversed, DistinctIds;
    AfterCursorOnFeed(w.feed, from, w.seen);
    NothingHanded(t);
  }

  lemma PollSeeds(t: Trigger, w: Watch, from: nat)
    requires Placed(w) && w.cursor.None? && from < |w.feed|
    ensures Step(t, w, Succeeds(from)) == w.(cursor := Some(w.feed[|w.feed| - 1].id), seed := |w.feed|, seen := |w.feed|)
    ensures Found(t, w, from) == []
  {
    hide Chronological;
    assert PageOf(w.feed, from)[0] == w.feed[|w.feed| - 1];
    NothingHanded(t);
  }

  lemma NothingDescends()
    ensures Descends([])
  {
  }

  lemma SamePartsIff(a: seq<Event>, b: seq<Event>, c: seq<Event>, d: seq<Event>)
    requires |a| == |c|
    ensures a + b == c + d <==> a == c && b == d
  {
    assert (a + b)[..|a|] == a && (a + b)[|a|..] == b;
    assert (c + d)[..|c|] == c && (c + d)[|c|..] == d;
  }

  lemma SameSize(a: seq<Event>, b: seq<Event>)
    requires multiset(a) == multiset(b)
    ensures |a| == |b|
  {
    assert |multiset(a)| == |a| && |multiset(b)| == |b|;
  }

  /** A step keeps exactness; it keeps the order of arrival exactly when the batch it finds is in it. */
  lemma StepExact(t: Trigger, w: Watch, e: PollEvent)
    requires Exact(t, w) && Enabled(w, e)
    requires e.Succeeds? && w.cursor.Some? && e.from < |w.feed| ==> e.from < w.seen
    ensures Exact(t, Step(t, w, e))
    ensures var after := Step(t, w, e);
            after.handed == Due(t, after) <==> w.handed == Due(t, w) && (e.Succeeds? ==> Descends(Found(t, w, e.from)))
  {
    hide Filtered, PollOnce, Found, PageOf, DistinctIds, Descends;
    StepPlaced(t, w, e);
    match e
    case FailsOrIsPaused =>
    case Arrives(ev) =>
      if w.cursor.Some? {
        assert (w.feed + [ev])[w.seed..w.seen] == w.feed[w.seed..w.seen];
      }
    case Succeeds(from) =>
      NothingDescends();
      if from == |w.feed| {
        EmptyPoll(t, w, from);
      } else if w.cursor.Some? {
        PollOnPage(t, w, from);
        FilteredGrows(t, w.feed, w.seed, w.seen, |w.feed|);
        assert w.feed[w.seen..|w.feed|] == w.feed[w.seen..];
        SameSize(w.handed, Due(t, w));
        SamePartsIff(w.handed, Chronological(Found(t, w, from)), Due(t, w), Filtered(t, w.feed[w.seen..]));
      } else {
        PollSeeds(t, w, from);
        assert w.feed[|w.feed|..|w.feed|] == [];
        FilteredNone(t, []);
      }
  }

  /** A successful poll whose page holds no event changes nothing. */
  lemma EmptyPoll(t: Trigger, w: Watch, from: nat)
    requires from == |w.feed|
    ensures Step(t, w, Succeeds(from)) == w && Found(t, w, from) == []
  {
    assert PageOf(w.feed, from) == [];
    NothingHanded(t);
    assert w.handed + [] == w.handed;
  }

  lemma {:induction false} RunExact(t: Trigger, w: Watch, es: seq<PollEvent>, last: Watch)
    requires Exact(t, w) && Runs(t, w, es, last) && CursorStaysOnPage(t, w, es)
    ensures Exact(t, last)
    ensures last.handed == Due(t, last) <==> w.handed == Due(t, w) && BatchesDescend(t, w, es)
    decreases |es|
  {
    hide Due, Step, Found, Placed;
    if es != [] {
      StepExact(t, w, es[0]);
      RunExact(t, Step(t, w, es[0]), es[1..], last);
    }
  }

  const UNSEEDED := Watch([], None, 0, 0, [])

  /** While the cursor stays on the page, after a successful poll exactly the filtered arrivals since the seed have
      been handed on, each once, whatever their times and whatever failed in between; and they were handed on in the
      order of arrival exactly when times follow the feed within each batch. */
  lemma EveryArrivalIsHandedOnce(t: Trigger, es: seq<PollEvent>, before: Watch, from: nat)
    requires Runs(t, UNSEEDED, es, before) && CursorStaysOnPage(t, UNSEEDED, es)
    requires Enabled(before, Succeeds(from)) && before.cursor.Some? && from < before.seen
    ensures var after := Step(t, before, Succeeds(from));
            && after.seed == before.seed <= |after.feed| && after.seen == |after.feed|
            && multiset(after.handed) == multiset(Filtered(t, after.feed[after.seed..]))
            && (after.handed == Filtered(t, after.feed[after.seed..]) <==>
                BatchesDescend(t, UNSEEDED, es) && Descends(Found(t, before, from)))
  {
    hide Filtered, PollOnce, PageOf, Found, BatchesDescend;
    RunExact(t, UNSEEDED, es, before);
    StepExact(t, before, Succeeds(from));
    PollOnPage(t, before, from);
    var after := Step(t, before, Succeeds(from));
    assert after.feed[after.seed..after.seen] == after.feed[after.seed..];
  }

  // ---------------------------------------------------------------- whatever happens, nothing twice

  /** Where in the feed each event handed on stands: after the seed, and no two at the same place. */
  ghost predicate Located(w: Watch, at: seq<nat>) {
    && |at| == |w.handed|
    && (forall i :: 0 <= i < |at| ==> w.seed <= at[i] < w.seen <= |w.feed| && w.feed[at[i]] == w.handed[i])
    && NoDuplicates(at)
  }

  ghost predicate Increasing(at: seq<nat>) {
    forall i, j :: 0 <= i < j < |at| ==> at[i] < at[j]
  }

  lemma {:induction false} DecreasingIsCountdown(order: seq<nat>)
    requires AllBelow(order, |order|) && forall i, j :: 0 <= i < j < |order| ==> order[i] > order[j]
    ensures order == Countdown(|order|)
  {
    if order != [] {
      var rest := order[1..];
      assert forall i :: 0 <= i < |rest| ==> rest[i] == order[i + 1] < order[0];
      DecreasingIsCountdown(rest);
      assert |rest| > 0 ==> rest[0] == |rest| - 1;
    }
  }

  /** The places of a sorted batch: those of the unsorted one, sorted alike. */
  lemma SortedPlaces(found: seq<Event>, at: seq<nat>) returns (sorted: seq<nat>)
    requires |at| == |found| && forall i, j :: 0 <= i < j < |at| ==> at[i] > at[j]
    ensures |sorted| == |at| && NoDuplicates(sorted) && forall k :: 0 <= k < |at| ==> sorted[k] in at
    ensures forall k :: 0 <= k < |at| ==> exists i :: 0 <= i < |at| && sorted[k] == at[i] && Chronological(found)[k] == found[i]
    ensures Increasing(sorted) <==> Descends(found)
  {
    hide SortedIndices, Chronological;
    var n := |found|;
    var order := SortedIndices(found, n);
    assert AllBelow(order, n);
    SortedIsPermutation(found, n);
    PermutationOfCountdown(order);
    sorted := seq(n, k requires 0 <= k < n && |order| == n && AllBelow(order, n) => at[order[k]]);
    SortCountsDownIff(found, n);
    if Increasing(sorted) {
      forall i, j | 0 <= i < j < n
        ensures order[i] > order[j]
      {
        assert sorted[i] < sorted[j];
      }
      DecreasingIsCountdown(order);
    }
  }

  lemma FoundPlaces(t: Trigger, w: Watch, from: nat) returns (at: seq<nat>)
    requires Placed(w) && w.cursor.Some? && from < w.seen && from < |w.feed|
    ensures |at| == |Found(t, w, from)| && forall i, j :: 0 <= i < j < |at| ==> at[i] > at[j]
    ensures forall i :: 0 <= i < |at| ==> w.seen <= at[i] < |w.feed| && w.feed[at[i]] == Found(t, w, from)[i]
  {
    hide Filtered, AfterCursor, PageOf, DistinctIds;
    FoundOnPage(t, w.feed, from, w.seen);
    var up := FilteredKeepsOrder(t, w.feed[w.seen..]);
    at := seq(|up|, i requires 0 <= i < |up| => w.seen + up[|up| - 1 - i]);
  }

  lemma PollLocated(t: Trigger, w: Watch, from: nat, at: seq<nat>) returns (after: seq<nat>)
    requires Placed(w) && Located(w, at) && w.cursor.Some? && from < w.seen && from < |w.feed|
    ensures Located(Step(t, w, Succeeds(from)), after)
    ensures Increasing(after) <==> Increasing(at) && Descends(Found(t, w, from))
  {
    hide Filtered, Step, PageOf, DistinctIds, Found, Chronological, Descends, Increasing, NoDuplicates, Located;
    PollOnPage(t, w, from);
    var places := FoundPlaces(t, w, from);
    var found := Found(t, w, from);
    var more := SortedPlaces(found, places);
    after := at + more;
    MoreLocated(w, Chronological(found), at, more);
  }

  lemma MoreLocated(w: Watch, extra: seq<Event>, at: seq<nat>, more: seq<nat>)
    requires Located(w, at) && w.seed <= w.seen <= |w.feed| && |more| == |extra| && NoDuplicates(more)
    requires forall k :: 0 <= k < |more| ==> w.seen <= more[k] < |w.feed| && w.feed[more[k]] == extra[k]
    ensures forall cursor :: Located(w.(cursor := cursor, seen := |w.feed|, handed := w.handed + extra), at + more)
    ensures Increasing(at + more) <==> Increasing(at) && Increasing(more)
  {
    JoinedPlaces(at, more, w.seen);
  }

  lemma JoinedPlaces(a: seq<nat>, b: seq<nat>, seen: nat)
    requires (forall i :: 0 <= i < |a| ==> a[i] < seen) && (forall i :: 0 <= i < |b| ==> seen <= b[i])
    ensures NoDuplicates(a + b) <==> NoDuplicates(a) && NoDuplicates(b)
    ensures Increasing(a + b) <==> Increasing(a) && Increasing(b)
  {
    var all := a + b;
    assert forall k :: 0 <= k < |a| ==> all[k] == a[k];
    assert forall k :: 0 <= k < |b| ==> all[|a| + k] == b[k];
    if NoDuplicates(all) {
      forall i, j | 0 <= i < j < |b|
        ensures b[i] != b[j]
      {
        assert all[|a| + i] != all[|a| + j];
      }
    }
    if Increasing(all) {
      forall i, j | 0 <= i < j < |b|
        ensures b[i] < b[j]
      {
        assert all[|a| + i] < all[|a| + j];
      }
    }
  }

  lemma StepLocated(t: Trigger, w: Watch, e: PollEvent, at: seq<nat>) returns (after: seq<nat>)
    requires Placed(w) && Located(w, at) && Enabled(w, e)
    ensures Located(Step(t, w, e), after)
    ensures Increasing(after) <==> Increasing(at) && (e.Succeeds? ==> Descends(Found(t, w, e.from)))
  {
    hide Filtered, PollOnce, PageOf, DistinctIds, Found, Chronological, Descends;
    after := at;
    if e.Succeeds? {
      NothingDescends();
      if e.from == |w.feed| {
        EmptyPoll(t, w, e.from);
      } else if w.cursor.None? {
        PollSeeds(t, w, e.from);
      } else if e.from >= w.seen {
        PollOffPage(t, w, e.from);
      } else {
        after := PollLocated(t, w, e.from, at);
      }
    }
  }

  /** Even when the cursor is lost: what was handed on are different events of the feed after the seed, so each at
      most once; in the order of the feed exactly when times follow it within each batch. */
  lemma {:induction false} NothingIsHandedTwice(t: Trigger, w: Watch, es: seq<PollEvent>, last: Watch, at: seq<nat>) returns (after: seq<nat>)
    requires Placed(w) && Located(w, at) && Runs(t, w, es, last)
    ensures Placed(last) && Located(last, after)
    ensures Increasing(after) <==> Increasing(at) && BatchesDescend(t, w, es)
    decreases |es|
  {
    hide Step, Found, Located, Placed, Increasing;
    if es == [] {
      after := at;
    } else {
      StepPlaced(t, w, es[0]);
      var next := StepLocated(t, w, es[0], at);
      after := NothingIsHandedTwice(t, Step(t, w, es[0]), es[1..], last, next);
    }
  }

  lemma SwappedPoll(t: Trigger, a: Event, b: Event, c: Event)
    requires t.filter.None? && DistinctIds([a, b, c]) && 0 < c.item.time < b.item.time
    ensures Step(t, Watch([a, b, c], Some(a.id), 1, 1, []), Succeeds(0)).handed == [c, b]
  {
    hide Step, PageOf, AfterCursor, Filtered, DistinctIds;
    var before := Watch([a, b, c], Some(a.id), 1, 1, []);
    PollOnPage(t, before, 0);
    FoundOnPage(t, [a, b, c], 0, 1);
    assert [a, b, c][1..] == [b, c];
    FilteredAll(t, [b, c]);
    SortsTwo(c, b);
  }

  lemma SortsTwo(c: Event, b: Event)
    requires 0 < c.item.time < b.item.time
    ensures Reversed([b, c]) == [c, b] && Chronological([c, b]) == [c, b]
  {
    var two := [c, b];
    assert SortedIndices(two, 1) == [0];
    assert SortedIndices(two, 2) == InsertIndex(two, 1, [0]) == [0] + InsertIndex(two, 1, [0][1..]);
    assert Chronological(two) == two;
  }

  /** Two commits that one poll finds, the newer authored earlier: they are handed on the other way round. */
  lemma EarlierAuthorGoesFirst(t: Trigger, a: Event, b: Event, c: Event)
    requires t.filter.None? && DistinctIds([a, b, c]) && 0 < c.item.time < b.item.time
    ensures var es := [Arrives(a), Succeeds(0), Arrives(b), Arrives(c)];
            var before := Watch([a, b, c], Some(a.id), 1, 1, []);
            && Runs(t, UNSEEDED, es, before) && CursorStaysOnPage(t, UNSEEDED, es)
            && Step(t, before, Succeeds(0)).handed == [c, b]
  {
    hide Step, Found, Enabled;
    var first, seeded := Watch([a], None, 0, 0, []), Watch([a], Some(a.id), 1, 1, []);
    var second, before := Watch([a, b], Some(a.id), 1, 1, []), Watch([a, b, c], Some(a.id), 1, 1, []);
    assert [a, b, c][..1] == [a] && [a, b, c][..2] == [a, b];
    ArrivesFirst(t, UNSEEDED, a, first);
    PollSeeds(t, first, 0);
    ArrivesFirst(t, seeded, b, second);
    ArrivesFirst(t, second, c, before);
    OneMoreEvent(t, second, Arrives(c), before, [], before);
    OneMoreEvent(t, seeded, Arrives(b), second, [Arrives(c)], before);
    OneMoreEvent(t, first, Succeeds(0), seeded, [Arrives(b), Arrives(c)], before);
    OneMoreEvent(t, UNSEEDED, Arrives(a), first, [Succeeds(0), Arrives(b), Arrives(c)], before);
    SwappedPoll(t, a, b, c);
  }

  lemma OneMoreEvent(t: Trigger, w: Watch, e: PollEvent, next: Watch, es: seq<PollEvent>, last: Watch)
    requires Enabled(w, e) && Step(t, w, e) == next && Runs(t, next, es, last) && CursorStaysOnPage(t, next, es)
    requires e.Succeeds? && w.cursor.Some? && e.from < |w.feed| ==> e.from < w.seen
    ensures Runs(t, w, [e] + es, last) && CursorStaysOnPage(t, w, [e] + es)
  {
    assert ([e] + es)[1..] == es;
  }

  lemma ArrivesFirst(t: Trigger, w: Watch, e: Event, after: Watch)
    requires after.feed == w.feed + [e] && after == w.(feed := after.feed) && DistinctIds(after.feed)
    ensures Enabled(w, Arrives(e)) && Step(t, w, Arrives(e)) == after
  {
  }

  /** A lost cursor moves to the newest event and replays nothing. */
  lemma LostCursorAdvances(t: Trigger, w: Watch, from: nat)
    requires Placed(w) && w.cursor.Some? && w.seen <= from < |w.feed|
    ensures var after := Step(t, w, Succeeds(from));
            after.cursor == Some(w.feed[|w.feed| - 1].id) && after.handed == w.handed
  {
    PollOffPage(t, w, from);
  }

  // ---------------------------------------------------------------- branch cursors

  datatype BranchPoll = BranchPoll(branch: string, ok: bool, page: seq<Event>)

  function BranchStep(t: Trigger, p: BranchPoll, cursors: map<string, EventId>): (map<string, EventId>, seq<Event>) {
    if !p.ok then (cursors, [])
    else
      var b := AfterCursor(p.page, if p.branch in cursors then Some(cursors[p.branch]) else None);
      (if b.next.Some? then cursors[p.branch := b.next.value] else cursors, Filtered(t, b.arrived))
  }

  function PollBranches(t: Trigger, polls: seq<BranchPoll>, cursors: map<string, EventId>): (map<string, EventId>, seq<Event>)
    decreases |polls|
  {
    if polls == [] then (cursors, [])
    else
      var (before, arrived) := PollBranches(t, polls[..|polls| - 1], cursors);
      var (after, more) := BranchStep(t, polls[|polls| - 1], before);
      (after, arrived + more)
  }

  ghost predicate DistinctBranches(polls: seq<BranchPoll>) {
    forall i, j :: 0 <= i < j < |polls| ==> polls[i].branch != polls[j].branch
  }

  /** A branch's cursor moves by its own poll alone, and not at all when that poll failed. */
  lemma {:induction false} BranchesAreIndependent(t: Trigger, polls: seq<BranchPoll>, cursors: map<string, EventId>, branch: string)
    requires DistinctBranches(polls)
    ensures var after := PollBranches(t, polls, cursors).0;
            && (forall i :: 0 <= i < |polls| && polls[i].branch == branch ==>
                  (branch in after <==> branch in BranchStep(t, polls[i], cursors).0)
                  && (branch in after ==> after[branch] == BranchStep(t, polls[i], cursors).0[branch]))
            && ((forall i :: 0 <= i < |polls| ==> polls[i].branch != branch || !polls[i].ok) ==>
                  (branch in after <==> branch in cursors) && (branch in after ==> after[branch] == cursors[branch]))
            && ((forall i :: 0 <= i < |polls| ==> polls[i].branch != branch) ==>
                  (branch in after <==> branch in cursors) && (branch in after ==> after[branch] == cursors[branch]))
    decreases |polls|
  {
    if polls != [] {
      BranchesAreIndependent(t, polls[..|polls| - 1], cursors, branch);
    }
  }

  // ---------------------------------------------------------------- which branches are polled, and which pass

  /** The distinct trimmed names that are not empty, in order of first appearance. */
  function Polled(branches: seq<string>): (r: seq<string>)
    ensures NoDuplicates(r)
    ensures forall b :: b in r <==> b != "" && exists i :: 0 <= i < |branches| && T.Trim(branches[i]) == b
  {
    if branches == [] then []
    else
      var n := |branches| - 1;
      var before := Polled(branches[..n]);
      var name := T.Trim(branches[n]);
      assert forall i :: 0 <= i < n ==> branches[..n][i] == branches[i];
      if name == "" || name in before then before else before + [name]
  }

  /** The branches a trigger polls; none means one poll of the default branch. */
  function BranchesOf(t: Trigger): seq<string> {
    if t.kind == Push && t.filter.Some? then Polled(t.filter.value.branches) else []
  }

  /** Branches are polled by their trimmed name but filtered by the name as written: what a poll of a branch
      brings passes exactly when the trimmed name is itself in the list. */
  lemma BranchPassesIff(t: Trigger, branch: string, items: seq<Item>)
    requires branch in BranchesOf(t)
    ensures Filtered(t, Normalise(Push, items, Some(branch))) ==
            if branch in t.filter.value.branches then Normalise(Push, items, Some(branch)) else []
  {
    var events := Normalise(Push, items, Some(branch));
    if branch in t.filter.value.branches {
      FilteredAll(t, events);
    } else {
      FilteredNone(t, events);
    }
  }

  /** So the branch filter works exactly when each name that is not blank also stands in it without blanks around it. */
  lemma BranchFilterWorksIff(t: Trigger)
    requires t.kind == Push && t.filter.Some?
    ensures var names := t.filter.value.branches;
            (forall b, items: seq<Item> :: b in BranchesOf(t) ==>
               Filtered(t, Normalise(Push, items, Some(b))) == Normalise(Push, items, Some(b)))
            <==> (forall i :: 0 <= i < |names| && T.Trim(names[i]) != "" ==> T.Trim(names[i]) in names)
  {
    var names := t.filter.value.branches;
    forall b, items: seq<Item> | b in BranchesOf(t)
      ensures b in names ==> Filtered(t, Normalise(Push, items, Some(b))) == Normalise(Push, items, Some(b))
      ensures b !in names ==> Filtered(t, Normalise(Push, items, Some(b))) == []
    {
      BranchPassesIff(t, b, items);
    }
    forall i | 0 <= i < |names| && T.Trim(names[i]) != ""
      ensures T.Trim(names[i]) in BranchesOf(t)
    {
    }
    var one := [Item(false, Some("a"), None, 0, false, [])];
    if b :| b in BranchesOf(t) && b !in names {
      assert |Normalise(Push, one, Some(b))| == 1;
      assert Filtered(t, Normalise(Push, one, Some(b))) != Normalise(Push, one, Some(b));
    }
  }

  /** An input for the failing half: "dev" is polled, and every commit its poll brings is filtered away. */
  lemma PaddedBranchIsSilent(t: Trigger, items: seq<Item>)
    requires t.kind == Push && t.filter.Some? && t.filter.value.branches == ["main", " dev "]
    ensures BranchesOf(t) == ["main", "dev"]
    ensures Filtered(t, Normalise(Push, items, Some("dev"))) == []
    ensures Filtered(t, Normalise(Push, items, Some("main"))) == Normalise(Push, items, Some("main"))
  {
    var names := ["main", " dev "];
    TrimsToNames();
    assert names[..1] == ["main"] && names[..0] == [];
    assert Polled(names[..0]) == [];
    assert Polled(names[..1]) == Polled(names[..1][..0]) + ["main"] == ["main"];
    assert Polled(names) == ["main"] + ["dev"];
    assert BranchesOf(t)[0] == "main" && BranchesOf(t)[1] == "dev";
    assert "main" == names[0];
    BranchPassesIff(t, "dev", items);
    BranchPassesIff(t, "main", items);
  }

  lemma TrimsToNames()
    ensures T.Trim("main") == "main" && T.Trim(" dev ") == "dev"
  {
    assert " dev "[1..] == "dev ";
    assert T.TrimLeft(" dev ") == "dev ";
    assert "dev "[..3] == "dev";
    assert T.TrimRight("dev ") == "dev";
  }

  /** When every name is blank the default branch is polled, and what it brings passes exactly when the empty
      name stands in the list. */
  lemma BlankBranchesPassIff(t: Trigger, items: seq<Item>)
    requires t.kind == Push && t.filter.Some? && t.filter.value.branches != [] && BranchesOf(t) == []
    ensures Filtered(t, Normalise(Push, items, None)) == if "" in t.filter.value.branches then Normalise(Push, items, None) else []
  {
    var events := Normalise(Push, items, None);
    if "" in t.filter.value.branches {
      FilteredAll(t, events);
    } else {
      FilteredNone(t, events);
    }
  }

  lemma {:induction false} FilteredAll(t: Trigger, events: seq<Event>)
    requires forall i :: 0 <= i < |events| ==> Passes(t, events[i])
    ensures Filtered(t, events) == events
  {
    if events != [] {
      FilteredAll(t, events[1..]);
    }
  }

  lemma {:induction false} FilteredNone(t: Trigger, events: seq<Event>)
    requires forall i :: 0 <= i < |events| ==> !Passes(t, events[i])
    ensures Filtered(t, events) == []
  {
    if events != [] {
      FilteredNone(t, events[1..]);
    }
  }

  // ---------------------------------------------------------------- back-off

  function Interval(pollIntervalMs: int): int {
    Max(MIN_GITHUB_POLL_MS, pollIntervalMs)
  }

  /** Delay and stored back-off after a poll. */
  function AfterPoll(interval: int, backoff: int, failed: bool, missingCli: bool): (int, int) {
    if !failed then (interval, interval)
    else if missingCli then (MAX_GITHUB_BACKOFF_MS, backoff)
    else
      var delay := Min(backoff * 2, MAX_GITHUB_BACKOFF_MS);
      (delay, delay)
  }

  function BackoffAfter(interval: int, failures: nat): int {
    if failures == 0 then interval else AfterPoll(interval, BackoffAfter(interval, failures - 1), true, false).1
  }

  /** The interval doubled n times. */
  function Doubled(interval: int, n: nat): int {
    if n == 0 then interval else 2 * Doubled(interval, n - 1)
  }

  lemma {:induction false} DoubledGrows(interval: int, n: nat)
    requires interval > 0
    ensures Doubled(interval, n) >= interval && (n > 0 ==> Doubled(interval, n) > interval)
  {
    if n > 0 {
      DoubledGrows(interval, n - 1);
    }
  }

  lemma {:induction false} BackoffIsCapped(interval: int, failures: nat)
    requires interval > 0 && failures > 0
    ensures BackoffAfter(interval, failures) == Min(Doubled(interval, failures), MAX_GITHUB_BACKOFF_MS)
  {
    if failures > 1 {
      BackoffIsCapped(interval, failures - 1);
    } else {
      assert Doubled(interval, 1) == 2 * Doubled(interval, 0) == 2 * interval;
    }
  }

  /** After n failures in a row the delay is the interval doubled n times, at most half an hour; so it falls
      below the interval exactly when the interval itself is longer than half an hour. */
  lemma BackoffDoubles(interval: int, failures: nat)
    requires interval > 0 && failures > 0
    ensures BackoffAfter(interval, failures) == Min(Doubled(interval, failures), MAX_GITHUB_BACKOFF_MS)
    ensures BackoffAfter(interval, failures) < interval <==> interval > MAX_GITHUB_BACKOFF_MS
  {
    hide BackoffAfter, Doubled;
    BackoffIsCapped(interval, failures);
    DoubledGrows(interval, failures);
  }

  // ---------------------------------------------------------------- one poll cycle, in place

  /** What `gh` answered for one branch, or for the repository. */
  datatype Answer = Answered(items: seq<Item>) | Failed(missingCli: bool)

  predicate SomeFailed(answers: seq<Answer>) {
    exists i :: 0 <= i < |answers| && answers[i].Failed?
  }

  predicate SomeMissing(answers: seq<Answer>) {
    exists i :: 0 <= i < |answers| && answers[i].Failed? && answers[i].missingCli
  }

  predicate AllFailed(answers: seq<Answer>) {
    forall i :: 0 <= i < |answers| ==> answers[i].Failed?
  }

  function BranchPolls(branches: seq<string>, answers: seq<Answer>): (polls: seq<BranchPoll>)
    requires |answers| == |branches|
    ensures |polls| == |branches|
    ensures forall i :: 0 <= i < |polls| ==> polls[i].branch == branches[i] && polls[i].ok == answers[i].Answered?
  {
    seq(|branches|, i requires 0 <= i < |branches| =>
      BranchPoll(branches[i], answers[i].Answered?, if answers[i].Answered? then Normalise(Push, answers[i].items, Some(branches[i])) else []))
  }

  /** The cursors after one poll cycle, and what it hands on. */
  function AfterAnswers(t: Trigger, answers: seq<Answer>): (Trigger, seq<Event>)
    requires |answers| == Max(1, |BranchesOf(t)|)
  {
    var branches := BranchesOf(t);
    if branches == [] then
      match answers[0]
      case Failed(_) => (t, [])
      case Answered(items) =>
        var (cursor, handed) := PollOnce(t, Normalise(t.kind, items, None), t.cursor);
        (t.(cursor := cursor), handed)
    else
      var (cursors, arrived) := PollBranches(t, BranchPolls(branches, answers), t.branchCursors);
      (t.(branchCursors := cursors), Chronological(arrived))
  }

  lemma {:induction false} FailedPollsDoNothing(t: Trigger, polls: seq<BranchPoll>, cursors: map<string, EventId>)
    requires forall i :: 0 <= i < |polls| ==> !polls[i].ok
    ensures PollBranches(t, polls, cursors).0 == cursors && PollBranches(t, polls, cursors).1 == []
    decreases |polls|
  {
    if polls != [] {
      FailedPollsDoNothing(t, polls[..|polls| - 1], cursors);
    }
  }

  /** A cycle in which every poll failed changes no cursor and hands nothing on. */
  lemma NoAnswerNoChange(t: Trigger, answers: seq<Answer>)
    requires |answers| == Max(1, |BranchesOf(t)|) && AllFailed(answers)
    ensures AfterAnswers(t, answers).0 == t && AfterAnswers(t, answers).1 == []
  {
    hide BranchesOf, PollBranches, Chronological;
    if BranchesOf(t) != [] {
      var polls := BranchPolls(BranchesOf(t), answers);
      FailedPollsDoNothing(t, polls, t.branchCursors);
      assert Chronological([]) == [];
    } else {
      assert answers[0].Failed?;
    }
  }

  class Poller {
    var trigger: Trigger
    var backoffMs: int

    constructor (trigger: Trigger)
      ensures this.trigger == trigger && backoffMs == Interval(trigger.pollIntervalMs)
    {
      this.trigger := trigger;
      backoffMs := Interval(trigger.pollIntervalMs);
    }

    method NormaliseEvents(items: seq<Item>, branch: Option<string>) returns (events: seq<Event>)
      ensures events == Normalise(trigger.kind, items, branch)
    {
      events := [];
      var i := |items|;
      while i > 0
        invariant 0 <= i <= |items|
        invariant events == Normalise(trigger.kind, items[i..], branch)
      {
        i := i - 1;
        assert items[i..][1..] == items[i + 1..];
        var id := IdOf(trigger.kind, items[i]);
        if id.Some? {
          events := [Event(id.value, items[i], branch)] + events;
        }
      }
    }

    /** The sort of a fresh batch: indices first, then the events they stand for. */
    method SortChronologically(events: seq<Event>) returns (sorted: seq<Event>)
      ensures sorted == Chronological(events)
    {
      var order: seq<nat> := [];
      for i := 0 to |events|
        invariant order == SortedIndices(events, i)
      {
        order := InsertIndex(events, i, order);
      }
      sorted := [];
      for i := 0 to |events|
        invariant sorted == Chronological(events)[..i]
      {
        sorted := sorted + [events[order[i]]];
      }
    }

    /** `tickGithub`: the delay and what is handed to the queue, in order. One answer comes for each polled branch,
        or a single one when none is named. */
    method Tick(paused: bool, answers: seq<Answer>) returns (delay: int, handed: seq<Event>)
      requires |answers| == Max(1, |BranchesOf(trigger)|)
      modifies this
      ensures var t := old(trigger);
              if paused then delay == Interval(t.pollIntervalMs) && handed == [] && trigger == t && backoffMs == old(backoffMs)
              else
                && (delay, backoffMs) == AfterPoll(Interval(t.pollIntervalMs), old(backoffMs), SomeFailed(answers), SomeMissing(answers))
                && trigger == AfterAnswers(t, answers).0 && handed == AfterAnswers(t, answers).1
    {
      var interval := Interval(trigger.pollIntervalMs);
      handed := [];
      if paused {
        return interval, handed;
      }
      var branches := BranchesOf(trigger);
      var missingCli, failures := CountFailures(answers);
      if failures > 0 {
        if missingCli {
          delay := MAX_GITHUB_BACKOFF_MS;
        } else {
          delay := Min(backoffMs * 2, MAX_GITHUB_BACKOFF_MS);
          backoffMs := delay;
        }
        if failures == |answers| {
          NoAnswerNoChange(trigger, answers);
          return delay, handed;
        }
      } else {
        delay := interval;
        backoffMs := interval;
      }
      if |branches| > 0 {
        var arrived := AdvanceBranches(BranchPolls(branches, answers));
        handed := SortChronologically(arrived);
      } else {
        var events := NormaliseEvents(answers[0].items, None);
        var batch := AfterCursor(events, trigger.cursor);
        handed := SortChronologically(Filtered(trigger, batch.arrived));
        if batch.next.Some? && batch.next != trigger.cursor {
          trigger := trigger.(cursor := batch.next);
        }
      }
    }

    method CountFailures(answers: seq<Answer>) returns (missingCli: bool, failures: nat)
      ensures missingCli == SomeMissing(answers) && (failures > 0 <==> SomeFailed(answers))
      ensures failures <= |answers| && (failures == |answers| <==> AllFailed(answers))
    {
      missingCli, failures := false, 0;
      for i := 0 to |answers|
        invariant failures <= i
        invariant missingCli == exists j :: 0 <= j < i && answers[j].Failed? && answers[j].missingCli
        invariant failures > 0 <==> exists j :: 0 <= j < i && answers[j].Failed?
        invariant failures == i <==> forall j :: 0 <= j < i ==> answers[j].Failed?
      {
        if answers[i].Failed? {
          failures := failures + 1;
          missingCli := missingCli || answers[i].missingCli;
        }
      }
    }

    /** The loop over the polled branches of a push trigger. */
    method AdvanceBranches(polls: seq<BranchPoll>) returns (arrived: seq<Event>)
      modifies this`trigger
      ensures var (cursors, events) := PollBranches(old(trigger), polls, old(trigger).branchCursors);
              arrived == events && trigger == old(trigger).(branchCursors := cursors)
    {
      var cursors := trigger.branchCursors;
      arrived := [];
      for i := 0 to |polls|
        invariant trigger == old(trigger)
        invariant (cursors, arrived) == PollBranches(trigger, polls[..i], trigger.branchCursors)
      {
        assert polls[..i + 1][..i] == polls[..i] && polls[..i + 1][i] == polls[i];
        assert arrived + [] == arrived;
        if polls[i].ok {
          var previous := if polls[i].branch in cursors then Some(cursors[polls[i].branch]) else None;
          var batch := AfterCursor(polls[i].page, previous);
          if batch.next.Some? {
            cursors := cursors[polls[i].branch := batch.next.value];
          }
          arrived := arrived + Filtered(trigger, batch.arrived);
        }
      }
      assert polls[..|polls|] == polls;
      trigger := trigger.(branchCursors := cursors);
    }
  }
}
