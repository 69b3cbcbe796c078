// Which items of a result make an event, and which events a trigger lets through.
module GithubEvents {
  import opened Common
  import opened Decimal
  import opened GithubPoller

  /** An item makes an event if it has what its kind is told by: a commit its sha, anything else its number; and a pull
      request is no issue. */
  predicate MakesEvent(kind: EventKind, it: Item) {
    match kind
    case Push => it.sha.Some? && it.sha.value != ""
    case IssuesOpened => it.number.Some? && !it.isPullRequest
    case PullRequestOpened => it.number.Some?
    case PullRequestClosed => it.number.Some?
  }

  function IdText(kind: EventKind, it: Item): string
    requires MakesEvent(kind, it)
  {
    if kind == Push then it.sha.value else Print(it.number.value)
  }

  lemma IdOfIs(kind: EventKind, it: Item)
    ensures IdOf(kind, it) == if MakesEvent(kind, it) then Some(IdText(kind, it)) else None
  {
  }

  /** The events of a result, in its order: one for each item that makes one, under its sha or its number. */
  lemma {:induction false} EventsOfAResult(kind: EventKind, items: seq<Item>, it: Item, branch: Option<string>)
    ensures Normalise(kind, [], branch) == []
    ensures Normalise(kind, items + [it], branch) ==
            Normalise(kind, items, branch) + (if MakesEvent(kind, it) then [Event(IdText(kind, it), it, branch)] else [])
  {
    hide MakesEvent, IdText, IdOf;
    IdOfIs(kind, it);
    if items == [] {
      assert [it][1..] == [] && items + [it] == [it];
    } else {
      assert (items + [it])[1..] == items[1..] + [it];
      EventsOfAResult(kind, items[1..], it, branch);
    }
  }

  predicate HasLabels(it: Item, labels: seq<string>) {
    forall l :: l in labels ==> l in it.labels
  }

  /** What a filter asks of an event: every label of a pull request, a merge of a closed one if it says so, and of a push
      the branch, when it names any. Issues pass. */
  lemma PassesIff(t: Trigger, e: Event)
    ensures t.filter.None? ==> Passes(t, e)
    ensures t.filter.Some? ==>
              var f := t.filter.value;
              Passes(t, e) <==> match t.kind
                                case PullRequestOpened => HasLabels(e.item, f.labels)
                                case PullRequestClosed => HasLabels(e.item, f.labels) && (f.mergedOnly ==> e.item.merged)
                                case IssuesOpened => true
                                case Push => f.branches == [] || (match e.branch case Some(b) => b in f.branches case None => "" in f.branches)
  {
  }

  /** A filtered list is the events that pass, each as often as it was there. */
  lemma {:induction false} FilteredCounts(t: Trigger, events: seq<Event>, e: Event)
    ensures multiset(Filtered(t, events))[e] == if Passes(t, e) then multiset(events)[e] else 0
  {
    hide Passes;
    if events != [] {
      FilteredCounts(t, events[1..], e);
      assert events == [events[0]] + events[1..];
    }
  }

  /** So, from a poll that finds the cursor, what is handed on is exactly the arrivals that meet the filter: a pull request
      closed without a merge, say, never is when merges only are asked for. */
  lemma HandedMeetsTheFilter(t: Trigger, feed: seq<Event>, from: nat, seen: nat, e: Event)
    requires DistinctIds(feed) && from < seen <= |feed| && from < |feed|
    ensures e in Chronological(Filtered(t, AfterCursor(PageOf(feed, from), Some(feed[seen - 1].id)).arrived)) <==> e in feed[seen..] && Passes(t, e)
  {
    hide Filtered, AfterCursor, Chronological, PageOf, Descends, Passes, DistinctIds;
    HandedOncePerPoll(t, feed, from, seen);
    FilteredCounts(t, feed[seen..], e);
    var handed := Chronological(Filtered(t, AfterCursor(PageOf(feed, from), Some(feed[seen - 1].id)).arrived));
    assert e in handed <==> e in multiset(handed);
  }

  /** The delay after a cycle: the interval when all polls answered; half an hour when `gh` is missing; else twice the
      last back-off, at most half an hour. No poller asks more than once a minute. */
  lemma DelayIs(pollIntervalMs: int, backoff: int)
    ensures Interval(pollIntervalMs) >= 60_000 && (pollIntervalMs >= 60_000 ==> Interval(pollIntervalMs) == pollIntervalMs)
    ensures pollIntervalMs < 60_000 ==> Interval(pollIntervalMs) == 60_000
    ensures AfterPoll(Interval(pollIntervalMs), backoff, false, false) == (Interval(pollIntervalMs), Interval(pollIntervalMs))
    ensures AfterPoll(Interval(pollIntervalMs), backoff, true, true) == (1_800_000, backoff)
    ensures AfterPoll(Interval(pollIntervalMs), backoff, true, false).0 == AfterPoll(Interval(pollIntervalMs), backoff, true, false).1
    ensures AfterPoll(Interval(pollIntervalMs), backoff, true, false).0 == if backoff <= 900_000 then backoff + backoff else 1_800_000
  {
  }
}
