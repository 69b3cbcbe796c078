// How long a group waits, what it holds meanwhile, and what its timer leaves.
module GroupWindows {
  import opened Common
  import opened GroupJoin
  import opened GroupAwaited

  /** A new batch waits for exactly its agents, holds nothing, has no timer, and takes their completions. */
  lemma NewBatchWaits(s: State, gid: GroupId, ids: seq<AgentId>)
    requires gid != ""
    ensures var t := Register(s, gid, ids);
            && gid in t.groups && (forall id :: WaitsFor(t.groups[gid], id) <==> id in ids)
            && t.groups[gid].completed == [] && t.groups[gid].deadline.None? && !t.groups[gid].straggler
            && (forall id :: id in ids ==> GroupFor(t, id) == Some(gid))
            && (forall id :: id !in ids ==> GroupFor(t, id) == GroupFor(s, id) || GroupFor(t, id) == Some(gid))
            && t.groups - {gid} == s.groups - {gid} && t.timeout == s.timeout
  {
    var t := Register(s, gid, ids);
    assert forall id :: id in Members(ids) <==> id in ids;
    assert t.groups - {gid} == s.groups - {gid};
  }

  /** The agents of the completions, in order. */
  function Arrivals(completed: seq<Completion>): (r: seq<AgentId>)
    ensures |r| == |completed| && forall i :: 0 <= i < |r| ==> r[i] == completed[i].id
  {
    seq(|completed|, i requires 0 <= i < |completed| => completed[i].id)
  }

  /** A held completion joins the others in the order of first arrival; the clock starts at the first one and later ones
      do not move it. Other groups are left alone. */
  lemma HeldCompletionWaits(s: State, c: Completion, gid: GroupId)
    requires Inv(s) && GroupFor(s, c.id) == Some(gid) && Complete(s, c).1 == Held
    ensures var g, h := s.groups[gid], Complete(s, c).0.groups[gid];
            && Complete(s, c).0 == s.(groups := s.groups[gid := h]) && gid in Complete(s, c).0.groups
            && h.ids == g.ids && h.straggler == g.straggler
            && Arrivals(h.completed) == (if c.id in Arrivals(g.completed) then Arrivals(g.completed) else Arrivals(g.completed) + [c.id])
            && (forall d :: d in h.completed <==> d == c || (d in g.completed && d.id != c.id))
            && h.deadline == match g.deadline
                             case Some(at) => Some(at)
                             case None => Some(c.at + if g.straggler then 15_000 else s.timeout)
  {
    var g := s.groups[gid];
    PutSound(g.completed, c);
    var r := Put(g.completed, c);
    if c.id in Arrivals(g.completed) {
      assert Arrivals(r) == Arrivals(g.completed);
    } else {
      assert forall j :: 0 <= j < |g.completed| ==> Arrivals(g.completed)[j] != c.id;
      assert Arrivals(r) == Arrivals(g.completed) + [c.id];
    }
  }

  /** An expired timer delivers what is held, as partial, and goes on waiting for the rest with the shorter window: from
      then on the first completion of the rest that is held is delivered within fifteen seconds. */
  lemma RestWaitsShorter(s: State, gid: GroupId, c: Completion)
    requires Inv(s) && gid in s.groups && s.groups[gid].deadline.Some?
    ensures var g := s.groups[gid];
            var (t, d) := TimerFires(s, gid);
            && d.records == g.completed && d.partial
            && (forall id :: WaitsFor(t.groups[gid], id) <==> WaitsFor(g, id)) && t.groups[gid].completed == [] && t.groups[gid].deadline.None?
            && t.groups - {gid} == s.groups - {gid} && t.timeout == s.timeout
            && (GroupFor(t, c.id) == Some(gid) && Complete(t, c).1 == Held ==>
                  gid in Complete(t, c).0.groups && Complete(t, c).0.groups[gid].deadline == Some(c.at + 15_000))
            && (forall id :: id in g.ids && id in Arrivals(g.completed) ==> GroupFor(t, id).None?)
  {
    var g := s.groups[gid];
    var t := TimerFires(s, gid).0;
    assert t.groups - {gid} == s.groups - {gid};
    TimerKeepsInv(s, gid);
    if GroupFor(t, c.id) == Some(gid) && Complete(t, c).1 == Held {
      HeldCompletionWaits(t, c, gid);
    }
    forall id | id in g.ids && id in Arrivals(g.completed)
      ensures id in Ids(g.completed)
    {
      var i :| 0 <= i < |g.completed| && Arrivals(g.completed)[i] == id;
      assert g.completed[i].id == id;
    }
  }

  /** A batch whose timer has not fired gives its first held completion the full window. */
  lemma FreshBatchWaitsFull(timeout: nat, ids: seq<AgentId>, gid: GroupId, s: State, c: Completion)
    requires Inv(s) && s.timeout == timeout && gid != "" && gid !in s.groups && c.id in ids
    ensures var t := Register(s, gid, ids);
            Complete(t, c).1 == Held ==> gid in Complete(t, c).0.groups && Complete(t, c).0.groups[gid].deadline == Some(c.at + timeout)
    ensures DEFAULT_TIMEOUT == 30_000
  {
    var t := Register(s, gid, ids);
    RegisterKeepsInv(s, gid, ids);
    NewBatchWaits(s, gid, ids);
    if Complete(t, c).1 == Held {
      HeldCompletionWaits(t, c, gid);
    }
  }

  /** A live group is a rest exactly when its timer has fired since it was registered. */
  lemma RestIff(w: World, e: Event, gid: GroupId)
    requires Inv(w.s) && Enabled(w, e) && gid in Step(w, e).s.groups
    ensures Step(w, e).s.groups[gid].straggler <==> e == Fired(gid) || (gid in w.s.groups && w.s.groups[gid].straggler && !(e.Registered? && e.gid == gid))
  {
  }

  /** What a completion does in all: passed back exactly when no live group is looked up for its agent; then nothing
      changes. A delivery removes its group and its members' entries and nothing else. */
  lemma PassedBackIff(s: State, c: Completion)
    requires Inv(s)
    ensures Complete(s, c).1.Pass? <==> c.id !in s.groupOf
    ensures Complete(s, c).1.Pass? ==> Complete(s, c).0 == s
    ensures Complete(s, c).1.Delivered? ==>
              var gid, t := s.groupOf[c.id], Complete(s, c).0;
              && t.groups == s.groups - {gid} && t.timeout == s.timeout
              && (forall id :: id in t.groupOf <==> id in s.groupOf && id !in s.groups[gid].ids)
              && (forall id :: id in t.groupOf ==> t.groupOf[id] == s.groupOf[id])
  {
    hide Put;
  }
}
