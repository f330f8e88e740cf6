/** Closing is ordered after sending for every registration whose predecessors, those of the
    same path and query, were asked at most once to close. */
module CloseOrder {
  import opened Sequences
  import opened FanOut
  import opened FanOutInvariant
  import opened FanOutTheorems
  import opened CloseMoves

  predicate RequestingIt(r: Registry, id: nat) {
    r.mu == Requesting(id)
  }

  predicate ClosingIt(r: Registry, id: nat) {
    (r.mu.Emptied? || r.mu.Unwatched?) && r.mu.id == id
  }

  /** Every close operation was asked for by a CloseWatch. */
  ghost predicate Counted(q: QueryWatch, requesting: bool) {
    Closes(q.queued) + (if requesting then 1 else 0) == q.closeRequests
  }

  /** A closed query that runs a closure again has taken two close operations. */
  ghost predicate Twice(q: QueryWatch, mine: bool) {
    !q.open && q.loop.Closing? && !mine ==> Closes(TakenOps(q)) >= 2
  }

  /** Nobody has asked twice to close an earlier registration of the same path and query. */
  ghost predicate Calm(r: Registry, id: nat)
    requires id < |r.qs|
  {
    forall k {:trigger r.qs[k]} :: 0 <= k < id && SameKey(r.qs[id], r.qs[k]) ==> r.qs[k].closeRequests <= 1
  }

  ghost predicate Newest(r: Registry) {
    forall j, k {:trigger r.qs[j], r.qs[k]} :: 0 <= j < k < |r.qs| && SameKey(r.qs[j], r.qs[k]) ==> !r.qs[j].open
  }

  ghost predicate Past(r: Registry) {
    && Newest(r)
    && forall id {:trigger r.qs[id]} :: 0 <= id < |r.qs| ==>
         Queues(r.qs[id]) && Counted(r.qs[id], RequestingIt(r, id)) && (r.qs[id].open ==> Fine(r.qs[id]))
  }

  ghost predicate KeptBy(r: Registry, id: nat)
    requires id < |r.qs|
  {
    Calm(r, id) ==> Fine(r.qs[id]) && Twice(r.qs[id], ClosingIt(r, id))
  }

  ghost predicate Kept(r: Registry) {
    forall id {:trigger r.qs[id]} :: 0 <= id < |r.qs| ==> KeptBy(r, id)
  }

  lemma CountedStep(r: Registry, a: Action, id: nat)
    requires MutexOk(r) && Enabled(r, a) && id < |r.qs| && Counted(r.qs[id], RequestingIt(r, id))
    ensures |r.qs| <= |Do(r, a).qs| && Counted(Do(r, a).qs[id], RequestingIt(Do(r, a), id))
  {
    if a.SetSend? {
      ClosesAppend(r.qs[a.id].queued, Send(r.mu.val));
    } else if a.CloseSend? {
      ClosesAppend(r.qs[r.mu.id].queued, CloseOp(r.qs[r.mu.id].path, r.qs[r.mu.id].query));
    } else {
      CountFrame(r, a, id);
    }
  }

  lemma CountFrame(r: Registry, a: Action, id: nat)
    requires Enabled(r, a) && id < |r.qs| && !a.SetSend? && !a.CloseSend?
    ensures |r.qs| <= |Do(r, a).qs|
    ensures var q, n, t := r.qs[id], Do(r, a).qs[id], Do(r, a);
            n.queued == q.queued && n.closeRequests - q.closeRequests
            == (if RequestingIt(t, id) then 1 else 0) - (if RequestingIt(r, id) then 1 else 0)
  {
    if !a.CloseStart? { RequestFrame(r, a, id); }
  }

  lemma RequestFrame(r: Registry, a: Action, id: nat)
    requires Enabled(r, a) && id < |r.qs| && !a.SetSend? && !a.CloseSend? && !a.CloseStart?
    ensures |r.qs| <= |Do(r, a).qs| && RequestingIt(Do(r, a), id) == RequestingIt(r, id)
    ensures var q, n := r.qs[id], Do(r, a).qs[id]; n.queued == q.queued && n.closeRequests == q.closeRequests
  {
  }

  lemma TwiceTake(q: QueryWatch)
    requires Queues(q) && Fine(q) && q.loop.Ready? && q.operChan != []
    ensures Twice(Taken(q), false)
  {
    TakeOps(q);
    if !q.open {
      ClosesAtLeast(TakenOps(q), FirstClose(TakenOps(q)));
      ClosesAppend(TakenOps(q), q.operChan[0]);
    }
  }

  lemma TwiceFrame(r: Registry, a: Action, id: nat)
    requires MutexOk(r) && Enabled(r, a) && id < |r.qs| && a != Take(id) && !a.ClosureStart?
    ensures |r.qs| <= |Do(r, a).qs|
    ensures var q, n, t := r.qs[id], Do(r, a).qs[id], Do(r, a);
            n.loop.Closing? ==> q.loop.Closing? && n.open == q.open && (ClosingIt(r, id) ==> ClosingIt(t, id))
  {
  }

  lemma TwiceClosure(r: Registry, k: nat, id: nat)
    requires QueriesOk(r) && Enabled(r, ClosureStart(k)) && id < |r.qs| && Twice(r.qs[id], false)
    requires !Foreign(r, ClosureStart(k), id)
    ensures |CloseQuery(r, k).qs| == |r.qs|
    ensures Twice(CloseQuery(r, k).qs[id], ClosingIt(CloseQuery(r, k), id))
  {
    ClosedItself(r, k);
    ClosureEffect(r, k, id);
  }

  /** Operations taken are never given back. */
  lemma ClosesGrow(q: QueryWatch, n: QueryWatch)
    requires Queues(q) && Moved(q, n)
    ensures Closes(TakenOps(n)) >= Closes(TakenOps(q))
  {
    if op :| n == Put(q, op) {
      PutOps(q, op);
    } else if q.loop.Ready? && q.operChan != [] && n == Taken(q) {
      TakeOps(q);
      ClosesAppend(TakenOps(q), q.operChan[0]);
    } else {
      assert TakenOps(n) == TakenOps(q);
    }
  }

  lemma TwiceStep(r: Registry, a: Action, id: nat)
    requires Inv(r) && Enabled(r, a) && id < |r.qs| && !Foreign(r, a, id)
    requires Queues(r.qs[id]) && Fine(r.qs[id]) && Twice(r.qs[id], ClosingIt(r, id))
    ensures |r.qs| <= |Do(r, a).qs| && Twice(Do(r, a).qs[id], ClosingIt(Do(r, a), id))
  {
    if a == Take(id) {
      TwiceTake(r.qs[id]);
    } else if a.ClosureStart? {
      TwiceClosure(r, a.id, id);
    } else {
      TwiceFrame(r, a, id);
      Moves(r, a, id);
      ClosesGrow(r.qs[id], Do(r, a).qs[id]);
    }
  }

  lemma RequestsGrow(r: Registry, a: Action, id: nat)
    requires Inv(r) && Enabled(r, a) && id < |r.qs|
    ensures |r.qs| <= |Do(r, a).qs|
    ensures SameKey(r.qs[id], Do(r, a).qs[id]) && r.qs[id].closeRequests <= Do(r, a).qs[id].closeRequests
  {
    Moves(r, a, id);
    if !Foreign(r, a, id) { MovedKey(r.qs[id], Do(r, a).qs[id]); }
  }

  lemma CalmBefore(r: Registry, a: Action, id: nat)
    requires Inv(r) && Enabled(r, a) && id < |r.qs| <= |Do(r, a).qs| && Calm(Do(r, a), id)
    ensures Calm(r, id)
  {
    RequestsGrow(r, a, id);
    forall k | 0 <= k < id && SameKey(r.qs[id], r.qs[k]) ensures r.qs[k].closeRequests <= 1 {
      RequestsGrow(r, a, k);
    }
  }

  /** The second request behind a closure that finds a later registration. */
  lemma ForeignIsTwice(r: Registry, a: Action, id: nat)
    requires Inv(r) && Past(r) && Kept(r) && Enabled(r, a) && Foreign(r, a, id)
    ensures id < |r.qs| && !Calm(r, id)
  {
    ForeignIsEarlier(r, a, id);
    var k := a.id;
    assert k < id;
    if Calm(r, id) {
      assert Calm(r, k);
      CalmClosesOnce(r, k);
    }
  }

  lemma CalmClosesOnce(r: Registry, k: nat)
    requires Past(r) && Kept(r) && r.mu.Free? && k < |r.qs| && Calm(r, k) && r.qs[k].loop.Closing?
    ensures r.qs[k].open || r.qs[k].closeRequests >= 2
  {
    var q := r.qs[k];
    assert KeptBy(r, k) && Queues(q) && Counted(q, false);
    ClosesConcat(TakenOps(q), q.operChan);
  }

  lemma KeptStep(r: Registry, a: Action, id: nat)
    requires Inv(r) && Past(r) && Kept(r) && Enabled(r, a) && id < |r.qs|
    ensures |r.qs| <= |Do(r, a).qs| && KeptBy(Do(r, a), id)
  {
    Moves(r, a, id);
    if Calm(Do(r, a), id) {
      CalmBefore(r, a, id);
      assert KeptBy(r, id) && Queues(r.qs[id]);
      if Foreign(r, a, id) { ForeignIsTwice(r, a, id); }
      TwiceStep(r, a, id);
      FineMoved(r.qs[id], Do(r, a).qs[id]);
    }
  }

  lemma PastQuery(r: Registry, a: Action, id: nat)
    requires Inv(r) && Past(r) && Enabled(r, a) && id < |r.qs|
    ensures |r.qs| <= |Do(r, a).qs|
    ensures var n := Do(r, a).qs[id]; Queues(n) && (n.open ==> Fine(n))
  {
    var q := r.qs[id];
    assert Queues(q) && (q.open ==> Fine(q));
    Moves(r, a, id);
    if Foreign(r, a, id) {
      assert TakenOps(q.(open := false)) == TakenOps(q);
    } else {
      FineMoved(q, Do(r, a).qs[id]);
      if !q.open { ClosedIsFrozen(r, a, id); }
    }
  }

  lemma KeyStays(r: Registry, a: Action, id: nat)
    requires Inv(r) && Enabled(r, a) && id < |r.qs|
    ensures |r.qs| <= |Do(r, a).qs| && SameKey(r.qs[id], Do(r, a).qs[id])
    ensures !r.qs[id].open ==> !Do(r, a).qs[id].open
  {
    RequestsGrow(r, a, id);
    NeverReopened(r, a, id);
  }

  lemma NewIsOnly(r: Registry, a: Action, j: nat)
    requires Inv(r) && Enabled(r, a) && j < |r.qs| < |Do(r, a).qs|
    requires SameKey(r.qs[j], Do(r, a).qs[|r.qs|])
    ensures !r.qs[j].open
  {
    NewKey(r, a);
    FreeKey(r, j, Do(r, a).qs[|r.qs|]);
  }

  lemma NewestStep(r: Registry, a: Action, j: nat, k: nat)
    requires Inv(r) && Newest(r) && Enabled(r, a) && j < k < |Do(r, a).qs|
    requires SameKey(Do(r, a).qs[j], Do(r, a).qs[k])
    ensures !Do(r, a).qs[j].open
  {
    if k < |r.qs| {
      KeyStays(r, a, k);
      KeyStays(r, a, j);
      assert SameKey(r.qs[j], r.qs[k]);
    } else {
      NewKey(r, a);
      assert k == |r.qs|;
      KeyStays(r, a, j);
      NewIsOnly(r, a, j);
    }
  }

  lemma FreeKey(r: Registry, j: nat, n: QueryWatch)
    requires QueriesOk(r) && j < |r.qs| && SameKey(r.qs[j], n) && Lookup(r.paths, n.path, n.query) == None
    ensures !r.qs[j].open
  {
    assert QueryOk(r.qs[j], j, r.paths, Awaiting(r, j));
  }

  lemma StepKept(r: Registry, a: Action)
    requires Inv(r) && Past(r) && Kept(r) && Enabled(r, a)
    ensures Past(Do(r, a)) && Kept(Do(r, a))
  {
    var t := Do(r, a);
    forall j, k | 0 <= j < k < |t.qs| && SameKey(t.qs[j], t.qs[k]) ensures !t.qs[j].open { NewestStep(r, a, j, k); }
    forall id | 0 <= id < |t.qs|
      ensures Queues(t.qs[id]) && Counted(t.qs[id], RequestingIt(t, id)) && (t.qs[id].open ==> Fine(t.qs[id]))
      ensures KeptBy(t, id)
    {
      if id < |r.qs| {
        assert Counted(r.qs[id], RequestingIt(r, id));
        PastQuery(r, a, id);
        CountedStep(r, a, id);
        KeptStep(r, a, id);
      } else {
        NewKey(r, a);
        NewFine(t.qs[id]);
        NewFree(r, a);
      }
    }
  }

  lemma NewFree(r: Registry, a: Action)
    requires Enabled(r, a) && |Do(r, a).qs| > |r.qs|
    ensures Do(r, a).mu.Free?
  {
  }

  lemma {:induction false} ExecKept(acts: seq<Action>)
    ensures var r := Exec(Init(), acts); r.Some? ==> Past(r.value) && Kept(r.value)
  {
    if acts != [] {
      var before, a := Exec(Init(), acts[..|acts| - 1]), acts[|acts| - 1];
      ExecKept(acts[..|acts| - 1]);
      ExecInv(acts[..|acts| - 1]);
      if before.Some? && Enabled(before.value, a) { StepKept(before.value, a); }
    }
  }

  lemma ReachableKept(r: Registry)
    requires Reachable(r)
    ensures Inv(r) && Past(r) && Kept(r)
  {
    var acts: seq<Action> :| Exec(Init(), acts) == Some(r);
    ExecKept(acts);
    ExecInv(acts);
  }

  /** When nobody has asked twice to close an earlier registration of the same path and
      query: a closed query has a close operation in its queue's history and its consumer
      received exactly the values queued before it, in order; an open one a prefix. */
  lemma CloseIsOrderedAfterSends(r: Registry, id: nat)
    requires Reachable(r) && id < |r.qs| && Calm(r, id)
    ensures InOrder(r.qs[id])
    ensures var q := r.qs[id]; var n := FirstClose(q.queued);
            if q.open then q.delivered <= Sends(q.queued[..n])
            else n < |q.queued| && q.queued[n].CloseOp? && q.delivered == Sends(q.queued[..n])
  {
    ReachableKept(r);
    assert KeptBy(r, id) && Queues(r.qs[id]);
    FineInOrder(r.qs[id]);
  }

  /** Under the same condition for the query itself too, its closure closes that query. */
  lemma ClosesItself(r: Registry, id: nat)
    requires Reachable(r) && Enabled(r, ClosureStart(id)) && Calm(r, id) && r.qs[id].closeRequests <= 1
    ensures var q := r.qs[id];
            q.open && q.loop == Closing(q.path, q.query) && Lookup(r.paths, q.path, q.query) == Some(id)
  {
    ReachableKept(r);
    CalmClosesOnce(r, id);
    assert QueryOk(r.qs[id], id, r.paths, Awaiting(r, id));
  }

  /** A closure that finds another query than the one that runs it finds a later
      registration, and comes after a second request for an earlier one. */
  lemma ForeignClosure(r: Registry, k: nat, id: nat)
    requires Reachable(r) && Enabled(r, ClosureStart(k)) && Foreign(r, ClosureStart(k), id)
    ensures id < |r.qs| && k < id && r.qs[id].open && !r.qs[k].open && !Calm(r, id)
  {
    ReachableKept(r);
    ForeignIsEarlier(r, ClosureStart(k), id);
    ForeignIsTwice(r, ClosureStart(k), id);
  }
}
