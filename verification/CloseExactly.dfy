/** Exactly when closing stays ordered after sending in every future: no close operation of
    another registration of the same path and query is on its way. */
module CloseExactly {
  import opened Sequences
  import opened FanOut
  import opened FanOutInvariant
  import opened FanOutTheorems
  import opened CloseMoves
  import opened CloseOrder

  /** A close operation that opLoop has in hand or will come to.  A closed query drops the
      values before it, but hangs for ever once it holds one at the nil channel. */
  predicate Pending(q: QueryWatch) {
    q.loop.Closing? || ((q.loop.Ready? || q.loop.Blocked?) && HasClose(q.operChan))
  }

  /** Another registration of the same path and query, with a close operation on its way. */
  predicate Rival(r: Registry, id: nat, k: nat)
    requires id < |r.qs|
  {
    k < |r.qs| && k != id && SameKey(r.qs[id], r.qs[k]) && Pending(r.qs[k])
  }

  ghost predicate NoRival(r: Registry, id: nat)
    requires id < |r.qs|
  {
    forall k {:trigger r.qs[k]} :: 0 <= k < |r.qs| ==> !Rival(r, id, k)
  }

  /** All that is due before the close operation has been received already. */
  ghost predicate AllDue(q: QueryWatch) {
    HasClose(q.queued) && q.delivered == DueBeforeClose(q.queued)
  }

  /** The promise is kept in whatever happens from now on. */
  ghost predicate Safe(r: Registry, id: nat) {
    forall acts: seq<Action> :: Exec(r, acts).Some? ==>
      id < |Exec(r, acts).value.qs| && InOrder(Exec(r, acts).value.qs[id])
  }

  lemma PendingBefore(q: QueryWatch, n: QueryWatch)
    requires !q.open && Moved(q, n) && n.queued == q.queued && Pending(n)
    ensures Pending(q)
  {
    if q.loop.Ready? && q.operChan != [] && n == Taken(q) {
      assert q.operChan == [q.operChan[0]] + n.operChan;
      FirstCloseOfPrefix([q.operChan[0]], n.operChan);
    }
  }

  lemma RivalBefore(r: Registry, a: Action, id: nat, k: nat)
    requires Inv(r) && Enabled(r, a) && id < |r.qs| <= |Do(r, a).qs| && r.qs[id].open && Rival(Do(r, a), id, k)
    ensures Rival(r, id, k)
  {
    RequestsGrow(r, a, id);
    if k < |r.qs| {
      RequestsGrow(r, a, k);
      OldRival(r, a, id, k);
    } else {
      NewKey(r, a);
      assert k == |r.qs|;
      NewIsOnly(r, a, id);
    }
  }

  lemma OldRival(r: Registry, a: Action, id: nat, k: nat)
    requires Inv(r) && Enabled(r, a) && id < |r.qs| <= |Do(r, a).qs| && k < |r.qs| && k != id
    requires r.qs[id].open && SameKey(r.qs[id], r.qs[k]) && Pending(Do(r, a).qs[k])
    ensures Rival(r, id, k)
  {
    if r.qs[k].open { OpenIsOnly(r, id, k); }
    ClosedPending(r, a, k);
  }

  /** A closed query gets no new close operation. */
  lemma ClosedPending(r: Registry, a: Action, k: nat)
    requires Inv(r) && Enabled(r, a) && k < |r.qs| <= |Do(r, a).qs| && !r.qs[k].open && Pending(Do(r, a).qs[k])
    ensures Pending(r.qs[k])
  {
    ClosedIsFrozen(r, a, k);
    Moves(r, a, k);
    if Foreign(r, a, k) { ForeignIsEarlier(r, a, k); }
    PendingBefore(r.qs[k], Do(r, a).qs[k]);
  }

  /** What guards a query against losing values. */
  ghost predicate Guarded(r: Registry, id: nat) {
    id < |r.qs| && Queues(r.qs[id]) && Fine(r.qs[id]) && (r.qs[id].open ==> NoRival(r, id))
  }

  lemma GuardedStep(r: Registry, a: Action, id: nat)
    requires Inv(r) && Enabled(r, a) && Guarded(r, id)
    ensures Guarded(Do(r, a), id)
  {
    var t := Do(r, a);
    Moves(r, a, id);
    if Foreign(r, a, id) {
      ForeignIsEarlier(r, a, id);
      assert Rival(r, id, a.id);
    }
    FineMoved(r.qs[id], t.qs[id]);
    if t.qs[id].open {
      NeverReopened(r, a, id);
      forall k | 0 <= k < |t.qs| ensures !Rival(t, id, k) {
        if Rival(t, id, k) { RivalBefore(r, a, id, k); }
      }
    }
  }

  /** With all received, nothing can be lost any more. */
  ghost predicate Finished(r: Registry, id: nat) {
    id < |r.qs| && Queues(r.qs[id]) && AllDue(r.qs[id]) && (r.qs[id].open ==> Fine(r.qs[id]))
  }

  lemma FinishedStep(r: Registry, a: Action, id: nat)
    requires Inv(r) && Enabled(r, a) && Finished(r, id)
    ensures Finished(Do(r, a), id)
  {
    var q, n := r.qs[id], Do(r, a).qs[id];
    Moves(r, a, id);
    if Foreign(r, a, id) {
      FinishedClosed(q);
    } else {
      FineMoved(q, n);
      if q.open { FinishedMoved(q, n); } else { ClosedIsFrozen(r, a, id); }
    }
  }

  lemma FinishedClosed(q: QueryWatch)
    requires Queues(q) && AllDue(q)
    ensures Queues(q.(open := false)) && AllDue(q.(open := false))
  {
    assert TakenOps(q.(open := false)) == TakenOps(q);
  }

  lemma FinishedMoved(q: QueryWatch, n: QueryWatch)
    requires AllDue(q) && Fine(n) && Queues(n) && q.queued <= n.queued && q.delivered <= n.delivered
    ensures AllDue(n)
  {
    var rest := n.queued[|q.queued|..];
    assert n.queued == q.queued + rest;
    DueOfPrefix(q.queued, rest);
    FineInOrder(n);
  }

  lemma {:induction false} FutureInOrder(r: Registry, id: nat, acts: seq<Action>)
    requires Inv(r) && (Guarded(r, id) || Finished(r, id)) && Exec(r, acts).Some?
    ensures var s := Exec(r, acts).value;
            Inv(s) && (if Guarded(r, id) then Guarded(s, id) else Finished(s, id)) && InOrder(s.qs[id])
  {
    if acts == [] {
      FineOrDone(r, id);
    } else {
      var before, a := acts[..|acts| - 1], acts[|acts| - 1];
      FutureInOrder(r, id, before);
      var s := Exec(r, before).value;
      FanOutInvariant.StepInv(s, a);
      if Guarded(r, id) { GuardedStep(s, a, id); } else { FinishedStep(s, a, id); }
      FineOrDone(Do(s, a), id);
    }
  }

  lemma FineOrDone(r: Registry, id: nat)
    requires Guarded(r, id) || Finished(r, id)
    ensures InOrder(r.qs[id])
  {
    if Guarded(r, id) { FineInOrder(r.qs[id]); }
  }

  /** The rival's next move, which is enabled while the mutex is free. */
  function NextMove(q: QueryWatch, k: nat): Action {
    if q.loop.Closing? then ClosureStart(k) else if q.loop.Blocked? then Recover(k) else Take(k)
  }

  lemma RivalMoves(r: Registry, id: nat, k: nat)
    requires r.mu.Free? && id < |r.qs| && Rival(r, id, k) && !r.qs[k].open && !r.qs[k].loop.Closing?
    ensures Enabled(r, NextMove(r.qs[k], k))
    ensures var t := Do(r, NextMove(r.qs[k], k));
            && t.paths == r.paths && t.mu == r.mu && |t.qs| == |r.qs| && t.qs[id] == r.qs[id]
            && !t.qs[k].open && Rival(t, id, k)
            && |t.qs[k].operChan| + (if t.qs[k].loop.Blocked? then 1 else 0)
               < |r.qs[k].operChan| + (if r.qs[k].loop.Blocked? then 1 else 0)
  {
    var q := r.qs[k];
    if q.loop.Ready? {
      assert q.operChan == [q.operChan[0]] + q.operChan[1..];
      FirstCloseOfPrefix([q.operChan[0]], q.operChan[1..]);
    }
  }

  lemma RivalCloses(r: Registry, id: nat, k: nat)
    requires Inv(r) && r.mu.Free? && id < |r.qs| && Rival(r, id, k) && r.qs[id].open && r.qs[k].loop.Closing?
    ensures Enabled(r, ClosureStart(k)) && |CloseQuery(r, k).qs| == |r.qs|
    ensures CloseQuery(r, k).qs[id] == r.qs[id].(open := false)
  {
    assert QueryOk(r.qs[k], k, r.paths, false) && QueryOk(r.qs[id], id, r.paths, false);
    Moves(r, ClosureStart(k), id);
  }

  /** The rival's own moves end in the closure that takes the query down. */
  lemma {:induction false} RunRival(r: Registry, id: nat, k: nat) returns (acts: seq<Action>)
    requires Inv(r) && r.mu.Free? && id < |r.qs| && r.qs[id].open && Rival(r, id, k)
    ensures Exec(r, acts).Some?
    ensures var s := Exec(r, acts).value; id < |s.qs| && s.qs[id] == r.qs[id].(open := false)
    decreases |r.qs[k].operChan| + if r.qs[k].loop.Blocked? then 1 else 0
  {
    if r.qs[k].open { OpenIsOnly(r, id, k); }
    var a := NextMove(r.qs[k], k);
    var rest := [];
    if r.qs[k].loop.Closing? {
      RivalCloses(r, id, k);
    } else {
      RivalMoves(r, id, k);
      FanOutInvariant.StepInv(r, a);
      rest := RunRival(Do(r, a), id, k);
    }
    ExecCons(r, a, rest);
    acts := [a] + rest;
  }

  /** The holder of the mutex does not wait for room in a queue. */
  predicate Released(r: Registry) {
    !r.mu.Setting? && !r.mu.Requesting?
  }

  /** What the holder of the mutex does next. */
  function Release(r: Registry): Action
    requires Released(r) && !r.mu.Free?
  {
    if r.mu.Adding? then WatchFailed else if r.mu.Emptied? then ClosureUnwatch else ClosureEnd
  }

  /** A finishing closure has nothing to do with an open query. */
  lemma ReleaseKeeps(r: Registry, id: nat, k: nat)
    requires Inv(r) && Released(r) && !r.mu.Free? && id < |r.qs| && r.qs[id].open && Rival(r, id, k)
    ensures Enabled(r, Release(r))
    ensures var t := Do(r, Release(r));
            Released(t) && id < |t.qs| && t.qs[id] == r.qs[id] && Rival(t, id, k)
            && (r.mu.Emptied? ==> t.mu.Unwatched?) && (!r.mu.Emptied? ==> t.mu.Free?)
  {
    assert QueryOk(r.qs[id], id, r.paths, false);
  }

  /** With the mutex free or about to be, the rival's own moves take the query down. */
  lemma {:induction false} RunToLoss(r: Registry, id: nat, k: nat) returns (acts: seq<Action>)
    requires Inv(r) && Released(r) && id < |r.qs| && r.qs[id].open && Rival(r, id, k)
    ensures Exec(r, acts).Some?
    ensures var s := Exec(r, acts).value; id < |s.qs| && s.qs[id] == r.qs[id].(open := false)
    decreases if r.mu.Free? then 0 else if r.mu.Emptied? then 2 else 1
  {
    if r.mu.Free? {
      acts := RunRival(r, id, k);
    } else {
      ReleaseKeeps(r, id, k);
      FanOutInvariant.StepInv(r, Release(r));
      var rest := RunToLoss(Do(r, Release(r)), id, k);
      ExecCons(r, Release(r), rest);
      acts := [Release(r)] + rest;
    }
  }

  /** A close operation of another registration that is on its way can always take the query
      down, with nothing more queued or delivered. */
  lemma RivalTakesDown(r: Registry, id: nat, k: nat)
    requires Reachable(r) && Released(r) && id < |r.qs| && r.qs[id].open && Rival(r, id, k)
    ensures exists acts: seq<Action> ::
      Exec(r, acts).Some? && id < |Exec(r, acts).value.qs| && Exec(r, acts).value.qs[id] == r.qs[id].(open := false)
  {
    ReachableKept(r);
    var acts := RunToLoss(r, id, k);
  }

  /** The promise is kept in every future if and only if all that is due has been received
      already, or no other registration of the same path and query has a close operation on
      its way.  A caller can see to the second before Watch: then there is nothing to wait
      for but the end of the closures asked for before. */
  lemma SafeExactly(r: Registry, id: nat)
    requires Reachable(r) && Released(r) && id < |r.qs| && r.qs[id].open
    ensures Safe(r, id) <==> AllDue(r.qs[id]) || NoRival(r, id)
  {
    ReachableKept(r);
    assert Queues(r.qs[id]) && Fine(r.qs[id]);
    if AllDue(r.qs[id]) || NoRival(r, id) {
      StaysSafe(r, id);
    } else {
      var k :| 0 <= k < |r.qs| && Rival(r, id, k);
      NotSafe(r, id, k);
    }
  }

  lemma StaysSafe(r: Registry, id: nat)
    requires Inv(r) && (Guarded(r, id) || Finished(r, id))
    ensures Safe(r, id)
  {
    forall acts: seq<Action> | Exec(r, acts).Some?
      ensures id < |Exec(r, acts).value.qs| && InOrder(Exec(r, acts).value.qs[id])
    {
      FutureInOrder(r, id, acts);
    }
  }

  lemma NotSafe(r: Registry, id: nat, k: nat)
    requires Inv(r) && Released(r) && id < |r.qs| && r.qs[id].open && Rival(r, id, k) && !AllDue(r.qs[id])
    ensures !Safe(r, id)
  {
    var acts := RunToLoss(r, id, k);
    assert !InOrder(Exec(r, acts).value.qs[id]);
  }

  /** A closed query's part is settled for ever. */
  lemma ClosedIsSettled(r: Registry, id: nat)
    requires Reachable(r) && id < |r.qs| && !r.qs[id].open
    ensures Safe(r, id) <==> InOrder(r.qs[id])
  {
    ReachableKept(r);
    assert Queues(r.qs[id]) && Exec(r, []) == Some(r);
    if InOrder(r.qs[id]) { StaysSafe(r, id); }
  }
}
