/** What the strategy's fan-out guarantees in every reachable state, however Watch, setVal,
    CloseWatch, the opLoops and their consumers interleave. */
module FanOutTheorems {
  import opened Sequences
  import opened FanOut
  import opened FanOutInvariant

  /** Nothing is lost, duplicated or reordered: the value Watch returned, the values the
      consumer received, the one opLoop holds and those still queued are the values the
      path has had since the registration, but for the newest one while a running setVal
      has not reached this query. */
  lemma NothingIsLost(r: Registry, id: nat)
    requires Reachable(r) && id < |r.qs| && r.qs[id].open
    ensures r.qs[id].path in r.paths
    ensures var q := r.qs[id]; var w := r.paths[q.path];
            && q.from < |w.history| - (if Awaiting(r, id) then 1 else 0)
            && [q.initial] + q.delivered + InFlight(q) + Sends(q.operChan)
               == w.history[q.from..|w.history| - if Awaiting(r, id) then 1 else 0]
            && w.value == w.history[|w.history| - 1]
  {
    ReachableInv(r);
    assert QueryOk(r.qs[id], id, r.paths, Awaiting(r, id));
  }

  /** A query starts with its path's present value: what is due to it is the path's history
      from the registration on. */
  lemma RegistrationStartsAtPresent(r: Registry, a: Action)
    requires Reachable(r) && Enabled(r, a) && |Do(r, a).qs| > |r.qs|
    ensures var t := Do(r, a);
            && |t.qs| == |r.qs| + 1
            && var q := t.qs[|r.qs|];
               && q.path in t.paths && q.query in t.paths[q.path].queries
               && t.paths[q.path].queries[q.query] == |r.qs|
               && q.initial == t.paths[q.path].value && q.from == |t.paths[q.path].history| - 1
               && q.open && q.operChan == [] && q.delivered == []
  {
    ReachableInv(r);
    RegisteredAt(r, a);
  }

  lemma RegisteredAt(r: Registry, a: Action)
    requires PathsOk(r) && Enabled(r, a) && |Do(r, a).qs| > |r.qs|
    ensures Starts(Do(r, a), |r.qs|)
  {
    if a.WatchKnown? {
      RegisterStarts(r, a.path, a.query);
    } else if a.WatchRead? {
      var w := PathWatch(a.val, map[], [a.val]);
      RegisterStarts(r.(paths := r.paths[r.mu.path := w], mu := Free), r.mu.path, r.mu.query);
    } else {
      OnlyWatchRegisters(r, a);
    }
  }

  predicate Starts(t: Registry, id: nat) {
    |t.qs| == id + 1
    && var q := t.qs[id];
       && q.path in t.paths && q.query in t.paths[q.path].queries && t.paths[q.path].queries[q.query] == id
       && q.initial == t.paths[q.path].value && q.from == |t.paths[q.path].history| - 1
       && q.open && q.operChan == [] && q.delivered == []
  }

  lemma RegisterStarts(r: Registry, p: string, q: string)
    requires p in r.paths && r.paths[p].history != []
    ensures Starts(Register(r, p, q), |r.qs|)
  {
  }

  lemma OnlyWatchRegisters(r: Registry, a: Action)
    requires Enabled(r, a) && !a.WatchKnown? && !a.WatchRead?
    ensures |Do(r, a).qs| == |r.qs|
  {
  }

  /** Thirty operations fit into a queue; setVal and CloseWatch wait for room in a full one. */
  lemma QueuesHoldThirty(r: Registry, id: nat)
    requires id < |r.qs|
    ensures r.mu.Setting? && id in r.mu.todo ==> (Enabled(r, SetSend(id)) <==> |r.qs[id].operChan| < 30)
    ensures r.mu == Requesting(id) ==> (Enabled(r, CloseSend) <==> |r.qs[id].operChan| < 30)
  {
  }

  /** Registry integrity while the mutex is free: every path has a query, the registered
      queries are exactly those with an open channel, and no queue exceeds its capacity. */
  lemma RegistryIntegrity(r: Registry)
    requires Reachable(r) && r.mu.Free?
    ensures forall p :: p in r.paths ==> r.paths[p].queries != map[]
    ensures forall p, q :: p in r.paths && q in r.paths[p].queries ==>
      r.paths[p].queries[q] < |r.qs| && r.qs[r.paths[p].queries[q]].open
    ensures forall id {:trigger r.qs[id]} :: 0 <= id < |r.qs| ==>
      (r.qs[id].open <==> Lookup(r.paths, r.qs[id].path, r.qs[id].query) == Some(id))
      && |r.qs[id].operChan| <= 30
  {
    ReachableInv(r);
    forall id | 0 <= id < |r.qs| && Lookup(r.paths, r.qs[id].path, r.qs[id].query) == Some(id)
      ensures r.qs[id].open
    {
      assert r.paths[r.qs[id].path].queries[r.qs[id].query] == id;
    }
  }

  lemma ReachableStep(r: Registry, a: Action)
    requires Reachable(r) && Enabled(r, a)
    ensures Reachable(Do(r, a))
  {
    var acts: seq<Action> :| Exec(Init(), acts) == Some(r);
    var more := acts + [a];
    assert more[..|more| - 1] == acts;
    assert Exec(Init(), more) == Some(Do(r, a));
  }

  lemma {:induction false} ExecCons(r: Registry, a: Action, acts: seq<Action>)
    requires Enabled(r, a)
    ensures Exec(r, [a] + acts) == Exec(Do(r, a), acts)
  {
    if acts == [] {
      assert ([a] + acts)[..0] == [];
    } else {
      ExecCons(r, a, acts[..|acts| - 1]);
      assert ([a] + acts)[..|acts|] == [a] + acts[..|acts| - 1];
    }
  }

  /** No channel is closed twice, and none is opened again: whenever processWatchClosure
      finds a query, that query's channel is open and not nil. */
  lemma NeverClosedTwice(r: Registry, a: Action, id: nat)
    requires Reachable(r) && Enabled(r, a)
    ensures a.ClosureStart? && r.qs[a.id].loop.path in r.paths ==>
      var found := Lookup(r.paths, r.qs[a.id].loop.path, r.qs[a.id].loop.query);
      found.Some? ==> found.value < |r.qs| && r.qs[found.value].open
    ensures |r.qs| <= |Do(r, a).qs|
    ensures id < |r.qs| && !r.qs[id].open ==>
      !Do(r, a).qs[id].open && Do(r, a).qs[id].delivered == r.qs[id].delivered
  {
    ReachableInv(r);
    NeverReopened(r, a, id);
  }

  lemma NeverReopened(r: Registry, a: Action, id: nat)
    requires Enabled(r, a)
    ensures |r.qs| <= |Do(r, a).qs|
    ensures id < |r.qs| && !r.qs[id].open ==>
      !Do(r, a).qs[id].open && Do(r, a).qs[id].delivered == r.qs[id].delivered
  {
  }
}
