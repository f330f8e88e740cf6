/** The inductive invariant of module FanOut: the registry is intact and no value is lost,
    duplicated or reordered on the way from a path to the consumer of a query. */
module FanOutInvariant {
  import opened Sequences
  import opened FanOut

  type Paths = map<string, PathWatch>

  /** Registered queries exist, under their own path and query, with an open channel. */
  ghost predicate Listed(paths: Paths, qs: seq<QueryWatch>) {
    forall p, q :: p in paths && q in paths[p].queries ==>
      var id := paths[p].queries[q];
      id < |qs| && qs[id].path == p && qs[id].query == q && qs[id].open
  }

  ghost predicate HistoryOk(w: PathWatch) {
    |w.history| > 0 && w.history[|w.history| - 1] == w.value
  }

  predicate BeingRemoved(r: Registry, p: string) {
    (r.mu.Emptied? || r.mu.Unwatched?) && r.mu.path == p
  }

  /** Only a running closure leaves a path without queries. */
  ghost predicate PathsOk(r: Registry) {
    forall p :: p in r.paths ==>
      HistoryOk(r.paths[p]) && (r.paths[p].queries == map[] ==> BeingRemoved(r, p))
  }

  /** The path's values from the query's registration on, but for one it still awaits. */
  function Due(w: PathWatch, from: nat, awaiting: bool): seq<string> {
    var n := |w.history| - if awaiting then 1 else 0;
    if from <= n then w.history[from..n] else []
  }

  /** The values of the query are what is due to it. */
  ghost predicate Conserved(q: QueryWatch, w: PathWatch, awaiting: bool) {
    && q.from + (if awaiting then 1 else 0) < |w.history|
    && q.initial == w.history[q.from]
    && Values(q) == Due(w, q.from, awaiting)
  }

  /** Initial value, received values, value in hand and queued values, in order. */
  function Values(q: QueryWatch): seq<string> {
    [q.initial] + q.delivered + InFlight(q) + Sends(q.operChan)
  }

  /** A queue keeps its capacity, and its close operations name its own query. */
  ghost predicate QueueOk(q: QueryWatch) {
    && |q.operChan| <= CAPACITY
    && (forall op :: op in q.operChan && op.CloseOp? ==> op == CloseOp(q.path, q.query))
    && (q.loop.Closing? ==> q.loop == Closing(q.path, q.query))
  }

  /** A query whose channel is open is registered and has lost nothing. */
  ghost predicate QueryOk(q: QueryWatch, id: nat, paths: Paths, awaiting: bool) {
    && QueueOk(q)
    && (q.open ==> Lookup(paths, q.path, q.query) == Some(id) && Conserved(q, paths[q.path], awaiting))
  }

  ghost predicate QueriesOk(r: Registry) {
    forall id {:trigger r.qs[id]} :: 0 <= id < |r.qs| ==> QueryOk(r.qs[id], id, r.paths, Awaiting(r, id))
  }

  predicate RunsClosure(r: Registry, id: nat) {
    id < |r.qs| && !r.qs[id].open && r.qs[id].loop.Closing?
  }

  predicate EmptiedBy(r: Registry, p: string, id: nat) {
    p in r.paths && r.paths[p].queries == map[] && RunsClosure(r, id) && r.qs[id].path == p
  }

  ghost predicate MutexOk(r: Registry) {
    match r.mu
    case Free => true
    case Adding(p, _) => p !in r.paths
    case Setting(p, val, todo) => p in r.paths && r.paths[p].value == val && todo <= r.paths[p].queries.Values
    case Requesting(id) => id < |r.qs| && r.qs[id].open
    case Emptied(p, id) => EmptiedBy(r, p, id)
    case Unwatched(p, id) => EmptiedBy(r, p, id)
  }

  ghost predicate Inv(r: Registry) {
    Listed(r.paths, r.qs) && PathsOk(r) && QueriesOk(r) && MutexOk(r)
  }

  lemma {:induction false} SendsAppend(ops: seq<Op>, op: Op)
    ensures Sends(ops + [op]) == Sends(ops) + if op.Send? then [op.v] else []
  {
    if ops != [] {
      SendsAppend(ops[1..], op);
      assert (ops + [op])[1..] == ops[1..] + [op];
    }
  }

  /** A new version of one query that keeps its identity. */
  ghost predicate SameQuery(q: QueryWatch, n: QueryWatch) {
    n.path == q.path && n.query == q.query && n.open == q.open
  }

  /** A step on one query that leaves the maps alone, maybe handing the mutex on. */
  lemma LocalStep(r: Registry, id: nat, n: QueryWatch, mu: Mutex)
    requires Inv(r) && id < |r.qs| && SameQuery(r.qs[id], n)
    requires QueryOk(n, id, r.paths, mu.Setting? && id in mu.todo)
    requires mu == r.mu || (!r.mu.Emptied? && !r.mu.Unwatched? && !mu.Emptied? && !mu.Unwatched?)
    requires forall k :: 0 <= k < |r.qs| && k != id ==> (mu.Setting? && k in mu.todo) == Awaiting(r, k)
    requires MutexOk(r.(qs := r.qs[id := n], mu := mu))
    ensures Inv(r.(qs := r.qs[id := n], mu := mu))
  {
    LocalListed(r, id, n);
    LocalQueries(r, id, n, mu);
    LocalPaths(r, mu);
  }

  lemma LocalListed(r: Registry, id: nat, n: QueryWatch)
    requires Listed(r.paths, r.qs) && id < |r.qs| && SameQuery(r.qs[id], n)
    ensures Listed(r.paths, r.qs[id := n])
  {
  }

  lemma LocalQueries(r: Registry, id: nat, n: QueryWatch, mu: Mutex)
    requires QueriesOk(r) && id < |r.qs| && QueryOk(n, id, r.paths, mu.Setting? && id in mu.todo)
    requires forall k :: 0 <= k < |r.qs| && k != id ==> (mu.Setting? && k in mu.todo) == Awaiting(r, k)
    ensures QueriesOk(r.(qs := r.qs[id := n], mu := mu))
  {
    var t := r.(qs := r.qs[id := n], mu := mu);
    forall k | 0 <= k < |t.qs| ensures QueryOk(t.qs[k], k, t.paths, Awaiting(t, k)) {
      if k != id { assert QueryOk(r.qs[k], k, r.paths, Awaiting(r, k)); }
    }
  }

  lemma LocalPaths(r: Registry, mu: Mutex)
    requires PathsOk(r)
    requires mu == r.mu || (!r.mu.Emptied? && !r.mu.Unwatched? && !mu.Emptied? && !mu.Unwatched?)
    ensures PathsOk(r.(mu := mu))
  {
  }

  lemma TakenConserves(q: QueryWatch, w: PathWatch, awaiting: bool)
    requires Conserved(q, w, awaiting) && q.open && q.loop.Ready? && q.operChan != []
    ensures Conserved(Taken(q), w, awaiting)
  {
    TakenValues(q);
  }

  lemma TakenValues(q: QueryWatch)
    requires q.open && q.loop.Ready? && q.operChan != []
    ensures Values(Taken(q)) == Values(q)
  {
    var before, n := [q.initial] + q.delivered, Taken(q);
    assert InFlight(q) == [] && Sends(q.operChan) == InFlight(n) + Sends(n.operChan);
    assert before + [] + (InFlight(n) + Sends(n.operChan)) == before + InFlight(n) + Sends(n.operChan);
  }

  lemma TakenQueue(q: QueryWatch)
    requires QueueOk(q) && q.operChan != []
    ensures QueueOk(Taken(q))
  {
    assert q.operChan[0] in q.operChan;
    assert forall op :: op in q.operChan[1..] ==> op in q.operChan;
  }

  lemma TakeStep(r: Registry, id: nat)
    requires Inv(r) && Enabled(r, Take(id))
    ensures Inv(Do(r, Take(id)))
  {
    var q := r.qs[id];
    TakenQueue(q);
    if q.open { TakenConserves(q, r.paths[q.path], Awaiting(r, id)); }
    LocalStep(r, id, Taken(q), r.mu);
  }

  lemma DeliveredConserves(q: QueryWatch, w: PathWatch, awaiting: bool)
    requires Conserved(q, w, awaiting) && q.loop.Blocked?
    ensures Conserved(q.(loop := Ready, delivered := q.delivered + [q.loop.v]), w, awaiting)
  {
    DeliveredValues(q);
  }

  lemma DeliveredValues(q: QueryWatch)
    requires q.loop.Blocked?
    ensures Values(q.(loop := Ready, delivered := q.delivered + [q.loop.v])) == Values(q)
  {
    assert [q.initial] + q.delivered + [q.loop.v] == [q.initial] + (q.delivered + [q.loop.v]) + [];
  }

  /** The other steps of opLoop on its own query, and of the consumer. */
  lemma LoopStep(r: Registry, id: nat, a: Action)
    requires Inv(r) && Enabled(r, a)
    requires a == EvalChan(id) || a == Deliver(id) || a == Recover(id)
    ensures Inv(Do(r, a))
  {
    var q := r.qs[id];
    if a.Deliver? { DeliveredConserves(q, r.paths[q.path], Awaiting(r, id)); }
    var n := Do(r, a).qs[id];
    assert QueryOk(n, id, r.paths, Awaiting(r, id));
    LocalStep(r, id, n, r.mu);
  }

  lemma EnqueuedConserves(q: QueryWatch, w: PathWatch, awaiting: bool, op: Op)
    requires Conserved(q, w, awaiting) && HistoryOk(w)
    requires op.Send? ==> awaiting && op.v == w.value
    ensures Conserved(Put(q, op), w, awaiting && !op.Send?)
  {
    PutValues(q, op);
    if op.Send? {
      assert Due(w, q.from, true) + [w.value] == Due(w, q.from, false);
    } else {
      assert Values(q) + [] == Values(q);
    }
  }

  lemma PutValues(q: QueryWatch, op: Op)
    ensures Values(Put(q, op)) == Values(q) + if op.Send? then [op.v] else []
  {
    SendsAppend(q.operChan, op);
    var before, sends := [q.initial] + q.delivered + InFlight(q), Sends(q.operChan);
    assert forall v :: before + (sends + v) == before + sends + v;
  }

  /** A running setVal sends to registered queries of its path. */
  lemma ToServe(r: Registry, id: nat)
    requires Listed(r.paths, r.qs) && MutexOk(r) && r.mu.Setting? && id in r.mu.todo
    ensures id < |r.qs| && r.qs[id].path == r.mu.path && r.qs[id].open
  {
  }

  lemma SetSendStep(r: Registry, id: nat)
    requires Inv(r) && Enabled(r, SetSend(id))
    ensures Inv(Do(r, SetSend(id)))
  {
    var q, w := r.qs[id], r.paths[r.mu.path];
    ToServe(r, id);
    EnqueuedConserves(q, w, true, Send(r.mu.val));
    LocalStep(r, id, Put(q, Send(r.mu.val)), r.mu.(todo := r.mu.todo - {id}));
  }

  lemma CloseSendStep(r: Registry)
    requires Inv(r) && Enabled(r, CloseSend)
    ensures Inv(Do(r, CloseSend))
  {
    var q := r.qs[r.mu.id];
    var op := CloseOp(q.path, q.query);
    EnqueuedConserves(q, r.paths[q.path], false, op);
    LocalStep(r, r.mu.id, Put(q, op), Free);
  }

  lemma RequestConserves(q: QueryWatch, w: PathWatch)
    requires Conserved(q, w, false)
    ensures Conserved(q.(closeRequests := q.closeRequests + 1), w, false)
  {
  }

  lemma RequestStep(r: Registry, p: string, query: string)
    requires Inv(r) && r.mu.Free? && Lookup(r.paths, p, query).Some?
    ensures Inv(Request(r, Lookup(r.paths, p, query).value))
  {
    var id := Lookup(r.paths, p, query).value;
    var q := r.qs[id];
    assert q.open && QueryOk(q, id, r.paths, false);
    RequestConserves(q, r.paths[p]);
    LocalStep(r, id, q.(closeRequests := q.closeRequests + 1), Requesting(id));
  }

  /** Handing the mutex on without any other change. */
  lemma MutexStep(r: Registry, mu: Mutex)
    requires Inv(r) && MutexOk(r.(mu := mu))
    requires r.mu.Setting? ==> r.mu.todo == {}
    requires !r.mu.Emptied? && !r.mu.Unwatched? && !mu.Setting?
    ensures Inv(r.(mu := mu))
  {
    assert forall k :: 0 <= k < |r.qs| ==> !Awaiting(r, k);
  }

  /** Listing depends on the paths' queries only. */
  lemma ListedKept(paths: Paths, after: Paths, qs: seq<QueryWatch>)
    requires Listed(paths, qs) && after.Keys == paths.Keys
    requires forall p :: p in paths ==> after[p].queries == paths[p].queries
    ensures Listed(after, qs)
  {
  }

  lemma AssignedConserves(q: QueryWatch, w: PathWatch, val: string)
    requires Conserved(q, w, false)
    ensures Conserved(q, Assigned(w, val), true)
  {
    assert Due(Assigned(w, val), q.from, true) == Due(w, q.from, false);
  }

  lemma SetStartQuery(paths: Paths, qs: seq<QueryWatch>, p: string, val: string, id: nat)
    requires Listed(paths, qs) && p in paths && id < |qs| && QueryOk(qs[id], id, paths, false)
    ensures QueryOk(qs[id], id, paths[p := Assigned(paths[p], val)], id in paths[p].queries.Values)
  {
    var q := qs[id];
    if q.open && q.path == p {
      assert paths[p].queries[q.query] == id && id in paths[p].queries.Values;
      AssignedConserves(q, paths[p], val);
    }
  }

  lemma SetStartQueries(r: Registry, p: string, val: string)
    requires Listed(r.paths, r.qs) && QueriesOk(r) && r.mu.Free? && p in r.paths
    ensures QueriesOk(Do(r, SetStart(p, val)))
  {
    var t := Do(r, SetStart(p, val));
    forall id | 0 <= id < |t.qs| ensures QueryOk(t.qs[id], id, t.paths, Awaiting(t, id)) {
      assert QueryOk(r.qs[id], id, r.paths, Awaiting(r, id));
      SetStartQuery(r.paths, r.qs, p, val, id);
    }
  }

  lemma SetStartPaths(r: Registry, p: string, val: string)
    requires PathsOk(r) && r.mu.Free? && p in r.paths
    ensures PathsOk(Do(r, SetStart(p, val))) && MutexOk(Do(r, SetStart(p, val)))
  {
  }

  lemma SetStartStep(r: Registry, p: string, val: string)
    requires Inv(r) && Enabled(r, SetStart(p, val))
    ensures Inv(Do(r, SetStart(p, val)))
  {
    if p in r.paths {
      ListedKept(r.paths, r.paths[p := Assigned(r.paths[p], val)], r.qs);
      SetStartQueries(r, p, val);
      SetStartPaths(r, p, val);
    }
  }

  lemma NewConserves(q: QueryWatch, w: PathWatch)
    requires HistoryOk(w) && q.from == |w.history| - 1 && q.initial == w.value
    requires q.operChan == [] && q.delivered == [] && q.loop.Ready?
    ensures Conserved(q, w, false)
  {
  }

  lemma ConservedFor(q: QueryWatch, v: PathWatch, w: PathWatch, awaiting: bool)
    requires Conserved(q, v, awaiting) && w.history == v.history
    ensures Conserved(q, w, awaiting)
  {
  }

  lemma RegisterListed(r: Registry, p: string, q: string)
    requires Listed(r.paths, r.qs) && p in r.paths && q !in r.paths[p].queries
    ensures var t := Register(r, p, q); Listed(t.paths, t.qs)
  {
  }

  /** Watch registers a query, on a path that had none or some. */
  lemma RegisterStep(r: Registry, p: string, q: string)
    requires Listed(r.paths, r.qs) && QueriesOk(r) && r.mu.Free?
    requires forall x :: x in r.paths ==> HistoryOk(r.paths[x]) && (r.paths[x].queries == map[] ==> x == p)
    requires p in r.paths && q !in r.paths[p].queries
    ensures Inv(Register(r, p, q))
  {
    RegisterListed(r, p, q);
    RegisterQueries(r, p, q);
    assert q in Register(r, p, q).paths[p].queries;
  }

  lemma RegisterQueries(r: Registry, p: string, q: string)
    requires QueriesOk(r) && r.mu.Free? && p in r.paths && HistoryOk(r.paths[p]) && q !in r.paths[p].queries
    ensures QueriesOk(Register(r, p, q))
  {
    var t := Register(r, p, q);
    forall id | 0 <= id < |t.qs| ensures QueryOk(t.qs[id], id, t.paths, Awaiting(t, id)) {
      if id < |r.qs| {
        assert QueryOk(r.qs[id], id, r.paths, false);
        if r.qs[id].open { ConservedFor(r.qs[id], r.paths[r.qs[id].path], t.paths[r.qs[id].path], false); }
      } else {
        NewConserves(t.qs[id], t.paths[p]);
      }
    }
  }

  lemma NewPathStep(r: Registry, val: string)
    requires Inv(r) && r.mu.Adding?
    ensures Inv(Do(r, WatchRead(val)))
  {
    var w := PathWatch(val, map[], [val]);
    NewPathListed(r.paths, r.qs, r.mu.path, w);
    NewPathQueries(r, r.mu.path, w);
    NewPathPaths(r, r.mu.path, w);
    RegisterStep(r.(paths := r.paths[r.mu.path := w], mu := Free), r.mu.path, r.mu.query);
  }

  lemma NewPathQueries(r: Registry, p: string, w: PathWatch)
    requires QueriesOk(r) && r.mu.Adding? && p !in r.paths
    ensures QueriesOk(r.(paths := r.paths[p := w], mu := Free))
  {
    var t := r.(paths := r.paths[p := w], mu := Free);
    forall id | 0 <= id < |t.qs| ensures QueryOk(t.qs[id], id, t.paths, Awaiting(t, id)) {
      assert QueryOk(r.qs[id], id, r.paths, Awaiting(r, id));
      NewPathQuery(r.qs[id], id, r.paths, p, w);
    }
  }

  lemma NewPathPaths(r: Registry, p: string, w: PathWatch)
    requires PathsOk(r) && r.mu.Adding? && HistoryOk(w)
    ensures var paths := r.paths[p := w];
            forall x :: x in paths ==> HistoryOk(paths[x]) && (paths[x].queries == map[] ==> x == p)
  {
  }

  lemma NewPathQuery(q: QueryWatch, id: nat, paths: Paths, p: string, w: PathWatch)
    requires QueryOk(q, id, paths, false) && p !in paths
    ensures QueryOk(q, id, paths[p := w], false)
  {
  }

  lemma NewPathListed(paths: Paths, qs: seq<QueryWatch>, p: string, w: PathWatch)
    requires Listed(paths, qs) && p !in paths && w.queries == map[]
    ensures Listed(paths[p := w], qs)
  {
  }

  /** Watch, on a path that is already watched or new. */
  lemma WatchStep(r: Registry, a: Action)
    requires Inv(r) && Enabled(r, a)
    requires a.WatchKnown? || a.WatchAdded? || a.WatchFailed? || a.WatchRead?
    ensures Inv(Do(r, a))
  {
    match a
    case WatchKnown(p, q) => if q !in r.paths[p].queries { RegisterStep(r, p, q); }
    case WatchAdded(p, q) => MutexStep(r, Adding(p, q));
    case WatchFailed => MutexStep(r, Free);
    case WatchRead(val) => NewPathStep(r, val);
  }

  lemma UnregisterListed(r: Registry, p: string, q: string)
    requires Listed(r.paths, r.qs) && p in r.paths
    ensures var t := Unregister(r, p, q); Listed(t.paths, t.qs)
  {
  }

  lemma UnregisterQuery(r: Registry, p: string, q: string, id: nat)
    requires p in r.paths && id < |r.qs| && QueryOk(r.qs[id], id, r.paths, false)
    ensures var t := Unregister(r, p, q); |t.qs| == |r.qs| && QueryOk(t.qs[id], id, t.paths, false)
  {
    var t := Unregister(r, p, q);
    if t.qs[id].open {
      assert t.qs[id] == r.qs[id];
      ConservedFor(r.qs[id], r.paths[r.qs[id].path], t.paths[r.qs[id].path], false);
    } else {
      assert t.qs[id] == r.qs[id].(open := false);
    }
  }

  lemma UnregisterQueries(r: Registry, p: string, q: string)
    requires p in r.paths && QueriesOk(r) && !r.mu.Setting?
    ensures var t := Unregister(r, p, q);
            forall k {:trigger t.qs[k]} :: 0 <= k < |t.qs| ==> QueryOk(t.qs[k], k, t.paths, false)
  {
    var t := Unregister(r, p, q);
    forall k | 0 <= k < |t.qs| ensures QueryOk(t.qs[k], k, t.paths, false) {
      assert QueryOk(r.qs[k], k, r.paths, Awaiting(r, k));
      UnregisterQuery(r, p, q, k);
    }
  }

  lemma UnregisterPaths(r: Registry, p: string, q: string, id: nat)
    requires PathsOk(r) && r.mu.Free? && p in r.paths
    ensures var t := Unregister(r, p, q); PathsOk(if t.paths[p].queries == map[] then t.(mu := Emptied(p, id)) else t)
  {
    assert HistoryOk(r.paths[p]);
  }

  lemma UnregisterStep(r: Registry, p: string, q: string, id: nat)
    requires Inv(r) && r.mu.Free? && p in r.paths && RunsClosure(Unregister(r, p, q), id) && r.qs[id].path == p
    ensures var t := Unregister(r, p, q);
            Inv(if t.paths[p].queries == map[] then t.(mu := Emptied(p, id)) else t)
  {
    UnregisterListed(r, p, q);
    UnregisterQueries(r, p, q);
    UnregisterPaths(r, p, q, id);
  }

  lemma FinishStep(r: Registry, id: nat)
    requires Inv(r) && id < |r.qs| && !r.qs[id].open && r.mu.Free?
    ensures Inv(Finish(r, id))
  {
    LocalStep(r, id, r.qs[id].(loop := Ready), r.mu);
  }

  /** A query that runs its own closure has lost its registration by then. */
  lemma ClosedItself(r: Registry, id: nat)
    requires QueriesOk(r) && id < |r.qs| && r.qs[id].loop.Closing?
    ensures var q := r.qs[id];
            && q.loop == Closing(q.path, q.query)
            && RunsClosure(if q.path in r.paths then Unregister(r, q.path, q.query) else r, id)
  {
    assert QueryOk(r.qs[id], id, r.paths, Awaiting(r, id));
  }

  /** processWatchClosure takes a query out of the registry and closes its channel. */
  lemma ClosureStep(r: Registry, id: nat)
    requires Inv(r) && Enabled(r, ClosureStart(id))
    ensures Inv(Do(r, ClosureStart(id)))
  {
    var q := r.qs[id];
    ClosedItself(r, id);
    if q.path in r.paths {
      var t := Unregister(r, q.path, q.query);
      UnregisterStep(r, q.path, q.query, id);
      if t.paths[q.path].queries != map[] { FinishStep(t, id); }
    } else {
      FinishStep(r, id);
    }
  }

  lemma DroppedQuery(q: QueryWatch, id: nat, paths: Paths, p: string)
    requires QueryOk(q, id, paths, false) && p in paths && paths[p].queries == map[]
    ensures QueryOk(q, id, paths - {p}, false)
  {
  }

  lemma DropStep(r: Registry)
    requires Inv(r) && r.mu.Unwatched?
    ensures Inv(Dropped(r))
  {
    var t := Dropped(r);
    forall id | 0 <= id < |t.qs| ensures QueryOk(t.qs[id], id, t.paths, Awaiting(t, id)) {
      DroppedQuery(r.qs[id], id, r.paths, r.mu.path);
    }
  }

  lemma ClosureEndStep(r: Registry)
    requires Inv(r) && r.mu.Unwatched?
    ensures Inv(Dropped(Finish(r, r.mu.id)))
  {
    DropStep(r);
    FinishStep(Dropped(r), r.mu.id);
  }

  lemma ClosureUnwatchStep(r: Registry)
    requires Inv(r) && r.mu.Emptied?
    ensures Inv(r.(mu := Unwatched(r.mu.path, r.mu.id)))
  {
  }

  lemma StepInv(r: Registry, a: Action)
    requires Inv(r) && Enabled(r, a)
    ensures Inv(Do(r, a))
  {
    match a
    case SetStart(p, val) => SetStartStep(r, p, val);
    case SetSend(id) => SetSendStep(r, id);
    case SetEnd => MutexStep(r, Free);
    case CloseStart(p, q) => if Lookup(r.paths, p, q).Some? { RequestStep(r, p, q); }
    case CloseSend => CloseSendStep(r);
    case Take(id) => TakeStep(r, id);
    case EvalChan(id) => LoopStep(r, id, a);
    case Deliver(id) => LoopStep(r, id, a);
    case Recover(id) => LoopStep(r, id, a);
    case ClosureStart(id) => ClosureStep(r, id);
    case ClosureUnwatch => ClosureUnwatchStep(r);
    case ClosureEnd => ClosureEndStep(r);
    case _ => WatchStep(r, a);
  }

  lemma {:induction false} ExecInv(acts: seq<Action>)
    ensures Exec(Init(), acts).Some? ==> Inv(Exec(Init(), acts).value)
  {
    if acts != [] {
      ExecInv(acts[..|acts| - 1]);
      var before := Exec(Init(), acts[..|acts| - 1]);
      if before.Some? && Enabled(before.value, acts[|acts| - 1]) {
        StepInv(before.value, acts[|acts| - 1]);
      }
    }
  }

  lemma ReachableInv(r: Registry)
    requires Reachable(r)
    ensures Inv(r)
  {
    var acts: seq<Action> :| Exec(Init(), acts) == Some(r);
    ExecInv(acts);
  }
}
