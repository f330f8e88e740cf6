/** Why modules CloseOrder and CloseExactly need their conditions: a run with two CloseWatch
    calls for one registration, in which a consumer that nobody asked to close is closed and
    loses a value. */
module DoubleClose {
  import opened Sequences
  import opened FanOut
  import opened FanOutTheorems

  /** The second close operation of a query that has been closed takes down the query that
      was registered in its place. */
  lemma TwoClosesCanLoseValues(p: string, q: string, v: string)
    ensures exists r: Registry ::
      Reachable(r) && |r.qs| == 2 && r.qs[1].closeRequests == 0 && r.qs[1].queued == [Send(v)]
      && !r.qs[1].open && r.qs[1].delivered == [] && r.mu == Emptied(p, 0)
  {
    assert Exec(Init(), []) == Some(Init());
    Rewatched(Init(), p, q, v);
    ClosedTwice(p, q, v);
    Rewatched(AfterTwoCloses(p, q, v), p, q, v);
    SentOnce(p, q, v);
    SecondClosure(AfterSend(p, q, v), p, q);
  }

  /** Query 0, closed already, takes its second close operation and closes query 1. */
  lemma SecondClosure(r: Registry, p: string, q: string)
    requires Reachable(r) && r.mu.Free? && r.paths.Keys == {p} && r.paths[p].queries == map[q := 1]
    requires |r.qs| == 2 && r.qs[0].loop.Ready? && r.qs[0].operChan == [CloseOp(p, q)]
    ensures Reachable(Registry(r.paths[p := r.paths[p].(queries := map[])],
                               [r.qs[0].(operChan := [], loop := Closing(p, q)), r.qs[1].(open := false)],
                               Emptied(p, 0)))
  {
    var s := Do(r, Take(0));
    ReachableStep(r, Take(0));
    ReachableStep(s, ClosureStart(0));
    assert map[q := 1] - {q} == map[];
    assert Do(s, ClosureStart(0)).qs == [r.qs[0].(operChan := [], loop := Closing(p, q)), r.qs[1].(open := false)];
  }

  function Watched(r: Registry, p: string, q: string, v: string): Registry {
    Registry(map[p := PathWatch(v, map[q := |r.qs|], [v])], r.qs + [Fresh(p, q, v)], Free)
  }

  function AskedTwice(p: string, q: string, v: string): QueryWatch {
    AskedFor(AskedFor(Fresh(p, q, v)))
  }

  function Fresh(p: string, q: string, v: string): QueryWatch {
    QueryWatch(p, q, [], true, Ready, v, 0, [], [], 0)
  }

  function AfterTwoCloses(p: string, q: string, v: string): Registry {
    var w := AskedTwice(p, q, v);
    Registry(map[], [w.(operChan := w.operChan[1..], open := false)], Free)
  }

  function AfterSend(p: string, q: string, v: string): Registry {
    var r := Watched(AfterTwoCloses(p, q, v), p, q, v);
    Registry(r.paths[p := Assigned(r.paths[p], v)], r.qs[1 := Put(r.qs[1], Send(v))], Free)
  }

  lemma Rewatched(r: Registry, p: string, q: string, v: string)
    requires Reachable(r) && r.mu.Free? && r.paths == map[]
    ensures Reachable(Watched(r, p, q, v))
  {
    var s := Do(r, WatchAdded(p, q));
    ReachableStep(r, WatchAdded(p, q));
    ReachableStep(s, WatchRead(v));
    OnlyPath(p, q, v, |r.qs|);
  }

  lemma OnlyPath(p: string, q: string, v: string, id: nat)
    ensures var w := PathWatch(v, map[], [v]);
            map[][p := w][p := w.(queries := w.queries[q := id])] == map[p := PathWatch(v, map[q := id], [v])]
  {
  }

  lemma Asked(r: Registry, w: QueryWatch)
    requires Reachable(r) && r.mu.Free? && Lookup(r.paths, w.path, w.query) == Some(0) && r.qs == [w]
    ensures Reachable(Registry(r.paths, [w.(closeRequests := w.closeRequests + 1)], Requesting(0)))
  {
    ReachableStep(r, CloseStart(w.path, w.query));
    assert [w][0 := w.(closeRequests := w.closeRequests + 1)] == [w.(closeRequests := w.closeRequests + 1)];
  }

  lemma Queued(s: Registry, w: QueryWatch)
    requires Reachable(s) && s.mu == Requesting(0) && s.qs == [w] && |w.operChan| < CAPACITY
    ensures Reachable(Registry(s.paths, [Put(w, CloseOp(w.path, w.query))], Free))
  {
    ReachableStep(s, CloseSend);
    assert [w][0 := Put(w, CloseOp(w.path, w.query))] == [Put(w, CloseOp(w.path, w.query))];
  }

  function AskedFor(w: QueryWatch): QueryWatch {
    Put(w.(closeRequests := w.closeRequests + 1), CloseOp(w.path, w.query))
  }

  lemma AskedOnce(r: Registry, w: QueryWatch)
    requires Reachable(r) && r.mu.Free? && Lookup(r.paths, w.path, w.query) == Some(0)
    requires r.qs == [w] && |w.operChan| < CAPACITY
    ensures Reachable(Registry(r.paths, [AskedFor(w)], Free))
  {
    var x := w.(closeRequests := w.closeRequests + 1);
    Asked(r, w);
    Queued(Registry(r.paths, [x], Requesting(0)), x);
  }

  lemma ClosedTwice(p: string, q: string, v: string)
    requires Reachable(Watched(Init(), p, q, v))
    ensures Reachable(AfterTwoCloses(p, q, v))
  {
    var r := Watched(Init(), p, q, v);
    var w := AskedFor(r.qs[0]);
    AskedOnce(r, r.qs[0]);
    AskedOnce(r.(qs := [w]), w);
    ClosedOnce(r.(qs := [AskedFor(w)]), p, q);
  }

  /** The only query of the only path closes itself. */
  lemma ClosedOnce(r: Registry, p: string, q: string)
    requires Reachable(r) && r.mu.Free? && r.paths.Keys == {p} && r.paths[p].queries == map[q := 0]
    requires |r.qs| == 1 && r.qs[0].loop.Ready? && r.qs[0].operChan != [] && r.qs[0].operChan[0] == CloseOp(p, q)
    ensures Reachable(Registry(map[], [r.qs[0].(operChan := r.qs[0].operChan[1..], open := false)], Free))
  {
    var s := Do(r, Take(0));
    ReachableStep(r, Take(0));
    assert map[q := 0] - {q} == map[];
    ReachableStep(s, ClosureStart(0));
    var t := Do(s, ClosureStart(0));
    ReachableStep(t, ClosureUnwatch);
    var u := Do(t, ClosureUnwatch);
    ReachableStep(u, ClosureEnd);
    assert Do(u, ClosureEnd).qs == [r.qs[0].(operChan := r.qs[0].operChan[1..], open := false)];
  }

  lemma SentOnce(p: string, q: string, v: string)
    requires Reachable(Watched(AfterTwoCloses(p, q, v), p, q, v))
    ensures Reachable(AfterSend(p, q, v))
  {
    var r := Watched(AfterTwoCloses(p, q, v), p, q, v);
    ReachableStep(r, SetStart(p, v));
    var s := Do(r, SetStart(p, v));
    assert r.paths[p].queries[q] == 1 && map[q := 1].Values == {1};
    ReachableStep(s, SetSend(1));
    var t := Do(s, SetSend(1));
    ReachableStep(t, SetEnd);
  }
}
