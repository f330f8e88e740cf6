/** fsnotify/filewatcher.go: the Strategy and its pathWatch and queryWatch objects, updated
    in place.

    Every method is proved against the steps of module FanOut, and every state it leaves
    behind is a reachable state of that machine.  Watch and processWatchClosure run under
    the mutex without waiting; setVal and CloseWatch may wait there for room in a queue,
    while the opLoops of all the queries go on. */
module FileWatcher {
  import opened Sequences
  import opened FanOut
  import FanOutInvariant
  import opened FanOutTheorems

  /** `operChan` is the content of the buffered channel; `open` says that updateChan is
      neither closed nor nil; `loop` is where the goroutine of opLoop is. */
  class Query {
    ghost const id: nat
    const parentPathW: Path
    const pathQuery: string
    var operChan: seq<Op>
    var open: bool
    var loop: OpPc
    ghost const initial: string
    ghost const from: nat
    ghost var queued: seq<Op>
    ghost var delivered: seq<string>
    ghost var closeRequests: nat

    constructor (ghost id: nat, parent: Path, query: string)
      ensures View() == FanOut.NewQuery(PathWatch(parent.value, map[], parent.history), parent.watchPath, query)
      ensures this.id == id && parentPathW == parent && pathQuery == query
    {
      this.id, parentPathW, pathQuery := id, parent, query;
      operChan, open, loop := [], true, Ready;
      initial, from := parent.value, if |parent.history| > 0 then |parent.history| - 1 else 0;
      queued, delivered, closeRequests := [], [], 0;
    }

    ghost function View(): QueryWatch
      reads this
    {
      QueryWatch(parentPathW.watchPath, pathQuery, operChan, open, loop,
                 initial, from, queued, delivered, closeRequests)
    }

    /** A send on operChan that finds room. */
    method Put(op: Op)
      requires |operChan| < CAPACITY
      modifies this`operChan, this`queued
      ensures View() == FanOut.Put(old(View()), op)
    {
      operChan := operChan + [op];
      queued := queued + [op];
    }

    /** opLoop receives an operation, and sendUpdate makes its test for nil. */
    method Take()
      requires loop.Ready? && operChan != []
      modifies this`operChan, this`loop
      ensures View() == Taken(old(View()))
    {
      var op := operChan[0];
      operChan := operChan[1..];
      match op
      case Send(v) => if open { loop := Checked(v); }
      case CloseOp(p, q) => loop := Closing(p, q);
    }

    /** One move of opLoop that needs no mutex: a receive, the evaluation of the channel
        to send on, a completed send, or the recovery from a send on a closed channel. */
    method OpLoopTurn(a: Action, ghost r: Registry)
      requires Local(a) && a.id == id && id < |r.qs| && r.qs[id] == View()
      modifies this
      ensures View() == if Enabled(r, a) then Do(r, a).qs[id] else r.qs[id]
    {
      match a {
        case Take(_) => if loop.Ready? && operChan != [] { Take(); }
        case EvalChan(_) => if loop.Checked? { loop := if open then Blocked(loop.v) else Hung; }
        case Deliver(_) =>
          if loop.Blocked? && open {
            delivered := delivered + [loop.v];
            loop := Ready;
          }
        case Recover(_) => if loop.Blocked? && !open { loop := Ready; }
      }
    }

    ghost method Ask()
      modifies this`closeRequests
      ensures View() == old(View()).(closeRequests := old(closeRequests) + 1)
    {
      closeRequests := closeRequests + 1;
    }

    /** close of a closed or nil channel panics, hence the precondition. */
    method CloseUpdateChan()
      requires open
      modifies this`open
      ensures View() == old(View()).(open := false)
    {
      open := false;
    }
  }

  class Path {
    const watchPath: string
    var value: string
    var queries: map<string, Query>
    ghost var history: seq<string>

    constructor (path: string, value: string)
      ensures watchPath == path && this.value == value && queries == map[] && history == [value]
    {
      watchPath, this.value, queries, history := path, value, map[], [value];
    }

    ghost predicate Tied(w: PathWatch, loops: seq<Query>)
      reads this
    {
      value == w.value && history == w.history && Keyed(queries, w.queries, loops)
    }

    method Set(val: string)
      modifies this`value, this`history
      ensures this.value == val && history == old(history) + [val]
    {
      this.value := val;
      history := history + [val];
    }

    method Add(q: Query)
      modifies this`queries
      ensures queries == old(queries)[q.pathQuery := q]
    {
      queries := queries[q.pathQuery := q];
    }

    method Delete(query: string)
      modifies this`queries
      ensures queries == old(queries) - {query}
    {
      queries := queries - {query};
    }
  }

  /** The objects under the keys have the given places in `loops`. */
  ghost predicate Keyed(queries: map<string, Query>, ids: map<string, nat>, loops: seq<Query>) {
    && queries.Keys == ids.Keys
    && forall q :: q in queries ==> ids[q] < |loops| && queries[q] == loops[ids[q]]
  }

  lemma KeyedMore(queries: map<string, Query>, ids: map<string, nat>, loops: seq<Query>, id: nat)
    requires Keyed(queries, ids, loops) && id < |loops|
    ensures var q := loops[id]; Keyed(queries[q.pathQuery := q], ids[q.pathQuery := id], loops)
  {
  }

  lemma KeyedLess(queries: map<string, Query>, ids: map<string, nat>, loops: seq<Query>, q: string)
    requires Keyed(queries, ids, loops)
    ensures Keyed(queries - {q}, ids - {q}, loops)
  {
  }

  lemma KeyedEmpty(queries: map<string, Query>, ids: map<string, nat>, loops: seq<Query>)
    requires Keyed(queries, ids, loops)
    ensures queries == map[] <==> ids == map[]
  {
    assert queries == map[] <==> queries.Keys == {};
    assert ids == map[] <==> ids.Keys == {};
  }

  function WithQueries(r: Registry, p: string, queries: map<string, nat>): Registry
    requires p in r.paths
  {
    r.(paths := r.paths[p := r.paths[p].(queries := queries)])
  }

  /** The moves of opLoop that need no mutex. */
  predicate Local(a: Action) {
    a.Take? || a.EvalChan? || a.Deliver? || a.Recover?
  }

  /** A move of one opLoop changes its own query only. */
  lemma LocalDo(r: Registry, a: Action)
    requires Local(a) && Enabled(r, a)
    ensures Do(r, a) == r.(qs := r.qs[a.id := Do(r, a).qs[a.id]])
  {
  }

  lemma WatchedReachable(r: Registry, p: string, q: string, val: string)
    requires Reachable(r) && r.mu.Free? && p !in r.paths
    ensures Reachable(Do(Do(r, WatchAdded(p, q)), WatchRead(val)))
    ensures Do(Do(r, WatchAdded(p, q)), WatchRead(val))
         == Register(r.(paths := r.paths[p := PathWatch(val, map[], [val])]), p, q)
  {
    ReachableStep(r, WatchAdded(p, q));
    ReachableStep(Do(r, WatchAdded(p, q)), WatchRead(val));
  }

  /** From `r` to `s` the operations `ops` went to the queues in `served`, and no other
      operation to any; no query was made or closed. */
  ghost predicate Served(r: Registry, s: Registry, served: set<nat>, ops: seq<Op>) {
    && |s.qs| == |r.qs|
    && forall id {:trigger s.qs[id]} :: 0 <= id < |r.qs| ==>
         s.qs[id].queued == r.qs[id].queued + (if id in served then ops else []) && s.qs[id].open == r.qs[id].open
  }

  lemma LocalServed(r: Registry, a: Action)
    requires Local(a)
    ensures var s := if Enabled(r, a) then Do(r, a) else r;
            Served(r, s, {}, []) && s.paths == r.paths && s.mu == r.mu
  {
  }

  /** The queries that a running setVal has still to serve, by their keys. */
  function Chosen(queries: map<string, nat>, keys: set<string>): set<nat> {
    set q | q in keys && q in queries :: queries[q]
  }

  lemma Registered(r: Registry, p: string, q: string)
    requires Reachable(r) && p in r.paths && q in r.paths[p].queries
    ensures var id := r.paths[p].queries[q]; id < |r.qs| && r.qs[id].path == p && r.qs[id].query == q && r.qs[id].open
  {
    FanOutInvariant.ReachableInv(r);
  }

  lemma ChosenWithout(r: Registry, p: string, keys: set<string>, q: string)
    requires Reachable(r) && p in r.paths && q in keys && keys <= r.paths[p].queries.Keys
    ensures var queries := r.paths[p].queries;
            queries[q] in Chosen(queries, keys) && Chosen(queries, keys - {q}) == Chosen(queries, keys) - {queries[q]}
  {
    var queries := r.paths[p].queries;
    forall k | k in keys ensures queries[k] < |r.qs| && r.qs[queries[k]].query == k {
      Registered(r, p, k);
    }
  }

  /** A setVal that began in `begun`, just after its assignment, has the queries under
      `keys` still to serve. */
  ghost predicate Serving(begun: Registry, r: Registry, p: string, val: string, keys: set<string>) {
    && p in begun.paths && r.paths == begun.paths && keys <= begun.paths[p].queries.Keys
    && r.mu == Setting(p, val, Chosen(begun.paths[p].queries, keys))
    && Served(begun, r, begun.paths[p].queries.Values - Chosen(begun.paths[p].queries, keys), [Send(val)])
  }

  lemma ServingAll(r: Registry, p: string, val: string)
    requires p in r.paths && r.mu == Setting(p, val, r.paths[p].queries.Values)
    ensures Serving(r, r, p, val, r.paths[p].queries.Keys)
  {
    var queries := r.paths[p].queries;
    assert Chosen(queries, queries.Keys) == queries.Values;
  }

  lemma ServingDone(start: Registry, r: Registry, p: string, val: string)
    requires start.mu.Free? && p in start.paths && Serving(Do(start, SetStart(p, val)), r, p, val, {}) && Reachable(r)
    ensures var s := r.(mu := Free);
            Reachable(s) && Served(start, s, start.paths[p].queries.Values, [Send(val)])
  {
    var queries := start.paths[p].queries;
    assert Chosen(queries, {}) == {};
    assert queries.Values - {} == queries.Values;
    ReachableStep(r, SetEnd);
  }

  lemma ServingNext(begun: Registry, r: Registry, s: Registry, p: string, val: string, keys: set<string>, q: string)
    requires Serving(begun, r, p, val, keys) && Reachable(r) && q in keys
    requires s.paths == r.paths && s.mu == r.mu.(todo := r.mu.todo - {r.paths[p].queries[q]})
    requires Served(r, s, {r.paths[p].queries[q]}, [Send(val)])
    ensures Serving(begun, s, p, val, keys - {q})
  {
    var queries := r.paths[p].queries;
    ChosenWithout(r, p, keys, q);
    ServedMore(begun, r, s, queries.Values - Chosen(queries, keys), {queries[q]}, [Send(val)]);
    assert queries.Values - Chosen(queries, keys - {q}) == queries.Values - Chosen(queries, keys) + {queries[q]};
  }

  lemma ServedMore(r: Registry, s: Registry, t: Registry, before: set<nat>, id: set<nat>, ops: seq<Op>)
    requires Served(r, s, before, ops) && Served(s, t, id, ops) && before !! id
    ensures Served(r, t, before + id, ops)
  {
  }

  lemma SendStep(r: Registry, id: nat)
    requires Reachable(r) && Enabled(r, SetSend(id))
    ensures Reachable(Do(r, SetSend(id))) && Served(r, Do(r, SetSend(id)), {id}, [Send(r.mu.val)])
    ensures Do(r, SetSend(id)).paths == r.paths
  {
    ReachableStep(r, SetSend(id));
  }

  lemma CloseStep(start: Registry, r: Registry, id: nat, p: string, q: string)
    requires Reachable(r) && Lookup(r.paths, p, q) == Some(id) && r.mu == Requesting(id)
    requires Served(start, r, {}, []) && id < |r.qs| && |r.qs[id].operChan| < CAPACITY
    ensures var s := Enqueue(r, id, CloseOp(p, q)).(mu := Free);
            Reachable(s) && Served(start, s, {id}, [CloseOp(p, q)])
  {
    Registered(r, p, q);
    ReachableStep(r, CloseSend);
  }

  lemma CloseDone(start: Registry, r: Registry, p: string, q: string)
    requires Reachable(start) && Lookup(start.paths, p, q).Some?
    requires var id := Lookup(start.paths, p, q).value; Served(Request(start, id), r, {id}, [CloseOp(p, q)])
    ensures Served(start, r, {Lookup(start.paths, p, q).value}, [CloseOp(p, q)])
  {
  }

  lemma RegisterIs(r: Registry, p: string, q: string)
    requires p in r.paths
    ensures var s := r.(qs := r.qs + [NewQuery(r.paths[p], p, q)]);
            Register(r, p, q) == WithQueries(s, p, s.paths[p].queries[q := |r.qs|])
  {
  }

  lemma UnregisterIs(r: Registry, p: string, q: string)
    requires p in r.paths && q in r.paths[p].queries && r.paths[p].queries[q] < |r.qs|
    ensures var s, id := WithQueries(r, p, r.paths[p].queries - {q}), r.paths[p].queries[q];
            Unregister(r, p, q) == s.(qs := s.qs[id := s.qs[id].(open := false)])
  {
  }

  lemma UnregisterAbsent(r: Registry, p: string, q: string)
    requires p in r.paths && q !in r.paths[p].queries
    ensures Unregister(r, p, q) == r
  {
    assert r.paths[p].queries - {q} == r.paths[p].queries;
  }

  /** What processWatchClosure, run by the opLoop of query `id`, makes of the registry. */
  function Closed(r: Registry, id: nat): Registry
    requires Enabled(r, ClosureStart(id))
  {
    var s := CloseQuery(r, id);
    if s.mu.Free? then s else Do(Do(s, ClosureUnwatch), ClosureEnd)
  }

  function Unlisted(r: Registry, p: string, q: string): Registry {
    if p !in r.paths then r
    else
      var s := Unregister(r, p, q);
      if s.paths[p].queries == map[] then s.(paths := s.paths - {p}) else s
  }

  lemma ClosedReachable(r: Registry, id: nat)
    requires Reachable(r) && Enabled(r, ClosureStart(id))
    ensures Reachable(Closed(r, id))
    ensures Closed(r, id) == Finish(Unlisted(r, r.qs[id].loop.path, r.qs[id].loop.query), id)
  {
    var s := CloseQuery(r, id);
    ReachableStep(r, ClosureStart(id));
    if !s.mu.Free? {
      ReachableStep(s, ClosureUnwatch);
      ReachableStep(Do(s, ClosureUnwatch), ClosureEnd);
    }
  }

  /** `loops` are the queries whose goroutines run, for ever, in order of creation; `model`
      is the state of module FanOut that the objects are in. */
  class Strategy {
    var paths: map<string, Path>
    var loops: seq<Query>
    ghost var model: Registry

    constructor ()
      ensures Valid() && model == Init()
    {
      paths, loops, model := map[], [], Init();
      new;
      assert Exec(Init(), []) == Some(model);
    }

    ghost predicate PathsTied(m: map<string, PathWatch>)
      reads this`paths, this`loops, paths.Values
    {
      && paths.Keys == m.Keys
      && forall p :: p in paths ==> paths[p].watchPath == p && paths[p].Tied(m[p], loops)
    }

    ghost predicate LoopsTied(qs: seq<QueryWatch>)
      reads this`loops, loops
    {
      && |loops| == |qs|
      && forall i :: 0 <= i < |loops| ==> loops[i].id == i && loops[i].View() == qs[i]
    }

    /** The objects are as the model says, under the same keys. */
    ghost predicate Tied()
      reads this, paths.Values, loops
    {
      PathsTied(model.paths) && LoopsTied(model.qs)
    }

    ghost predicate Valid()
      reads this, paths.Values, loops
    {
      Tied() && Reachable(model)
    }

    ghost predicate Runs(q: Query)
      reads this
    {
      q.id < |loops| && loops[q.id] == q
    }

    /** Every registered path and every running query was there before, or is new. */
    twostate predicate OnlyNew()
      reads this
    {
      && (forall p :: p in paths ==> fresh(paths[p]) || (p in old(paths) && paths[p] == old(paths[p])))
      && |old(loops)| <= |loops|
      && forall i :: 0 <= i < |loops| ==> if i < |old(loops)| then loops[i] == old(loops)[i] else fresh(loops[i])
    }

    lemma OtherPaths(pth: string)
      requires PathsTied(model.paths) && pth in paths
      ensures forall p :: p in paths && p != pth ==> paths[p] != paths[pth]
    {
    }

    /** A move of the goroutine of one query. */
    method Move(q: Query, a: Action)
      requires Tied() && Local(a) && a.id == q.id && Runs(q)
      modifies this`model, q
      ensures Tied() && model == if Enabled(old(model), a) then Do(old(model), a) else old(model)
    {
      q.OpLoopTurn(a, model);
      if Enabled(model, a) {
        LocalDo(model, a);
        model := Do(model, a);
      }
    }

    /** A goroutine's move between two steps of the one that holds the mutex. */
    method OpLoopTurn(a: Action)
      requires Valid() && Local(a)
      modifies this`model, loops
      ensures paths == old(paths) && loops == old(loops)
      ensures Valid()
      ensures model == if Enabled(old(model), a) then Do(old(model), a) else old(model)
    {
      if a.id < |loops| {
        if Enabled(model, a) { ReachableStep(model, a); }
        Move(loops[a.id], a);
      }
    }

    /** What the other goroutines do while this one waits in the mutex. */
    method OpLoopTurns(turns: seq<Action>)
      requires Valid() && forall a :: a in turns ==> Local(a)
      modifies this`model, loops
      ensures paths == old(paths) && loops == old(loops)
      ensures Valid()
      ensures Served(old(model), model, {}, []) && model.paths == old(model).paths && model.mu == old(model).mu
    {
      for k := 0 to |turns|
        invariant Valid() && paths == old(paths) && loops == old(loops)
        invariant Served(old(model), model, {}, []) && model.paths == old(model).paths && model.mu == old(model).mu
      {
        LocalServed(model, turns[k]);
        OpLoopTurn(turns[k]);
      }
    }

    /** A path that is new to the registry. */
    method AddPath(pth: string, value: string)
      requires Tied() && pth !in paths
      modifies this`paths, this`model
      ensures Tied() && pth in paths && paths == old(paths)[pth := paths[pth]] && fresh(paths[pth])
      ensures model == old(model).(paths := old(model).paths[pth := PathWatch(value, map[], [value])])
    {
      var w := new Path(pth, value);
      paths := paths[pth := w];
      model := model.(paths := model.paths[pth := PathWatch(value, map[], [value])]);
    }

    /** A new query starts its goroutine. */
    method Spawn(pth: string, pathQry: string) returns (q: Query)
      requires Tied() && pth in paths
      modifies this`loops, this`model
      ensures paths == old(paths)
      ensures Tied() && fresh(q) && loops == old(loops) + [q]
      ensures q.id == |old(loops)| && q.parentPathW == paths[pth] && q.pathQuery == pathQry
      ensures pth in old(model).paths && |old(loops)| == |old(model).qs|
      ensures model == old(model).(qs := old(model).qs + [NewQuery(old(model).paths[pth], pth, pathQry)])
    {
      q := new Query(|loops|, paths[pth], pathQry);
      loops := loops + [q];
      model := model.(qs := model.qs + [q.View()]);
    }

    /** A running query enters the registry, which becomes `next`. */
    method Enter(pth: string, q: Query, ghost next: Registry)
      requires Tied() && pth in paths && q.pathQuery !in paths[pth].queries
      requires Runs(q) && q.parentPathW == paths[pth] && pth in model.paths
      requires next == WithQueries(model, pth, model.paths[pth].queries[q.pathQuery := q.id])
      modifies this`model, if pth in paths then {paths[pth]} else {}
      ensures paths == old(paths) && loops == old(loops)
      ensures Tied() && model == next
      ensures q.pathQuery in paths[pth].queries && paths[pth].queries[q.pathQuery] == q
    {
      var w := paths[pth];
      KeyedMore(w.queries, model.paths[pth].queries, loops, q.id);
      OtherPaths(pth);
      w.Add(q);
      assert w.Tied(next.paths[pth], loops);
      model := next;
    }

    /** The query of a registered path, found or made. */
    method FindQuery(pth: string, pathQry: string) returns (q: Query)
      requires Tied() && pth in paths
      modifies this`loops, this`model, if pth in paths then {paths[pth]} else {}
      ensures Tied() && OnlyNew() && pth in old(model).paths
      ensures model == if pathQry in old(model).paths[pth].queries then old(model)
                       else Register(old(model), pth, pathQry)
      ensures pathQry in paths[pth].queries && q == paths[pth].queries[pathQry] && Runs(q)
    {
      if pathQry in paths[pth].queries {
        q := paths[pth].queries[pathQry];
      } else {
        q := AddQuery(pth, pathQry);
      }
    }

    method AddQuery(pth: string, pathQry: string) returns (q: Query)
      requires Tied() && pth in paths && pathQry !in paths[pth].queries
      modifies this`loops, this`model, if pth in paths then {paths[pth]} else {}
      ensures Tied() && pth in old(model).paths && model == Register(old(model), pth, pathQry)
      ensures fresh(q) && loops == old(loops) + [q]
      ensures pathQry in paths[pth].queries && q == paths[pth].queries[pathQry] && Runs(q)
    {
      ghost var r := model;
      q := Spawn(pth, pathQry);
      RegisterIs(r, pth, pathQry);
      Enter(pth, q, Register(r, pth, pathQry));
    }

    /** Watch on a path that is registered. */
    method WatchOld(pth: string, pathQry: string) returns (q: Query)
      requires Valid() && model.mu.Free? && pth in paths
      modifies this`loops, this`model, if pth in paths then {paths[pth]} else {}
      ensures Valid() && OnlyNew() && pth in old(model).paths && pth in paths
      ensures model == Do(old(model), WatchKnown(pth, pathQry))
      ensures pathQry in paths[pth].queries && q == paths[pth].queries[pathQry] && Runs(q)
    {
      ReachableStep(model, WatchKnown(pth, pathQry));
      q := FindQuery(pth, pathQry);
    }

    /** Watch on a path that is new and has been read. */
    method WatchNew(pth: string, pathQry: string, value: string) returns (q: Query)
      requires Valid() && model.mu.Free? && pth !in paths
      modifies this`paths, this`loops, this`model
      ensures Valid() && OnlyNew() && pth !in old(model).paths && pth in paths
      ensures model == Do(Do(old(model), WatchAdded(pth, pathQry)), WatchRead(value))
      ensures pathQry in paths[pth].queries && q == paths[pth].queries[pathQry] && Runs(q)
    {
      WatchedReachable(model, pth, pathQry, value);
      AddPath(pth, value);
      q := FindQuery(pth, pathQry);
    }

    /** `added` and `read` are what watcher.Add and the read of the file answer. */
    method Watch(pth: string, pathQry: string, added: bool, read: Option<string>)
      returns (r: Option<(string, Query)>)
      requires Valid() && model.mu.Free?
      modifies this, paths.Values
      ensures Valid() && OnlyNew()
      ensures r.None? <==> pth !in old(paths) && (!added || read.None?)
      ensures old(paths.Keys == model.paths.Keys)
      ensures model ==
        if pth in old(paths) then Do(old(model), WatchKnown(pth, pathQry))
        else if added && read.Some? then Do(Do(old(model), WatchAdded(pth, pathQry)), WatchRead(read.value))
        else old(model)
      ensures r.Some? ==>
        && pth in paths && pathQry in paths[pth].queries
        && r.value == (paths[pth].value, paths[pth].queries[pathQry])
        && Runs(r.value.1) && Lookup(model.paths, pth, pathQry) == Some(r.value.1.id)
    {
      var q;
      if pth in paths {
        q := WatchOld(pth, pathQry);
      } else {
        if !added || read.None? { return None; }
        q := WatchNew(pth, pathQry, read.value);
      }
      return Some((paths[pth].value, q));
    }

    /** A send on the queue of a query that has room for it. */
    method PutOn(q: Query, op: Op, ghost mu: Mutex)
      requires Tied() && Runs(q) && |q.operChan| < CAPACITY
      modifies this`model, q
      ensures paths == old(paths) && loops == old(loops)
      ensures Tied()
      ensures q.id < |old(model).qs| && |old(model).qs[q.id].operChan| < CAPACITY
      ensures model == Enqueue(old(model), q.id, op).(mu := mu)
    {
      q.Put(op);
      model := Enqueue(model, q.id, op).(mu := mu);
    }

    /** A registered path gets a value, and the model becomes `next`. */
    method Write(pth: string, val: string, ghost next: Registry)
      requires Tied() && pth in paths && pth in model.paths && next.qs == model.qs
      requires next.paths == model.paths[pth := Assigned(model.paths[pth], val)]
      modifies this`model, if pth in paths then {paths[pth]} else {}
      ensures Tied() && model == next && paths == old(paths) && loops == old(loops)
    {
      var w := paths[pth];
      OtherPaths(pth);
      w.Set(val);
      model := next;
      assert w.Tied(model.paths[pth], loops);
    }

    /** The first half of setVal: the new value of a registered path. */
    method Assign(pth: string, val: string)
      requires Valid() && pth in paths && model.mu.Free?
      modifies this`model, if pth in paths then {paths[pth]} else {}
      ensures paths == old(paths) && loops == old(loops)
      ensures Valid()
      ensures pth in old(model).paths && model == Do(old(model), SetStart(pth, val))
    {
      ReachableStep(model, SetStart(pth, val));
      Write(pth, val, Do(model, SetStart(pth, val)));
    }

    /** One send of setVal, after the other goroutines have had their turns. */
    method SendTo(q: Query, val: string, turns: seq<Action>) returns (sent: bool)
      requires Valid() && model.mu.Setting? && model.mu.val == val && q.id in model.mu.todo
      requires Runs(q)
      requires forall a :: a in turns ==> Local(a)
      modifies this`model, loops
      ensures paths == old(paths) && loops == old(loops)
      ensures Valid() && model.paths == old(model).paths
      ensures model.mu == old(model).mu.(todo := old(model).mu.todo - if sent then {q.id} else {})
      ensures Served(old(model), model, if sent then {q.id} else {}, [Send(val)])
      ensures !sent ==> |q.operChan| >= CAPACITY
    {
      OpLoopTurns(turns);
      if |q.operChan| >= CAPACITY { return false; }
      SendStep(model, q.id);
      ServedMore(old(model), model, Do(model, SetSend(q.id)), {}, {q.id}, [Send(val)]);
      PutOn(q, Send(val), model.mu.(todo := model.mu.todo - {q.id}));
      return true;
    }

    /** One turn of setVal's loop, with the queries under `keys` still to serve. */
    method Serve(pth: string, val: string, query: string, turns: seq<Action>,
                 ghost keys: set<string>, ghost begun: Registry) returns (full: Query?)
      requires Valid() && pth in paths && query in keys && Serving(begun, model, pth, val, keys)
      requires forall a :: a in turns ==> Local(a)
      modifies this`model, loops
      ensures Valid() && paths == old(paths) && loops == old(loops)
      ensures full == null ==> Serving(begun, model, pth, val, keys - {query})
      ensures full != null ==>
        model.paths == old(model).paths && model.mu.Setting? && full.id in model.mu.todo && |full.operChan| >= CAPACITY
    {
      ChosenWithout(model, pth, keys, query);
      var w := paths[pth].queries[query];
      ghost var r := model;
      var sent := SendTo(w, val, turns);
      if !sent { return w; }
      ServingNext(begun, r, model, pth, val, keys, query);
      return null;
    }

    /** The loop of setVal over the queries of the path. */
    method SendToAll(pth: string, val: string, turns: seq<seq<Action>>) returns (full: Query?)
      requires Valid() && pth in paths && forall k, a :: 0 <= k < |turns| && a in turns[k] ==> Local(a)
      requires pth in model.paths && model.mu == Setting(pth, val, model.paths[pth].queries.Values)
      modifies this`model, loops
      ensures paths == old(paths) && loops == old(loops)
      ensures Valid() && model.paths == old(model).paths
      ensures full == null ==> Serving(old(model), model, pth, val, {})
      ensures full != null ==> model.mu.Setting? && full.id in model.mu.todo && |full.operChan| >= CAPACITY
    {
      ServingAll(model, pth, val);
      var todo := paths[pth].queries.Keys;
      var k := 0;
      while todo != {}
        invariant Valid() && paths == old(paths) && loops == old(loops)
        invariant Serving(old(model), model, pth, val, todo)
      {
        var q :| q in todo;
        full := Serve(pth, val, q, if k < |turns| then turns[k] else [], todo, old(model));
        if full != null { return; }
        todo, k := todo - {q}, k + 1;
      }
      return null;
    }

    /** `turns` says what the opLoops do before each send.  The answer is a query whose queue
        is full all the same; setVal then waits for room with the mutex held.  The order in
        which the queries are served is left open, as Go's range over a map leaves it. */
    method SetVal(pth: string, val: string, turns: seq<seq<Action>>) returns (full: Query?)
      requires Valid() && model.mu.Free? && forall k, a :: 0 <= k < |turns| && a in turns[k] ==> Local(a)
      modifies this`model, if pth in paths then {paths[pth]} else {}, loops
      ensures paths == old(paths) && loops == old(loops)
      ensures Valid() && (pth in paths <==> pth in old(model).paths)
      ensures pth !in paths ==> full == null && model == old(model)
      ensures pth in paths ==> model.paths == old(model).paths[pth := Assigned(old(model).paths[pth], val)]
      ensures pth in paths && full == null ==>
        model.mu.Free? && Served(old(model), model, old(model).paths[pth].queries.Values, [Send(val)])
      ensures full != null ==> model.mu.Setting? && full.id in model.mu.todo && |full.operChan| >= CAPACITY
    {
      if pth !in paths { return null; }
      Assign(pth, val);
      full := SendToAll(pth, val, turns);
      if full == null {
        ServingDone(old(model), model, pth, val);
        Unlock();
      }
    }

    ghost method Unlock()
      requires Tied()
      modifies this`model
      ensures Tied() && model == old(model).(mu := Free)
    {
      model := model.(mu := Free);
    }

    /** CloseWatch has found its query and is about to send. */
    ghost method Ask(q: Query, pth: string, pathQry: string)
      requires Valid() && model.mu.Free? && Lookup(model.paths, pth, pathQry) == Some(q.id)
      requires Runs(q)
      modifies this`model, q
      ensures Valid() && model == Request(old(model), q.id)
    {
      ReachableStep(model, CloseStart(pth, pathQry));
      q.Ask();
      model := Request(model, q.id);
      assert q.View() == model.qs[q.id];
    }

    /** The send of CloseWatch, after the other goroutines have had their turns. */
    method SendClose(q: Query, pth: string, pathQry: string, turns: seq<Action>) returns (sent: bool)
      requires Valid() && forall a :: a in turns ==> Local(a)
      requires Runs(q)
      requires Lookup(model.paths, pth, pathQry) == Some(q.id) && model.mu == Requesting(q.id)
      modifies this`model, loops
      ensures paths == old(paths) && loops == old(loops)
      ensures Valid() && model.paths == old(model).paths
      ensures model.mu == if sent then Free else old(model).mu
      ensures sent ==> Served(old(model), model, {q.id}, [CloseOp(pth, pathQry)])
      ensures !sent ==> |q.operChan| >= CAPACITY
    {
      OpLoopTurns(turns);
      if |q.operChan| >= CAPACITY { return false; }
      CloseStep(old(model), model, q.id, pth, pathQry);
      PutOn(q, CloseOp(pth, pathQry), Free);
      return true;
    }

    /** As with SetVal, the answer is the query if its queue stays full. */
    method CloseWatch(pth: string, pathQry: string, turns: seq<Action>) returns (full: Query?)
      requires Valid() && model.mu.Free? && forall a :: a in turns ==> Local(a)
      modifies this`model, loops
      ensures paths == old(paths) && loops == old(loops)
      ensures Valid() && model.paths == old(model).paths
      ensures Lookup(old(model).paths, pth, pathQry).None? ==> full == null && model == old(model)
      ensures var id := Lookup(old(model).paths, pth, pathQry);
              id.Some? && full == null ==>
                model.mu.Free? && Served(old(model), model, {id.value}, [CloseOp(pth, pathQry)])
      ensures full != null ==>
        && model.mu == Requesting(full.id) && Lookup(model.paths, pth, pathQry) == Some(full.id)
        && |full.operChan| >= CAPACITY
    {
      if pth !in paths { return null; }
      if pathQry !in paths[pth].queries { return null; }
      var q := paths[pth].queries[pathQry];
      Ask(q, pth, pathQry);
      var sent := SendClose(q, pth, pathQry, turns);
      if sent {
        CloseDone(old(model), model, pth, pathQry);
        return null;
      }
      return q;
    }

    method Forget(pth: string, pathQry: string, ghost next: Registry)
      requires Tied() && pth in paths && pth in model.paths
      requires next == WithQueries(model, pth, model.paths[pth].queries - {pathQry})
      modifies this`model, if pth in paths then {paths[pth]} else {}
      ensures Tied() && model == next && paths == old(paths) && loops == old(loops)
    {
      var w := paths[pth];
      KeyedLess(w.queries, model.paths[pth].queries, loops, pathQry);
      OtherPaths(pth);
      w.Delete(pathQry);
      model := next;
      assert w.Tied(model.paths[pth], loops);
    }

    method CloseChan(q: Query)
      requires Tied() && Runs(q) && q.open
      modifies this`model, q
      ensures paths == old(paths) && loops == old(loops)
      ensures Tied() && q.id < |old(model).qs|
      ensures model == old(model).(qs := old(model).qs[q.id := old(model).qs[q.id].(open := false)])
    {
      q.CloseUpdateChan();
      model := model.(qs := model.qs[q.id := model.qs[q.id].(open := false)]);
    }

    /** A query leaves the registry and has its channel closed. */
    method Leave(pth: string, pathQry: string)
      requires Valid() && pth in paths && pathQry in paths[pth].queries
      modifies this`model, if pth in paths then {paths[pth]} else {}, loops
      ensures paths == old(paths) && loops == old(loops)
      ensures Tied() && pth in old(model).paths && model == Unregister(old(model), pth, pathQry)
    {
      Registered(model, pth, pathQry);
      UnregisterIs(model, pth, pathQry);
      var q := paths[pth].queries[pathQry];
      assert Runs(q) && q.View() == model.qs[q.id];
      Forget(pth, pathQry, WithQueries(model, pth, model.paths[pth].queries - {pathQry}));
      CloseChan(q);
    }

    /** A path without queries leaves the registry. */
    method DropPath(pth: string)
      requires Tied()
      modifies this`paths, this`model
      ensures Tied() && paths == old(paths) - {pth}
      ensures model == old(model).(paths := old(model).paths - {pth})
    {
      paths := paths - {pth};
      model := model.(paths := model.paths - {pth});
    }

    method Unlist(pth: string, pathQry: string)
      requires Valid()
      modifies this`paths, this`model, paths.Values, loops
      ensures Tied() && model == Unlisted(old(model), pth, pathQry)
      ensures loops == old(loops) && (paths == old(paths) || paths == old(paths) - {pth})
    {
      if pth in paths {
        LeaveIfThere(pth, pathQry);
        KeyedEmpty(paths[pth].queries, model.paths[pth].queries, loops);
        if paths[pth].queries == map[] { DropPath(pth); }
      }
    }

    method LeaveIfThere(pth: string, pathQry: string)
      requires Valid() && pth in paths
      modifies this`model, if pth in paths then {paths[pth]} else {}, loops
      ensures paths == old(paths) && loops == old(loops)
      ensures Tied() && pth in old(model).paths && model == Unregister(old(model), pth, pathQry)
    {
      if pathQry in paths[pth].queries {
        Leave(pth, pathQry);
      } else {
        UnregisterAbsent(model, pth, pathQry);
      }
    }

    /** opLoop goes back to its select. */
    method Resume(q: Query)
      requires Tied() && Runs(q)
      modifies this`model, q
      ensures Tied() && model == Finish(old(model), q.id)
    {
      q.loop := Ready;
      model := Finish(model, q.id);
    }

    /** Run by the opLoop of `q`.  The result of watcher.Remove is only logged and
        returned, and opLoop ignores it. */
    method ProcessWatchClosure(q: Query)
      requires Valid() && model.mu.Free? && Runs(q) && q.loop.Closing?
      modifies this`paths, this`model, paths.Values, loops
      ensures Valid() && loops == old(loops) && (paths == old(paths) || paths == old(paths) - {old(q.loop.path)})
      ensures Enabled(old(model), ClosureStart(q.id)) && model == Closed(old(model), q.id)
    {
      ClosedReachable(model, q.id);
      Unlist(q.loop.path, q.loop.query);
      Resume(q);
    }
  }

  lemma NewQueryOf(r: Registry, p: string, q: string, val: string)
    requires Reachable(r) && r.mu.Free? && p !in r.paths
    ensures var t, id := Do(Do(r, WatchAdded(p, q)), WatchRead(val)), |r.qs|;
            && t.mu.Free? && |t.qs| == id + 1 && p in t.paths && t.paths[p].queries == map[q := id]
            && Lookup(t.paths, p, q) == Some(id) && t.paths[p].queries.Values == {id}
            && t.qs[id].initial == val && t.qs[id].queued == [] && t.qs[id].open
  {
    WatchedReachable(r, p, q, val);
    assert map[][q := |r.qs|] == map[q := |r.qs|] && (map[q := |r.qs|])[q] == |r.qs|;
  }

  /** The only query of a path, with a queue nothing was sent to, is sent the path's value. */
  method SetOnly(s: Strategy, q: Query, pth: string, next: string) returns (full: Query?)
    requires s.Valid() && s.model.mu.Free? && s.Runs(q) && pth in s.paths && pth in s.model.paths
    requires s.model.paths[pth].queries.Values == {q.id} && q.queued == [] && q.open
    modifies s, s.paths[pth], s.loops
    ensures s.Valid() && pth in s.paths && s.paths[pth].value == next
    ensures full == null ==> s.model.mu.Free? && q.open && q.queued == [Send(next)]
  {
    assert q.View() == s.model.qs[q.id];
    full := s.SetVal(pth, next, []);
    assert s.LoopsTied(s.model.qs) && s.loops[q.id] == q;
    assert s.loops[q.id].View() == s.model.qs[q.id];
  }

  /** A new path is watched and then changes: the query starts from the value that was read,
      and unless its queue is full the new value is queued next. */
  method WatchThenSet(s: Strategy, pth: string, query: string, first: string, next: string)
    returns (q: Query, full: Query?)
    requires s.Valid() && s.model.mu.Free? && pth !in s.paths
    modifies s, s.paths.Values, s.loops
    ensures s.Valid() && pth in s.paths && s.paths[pth].value == next
    ensures q.initial == first
    ensures full == null ==> s.model.mu.Free? && q.open && q.queued == [Send(next)]
  {
    NewQueryOf(s.model, pth, query, first);
    var r := s.Watch(pth, query, true, Some(first));
    q := r.value.1;
    assert q.View() == s.model.qs[q.id];
    full := SetOnly(s, q, pth, next);
  }
}
