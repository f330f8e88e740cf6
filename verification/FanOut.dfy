/** fsnotify/filewatcher.go: how the strategy fans the values of a path out to the queries
    watching it, as a state machine over what `Strategy.mu` and the channels protect.

    Each query has a bounded queue of pending operations and a goroutine (opLoop) that
    drains it into an unbuffered update channel.  setVal and CloseWatch hold the mutex
    while they wait for room in a queue, so a running one is a state of the mutex here. */
module FanOut {
  import opened Sequences

  const CAPACITY: nat := 30

  datatype Op = Send(v: string) | CloseOp(path: string, query: string)

  /** Where opLoop is: in its select; past the nil test of sendUpdate; blocked sending;
      blocked for ever on a nil channel; about to run processWatchClosure. */
  datatype OpPc = Ready | Checked(v: string) | Blocked(v: string) | Hung | Closing(path: string, query: string)

  /** A queryWatch.  It outlives its registration, because its opLoop never ends.
      `open` says that its update channel is neither closed nor nil.  The last five fields
      record history: the value Watch returned and its place in the path's history, all
      operations ever queued, the values the consumer received, the CloseWatch calls. */
  datatype QueryWatch = QueryWatch(
    path: string,
    query: string,
    operChan: seq<Op>,
    open: bool,
    loop: OpPc,
    initial: string,
    from: nat,
    queued: seq<Op>,
    delivered: seq<string>,
    closeRequests: nat)

  /** A pathWatch; `history` records every value it has had. */
  datatype PathWatch = PathWatch(value: string, queries: map<string, nat>, history: seq<string>)

  /** Who holds Strategy.mu: Watch on a new path, setVal with queries still to serve,
      CloseWatch waiting for room, or processWatchClosure (run by query `id`) before and
      after it has asked the watcher to drop an emptied path. */
  datatype Mutex =
    | Free
    | Adding(path: string, query: string)
    | Setting(path: string, val: string, todo: set<nat>)
    | Requesting(id: nat)
    | Emptied(path: string, id: nat)
    | Unwatched(path: string, id: nat)

  datatype Registry = Registry(paths: map<string, PathWatch>, qs: seq<QueryWatch>, mu: Mutex)

  datatype Action =
    | WatchKnown(path: string, query: string)
    | WatchAdded(path: string, query: string)
    | WatchFailed
    | WatchRead(val: string)
    | SetStart(path: string, val: string)
    | SetSend(id: nat)
    | SetEnd
    | CloseStart(path: string, query: string)
    | CloseSend
    | Take(id: nat)
    | EvalChan(id: nat)
    | Deliver(id: nat)
    | Recover(id: nat)
    | ClosureStart(id: nat)
    | ClosureUnwatch
    | ClosureEnd

  function Init(): Registry {
    Registry(map[], [], Free)
  }

  /** The query registered for a path and a query string. */
  function Lookup(paths: map<string, PathWatch>, path: string, query: string): Option<nat> {
    if path in paths && query in paths[path].queries then Some(paths[path].queries[query]) else None
  }

  predicate Enabled(r: Registry, a: Action) {
    match a
    case WatchKnown(p, _) => r.mu.Free? && p in r.paths
    case WatchAdded(p, _) => r.mu.Free? && p !in r.paths
    case WatchFailed => r.mu.Adding?
    case WatchRead(_) => r.mu.Adding?
    case SetStart(_, _) => r.mu.Free?
    case SetSend(id) => r.mu.Setting? && id in r.mu.todo && id < |r.qs| && |r.qs[id].operChan| < CAPACITY
    case SetEnd => r.mu.Setting? && r.mu.todo == {}
    case CloseStart(_, _) => r.mu.Free?
    case CloseSend => r.mu.Requesting? && r.mu.id < |r.qs| && |r.qs[r.mu.id].operChan| < CAPACITY
    case Take(id) => id < |r.qs| && r.qs[id].loop.Ready? && r.qs[id].operChan != []
    case EvalChan(id) => id < |r.qs| && r.qs[id].loop.Checked?
    case Deliver(id) => id < |r.qs| && r.qs[id].loop.Blocked? && r.qs[id].open
    case Recover(id) => id < |r.qs| && r.qs[id].loop.Blocked? && !r.qs[id].open
    case ClosureStart(id) => r.mu.Free? && id < |r.qs| && r.qs[id].loop.Closing?
    case ClosureUnwatch => r.mu.Emptied?
    case ClosureEnd => r.mu.Unwatched?
  }

  function Do(r: Registry, a: Action): Registry
    requires Enabled(r, a)
  {
    match a
    case WatchKnown(p, q) => if q in r.paths[p].queries then r else Register(r, p, q)
    case WatchAdded(p, q) => r.(mu := Adding(p, q))
    case WatchFailed => r.(mu := Free)
    case WatchRead(val) =>
      Register(r.(paths := r.paths[r.mu.path := PathWatch(val, map[], [val])], mu := Free), r.mu.path, r.mu.query)
    case SetStart(p, val) =>
      if p !in r.paths then r
      else
        var w := r.paths[p];
        r.(paths := r.paths[p := Assigned(w, val)], mu := Setting(p, val, w.queries.Values))
    case SetSend(id) => Enqueue(r, id, Send(r.mu.val)).(mu := r.mu.(todo := r.mu.todo - {id}))
    case SetEnd => r.(mu := Free)
    case CloseStart(p, q) =>
      (match Lookup(r.paths, p, q)
       case None => r
       case Some(id) => Request(r, id))
    case CloseSend =>
      var w := r.qs[r.mu.id];
      Enqueue(r, r.mu.id, CloseOp(w.path, w.query)).(mu := Free)
    case Take(id) => r.(qs := r.qs[id := Taken(r.qs[id])])
    case EvalChan(id) =>
      var w := r.qs[id];
      r.(qs := r.qs[id := w.(loop := if w.open then Blocked(w.loop.v) else Hung)])
    case Deliver(id) =>
      var w := r.qs[id];
      r.(qs := r.qs[id := w.(loop := Ready, delivered := w.delivered + [w.loop.v])])
    case Recover(id) => r.(qs := r.qs[id := r.qs[id].(loop := Ready)])
    case ClosureStart(id) => CloseQuery(r, id)
    case ClosureUnwatch => r.(mu := Unwatched(r.mu.path, r.mu.id))
    case ClosureEnd => Dropped(Finish(r, r.mu.id))
  }

  function Assigned(w: PathWatch, val: string): PathWatch {
    w.(value := val, history := w.history + [val])
  }

  /** Watch makes and registers a new queryWatch. */
  function Register(r: Registry, p: string, q: string): Registry
    requires p in r.paths
  {
    var w := r.paths[p];
    r.(paths := r.paths[p := w.(queries := w.queries[q := |r.qs|])], qs := r.qs + [NewQuery(w, p, q)])
  }

  function NewQuery(w: PathWatch, p: string, q: string): QueryWatch {
    QueryWatch(p, q, [], true, Ready, w.value, if |w.history| > 0 then |w.history| - 1 else 0, [], [], 0)
  }

  function Put(w: QueryWatch, op: Op): QueryWatch {
    w.(operChan := w.operChan + [op], queued := w.queued + [op])
  }

  function Enqueue(r: Registry, id: nat, op: Op): Registry
    requires id < |r.qs|
  {
    r.(qs := r.qs[id := Put(r.qs[id], op)])
  }

  /** CloseWatch has found its query. */
  function Request(r: Registry, id: nat): Registry {
    if id >= |r.qs| then r
    else r.(qs := r.qs[id := r.qs[id].(closeRequests := r.qs[id].closeRequests + 1)], mu := Requesting(id))
  }

  /** opLoop receives the next operation; a value for a nil channel is dropped. */
  function Taken(w: QueryWatch): QueryWatch
    requires w.operChan != []
  {
    w.(operChan := w.operChan[1..],
       loop := match w.operChan[0]
               case Send(v) => if w.open then Checked(v) else Ready
               case CloseOp(p, q) => Closing(p, q))
  }

  /** processWatchClosure forgets the emptied path. */
  function Dropped(r: Registry): Registry {
    if r.mu.Unwatched? then r.(paths := r.paths - {r.mu.path}, mu := Free) else r
  }

  function Finish(r: Registry, id: nat): Registry {
    if id < |r.qs| then r.(qs := r.qs[id := r.qs[id].(loop := Ready)]) else r
  }

  /** The query leaves the registry and its channel is closed and set to nil. */
  function Unregister(r: Registry, p: string, q: string): Registry
    requires p in r.paths
  {
    var w := r.paths[p];
    var target := Lookup(r.paths, p, q);
    r.(paths := r.paths[p := w.(queries := w.queries - {q})],
       qs := if target.Some? && target.value < |r.qs|
             then r.qs[target.value := r.qs[target.value].(open := false)] else r.qs)
  }

  /** processWatchClosure, run by opLoop `id`, up to the test for an emptied path. */
  function CloseQuery(r: Registry, id: nat): Registry
    requires id < |r.qs| && r.qs[id].loop.Closing?
  {
    var p, q := r.qs[id].loop.path, r.qs[id].loop.query;
    if p !in r.paths then Finish(r, id)
    else
      var s := Unregister(r, p, q);
      if s.paths[p].queries == map[] then s.(mu := Emptied(p, id)) else Finish(s, id)
  }

  function Exec(r: Registry, acts: seq<Action>): Option<Registry> {
    if acts == [] then Some(r)
    else
      var before := Exec(r, acts[..|acts| - 1]);
      var a := acts[|acts| - 1];
      if before.Some? && Enabled(before.value, a) then Some(Do(before.value, a)) else None
  }

  ghost predicate Reachable(r: Registry) {
    exists acts: seq<Action> :: Exec(Init(), acts) == Some(r)
  }

  /** The values among a sequence of operations. */
  function Sends(ops: seq<Op>): seq<string> {
    if ops == [] then [] else (if ops[0].Send? then [ops[0].v] else []) + Sends(ops[1..])
  }

  /** The value that opLoop is holding. */
  function InFlight(w: QueryWatch): seq<string> {
    if w.loop.Checked? || w.loop.Blocked? then [w.loop.v] else []
  }

  /** A running setVal has not reached query `id` yet. */
  predicate Awaiting(r: Registry, id: nat) {
    r.mu.Setting? && id in r.mu.todo
  }
}
