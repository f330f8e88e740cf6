/** Waiting for room in a queue.  setVal and CloseWatch wait with Strategy.mu held, and a
    running closure needs that mutex: exactly when such a wait can end. */
module Blocking {
  import opened Sequences
  import opened FanOut
  import opened FanOutInvariant
  import opened FanOutTheorems
  import opened CloseMoves
  import opened CloseOrder
  import opened DoubleClose

  /** The holder of the mutex has query `id` to send to, and its queue is full. */
  predicate Waits(r: Registry, id: nat) {
    && id < |r.qs| && |r.qs[id].operChan| >= CAPACITY
    && ((r.mu.Setting? && id in r.mu.todo) || r.mu == Requesting(id))
  }

  /** The send that the holder of the mutex waits for. */
  function SendTo(r: Registry, id: nat): Action {
    if r.mu.Setting? then SetSend(id) else CloseSend
  }

  /** The query waited for runs a closure, which waits for the mutex. */
  predicate Stuck(r: Registry, id: nat) {
    Waits(r, id) && r.qs[id].loop.Closing?
  }

  /** Some run makes room while the holder of the mutex keeps waiting. */
  ghost predicate CanGoOn(r: Registry, id: nat) {
    exists acts: seq<Action> ::
      Exec(r, acts).Some? && Exec(r, acts).value.mu == r.mu && Enabled(Exec(r, acts).value, SendTo(r, id))
  }

  lemma StuckStep(r: Registry, a: Action, id: nat)
    requires Stuck(r, id) && Enabled(r, a)
    ensures Stuck(Do(r, a), id)
  {
  }

  /** Once stuck, for ever: the mutex is never free again. */
  lemma {:induction false} StuckForEver(r: Registry, acts: seq<Action>, id: nat)
    requires Stuck(r, id) && Exec(r, acts).Some?
    ensures var s := Exec(r, acts).value; Stuck(s, id) && !s.mu.Free? && !Enabled(s, SendTo(s, id))
  {
    if acts != [] {
      StuckForEver(r, acts[..|acts| - 1], id);
      StuckStep(Exec(r, acts[..|acts| - 1]).value, acts[|acts| - 1], id);
    }
  }

  /** No opLoop hangs while its channel is open. */
  lemma OpenNeverHangs(r: Registry, id: nat)
    requires Reachable(r) && id < |r.qs| && r.qs[id].open
    ensures !r.qs[id].loop.Hung?
  {
    ReachableKept(r);
    assert Fine(r.qs[id]);
  }

  lemma WaitedForIsOpen(r: Registry, id: nat)
    requires Inv(r) && Waits(r, id)
    ensures r.qs[id].open && |r.qs[id].operChan| == CAPACITY
  {
    assert QueryOk(r.qs[id], id, r.paths, Awaiting(r, id));
  }

  lemma Took(r: Registry, id: nat)
    requires Waits(r, id) && |r.qs[id].operChan| == CAPACITY && r.qs[id].loop.Ready?
    ensures Enabled(r, Take(id)) && Do(r, Take(id)).mu == r.mu && Enabled(Do(r, Take(id)), SendTo(r, id))
  {
  }

  lemma Handed(r: Registry, id: nat)
    requires Waits(r, id) && r.qs[id].open && (r.qs[id].loop.Checked? || r.qs[id].loop.Blocked?)
    ensures var a := if r.qs[id].loop.Checked? then EvalChan(id) else Deliver(id);
            && Enabled(r, a) && Do(r, a).mu == r.mu && Waits(Do(r, a), id)
            && Do(r, a).qs[id].open && Do(r, a).qs[id].operChan == r.qs[id].operChan
            && if a.EvalChan? then Do(r, a).qs[id].loop.Blocked? else Do(r, a).qs[id].loop.Ready?
  {
  }

  /** The query's own moves make room: the value in hand is delivered, the next one taken. */
  lemma {:induction false} RunToRoom(r: Registry, id: nat) returns (acts: seq<Action>)
    requires Waits(r, id) && r.qs[id].open && |r.qs[id].operChan| == CAPACITY
    requires !r.qs[id].loop.Closing? && !r.qs[id].loop.Hung?
    ensures Exec(r, acts).Some? && Exec(r, acts).value.mu == r.mu && Enabled(Exec(r, acts).value, SendTo(r, id))
    decreases if r.qs[id].loop.Checked? then 2 else if r.qs[id].loop.Blocked? then 1 else 0
  {
    var loop := r.qs[id].loop;
    var a := if loop.Ready? then Take(id) else if loop.Checked? then EvalChan(id) else Deliver(id);
    var rest := [];
    if loop.Ready? {
      Took(r, id);
    } else {
      Handed(r, id);
      rest := RunToRoom(Do(r, a), id);
    }
    ExecCons(r, a, rest);
    acts := [a] + rest;
  }

  /** A setVal or a CloseWatch that waits for room can go on if and only if the query it
      waits for is not running a closure. */
  lemma WaitEndsExactly(r: Registry, id: nat)
    requires Reachable(r) && Waits(r, id)
    ensures CanGoOn(r, id) <==> !r.qs[id].loop.Closing?
  {
    if r.qs[id].loop.Closing? {
      forall acts: seq<Action> | Exec(r, acts).Some? && Exec(r, acts).value.mu == r.mu
        ensures !Enabled(Exec(r, acts).value, SendTo(r, id))
      {
        StuckForEver(r, acts, id);
      }
    } else {
      ReachableInv(r);
      WaitedForIsOpen(r, id);
      OpenNeverHangs(r, id);
      var acts := RunToRoom(r, id);
    }
  }

  /** One more value for the only query, while its closure waits to start. */
  lemma OneMore(r: Registry, p: string, q: string, v: string)
    requires Reachable(r) && Filling(r, p, q) && |r.qs[0].operChan| < CAPACITY
    ensures var t := r.(paths := r.paths[p := Assigned(r.paths[p], v)], qs := [Put(r.qs[0], Send(v))]);
            Reachable(t) && Filling(t, p, q)
  {
    var s := Do(r, SetStart(p, v));
    ReachableStep(r, SetStart(p, v));
    Values(r, p, q);
    ReachableStep(s, SetSend(0));
    var t := Do(s, SetSend(0));
    assert t.qs == [Put(r.qs[0], Send(v))];
    ReachableStep(t, SetEnd);
  }

  predicate Filling(r: Registry, p: string, q: string) {
    && r.mu.Free? && p in r.paths && r.paths[p].queries == map[q := 0]
    && |r.qs| == 1 && r.qs[0].loop.Closing?
  }

  lemma Values(r: Registry, p: string, q: string)
    requires Filling(r, p, q)
    ensures r.paths[p].queries.Values == {0}
  {
    assert r.paths[p].queries[q] == 0;
  }

  lemma {:induction false} Fill(r: Registry, p: string, q: string, v: string) returns (t: Registry)
    requires Reachable(r) && Filling(r, p, q) && |r.qs[0].operChan| <= CAPACITY
    ensures Reachable(t) && Filling(t, p, q) && |t.qs[0].operChan| == CAPACITY
    decreases CAPACITY - |r.qs[0].operChan|
  {
    t := r;
    if |r.qs[0].operChan| < CAPACITY {
      OneMore(r, p, q, v);
      t := Fill(r.(paths := r.paths[p := Assigned(r.paths[p], v)], qs := [Put(r.qs[0], Send(v))]), p, q, v);
    }
  }

  /** A stuck state: the queue fills up after the close operation has been taken, and
      setVal holds the mutex that the closure needs. */
  lemma SomeStateIsStuck(p: string, q: string, v: string)
    ensures exists r: Registry :: Reachable(r) && Stuck(r, 0)
  {
    assert Exec(Init(), []) == Some(Init());
    Rewatched(Init(), p, q, v);
    var r := Watched(Init(), p, q, v);
    AskedOnce(r, r.qs[0]);
    var s := Registry(r.paths, [AskedFor(r.qs[0])], Free);
    ReachableStep(s, Take(0));
    var t := Fill(Do(s, Take(0)), p, q, v);
    Values(t, p, q);
    ReachableStep(t, SetStart(p, v));
    assert Stuck(Do(t, SetStart(p, v)), 0);
  }
}
