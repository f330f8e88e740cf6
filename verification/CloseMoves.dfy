/** How the steps of module FanOut act on one query, and what of "close after all sends"
    each of them keeps. */
module CloseMoves {
  import opened Sequences
  import opened FanOut
  import opened FanOutInvariant
  import opened FanOutTheorems

  /** The position of the first close operation, or the length. */
  function FirstClose(ops: seq<Op>): (i: nat)
    ensures i <= |ops| && (i < |ops| ==> ops[i].CloseOp?)
    ensures forall j :: 0 <= j < i ==> ops[j].Send?
  {
    if ops == [] || ops[0].CloseOp? then 0 else 1 + FirstClose(ops[1..])
  }

  predicate HasClose(ops: seq<Op>) {
    FirstClose(ops) < |ops|
  }

  /** The values queued before the first close operation. */
  function DueBeforeClose(ops: seq<Op>): seq<string> {
    Sends(ops[..FirstClose(ops)])
  }

  function Closes(ops: seq<Op>): nat {
    if ops == [] then 0 else Closes(ops[..|ops| - 1]) + if ops[|ops| - 1].CloseOp? then 1 else 0
  }

  /** Everything opLoop has taken from the queue so far. */
  function TakenOps(q: QueryWatch): seq<Op> {
    if |q.operChan| <= |q.queued| then q.queued[..|q.queued| - |q.operChan|] else []
  }

  /** The promise: an open query's consumer has received a prefix of the values queued before
      the close operation, a closed one's exactly those. */
  ghost predicate InOrder(q: QueryWatch) {
    if q.open then q.delivered <= DueBeforeClose(q.queued)
    else HasClose(q.queued) && q.delivered == DueBeforeClose(q.queued)
  }

  lemma {:induction false} FirstCloseAppend(ops: seq<Op>, op: Op)
    ensures FirstClose(ops + [op]) == if HasClose(ops) || op.CloseOp? then FirstClose(ops) else |ops| + 1
  {
    if ops != [] && ops[0].Send? {
      FirstCloseAppend(ops[1..], op);
      assert (ops + [op])[1..] == ops[1..] + [op];
    }
  }

  lemma ClosesAppend(ops: seq<Op>, op: Op)
    ensures Closes(ops + [op]) == Closes(ops) + if op.CloseOp? then 1 else 0
  {
    assert (ops + [op])[..|ops|] == ops;
  }

  lemma {:induction false} ClosesAtLeast(ops: seq<Op>, i: nat)
    requires i < |ops| && ops[i].CloseOp?
    ensures Closes(ops) >= 1
  {
    if i < |ops| - 1 { ClosesAtLeast(ops[..|ops| - 1], i); }
  }

  lemma {:induction false} ClosesConcat(a: seq<Op>, b: seq<Op>)
    ensures Closes(a + b) == Closes(a) + Closes(b)
  {
    if b == [] {
      assert a + b == a;
    } else {
      var m := b[..|b| - 1];
      assert a + b == (a + m) + [b[|b| - 1]] && b == m + [b[|b| - 1]];
      ClosesAppend(a + m, b[|b| - 1]);
      ClosesAppend(m, b[|b| - 1]);
      ClosesConcat(a, m);
    }
  }

  lemma {:induction false} SendsConcat(a: seq<Op>, b: seq<Op>)
    ensures Sends(a + b) == Sends(a) + Sends(b)
  {
    if a == [] {
      assert a + b == b;
    } else {
      SendsConcat(a[1..], b);
      assert (a + b)[1..] == a[1..] + b;
    }
  }

  lemma {:induction false} FirstCloseOfPrefix(t: seq<Op>, rest: seq<Op>)
    ensures HasClose(t) ==> FirstClose(t + rest) == FirstClose(t)
    ensures !HasClose(t) ==> FirstClose(t + rest) == |t| + FirstClose(rest)
  {
    if t == [] {
      assert t + rest == rest;
    } else if t[0].Send? {
      FirstCloseOfPrefix(t[1..], rest);
      assert (t + rest)[1..] == t[1..] + rest;
    }
  }

  /** What is due grows with the queue's history, until the first close operation. */
  lemma DueOfPrefix(t: seq<Op>, rest: seq<Op>)
    ensures DueBeforeClose(t) <= DueBeforeClose(t + rest)
    ensures HasClose(t) ==> HasClose(t + rest) && DueBeforeClose(t) == DueBeforeClose(t + rest)
  {
    var n, m := FirstClose(t), FirstClose(t + rest);
    FirstCloseOfPrefix(t, rest);
    if n < |t| {
      assert (t + rest)[..n] == t[..n];
    } else {
      assert (t + rest)[..m] == t[..n] + (t + rest)[n..m];
      SendsConcat(t[..n], (t + rest)[n..m]);
    }
  }

  /** No close operation has been taken, unless as the last one, which is in hand. */
  ghost predicate OpenOk(taken: seq<Op>, got: seq<string>, inHand: bool) {
    FirstClose(taken) == (if inHand then |taken| - 1 else |taken|) && got == DueBeforeClose(taken)
  }

  ghost predicate ClosedOk(taken: seq<Op>, got: seq<string>) {
    HasClose(taken) && got == DueBeforeClose(taken)
  }

  lemma OpenTakes(taken: seq<Op>, got: seq<string>, op: Op)
    requires OpenOk(taken, got, false)
    ensures OpenOk(taken + [op], got + (if op.Send? then [op.v] else []), op.CloseOp?)
  {
    FirstCloseAppend(taken, op);
    SendsAppend(taken, op);
    assert taken[..|taken|] == taken && (taken + [op])[..|taken| + 1] == taken + [op];
    assert (taken + [op])[..|taken|] == taken;
  }

  lemma ClosedTakes(taken: seq<Op>, got: seq<string>, op: Op)
    requires ClosedOk(taken, got)
    ensures ClosedOk(taken + [op], got)
  {
    DueOfPrefix(taken, [op]);
  }

  /** A query on which the promise is kept, with what opLoop has in hand. */
  ghost predicate Fine(q: QueryWatch) {
    if q.open then OpenOk(TakenOps(q), q.delivered + InFlight(q), q.loop.Closing?) && !q.loop.Hung?
    else ClosedOk(TakenOps(q), q.delivered)
  }

  /** The queue holds the end of its history. */
  ghost predicate Queues(q: QueryWatch) {
    |q.operChan| <= |q.queued| && q.queued == TakenOps(q) + q.operChan
  }

  lemma FineInOrder(q: QueryWatch)
    requires Fine(q) && Queues(q)
    ensures InOrder(q)
  {
    DueOfPrefix(TakenOps(q), q.operChan);
  }

  /** How a step can change a query, other than by a closure that another one runs. */
  ghost predicate Moved(q: QueryWatch, n: QueryWatch) {
    || (n == q.(closeRequests := n.closeRequests) && n.closeRequests >= q.closeRequests)
    || (exists op :: n == Put(q, op))
    || (q.loop.Ready? && q.operChan != [] && n == Taken(q))
    || (q.loop.Checked? && n == q.(loop := if q.open then Blocked(q.loop.v) else Hung))
    || (q.loop.Blocked? && q.open && n == q.(loop := Ready, delivered := q.delivered + [q.loop.v]))
    || (q.loop.Blocked? && !q.open && n == q.(loop := Ready))
    || (q.loop.Closing? && (n == q.(open := false) || n == q.(open := false, loop := Ready)))
  }

  lemma PutOps(q: QueryWatch, op: Op)
    requires Queues(q)
    ensures Queues(Put(q, op)) && TakenOps(Put(q, op)) == TakenOps(q)
  {
    assert q.queued + [op] == TakenOps(q) + (q.operChan + [op]);
  }

  lemma TakeOps(q: QueryWatch)
    requires Queues(q) && q.operChan != []
    ensures Queues(Taken(q)) && TakenOps(Taken(q)) == TakenOps(q) + [q.operChan[0]]
  {
    var n := |q.queued| - |q.operChan|;
    assert q.queued[n] == q.operChan[0] && q.queued[n + 1..] == q.operChan[1..];
    assert q.queued[..n + 1] == q.queued[..n] + [q.queued[n]];
  }

  lemma FineTake(q: QueryWatch)
    requires Queues(q) && Fine(q) && q.loop.Ready? && q.operChan != []
    ensures Fine(Taken(q))
  {
    TakeOps(q);
    if q.open {
      OpenTakes(TakenOps(q), q.delivered + InFlight(q), q.operChan[0]);
      assert q.delivered + [] == q.delivered;
    } else {
      ClosedTakes(TakenOps(q), q.delivered, q.operChan[0]);
    }
  }

  /** A move of opLoop on a value in hand. */
  lemma FineHeld(q: QueryWatch, n: QueryWatch)
    requires Fine(q) && (q.loop.Checked? || q.loop.Blocked?) && n.queued == q.queued && n.operChan == q.operChan
    requires n.open == q.open && n.delivered + InFlight(n) == q.delivered + InFlight(q)
    requires if q.open then !n.loop.Closing? && !n.loop.Hung? else n.delivered == q.delivered
    ensures Fine(n)
  {
    assert TakenOps(n) == TakenOps(q);
  }

  lemma FineLoop(q: QueryWatch, n: QueryWatch)
    requires Queues(q) && (q.loop.Checked? || q.loop.Blocked?)
    requires
      || (q.loop.Checked? && n == q.(loop := if q.open then Blocked(q.loop.v) else Hung))
      || (q.loop.Blocked? && q.open && n == q.(loop := Ready, delivered := q.delivered + [q.loop.v]))
      || (q.loop.Blocked? && !q.open && n == q.(loop := Ready))
    ensures Queues(n) && (Fine(q) ==> Fine(n))
  {
    assert TakenOps(n) == TakenOps(q);
    if q.open {
      assert n.delivered + [] == n.delivered;
      if Fine(q) { FineHeld(q, n); }
    }
  }

  lemma FineClose(q: QueryWatch, n: QueryWatch)
    requires Queues(q) && q.loop.Closing? && (n == q.(open := false) || n == q.(open := false, loop := Ready))
    ensures Queues(n) && (Fine(q) ==> Fine(n))
  {
    assert TakenOps(n) == TakenOps(q);
    assert q.delivered + [] == q.delivered;
  }

  lemma FinePut(q: QueryWatch, op: Op)
    requires Queues(q)
    ensures Queues(Put(q, op)) && (Fine(q) ==> Fine(Put(q, op)))
  {
    PutOps(q, op);
  }

  lemma FineMoved(q: QueryWatch, n: QueryWatch)
    requires Queues(q) && Moved(q, n)
    ensures Queues(n) && (Fine(q) ==> Fine(n))
    ensures q.queued <= n.queued && q.delivered <= n.delivered
  {
    if n == q.(closeRequests := n.closeRequests) {
      assert TakenOps(n) == TakenOps(q);
    } else if op :| n == Put(q, op) {
      FinePut(q, op);
    } else if q.loop.Ready? {
      TakeOps(q);
      if Fine(q) { FineTake(q); }
    } else if q.loop.Closing? {
      FineClose(q, n);
    } else {
      FineLoop(q, n);
    }
  }

  predicate SameKey(q: QueryWatch, n: QueryWatch) {
    n.path == q.path && n.query == q.query
  }

  /** A closure that query `a.id` runs and that finds query `id` in the registry. */
  predicate Foreign(r: Registry, a: Action, id: nat) {
    && a.ClosureStart? && a.id != id && a.id < |r.qs| && r.qs[a.id].loop.Closing?
    && Lookup(r.paths, r.qs[a.id].loop.path, r.qs[a.id].loop.query) == Some(id)
  }

  lemma UnregisterAt(r: Registry, p: string, q: string, id: nat)
    requires p in r.paths && id < |r.qs|
    ensures var t := Unregister(r, p, q);
            |t.qs| == |r.qs|
            && t.qs[id] == if Lookup(r.paths, p, q) == Some(id) then r.qs[id].(open := false) else r.qs[id]
  {
  }

  /** What a closure run by query `k` does to query `id`. */
  lemma ClosureEffect(r: Registry, k: nat, id: nat)
    requires Enabled(r, ClosureStart(k)) && id < |r.qs|
    requires var p, q := r.qs[k].loop.path, r.qs[k].loop.query;
             RunsClosure(if p in r.paths then Unregister(r, p, q) else r, k)
    ensures |CloseQuery(r, k).qs| == |r.qs|
    ensures var q, n := r.qs[id], CloseQuery(r, k).qs[id];
            if id == k then n == q.(open := false) || n == q.(open := false, loop := Ready)
            else n == if Foreign(r, ClosureStart(k), id) then q.(open := false) else q
  {
    var p, q := r.qs[k].loop.path, r.qs[k].loop.query;
    if p in r.paths { UnregisterAt(r, p, q, id); }
  }

  lemma ClosureMoves(r: Registry, k: nat, id: nat)
    requires Inv(r) && Enabled(r, ClosureStart(k)) && id < |r.qs|
    ensures |CloseQuery(r, k).qs| == |r.qs|
    ensures var n := CloseQuery(r, k).qs[id];
            if Foreign(r, ClosureStart(k), id) then n == r.qs[id].(open := false) else Moved(r.qs[id], n)
  {
    ClosedItself(r, k);
    ClosureEffect(r, k, id);
  }

  /** The moves of opLoop and the sends, on the query they are for. */
  lemma OwnMoves(r: Registry, a: Action, id: nat)
    requires Enabled(r, a) && id < |r.qs|
    requires a == SetSend(id) || a == Take(id) || a == EvalChan(id) || a == Deliver(id) || a == Recover(id)
    ensures Do(r, a).qs == r.qs[id := Do(r, a).qs[id]] && Moved(r.qs[id], Do(r, a).qs[id])
  {
  }

  predicate OnOne(a: Action) {
    a.SetSend? || a.Take? || a.EvalChan? || a.Deliver? || a.Recover?
  }

  lemma RestMoves(r: Registry, a: Action, id: nat)
    requires MutexOk(r) && Enabled(r, a) && id < |r.qs| && !OnOne(a) && !a.ClosureStart?
    ensures |r.qs| <= |Do(r, a).qs| && Moved(r.qs[id], Do(r, a).qs[id])
  {
    match a
    case CloseSend => assert r.mu.id < |r.qs|;
    case ClosureEnd => assert RunsClosure(r, r.mu.id);
    case _ =>
  }

  lemma MovedKey(q: QueryWatch, n: QueryWatch)
    requires Moved(q, n)
    ensures SameKey(q, n) && n.closeRequests >= q.closeRequests
  {
  }

  lemma Moves(r: Registry, a: Action, id: nat)
    requires Inv(r) && Enabled(r, a) && id < |r.qs|
    ensures |r.qs| <= |Do(r, a).qs|
    ensures var n := Do(r, a).qs[id];
            if Foreign(r, a, id) then n == r.qs[id].(open := false) else Moved(r.qs[id], n)
  {
    if a.ClosureStart? {
      ClosureMoves(r, a.id, id);
    } else if OnOne(a) {
      OwnMoves(r, a, a.id);
      assert a.id != id ==> Do(r, a).qs[id] == r.qs[id];
    } else {
      RestMoves(r, a, id);
    }
  }

  /** Only a registered query is sent to, and a closed one is none. */
  lemma ClosedIsFrozen(r: Registry, a: Action, id: nat)
    requires Inv(r) && Enabled(r, a) && id < |r.qs| && !r.qs[id].open
    ensures |r.qs| <= |Do(r, a).qs|
    ensures var n := Do(r, a).qs[id];
            !n.open && n.delivered == r.qs[id].delivered && n.queued == r.qs[id].queued
  {
    NeverReopened(r, a, id);
    if a.SetSend? {
      SetSendOpen(r, a.id);
    } else {
      QueuedFrame(r, a, id);
    }
  }

  lemma SetSendOpen(r: Registry, id: nat)
    requires Listed(r.paths, r.qs) && MutexOk(r) && Enabled(r, SetSend(id))
    ensures r.qs[id].open
  {
  }

  lemma QueuedFrame(r: Registry, a: Action, id: nat)
    requires MutexOk(r) && Enabled(r, a) && id < |r.qs| && !a.SetSend?
    ensures |r.qs| <= |Do(r, a).qs|
    ensures !(a.CloseSend? && id == r.mu.id) ==> Do(r, a).qs[id].queued == r.qs[id].queued
    ensures a.CloseSend? ==> r.qs[r.mu.id].open
  {
  }

  /** A step that registers a query finds its key free. */
  lemma NewKey(r: Registry, a: Action)
    requires MutexOk(r) && Enabled(r, a) && |Do(r, a).qs| > |r.qs|
    ensures |Do(r, a).qs| == |r.qs| + 1
    ensures var n := Do(r, a).qs[|r.qs|];
            && Lookup(r.paths, n.path, n.query) == None
            && n.queued == n.operChan == [] && n.delivered == [] && n.open && n.loop.Ready? && n.closeRequests == 0
  {
  }

  lemma NewFine(q: QueryWatch)
    requires q.queued == q.operChan == [] && q.delivered == [] && q.open && q.loop.Ready?
    ensures Queues(q) && Fine(q)
  {
  }

  /** A query whose channel is open is the only registration of its key that is. */
  lemma OpenIsOnly(r: Registry, id: nat, k: nat)
    requires QueriesOk(r) && id < |r.qs| && k < |r.qs| && SameKey(r.qs[id], r.qs[k])
    requires r.qs[id].open && r.qs[k].open
    ensures id == k
  {
    assert QueryOk(r.qs[id], id, r.paths, Awaiting(r, id)) && QueryOk(r.qs[k], k, r.paths, Awaiting(r, k));
  }

  /** A closure that finds another query comes from a closed registration of the same key. */
  lemma ForeignIsEarlier(r: Registry, a: Action, id: nat)
    requires Inv(r) && Foreign(r, a, id)
    ensures id < |r.qs| && r.qs[id].open && !r.qs[a.id].open && SameKey(r.qs[id], r.qs[a.id])
  {
    var k := r.qs[a.id];
    assert QueryOk(k, a.id, r.paths, Awaiting(r, a.id));
    assert r.paths[k.path].queries[k.query] == id;
  }
}
