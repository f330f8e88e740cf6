/** fsnotify/filewatcher.go: what the strategy's event loop makes of an event and of a tick,
    run by run.  `ok` answers of the watcher's Remove and Add, and what the file holds, are
    given; `dropped` says whether Remove had an effect. */
module EventLoop {
  import opened Sequences
  import FanOut
  import opened WatchCoverage

  lemma One(s: State, a: Action)
    requires Enabled(s, a)
    ensures Exec(s, [a]) == Some(Do(s, a))
  {
    assert [a][..0] == [];
    assert Exec(s, []) == Some(s);
  }

  lemma Snoc(s: State, acts: seq<Action>, a: Action)
    requires Exec(s, acts).Some? && Enabled(Exec(s, acts).value, a)
    ensures Exec(s, acts + [a]) == Some(Do(Exec(s, acts).value, a))
  {
    assert (acts + [a])[..|acts|] == acts;
  }

  /** An event that is neither a write nor a remove is dropped. */
  lemma OtherEventsAreDropped(s: State)
    requires s.run.Selecting? && s.events != [] && !s.events[0].write && !s.events[0].remove
    ensures Enabled(s, TakeEvent) && Do(s, TakeEvent) == s.(events := s.events[1..])
  {
  }

  /** A write or a remove starts a resync of its path. */
  lemma EventStartsResync(s: State)
    requires s.run.Selecting? && s.events != [] && (s.events[0].write || s.events[0].remove)
    ensures Enabled(s, TakeEvent)
    ensures Do(s, TakeEvent) == s.(events := s.events[1..], run := AtRemove(s.events[0].path, ToSelect))
  {
  }

  /** A tick starts a sweep that visits exactly the failed paths, in any order. */
  lemma TickSweepsFailed(s: State, p: string)
    requires s.run.Selecting?
    ensures Enabled(s, Tick)
    ensures Enabled(Do(s, Tick), Pick(p)) <==> p in s.failed
    ensures p in s.failed ==>
      Do(Do(s, Tick), Pick(p)) == s.(run := AtRemove(p, ToSweep(s.failed - {p}, {})))
  {
  }

  /** The state when setVal has been entered for a path that was resynced. */
  predicate Entered(s: State, t: State, p: string, v: string) {
    && p in t.watched && t.failed == s.failed && t.reg.qs == s.reg.qs
    && if p in s.reg.paths then
         && p in t.reg.paths && t.reg.paths[p].value == v && t.reg.paths[p].queries == s.reg.paths[p].queries
         && t.reg.paths[p].history == s.reg.paths[p].history + [v]
         && t.reg.mu == FanOut.Setting(p, v, s.reg.paths[p].queries.Values) && t.run.InSetVal?
       else t.reg == s.reg && !t.run.InSetVal?
  }

  /** A resync that succeeds puts the path into the watcher, gives a registered path the
      value that was read, and sets out to send it to all its queries. */
  lemma ResyncSucceeds(s: State, p: string, next: Resume, dropped: bool, v: string) returns (t: State)
    requires s.run == AtRemove(p, next) && s.reg.mu.Free?
    ensures Exec(s, [ResyncRemove(true, dropped), ResyncRead(Some(v)), ResyncAdd(true), LockForSet]) == Some(t)
    ensures Entered(s, t, p, v) && t.events == s.events
    ensures var back := if next.ToSweep? then ToSweep(next.todo, next.fixed + {p}) else ToSelect;
            t.run == if p in s.reg.paths then InSetVal(back)
                     else if next.ToSweep? then Sweeping(next.todo, next.fixed + {p}) else Selecting
  {
    var acts := [ResyncRemove(true, dropped)];
    One(s, acts[0]);
    Snoc(s, acts, ResyncRead(Some(v)));
    acts := acts + [ResyncRead(Some(v))];
    Snoc(s, acts, ResyncAdd(true));
    acts := acts + [ResyncAdd(true)];
    Snoc(s, acts, LockForSet);
    acts := acts + [LockForSet];
    assert acts == [ResyncRemove(true, dropped), ResyncRead(Some(v)), ResyncAdd(true), LockForSet];
    t := Exec(s, acts).value;
  }

  lemma Append(s: State, t: State, a: seq<Action>, b: seq<Action>)
    requires Exec(s, a) == Some(t)
    ensures Exec(s, a + b) == Exec(t, b)
  {
    if b == [] {
      assert a + b == a;
    } else {
      Append(s, t, a, b[..|b| - 1]);
      assert (a + b)[..|a + b| - 1] == a + b[..|b| - 1];
    }
  }

  /** A changed file: a write or remove event of a path at the head of the queue leads to
      its new value being assigned and sent out. */
  lemma EventReachesSetVal(s: State, dropped: bool, v: string) returns (t: State)
    requires s.run.Selecting? && s.reg.mu.Free?
    requires s.events != [] && (s.events[0].write || s.events[0].remove)
    ensures Exec(s, [TakeEvent, ResyncRemove(true, dropped), ResyncRead(Some(v)), ResyncAdd(true), LockForSet])
         == Some(t)
    ensures Entered(s, t, s.events[0].path, v) && t.events == s.events[1..]
    ensures t.run == if s.events[0].path in s.reg.paths then InSetVal(ToSelect) else Selecting
  {
    EventStartsResync(s);
    One(s, TakeEvent);
    var rest := [ResyncRemove(true, dropped), ResyncRead(Some(v)), ResyncAdd(true), LockForSet];
    t := ResyncSucceeds(Do(s, TakeEvent), s.events[0].path, ToSelect, dropped, v);
    Append(s, Do(s, TakeEvent), [TakeEvent], rest);
    assert [TakeEvent] + rest
        == [TakeEvent, ResyncRemove(true, dropped), ResyncRead(Some(v)), ResyncAdd(true), LockForSet];
  }

  /** A failed path is tried again at a tick, and its value assigned and sent out too. */
  lemma TickRetriesFailed(s: State, p: string, dropped: bool, v: string) returns (t: State)
    requires s.run.Selecting? && s.reg.mu.Free? && p in s.failed
    ensures Exec(s, [Tick, Pick(p), ResyncRemove(true, dropped), ResyncRead(Some(v)), ResyncAdd(true), LockForSet])
         == Some(t)
    ensures Entered(s, t, p, v) && t.events == s.events
    ensures t.run == if p in s.reg.paths then InSetVal(ToSweep(s.failed - {p}, {p}))
                     else Sweeping(s.failed - {p}, {p})
  {
    TickSweepsFailed(s, p);
    One(s, Tick);
    Snoc(s, [Tick], Pick(p));
    var rest := [ResyncRemove(true, dropped), ResyncRead(Some(v)), ResyncAdd(true), LockForSet];
    var u := Do(Do(s, Tick), Pick(p));
    t := ResyncSucceeds(u, p, ToSweep(s.failed - {p}, {}), dropped, v);
    Append(s, u, [Tick] + [Pick(p)], rest);
    assert [Tick] + [Pick(p)] + rest
        == [Tick, Pick(p), ResyncRemove(true, dropped), ResyncRead(Some(v)), ResyncAdd(true), LockForSet];
    assert {} + {p} == {p};
  }

  /** When all queries have been served, setVal gives up the mutex and the loop goes on. */
  lemma SetValReturns(s: State, next: Resume)
    requires s.run == InSetVal(next) && s.reg.mu.Setting? && s.reg.mu.todo == {}
    ensures Enabled(s, UnlockAfterSet)
    ensures var t := Do(s, UnlockAfterSet);
            && t == s.(reg := s.reg.(mu := FanOut.Free), run := t.run)
            && t.run == if next.ToSelect? then Selecting else Sweeping(next.todo, next.fixed)
  {
  }

  /** A sweep ends when it has visited all; exactly the repaired paths stop being failed. */
  lemma SweepEnds(s: State, todo: set<string>, fixed: set<string>)
    requires s.run == Sweeping(todo, fixed)
    ensures Enabled(s, EndSweep) <==> todo == {}
    ensures todo == {} ==> Do(s, EndSweep) == s.(failed := s.failed - fixed, run := Selecting)
  {
  }

  /** Where a resync can fail: at Remove, at the read, or at Add. */
  lemma ResyncFails(s: State, a: Action)
    requires (s.run.AtRemove? && a.ResyncRemove? && !a.ok) || (s.run.AtRead? && a == ResyncRead(None))
             || (s.run.AtAdd? && a == ResyncAdd(false))
    ensures Enabled(s, a)
    ensures var t, next, p := Do(s, a), s.run.next, s.run.path;
            && t.reg == s.reg && t.events == s.events
            && if next.ToSelect? then t.run == Selecting && t.failed == s.failed + {p}
               else t.run == Sweeping(next.todo, next.fixed) && t.failed == s.failed
  {
  }

  /** A Watch whose file cannot be read is undone: the registry is as before, and the path
      is not in the watcher. */
  lemma FailedWatchIsUndone(s: State, p: string, q: string) returns (t: State)
    requires s.reg.mu.Free? && p !in s.reg.paths
    ensures Exec(s, [Fan(FanOut.WatchAdded(p, q), false), Fan(FanOut.WatchFailed, true)]) == Some(t)
    ensures t == s.(watched := s.watched - {p})
  {
    var a, b := Fan(FanOut.WatchAdded(p, q), false), Fan(FanOut.WatchFailed, true);
    One(s, a);
    Snoc(s, [a], b);
    assert [a] + [b] == [a, b];
    t := Do(Do(s, a), b);
    assert s.watched + {p} - {p} == s.watched - {p};
  }

  /** An emptied path leaves the watcher and then the registry, and the mutex is free. */
  lemma EmptiedPathLeaves(s: State) returns (t: State)
    requires s.reg.mu.Emptied? && s.reg.mu.id < |s.reg.qs|
    ensures Exec(s, [Fan(FanOut.ClosureUnwatch, true), Fan(FanOut.ClosureEnd, false)]) == Some(t)
    ensures t.reg.mu.Free? && t.reg.paths == s.reg.paths - {s.reg.mu.path} && t.watched == s.watched - {s.reg.mu.path}
    ensures |t.reg.qs| == |s.reg.qs| && t.reg.qs[s.reg.mu.id].loop.Ready?
  {
    var a, b := Fan(FanOut.ClosureUnwatch, true), Fan(FanOut.ClosureEnd, false);
    One(s, a);
    Snoc(s, [a], b);
    assert [a] + [b] == [a, b];
    t := Do(Do(s, a), b);
  }
}
