/** A run of the whole pipeline in which setVal waits for ever although no closure runs: the
    parent context ends, the chanGroup stops reading, and the queue of its query fills up. */
module PipelineStuck {
  import opened Sequences
  import FanOut
  import Blocking
  import Rollover
  import opened EndToEnd
  import opened PipelineWaits

  /** One path with one query; nothing is going on. */
  predicate Watching(s: State, p: string, q: string) {
    && s.strat.run.Selecting? && s.strat.events == [] && s.strat.reg.mu.Free?
    && p in s.strat.reg.paths && s.strat.reg.paths[p].queries == map[q := 0]
    && |Queries(s)| == 1 && |s.groups| == 1
  }

  /** The query has a value in hand and its chanGroup has terminated. */
  predicate Abandoned(s: State, p: string, q: string) {
    && Watching(s, p, q) && Queries(s)[0].open && Queries(s)[0].loop.Checked? && s.groups[0].pc.Terminated?
  }

  /** A step of the strategy that makes no query. */
  lemma Moves(s: State, t: State, b: Strategy.Action) returns (u: State)
    requires Leads(s, t) && |t.groups| == 1 && |Queries(t)| == 1 && !(b.Fan? && b.a.Deliver?)
    requires Strategy.Enabled(t.strat, b) && |Strategy.Do(t.strat, b).reg.qs| == 1
    ensures Leads(s, u) && u == State(Strategy.Do(t.strat, b), t.groups)
  {
    LeadsStep(s, t, Strat(b, t.groups[0].cfg));
    u := Do(t, Strat(b, t.groups[0].cfg));
  }

  /** runLoop takes a write event of the path and removes the path from the watcher. */
  lemma TakesEvent(s: State, t: State, p: string) returns (u: State)
    requires Leads(s, t) && |t.groups| == 1 && |Queries(t)| == 1
    requires t.strat.run.Selecting? && t.strat.events == []
    ensures Leads(s, u) && u.groups == t.groups && u.strat.reg == t.strat.reg && u.strat.events == []
    ensures u.strat.run == Strategy.AtRead(p, Strategy.ToSelect)
  {
    u := Moves(s, t, Strategy.FileEvent(Strategy.Event(p, true, false)));
    u := Moves(s, u, Strategy.TakeEvent);
    u := Moves(s, u, Strategy.ResyncRemove(true, false));
  }

  /** It reads the value and adds the path again. */
  lemma ReadsValue(s: State, t: State, p: string, v: string) returns (u: State)
    requires Leads(s, t) && |t.groups| == 1 && |Queries(t)| == 1
    requires t.strat.run == Strategy.AtRead(p, Strategy.ToSelect)
    ensures Leads(s, u) && u.groups == t.groups && u.strat.reg == t.strat.reg && u.strat.events == t.strat.events
    ensures u.strat.run == Strategy.AtSetVal(p, v, Strategy.ToSelect)
  {
    u := Moves(s, t, Strategy.ResyncRead(Some(v)));
    u := Moves(s, u, Strategy.ResyncAdd(true));
  }

  /** It takes the mutex and assigns the value. */
  lemma EntersSetVal(s: State, t: State, p: string, q: string, v: string) returns (u: State)
    requires Leads(s, t) && Watching(t, p, q)
    ensures Leads(s, u) && u.groups == t.groups && u.strat.run == Strategy.InSetVal(Strategy.ToSelect)
    ensures u.strat.events == [] && u.strat.reg == FanOut.Do(t.strat.reg, FanOut.SetStart(p, v))
    ensures u.strat.reg.mu == FanOut.Setting(p, v, {0}) && Queries(u) == Queries(t)
    ensures p in u.strat.reg.paths && u.strat.reg.paths[p].queries == map[q := 0]
  {
    OnlyTodo(t.strat.reg, p, q);
    u := TakesEvent(s, t, p);
    u := ReadsValue(s, u, p, v);
    u := Moves(s, u, Strategy.LockForSet);
  }

  lemma OnlyTodo(r: FanOut.Registry, p: string, q: string)
    requires p in r.paths && r.paths[p].queries == map[q := 0]
    ensures r.paths[p].queries.Values == {0}
  {
    assert r.paths[p].queries[q] == 0;
  }

  /** It sends the value to the only query and gives up the mutex. */
  lemma LeavesSetVal(s: State, t: State, p: string, q: string, v: string) returns (u: State)
    requires Leads(s, t) && |t.groups| == 1 && |Queries(t)| == 1 && |Queries(t)[0].operChan| < FanOut.CAPACITY
    requires t.strat.run == Strategy.InSetVal(Strategy.ToSelect) && t.strat.events == []
    requires t.strat.reg.mu == FanOut.Setting(p, v, {0})
    requires p in t.strat.reg.paths && t.strat.reg.paths[p].queries == map[q := 0]
    ensures Leads(s, u) && Watching(u, p, q) && u.groups == t.groups
    ensures Queries(u)[0] == FanOut.Put(Queries(t)[0], FanOut.Send(v))
  {
    u := Moves(s, t, Strategy.Fan(FanOut.SetSend(0), false));
    u := Moves(s, u, Strategy.UnlockAfterSet);
  }

  /** One more value goes into the queue. */
  lemma OneMore(s: State, t: State, p: string, q: string, v: string) returns (u: State)
    requires Leads(s, t) && Watching(t, p, q) && |Queries(t)[0].operChan| < FanOut.CAPACITY
    ensures Leads(s, u) && Watching(u, p, q) && u.groups == t.groups
    ensures Queries(u)[0] == FanOut.Put(Queries(t)[0], FanOut.Send(v))
  {
    u := EntersSetVal(s, t, p, q, v);
    u := LeavesSetVal(s, u, p, q, v);
  }

  lemma {:induction false} Fill(s: State, t: State, p: string, q: string, v: string) returns (u: State)
    requires Leads(s, t) && Abandoned(t, p, q) && |Queries(t)[0].operChan| <= FanOut.CAPACITY
    ensures Leads(s, u) && Abandoned(u, p, q) && |Queries(u)[0].operChan| == FanOut.CAPACITY
    decreases FanOut.CAPACITY - |Queries(t)[0].operChan|
  {
    u := t;
    if |Queries(t)[0].operChan| < FanOut.CAPACITY {
      u := OneMore(s, t, p, q, v);
      u := Fill(s, u, p, q, v);
    }
  }

  lemma Registers(cfg: Rollover.Config, p: string, q: string, v: string) returns (u: State)
    ensures Leads(Init(), u) && Watching(u, p, q) && u.groups[0].pc.Idle?
    ensures Queries(u)[0] == FanOut.NewQuery(FanOut.PathWatch(v, map[], [v]), p, q)
  {
    var s := Init();
    assert Exec(s, []) == Some(s);
    var a := Strat(Strategy.Fan(FanOut.WatchAdded(p, q), false), cfg);
    LeadsStep(s, s, a);
    u := Do(s, a);
    var b := Strat(Strategy.Fan(FanOut.WatchRead(v), false), cfg);
    LeadsStep(s, u, b);
    u := Do(u, b);
  }

  /** The parent context ends, and runLoop of the chanGroup with it. */
  lemma Terminates(s: State, t: State) returns (u: State)
    requires Leads(s, t) && |t.groups| == 1 && t.groups[0].pc.Idle?
    ensures Leads(s, u) && u.strat == t.strat && |u.groups| == 1 && u.groups[0].pc.Terminated?
  {
    LeadsStep(s, t, Group(0, Rollover.CancelParent));
    u := Do(t, Group(0, Rollover.CancelParent));
    LeadsStep(s, u, Group(0, Rollover.ObserveParentDone));
    u := Do(u, Group(0, Rollover.ObserveParentDone));
  }

  lemma FillsUp(cfg: Rollover.Config, p: string, q: string, v: string) returns (t: State)
    ensures Leads(Init(), t) && Abandoned(t, p, q) && |Queries(t)[0].operChan| == FanOut.CAPACITY
  {
    var s := Init();
    t := Registers(cfg, p, q, v);
    t := Terminates(s, t);
    t := TakesFirst(s, t, p, q, v);
    t := Fill(s, t, p, q, v);
  }

  /** opLoop takes the first new value, which nobody will read. */
  lemma TakesFirst(s: State, t: State, p: string, q: string, v: string) returns (u: State)
    requires Leads(s, t) && Watching(t, p, q) && t.groups[0].pc.Terminated?
    requires Queries(t)[0].open && Queries(t)[0].loop.Ready? && Queries(t)[0].operChan == []
    ensures Leads(s, u) && Abandoned(u, p, q) && Queries(u)[0].operChan == []
  {
    u := OneMore(s, t, p, q, v);
    u := Moves(s, u, Strategy.Fan(FanOut.Take(0), false));
  }

  /** In a reachable state setVal waits for a query that runs no closure, and cannot go on. */
  lemma SomeWaitIsHopeless(cfg: Rollover.Config, p: string, q: string, v: string)
    ensures exists s: State ::
      Reachable(s) && |s.groups| == 1 && Waits(s, 0) && !Queries(s)[0].loop.Closing? && !CanGoOn(s, 0)
  {
    var t := FillsUp(cfg, p, q, v);
    var u := EntersSetVal(Init(), t, p, q, v);
    assert Hopeless(u, 0);
    CannotGoOn(u, 0);
  }
}
