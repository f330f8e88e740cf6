/** Waiting for room in a queue when the consumers are chanGroups, which read only while
    their runLoop waits: exactly when such a wait can end in the whole pipeline. */
module PipelineWaits {
  import opened Sequences
  import FanOut
  import FanOutInvariant
  import Blocking
  import Rollover
  import RolloverInvariant
  import RolloverTheorems
  import opened EndToEnd

  predicate Waits(s: State, id: nat) {
    Blocking.Waits(s.strat.reg, id)
  }

  /** `t` can be reached from `s`. */
  ghost predicate Leads(s: State, t: State) {
    exists acts: seq<Action> :: Exec(s, acts) == Some(t)
  }

  /** Some run makes room while the holder of Strategy.mu keeps waiting. */
  ghost predicate CanGoOn(s: State, id: nat) {
    exists t: State ::
      Leads(s, t) && t.strat.reg.mu == s.strat.reg.mu
      && FanOut.Enabled(t.strat.reg, Blocking.SendTo(s.strat.reg, id))
  }

  /** The query does not wait for anybody, or for a chanGroup that will read. */
  predicate Served(s: State, id: nat)
    requires id < |Queries(s)| && id < |s.groups|
  {
    var loop := Queries(s)[id].loop;
    loop.Ready? || ((loop.Checked? || loop.Blocked?) && !s.groups[id].pc.Terminated?)
  }

  // ---- A wait that cannot end ----

  /** The query is open, and waits for the mutex or for a chanGroup that has terminated. */
  predicate Hopeless(s: State, id: nat) {
    && Waits(s, id) && id < |s.groups|
    && var q := Queries(s)[id];
       q.loop.Closing? || (q.open && (q.loop.Checked? || q.loop.Blocked?) && s.groups[id].pc.Terminated?)
  }

  lemma FanKeeps(r: FanOut.Registry, a: FanOut.Action, id: nat)
    requires Blocking.Waits(r, id) && FanOut.Enabled(r, a) && a != FanOut.Deliver(id)
    requires r.qs[id].open && (r.qs[id].loop.Checked? || r.qs[id].loop.Blocked?)
    ensures var t := FanOut.Do(r, a);
            Blocking.Waits(t, id) && t.qs[id].open && (t.qs[id].loop.Checked? || t.qs[id].loop.Blocked?)
  {
  }

  lemma FanHopeless(r: FanOut.Registry, a: FanOut.Action, id: nat)
    requires Blocking.Waits(r, id) && FanOut.Enabled(r, a)
    requires r.qs[id].loop.Closing?
             || (r.qs[id].open && (r.qs[id].loop.Checked? || r.qs[id].loop.Blocked?) && a != FanOut.Deliver(id))
    ensures var t := FanOut.Do(r, a);
            Blocking.Waits(t, id)
            && if r.qs[id].loop.Closing? then t.qs[id].loop.Closing?
               else t.qs[id].open && (t.qs[id].loop.Checked? || t.qs[id].loop.Blocked?)
  {
    if r.qs[id].loop.Closing? { Blocking.StuckStep(r, a, id); } else { FanKeeps(r, a, id); }
  }

  lemma TerminatedStays(g: Rollover.State, b: Rollover.Action)
    requires g.pc.Terminated? && Rollover.Enabled(g, b)
    ensures Rollover.Do(g, b).pc.Terminated?
  {
  }

  lemma StratHopeless(s: State, b: Strategy.Action, cfg: Rollover.Config, id: nat)
    requires Hopeless(s, id) && Enabled(s, Strat(b, cfg))
    ensures Hopeless(Do(s, Strat(b, cfg)), id)
  {
    if b.Fan? { FanHopeless(s.strat.reg, b.a, id); }
  }

  lemma HopelessStep(s: State, a: Action, id: nat)
    requires Hopeless(s, id) && Enabled(s, a)
    ensures Hopeless(Do(s, a), id)
  {
    match a
    case Strat(b, cfg) => StratHopeless(s, b, cfg, id);
    case Deliver(k) => FanHopeless(s.strat.reg, FanOut.Deliver(k), id);
    case Group(k, b) => if s.groups[id].pc.Terminated? && k == id { TerminatedStays(s.groups[id], b); }
    case ChannelClosed(k) =>
  }

  lemma {:induction false} HopelessForEver(s: State, acts: seq<Action>, id: nat)
    requires Hopeless(s, id) && Exec(s, acts).Some?
    ensures Hopeless(Exec(s, acts).value, id)
  {
    if acts != [] {
      HopelessForEver(s, acts[..|acts| - 1], id);
      HopelessStep(Exec(s, acts[..|acts| - 1]).value, acts[|acts| - 1], id);
    }
  }

  // ---- A wait that can end ----

  lemma LeadsStep(s: State, t: State, a: Action)
    requires Leads(s, t) && Enabled(t, a)
    ensures Leads(s, Do(t, a))
  {
    var acts: seq<Action> :| Exec(s, acts) == Some(t);
    assert (acts + [a])[..|acts|] == acts;
    assert Exec(s, acts + [a]) == Some(Do(t, a));
  }

  /** One step of a chanGroup's thread: it gets nearer to its select. */
  lemma LoopStep(s: State, id: nat)
    requires Inv(s) && id < |s.groups| && !s.groups[id].pc.Idle? && !s.groups[id].pc.Terminated?
    ensures Enabled(s, Group(id, Rollover.Loop))
    ensures var t, g := Do(s, Group(id, Rollover.Loop)), Rollover.LoopStep(s.groups[id]);
            Inv(t) && t.strat == s.strat && t.groups == s.groups[id := g]
            && (g.pc.Idle? || (g.pc.Busy? && (s.groups[id].pc.Busy? ==>
                                 RolloverTheorems.Work(g) < RolloverTheorems.Work(s.groups[id]))))
  {
    var g := s.groups[id];
    assert Linked(Queries(s)[id], g);
    RolloverInvariant.ReachableInv(g.cfg, Queries(s)[id].initial, g);
    if g.pc.Busy? { RolloverTheorems.WorkStep(g, Rollover.Loop); }
    StepInv(s, Group(id, Rollover.Loop));
  }

  /** A chanGroup that has not terminated comes back to its select. */
  lemma {:induction false} ToSelect(s: State, t: State, id: nat) returns (u: State)
    requires Leads(s, t) && Inv(t) && id < |t.groups| && !t.groups[id].pc.Terminated?
    ensures Leads(s, u) && Inv(u) && u.strat == t.strat && |u.groups| == |t.groups| && u.groups[id].pc.Idle?
    decreases t.groups[id].pc.Received?, RolloverTheorems.Work(t.groups[id])
  {
    u := t;
    if !t.groups[id].pc.Idle? {
      LoopStep(t, id);
      LeadsStep(s, t, Group(id, Rollover.Loop));
      u := ToSelect(s, Do(t, Group(id, Rollover.Loop)), id);
    }
  }

  /** The query waited for is as it is while the holder of the mutex waits. */
  predicate Full(s: State, id: nat) {
    && Waits(s, id) && id < |s.groups|
    && Queries(s)[id].open && |Queries(s)[id].operChan| == FanOut.CAPACITY
  }

  function OwnMove(s: State, id: nat, b: FanOut.Action): Action
    requires id < |s.groups|
  {
    Strat(Strategy.Fan(b, false), s.groups[id].cfg)
  }

  lemma TakeMove(s: State, id: nat)
    requires Full(s, id) && Queries(s)[id].loop.Ready?
    ensures var a := OwnMove(s, id, FanOut.Take(id));
            && Enabled(s, a) && Do(s, a).strat.reg.mu == s.strat.reg.mu
            && FanOut.Enabled(Do(s, a).strat.reg, Blocking.SendTo(s.strat.reg, id))
  {
    Blocking.Took(s.strat.reg, id);
  }

  lemma EvalMove(s: State, id: nat)
    requires Full(s, id) && Queries(s)[id].loop.Checked?
    ensures var a := OwnMove(s, id, FanOut.EvalChan(id));
            && Enabled(s, a) && Do(s, a).strat.reg.mu == s.strat.reg.mu && Full(Do(s, a), id)
            && Do(s, a).groups == s.groups && Queries(Do(s, a))[id].loop.Blocked?
  {
    Blocking.Handed(s.strat.reg, id);
  }

  lemma DeliverMove(s: State, id: nat)
    requires Full(s, id) && Queries(s)[id].loop.Blocked? && s.groups[id].pc.Idle?
    ensures Enabled(s, Deliver(id))
    ensures var t := Do(s, Deliver(id));
            t.strat.reg.mu == s.strat.reg.mu && Full(t, id) && Queries(t)[id].loop.Ready?
  {
    Blocking.Handed(s.strat.reg, id);
  }

  /** The query's own moves make room, and the chanGroup reads the value in hand. */
  lemma {:induction false} MakeRoom(s: State, t: State, id: nat) returns (u: State)
    requires Leads(s, t) && Inv(t) && Full(t, id) && id < |Queries(t)| && Served(t, id)
    ensures Leads(s, u) && u.strat.reg.mu == t.strat.reg.mu
    ensures FanOut.Enabled(u.strat.reg, Blocking.SendTo(t.strat.reg, id))
    decreases if Queries(t)[id].loop.Checked? then 2 else if Queries(t)[id].loop.Blocked? then 1 else 0
  {
    if Queries(t)[id].loop.Ready? {
      TakeMove(t, id);
      LeadsStep(s, t, OwnMove(t, id, FanOut.Take(id)));
      u := Do(t, OwnMove(t, id, FanOut.Take(id)));
    } else if Queries(t)[id].loop.Checked? {
      EvalMove(t, id);
      LeadsStep(s, t, OwnMove(t, id, FanOut.EvalChan(id)));
      StepInv(t, OwnMove(t, id, FanOut.EvalChan(id)));
      u := MakeRoom(s, Do(t, OwnMove(t, id, FanOut.EvalChan(id))), id);
    } else {
      var w := ToSelect(s, t, id);
      DeliverMove(w, id);
      LeadsStep(s, w, Deliver(id));
      StepInv(w, Deliver(id));
      u := MakeRoom(s, Do(w, Deliver(id)), id);
    }
  }

  /** In the whole pipeline a setVal or a CloseWatch that waits for room can go on if and
      only if the query it waits for is in its select, or has a value in hand and its
      chanGroup has not terminated. */
  lemma WaitEndsExactly(s: State, id: nat)
    requires Reachable(s) && Waits(s, id) && id < |s.groups|
    ensures id < |Queries(s)| && (CanGoOn(s, id) <==> Served(s, id))
  {
    var acts: seq<Action> :| Exec(Init(), acts) == Some(s);
    ExecInv(acts);
    HalvesAreReachable(s, id);
    FanOutInvariant.ReachableInv(s.strat.reg);
    Blocking.WaitedForIsOpen(s.strat.reg, id);
    Blocking.OpenNeverHangs(s.strat.reg, id);
    if Served(s, id) {
      assert Exec(s, []) == Some(s);
      var u := MakeRoom(s, s, id);
    } else {
      CannotGoOn(s, id);
    }
  }

  lemma CannotGoOn(s: State, id: nat)
    requires Hopeless(s, id)
    ensures !CanGoOn(s, id)
  {
    forall t: State | Leads(s, t) && t.strat.reg.mu == s.strat.reg.mu
      ensures !FanOut.Enabled(t.strat.reg, Blocking.SendTo(s.strat.reg, id))
    {
      var acts: seq<Action> :| Exec(s, acts) == Some(t);
      HopelessForEver(s, acts, id);
    }
  }
}
