/** The whole pipeline: the fsnotify strategy with its event loop (module WatchCoverage, over
    module FanOut) feeding one chanGroup for each query (module Rollover).

    hdriver.Open registers a query with Watch and makes its chanGroup from the value that
    Watch returned; that chanGroup is the only reader of the query's update channel, which
    is unbuffered, so a delivery is one joint step of opLoop and of runLoop. */
module EndToEnd {
  import opened Sequences
  import FanOut
  import FanOutInvariant
  import FanOutTheorems
  import Rollover
  import RolloverTheorems
  import Strategy = WatchCoverage

  /** `groups[id]` is the chanGroup that reads query `id`. */
  datatype State = State(strat: Strategy.State, groups: seq<Rollover.State>)

  /** `cfg` is the configuration of the chanGroup, should the step register a query. */
  datatype Action =
    | Strat(a: Strategy.Action, cfg: Rollover.Config)
    | Deliver(id: nat)
    | Group(id: nat, b: Rollover.Action)
    | ChannelClosed(id: nat)

  function Queries(s: State): seq<FanOut.QueryWatch> {
    s.strat.reg.qs
  }

  function Delivery(id: nat): Strategy.Action {
    Strategy.Fan(FanOut.Deliver(id), false)
  }

  function Init(): State {
    State(Strategy.Init(), [])
  }

  predicate Enabled(s: State, a: Action) {
    match a
    case Strat(b, _) => Strategy.Enabled(s.strat, b) && !(b.Fan? && b.a.Deliver?)
    case Deliver(id) =>
      && Strategy.Enabled(s.strat, Delivery(id)) && id < |s.groups|
      && Rollover.Enabled(s.groups[id], Rollover.Receive(Queries(s)[id].loop.v))
    case Group(id, b) =>
      id < |s.groups| && !b.Receive? && !b.ObserveChannelClosed? && Rollover.Enabled(s.groups[id], b)
    case ChannelClosed(id) =>
      && id < |s.groups| && id < |Queries(s)| && !Queries(s)[id].open
      && Rollover.Enabled(s.groups[id], Rollover.ObserveChannelClosed)
  }

  function Do(s: State, a: Action): State
    requires Enabled(s, a)
  {
    match a
    case Strat(b, cfg) =>
      var t := Strategy.Do(s.strat, b);
      var n := |t.reg.qs|;
      State(t, if n > |Queries(s)| then s.groups + [Rollover.Init(cfg, t.reg.qs[n - 1].initial)] else s.groups)
    case Deliver(id) =>
      State(Strategy.Do(s.strat, Delivery(id)),
            s.groups[id := Rollover.Do(s.groups[id], Rollover.Receive(Queries(s)[id].loop.v))])
    case Group(id, b) => s.(groups := s.groups[id := Rollover.Do(s.groups[id], b)])
    case ChannelClosed(id) => s.(groups := s.groups[id := Rollover.Do(s.groups[id], Rollover.ObserveChannelClosed)])
  }

  function Exec(s: State, acts: seq<Action>): Option<State> {
    if acts == [] then Some(s)
    else
      var before := Exec(s, acts[..|acts| - 1]);
      var a := acts[|acts| - 1];
      if before.Some? && Enabled(before.value, a) then Some(Do(before.value, a)) else None
  }

  ghost predicate Reachable(s: State) {
    exists acts: seq<Action> :: Exec(Init(), acts) == Some(s)
  }

  /** Both halves run as they do on their own, and agree on what has been delivered. */
  ghost predicate Linked(q: FanOut.QueryWatch, g: Rollover.State) {
    Rollover.Reachable(g.cfg, q.initial, g) && g.received == q.delivered
  }

  ghost predicate Inv(s: State) {
    && Strategy.Reachable(s.strat)
    && |s.groups| == |Queries(s)|
    && forall id {:trigger s.groups[id]} :: 0 <= id < |s.groups| ==> Linked(Queries(s)[id], s.groups[id])
  }

  lemma StratExtends(s: Strategy.State, b: Strategy.Action)
    requires Strategy.Reachable(s) && Strategy.Enabled(s, b)
    ensures Strategy.Reachable(Strategy.Do(s, b))
  {
    var acts: seq<Strategy.Action> :| Strategy.Exec(Strategy.Init(), acts) == Some(s);
    assert (acts + [b])[..|acts|] == acts;
    assert Strategy.Exec(Strategy.Init(), acts + [b]) == Some(Strategy.Do(s, b));
  }

  /** Only a delivery delivers; every other step keeps or adds queries. */
  lemma FanOutFrame(r: FanOut.Registry, a: FanOut.Action)
    requires FanOut.Enabled(r, a)
    ensures var t := FanOut.Do(r, a);
            && |r.qs| <= |t.qs| <= |r.qs| + 1
            && (|t.qs| > |r.qs| ==> t.qs[|r.qs|].delivered == [])
            && forall id {:trigger t.qs[id]} :: 0 <= id < |r.qs| ==>
                 && t.qs[id].initial == r.qs[id].initial
                 && (a != FanOut.Deliver(id) ==> t.qs[id].delivered == r.qs[id].delivered)
  {
    if !a.WatchKnown? && !a.WatchRead? { FanOutKeeps(r, a); }
  }

  lemma FanOutKeeps(r: FanOut.Registry, a: FanOut.Action)
    requires FanOut.Enabled(r, a) && !a.WatchKnown? && !a.WatchRead?
    ensures var t := FanOut.Do(r, a);
            && |t.qs| == |r.qs|
            && forall id {:trigger t.qs[id]} :: 0 <= id < |r.qs| ==>
                 && t.qs[id].initial == r.qs[id].initial
                 && (a != FanOut.Deliver(id) ==> t.qs[id].delivered == r.qs[id].delivered)
  {
  }

  lemma StratFrame(s: Strategy.State, b: Strategy.Action)
    requires Strategy.Enabled(s, b) && !(b.Fan? && b.a.Deliver?)
    ensures var t := Strategy.Do(s, b);
            && |s.reg.qs| <= |t.reg.qs| <= |s.reg.qs| + 1
            && (|t.reg.qs| > |s.reg.qs| ==> t.reg.qs[|s.reg.qs|].delivered == [])
            && forall id {:trigger t.reg.qs[id]} :: 0 <= id < |s.reg.qs| ==>
                 t.reg.qs[id].initial == s.reg.qs[id].initial && t.reg.qs[id].delivered == s.reg.qs[id].delivered
  {
    match b
    case Fan(a, _) => FanOutFrame(s.reg, a);
    case LockForSet => FanOutFrame(s.reg, FanOut.SetStart(s.run.path, s.run.val));
    case UnlockAfterSet => FanOutFrame(s.reg, FanOut.SetEnd);
    case _ =>
  }

  lemma StratStep(s: State, b: Strategy.Action, cfg: Rollover.Config)
    requires Inv(s) && Enabled(s, Strat(b, cfg))
    ensures Inv(Do(s, Strat(b, cfg)))
  {
    StratExtends(s.strat, b);
    StratFrame(s.strat, b);
    AllLinked(s, Do(s, Strat(b, cfg)), cfg);
  }

  lemma AllLinked(s: State, t: State, cfg: Rollover.Config)
    requires Inv(s) && Strategy.Reachable(t.strat)
    requires var n := |Queries(s)|;
             && n <= |Queries(t)| <= n + 1
             && (|Queries(t)| == n ==> t.groups == s.groups)
             && (|Queries(t)| > n ==>
                   && Queries(t)[n].delivered == []
                   && t.groups == s.groups + [Rollover.Init(cfg, Queries(t)[n].initial)])
    requires forall id {:trigger Queries(t)[id]} :: 0 <= id < |Queries(s)| ==>
      Queries(t)[id].initial == Queries(s)[id].initial && Queries(t)[id].delivered == Queries(s)[id].delivered
    ensures Inv(t)
  {
    if |t.groups| > |s.groups| { NewLinked(Queries(t)[|s.groups|], cfg); }
    forall id | 0 <= id < |s.groups| ensures Linked(Queries(t)[id], t.groups[id]) {
      StillLinked(Queries(s)[id], Queries(t)[id], s.groups[id]);
    }
  }

  lemma StillLinked(q: FanOut.QueryWatch, n: FanOut.QueryWatch, g: Rollover.State)
    requires Linked(q, g) && n.initial == q.initial && n.delivered == q.delivered
    ensures Linked(n, g)
  {
  }

  lemma NewLinked(q: FanOut.QueryWatch, cfg: Rollover.Config)
    requires q.delivered == []
    ensures Linked(q, Rollover.Init(cfg, q.initial))
  {
    assert Rollover.Exec(Rollover.Init(cfg, q.initial), []) == Some(Rollover.Init(cfg, q.initial));
  }

  lemma DeliverStep(s: State, id: nat)
    requires Inv(s) && Enabled(s, Deliver(id))
    ensures Inv(Do(s, Deliver(id)))
  {
    var g, v := s.groups[id], Queries(s)[id].loop.v;
    StratExtends(s.strat, Delivery(id));
    FanOutFrame(s.strat.reg, FanOut.Deliver(id));
    assert Linked(Queries(s)[id], g);
    RolloverTheorems.Extend(g.cfg, Queries(s)[id].initial, g, Rollover.Receive(v));
  }

  lemma GroupStep(s: State, id: nat, b: Rollover.Action)
    requires Inv(s) && id < |s.groups| && Rollover.Enabled(s.groups[id], b) && !b.Receive?
    ensures Inv(s.(groups := s.groups[id := Rollover.Do(s.groups[id], b)]))
  {
    var g := s.groups[id];
    assert Linked(Queries(s)[id], g);
    RolloverTheorems.Extend(g.cfg, Queries(s)[id].initial, g, b);
    GroupFrame(g, b);
  }

  lemma GroupFrame(g: Rollover.State, b: Rollover.Action)
    requires Rollover.Enabled(g, b) && !b.Receive?
    ensures Rollover.Do(g, b).cfg == g.cfg && Rollover.Do(g, b).received == g.received
  {
  }

  lemma StepInv(s: State, a: Action)
    requires Inv(s) && Enabled(s, a)
    ensures Inv(Do(s, a))
  {
    match a
    case Strat(b, cfg) => StratStep(s, b, cfg);
    case Deliver(id) => DeliverStep(s, id);
    case Group(id, b) => GroupStep(s, id, b);
    case ChannelClosed(id) => GroupStep(s, id, Rollover.ObserveChannelClosed);
  }

  lemma {:induction false} ExecInv(acts: seq<Action>)
    ensures Exec(Init(), acts).Some? ==> Inv(Exec(Init(), acts).value)
  {
    if acts == [] {
      assert Strategy.Exec(Strategy.Init(), []) == Some(Strategy.Init());
    } else {
      ExecInv(acts[..|acts| - 1]);
      var before := Exec(Init(), acts[..|acts| - 1]);
      if before.Some? && Enabled(before.value, acts[|acts| - 1]) {
        StepInv(before.value, acts[|acts| - 1]);
      }
    }
  }

  /** In a reachable state the strategy's half and each chanGroup are reachable by themselves,
      so all that modules FanOutTheorems, CloseOrder, WatchCoverage and RolloverTheorems
      prove holds of them here. */
  lemma HalvesAreReachable(s: State, id: nat)
    requires Reachable(s) && id < |s.groups|
    ensures FanOut.Reachable(s.strat.reg) && Strategy.Reachable(s.strat)
    ensures id < |Queries(s)| && Linked(Queries(s)[id], s.groups[id])
  {
    var acts: seq<Action> :| Exec(Init(), acts) == Some(s);
    ExecInv(acts);
    var stratActs: seq<Strategy.Action> :| Strategy.Exec(Strategy.Init(), stratActs) == Some(s.strat);
    Strategy.RegistryIsFanOut(stratActs);
  }

  /** End-to-end conservation: initial value, values the chanGroup received, the value opLoop
      holds and the queued ones are the path's values since the registration, but for the
      newest while a running setVal has not reached this query. */
  lemma EndToEndConservation(s: State, id: nat)
    requires Reachable(s) && id < |s.groups| && id < |Queries(s)| && Queries(s)[id].open
    ensures Queries(s)[id].path in s.strat.reg.paths
    ensures var q := Queries(s)[id];
            var w, n := s.strat.reg.paths[q.path], if FanOut.Awaiting(s.strat.reg, id) then 1 else 0;
            && q.from < |w.history| - n
            && [q.initial] + s.groups[id].received + FanOut.InFlight(q) + FanOut.Sends(q.operChan)
               == w.history[q.from..|w.history| - n]
  {
    HalvesAreReachable(s, id);
    FanOutTheorems.NothingIsLost(s.strat.reg, id);
  }

  /** Nothing is on its way to the chanGroup of query `id`, and its runLoop waits. */
  predicate Settled(s: State, id: nat)
    requires id < |s.groups| && id < |Queries(s)|
  {
    var q := Queries(s)[id];
    && q.open && FanOut.InFlight(q) == [] && FanOut.Sends(q.operChan) == []
    && !FanOut.Awaiting(s.strat.reg, id)
    && s.groups[id].pc.Idle?
  }

  /** Convergence: with nothing pending and runLoop idle, the chanGroup's value is the path's,
      and its generations are the path's values since the registration with consecutive
      repeats removed. */
  lemma Convergence(s: State, id: nat)
    requires Reachable(s) && id < |s.groups| && id < |Queries(s)| && Settled(s, id)
    ensures Queries(s)[id].path in s.strat.reg.paths
    ensures var q := Queries(s)[id]; var w := s.strat.reg.paths[q.path];
            && q.from < |w.history|
            && s.groups[id].core.value == w.value
            && s.groups[id].generations == Collapse(w.history[q.from..])
  {
    HalvesAreReachable(s, id);
    EndToEndConservation(s, id);
    FanOutTheorems.NothingIsLost(s.strat.reg, id);
    var q, g := Queries(s)[id], s.groups[id];
    var w := s.strat.reg.paths[q.path];
    RolloverTheorems.GenerationsAreReceivedValues(g.cfg, q.initial, g);
    DueAll(w, q.from);
    NothingPending([q.initial] + g.received);
  }

  lemma DueAll(w: FanOut.PathWatch, from: nat)
    ensures from <= |w.history| ==> FanOutInvariant.Due(w, from, false) == w.history[from..]
  {
  }

  lemma NothingPending(l: seq<string>)
    ensures l + [] + [] == l
  {
  }

  /** What it all is for: when things have settled, every connection that has not been closed
      and that ResetSession does not refuse was opened with the DSN of the path's value. */
  lemma SettledConnectionsAreCurrent(s: State, id: nat)
    requires Reachable(s) && id < |s.groups| && id < |Queries(s)| && Settled(s, id)
    ensures Queries(s)[id].path in s.strat.reg.paths
    ensures forall c :: c in s.groups[id].heap && !c.reset && c.Closes() == 0 ==>
      s.groups[id].cfg.merge(s.strat.reg.paths[Queries(s)[id].path].value) == Some(c.dsn)
  {
    HalvesAreReachable(s, id);
    Convergence(s, id);
    RolloverTheorems.StaleConnectionsRefused(s.groups[id].cfg, Queries(s)[id].initial, s.groups[id]);
  }

  /** A chanGroup that has stopped has its parent's end or its channel's end as the reason. */
  ghost predicate Reasoned(s: State) {
    && |s.groups| == |Queries(s)|
    && forall id {:trigger s.groups[id]} :: 0 <= id < |s.groups| && s.groups[id].pc.Terminated? ==>
         s.groups[id].parentDone || !Queries(s)[id].open
  }

  lemma GroupStops(g: Rollover.State, b: Rollover.Action)
    requires Rollover.Enabled(g, b)
    ensures var t := Rollover.Do(g, b);
            && (g.parentDone ==> t.parentDone)
            && (t.pc.Terminated? ==> g.pc.Terminated? || t.parentDone || b.ObserveChannelClosed?)
  {
  }

  lemma StratCloses(s: Strategy.State, b: Strategy.Action, id: nat)
    requires Strategy.Enabled(s, b) && id < |s.reg.qs| && !s.reg.qs[id].open
    ensures id < |Strategy.Do(s, b).reg.qs| && !Strategy.Do(s, b).reg.qs[id].open
  {
    match b
    case Fan(a, _) => FanOutTheorems.NeverReopened(s.reg, a, id);
    case LockForSet => FanOutTheorems.NeverReopened(s.reg, FanOut.SetStart(s.run.path, s.run.val), id);
    case UnlockAfterSet => FanOutTheorems.NeverReopened(s.reg, FanOut.SetEnd, id);
    case _ =>
  }

  lemma ReasonedStrat(s: State, b: Strategy.Action, cfg: Rollover.Config)
    requires Reasoned(s) && Enabled(s, Strat(b, cfg))
    ensures Reasoned(Do(s, Strat(b, cfg)))
  {
    StratFrame(s.strat, b);
    var t := Do(s, Strat(b, cfg));
    forall id | 0 <= id < |t.groups| && t.groups[id].pc.Terminated?
      ensures t.groups[id].parentDone || !Queries(t)[id].open
    {
      if id < |s.groups| && !Queries(s)[id].open { StratCloses(s.strat, b, id); }
    }
  }

  lemma ReasonedGroup(s: State, id: nat, b: Rollover.Action)
    requires Reasoned(s) && id < |s.groups| && Rollover.Enabled(s.groups[id], b)
    requires b.ObserveChannelClosed? ==> !Queries(s)[id].open
    ensures Reasoned(s.(groups := s.groups[id := Rollover.Do(s.groups[id], b)]))
  {
    GroupStops(s.groups[id], b);
  }

  lemma ReasonedDeliver(s: State, id: nat)
    requires Reasoned(s) && Enabled(s, Deliver(id))
    ensures Reasoned(Do(s, Deliver(id)))
  {
    var v, t := Queries(s)[id].loop.v, Do(s, Deliver(id));
    forall k | 0 <= k < |t.groups| && t.groups[k].pc.Terminated?
      ensures t.groups[k].parentDone || !Queries(t)[k].open
    {
      GroupStops(s.groups[id], Rollover.Receive(v));
      if !Queries(s)[k].open { StratCloses(s.strat, Delivery(id), k); }
    }
  }

  lemma {:induction false} ExecReasoned(acts: seq<Action>)
    ensures Exec(Init(), acts).Some? ==> Reasoned(Exec(Init(), acts).value)
  {
    if acts != [] {
      ExecReasoned(acts[..|acts| - 1]);
      var before := Exec(Init(), acts[..|acts| - 1]);
      if before.Some? && Enabled(before.value, acts[|acts| - 1]) {
        var s := before.value;
        match acts[|acts| - 1]
        case Strat(b, cfg) => ReasonedStrat(s, b, cfg);
        case Deliver(id) => ReasonedDeliver(s, id);
        case Group(id, b) => ReasonedGroup(s, id, b);
        case ChannelClosed(id) => ReasonedGroup(s, id, Rollover.ObserveChannelClosed);
      }
    }
  }

  /** runLoop of a chanGroup stops for one of two reasons only: its parent context has ended,
      or the strategy has closed its query's channel. */
  lemma StopsWithReason(s: State, id: nat)
    requires Reachable(s) && id < |s.groups| && s.groups[id].pc.Terminated?
    ensures id < |Queries(s)| && (s.groups[id].parentDone || !Queries(s)[id].open)
  {
    var acts: seq<Action> :| Exec(Init(), acts) == Some(s);
    ExecReasoned(acts);
  }
}
