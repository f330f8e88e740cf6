/** What the rollover protocol guarantees, for every interleaving of one chanGroup's
    background thread with its clients.  `s` is any reachable state and `Now(s)` its
    generation.  A connection's grace window is one change with forceKill, two without. */
module RolloverTheorems {
  import opened Sequences
  import opened Rollover
  import opened RolloverInvariant

  /** Outside processNewValue, every connection of an older generation is marked reset or
      has been closed; so one that is neither carries the DSN of the current value. */
  lemma StaleConnectionsRefused(cfg: Config, value: string, s: State)
    requires Reachable(cfg, value, s) && !s.pc.Busy?
    ensures forall c :: c in s.heap && c.gen < Now(s) ==> c.reset || c.Closes() > 0
    ensures forall c :: c in s.heap && !c.reset && c.Closes() == 0 ==> cfg.merge(s.core.value) == Some(c.dsn)
  {
    ReachableInv(cfg, value, s);
  }

  /** A connection one change old with forceKill, or two without, has had its underlying Close called,
      whoever else closed or validated connections in between. */
  lemma NoConnectionLeaks(cfg: Config, value: string, s: State)
    requires Reachable(cfg, value, s) && !s.pc.Busy?
    ensures forall c :: c in s.heap && c.gen + (if cfg.forceKill then 1 else 2) <= Now(s) ==> c.Closes() > 0
  {
    ReachableInv(cfg, value, s);
  }

  /** The exact grace window, as seen between changes, for every connection.  The background
      thread marks it reset if and only if its generation has passed and its end still found
      the connection listed; it closes such a connection, exactly once, if and only if one
      change has passed with forceKill, or two without; a connection that was not listed any more had been
      closed and removed by somebody else. */
  lemma GraceWindowBetweenChanges(cfg: Config, value: string, s: State)
    requires Reachable(cfg, value, s) && !s.pc.Busy?
    ensures forall c :: c in s.heap ==>
      && (c.reset <==> c.gen < Now(s) && c.handed)
      && (c.byLoop == if c.gen + (if cfg.forceKill then 1 else 2) <= Now(s) && c.handed then 1 else 0)
      && (c.gen < Now(s) && !c.handed ==> c.ByOthers() > 0)
    ensures !s.parentDone ==> forall c :: c in s.heap ==>
      (CtxDone(s, c.gen) <==> c.gen + (if cfg.forceKill then 1 else 2) <= Now(s))
  {
    ReachableInv(cfg, value, s);
  }

  /** The two modes side by side, between changes.  Without forceKill the background thread
      has neither closed a connection of the current or the previous generation nor, while
      the parent is live, cancelled its context, and has done both to every older one that
      it found listed.  With forceKill it has done both to every listed connection of any
      earlier generation. */
  lemma TwoModes(cfg: Config, value: string, s: State)
    requires Reachable(cfg, value, s) && !s.pc.Busy?
    ensures !cfg.forceKill ==> forall c :: c in s.heap && c.gen + 1 >= Now(s) ==>
      c.byLoop == 0 && (!s.parentDone ==> !CtxDone(s, c.gen))
    ensures !cfg.forceKill ==> forall c :: c in s.heap && c.gen + 2 <= Now(s) ==>
      (c.handed ==> c.byLoop == 1) && CtxDone(s, c.gen)
    ensures cfg.forceKill ==> forall c :: c in s.heap && c.gen + 1 <= Now(s) ==>
      (c.handed ==> c.byLoop == 1) && CtxDone(s, c.gen)
    ensures cfg.forceKill ==> forall c :: c in s.heap && c.gen == Now(s) ==>
      c.byLoop == 0 && (!s.parentDone ==> !CtxDone(s, c.gen))
  {
    ReachableInv(cfg, value, s);
  }

  /** What `handed` means: the change that ends a generation marks exactly its connections
      without a finished removeMgdConn, and nothing else ever changes the mark. */
  lemma HandedAtRotation(cfg: Config, value: string, s: State, a: Action, id: nat)
    requires Reachable(cfg, value, s) && Enabled(s, a) && id < |s.heap|
    ensures id < |Do(s, a).heap|
    ensures Do(s, a).heap[id].handed == (s.heap[id].handed || (Rotates(s, a) && id in s.core.conns))
    ensures id in s.core.conns <==> s.heap[id].gen == Now(s) && s.removing[id] == s.heap[id].ByOthers()
  {
    ReachableInv(cfg, value, s);
    assert Fits(s.heap[id], Now(s), cfg.Window(), PlaceOf(s, id));
    HandedStep(s, a, id);
  }

  predicate Rotates(s: State, a: Action) {
    a.Loop? && s.pc.Received? && s.pc.v != s.core.value
  }

  lemma HandedStep(s: State, a: Action, id: nat)
    requires Enabled(s, a) && id < |s.heap|
    ensures id < |Do(s, a).heap|
    ensures Do(s, a).heap[id].handed == (s.heap[id].handed || (Rotates(s, a) && id in s.core.conns))
  {
  }

  /** When "each connection is closed exactly once" holds: past the grace window, if and
      only if the end of its generation found the connection listed and nobody else closes
      it, or found it gone and exactly one other close had been made. */
  lemma ClosedExactlyOnce(cfg: Config, value: string, s: State, id: nat)
    requires Reachable(cfg, value, s) && !s.pc.Busy? && id < |s.heap|
    requires s.heap[id].gen + (if cfg.forceKill then 1 else 2) <= Now(s)
    ensures var c := s.heap[id]; c.Closes() == 1 <==> c.ByOthers() == if c.handed then 0 else 1
  {
    GraceWindowBetweenChanges(cfg, value, s);
    assert s.heap[id] in s.heap;
  }

  /** The background thread only touches connections on its lists, and closes only past
      the cancel call. */
  lemma LoopTouches(s: State, id: nat)
    requires Enabled(s, Loop) && id < |s.heap|
    ensures |LoopStep(s).heap| == |s.heap|
    ensures var c, d := s.heap[id], LoopStep(s).heap[id];
            && d.gen == c.gen && d.byGuard == c.byGuard
            && (d.reset != c.reset ==> d.reset && id in PendingReset(s))
            && (d.byLoop != c.byLoop ==> d.byLoop == c.byLoop + 1 && id in PendingClose(s) && !s.pc.stage.Cancel?)
  {
  }

  /** The exact grace window, step by step: the change that resets a connection is the
      first after its generation, the one that closes it and cancels its context is the
      first with forceKill and the second without. */
  lemma GraceWindowWithinChange(cfg: Config, value: string, s: State, id: nat)
    requires Reachable(cfg, value, s) && Enabled(s, Loop) && id < |s.heap|
    ensures |LoopStep(s).heap| == |s.heap|
    ensures var c, d, last := s.heap[id], LoopStep(s).heap[id], s.heap[id].gen + if cfg.forceKill then 1 else 2;
            && (d.reset != c.reset ==> d.reset && Now(s) == c.gen + 1)
            && (d.byLoop != c.byLoop ==> d.byLoop == 1 && c.byLoop == 0 && Now(s) == last)
            && (c.gen in LoopStep(s).cancelled && c.gen !in s.cancelled ==> Now(s) == last)
  {
    ReachableInv(cfg, value, s);
    LoopTouches(s, id);
    CancelsVictim(s);
    assert Fits(s.heap[id], Now(s), cfg.Window(), PlaceOf(s, id));
  }

  /** The order within a change: the loop touches no connection before it has cancelled the
      context it has to cancel; with forceKill it closes none that it has not reset, and
      without it resets none before it has closed all that it has to close. */
  lemma OrderWithinChange(cfg: Config, value: string, s: State, id: nat)
    requires Reachable(cfg, value, s) && Enabled(s, Loop) && id < |s.heap|
    ensures |LoopStep(s).heap| == |s.heap|
    ensures var c, d := s.heap[id], LoopStep(s).heap[id];
            && (d.reset != c.reset || d.byLoop != c.byLoop ==>
                  forall g: nat :: g + (if cfg.forceKill then 1 else 2) <= Now(s) ==> g in s.cancelled)
            && (cfg.forceKill && d.byLoop != c.byLoop ==> c.reset)
            && (!cfg.forceKill && d.reset != c.reset ==>
                  forall b :: b in s.heap && b.gen + 2 <= Now(s) && b.handed ==> b.byLoop == 1)
  {
    ReachableInv(cfg, value, s);
    LoopTouches(s, id);
    assert Fits(s.heap[id], Now(s), cfg.Window(), PlaceOf(s, id));
    if s.pc.Busy? { ResetsLast(s); KillsAfterReset(s, id); }
  }

  lemma ResetsLast(s: State)
    requires s.pc.Busy? && PcOk(s) && ConnsFit(s)
    ensures !s.cfg.forceKill && s.pc.stage.ResetNext? ==>
      forall b :: b in s.heap && b.gen + 2 <= Now(s) && b.handed ==> b.byLoop == 1
  {
  }

  lemma KillsAfterReset(s: State, id: nat)
    requires s.pc.Busy? && PcOk(s) && ListsOk(s) && id < |s.heap|
    requires Fits(s.heap[id], Now(s), s.cfg.Window(), PlaceOf(s, id))
    ensures |LoopStep(s).heap| == |s.heap|
    ensures s.cfg.forceKill && LoopStep(s).heap[id].byLoop != s.heap[id].byLoop ==> s.heap[id].reset
    ensures !s.cfg.forceKill && LoopStep(s).heap[id].reset != s.heap[id].reset ==> s.pc.stage.ResetNext?
  {
    if s.pc.stage.KillClose? { HeadTail(s.pc.toClose); }
  }

  lemma CancelsVictim(s: State)
    requires Enabled(s, Loop)
    ensures forall g :: g in LoopStep(s).cancelled && g !in s.cancelled ==> s.pc.Busy? && s.pc.victim == Some(g)
  {
  }

  /** While the parent context is live the cancelled contexts are, between changes,
      exactly those of earlier generations with forceKill, those of generations before the
      previous one without, and never the current one. */
  lemma ExactlyTheOldContextsAreCancelled(cfg: Config, value: string, s: State)
    requires Reachable(cfg, value, s) && !s.parentDone
    ensures !s.pc.Busy? ==> forall g: nat :: CtxDone(s, g) <==> g + (if cfg.forceKill then 1 else 2) <= Now(s)
    ensures !CtxDone(s, s.core.ctx)
  {
    ReachableInv(cfg, value, s);
  }

  /** Who owns a connection, in every reachable state, also in the middle of a change. */
  lemma Ownership(cfg: Config, value: string, s: State)
    requires Reachable(cfg, value, s)
    ensures NoDup(s.core.conns)
    ensures forall id :: id in s.core.conns ==>
      id < |s.heap| && s.heap[id].gen == s.core.ctx && cfg.merge(s.core.value) == Some(s.heap[id].dsn)
    ensures forall id {:trigger s.heap[id]} :: 0 <= id < |s.heap| && s.heap[id].gen == s.core.ctx ==>
      id in s.core.conns || s.heap[id].Closes() > 0
    ensures forall id {:trigger s.heap[id]} :: 0 <= id < |s.heap| && s.heap[id].gen == s.core.ctx - 1 ==>
      id in s.core.prevConns || s.heap[id].Closes() > 0
  {
    ReachableInv(cfg, value, s);
  }

  /** Whenever hotload itself calls an underlying Close, from the background loops or from
      the guard in IsValid, Prepare, Begin and BeginTx, that connection's context is done. */
  lemma CancelBeforeClose(cfg: Config, value: string, s: State, a: Action, id: nat)
    requires Reachable(cfg, value, s) && Enabled(s, a) && id < |s.heap|
    ensures |s.heap| <= |Do(s, a).heap|
    ensures var c, d := s.heap[id], Do(s, a).heap[id];
            d.byLoop + d.byGuard > c.byLoop + c.byGuard ==> CtxDone(s, c.gen)
  {
    ReachableInv(cfg, value, s);
    if a.Loop? { LoopTouches(s, id); }
  }

  /** The sequence of generation values is the initial value and the received values with
      consecutive repeats removed, and the current value is the newest of them. */
  lemma GenerationsAreReceivedValues(cfg: Config, value: string, s: State)
    requires Reachable(cfg, value, s) && s.pc.Idle?
    ensures s.generations == Collapse([value] + s.received)
    ensures s.core.value == ([value] + s.received)[|s.received|]
  {
    ReachableInv(cfg, value, s);
  }

  /** A received value that is the current one changes nothing. */
  lemma EqualValueIsIgnored(s: State)
    requires s.pc == Received(s.core.value)
    ensures Do(s, Loop) == s.(pc := Idle)
  {
  }

  /** Each generation's value differs from the one before. */
  lemma GenerationsDiffer(cfg: Config, value: string, s: State)
    requires Reachable(cfg, value, s)
    ensures forall i :: 0 <= i < Now(s) ==> s.generations[i] != s.generations[i + 1]
  {
    ReachableInv(cfg, value, s);
    var l := [value] + if s.pc.Received? then s.received[..|s.received| - 1] else s.received;
    assert s.generations == Collapse(l);
    CollapseDiffers(l);
  }

  /** The moves that are always possible, and what the others wait for. */
  lemma ClientsNeverWait(s: State, id: nat, ok: bool)
    ensures Enabled(s, Open(ok)) && Enabled(s, CancelParent)
    ensures Enabled(s, ClientClose(id)) <==> id < |s.heap|
    ensures Enabled(s, GuardClose(id)) <==> id < |s.heap| && (s.parentDone || s.heap[id].gen in s.cancelled)
    ensures Enabled(s, FinishRemove(id)) <==> s.removing[id] > 0
    ensures Enabled(s, Loop) <==> s.pc.Received? || s.pc.Busy?
  {
  }

  /** An Open adds one connection, untouched and of the current generation, when the DSN can
      be merged and the driver opens it, and nothing otherwise. */
  lemma OpenAddsOneOrNothing(s: State, ok: bool)
    ensures var t := Do(s, Open(ok));
            if ok && s.cfg.merge(s.core.value).Some? then
              && |t.heap| == |s.heap| + 1 && t.heap[..|s.heap|] == s.heap
              && t.core.conns == s.core.conns + [|s.heap|]
              && var c := t.heap[|s.heap|];
                 c.gen == s.core.ctx && c.dsn == s.cfg.merge(s.core.value).value && !c.reset && c.Closes() == 0
            else t == s
  {
  }

  function Count(acts: seq<Action>, a: Action): nat {
    if acts == [] then 0 else Count(acts[..|acts| - 1], a) + if acts[|acts| - 1] == a then 1 else 0
  }

  /** Over any run, the closes of a connection are counted by who made them, and those that
      are still to be followed by their removeMgdConn are the closes less the removals. */
  lemma {:induction false} ClosesAreCounted(cfg: Config, value: string, acts: seq<Action>, id: nat)
    requires Exec(Init(cfg, value), acts).Some?
    ensures var s := Exec(Init(cfg, value), acts).value;
            if id < |s.heap| then
              && s.heap[id].byClients == Count(acts, ClientClose(id))
              && s.heap[id].byGuard == Count(acts, GuardClose(id))
              && s.removing[id] == s.heap[id].ByOthers() - Count(acts, FinishRemove(id))
            else Count(acts, ClientClose(id)) == Count(acts, GuardClose(id)) == Count(acts, FinishRemove(id)) == 0
                 && s.removing[id] == 0
  {
    if acts != [] {
      var before, a := acts[..|acts| - 1], acts[|acts| - 1];
      ClosesAreCounted(cfg, value, before, id);
      CountStep(Exec(Init(cfg, value), before).value, a, id);
    }
  }

  lemma CountStep(s: State, a: Action, id: nat)
    requires Enabled(s, a)
    ensures var t := Do(s, a);
            && |s.heap| <= |t.heap| <= |s.heap| + 1
            && (id < |s.heap| ==>
                  && t.heap[id].byClients == s.heap[id].byClients + (if a == ClientClose(id) then 1 else 0)
                  && t.heap[id].byGuard == s.heap[id].byGuard + (if a == GuardClose(id) then 1 else 0))
            && (id == |s.heap| < |t.heap| ==> t.heap[id].ByOthers() == 0)
            && t.removing[id] == s.removing[id] + (if a == ClientClose(id) || a == GuardClose(id) then 1 else 0)
                                 - if a == FinishRemove(id) then 1 else 0
  {
    if a.Loop? { LoopCounts(s, id); }
  }

  lemma LoopCounts(s: State, id: nat)
    ensures var t := LoopStep(s);
            && |t.heap| == |s.heap| && t.removing == s.removing
            && (id < |s.heap| ==>
                  t.heap[id].byClients == s.heap[id].byClients && t.heap[id].byGuard == s.heap[id].byGuard)
  {
  }

  /** The end of the parent context ends all contexts, for ever. */
  lemma ParentEndsAll(s: State, a: Action, g: nat)
    requires Enabled(s, a)
    ensures CtxDone(Do(s, CancelParent), g)
    ensures s.parentDone ==> CtxDone(s, g) && Do(s, a).parentDone
  {
  }

  /** The two ways out of runLoop: the parent's end, which also cancels the current context,
      and the end of the channel, which leaves the contexts alone. */
  lemma WaysOut(s: State)
    ensures Enabled(s, ObserveParentDone) ==>
      Do(s, ObserveParentDone) == s.(pc := Terminated, cancelled := s.cancelled + {s.core.cancel})
    ensures Enabled(s, ObserveChannelClosed) ==> Do(s, ObserveChannelClosed) == s.(pc := Terminated)
  {
  }

  /** A thread that has terminated does nothing more, whatever clients do. */
  lemma TerminationIsFinal(s: State, a: Action, v: string)
    requires s.pc.Terminated? && Enabled(s, a)
    ensures !Enabled(s, Loop) && !Enabled(s, Receive(v))
    ensures var t := Do(s, a);
            && t.pc.Terminated? && t.generations == s.generations && t.received == s.received
            && t.cancelled == s.cancelled && |s.heap| <= |t.heap|
            && forall id :: 0 <= id < |s.heap| ==>
                 t.heap[id].reset == s.heap[id].reset && t.heap[id].byLoop == s.heap[id].byLoop
  {
  }

  /** How many steps the background thread needs to finish the change it is working on. */
  function Work(s: State): nat {
    if !s.pc.Busy? then 0
    else
      var resets, closes := |s.pc.toReset|, |s.pc.toClose|;
      match s.pc.stage
      case Cancel => 2 + if s.cfg.forceKill then 3 * resets + 1 else 2 * closes + resets + 2
      case Yield => 1 + if s.cfg.forceKill then 3 * resets + 1 else 2 * closes + resets + 2
      case KillReset => 3 * resets + 1
      case KillClose => 3 * resets + 3
      case CloseNext => 2 * closes + resets + 2
      case ResetNext => resets + 1
      case Removing(_) => 1 + if s.cfg.forceKill then 3 * resets + 1 else 2 * closes + resets + 2
  }

  lemma WorkStep(s: State, a: Action)
    requires PcOk(s) && s.pc.Busy? && Enabled(s, a)
    ensures var t := Do(s, a);
            if !a.Loop? then t.pc == s.pc && t.cfg == s.cfg
            else Work(t) == Work(s) - 1 && if Work(t) == 0 then t.pc.Idle? else t.pc.Busy?
  {
  }

  function Loops(acts: seq<Action>): nat {
    if acts == [] then 0 else Loops(acts[..|acts| - 1]) + if acts[|acts| - 1].Loop? then 1 else 0
  }

  /** A change always completes: whatever clients do meanwhile, the thread is back in its
      select after exactly `Work(s)` steps of its own. */
  lemma ChangeCompletes(cfg: Config, value: string, s: State, acts: seq<Action>)
    requires Reachable(cfg, value, s) && s.pc.Busy? && Exec(s, acts).Some? && Loops(acts) <= Work(s)
    ensures var t := Exec(s, acts).value;
            && (Loops(acts) < Work(s) ==> t.pc.Busy? && Work(t) == Work(s) - Loops(acts))
            && (Loops(acts) == Work(s) && acts != [] && acts[|acts| - 1].Loop? ==> t.pc.Idle?)
  {
    ReachableInv(cfg, value, s);
    ChangeRuns(s, value, acts);
  }

  lemma {:induction false} ChangeRuns(s: State, value: string, acts: seq<Action>)
    requires Inv(s, value) && s.pc.Busy? && Exec(s, acts).Some? && Loops(acts) <= Work(s)
    ensures Inv(Exec(s, acts).value, value)
    ensures var t := Exec(s, acts).value;
            && (Loops(acts) < Work(s) ==> t.pc.Busy? && Work(t) == Work(s) - Loops(acts))
            && (Loops(acts) == Work(s) && acts != [] && acts[|acts| - 1].Loop? ==> t.pc.Idle?)
  {
    if acts != [] {
      var a, before := acts[|acts| - 1], acts[..|acts| - 1];
      ChangeRuns(s, value, before);
      var b := Exec(s, before).value;
      StepInv(b, value, a);
      if Loops(before) < Work(s) { WorkStep(b, a); }
    }
  }

  lemma Extend(cfg: Config, value: string, s: State, a: Action)
    requires Reachable(cfg, value, s) && Enabled(s, a)
    ensures Reachable(cfg, value, Do(s, a))
  {
    var acts: seq<Action> :| Exec(Init(cfg, value), acts) == Some(s);
    assert (acts + [a])[..|acts|] == acts;
    assert Exec(Init(cfg, value), acts + [a]) == Some(Do(s, a));
  }

  /** Left to itself, the background thread finishes the change it is working on. */
  lemma {:induction false} RunToIdle(cfg: Config, value: string, s: State) returns (t: State)
    requires Reachable(cfg, value, s) && s.pc.Busy?
    ensures Reachable(cfg, value, t) && t.pc.Idle? && t.generations == s.generations && |t.heap| == |s.heap|
    ensures forall id :: 0 <= id < |s.heap| ==>
      && t.heap[id].gen == s.heap[id].gen && t.heap[id].handed == s.heap[id].handed
      && t.heap[id].byClients == s.heap[id].byClients && t.heap[id].byGuard == s.heap[id].byGuard
    decreases Work(s)
  {
    ReachableInv(cfg, value, s);
    Extend(cfg, value, s, Loop);
    WorkStep(s, Loop);
    LoopKeeps(s);
    t := LoopStep(s);
    if !t.pc.Idle? { t := RunToIdle(cfg, value, t); }
  }

  lemma LoopKeeps(s: State)
    requires s.pc.Busy?
    ensures var t := LoopStep(s); t.generations == s.generations && |t.heap| == |s.heap|
    ensures forall id :: 0 <= id < |s.heap| ==>
      var c, d := s.heap[id], LoopStep(s).heap[id];
      d.gen == c.gen && d.handed == c.handed && d.byClients == c.byClients && d.byGuard == c.byGuard
  {
  }

  /** One whole change to another value, with no client activity. */
  lemma Change(cfg: Config, value: string, s: State, v: string) returns (t: State)
    requires Reachable(cfg, value, s) && s.pc.Idle? && v != s.core.value
    ensures Reachable(cfg, value, t) && t.pc.Idle? && |t.generations| == |s.generations| + 1 && t.core.value == v
    ensures |t.heap| == |s.heap|
    ensures forall id :: 0 <= id < |s.heap| ==>
      && t.heap[id].gen == s.heap[id].gen && t.heap[id].handed == (s.heap[id].handed || id in s.core.conns)
      && t.heap[id].byClients == s.heap[id].byClients && t.heap[id].byGuard == s.heap[id].byGuard
  {
    var r := Do(s, Receive(v));
    Extend(cfg, value, s, Receive(v));
    Extend(cfg, value, r, Loop);
    var b := LoopStep(r);
    assert b.generations == s.generations + [v];
    t := RunToIdle(cfg, value, b);
    ReachableInv(cfg, value, t);
  }

  /** The double close, in both modes: a client closes a connection after its generation has
      ended, and the background thread closes it too. */
  lemma ClosedTwice(cfg: Config, value: string, v: string)
    requires cfg.merge(value).Some? && v != value
    ensures exists s :: Reachable(cfg, value, s) && s.pc.Idle? && |s.heap| == 1 && s.heap[0].Closes() == 2
  {
    var init := Init(cfg, value);
    assert Exec(init, []) == Some(init);
    Extend(cfg, value, init, Open(true));
    var s := Change(cfg, value, Do(init, Open(true)), v);
    Extend(cfg, value, s, ClientClose(0));
    var t := Do(s, ClientClose(0));
    var u := Change(cfg, value, t, value);
    ReachableInv(cfg, value, u);
    GraceWindowBetweenChanges(cfg, value, u);
    assert u.heap[0] in u.heap;
  }
}
