/** fsnotify/filewatcher.go: the strategy's event loop and the file watcher it drives.

    runLoop takes events and retries failed paths; its resync removes a path from the
    watcher, reads the file and adds the path again, all without Strategy.mu, while Watch
    and processWatchClosure change the registry (module FanOut) and the watcher too.  The
    watcher is only known to drop a path by itself together with a Remove event. */
module WatchCoverage {
  import opened Sequences
  import FanOut
  import FanOutInvariant
  import FanOutTheorems

  datatype Event = Event(path: string, write: bool, remove: bool)

  /** Where a resync returns to: the select, or the sweep over the failed paths. */
  datatype Resume = ToSelect | ToSweep(todo: set<string>, fixed: set<string>)

  /** Where runLoop is. */
  datatype RunPc =
    | Selecting
    | Sweeping(todo: set<string>, fixed: set<string>)
    | AtRemove(path: string, next: Resume)
    | AtRead(path: string, next: Resume)
    | AtAdd(path: string, val: string, next: Resume)
    | AtSetVal(path: string, val: string, next: Resume)
    | InSetVal(next: Resume)

  datatype State = State(
    reg: FanOut.Registry,
    run: RunPc,
    failed: set<string>,
    watched: set<string>,
    events: seq<Event>)

  /** `Fan` is any step of module FanOut that runLoop takes no part in; `dropped` says
      whether a watcher.Remove made in it had its effect.  The boolean of the resync steps
      says whether the call succeeded. */
  datatype Action =
    | Fan(a: FanOut.Action, dropped: bool)
    | TakeEvent
    | Tick
    | Pick(path: string)
    | EndSweep
    | ResyncRemove(ok: bool, dropped: bool)
    | ResyncRead(read: Option<string>)
    | ResyncAdd(ok: bool)
    | LockForSet
    | UnlockAfterSet
    | FileGone(path: string)
    | FileEvent(e: Event)

  function Init(): State {
    State(FanOut.Init(), Selecting, {}, {}, [])
  }

  function Back(next: Resume): RunPc {
    match next
    case ToSelect => Selecting
    case ToSweep(todo, fixed) => Sweeping(todo, fixed)
  }

  predicate Enabled(s: State, a: Action) {
    match a
    case Fan(b, _) => !b.SetStart? && !b.SetEnd? && FanOut.Enabled(s.reg, b)
    case TakeEvent => s.run.Selecting? && s.events != []
    case Tick => s.run.Selecting?
    case Pick(p) => s.run.Sweeping? && p in s.run.todo
    case EndSweep => s.run.Sweeping? && s.run.todo == {}
    case ResyncRemove(_, _) => s.run.AtRemove?
    case ResyncRead(_) => s.run.AtRead?
    case ResyncAdd(_) => s.run.AtAdd?
    case LockForSet => s.run.AtSetVal? && FanOut.Enabled(s.reg, FanOut.SetStart(s.run.path, s.run.val))
    case UnlockAfterSet => s.run.InSetVal? && FanOut.Enabled(s.reg, FanOut.SetEnd)
    case FileGone(p) => p in s.watched
    case FileEvent(_) => true
  }

  function Do(s: State, a: Action): State
    requires Enabled(s, a)
  {
    match a
    case Fan(b, dropped) =>
      var t := s.(reg := FanOut.Do(s.reg, b));
      (match b
       case WatchAdded(p, _) => t.(watched := s.watched + {p})
       case WatchFailed => if dropped then t.(watched := s.watched - {s.reg.mu.path}) else t
       case ClosureUnwatch => if dropped then t.(watched := s.watched - {s.reg.mu.path}) else t
       case _ => t)
    case TakeEvent =>
      var e := s.events[0];
      s.(events := s.events[1..], run := if e.write || e.remove then AtRemove(e.path, ToSelect) else Selecting)
    case Tick => s.(run := Sweeping(s.failed, {}))
    case Pick(p) => s.(run := AtRemove(p, ToSweep(s.run.todo - {p}, s.run.fixed)))
    case EndSweep => s.(failed := s.failed - s.run.fixed, run := Selecting)
    case ResyncRemove(ok, dropped) =>
      var t := if dropped then s.(watched := s.watched - {s.run.path}) else s;
      if ok then t.(run := AtRead(s.run.path, s.run.next)) else ResyncFailed(t, s.run.path, s.run.next)
    case ResyncRead(read) =>
      if read.Some? then s.(run := AtAdd(s.run.path, read.value, s.run.next))
      else ResyncFailed(s, s.run.path, s.run.next)
    case ResyncAdd(ok) =>
      if !ok then ResyncFailed(s, s.run.path, s.run.next)
      else
        var next := if s.run.next.ToSweep? then ToSweep(s.run.next.todo, s.run.next.fixed + {s.run.path}) else ToSelect;
        s.(watched := s.watched + {s.run.path}, run := AtSetVal(s.run.path, s.run.val, next))
    case LockForSet =>
      var t := FanOut.Do(s.reg, FanOut.SetStart(s.run.path, s.run.val));
      s.(reg := t, run := if s.run.path in s.reg.paths then InSetVal(s.run.next) else Back(s.run.next))
    case UnlockAfterSet => s.(reg := FanOut.Do(s.reg, FanOut.SetEnd), run := Back(s.run.next))
    case FileGone(p) => s.(watched := s.watched - {p}, events := s.events + [Event(p, false, true)])
    case FileEvent(e) => s.(events := s.events + [e])
  }

  /** A failed resync of an event's path is remembered; in a sweep the path stays failed. */
  function ResyncFailed(s: State, p: string, next: Resume): State {
    match next
    case ToSelect => s.(failed := s.failed + {p}, run := Selecting)
    case ToSweep(todo, fixed) => s.(run := Sweeping(todo, fixed))
  }

  function Exec(s: State, acts: seq<Action>): Option<State> {
    if acts == [] then Some(s)
    else
      var before := Exec(s, acts[..|acts| - 1]);
      var a := acts[|acts| - 1];
      if before.Some? && Enabled(before.value, a) then Some(Do(before.value, a)) else None
  }

  ghost predicate Reachable(s: State) {
    exists acts: seq<Action> :: Exec(Init(), acts) == Some(s)
  }

  predicate MidResync(s: State, p: string) {
    (s.run.AtRemove? || s.run.AtRead? || s.run.AtAdd?) && s.run.path == p
  }

  ghost predicate RemoveQueued(s: State, p: string) {
    exists e :: e in s.events && e.path == p && e.remove
  }

  function NextOf(run: RunPc): Resume {
    match run
    case Selecting => ToSelect
    case Sweeping(todo, fixed) => ToSweep(todo, fixed)
    case AtRemove(_, next) => next
    case AtRead(_, next) => next
    case AtAdd(_, _, next) => next
    case AtSetVal(_, _, next) => next
    case InSetVal(next) => next
  }

  /** Paths that the running sweep has repaired already. */
  function Fixed(s: State): set<string> {
    if NextOf(s.run).ToSweep? then NextOf(s.run).fixed else {}
  }

  /** A path someone will look at again: the watcher, the sweep, runLoop, or an event. */
  ghost predicate Covered(s: State, p: string) {
    p in s.watched || p in s.failed - Fixed(s) || MidResync(s, p) || RemoveQueued(s, p)
  }

  /** A path that must not be lost sight of. */
  predicate Relevant(s: State, p: string) {
    (p in s.reg.paths && !(s.reg.mu.Unwatched? && s.reg.mu.path == p)) || (s.reg.mu.Adding? && s.reg.mu.path == p)
  }

  ghost predicate SweepOk(s: State) {
    NextOf(s.run).ToSweep? ==>
      && NextOf(s.run).todo <= s.failed && NextOf(s.run).fixed <= s.failed
      && NextOf(s.run).todo !! NextOf(s.run).fixed
      && forall p :: MidResync(s, p) ==> p in s.failed && p !in NextOf(s.run).fixed && p !in NextOf(s.run).todo
  }

  ghost predicate AllCovered(s: State) {
    forall p :: Relevant(s, p) ==> Covered(s, p)
  }

  ghost predicate Inv(s: State) {
    FanOutInvariant.Inv(s.reg) && SweepOk(s) && AllCovered(s)
  }

  /** A step of the registry makes no path relevant but the one Watch has just added, and
      only drops from the watcher a path that it makes irrelevant. */
  lemma FanRelevant(s: State, a: Action, p: string)
    requires a.Fan? && Enabled(s, a) && FanOutInvariant.MutexOk(s.reg) && Relevant(Do(s, a), p)
    ensures Relevant(s, p) || (a.a.WatchAdded? && a.a.path == p)
    ensures p in s.watched || (a.a.WatchAdded? && a.a.path == p) ==> p in Do(s, a).watched
  {
  }

  lemma FanStep(s: State, a: Action)
    requires Inv(s) && Enabled(s, a) && a.Fan?
    ensures SweepOk(Do(s, a)) && AllCovered(Do(s, a))
  {
    var t := Do(s, a);
    assert t.run == s.run && t.failed == s.failed && t.events == s.events;
    forall p | Relevant(t, p) ensures Covered(t, p) {
      FanRelevant(s, a, p);
      if p !in t.watched {
        assert Covered(s, p);
        assert RemoveQueued(s, p) ==> RemoveQueued(t, p);
      }
    }
  }

  /** Relevance and coverage when the registry stands still. */
  lemma CoverageKept(s: State, t: State)
    requires AllCovered(s) && t.reg == s.reg
    requires forall p :: Covered(s, p) ==> Covered(t, p)
    ensures AllCovered(t)
  {
  }

  lemma TakeStep(s: State)
    requires Inv(s) && Enabled(s, TakeEvent)
    ensures SweepOk(Do(s, TakeEvent)) && AllCovered(Do(s, TakeEvent))
  {
    var t := Do(s, TakeEvent);
    assert s.events == [s.events[0]] + t.events;
    CoverageKept(s, t);
  }

  lemma SweepStep(s: State, a: Action)
    requires Inv(s) && Enabled(s, a) && (a.Tick? || a.Pick? || a.EndSweep?)
    ensures SweepOk(Do(s, a)) && AllCovered(Do(s, a))
  {
    var t := Do(s, a);
    assert t.events == s.events;
    CoverageKept(s, t);
  }

  lemma ResyncStep(s: State, a: Action)
    requires Inv(s) && Enabled(s, a) && (a.ResyncRemove? || a.ResyncRead? || a.ResyncAdd?)
    ensures SweepOk(Do(s, a)) && AllCovered(Do(s, a))
  {
    var t := Do(s, a);
    assert t.events == s.events;
    assert SweepOk(t);
    CoverageKept(s, t);
  }

  lemma FileStep(s: State, a: Action)
    requires Inv(s) && Enabled(s, a) && (a.FileGone? || a.FileEvent?)
    ensures SweepOk(Do(s, a)) && AllCovered(Do(s, a))
  {
    var t := Do(s, a);
    var e := if a.FileGone? then Event(a.path, false, true) else a.e;
    assert t.events == s.events + [e];
    assert e in t.events && forall x :: x in s.events ==> x in t.events;
    CoverageKept(s, t);
  }

  lemma SetRelevant(s: State, a: Action, p: string)
    requires Enabled(s, a) && (a.LockForSet? || a.UnlockAfterSet?) && Relevant(Do(s, a), p)
    ensures Relevant(s, p)
  {
  }

  lemma SetFrame(s: State, a: Action)
    requires Enabled(s, a) && (a.LockForSet? || a.UnlockAfterSet?)
    ensures var t := Do(s, a);
            && t.watched == s.watched && t.failed == s.failed && t.events == s.events
            && NextOf(t.run) == NextOf(s.run) && forall p :: !MidResync(s, p) && !MidResync(t, p)
  {
  }

  lemma SetStep(s: State, a: Action)
    requires Inv(s) && Enabled(s, a) && (a.LockForSet? || a.UnlockAfterSet?)
    ensures SweepOk(Do(s, a)) && AllCovered(Do(s, a))
  {
    var t := Do(s, a);
    SetFrame(s, a);
    forall p | Relevant(t, p) ensures Covered(t, p) {
      SetRelevant(s, a, p);
      assert RemoveQueued(s, p) ==> RemoveQueued(t, p);
    }
  }

  /** Every step is a step of the registry, or leaves it alone. */
  lemma StepInv(s: State, a: Action)
    requires Inv(s) && Enabled(s, a)
    ensures Inv(Do(s, a))
  {
    match a
    case Fan(b, _) =>
      FanOutInvariant.StepInv(s.reg, b);
      FanStep(s, a);
    case TakeEvent => TakeStep(s);
    case Tick => SweepStep(s, a);
    case Pick(_) => SweepStep(s, a);
    case EndSweep => SweepStep(s, a);
    case LockForSet =>
      FanOutInvariant.StepInv(s.reg, FanOut.SetStart(s.run.path, s.run.val));
      SetStep(s, a);
    case UnlockAfterSet =>
      FanOutInvariant.StepInv(s.reg, FanOut.SetEnd);
      SetStep(s, a);
    case FileGone(_) => FileStep(s, a);
    case FileEvent(_) => FileStep(s, a);
    case _ => ResyncStep(s, a);
  }

  lemma {:induction false} ExecInv(acts: seq<Action>)
    ensures Exec(Init(), acts).Some? ==> Inv(Exec(Init(), acts).value)
  {
    if acts != [] {
      ExecInv(acts[..|acts| - 1]);
      var before := Exec(Init(), acts[..|acts| - 1]);
      if before.Some? && Enabled(before.value, acts[|acts| - 1]) {
        StepInv(before.value, acts[|acts| - 1]);
      }
    }
  }

  /** Every registered path, but for one that a running processWatchClosure has just taken
      out of the watcher, is in the watcher, is remembered as failed, is being resynced, or
      has its Remove event still queued. */
  lemma EveryPathIsCovered(s: State, p: string)
    requires Reachable(s) && p in s.reg.paths && !(s.reg.mu.Unwatched? && s.reg.mu.path == p)
    ensures p in s.watched || p in s.failed || MidResync(s, p) || RemoveQueued(s, p)
  {
    var acts: seq<Action> :| Exec(Init(), acts) == Some(s);
    ExecInv(acts);
    assert Relevant(s, p);
  }

  /** The registry inside a reachable state is reachable in module FanOut, so everything
      proved there holds with the event loop running beside it. */
  lemma {:induction false} RegistryIsFanOut(acts: seq<Action>)
    ensures Exec(Init(), acts).Some? ==> FanOut.Reachable(Exec(Init(), acts).value.reg)
  {
    if acts == [] {
      assert FanOut.Exec(FanOut.Init(), []) == Some(FanOut.Init());
    } else {
      RegistryIsFanOut(acts[..|acts| - 1]);
      var before, a := Exec(Init(), acts[..|acts| - 1]), acts[|acts| - 1];
      if before.Some? && Enabled(before.value, a) {
        var s := before.value;
        match a
        case Fan(b, _) => FanOutTheorems.ReachableStep(s.reg, b);
        case LockForSet => FanOutTheorems.ReachableStep(s.reg, FanOut.SetStart(s.run.path, s.run.val));
        case UnlockAfterSet => FanOutTheorems.ReachableStep(s.reg, FanOut.SetEnd);
        case _ =>
      }
    }
  }
}
