/** The inductive invariant of module Rollover. */
module RolloverInvariant {
  import opened Sequences
  import opened Rollover

  function PendingReset(s: State): seq<nat> {
    if s.pc.Busy? then s.pc.toReset else []
  }

  function PendingClose(s: State): seq<nat> {
    if s.pc.Busy? then s.pc.toClose else []
  }

  function PendingRemoval(s: State): seq<nat> {
    if s.pc.Busy? && s.pc.stage.Removing? then [s.pc.stage.c] else []
  }

  ghost predicate Versions(s: State) {
    && Now(s) >= 0
    && s.core.value == s.generations[Now(s)]
    && s.core.ctx == s.core.cancel == Now(s)
    && s.core.prevCancel == if Now(s) == 0 then None else Some(Now(s) - 1)
  }

  /** The background thread's own variables. */
  ghost predicate PcOk(s: State) {
    s.pc.Busy? ==>
      && Now(s) >= 1
      && s.pc.victim == (if Now(s) < s.cfg.Window() then None else Some(Now(s) - s.cfg.Window()))
      && (match s.pc.stage
          case Cancel => true
          case Yield => true
          case KillReset => s.cfg.forceKill && s.pc.toReset == s.pc.toClose
          case KillClose => s.cfg.forceKill && s.pc.toClose != [] && s.pc.toReset == s.pc.toClose[1..]
          case CloseNext => !s.cfg.forceKill
          case Removing(_) => s.cfg.forceKill ==> s.pc.toReset == s.pc.toClose
          case ResetNext => !s.cfg.forceKill && s.pc.toClose == [])
      && (s.cfg.forceKill && (s.pc.stage.Cancel? || s.pc.stage.Yield?) ==> s.pc.toReset == s.pc.toClose)
  }

  /** `l` lists distinct connections of generation `g`. */
  ghost predicate Lists(s: State, l: seq<nat>, g: int) {
    NoDup(l) && forall id :: id in l ==> id < |s.heap| && s.heap[id].gen == g
  }

  ghost predicate ListsOk(s: State) {
    && Lists(s, s.core.conns, Now(s))
    && Lists(s, s.core.prevConns, Now(s) - 1)
    && Lists(s, PendingReset(s), Now(s) - 1)
    && Lists(s, PendingClose(s), Now(s) - s.cfg.Window())
    && Lists(s, PendingRemoval(s), Now(s) - s.cfg.Window())
  }

  /** Which of the chanGroup's lists hold a connection, and how many calls of its
      underlying Close have not been followed by their removeMgdConn yet. */
  datatype Place = Place(current: bool, previous: bool, toReset: bool, toClose: bool, pending: nat)

  function PlaceOf(s: State, id: nat): Place {
    Place(id in s.core.conns, id in s.core.prevConns, id in PendingReset(s), id in PendingClose(s), s.removing[id])
  }

  /** What is known of a connection at generation `now`: which list holds it, and exactly
      what the background thread has done to it. */
  predicate Fits(c: Conn, now: int, window: nat, p: Place) {
    && c.gen <= now && p.pending <= c.ByOthers()
    && (c.gen == now ==> !c.reset && !c.handed && (p.current <==> p.pending == c.ByOthers()))
    && (c.gen == now - 1 ==> (p.previous <==> c.handed))
    && (c.gen < now ==>
          && (c.handed || p.pending < c.ByOthers())
          && (p.toReset ==> c.handed)
          && (c.reset <==> c.handed && !p.toReset))
    && (p.toClose ==> c.handed)
    && c.byLoop == if c.gen + window <= now && c.handed && !p.toClose then 1 else 0
  }

  ghost predicate ConnsFit(s: State) {
    forall id {:trigger s.heap[id]} :: 0 <= id < |s.heap| ==>
      Fits(s.heap[id], Now(s), s.cfg.Window(), PlaceOf(s, id))
  }

  /** Every connection was opened with the DSN merged from its generation's value. */
  ghost predicate DsnsOk(s: State) {
    forall id {:trigger s.heap[id]} :: 0 <= id < |s.heap| ==>
      s.heap[id].gen < |s.generations| && s.cfg.merge(s.generations[s.heap[id].gen]) == Some(s.heap[id].dsn)
  }

  /** How many generation contexts have been cancelled, oldest first. */
  function CancelledCount(s: State): int {
    Now(s) + 1 - s.cfg.Window() - if s.pc.Busy? && s.pc.stage.Cancel? then 1 else 0
  }

  ghost predicate ContextsOk(s: State) {
    || (forall g: nat :: g in s.cancelled <==> g < CancelledCount(s))
    || (s.pc.Terminated? && s.parentDone
        && forall g: nat :: g in s.cancelled <==> g < CancelledCount(s) || g == Now(s))
  }

  ghost predicate RemovingOk(s: State) {
    forall id :: id in s.removing ==> id < |s.heap|
  }

  /** The generation values are the received values with consecutive repeats dropped. */
  ghost predicate HistoryOk(s: State, value: string) {
    if s.pc.Received? then
      && s.received != []
      && s.received[|s.received| - 1] == s.pc.v
      && s.generations == Collapse([value] + s.received[..|s.received| - 1])
    else s.generations == Collapse([value] + s.received)
  }

  ghost predicate Inv(s: State, value: string) {
    && Versions(s)
    && PcOk(s)
    && ListsOk(s)
    && ConnsFit(s)
    && DsnsOk(s)
    && ContextsOk(s)
    && RemovingOk(s)
    && HistoryOk(s, value)
  }

  lemma InitInv(cfg: Config, value: string)
    ensures Inv(Init(cfg, value), value)
  {
  }

  lemma VersionsStep(s: State, a: Action)
    requires Enabled(s, a) && Versions(s) && PcOk(s)
    ensures Versions(Do(s, a)) && PcOk(Do(s, a))
  {
    if a.Loop? { if s.pc.Busy? { BusyVersions(s); } else { CriticalVersions(s); } }
  }

  lemma BusyVersions(s: State)
    requires s.pc.Busy? && Versions(s) && PcOk(s)
    ensures Versions(LoopStep(s)) && PcOk(LoopStep(s))
  {
  }

  lemma CriticalVersions(s: State)
    requires s.pc.Received? && Versions(s)
    ensures Versions(LoopStep(s)) && PcOk(LoopStep(s))
  {
  }

  /** Connections keep their identity, and closes are never undone. */
  ghost predicate Extends(s: State, t: State) {
    && |s.heap| <= |t.heap|
    && forall id :: 0 <= id < |s.heap| ==>
         && t.heap[id].gen == s.heap[id].gen && t.heap[id].dsn == s.heap[id].dsn
         && t.heap[id].ByOthers() >= s.heap[id].ByOthers()
  }

  lemma HeapStep(s: State, a: Action)
    requires Enabled(s, a)
    ensures Extends(s, Do(s, a))
  {
    if a.Loop? { HeapLoop(s); }
  }

  lemma HeapLoop(s: State)
    ensures Extends(s, LoopStep(s))
  {
    if s.pc.Received? { HeapCritical(s); }
  }

  lemma HeapCritical(s: State)
    requires s.pc.Received?
    ensures Extends(s, CriticalSection(s, s.pc.v))
  {
  }

  /** Only the critical section of processNewValue touches the generation's own fields. */
  lemma FrameStep(s: State, a: Action)
    requires Enabled(s, a) && !(a.Loop? && s.pc.Received?)
    ensures var t := Do(s, a);
            && t.cfg == s.cfg
            && t.generations == s.generations
            && (!a.Receive? ==> t.received == s.received && (t.pc == s.pc || (!t.pc.Received? && !s.pc.Received?)))
            && (!a.Open? ==> |t.heap| == |s.heap|)
            && t.core.(conns := s.core.conns) == s.core
  {
    if a.Loop? { FrameLoop(s); }
  }

  lemma FrameLoop(s: State)
    requires !s.pc.Received?
    ensures var t := LoopStep(s);
            && t.cfg == s.cfg && t.generations == s.generations && t.received == s.received
            && (t.pc == s.pc || !t.pc.Received?) && |t.heap| == |s.heap|
            && t.core.(conns := s.core.conns) == s.core
  {
  }

  ghost predicate Advances(l: seq<nat>, m: seq<nat>) {
    m == l || m == [] || (l != [] && m == l[1..])
  }

  lemma AdvanceKept(s: State, t: State, l: seq<nat>, m: seq<nat>, g: int)
    requires Lists(s, l, g) && Extends(s, t) && Advances(l, m)
    ensures Lists(t, m, g)
  {
    if l != [] { HeadTail(l); }
  }

  lemma RemovalKept(s: State, t: State, l: seq<nat>, c: nat, g: int)
    requires Lists(s, l, g) && Extends(s, t)
    ensures Lists(t, RemoveFirst(l, c), g)
  {
    RemoveFirstMembers(l, c);
  }

  lemma ListsStep(s: State, a: Action)
    requires Enabled(s, a) && Versions(s) && PcOk(s) && ListsOk(s)
    ensures ListsOk(Do(s, a))
  {
    if a.Open? {
      OpenLists(s, a.driverOk);
    } else if a.Loop? && s.pc.Received? {
      CriticalLists(s);
    } else {
      KeptLists(s, a);
    }
  }

  lemma CriticalLists(s: State)
    requires s.pc.Received? && Versions(s) && ListsOk(s)
    ensures ListsOk(LoopStep(s))
  {
    if s.pc.v != s.core.value { RotateLists(s); }
  }

  lemma RotateLists(s: State)
    requires s.pc.Received? && s.pc.v != s.core.value && Versions(s)
    requires Lists(s, s.core.conns, Now(s)) && Lists(s, s.core.prevConns, Now(s) - 1)
    ensures ListsOk(CriticalSection(s, s.pc.v))
  {
  }

  lemma OpenLists(s: State, ok: bool)
    requires Versions(s) && ListsOk(s)
    ensures ListsOk(OpenConn(s, ok))
  {
    var t := OpenConn(s, ok);
    if t != s {
      assert |s.heap| !in s.core.conns;
      assert t.core.conns == s.core.conns + [|s.heap|];
      assert NoDup(t.core.conns);
    }
  }

  /** How any step but an Open and the critical section moves along the lists. */
  ghost predicate Follows(s: State, t: State) {
    && Advances(PendingReset(s), PendingReset(t))
    && Advances(PendingClose(s), PendingClose(t))
    && (t.pc == s.pc
        || (t.pc.Busy? && t.pc.stage.Removing? ==> PendingClose(s) != [] && t.pc.stage.c == PendingClose(s)[0]))
    && (t.core.conns == s.core.conns || exists c :: t.core.conns == RemoveFirst(s.core.conns, c))
  }

  lemma BusyFollows(s: State)
    requires s.pc.Busy?
    ensures Follows(s, LoopStep(s))
  {
    if s.pc.stage.Removing? {
      assert LoopStep(s).core.conns == RemoveFirst(s.core.conns, s.pc.stage.c);
    }
  }

  lemma ClientFollows(s: State, a: Action)
    requires Enabled(s, a) && !a.Open? && !a.Loop?
    ensures Follows(s, Do(s, a))
  {
    if a.FinishRemove? {
      assert Do(s, a).core.conns == RemoveFirst(s.core.conns, a.id);
    }
  }

  lemma ListsFollow(s: State, t: State)
    requires ListsOk(s) && Extends(s, t) && Follows(s, t)
    requires t.cfg == s.cfg && t.generations == s.generations && t.core.prevConns == s.core.prevConns
    ensures ListsOk(t)
  {
    if t.core.conns != s.core.conns {
      var c :| t.core.conns == RemoveFirst(s.core.conns, c);
      RemovalKept(s, t, s.core.conns, c, Now(s));
    } else {
      AdvanceKept(s, t, s.core.conns, t.core.conns, Now(s));
    }
    AdvanceKept(s, t, s.core.prevConns, t.core.prevConns, Now(s) - 1);
    AdvanceKept(s, t, PendingReset(s), PendingReset(t), Now(s) - 1);
    AdvanceKept(s, t, PendingClose(s), PendingClose(t), Now(s) - s.cfg.Window());
    if t.pc == s.pc {
      AdvanceKept(s, t, PendingRemoval(s), PendingRemoval(t), Now(s) - s.cfg.Window());
    }
  }

  lemma KeptLists(s: State, a: Action)
    requires Enabled(s, a) && !a.Open? && !(a.Loop? && s.pc.Received?)
    requires ListsOk(s)
    ensures ListsOk(Do(s, a))
  {
    HeapStep(s, a);
    FrameStep(s, a);
    if a.Loop? { BusyFollows(s); } else { ClientFollows(s, a); }
    ListsFollow(s, Do(s, a));
  }

  lemma FitsStep(s: State, a: Action, id: nat)
    requires Enabled(s, a) && Versions(s) && PcOk(s) && ListsOk(s) && RemovingOk(s)
    requires id < |s.heap| && Fits(s.heap[id], Now(s), s.cfg.Window(), PlaceOf(s, id))
    ensures |s.heap| <= |Do(s, a).heap|
    ensures var t := Do(s, a); Fits(t.heap[id], Now(t), t.cfg.Window(), PlaceOf(t, id))
  {
    match a
    case Open(ok) => OpenFits(s, ok, id);
    case FinishRemove(k) => RemoveFits(s, k, id);
    case Loop => if s.pc.Busy? { BusyFits(s, id); } else { CriticalFits(s, id); }
    case ClientClose(_) => ClientFits(s, a, id);
    case GuardClose(_) => ClientFits(s, a, id);
    case _ => SelectFits(s, a, id);
  }

  lemma OpenFits(s: State, ok: bool, id: nat)
    requires id < |s.heap| && Fits(s.heap[id], Now(s), s.cfg.Window(), PlaceOf(s, id))
    ensures var t := OpenConn(s, ok);
            |s.heap| <= |t.heap| && Fits(t.heap[id], Now(t), t.cfg.Window(), PlaceOf(t, id))
  {
  }

  lemma RemoveFits(s: State, k: nat, id: nat)
    requires k in s.removing && NoDup(s.core.conns)
    requires id < |s.heap| && Fits(s.heap[id], Now(s), s.cfg.Window(), PlaceOf(s, id))
    ensures var t := Do(s, FinishRemove(k));
            t.heap == s.heap && Fits(t.heap[id], Now(t), t.cfg.Window(), PlaceOf(t, id))
  {
    RemoveFirstMembers(s.core.conns, k);
  }

  lemma ClientFits(s: State, a: Action, id: nat)
    requires Enabled(s, a) && (a.ClientClose? || a.GuardClose?)
    requires id < |s.heap| && Fits(s.heap[id], Now(s), s.cfg.Window(), PlaceOf(s, id))
    ensures var t := Do(s, a);
            |t.heap| == |s.heap| && Fits(t.heap[id], Now(t), t.cfg.Window(), PlaceOf(t, id))
  {
  }

  /** Steps that leave all connections and lists alone. */
  lemma SelectFits(s: State, a: Action, id: nat)
    requires Enabled(s, a)
    requires a.CancelParent? || a.Receive? || a.ObserveParentDone? || a.ObserveChannelClosed?
    requires id < |s.heap| && Fits(s.heap[id], Now(s), s.cfg.Window(), PlaceOf(s, id))
    ensures var t := Do(s, a); t.heap == s.heap && Fits(t.heap[id], Now(t), t.cfg.Window(), PlaceOf(t, id))
  {
  }

  lemma CriticalFits(s: State, id: nat)
    requires s.pc.Received? && Versions(s) && ListsOk(s)
    requires id < |s.heap| && Fits(s.heap[id], Now(s), s.cfg.Window(), PlaceOf(s, id))
    ensures var t := LoopStep(s); |t.heap| == |s.heap| && Fits(t.heap[id], Now(t), t.cfg.Window(), PlaceOf(t, id))
  {
    if s.pc.v != s.core.value { RotateFits(s, id); }
  }

  lemma RotateFits(s: State, id: nat)
    requires s.pc.Received? && s.pc.v != s.core.value && Versions(s)
    requires Lists(s, s.core.conns, Now(s)) && Lists(s, s.core.prevConns, Now(s) - 1)
    requires id < |s.heap| && Fits(s.heap[id], Now(s), s.cfg.Window(), PlaceOf(s, id))
    ensures var t := CriticalSection(s, s.pc.v);
            |t.heap| == |s.heap| && Fits(t.heap[id], Now(t), t.cfg.Window(), PlaceOf(t, id))
  {
  }

  lemma BusyFits(s: State, id: nat)
    requires s.pc.Busy? && Versions(s) && PcOk(s) && ListsOk(s)
    requires id < |s.heap| && Fits(s.heap[id], Now(s), s.cfg.Window(), PlaceOf(s, id))
    ensures |s.heap| <= |LoopStep(s).heap|
    ensures var t := LoopStep(s); Fits(t.heap[id], Now(t), t.cfg.Window(), PlaceOf(t, id))
  {
    match s.pc.stage
    case Cancel =>
    case Yield =>
    case KillReset => ResetFits(s, id);
    case ResetNext => ResetFits(s, id);
    case KillClose => CloseFits(s, id);
    case CloseNext => CloseFits(s, id);
    case Removing(c) =>
      assert c == PendingRemoval(s)[0] && c !in s.core.conns;
      RemoveFirstAbsent(s.core.conns, c);
  }

  lemma ResetFits(s: State, id: nat)
    requires s.pc.Busy? && (s.pc.stage.KillReset? || s.pc.stage.ResetNext?) && PcOk(s)
    requires Lists(s, s.pc.toReset, Now(s) - 1)
    requires id < |s.heap| && Fits(s.heap[id], Now(s), s.cfg.Window(), PlaceOf(s, id))
    ensures |s.heap| <= |LoopStep(s).heap|
    ensures var t := LoopStep(s); Fits(t.heap[id], Now(t), t.cfg.Window(), PlaceOf(t, id))
  {
    if s.pc.toReset != [] { HeadTail(s.pc.toReset); }
  }

  lemma CloseFits(s: State, id: nat)
    requires s.pc.Busy? && (s.pc.stage.KillClose? || s.pc.stage.CloseNext?) && PcOk(s)
    requires Lists(s, s.pc.toClose, Now(s) - s.cfg.Window())
    requires id < |s.heap| && Fits(s.heap[id], Now(s), s.cfg.Window(), PlaceOf(s, id))
    ensures |s.heap| <= |LoopStep(s).heap|
    ensures var t := LoopStep(s); Fits(t.heap[id], Now(t), t.cfg.Window(), PlaceOf(t, id))
  {
    if s.pc.toClose != [] { HeadTail(s.pc.toClose); }
  }

  lemma DsnsStep(s: State, a: Action)
    requires Enabled(s, a) && Versions(s) && DsnsOk(s)
    ensures DsnsOk(Do(s, a))
  {
    if a.Open? {
      OpenDsns(s, a.driverOk);
    } else {
      HeapStep(s, a);
      if a.Loop? && s.pc.Received? { CriticalKeeps(s); } else { FrameStep(s, a); }
      DsnsKept(s, Do(s, a));
    }
  }

  lemma OpenDsns(s: State, ok: bool)
    requires Versions(s) && DsnsOk(s)
    ensures DsnsOk(OpenConn(s, ok))
  {
  }

  lemma CriticalKeeps(s: State)
    requires s.pc.Received?
    ensures var t := LoopStep(s); |t.heap| == |s.heap| && t.cfg == s.cfg && s.generations <= t.generations
  {
  }

  lemma DsnsKept(s: State, t: State)
    requires DsnsOk(s) && Extends(s, t) && |t.heap| == |s.heap|
    requires t.cfg == s.cfg && s.generations <= t.generations
    ensures DsnsOk(t)
  {
    forall id | 0 <= id < |t.heap|
      ensures t.heap[id].gen < |t.generations| && t.cfg.merge(t.generations[t.heap[id].gen]) == Some(t.heap[id].dsn)
    {
      assert s.heap[id].gen < |s.generations|;
    }
  }

  lemma ContextsStep(s: State, a: Action)
    requires Enabled(s, a) && Versions(s) && PcOk(s) && ContextsOk(s)
    ensures ContextsOk(Do(s, a))
  {
  }

  lemma RemovingStep(s: State, a: Action)
    requires Enabled(s, a) && RemovingOk(s)
    ensures RemovingOk(Do(s, a))
  {
    HeapStep(s, a);
  }

  lemma HistoryStep(s: State, a: Action, value: string)
    requires Enabled(s, a) && HistoryOk(s, value) && Versions(s)
    ensures HistoryOk(Do(s, a), value)
  {
    if a.Receive? {
      assert Do(s, a).received[..|s.received|] == s.received;
    } else if a.Loop? && s.pc.Received? {
      CriticalHistory(s, value);
    } else {
      FrameStep(s, a);
    }
  }

  lemma CriticalHistory(s: State, value: string)
    requires s.pc.Received? && HistoryOk(s, value) && Versions(s)
    ensures HistoryOk(LoopStep(s), value)
  {
    var before := [value] + s.received[..|s.received| - 1];
    assert [value] + s.received == before + [s.pc.v];
    CollapseStep(before, s.pc.v);
    assert s.core.value == before[|before| - 1];
  }

  lemma StepInv(s: State, value: string, a: Action)
    requires Inv(s, value) && Enabled(s, a)
    ensures Inv(Do(s, a), value)
  {
    VersionsStep(s, a);
    ListsStep(s, a);
    DsnsStep(s, a);
    ContextsStep(s, a);
    RemovingStep(s, a);
    HistoryStep(s, a, value);
    ConnsStep(s, a);
  }

  lemma ConnsStep(s: State, a: Action)
    requires Enabled(s, a) && Versions(s) && PcOk(s) && ListsOk(s) && RemovingOk(s) && ConnsFit(s)
    ensures ConnsFit(Do(s, a))
  {
    var t := Do(s, a);
    HeapStep(s, a);
    forall id | 0 <= id < |t.heap| ensures Fits(t.heap[id], Now(t), t.cfg.Window(), PlaceOf(t, id)) {
      if id < |s.heap| { FitsStep(s, a, id); } else { NewFits(s, a, id); }
    }
  }

  lemma NewFits(s: State, a: Action, id: nat)
    requires Enabled(s, a) && Versions(s) && ListsOk(s) && RemovingOk(s) && |s.heap| <= id < |Do(s, a).heap|
    ensures var t := Do(s, a); Fits(t.heap[id], Now(t), t.cfg.Window(), PlaceOf(t, id))
  {
    FrameHeap(s, a);
    assert id !in s.core.prevConns && id !in PendingReset(s) && id !in PendingClose(s) && id !in s.removing;
  }

  lemma FrameHeap(s: State, a: Action)
    requires Enabled(s, a)
    ensures !a.Open? ==> |Do(s, a).heap| == |s.heap|
  {
  }

  lemma {:induction false} ExecInv(cfg: Config, value: string, acts: seq<Action>)
    ensures var r := Exec(Init(cfg, value), acts); r.Some? ==> r.value.cfg == cfg && Inv(r.value, value)
  {
    if acts == [] {
      InitInv(cfg, value);
    } else {
      ExecInv(cfg, value, acts[..|acts| - 1]);
      var before := Exec(Init(cfg, value), acts[..|acts| - 1]);
      if before.Some? && Enabled(before.value, acts[|acts| - 1]) {
        StepInv(before.value, value, acts[|acts| - 1]);
      }
    }
  }

  lemma ReachableInv(cfg: Config, value: string, s: State)
    requires Reachable(cfg, value, s)
    ensures s.cfg == cfg && Inv(s, value)
  {
    var acts: seq<Action> :| Exec(Init(cfg, value), acts) == Some(s);
    ExecInv(cfg, value, acts);
  }
}
