/** driver.go and conn.go: generation rollover of one chanGroup, as a state machine.

    One background thread (runLoop) receives values and runs processNewValue; any number
    of client threads open, validate and close connections at any moment.  Each code
    fragment that runs under `cg.mu` is one step.  Everything outside the lock is split
    into steps small enough to interleave: an underlying Close and the removeMgdConn
    that follows it, the cancel call, the sleep, and every Reset and Close of the
    background loops.  The mutex of a managedConn is left out here, so this model has
    more interleavings than the code; module Locks models it.

    A generation is the number of real value changes so far.  Context number g is the
    context made for generation g, which is also what a connection records as its own. */
module Rollover {
  import opened Sequences
  import opened GroupCore

  /** `merge` stands for mergeConnStringOptions with the driver's options fixed. */
  datatype Config = Config(forceKill: bool, merge: string -> Option<string>) {
    /** How many changes a connection survives: it is closed at that change. */
    function Window(): nat {
      if forceKill then 1 else 2
    }
  }

  /** A managedConn, with the calls of its underlying Close counted by caller; `handed`
      records that it was still in cg.conns when its generation ended. */
  datatype Conn = Conn(
    gen: nat,
    dsn: string,
    reset: bool,
    byClients: nat,
    byGuard: nat,
    byLoop: nat,
    handed: bool)
  {
    function ByOthers(): nat {
      byClients + byGuard
    }

    function Closes(): nat {
      byClients + byGuard + byLoop
    }
  }

  /** The statement runLoop executes next inside processNewValue.  The Kill stages are
      the forceKill loop, the Close and Reset stages the two loops of the graceful mode. */
  datatype Stage = Cancel | Yield | KillReset | KillClose | CloseNext | ResetNext | Removing(c: nat)

  /** Where runLoop is.  While busy it has a context to cancel, and lists of the
      connections whose Reset and whose Close are still ahead, in loop order. */
  datatype Pc =
    | Idle
    | Received(v: string)
    | Busy(stage: Stage, victim: Option<nat>, toReset: seq<nat>, toClose: seq<nat>)
    | Terminated

  /** `heap` holds every connection ever opened; `removing` the connections whose
      underlying Close a client thread has called without having removed them yet.
      `generations`, `received` and `handed` record history and steer nothing. */
  datatype State = State(
    cfg: Config,
    core: Core<nat, nat>,
    parentDone: bool,
    cancelled: set<nat>,
    heap: seq<Conn>,
    removing: multiset<nat>,
    pc: Pc,
    generations: seq<string>,
    received: seq<string>)

  datatype Action =
    | Open(driverOk: bool)
    | ClientClose(id: nat)
    | GuardClose(id: nat)
    | FinishRemove(id: nat)
    | CancelParent
    | Receive(v: string)
    | ObserveParentDone
    | ObserveChannelClosed
    | Loop

  function Init(cfg: Config, value: string): State {
    State(cfg, Core(value, 0, 0, None, [], []), false, {}, [], multiset{}, Idle, [value], [])
  }

  predicate CtxDone(s: State, g: nat) {
    s.parentDone || g in s.cancelled
  }

  predicate Enabled(s: State, a: Action) {
    match a
    case Open(_) => true
    case ClientClose(id) => id < |s.heap|
    case GuardClose(id) => id < |s.heap| && CtxDone(s, s.heap[id].gen)
    case FinishRemove(id) => id in s.removing
    case CancelParent => true
    case Receive(_) => s.pc.Idle?
    case ObserveParentDone => s.pc.Idle? && s.parentDone
    case ObserveChannelClosed => s.pc.Idle?
    case Loop => !s.pc.Idle? && !s.pc.Terminated?
  }

  function Do(s: State, a: Action): State {
    match a
    case Open(ok) => OpenConn(s, ok)
    case ClientClose(id) =>
      if id < |s.heap| then
        var c := s.heap[id];
        s.(heap := s.heap[id := c.(byClients := c.byClients + 1)], removing := s.removing + multiset{id})
      else s
    case GuardClose(id) =>
      if id < |s.heap| then
        var c := s.heap[id];
        s.(heap := s.heap[id := c.(byGuard := c.byGuard + 1)], removing := s.removing + multiset{id})
      else s
    case FinishRemove(id) =>
      s.(core := Remove(s.core, id), removing := s.removing - multiset{id})
    case CancelParent => s.(parentDone := true)
    case Receive(v) => s.(pc := Received(v), received := s.received + [v])
    case ObserveParentDone => s.(cancelled := s.cancelled + {s.core.cancel}, pc := Terminated)
    case ObserveChannelClosed => s.(pc := Terminated)
    case Loop => LoopStep(s)
  }

  /** chanGroup.Open: a failing merge or a failing driver leaves everything as it was. */
  function OpenConn(s: State, driverOk: bool): State {
    match s.cfg.merge(s.core.value)
    case None => s
    case Some(dsn) =>
      if driverOk then
        s.(heap := s.heap + [Conn(s.core.ctx, dsn, false, 0, 0, 0, false)], core := Insert(s.core, |s.heap|))
      else s
  }

  function WithReset(heap: seq<Conn>, id: nat): seq<Conn> {
    if id < |heap| then heap[id := heap[id].(reset := true)] else heap
  }

  function WithClose(heap: seq<Conn>, id: nat): seq<Conn> {
    if id < |heap| then heap[id := heap[id].(byLoop := heap[id].byLoop + 1)] else heap
  }

  /** One step of the background thread inside processNewValue. */
  function LoopStep(s: State): State {
    match s.pc
    case Idle => s
    case Terminated => s
    case Received(v) => CriticalSection(s, v)
    case Busy(stage, victim, toReset, toClose) =>
      match stage
      case Cancel =>
        s.(cancelled := s.cancelled + (if victim.Some? then {victim.value} else {}), pc := s.pc.(stage := Yield))
      case Yield => s.(pc := s.pc.(stage := if s.cfg.forceKill then KillReset else CloseNext))
      case KillReset =>
        if toReset == [] then s.(pc := Idle)
        else s.(heap := WithReset(s.heap, toReset[0]), pc := s.pc.(stage := KillClose, toReset := toReset[1..]))
      case KillClose => CloseHead(s)
      case CloseNext => if toClose == [] then s.(pc := s.pc.(stage := ResetNext)) else CloseHead(s)
      case Removing(c) =>
        s.(core := Remove(s.core, c), pc := s.pc.(stage := if s.cfg.forceKill then KillReset else CloseNext))
      case ResetNext =>
        if toReset == [] then s.(pc := Idle)
        else s.(heap := WithReset(s.heap, toReset[0]), pc := s.pc.(toReset := toReset[1..]))
  }

  /** The underlying Close of the next connection; removeMgdConn follows it. */
  function CloseHead(s: State): State {
    if !s.pc.Busy? || s.pc.toClose == [] then s
    else
      var c := s.pc.toClose[0];
      s.(heap := WithClose(s.heap, c), pc := s.pc.(stage := Removing(c), toClose := s.pc.toClose[1..]))
  }

  /** The history of the connections that a critical section finds in cg.conns. */
  function HandOver(heap: seq<Conn>, conns: seq<nat>): (r: seq<Conn>)
    ensures |r| == |heap|
    ensures forall id :: 0 <= id < |heap| ==> r[id] == heap[id].(handed := heap[id].handed || id in conns)
  {
    seq(|heap|, id requires 0 <= id < |heap| => heap[id].(handed := heap[id].handed || id in conns))
  }

  /** The critical section of processNewValue, with the choice of what the code after it
      cancels, resets and closes in each mode. */
  function CriticalSection(s: State, v: string): State {
    if v == s.core.value then s.(pc := Idle)
    else
      var prev := OldInfoOf(s.core);
      s.(core := Rotate(s.core, v, |s.generations|),
         heap := HandOver(s.heap, s.core.conns),
         pc := if s.cfg.forceKill then Busy(Cancel, Some(prev.prevCancel), prev.prevConns, prev.prevConns)
               else Busy(Cancel, prev.prevPrevCancel, prev.prevConns, prev.prevPrevConns),
         generations := s.generations + [v])
  }

  /** The state a run of actions leads to, or None when an action was not enabled. */
  function Exec(s: State, acts: seq<Action>): Option<State> {
    if acts == [] then Some(s)
    else
      var before := Exec(s, acts[..|acts| - 1]);
      var a := acts[|acts| - 1];
      if before.Some? && Enabled(before.value, a) then Some(Do(before.value, a)) else None
  }

  /** `s` can be reached from a chanGroup created with `value`. */
  ghost predicate Reachable(cfg: Config, value: string, s: State) {
    exists acts: seq<Action> :: Exec(Init(cfg, value), acts) == Some(s)
  }

  /** The current generation. */
  function Now(s: State): int {
    |s.generations| - 1
  }
}
