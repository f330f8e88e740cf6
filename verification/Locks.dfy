/** The driver-side mutexes: the driver registry's, each managedConn's, each chanGroup's
    and the secret sink's, with every code path that takes them.

    Read locks count as exclusive and a call's lock pattern is taken at its longest, so a
    thread here waits whenever one of the program could. */
module Locks {
  import opened Sequences

  datatype Lock = DriverMu | ConnMu(c: nat) | GroupMu(g: nat) | SinkMu

  /** Locks are taken in the order of their ranks. */
  function Rank(l: Lock): nat {
    match l
    case DriverMu => 0
    case ConnMu(_) => 1
    case GroupMu(_) => 2
    case SinkMu => 3
  }

  /** Code, reduced to its locking: a lock held around a body, or two parts in sequence. */
  datatype Code = Nop | Hold(l: Lock, body: Code) | Then(first: Code, second: Code)

  /** The entry points that lock.  `owner` gives the chanGroup of a connection. */
  datatype Call =
    | Register
    | DriverOpen(g: nat, isNew: bool)
    | CloseConn(c: nat)
    | GuardConn(c: nat, done: bool)
    | ResetConn(c: nat)
    | NewValue(g: nat, changed: bool, forceKill: bool, prevConns: seq<nat>, prevPrevConns: seq<nat>)
    | RedactUrl

  function CodeOf(owner: nat -> nat, call: Call): Code {
    match call
    case Register => Hold(DriverMu, Nop)
    case DriverOpen(g, isNew) => Hold(DriverMu, Then(if isNew then Redact() else Nop, GroupOpen(g)))
    case CloseConn(c) => Close(owner, c)
    case GuardConn(c, done) => if done then RemoveConn(owner(c)) else Nop
    case ResetConn(c) => Hold(ConnMu(c), Nop)
    case NewValue(g, changed, forceKill, prevConns, prevPrevConns) =>
      Then(Hold(GroupMu(g), Redact()),
           if !changed then Nop
           else if forceKill then KillEach(owner, prevConns)
           else Then(CloseEach(owner, prevPrevConns), ResetEach(prevConns)))
    case RedactUrl => Redact()
  }

  function Redact(): Code {
    Hold(SinkMu, Nop)
  }

  function GroupOpen(g: nat): Code {
    Hold(GroupMu(g), Redact())
  }

  function RemoveConn(g: nat): Code {
    Hold(GroupMu(g), Nop)
  }

  /** managedConn.Close keeps its lock while the callback takes the chanGroup's. */
  function Close(owner: nat -> nat, c: nat): Code {
    Hold(ConnMu(c), RemoveConn(owner(c)))
  }

  function ResetEach(l: seq<nat>): Code {
    if l == [] then Nop else Then(Hold(ConnMu(l[0]), Nop), ResetEach(l[1..]))
  }

  function CloseEach(owner: nat -> nat, l: seq<nat>): Code {
    if l == [] then Nop else Then(Close(owner, l[0]), CloseEach(owner, l[1..]))
  }

  function KillEach(owner: nat -> nat, l: seq<nat>): Code {
    if l == [] then Nop
    else Then(Then(Hold(ConnMu(l[0]), Nop), Close(owner, l[0])), KillEach(owner, l[1..]))
  }

  datatype Instr = Acquire(l: Lock) | Release(l: Lock)

  function Flatten(p: Code): seq<Instr> {
    match p
    case Nop => []
    case Hold(l, body) => [Acquire(l)] + Flatten(body) + [Release(l)]
    case Then(first, second) => Flatten(first) + Flatten(second)
  }

  datatype Thread = Thread(code: seq<Instr>, held: set<Lock>)

  type State = seq<Thread>

  /** A new thread, a further call of an idle one, or the next instruction of a thread. */
  datatype Action = Spawn | Begin(t: nat, call: Call) | Step(t: nat)

  /** The lock that a thread needs next. */
  function Wants(th: Thread): Option<Lock> {
    if th.code != [] && th.code[0].Acquire? then Some(th.code[0].l) else None
  }

  predicate Free(s: State, l: Lock) {
    forall u :: 0 <= u < |s| ==> l !in s[u].held
  }

  predicate Enabled(s: State, a: Action) {
    match a
    case Spawn => true
    case Begin(t, _) => t < |s| && s[t].code == []
    case Step(t) => t < |s| && s[t].code != [] && (Wants(s[t]).Some? ==> Free(s, Wants(s[t]).value))
  }

  function Do(owner: nat -> nat, s: State, a: Action): State
    requires Enabled(s, a)
  {
    match a
    case Spawn => s + [Thread([], {})]
    case Begin(t, call) => s[t := s[t].(code := Flatten(CodeOf(owner, call)))]
    case Step(t) =>
      var th := s[t];
      s[t := Thread(th.code[1..], match th.code[0]
                                  case Acquire(l) => th.held + {l}
                                  case Release(l) => th.held - {l})]
  }

  function Exec(owner: nat -> nat, acts: seq<Action>): Option<State> {
    if acts == [] then Some([])
    else
      var before := Exec(owner, acts[..|acts| - 1]);
      var a := acts[|acts| - 1];
      if before.Some? && Enabled(before.value, a) then Some(Do(owner, before.value, a)) else None
  }

  ghost predicate Reachable(owner: nat -> nat, s: State) {
    exists acts: seq<Action> :: Exec(owner, acts) == Some(s)
  }

  ghost predicate Above(held: set<Lock>, l: Lock) {
    forall h :: h in held ==> Rank(h) < Rank(l)
  }

  /** Every lock taken outranks those held, and all are released in the end. */
  ghost predicate Ordered(code: seq<Instr>, held: set<Lock>) {
    if code == [] then held == {}
    else match code[0]
      case Acquire(l) => Above(held, l) && Ordered(code[1..], held + {l})
      case Release(l) => l in held && Ordered(code[1..], held - {l})
  }

  ghost predicate Nested(p: Code, held: set<Lock>) {
    match p
    case Nop => true
    case Hold(l, body) => Above(held, l) && Nested(body, held + {l})
    case Then(first, second) => Nested(first, held) && Nested(second, held)
  }

  lemma {:induction false} NestedIsOrdered(p: Code, held: set<Lock>, rest: seq<Instr>)
    requires Nested(p, held) && Ordered(rest, held)
    ensures Ordered(Flatten(p) + rest, held)
  {
    match p
    case Nop => assert [] + rest == rest;
    case Hold(l, body) =>
      assert held + {l} - {l} == held;
      assert ([Release(l)] + rest)[1..] == rest;
      NestedIsOrdered(body, held + {l}, [Release(l)] + rest);
      assert (Flatten(p) + rest)[1..] == Flatten(body) + ([Release(l)] + rest);
    case Then(first, second) =>
      NestedIsOrdered(second, held, rest);
      NestedIsOrdered(first, held, Flatten(second) + rest);
      assert Flatten(p) + rest == Flatten(first) + (Flatten(second) + rest);
  }

  lemma {:induction false} LoopsNested(owner: nat -> nat, l: seq<nat>)
    ensures Nested(ResetEach(l), {}) && Nested(CloseEach(owner, l), {}) && Nested(KillEach(owner, l), {})
  {
    if l != [] {
      LoopsNested(owner, l[1..]);
      CloseNested(owner, l[0]);
    }
  }

  lemma CloseNested(owner: nat -> nat, c: nat)
    ensures Nested(Close(owner, c), {}) && Nested(Hold(ConnMu(c), Nop), {})
  {
    assert Nested(RemoveConn(owner(c)), {} + {ConnMu(c)});
  }

  lemma GroupOpenNested(g: nat, held: set<Lock>)
    requires Above(held, GroupMu(g))
    ensures Nested(GroupOpen(g), held) && Nested(Redact(), held)
  {
    assert Nested(Redact(), held + {GroupMu(g)});
  }

  /** Every entry point of the driver respects the lock order. */
  lemma EveryCallIsOrdered(owner: nat -> nat, call: Call)
    ensures Nested(CodeOf(owner, call), {})
    ensures Ordered(Flatten(CodeOf(owner, call)), {})
  {
    match call {
      case DriverOpen(g, isNew) => GroupOpenNested(g, {} + {DriverMu});
      case CloseConn(c) => CloseNested(owner, c);
      case NewValue(g, _, _, prevConns, prevPrevConns) =>
        GroupOpenNested(g, {});
        LoopsNested(owner, prevConns);
        LoopsNested(owner, prevPrevConns);
      case _ =>
    }
    NestedIsOrdered(CodeOf(owner, call), {}, []);
    assert Flatten(CodeOf(owner, call)) + [] == Flatten(CodeOf(owner, call));
  }

  lemma GroupOpenIs(g: nat)
    ensures Flatten(GroupOpen(g)) == [Acquire(GroupMu(g)), Acquire(SinkMu), Release(SinkMu), Release(GroupMu(g))]
  {
    assert Flatten(Redact()) == [Acquire(SinkMu), Release(SinkMu)];
  }

  lemma CloseIs(owner: nat -> nat, c: nat)
    ensures Flatten(Close(owner, c))
         == [Acquire(ConnMu(c)), Acquire(GroupMu(owner(c))), Release(GroupMu(owner(c))), Release(ConnMu(c))]
  {
    assert Flatten(RemoveConn(owner(c))) == [Acquire(GroupMu(owner(c))), Release(GroupMu(owner(c)))];
  }

  /** The exact locks of closing, guarding and resetting a connection.  A close takes the
      chanGroup's lock within the connection's, so that the callback runs under both; the
      guard takes the chanGroup's alone. */
  lemma LocksOfConn(owner: nat -> nat, c: nat)
    ensures Flatten(CodeOf(owner, CloseConn(c)))
         == [Acquire(ConnMu(c)), Acquire(GroupMu(owner(c))), Release(GroupMu(owner(c))), Release(ConnMu(c))]
    ensures Flatten(CodeOf(owner, GuardConn(c, true))) == [Acquire(GroupMu(owner(c))), Release(GroupMu(owner(c)))]
    ensures Flatten(CodeOf(owner, GuardConn(c, false))) == []
    ensures Flatten(CodeOf(owner, ResetConn(c))) == [Acquire(ConnMu(c)), Release(ConnMu(c))]
  {
    CloseIs(owner, c);
  }

  /** The exact locks of the driver's entry points: a chanGroup opens a connection within the
      driver's lock. */
  lemma LocksOfDriver(owner: nat -> nat, g: nat)
    ensures Flatten(CodeOf(owner, Register)) == [Acquire(DriverMu), Release(DriverMu)]
    ensures Flatten(CodeOf(owner, RedactUrl)) == [Acquire(SinkMu), Release(SinkMu)]
    ensures Flatten(CodeOf(owner, DriverOpen(g, false)))
         == [Acquire(DriverMu), Acquire(GroupMu(g)), Acquire(SinkMu),
             Release(SinkMu), Release(GroupMu(g)), Release(DriverMu)]
    ensures Flatten(CodeOf(owner, DriverOpen(g, true)))
         == [Acquire(DriverMu), Acquire(SinkMu), Release(SinkMu), Acquire(GroupMu(g)), Acquire(SinkMu),
             Release(SinkMu), Release(GroupMu(g)), Release(DriverMu)]
  {
    GroupOpenIs(g);
    assert Flatten(Then(Nop, GroupOpen(g))) == Flatten(GroupOpen(g));
    assert Flatten(Then(Redact(), GroupOpen(g))) == [Acquire(SinkMu), Release(SinkMu)] + Flatten(GroupOpen(g));
  }

  /** A change: the critical section is over, with its lock given back, before any connection
      is touched. */
  lemma LocksOfChange(owner: nat -> nat, g: nat, prev: seq<nat>, prevPrev: seq<nat>, forceKill: bool)
    ensures var section := [Acquire(GroupMu(g)), Acquire(SinkMu), Release(SinkMu), Release(GroupMu(g))];
            && Flatten(CodeOf(owner, NewValue(g, false, forceKill, prev, prevPrev))) == section
            && Flatten(CodeOf(owner, NewValue(g, true, true, prev, prevPrev)))
               == section + Flatten(KillEach(owner, prev))
            && Flatten(CodeOf(owner, NewValue(g, true, false, prev, prevPrev)))
               == section + (Flatten(CloseEach(owner, prevPrev)) + Flatten(ResetEach(prev)))
  {
    GroupOpenIs(g);
    assert Hold(GroupMu(g), Redact()) == GroupOpen(g);
  }

  /** The loops of a change take the locks of each Reset and each Close in turn. */
  lemma LocksOfLoops(owner: nat -> nat, c: nat, rest: seq<nat>)
    ensures Flatten(ResetEach([])) == Flatten(CloseEach(owner, [])) == Flatten(KillEach(owner, [])) == []
    ensures var reset, close := Flatten(CodeOf(owner, ResetConn(c))), Flatten(CodeOf(owner, CloseConn(c)));
            && Flatten(ResetEach([c] + rest)) == reset + Flatten(ResetEach(rest))
            && Flatten(CloseEach(owner, [c] + rest)) == close + Flatten(CloseEach(owner, rest))
            && Flatten(KillEach(owner, [c] + rest)) == (reset + close) + Flatten(KillEach(owner, rest))
  {
    assert ([c] + rest)[0] == c && ([c] + rest)[1..] == rest;
  }

  ghost predicate Inv(s: State) {
    && (forall t :: 0 <= t < |s| ==> Ordered(s[t].code, s[t].held))
    && (forall t, u :: 0 <= t < u < |s| ==> s[t].held !! s[u].held)
  }

  lemma {:induction false} ExecInv(owner: nat -> nat, acts: seq<Action>)
    ensures Exec(owner, acts).Some? ==> Inv(Exec(owner, acts).value)
  {
    if acts != [] {
      ExecInv(owner, acts[..|acts| - 1]);
      var a := acts[|acts| - 1];
      if a.Begin? { EveryCallIsOrdered(owner, a.call); }
    }
  }

  /** Thread `t` waits for a lock that thread `u` holds. */
  predicate WaitsFor(s: State, t: nat, u: nat) {
    t < |s| && u < |s| && Wants(s[t]).Some? && Wants(s[t]).value in s[u].held
  }

  /** Who is waited for either runs or waits for a lock of higher rank. */
  lemma WaitingClimbs(s: State, t: nat, u: nat)
    requires Inv(s) && WaitsFor(s, t, u)
    ensures s[u].code != []
    ensures Wants(s[u]).Some? ==> Rank(Wants(s[u]).value) > Rank(Wants(s[t]).value)
  {
    assert Ordered(s[u].code, s[u].held);
  }

  /** In no reachable state is there a cycle of threads each waiting for the next. */
  lemma NoWaitCycle(owner: nat -> nat, s: State, path: seq<nat>)
    requires Reachable(owner, s) && |path| >= 2
    requires forall i :: 0 <= i < |path| - 1 ==> WaitsFor(s, path[i], path[i + 1])
    ensures path[0] != path[|path| - 1]
  {
    var acts: seq<Action> :| Exec(owner, acts) == Some(s);
    ExecInv(owner, acts);
    PathClimbs(s, path);
  }

  lemma {:induction false} PathClimbs(s: State, path: seq<nat>)
    requires Inv(s) && |path| >= 2
    requires forall i :: 0 <= i < |path| - 1 ==> WaitsFor(s, path[i], path[i + 1])
    ensures path[0] < |s| && Wants(s[path[0]]).Some?
    ensures var last := path[|path| - 1];
            last < |s| && (Wants(s[last]).Some? ==> Rank(Wants(s[last]).value) > Rank(Wants(s[path[0]]).value))
  {
    var n := |path|;
    assert WaitsFor(s, path[0], path[1]) && WaitsFor(s, path[n - 2], path[n - 1]);
    WaitingClimbs(s, path[n - 2], path[n - 1]);
    if n > 2 { PathClimbs(s, path[..n - 1]); }
  }

  /** No deadlock: whenever some thread is in the middle of a call, some thread can move. */
  lemma SomeThreadCanMove(owner: nat -> nat, s: State)
    requires Reachable(owner, s) && exists t :: 0 <= t < |s| && s[t].code != []
    ensures exists u :: 0 <= u < |s| && s[u].code != [] && Enabled(s, Step(u))
  {
    var acts: seq<Action> :| Exec(owner, acts) == Some(s);
    ExecInv(owner, acts);
    var t :| 0 <= t < |s| && s[t].code != [];
    var u := FindRunner(s, t);
  }

  lemma {:induction false} FindRunner(s: State, t: nat) returns (u: nat)
    requires Inv(s) && t < |s| && s[t].code != []
    ensures u < |s| && s[u].code != [] && Enabled(s, Step(u))
    decreases if Wants(s[t]).Some? then 4 - Rank(Wants(s[t]).value) else 0
  {
    if Enabled(s, Step(t)) {
      u := t;
    } else {
      var w :| 0 <= w < |s| && Wants(s[t]).value in s[w].held;
      WaitingClimbs(s, t, w);
      u := FindRunner(s, w);
    }
  }
}
