/** driver.go and conn.go at the level of Go slices and objects.

    Every method stands for one critical section, or for code outside it, of the Go
    source, and is proved against the functions of module GroupCore that the concurrent
    model (module Rollover) steps with.  A slice is a backing array and a length that
    share the array when copied, so the in-place shift of removeMgdConn and the append of
    Open are visible here, and so would be their damage to an aliasing slice. */
module ChanGroups {
  import opened Sequences
  import opened GroupCore

  /** A context.Context made by context.WithCancel. */
  class Context {
    const parent: Context?
    var cancelled: bool

    constructor (parent: Context?)
      ensures this.parent == parent && !cancelled
    {
      this.parent := parent;
      cancelled := false;
    }

    predicate Done()
      reads this, parent
    {
      cancelled || (parent != null && parent.cancelled)
    }

    method Cancel()
      modifies this
      ensures cancelled
    {
      cancelled := true;
    }
  }

  /** A Go slice that starts at the beginning of its backing array. */
  datatype Slice = Slice(buf: array<ManagedConn?>, len: nat) {
    function Elems(): seq<ManagedConn?>
      requires len <= buf.Length
      reads buf
    {
      buf[..len]
    }
  }

  /** `closes` counts the calls of the underlying connection's Close, `byLoop` those that
      the background thread has made. */
  class ManagedConn {
    const ctx: Context
    const dsn: string
    const owner: ChanGroup
    var reset: bool
    var killed: bool
    var closes: nat
    ghost var byLoop: nat

    constructor (ctx: Context, dsn: string, owner: ChanGroup)
      ensures this.ctx == ctx && this.dsn == dsn && this.owner == owner
      ensures !reset && !killed && closes == byLoop == 0
    {
      this.ctx, this.dsn, this.owner := ctx, dsn, owner;
      reset, killed, closes, byLoop := false, false, 0, 0;
    }

    method Reset(v: bool)
      modifies this`reset
      ensures reset == v
    {
      reset := v;
    }

    /** ResetSession refuses a connection that has been reset. */
    method ResetSession(underlyingOk: bool) returns (ok: bool)
      ensures ok <==> !reset && underlyingOk
    {
      if reset { return false; }
      return underlyingOk;
    }

    /** The unexported close: the underlying Close, then the deferred callback. */
    method CloseUnderlying()
      requires owner.Valid()
      modifies this`closes, owner`conns, owner.conns.buf
      ensures owner.Valid() && closes == old(closes) + 1
      ensures owner.View() == Remove(old(owner.View()), this)
      ensures owner.conns.buf == old(owner.conns.buf)
    {
      closes := closes + 1;
      owner.RemoveMgdConn(this);
    }

    method Close(underlyingOk: bool) returns (ok: bool)
      requires owner.Valid()
      modifies this`closes, this`killed, owner`conns, owner.conns.buf
      ensures owner.Valid() && closes == old(closes) + 1
      ensures ok == underlyingOk && killed == (old(killed) || ok)
      ensures owner.View() == Remove(old(owner.View()), this)
      ensures owner.conns.buf == old(owner.conns.buf)
    {
      CloseUnderlying();
      ok := underlyingOk;
      if ok { killed := true; }
    }

    /** A Close whose error the caller ignores, as the background loops make it. */
    method CloseByLoop(underlyingOk: bool)
      requires owner.Valid()
      modifies this`closes, this`killed, this`byLoop, owner`conns, owner.conns.buf
      ensures owner.Valid() && closes == old(closes) + 1 && byLoop == old(byLoop) + 1
      ensures owner.View() == Remove(old(owner.View()), this)
      ensures owner.conns.buf == old(owner.conns.buf)
    {
      var _ := Close(underlyingOk);
      byLoop := byLoop + 1;
    }

    /** The test that IsValid, Prepare, Begin and BeginTx start with: on a done context
        the connection is closed and reported bad. */
    method CloseIfDone() returns (bad: bool)
      requires owner.Valid()
      modifies this`closes, owner`conns, owner.conns.buf
      ensures owner.Valid()
      ensures bad <==> old(ctx.cancelled) || (ctx.parent != null && old(ctx.parent.cancelled))
      ensures closes == old(closes) + if bad then 1 else 0
      ensures owner.View() == if bad then Remove(old(owner.View()), this) else old(owner.View())
      ensures owner.conns.buf == old(owner.conns.buf)
    {
      bad := ctx.Done();
      if bad { CloseUnderlying(); }
    }
  }

  /** What clients may do between two steps of processNewValue, the last two on any of the
      connections they hold. */
  datatype ClientOp = OpenOp(driverOk: bool, spare: nat) | CloseOp(underlyingOk: bool) | GuardOp

  /** One turn of a background loop: whether the underlying Close it makes succeeds, and
      what clients do after it. */
  datatype Turn = Turn(closeOk: bool, ops: seq<ClientOp>)

  datatype Handed = Handed(prevPrevCancel: Context?, prevPrevConns: Slice, prevCancel: Context, prevConns: Slice)

  /** What the background thread has done outside the lock, in order. */
  datatype Deed = Cancelled(x: Context) | WasReset(c: ManagedConn?) | WasClosed(c: ManagedConn?)

  function Resets(l: seq<ManagedConn?>): seq<Deed> {
    if l == [] then [] else Resets(l[..|l| - 1]) + [WasReset(l[|l| - 1])]
  }

  function Closings(l: seq<ManagedConn?>): seq<Deed> {
    if l == [] then [] else Closings(l[..|l| - 1]) + [WasClosed(l[|l| - 1])]
  }

  function Kills(l: seq<ManagedConn?>): seq<Deed> {
    if l == [] then [] else Kills(l[..|l| - 1]) + [WasReset(l[|l| - 1]), WasClosed(l[|l| - 1])]
  }

  /** What a change owes: with forceKill the previous context is cancelled and then each of
      the previous connections reset and closed; otherwise the previous-previous context is
      cancelled and its connections closed, and then the previous connections reset. */
  function Due(forceKill: bool, prev: OldInfo<ManagedConn?, Context>): seq<Deed> {
    if forceKill then Cancelling(Some(prev.prevCancel)) + Kills(prev.prevConns)
    else Cancelling(prev.prevPrevCancel) + (Closings(prev.prevPrevConns) + Resets(prev.prevConns))
  }

  lemma {:induction false} DeedsAt(l: seq<ManagedConn?>, i: nat)
    requires i < |l|
    ensures |Resets(l)| == |Closings(l)| == |l| && |Kills(l)| == 2 * |l|
    ensures Resets(l)[i] == WasReset(l[i]) && Closings(l)[i] == WasClosed(l[i])
    ensures Kills(l)[2 * i] == WasReset(l[i]) && Kills(l)[2 * i + 1] == WasClosed(l[i])
  {
    if i < |l| - 1 {
      DeedsAt(l[..|l| - 1], i);
    } else if i > 0 {
      DeedsAt(l[..|l| - 1], i - 1);
    }
  }

  /** With forceKill the cancel comes first, and then each connection's reset and close. */
  lemma KillOrder(v: OldInfo<ManagedConn?, Context>, i: nat)
    ensures var d := Due(true, v);
            && |d| == 1 + 2 * |v.prevConns| && d[0] == Cancelled(v.prevCancel)
            && (i < |v.prevConns| ==>
                  d[1 + 2 * i] == WasReset(v.prevConns[i]) && d[2 + 2 * i] == WasClosed(v.prevConns[i]))
  {
    if v.prevConns != [] { DeedsAt(v.prevConns, if i < |v.prevConns| then i else 0); }
  }

  /** Without, the cancel, if there is one to make, precedes every close, and every close
      precedes every reset. */
  lemma ReleaseOrder(v: OldInfo<ManagedConn?, Context>, i: nat, j: nat)
    ensures var d, n := Due(false, v), if v.prevPrevCancel.Some? then 1 else 0;
            && |d| == n + |v.prevPrevConns| + |v.prevConns|
            && (n == 1 ==> d[0] == Cancelled(v.prevPrevCancel.value))
            && (i < |v.prevPrevConns| ==> d[n + i] == WasClosed(v.prevPrevConns[i]))
            && (j < |v.prevConns| ==> d[n + |v.prevPrevConns| + j] == WasReset(v.prevConns[j]))
  {
    if v.prevPrevConns != [] { DeedsAt(v.prevPrevConns, if i < |v.prevPrevConns| then i else 0); }
    if v.prevConns != [] { DeedsAt(v.prevConns, if j < |v.prevConns| then j else 0); }
  }

  function Maybe(x: Context?): Option<Context> {
    if x == null then None else Some(x as Context)
  }

  function Cancelling(x: Option<Context>): seq<Deed> {
    if x.None? then [] else [Cancelled(x.value)]
  }

  lemma Assoc(a: seq<Deed>, b: seq<Deed>, c: seq<Deed>)
    ensures a + b + c == a + (b + c)
  {
  }

  lemma ResetsStep(l: seq<ManagedConn?>, i: nat)
    requires i < |l| && NoDup(l)
    ensures l[i] !in l[..i] && forall c :: c in l[..i + 1] <==> c in l[..i] || c == l[i]
    ensures Resets(l[..i + 1]) == Resets(l[..i]) + [WasReset(l[i])]
  {
    assert l[..i + 1][..i] == l[..i];
  }

  lemma ClosingsStep(l: seq<ManagedConn?>, i: nat)
    requires i < |l| && NoDup(l)
    ensures l[i] !in l[..i] && forall c :: c in l[..i + 1] <==> c in l[..i] || c == l[i]
    ensures Closings(l[..i + 1]) == Closings(l[..i]) + [WasClosed(l[i])]
  {
    assert l[..i + 1][..i] == l[..i];
  }

  lemma KillsStep(l: seq<ManagedConn?>, i: nat)
    requires i < |l| && NoDup(l)
    ensures l[i] !in l[..i] && forall c :: c in l[..i + 1] <==> c in l[..i] || c == l[i]
    ensures Kills(l[..i + 1]) == Kills(l[..i]) + [WasReset(l[i]), WasClosed(l[i])]
  {
    assert l[..i + 1][..i] == l[..i];
  }

  lemma Shifted(was: seq<ManagedConn?>, now: seq<ManagedConn?>, i: nat)
    requires i < |was| == |now| + 1 && forall k :: 0 <= k < |now| ==> now[k] == was[if k < i then k else k + 1]
    ensures now == was[..i] + was[i + 1..]
  {
  }

  /** Known connections, each once. */
  ghost predicate Distinct(l: seq<ManagedConn?>, clients: set<ManagedConn>) {
    NoDup(l) && forall c :: c in l ==> c != null && c in clients
  }

  /** `clients` are the connections that Open has returned so far. */
  class ChanGroup {
    const parentCtx: Context
    const forceKill: bool
    const merge: string -> Option<string>
    var value: string
    var ctx: Context
    var cancel: Context
    var prevCancel: Context?
    var conns: Slice
    var prevConns: Slice
    var clients: set<ManagedConn>
    ghost var deeds: seq<Deed>

    constructor (value: string, parentCtx: Context, forceKill: bool, merge: string -> Option<string>)
      ensures Valid() && fresh(conns.buf) && fresh(prevConns.buf) && fresh(ctx)
      ensures this.parentCtx == parentCtx && this.forceKill == forceKill && this.merge == merge
      ensures View() == Core(value, ctx, ctx, None, [], []) && clients == {} && deeds == []
      ensures this.value == value && conns.Elems() == [] && prevConns.Elems() == [] && prevCancel == null
      ensures !ctx.cancelled && ctx.parent == parentCtx
    {
      var c := new Context(parentCtx);
      var b0 := new ManagedConn?[0];
      var b1 := new ManagedConn?[0];
      this.parentCtx, this.forceKill, this.merge, this.value := parentCtx, forceKill, merge, value;
      ctx, cancel, prevCancel := c, c, null;
      conns, prevConns, clients, deeds := Slice(b0, 0), Slice(b1, 0), {}, [];
    }

    ghost predicate Valid()
      reads this, conns.buf, prevConns.buf
    {
      && conns.len <= conns.buf.Length
      && prevConns.len <= prevConns.buf.Length
      && conns.buf != prevConns.buf
      && cancel == ctx && prevCancel != cancel
      && (forall c :: c in clients ==> c.owner == this)
      && Distinct(conns.Elems(), clients) && Distinct(prevConns.Elems(), clients)
      && (forall c :: c in conns.Elems() ==> Current(c))
      && (forall c :: c in prevConns.Elems() ==> c != null && c.ctx == prevCancel)
    }

    /** `c` belongs to the current generation. */
    ghost predicate Current(c: ManagedConn?)
      reads this
    {
      c != null && c.ctx == ctx && merge(value) == Some(c.dsn)
    }

    /** The value that module GroupCore computes with. */
    ghost function View(): Core<ManagedConn?, Context>
      requires Valid()
      reads this, conns.buf, prevConns.buf
    {
      Core(value, ctx, cancel, Maybe(prevCancel), conns.Elems(), prevConns.Elems())
    }

    /** `append(cg.conns[:i], cg.conns[i+1:]...)` moves the tail down inside the backing
        array; the element behind the new end stays where it was. */
    method RemoveMgdConn(conn: ManagedConn)
      requires Valid()
      modifies this`conns, conns.buf
      ensures Valid() && View() == Remove(old(View()), conn)
      ensures conns.Elems() == RemoveFirst(old(conns.Elems()), conn)
      ensures conns.buf == old(conns.buf)
      ensures forall k :: conns.len <= k < conns.buf.Length ==> conns.buf[k] == old(conns.buf[k])
    {
      ghost var was := conns.Elems();
      var buf, n := conns.buf, conns.len;
      var i := Position(conn);
      if i == n {
        assert was[..n] == was;
        RemoveFirstAbsent(was, conn);
        return;
      }
      RemoveFirstAt(was, conn, i);
      RemoveFirstMembers(was, conn);
      ShiftDown(buf, i, n);
      Shifted(was, buf[..n - 1], i);
      conns := Slice(buf, n - 1);
    }

    method Position(conn: ManagedConn) returns (i: nat)
      requires Valid()
      ensures i <= conns.len && conn !in conns.Elems()[..i] && (i < conns.len ==> conns.buf[i] == conn)
    {
      i := 0;
      while i < conns.len && conns.buf[i] != conn
        invariant i <= conns.len && conn !in conns.Elems()[..i]
      {
        i := i + 1;
      }
    }

    /** Go's copy of the tail onto its own array, one element down. */
    static method ShiftDown(buf: array<ManagedConn?>, i: nat, n: nat)
      requires i < n <= buf.Length
      modifies buf
      ensures forall k :: 0 <= k < n - 1 ==> buf[k] == old(buf[if k < i then k else k + 1])
      ensures forall k :: n - 1 <= k < buf.Length ==> buf[k] == old(buf[k])
    {
      for j := i + 1 to n
        invariant forall k :: 0 <= k < buf.Length ==> buf[k] == if i <= k < j - 1 then old(buf[k + 1]) else old(buf[k])
      {
        buf[j - 1] := buf[j];
      }
    }

    /** `spare` is the extra capacity that append reserves when it has to grow the array. */
    method Open(driverOk: bool, spare: nat) returns (c: ManagedConn?)
      requires Valid()
      modifies this`conns, this`clients, conns.buf
      ensures Valid() && (conns.buf == old(conns.buf) || fresh(conns.buf))
      ensures c == null <==> merge(value).None? || !driverOk
      ensures c == null ==> View() == old(View()) && clients == old(clients) && conns == old(conns)
      ensures c != null ==> fresh(c) && Current(c) && !c.reset && c.closes == 0
      ensures c != null ==> c.ctx == ctx && c.ctx == old(ctx) && merge(old(value)) == Some(c.dsn)
      ensures c != null ==> conns.Elems() == old(conns.Elems()) + [c] && clients == old(clients) + {c}
      ensures c != null ==> View() == Insert(old(View()), c)
    {
      var merged := merge(value);
      if merged.None? || !driverOk { return null; }
      var conn := new ManagedConn(ctx, merged.value, this);
      var buf, n := conns.buf, conns.len;
      if n < buf.Length {
        buf[n] := conn;
      } else {
        var grown := new ManagedConn?[n + 1 + spare](
          i requires 0 <= i reads buf => if i < n && i < buf.Length then buf[i] else null);
        grown[n] := conn;
        buf := grown;
      }
      conns, clients := Slice(buf, n + 1), clients + {conn};
      assert conns.Elems() == old(conns.Elems()) + [conn];
      return conn;
    }

    /** The critical section of processNewValue. */
    method CriticalSection(newValue: string) returns (changed: bool, prev: Handed)
      requires Valid()
      modifies this`value, this`ctx, this`cancel, this`prevCancel, this`conns, this`prevConns
      ensures Valid() && (changed <==> newValue != old(value))
      ensures clients == old(clients) && deeds == old(deeds)
      ensures !changed ==> View() == old(View()) && unchanged(this)
      ensures changed ==> fresh(ctx) && !ctx.cancelled && ctx.parent == parentCtx && fresh(conns.buf)
      ensures changed ==> View() == Rotate(old(View()), newValue, ctx) && value == newValue && prevCancel == old(cancel)
      ensures changed ==> prevConns == old(conns)
      ensures changed ==> prev == Handed(old(prevCancel), old(prevConns), old(cancel), old(conns))
    {
      prev := Handed(prevCancel, prevConns, cancel, conns);
      if newValue == value { return false, prev; }
      prevConns := conns;
      var b := new ManagedConn?[0];
      conns := Slice(b, 0);
      prevCancel := cancel;
      ctx := new Context(parentCtx);
      cancel := ctx;
      value := newValue;
      return true, prev;
    }

    /** The generation's own fields are as they were. */
    twostate predicate SameGeneration()
      reads this
    {
      && value == old(value) && ctx == old(ctx) && cancel == old(cancel)
      && prevCancel == old(prevCancel) && prevConns == old(prevConns)
    }

    /** One thing that a client does. */
    method ClientTurn(op: ClientOp)
      requires Valid()
      modifies this`conns, this`clients, conns.buf, clients
      ensures SameGeneration()
      ensures OnlyClients() && forall c :: c in old(clients) ==> Did(c, [], [])
    {
      match op
      case OpenOp(driverOk, spare) => var _ := Open(driverOk, spare);
      case CloseOp(underlyingOk) =>
        if clients != {} {
          var c :| c in clients;
          var _ := c.Close(underlyingOk);
        }
      case GuardOp =>
        if clients != {} {
          var c :| c in clients;
          var _ := c.CloseIfDone();
        }
    }

    /** Any client activity while the background thread is outside the lock. */
    method Interfere(ops: seq<ClientOp>)
      requires Valid()
      modifies this`conns, this`clients, conns.buf, clients
      ensures SameGeneration()
      ensures OnlyClients() && forall c :: c in old(clients) ==> Did(c, [], [])
    {
      for i := 0 to |ops|
        invariant SameGeneration() && OnlyClients() && forall c :: c in old(clients) ==> Did(c, [], [])
      {
        ClientTurn(ops[i]);
      }
    }

    /** What client activity keeps while it opens and closes connections. */
    twostate predicate OnlyClients()
      reads this, clients, conns.buf, prevConns.buf
    {
      && Valid() && (conns.buf == old(conns.buf) || fresh(conns.buf))
      && old(clients) <= clients && fresh(clients - old(clients))
    }

    /** The loop that resets a list of connections; its `i`-th yield is `schedule(i)`. */
    method ResetAll(list: Slice, schedule: nat -> Turn)
      requires Valid() && Listed(list)
      modifies this`conns, this`clients, this`deeds, conns.buf, clients
      ensures SameGeneration()
      ensures OnlyClients() && deeds == old(deeds) + Resets(list.Elems())
      ensures forall c :: c in old(clients) ==> Did(c, list.Elems(), [])
    {
      ghost var was := list.Elems();
      for i := 0 to list.len
        invariant SameGeneration() && OnlyClients() && list.Elems() == was && deeds == old(deeds) + Resets(was[..i])
        invariant forall c :: c in old(clients) ==> Did(c, was[..i], [])
      {
        ResetsStep(was, i);
        ResetOne(list.buf[i], schedule(i));
      }
      assert was[..list.len] == was;
    }

    method ResetOne(c: ManagedConn, turn: Turn)
      requires Valid() && c in clients
      modifies this`conns, this`clients, this`deeds, conns.buf, clients
      ensures SameGeneration()
      ensures OnlyClients() && deeds == old(deeds) + [WasReset(c)]
      ensures forall d :: d in old(clients) ==> Did(d, [c], [])
    {
      c.Reset(true);
      deeds := deeds + [WasReset(c)];
      Interfere(turn.ops);
    }

    method CloseOne(c: ManagedConn, turn: Turn)
      requires Valid() && c in clients
      modifies this`conns, this`clients, this`deeds, conns.buf, clients
      ensures SameGeneration()
      ensures OnlyClients() && deeds == old(deeds) + [WasClosed(c)]
      ensures forall d :: d in old(clients) ==> Did(d, [], [c])
    {
      c.CloseByLoop(turn.closeOk);
      deeds := deeds + [WasClosed(c)];
      Interfere(turn.ops);
    }

    /** The loop that closes a list of connections. */
    method CloseAll(list: Slice, schedule: nat -> Turn)
      requires Valid() && Listed(list)
      modifies this`conns, this`clients, this`deeds, conns.buf, clients
      ensures SameGeneration()
      ensures OnlyClients() && deeds == old(deeds) + Closings(list.Elems())
      ensures forall c :: c in old(clients) ==> Did(c, [], list.Elems())
    {
      ghost var was := list.Elems();
      for i := 0 to list.len
        invariant SameGeneration() && OnlyClients() && list.Elems() == was && deeds == old(deeds) + Closings(was[..i])
        invariant forall c :: c in old(clients) ==> Did(c, [], was[..i])
      {
        ClosingsStep(was, i);
        CloseOne(list.buf[i], schedule(i));
      }
      assert was[..list.len] == was;
    }

    /** The forceKill loop: reset and close each connection in turn. */
    method KillAll(list: Slice, schedule: nat -> Turn)
      requires Valid() && Listed(list)
      modifies this`conns, this`clients, this`deeds, conns.buf, clients
      ensures SameGeneration()
      ensures OnlyClients() && deeds == old(deeds) + Kills(list.Elems())
      ensures forall c :: c in old(clients) ==> Did(c, list.Elems(), list.Elems())
    {
      ghost var was := list.Elems();
      for i := 0 to list.len
        invariant SameGeneration() && OnlyClients() && list.Elems() == was && deeds == old(deeds) + Kills(was[..i])
        invariant forall c :: c in old(clients) ==> Did(c, was[..i], was[..i])
      {
        KillsStep(was, i);
        KillOne(list.buf[i], schedule(2 * i), schedule(2 * i + 1));
      }
      assert was[..list.len] == was;
    }

    method KillOne(c: ManagedConn, first: Turn, second: Turn)
      requires Valid() && c in clients
      modifies this`conns, this`clients, this`deeds, conns.buf, clients
      ensures SameGeneration()
      ensures OnlyClients() && deeds == old(deeds) + [WasReset(c), WasClosed(c)]
      ensures forall d :: d in old(clients) ==> Did(d, [c], [c])
    {
      ResetOne(c, first);
      CloseOne(c, second);
    }

    /** A list the background thread may iterate over: known connections, each once, in an
        array other than the current one. */
    ghost predicate Listed(list: Slice)
      reads this, list.buf
    {
      list.len <= list.buf.Length && list.buf != conns.buf && Distinct(list.Elems(), clients)
    }

    /** Since the old state the background thread has reset exactly the connections among
        `resets`, and closed exactly those among `closes`, each once. */
    twostate predicate Did(c: ManagedConn, resets: seq<ManagedConn?>, closes: seq<ManagedConn?>)
      reads c
    {
      && c.reset == (old(c.reset) || c in resets)
      && c.byLoop == old(c.byLoop) + (if c in closes then 1 else 0)
      && c.closes - old(c.closes) >= c.byLoop - old(c.byLoop)
    }

    /** The cancel call and the yield after it. */
    method CancelAndYield(x: Context?, turn: Turn)
      requires Valid()
      modifies this`conns, this`clients, this`deeds, conns.buf, clients, x
      ensures SameGeneration()
      ensures OnlyClients() && deeds == old(deeds) + Cancelling(Maybe(x))
      ensures x != null ==> x.cancelled
      ensures forall c :: c in old(clients) ==> Did(c, [], [])
    {
      if x != null {
        x.Cancel();
        deeds := deeds + [Cancelled(x)];
      }
      Interfere(turn.ops);
    }

    /** With forceKill: cancel the previous generation, and kill its connections. */
    method KillPrevious(x: Context, list: Slice, schedule: (nat, nat) -> Turn)
      requires Valid() && Listed(list)
      modifies this`conns, this`clients, this`deeds, conns.buf, clients, x
      ensures SameGeneration()
      ensures OnlyClients() && x.cancelled
      ensures deeds == old(deeds) + (Cancelling(Some(x)) + Kills(list.Elems()))
      ensures forall c :: c in old(clients) ==> Did(c, list.Elems(), list.Elems())
    {
      Assoc(deeds, Cancelling(Some(x)), Kills(list.Elems()));
      CancelAndYield(x, schedule(0, 0));
      KillAll(list, (i: nat) => schedule(1, i));
    }

    /** The two loops of the graceful mode. */
    method CloseThenReset(closing: Slice, resetting: Slice, schedule: (nat, nat) -> Turn)
      requires Valid() && Listed(closing) && Listed(resetting)
      modifies this`conns, this`clients, this`deeds, conns.buf, clients
      ensures SameGeneration()
      ensures OnlyClients() && deeds == old(deeds) + (Closings(closing.Elems()) + Resets(resetting.Elems()))
      ensures forall c :: c in old(clients) ==> Did(c, resetting.Elems(), closing.Elems())
    {
      Assoc(deeds, Closings(closing.Elems()), Resets(resetting.Elems()));
      CloseAll(closing, (i: nat) => schedule(1, i));
      ResetAll(resetting, (i: nat) => schedule(2, i));
    }

    /** The graceful mode: cancel the previous-previous generation and close its connections,
        and reset the previous ones. */
    method ReleasePrevious(x: Context?, closing: Slice, resetting: Slice, schedule: (nat, nat) -> Turn)
      requires Valid() && Listed(closing) && Listed(resetting)
      modifies this`conns, this`clients, this`deeds, conns.buf, clients, x
      ensures SameGeneration()
      ensures OnlyClients() && (x != null ==> x.cancelled)
      ensures deeds == old(deeds) + (Cancelling(Maybe(x)) + (Closings(closing.Elems()) + Resets(resetting.Elems())))
      ensures forall c :: c in old(clients) ==> Did(c, resetting.Elems(), closing.Elems())
    {
      Assoc(deeds, Cancelling(Maybe(x)), Closings(closing.Elems()) + Resets(resetting.Elems()));
      CancelAndYield(x, schedule(0, 0));
      CloseThenReset(closing, resetting, schedule);
    }

    /** What processNewValue does after it has released the lock. */
    method FinishChange(prev: Handed, schedule: (nat, nat) -> Turn, ghost v: OldInfo<ManagedConn?, Context>)
      requires Valid() && Listed(prev.prevConns) && Listed(prev.prevPrevConns)
      requires v == OldInfo(Maybe(prev.prevPrevCancel), prev.prevPrevConns.Elems(),
                            prev.prevCancel, prev.prevConns.Elems())
      modifies this`conns, this`clients, this`deeds, conns.buf, clients,
               if forceKill then {prev.prevCancel} else {prev.prevPrevCancel}
      ensures SameGeneration()
      ensures OnlyClients() && deeds == old(deeds) + Due(forceKill, v)
      ensures if forceKill then v.prevCancel.cancelled else v.prevPrevCancel.Some? ==> v.prevPrevCancel.value.cancelled
      ensures forall c :: c in old(clients) ==>
        Did(c, v.prevConns, if forceKill then v.prevConns else v.prevPrevConns)
    {
      if forceKill {
        KillPrevious(prev.prevCancel, prev.prevConns, schedule);
      } else {
        ReleasePrevious(prev.prevPrevCancel, prev.prevPrevConns, prev.prevConns, schedule);
      }
    }

    /** processNewValue; `schedule` says what clients do at each yield.  The arrays it
        iterates over are not in its modifies clause: nothing that runs meanwhile, and none
        of its own Close calls re-entering RemoveMgdConn, writes them. */
    method ProcessNewValue(newValue: string, schedule: (nat, nat) -> Turn)
      requires Valid()
      modifies this, clients, if forceKill then {cancel} else {prevCancel}
      ensures Valid() && (conns.buf == old(conns.buf) || fresh(conns.buf))
      ensures old(clients) <= clients && fresh(clients - old(clients))
      ensures newValue == old(value) ==> unchanged(this) && forall c :: c in old(clients) ==> unchanged(c)
      ensures newValue != old(value) ==>
        && value == newValue && fresh(ctx) && !ctx.cancelled && ctx.parent == parentCtx && prevCancel == old(cancel)
        && prevConns == old(conns)
      ensures newValue != old(value) ==>
        var v := old(OldInfoOf(View()));
        && deeds == old(deeds) + Due(forceKill, v)
        && (if forceKill then v.prevCancel.cancelled
            else v.prevPrevCancel.Some? ==> v.prevPrevCancel.value.cancelled)
        && forall c :: c in old(clients) ==> Did(c, v.prevConns, if forceKill then v.prevConns else v.prevPrevConns)
    {
      ghost var v := OldInfoOf(View());
      var changed, prev := CriticalSection(newValue);
      if changed { FinishChange(prev, schedule, v); }
    }
  }

  /** A change with forceKill, deed by deed; `i` is any of the listed connections. */
  method KillInOrder(g: ChanGroup, v: string, schedule: (nat, nat) -> Turn, i: nat)
    requires g.Valid() && g.forceKill && v != g.value
    modifies g, g.clients, g.cancel
    ensures g.Valid() && |g.deeds| == |old(g.deeds)| + 1 + 2 * old(g.conns.len)
    ensures g.deeds[..|old(g.deeds)|] == old(g.deeds) && g.deeds[|old(g.deeds)|] == Cancelled(old(g.cancel))
    ensures i < old(g.conns.len) ==>
      && g.deeds[|old(g.deeds)| + 1 + 2 * i] == WasReset(old(g.conns.buf[i]))
      && g.deeds[|old(g.deeds)| + 2 + 2 * i] == WasClosed(old(g.conns.buf[i]))
  {
    KillOrder(OldInfoOf(g.View()), i);
    g.ProcessNewValue(v, schedule);
  }

  /** A graceful change, deed by deed; `i` and `j` are any of the connections listed as
      previous and as current. */
  method ReleaseInOrder(g: ChanGroup, v: string, schedule: (nat, nat) -> Turn, i: nat, j: nat)
    requires g.Valid() && !g.forceKill && v != g.value
    modifies g, g.clients, g.prevCancel
    ensures var n, m := if old(g.prevCancel) == null then 0 else 1, |old(g.deeds)|;
            && |g.deeds| == m + n + old(g.prevConns.len) + old(g.conns.len)
            && g.deeds[..m] == old(g.deeds)
            && (n == 1 ==> g.deeds[m] == Cancelled(old(g.prevCancel)))
            && (i < old(g.prevConns.len) ==> g.deeds[m + n + i] == WasClosed(old(g.prevConns.buf[i])))
            && (j < old(g.conns.len) ==> g.deeds[m + n + old(g.prevConns.len) + j] == WasReset(old(g.conns.buf[j])))
  {
    ReleaseOrder(OldInfoOf(g.View()), i, j);
    g.ProcessNewValue(v, schedule);
  }

  /** The guard of IsValid, Prepare, Begin and BeginTx after a change: it closes and rejects
      a connection whose generation the change has cancelled, and accepts any other whose
      own context and parent were live. */
  method GuardAfterChange(g: ChanGroup, c: ManagedConn, v: string, schedule: (nat, nat) -> Turn)
    returns (bad: bool, ghost closes: nat)
    requires g.Valid() && c in g.clients && v != g.value
    modifies g, g.clients, g.cancel, g.prevCancel
    ensures bad <==> c.ctx.cancelled || (c.ctx.parent != null && c.ctx.parent.cancelled)
    ensures var victim := if g.forceKill then old(g.cancel) else old(g.prevCancel);
            && (c.ctx == victim ==> bad)
            && (c.ctx != victim && !old(c.ctx.cancelled) && c.ctx.parent == null ==> !bad)
            && (c.ctx != victim && !old(c.ctx.cancelled) && c.ctx.parent != null && c.ctx.parent != victim ==>
                  bad == old(c.ctx.parent.cancelled))
    ensures c.closes == closes + if bad then 1 else 0
  {
    g.ProcessNewValue(v, schedule);
    closes := c.closes;
    bad := c.CloseIfDone();
  }

  /** What a change does to one connection. */
  method OneChange(g: ChanGroup, c: ManagedConn, v: string, schedule: (nat, nat) -> Turn)
    requires g.Valid() && c in g.clients && v != g.value
    modifies g, g.clients, if g.forceKill then {g.cancel} else {g.prevCancel}
    ensures g.Valid() && g.value == v && c in g.clients && fresh(g.cancel) && g.prevCancel == old(g.cancel)
    ensures fresh(g.clients - old(g.clients))
    ensures c.reset == (old(c.reset) || c in old(g.conns.Elems()))
    ensures c.byLoop == old(c.byLoop)
                        + if c in old(if g.forceKill then g.conns.Elems() else g.prevConns.Elems()) then 1 else 0
    ensures c in g.prevConns.Elems() <==> c in old(g.conns.Elems())
    ensures if g.forceKill then old(g.cancel).cancelled else old(g.prevCancel) != null ==> old(g.prevCancel).cancelled
  {
    g.ProcessNewValue(v, schedule);
  }

  /** The grace window on the objects.  A connection that is listed when the first of two
      changes comes is reset by that change and closed by the loop exactly once: by the
      first change with forceKill, and otherwise by the second and not before.  `between` is
      its reset mark, and how often the loop had closed it, in between. */
  method TwoChanges(g: ChanGroup, c: ManagedConn, v1: string, v2: string,
                    s1: (nat, nat) -> Turn, s2: (nat, nat) -> Turn) returns (ghost between: (bool, nat))
    requires g.Valid() && c in g.conns.Elems() && v1 != g.value && v2 != v1
    modifies g, g.clients, g.cancel, g.prevCancel
    ensures g.Valid() && g.value == v2 && old(g.cancel).cancelled
    ensures between == (true, old(c.byLoop) + if g.forceKill then 1 else 0)
    ensures c.reset && c.byLoop == old(c.byLoop) + 1
  {
    assert c.ctx == g.cancel && c !in g.prevConns.Elems();
    OneChange(g, c, v1, s1);
    between := (c.reset, c.byLoop);
    assert c.ctx != g.cancel && c !in g.conns.Elems();
    OneChange(g, c, v2, s2);
  }
}
