/** driver.go: the registry of chanGroups behind the driver's Open. */
module HotloadDriver {
  import opened Sequences
  import opened GroupCore
  import opened ChanGroups

  /** What url.Parse finds in a hotload connection string; `forceKill` is the first value
      of that query parameter. */
  datatype Target = Target(scheme: string, host: string, forceKill: Option<string>)

  datatype Outcome =
    | Opened(conn: ManagedConn)
    | BadUrl
    | UnsupportedStrategy
    | UnknownDriver
    | WatchFailed
    | OpenFailed

  /** `sqlDrivers` maps a driver name to how its options are merged into a DSN. */
  class HDriver {
    const ctx: Context
    const parse: string -> Option<Target>
    var strategies: set<string>
    var sqlDrivers: map<string, string -> Option<string>>
    var cgroup: map<string, ChanGroup>

    constructor (ctx: Context, parse: string -> Option<Target>)
      ensures this.ctx == ctx && this.parse == parse && cgroup == map[]
    {
      this.ctx, this.parse := ctx, parse;
      strategies, sqlDrivers, cgroup := {}, map[], map[];
    }

    /** False where RegisterStrategy panics: for a nil strategy, or a name that is taken. */
    method RegisterStrategy(name: string, isNil: bool) returns (ok: bool)
      modifies this`strategies
      ensures ok <==> !isNil && name !in old(strategies)
      ensures strategies == if ok then old(strategies) + {name} else old(strategies)
    {
      if isNil || name in strategies { return false; }
      strategies := strategies + {name};
      return true;
    }

    /** False where RegisterSQLDriver panics: for a nil driver, or a name that is taken. */
    method RegisterSQLDriver(name: string, isNil: bool, merge: string -> Option<string>) returns (ok: bool)
      modifies this`sqlDrivers
      ensures ok <==> !isNil && name !in old(sqlDrivers)
      ensures sqlDrivers == if ok then old(sqlDrivers)[name := merge] else old(sqlDrivers)
    {
      if isNil || name in sqlDrivers { return false; }
      sqlDrivers := sqlDrivers[name := merge];
      return true;
    }

    /** The outcome for a name that has no chanGroup yet and cannot get one. */
    function Refusal(name: string, watched: Option<string>): Option<Outcome>
      reads this
    {
      if parse(name).None? then Some(BadUrl)
      else if name in cgroup then None
      else if parse(name).value.scheme !in strategies then Some(UnsupportedStrategy)
      else if parse(name).value.host !in sqlDrivers then Some(UnknownDriver)
      else if watched.None? then Some(WatchFailed)
      else None
    }

    /** Finds the chanGroup of a name, or makes it: `watched` is what the strategy's Watch
        answers. */
    method FindGroup(name: string, watched: Option<string>) returns (refusal: Option<Outcome>)
      requires name in cgroup ==> cgroup[name].Valid()
      modifies this`cgroup
      ensures refusal == old(Refusal(name, watched))
      ensures parse(name).None? ==> refusal == Some(BadUrl)
      ensures parse(name).Some? && name in old(cgroup) ==> refusal == None
      ensures parse(name).Some? && name !in old(cgroup) ==>
        var t := parse(name).value;
        && (t.scheme !in strategies ==> refusal == Some(UnsupportedStrategy))
        && (t.scheme in strategies && t.host !in sqlDrivers ==> refusal == Some(UnknownDriver))
        && (t.scheme in strategies && t.host in sqlDrivers ==>
              refusal == if watched.None? then Some(WatchFailed) else None)
      ensures refusal.Some? || name in old(cgroup) ==> cgroup == old(cgroup)
      ensures refusal.None? ==> name in cgroup && cgroup[name].Valid()
      ensures refusal.None? && name !in old(cgroup) ==>
        cgroup == old(cgroup)[name := cgroup[name]] && NewGroup(cgroup[name], name, watched.value)
    {
      var target := parse(name);
      if target.None? { return Some(BadUrl); }
      if name !in cgroup {
        if target.value.scheme !in strategies { return Some(UnsupportedStrategy); }
        if target.value.host !in sqlDrivers { return Some(UnknownDriver); }
        if watched.None? { return Some(WatchFailed); }
        var kill := target.value.forceKill == Some("true");
        var g := new ChanGroup(watched.value, ctx, kill, sqlDrivers[target.value.host]);
        cgroup := cgroup[name := g];
      }
      return None;
    }

    /** A chanGroup as its first Open makes it, before the driver opens a connection. */
    twostate predicate NewGroup(new g: ChanGroup, name: string, value: string)
      reads this, g, g.conns.buf, g.prevConns.buf, g.ctx
    {
      && fresh(g) && fresh(g.conns.buf) && g.Valid() && g.clients == {}
      && g.View() == Core(value, g.ctx, g.ctx, None, [], []) && g.parentCtx == ctx && g.ctx.parent == ctx
      && parse(name).Some? && parse(name).value.host in sqlDrivers
      && g.merge == sqlDrivers[parse(name).value.host]
      && (g.forceKill <==> parse(name).value.forceKill == Some("true"))
    }

    /** The first Open of a name makes its chanGroup, and keeps it even when the underlying
        driver then fails to open; every later Open of that name uses the same one and never
        watches again. */
    method Open(name: string, watched: Option<string>, driverOk: bool, spare: nat) returns (r: Outcome)
      requires name in cgroup ==> cgroup[name].Valid()
      modifies this`cgroup,
               if name in cgroup then {cgroup[name]} else {},
               if name in cgroup then {cgroup[name].conns.buf} else {}
      ensures parse(name).None? ==> r == BadUrl
      ensures parse(name).Some? && name in old(cgroup) ==> r.Opened? || r.OpenFailed?
      ensures parse(name).Some? && name !in old(cgroup) ==>
        var t := parse(name).value;
        && (t.scheme !in strategies ==> r == UnsupportedStrategy)
        && (t.scheme in strategies && t.host !in sqlDrivers ==> r == UnknownDriver)
        && (t.scheme in strategies && t.host in sqlDrivers && watched.None? ==> r == WatchFailed)
        && (t.scheme in strategies && t.host in sqlDrivers && watched.Some? ==> r.Opened? || r.OpenFailed?)
      ensures !r.Opened? && !r.OpenFailed? ==> cgroup == old(cgroup)
      ensures old(Refusal(name, watched)).Some? ==> r == old(Refusal(name, watched)).value && cgroup == old(cgroup)
      ensures old(Refusal(name, watched)).None? ==>
        && name in cgroup && cgroup[name].Valid()
        && cgroup == old(cgroup)[name := cgroup[name]]
        && (r.OpenFailed? || (r.Opened? && fresh(r.conn) && r.conn.ctx == cgroup[name].ctx
                              && cgroup[name].merge(cgroup[name].value) == Some(r.conn.dsn)))
        && (r.OpenFailed? <==> cgroup[name].merge(cgroup[name].value).None? || !driverOk)
      ensures old(Refusal(name, watched)).None? && name in old(cgroup) ==>
        && cgroup == old(cgroup)
        && (cgroup[name].conns.buf == old(cgroup[name].conns.buf) || fresh(cgroup[name].conns.buf))
        && cgroup[name].clients == old(cgroup[name].clients) + (if r.Opened? then {r.conn} else {})
        && cgroup[name].View()
           == if r.Opened? then Insert(old(cgroup[name].View()), r.conn) else old(cgroup[name].View())
      ensures old(Refusal(name, watched)).None? && name !in old(cgroup) ==>
        var g := cgroup[name];
        && fresh(g) && fresh(g.conns.buf) && g.value == watched.value
        && g.conns.Elems() == (if r.Opened? then [r.conn] else []) && g.prevCancel == null
        && g.clients == (if r.Opened? then {r.conn} else {})
        && g.parentCtx == ctx && g.ctx.parent == ctx
        && g.merge == sqlDrivers[parse(name).value.host]
        && (g.forceKill <==> parse(name).value.forceKill == Some("true"))
    {
      var refusal := FindGroup(name, watched);
      if refusal.Some? { return refusal.value; }
      var conn := cgroup[name].Open(driverOk, spare);
      if conn == null { return OpenFailed; }
      return Opened(conn);
    }
  }

  /** Two calls for a name that is new: one chanGroup, and both connections in it, or none. */
  method OpenTwice(h: HDriver, name: string, value: string, spare: nat) returns (first: Outcome, second: Outcome)
    requires h.Refusal(name, Some(value)) == None && name !in h.cgroup
    modifies h`cgroup
    ensures name in h.cgroup && fresh(h.cgroup[name]) && h.cgroup == old(h.cgroup)[name := h.cgroup[name]]
    ensures h.cgroup[name].Valid() && h.cgroup[name].value == value
    ensures if first.Opened? then
              && second.Opened? && h.cgroup[name].conns.Elems() == [first.conn, second.conn]
              && first.conn != second.conn && first.conn.dsn == second.conn.dsn
              && first.conn.ctx == second.conn.ctx == h.cgroup[name].ctx
            else second.OpenFailed? && h.cgroup[name].conns.Elems() == []
  {
    first := h.Open(name, Some(value), true, spare);
    second := h.Open(name, None, true, spare);
  }
}
