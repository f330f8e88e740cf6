/** driver.go: the fields of a chanGroup that its mutex protects, as a value, and what
    each critical section does to them.

    The connection type `C` and the context type `X` are parameters: the concurrent model
    (module Rollover) uses numbers, the slice-level class (module ChanGroups) uses object
    references, and both are proved against these same functions. */
module GroupCore {
  import opened Sequences

  datatype Core<C, X> = Core(
    value: string,
    ctx: X,
    cancel: X,
    prevCancel: Option<X>,
    conns: seq<C>,
    prevConns: seq<C>)

  /** What the critical section of processNewValue hands to the code after it. */
  datatype OldInfo<C, X> = OldInfo(
    prevPrevCancel: Option<X>,
    prevPrevConns: seq<C>,
    prevCancel: X,
    prevConns: seq<C>)

  function OldInfoOf<C, X>(g: Core<C, X>): OldInfo<C, X> {
    OldInfo(g.prevCancel, g.prevConns, g.cancel, g.conns)
  }

  function Rotate<C, X>(g: Core<C, X>, newValue: string, newCtx: X): Core<C, X> {
    Core(newValue, newCtx, newCtx, Some(g.cancel), [], g.conns)
  }

  function Insert<C, X>(g: Core<C, X>, c: C): Core<C, X> {
    g.(conns := g.conns + [c])
  }

  function Remove<C(==), X>(g: Core<C, X>, c: C): Core<C, X> {
    g.(conns := RemoveFirst(g.conns, c))
  }
}
