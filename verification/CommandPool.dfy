/** The pool a replica core holds: one of the two variants (src/command/pool.rs:21-55). */
module CommandPool {
  import opened Commands
  import CloseLoopPool
  import OpenLoopPool

  datatype State = CloseLoop(close: CloseLoopPool.State) | OpenLoop(open: OpenLoopPool.State)

  function Empty(openLoop: bool): State {
    if openLoop then OpenLoop(OpenLoopPool.EMPTY) else CloseLoop(CloseLoopPool.EMPTY)
  }

  /** The commands waiting to be handed out. */
  function Pending(s: State): seq<Command> {
    match s
    case CloseLoop(p) => p.pending
    case OpenLoop(p) => p.buffer
  }

  function Push(s: State, c: Command): State {
    match s
    case CloseLoop(p) => CloseLoop(CloseLoopPool.Push(p, c).0)
    case OpenLoop(p) => OpenLoop(OpenLoopPool.Push(p, c).0)
  }

  function CloseBatch(s: State, maxBatchSize: nat): (State, Option<seq<Command>>)
    requires s.OpenLoop? ==> maxBatchSize <= OpenLoopPool.MAX_LEN
  {
    match s
    case CloseLoop(p) => var r := CloseLoopPool.CloseBatch(p, maxBatchSize); (CloseLoop(r.0), r.1)
    case OpenLoop(p) => var r := OpenLoopPool.CloseBatch(p, maxBatchSize); (OpenLoop(r.0), r.1)
  }

  function Commit(s: State, c: Command): State {
    match s
    case CloseLoop(p) => CloseLoop(CloseLoopPool.Commit(p, c))
    case OpenLoop(p) => OpenLoop(OpenLoopPool.Commit(p, c))
  }

  function CommitAll(s: State, cs: seq<Command>): (r: State)
    ensures r.OpenLoop? <==> s.OpenLoop?
  {
    if cs == [] then s else Commit(CommitAll(s, cs[..|cs| - 1]), Last(cs))
  }
}
