/** Runs of a pool of either variant: the operations it went through and what it handed out. */
module CommandPoolRuns {
  import opened Commands
  import CommandPool
  import Close = CloseLoopPoolRuns
  import Open = OpenLoopPoolRuns
  import OpenLoopPool

  /** These commands stand at these places of the list. */
  predicate Placed(accepted: seq<Command>, places: seq<nat>, commands: seq<Command>) {
    && |commands| == |places|
    && forall i :: 0 <= i < |commands| ==> places[i] < |accepted| && commands[i] == accepted[places[i]]
  }

  ghost predicate OpenHistory(h: Open.History, pool: OpenLoopPool.State, ops: seq<Op>, handed: seq<Command>) {
    Open.Reachable(h, ops) && h.pool == pool && Placed(h.accepted, h.handed, handed)
  }

  /** The pool is the outcome of these operations, and handed out these commands, in order. */
  ghost predicate IsHistory(pool: CommandPool.State, ops: seq<Op>, handed: seq<Command>) {
    match pool
    case CloseLoop(p) => p == Close.Run(ops).pool && handed == Close.Run(ops).handed
    case OpenLoop(p) => exists h :: OpenHistory(h, p, ops, handed)
  }

  lemma EmptyHistory(openLoop: bool)
    ensures IsHistory(CommandPool.Empty(openLoop), [], [])
  {
    assert OpenHistory(Open.START, OpenLoopPool.EMPTY, [], []);
  }

  /** What an operation leaves of the pool, and what it hands out. */
  function After(pool: CommandPool.State, op: Op): (CommandPool.State, seq<Command>)
    requires pool.OpenLoop? ==> Open.Allowed(op)
  {
    match op
    case PushOp(c) => (CommandPool.Push(pool, c), [])
    case CloseOp(b) =>
      var r := CommandPool.CloseBatch(pool, b);
      (r.0, if r.1.Some? then r.1.value else [])
    case CommitOp(c) => (CommandPool.Commit(pool, c), [])
  }

  lemma OneMoreOp(pool: CommandPool.State, ops: seq<Op>, handed: seq<Command>, op: Op)
    requires IsHistory(pool, ops, handed) && (pool.OpenLoop? ==> Open.Allowed(op))
    ensures var r := After(pool, op); IsHistory(r.0, ops + [op], handed + r.1)
  {
    match pool
    case CloseLoop(p) => Close.OneMoreOp(ops, op);
    case OpenLoop(p) =>
      var h :| OpenHistory(h, p, ops, handed);
      OneMoreOpenOp(h, p, ops, handed, op);
  }

  lemma OneMoreOpenOp(h: Open.History, p: OpenLoopPool.State, ops: seq<Op>, handed: seq<Command>, op: Op)
    requires OpenHistory(h, p, ops, handed) && Open.Allowed(op)
    ensures |h.buffered| == |p.buffer|
    ensures var r := After(CommandPool.OpenLoop(p), op);
      r.0.OpenLoop? && OpenHistory(Open.After(h, op), r.0.open, ops + [op], handed + r.1)
  {
    hide Open.HistoryOk;
    Open.RunKeeps(h, ops);
    Bounded(h);
    StaysReachable(h, ops, op);
    HandsOut(h, handed, op);
  }

  lemma Bounded(h: Open.History)
    requires Open.HistoryOk(h)
    ensures |h.buffered| == |h.pool.buffer|
  {
  }

  lemma StaysReachable(h: Open.History, ops: seq<Op>, op: Op)
    requires Open.Reachable(h, ops) && Open.Allowed(op) && |h.buffered| == |h.pool.buffer|
    ensures Open.Reachable(Open.After(h, op), ops + [op])
  {
    hide Open.After;
    assert (ops + [op])[..|ops|] == ops;
  }

  lemma PlacedConcat(accepted: seq<Command>, p: seq<nat>, q: seq<nat>, a: seq<Command>, b: seq<Command>)
    requires Placed(accepted, p, a) && Placed(accepted, q, b)
    ensures Placed(accepted, p + q, a + b)
  {
  }

  lemma BufferIsPlaced(h: Open.History, skipped: nat)
    requires Open.HistoryOk(h) && skipped <= |h.buffered|
    ensures Placed(h.accepted, h.buffered[skipped..], h.pool.buffer[skipped..])
  {
  }

  /** What comes out of the pool is what the history says. */
  lemma HandsOut(h: Open.History, handed: seq<Command>, op: Op)
    requires Open.HistoryOk(h) && |h.buffered| == |h.pool.buffer| && Open.Allowed(op)
    requires Placed(h.accepted, h.handed, handed)
    ensures var (pool', taken) := After(CommandPool.OpenLoop(h.pool), op); var h' := Open.After(h, op);
      pool' == CommandPool.OpenLoop(h'.pool) && Placed(h'.accepted, h'.handed, handed + taken)
  {
    hide Open.HistoryOk;
    assert handed + [] == handed;
    match op
    case PushOp(c) =>
    case CloseOp(b) =>
      var skipped := Open.Skipped(|h.buffered|, b);
      BufferIsPlaced(h, skipped);
      PlacedConcat(h.accepted, h.handed, h.buffered[skipped..], handed, h.pool.buffer[skipped..]);
    case CommitOp(c) =>
  }

  /** In the close loop, what was pushed is covered by what is pending, handed out or committed. */
  lemma PushedIsCovered(pool: CommandPool.State, ops: seq<Op>, handed: seq<Command>, x: Command)
    requires IsHistory(pool, ops, handed) && pool.CloseLoop? && x in PushedIn(ops)
    ensures exists y :: Covers(y, x) && (y in CommandPool.Pending(pool) || y in handed || y in CommittedIn(ops))
  {
    Close.PushedIsCovered(ops, x);
  }

  /** In the open loop nothing comes out twice, and each client's commands come out in the order of their numbers. */
  lemma HandedOnce(pool: CommandPool.State, ops: seq<Op>, handed: seq<Command>, i: nat, j: nat)
    requires IsHistory(pool, ops, handed) && i < j < |handed| && handed[i].client == handed[j].client
    ensures handed[i].num < handed[j].num
  {
    match pool
    case CloseLoop(p) => Close.RunKeepsLedger(ops);
    case OpenLoop(p) =>
      var h :| OpenHistory(h, p, ops, handed);
      Open.HandedInOrderOnce(h, ops, i, j);
  }
}
