/** A pool object of either variant (src/command/pool.rs:21-55). */
module PoolVariants {
  import opened Commands
  import CommandPool
  import CloseLoopCommandPool
  import OpenLoopCommandPool
  import OpenLoopPool

  datatype Pool =
    | CloseLoop(close: CloseLoopCommandPool.CommandPool)
    | OpenLoop(open: OpenLoopCommandPool.CommandPool)
  {
    ghost function Object(): object {
      match this
      case CloseLoop(p) => p
      case OpenLoop(p) => p
    }

    ghost predicate Valid()
      reads Object()
    {
      match this
      case CloseLoop(p) => p.Valid()
      case OpenLoop(p) => p.Valid()
    }

    ghost function Value(): CommandPool.State
      reads Object()
    {
      match this
      case CloseLoop(p) => CommandPool.CloseLoop(p.Value())
      case OpenLoop(p) => CommandPool.OpenLoop(p.Value())
    }

    method Push(command: Command)
      requires Valid()
      modifies Object()
      ensures Valid()
      ensures Value() == CommandPool.Push(old(Value()), command)
    {
      match this
      case CloseLoop(p) => var _ := p.PushCommand(command);
      case OpenLoop(p) => var _ := p.PushCommand(command);
    }

    method TakeBatch(maxBatchSize: nat) returns (batch: Option<seq<Command>>)
      requires Valid() && (OpenLoop? ==> maxBatchSize <= OpenLoopPool.MAX_LEN)
      modifies Object()
      ensures Valid()
      ensures (Value(), batch) == CommandPool.CloseBatch(old(Value()), maxBatchSize)
    {
      match this
      case CloseLoop(p) => batch := p.TakeBatch(maxBatchSize);
      case OpenLoop(p) => batch := p.TakeBatch(maxBatchSize);
    }

    method Commit(command: Command)
      requires Valid()
      modifies Object()
      ensures Valid()
      ensures Value() == CommandPool.Commit(old(Value()), command)
    {
      match this
      case CloseLoop(p) => p.CommitCommand(command);
      case OpenLoop(p) => p.CommitCommand(command);
    }
  }

  method NewPool(openLoop: bool) returns (pool: Pool)
    ensures pool.Valid() && fresh(pool.Object()) && pool.Value() == CommandPool.Empty(openLoop)
  {
    if openLoop {
      var p := new OpenLoopCommandPool.CommandPool();
      pool := OpenLoop(p);
    } else {
      var p := new CloseLoopCommandPool.CommandPool();
      pool := CloseLoop(p);
    }
  }
}
