/** The open-loop pool as the program keeps it (src/command/pool.rs:70-121). */
module OpenLoopCommandPool {
  import opened Commands
  import opened OpenLoopPool

  class CommandPool {
    var pendingBuf: seq<Command>
    var clientSeqs: map<ClientId, ClientSeq>

    ghost predicate Valid()
      reads this
    {
      |pendingBuf| <= MAX_LEN
    }

    ghost function Value(): State
      reads this
    {
      State(pendingBuf, clientSeqs)
    }

    constructor ()
      ensures Valid() && Value() == EMPTY
    {
      pendingBuf, clientSeqs := [], map[];
    }

    method PushCommand(command: Command) returns (pushed: bool)
      requires Valid()
      modifies this
      ensures Valid()
      ensures (Value(), pushed) == Push(old(Value()), command)
      ensures pushed <==> !(command.client in old(clientSeqs) && old(clientSeqs)[command.client] >= command.num)
      ensures pushed ==> pendingBuf == (if |old(pendingBuf)| == MAX_LEN then old(pendingBuf)[1..]
        else old(pendingBuf)) + [command]
      ensures !pushed ==> pendingBuf == old(pendingBuf)
    {
      if command.client in clientSeqs && clientSeqs[command.client] >= command.num {
        return false;
      }
      clientSeqs := clientSeqs[command.client := command.num];
      if |pendingBuf| == MAX_LEN {
        pendingBuf := pendingBuf[1..];
      }
      pendingBuf := pendingBuf + [command];
      return true;
    }

    method TakeBatch(maxBatchSize: nat) returns (batch: Option<seq<Command>>)
      requires Valid() && maxBatchSize <= MAX_LEN
      modifies this
      ensures Valid()
      ensures (Value(), batch) == CloseBatch(old(Value()), maxBatchSize)
      ensures pendingBuf == [] && clientSeqs == old(clientSeqs)
      ensures batch.None? <==> old(pendingBuf) == []
      ensures batch.Some? ==>
        && |batch.value| == (if |old(pendingBuf)| < maxBatchSize then |old(pendingBuf)| else maxBatchSize)
        && batch.value == old(pendingBuf)[|old(pendingBuf)| - |batch.value|..]
    {
      if pendingBuf == [] {
        return None;
      }
      var numSkipped := (if |pendingBuf| < maxBatchSize then maxBatchSize else |pendingBuf|) - maxBatchSize;
      batch := Some(pendingBuf[numSkipped..]);
      pendingBuf := [];
    }

    method CommitCommand(command: Command)
      requires Valid()
      modifies this
      ensures Valid()
      ensures Value() == Commit(old(Value()), command)
    {
      var seen := if command.client in clientSeqs then clientSeqs[command.client] else 0;
      clientSeqs := clientSeqs[command.client := if seen < command.num then command.num else seen];
    }
  }
}
