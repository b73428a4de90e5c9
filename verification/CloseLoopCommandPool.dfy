/**
 The closed-loop pool as the program keeps it (src/command/pool.rs:142-225): the
 queue, how many entries have left its front, and for each client with a pending
 entry the absolute offset of that entry. It refines the plain list `State`.
 */
module CloseLoopCommandPool {
  import opened Commands
  import opened CloseLoopPool

  /** The entry of client `k` sits where the table says. */
  ghost predicate Points(queue: seq<Command>, offset: nat, offsets: map<ClientId, nat>, k: ClientId) {
    k in offsets ==> offset <= offsets[k] < offset + |queue| && queue[offsets[k] - offset].client == k
  }

  /** The table of offsets is a bijection between its clients and the queue positions. */
  ghost predicate Indexed(queue: seq<Command>, offset: nat, offsets: map<ClientId, nat>) {
    && (forall i :: 0 <= i < |queue| ==> queue[i].client in offsets && offsets[queue[i].client] == offset + i)
    && (forall k {:trigger Points(queue, offset, offsets, k)} :: Points(queue, offset, offsets, k))
  }

  /** Taking the front entry off a queue takes its client out of the table. */
  lemma ShiftIndex(c: Command, rest: seq<Command>, offset: nat, offsets: map<ClientId, nat>)
    requires Indexed([c] + rest, offset, offsets)
    ensures c.client in offsets && Indexed(rest, offset + 1, offsets - {c.client})
  {
    var queue := [c] + rest;
    assert queue[0] == c;
    forall i | 0 <= i < |rest|
      ensures rest[i].client in offsets - {c.client} && offsets[rest[i].client] == offset + 1 + i
    {
      assert queue[i + 1] == rest[i];
    }
    var offset', shorter := offset + 1, offsets - {c.client};
    forall k ensures Points(rest, offset', shorter, k) {
      assert Points(queue, offset, offsets, k);
    }
  }

  lemma AppendKeepsIndex(queue: seq<Command>, offset: nat, offsets: map<ClientId, nat>, c: Command)
    requires Indexed(queue, offset, offsets) && c.client !in offsets
    ensures Indexed(queue + [c], offset, offsets[c.client := offset + |queue|])
  {
    var queue', offsets' := queue + [c], offsets[c.client := offset + |queue|];
    forall k ensures Points(queue', offset, offsets', k) {
      assert Points(queue, offset, offsets, k);
    }
  }

  lemma ReplaceKeepsIndex(queue: seq<Command>, offset: nat, offsets: map<ClientId, nat>, i: nat, c: Command)
    requires Indexed(queue, offset, offsets) && i < |queue| && queue[i].client == c.client
    ensures Indexed(queue[i := c], offset, offsets)
  {
    var queue' := queue[i := c];
    forall k ensures Points(queue', offset, offsets, k) {
      assert Points(queue, offset, offsets, k);
    }
  }

  /** One turn of the loop over a batch. */
  lemma TakeOne(batch: seq<Command>, i: nat, queue: seq<Command>, offset: nat, offsets: map<ClientId, nat>)
    requires i < |batch| && Indexed(batch[i..] + queue, offset, offsets)
    ensures Indexed(batch[i + 1..] + queue, offset + 1, offsets - {batch[i].client})
  {
    assert [batch[i]] + (batch[i + 1..] + queue) == batch[i..] + queue;
    ShiftIndex(batch[i], batch[i + 1..] + queue, offset, offsets);
  }

  /** Exactly the waiting clients are in the table, so the queue is as long as they are many. */
  lemma {:induction false} QueueIsAsLongAsClients(queue: seq<Command>, offset: nat, offsets: map<ClientId, nat>)
    requires Indexed(queue, offset, offsets)
    ensures |queue| == |offsets|
  {
    if queue == [] {
      forall k ensures k !in offsets {
        assert Points(queue, offset, offsets, k);
      }
      assert offsets == map[];
    } else {
      assert [queue[0]] + queue[1..] == queue;
      ShiftIndex(queue[0], queue[1..], offset, offsets);
      assert offsets.Keys == (offsets - {queue[0].client}).Keys + {queue[0].client};
      QueueIsAsLongAsClients(queue[1..], offset + 1, offsets - {queue[0].client});
    }
  }

  class CommandPool {
    var pendingQueue: seq<Command>
    var pendingQueueOffset: nat
    var clientPendingOffsets: map<ClientId, nat>
    var submittedSeqs: map<ClientId, ClientSeq>

    ghost predicate Valid()
      reads this
    {
      Indexed(pendingQueue, pendingQueueOffset, clientPendingOffsets) && Inv(Value())
    }

    ghost function Value(): State
      reads this
    {
      State(pendingQueue, submittedSeqs)
    }

    constructor ()
      ensures Valid() && Value() == EMPTY
    {
      pendingQueue, pendingQueueOffset := [], 0;
      clientPendingOffsets, submittedSeqs := map[], map[];
    }

    /** The index is an offset minus what has left the queue, and agrees with linear search. */
    function ClientPendingIndex(client: ClientId): (r: Option<nat>)
      requires Indexed(pendingQueue, pendingQueueOffset, clientPendingOffsets)
      reads this
      ensures r == IndexOf(pendingQueue, client)
    {
      assert Points(pendingQueue, pendingQueueOffset, clientPendingOffsets, client);
      if client in clientPendingOffsets then Some(clientPendingOffsets[client] - pendingQueueOffset) else None
    }

    method PushCommand(command: Command) returns (pushed: bool)
      requires Valid()
      modifies this
      ensures Valid()
      ensures (Value(), pushed) == Push(old(Value()), command)
      ensures !pushed ==> Value() == old(Value())
      ensures pushed ==> submittedSeqs == old(submittedSeqs) && command in pendingQueue
    {
      PushKeepsInv(Value(), command);
      if command.client in submittedSeqs && submittedSeqs[command.client] >= command.num {
        return false;
      }
      match ClientPendingIndex(command.client)
      case Some(i) =>
        if command.num > pendingQueue[i].num {
          ReplaceKeepsIndex(pendingQueue, pendingQueueOffset, clientPendingOffsets, i, command);
          pendingQueue := pendingQueue[i := command];
          assert pendingQueue[i] == command;
          return true;
        } else {
          return false;
        }
      case None =>
        AppendKeepsIndex(pendingQueue, pendingQueueOffset, clientPendingOffsets, command);
        clientPendingOffsets := clientPendingOffsets[command.client := pendingQueueOffset + |pendingQueue|];
        pendingQueue := pendingQueue + [command];
        return true;
    }

    method TakeBatch(maxBatchSize: nat) returns (batch: Option<seq<Command>>)
      requires Valid()
      modifies this
      ensures Valid()
      ensures (Value(), batch) == CloseBatch(old(Value()), maxBatchSize)
    {
      hide Indexed, Inv;
      if pendingQueue == [] {
        return None;
      }
      CloseBatchKeepsInv(Value(), maxBatchSize);
      var batchSize := Min(maxBatchSize, |pendingQueue|);
      var commands := pendingQueue[..batchSize];
      assert commands + pendingQueue[batchSize..] == pendingQueue;
      pendingQueue := pendingQueue[batchSize..];
      pendingQueueOffset := pendingQueueOffset + batchSize;
      RecordBatch(commands);
      return Some(commands);
    }

    /** The loop of `close_batch` over the commands it hands out. */
    method RecordBatch(commands: seq<Command>)
      requires |commands| <= pendingQueueOffset
      requires Indexed(commands + pendingQueue, pendingQueueOffset - |commands|, clientPendingOffsets)
      requires Inv(State(commands + pendingQueue, submittedSeqs))
      modifies this`clientPendingOffsets, this`submittedSeqs
      ensures Indexed(pendingQueue, pendingQueueOffset, clientPendingOffsets)
      ensures submittedSeqs == MarkSubmitted(old(submittedSeqs), commands)
    {
      hide Indexed, Inv;
      ghost var s := State(commands + pendingQueue, submittedSeqs);
      assert commands[0..] + pendingQueue == commands + pendingQueue;
      for i := 0 to |commands|
        invariant Indexed(commands[i..] + pendingQueue, pendingQueueOffset - |commands| + i, clientPendingOffsets)
        invariant submittedSeqs == MarkSubmitted(s.submitted, commands[..i])
      {
        var client := commands[i].client;
        assert commands[..i + 1][..i] == commands[..i];
        TakeOne(commands, i, pendingQueue, pendingQueueOffset - |commands| + i, clientPendingOffsets);
        StillNewer(s, commands, i);
        assert client in submittedSeqs ==> submittedSeqs[client] < commands[i].num;
        clientPendingOffsets := clientPendingOffsets - {client};
        submittedSeqs := submittedSeqs[client := commands[i].num];
      }
      assert commands[|commands|..] + pendingQueue == pendingQueue;
      assert commands[..|commands|] == commands;
    }

    method CommitCommand(command: Command)
      requires Valid()
      modifies this
      ensures Valid()
      ensures Value() == Commit(old(Value()), command)
    {
      hide Indexed, Inv;
      CommitKeepsInv(Value(), command);
      var seen := if command.client in submittedSeqs then submittedSeqs[command.client] else 0;
      submittedSeqs := submittedSeqs[command.client := Max(seen, command.num)];
      match ClientPendingIndex(command.client)
      case Some(i) =>
        if pendingQueue[i].num <= command.num {
          var offset, offsets, queue := pendingQueueOffset, clientPendingOffsets, pendingQueue;
          pendingQueue := SwapRemove(pendingQueue, i);
          clientPendingOffsets := clientPendingOffsets - {command.client};
          if i < |pendingQueue| {
            clientPendingOffsets := clientPendingOffsets[pendingQueue[i].client := pendingQueueOffset + i];
          }
          SwapKeepsIndex(queue, offset, offsets, i);
        }
      case None =>
    }
  }

  lemma SwapKeepsIndex(queue: seq<Command>, offset: nat, offsets: map<ClientId, nat>, i: nat)
    requires Indexed(queue, offset, offsets) && i < |queue|
    ensures
      var queue' := SwapRemove(queue, i);
      var removed := offsets - {queue[i].client};
      Indexed(queue', offset, if i < |queue'| then removed[queue'[i].client := offset + i] else removed)
  {
    var queue' := SwapRemove(queue, i);
    var removed := offsets - {queue[i].client};
    var offsets' := if i < |queue'| then removed[queue'[i].client := offset + i] else removed;
    forall k ensures Points(queue', offset, offsets', k) {
      assert Points(queue, offset, offsets, k);
    }
  }

  /** The check in the batch loop holds: nothing as new was submitted for this client. */
  lemma StillNewer(s: State, batch: seq<Command>, i: nat)
    requires Inv(s) && batch <= s.pending && i < |batch|
    ensures !Superseded(MarkSubmitted(s.submitted, batch[..i]), batch[i])
  {
    MarkSubmittedIs(s.submitted, batch[..i]);
    assert NoneFrom(batch[..i], batch[i].client);
    assert SameAt(MarkSubmitted(s.submitted, batch[..i]), s.submitted, batch[i].client);
    assert batch[i] == s.pending[i];
  }
}
