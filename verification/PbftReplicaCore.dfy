/**
 The core of a PBFT replica as the program keeps it: blocks with the quorums collected
 for them, and two counters that move (`ReplicaCore`, src/pbft/mod.rs:54-281).
 */
module PbftReplicaCore {
  import opened Commands
  import opened PbftCore
  import CloseLoopCommandPool
  import CloseLoopPool

  /** Who took part in a quorum. */
  type Quorum = set<ReplicaId>

  datatype Block = Block(
    commands: seq<Command>, digest: Digest, prepareQuorum: Option<Quorum>, commitQuorum: Option<Quorum>)

  /** An event with all it carries. */
  datatype Input =
    | Request(command: Command)
    | Proposal(num: nat, block: Block)
    | PrepareQuorum(num: nat, quorum: Quorum)
    | CommitQuorum(num: nat, quorum: Quorum)

  function EventOf(i: Input): Event {
    match i
    case Request(command) => Event.Request(command)
    case Proposal(k, block) => Event.Proposal(k, block.commands)
    case PrepareQuorum(k, _) => Event.PrepareQuorum(k)
    case CommitQuorum(k, _) => Event.CommitQuorum(k)
  }

  /** A block fresh from a proposal. */
  predicate Fresh(b: Block) {
    b.digest == Digest(b.commands) && b.prepareQuorum.None? && b.commitQuorum.None?
  }

  class ReplicaCore {
    const config: Setting
    const pool: CloseLoopCommandPool.CommandPool
    var blocks: map<nat, Block>
    var proposeNum: nat
    var finalizeNum: nat

    ghost predicate Valid()
      reads this, pool
    {
      Sound(config) && pool.Valid() && forall k :: k in blocks ==> blocks[k].digest == Digest(blocks[k].commands)
    }

    ghost function Value(): Core
      reads this, pool
    {
      Core((map k | k in blocks :: blocks[k].commands),
           (set k | k in blocks && blocks[k].prepareQuorum.Some?),
           (set k | k in blocks && blocks[k].commitQuorum.Some?),
           pool.Value(), proposeNum, finalizeNum)
    }

    constructor (config: Setting)
      requires Sound(config)
      ensures Valid() && fresh(pool) && this.config == config
      ensures Value() == PbftCore.Init()
    {
      this.config := config;
      pool := new CloseLoopCommandPool.CommandPool();
      blocks, proposeNum, finalizeNum := map[], 0, 0;
    }

    function IsPreparedNow(k: nat): (r: bool)
      reads this, pool
      ensures r == IsPrepared(Value(), k)
    {
      k < finalizeNum || (k in blocks && blocks[k].prepareQuorum.Some?)
    }

    function IsCommittedNow(k: nat): (r: bool)
      reads this, pool
      ensures r == IsCommitted(Value(), k)
    {
      k < finalizeNum || (IsPreparedNow(k) && blocks[k].commitQuorum.Some?)
    }

    /** The subtraction does not underflow. */
    function CanProposeNow(): (r: bool)
      requires Sound(config) && (IsPrimary(config) ==> finalizeNum <= proposeNum)
      reads this, pool
      ensures r == CanPropose(config, Value())
    {
      IsPrimary(config) && var inflight: nat := proposeNum - finalizeNum; inflight < config.maxInflight
    }

    /** src/pbft/mod.rs:207-209 */
    method CommitCommands(commands: seq<Command>)
      requires Valid()
      modifies pool
      ensures Valid() && pool.Value() == CommitAll(old(pool.Value()), commands)
    {
      for i := 0 to |commands|
        invariant pool.Valid() && pool.Value() == CommitAll(old(pool.Value()), commands[..i])
      {
        assert commands[..i + 1][..i] == commands[..i];
        pool.CommitCommand(commands[i]);
      }
      assert commands[..|commands|] == commands;
    }

    /** src/pbft/mod.rs:206-209 */
    method FinalizeNext()
      requires Valid() && CanFinalize(Value())
      modifies this`finalizeNum, pool
      ensures Valid() && Value() == FinalizeOne(old(Value()))
    {
      hide CommitAll;
      finalizeNum := finalizeNum + 1;
      CommitCommands(blocks[finalizeNum].commands);
    }

    /** src/pbft/mod.rs:199-211 */
    method FinalizeReady() returns (actions: seq<Action>)
      requires Valid()
      modifies this`finalizeNum, pool
      ensures Valid() && Value() == FinalizeAll(old(Value()))
      ensures finalizeNum >= old(finalizeNum) && actions == FinalizeActions(old(finalizeNum), finalizeNum)
    {
      hide FinalizeOne, Unfinalized;
      actions := [];
      while finalizeNum + 1 in blocks && blocks[finalizeNum + 1].prepareQuorum.Some?
        && blocks[finalizeNum + 1].commitQuorum.Some?
        invariant Valid() && FinalizeAll(Value()) == FinalizeAll(old(Value()))
        invariant finalizeNum >= old(finalizeNum) && actions == FinalizeActions(old(finalizeNum), finalizeNum)
        decreases Unfinalized(Value())
      {
        FinalizeOneProgresses(Value());
        FinalizeOneIsNext(Value());
        FinalizeNext();
        actions := actions + [Finalize(finalizeNum)];
      }
    }

    /** src/pbft/mod.rs:252-260 */
    method ProposeBatches() returns (actions: seq<Action>)
      requires Valid() && (IsPrimary(config) ==> finalizeNum <= proposeNum)
      modifies this`proposeNum, pool
      ensures Valid() && (Value(), actions) == ProposeAll(config, old(Value()))
    {
      hide CloseLoopPool.CloseBatch, CanPropose;
      actions := [];
      assert actions + ProposeAll(config, Value()).1 == ProposeAll(config, Value()).1;
      while CanProposeNow()
        invariant Valid() && (IsPrimary(config) ==> finalizeNum <= proposeNum)
        invariant ProposeAll(config, old(Value())) ==
                  (ProposeAll(config, Value()).0, actions + ProposeAll(config, Value()).1)
        decreases finalizeNum + config.maxInflight - proposeNum
      {
        ghost var before := Value();
        var batch := pool.TakeBatch(config.maxBatchSize);
        if batch.None? {
          assert Value() == before.(pool := pool.Value());
          assert actions + [] == actions;
          return;
        }
        proposeNum := proposeNum + 1;
        assert Value() == before.(pool := pool.Value(), proposeNum := proposeNum);
        ghost var rest := ProposeAll(config, Value()).1;
        assert actions + ([Propose(proposeNum, batch.value)] + rest) ==
          actions + [Propose(proposeNum, batch.value)] + rest;
        actions := actions + [Propose(proposeNum, batch.value)];
      }
      assert actions + [] == actions;
    }

    /** src/pbft/mod.rs:196-198 */
    method StoreCommitQuorum(k: nat, quorum: Quorum)
      requires Valid() && k in Value().accepted && k !in Value().committed
      modifies this`blocks
      ensures Valid() && Value() == old(Value()).(committed := old(Value()).committed + {k})
      ensures blocks == old(blocks)[k := old(blocks)[k].(commitQuorum := Some(quorum))]
    {
      assert blocks[k].commitQuorum.None?;
      blocks := blocks[k := blocks[k].(commitQuorum := Some(quorum))];
    }

    /** src/pbft/mod.rs:190-192 */
    method StorePrepareQuorum(k: nat, quorum: Quorum)
      requires Valid() && k in Value().accepted && k !in Value().prepared
      modifies this`blocks
      ensures Valid() && Value() == old(Value()).(prepared := old(Value()).prepared + {k})
      ensures blocks == old(blocks)[k := old(blocks)[k].(prepareQuorum := Some(quorum))]
    {
      assert blocks[k].prepareQuorum.None?;
      blocks := blocks[k := blocks[k].(prepareQuorum := Some(quorum))];
    }

    /** src/pbft/mod.rs:166-213 */
    method HandleEvent(event: Input) returns (actions: seq<Action>)
      requires Valid() && CanHandle(config, Value(), EventOf(event))
      requires event.Proposal? ==> Fresh(event.block)
      modifies this, pool
      ensures Valid() && (Value(), actions) == Handle(config, old(Value()), EventOf(event))
    {
      hide FinalizeAll, ProposeAll, FinalizeActions, CanFinalize;
      match event
      case Request(command) =>
        var _ := pool.PushCommand(command);
        if !IsPrimary(config) {
          return [Forward(Primary(config), command)];
        }
        actions := ProposeBatches();
      case Proposal(k, block) =>
        if k in blocks {
          return [];
        }
        ghost var before := Value();
        blocks := blocks[k := block];
        assert Value() == before.(accepted := before.accepted[k := block.commands]);
        actions := if !IsPrimary(config) then [Prepare(k, block.digest)] else [];
      case PrepareQuorum(k, quorum) =>
        StorePrepareQuorum(k, quorum);
        actions := [Commit(k)];
      case CommitQuorum(k, quorum) =>
        StoreCommitQuorum(k, quorum);
        var finalizes := FinalizeReady();
        var proposals := ProposeBatches();
        actions := finalizes + proposals;
    }
  }
}
