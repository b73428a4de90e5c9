/**
 A PBFT replica as the program keeps it (`Replica`, src/pbft/mod.rs:295-664): the core,
 its queue of actions, and the scratch tables. Its ghost fields record the votes that
 were delivered; everything it does is what `PbftNode.Receive` says of those.
 */
module PbftReplica {
  import opened Commands
  import opened PbftCore
  import opened PbftNode
  import opened PbftInvariant
  import opened PbftScratch
  import PbftReplicaCore

  /** One turn of the loop, seen from its end. */
  lemma DrainStep(c: Setting, s: Node, a: Action, rest: seq<Action>)
    requires Sound(c) && Drain(c, s, [a] + rest).Done?
    ensures CanPerform(c, s, a)
    ensures var r := Perform(c, s, a); var whole := Drain(c, s, [a] + rest); var later := Drain(c, r.0, rest + r.1);
      && later.Done? && whole.node == later.node
      && whole.outputs == r.2 + later.outputs && whole.turns == later.turns + 1
  {
  }

  /** A proposal under a number that has a block already. */
  predicate IsRepeat(c: Setting, s: Node, m: Message) {
    m.PrePrepare? && m.viewNum == c.viewNum && m.blockNum in s.core.accepted
  }

  class Replica {
    const core: PbftReplicaCore.ReplicaCore
    var coreActions: seq<Action>
    var blockScratches: map<nat, Scratch>
    var tickedScratchNum: nat
    ghost var prepares: set<Vote>
    ghost var commits: set<Vote>

    ghost function Value(): Node
      reads this, core, core.pool
    {
      Node(core.Value(), prepares, commits)
    }

    /** With these actions still to be performed. */
    ghost predicate Running(queue: seq<Action>)
      reads this, core, core.pool
    {
      core.Valid() && Held(core.config, Value(), queue, blockScratches)
    }

    ghost predicate Valid()
      reads this, core, core.pool
    {
      Running([]) && Settled(core.config, Value()) && coreActions == [] && tickedScratchNum <= core.proposeNum
    }

    constructor (config: Setting)
      requires Sound(config)
      ensures Valid() && fresh(core) && fresh(core.pool) && core.config == config && Value() == PbftNode.Init()
    {
      core := new PbftReplicaCore.ReplicaCore(config);
      coreActions, blockScratches, tickedScratchNum, prepares, commits := [], map[], 0, {}, {};
      InitIsSettled(config);
      InitIsHeld(config);
    }

    /** src/pbft/mod.rs:606-621 */
    method CheckPrepareQuorum(k: nat)
      requires Running([]) && coreActions == [] && k in blockScratches && k in Value().core.accepted
      requires k !in Value().core.prepared
      requires blockScratches[k].prepareQuorum == Preparers(core.config, Value(), k) != {}
      modifies this`coreActions, this`blockScratches, core, core.pool
      ensures Running(coreActions)
      ensures EnoughPrepares(core.config, old(Value()), k) ==>
        (Value(), coreActions) == Deliver(core.config, old(Value()), Event.PrepareQuorum(k))
      ensures !EnoughPrepares(core.config, old(Value()), k) ==> Value() == old(Value()) && coreActions == []
    {
      hide Held, Handle;
      if |blockScratches[k].prepareQuorum| + 1 >= core.config.n - core.config.f {
        NotFinal(core.config, Value(), blockScratches, k);
        PrepareQuorumKeeps(core.config, Value(), blockScratches, k);
        var quorum := blockScratches[k].prepareQuorum;
        blockScratches := blockScratches[k := blockScratches[k].(prepareQuorum := {})];
        coreActions := core.HandleEvent(PbftReplicaCore.PrepareQuorum(k, quorum));
      }
    }

    /** src/pbft/mod.rs:623-638 */
    method CheckCommitQuorum(k: nat)
      requires Running([]) && coreActions == [] && k in blockScratches && k in Value().core.accepted
      requires k in Value().core.prepared || k >= core.finalizeNum
      requires blockScratches[k].commitQuorum == Committers(core.config, Value(), k)
      requires CommitsNow(core.config, Value(), k) ==> CanHandle(core.config, Value().core, Event.CommitQuorum(k))
      modifies this`coreActions, this`blockScratches, core, core.pool
      ensures Running(coreActions)
      ensures CommitsNow(core.config, old(Value()), k) ==>
        (Value(), coreActions) == Deliver(core.config, old(Value()), Event.CommitQuorum(k))
      ensures !CommitsNow(core.config, old(Value()), k) ==> Value() == old(Value()) && coreActions == []
    {
      hide Held, Handle;
      if core.IsPreparedNow(k) && |blockScratches[k].commitQuorum| >= core.config.n - core.config.f {
        CommitQuorumKeeps(core.config, Value(), blockScratches, k);
        var quorum := blockScratches[k].commitQuorum;
        blockScratches := blockScratches[k := blockScratches[k].(commitQuorum := {})];
        coreActions := core.HandleEvent(PbftReplicaCore.CommitQuorum(k, quorum));
      }
    }

    /** src/pbft/mod.rs:489-513 */
    method EffectPropose(k: nat, commands: seq<Command>, ghost rest: seq<Action>) returns (outputs: seq<Output>)
      requires Running([Propose(k, commands)] + (rest + coreActions))
      modifies this`coreActions, core, core.pool
      ensures Running(rest + coreActions)
      ensures CanPerform(core.config, old(Value()), Propose(k, commands))
      ensures coreActions == old(coreActions) + Perform(core.config, old(Value()), Propose(k, commands)).1
      ensures (Value(), outputs) ==
        (Perform(core.config, old(Value()), Propose(k, commands)).0,
          Perform(core.config, old(Value()), Propose(k, commands)).2)
    {
      hide Held;
      ProposeKeeps(core.config, Value(), Propose(k, commands), rest + coreActions, blockScratches);
      var digest := Digest(commands);
      outputs := [ToAll(PrePrepare(core.config.viewNum, k, digest, commands))];
      var more := core.HandleEvent(PbftReplicaCore.Proposal(k, PbftReplicaCore.Block(commands, digest, None, None)));
      assert coreActions + more == coreActions;
      coreActions := coreActions + more;
    }

    /** src/pbft/mod.rs:514-557 */
    method EffectPrepare(k: nat, digest: Digest) returns (outputs: seq<Output>)
      requires Running([Prepare(k, digest)]) && coreActions == []
      modifies this`coreActions, this`blockScratches, core, core.pool
      ensures Running(coreActions)
      ensures CanPerform(core.config, old(Value()), Prepare(k, digest))
      ensures (Value(), coreActions, outputs) == Perform(core.config, old(Value()), Prepare(k, digest))
    {
      hide Held, Handle;
      GatherKeeps(core.config, Value(), Prepare(k, digest), blockScratches);
      blockScratches := blockScratches[k := Gathered(ScratchAt(blockScratches, k), digest, core.config.id)];
      outputs := [ToAll(PrepareVote(SignedVote(core.config, k, digest)))];
      CheckPrepareQuorum(k);
    }

    /** src/pbft/mod.rs:558-578: the scratch is there. */
    method EffectCommit(k: nat) returns (outputs: seq<Output>)
      requires Running([Commit(k)]) && coreActions == [] && CanPerform(core.config, Value(), Commit(k))
      modifies this`coreActions, this`blockScratches, core, core.pool
      ensures Running(coreActions)
      ensures (Value(), coreActions, outputs) == Perform(core.config, old(Value()), Commit(k))
    {
      hide Held, Handle;
      OwnCommitKeeps(core.config, Value(), Commit(k), blockScratches);
      var scratch := blockScratches[k];
      outputs := [ToAll(CommitVote(SignedVote(core.config, k, core.blocks[k].digest)))];
      blockScratches := blockScratches[k := scratch.(commitQuorum := scratch.commitQuorum + {core.config.id})];
      CheckCommitQuorum(k);
    }

    /** src/pbft/mod.rs:579-585: the scratch is there. */
    method EffectFinalize(k: nat, ghost rest: seq<Action>) returns (outputs: seq<Output>)
      requires Running([Finalize(k)] + (rest + coreActions)) && CanPerform(core.config, Value(), Finalize(k))
      modifies this`blockScratches
      ensures Running(rest + coreActions)
      ensures outputs == Perform(core.config, Value(), Finalize(k)).2
    {
      hide Held;
      FinalizeKeeps(core.config, Value(), Finalize(k), rest + coreActions, blockScratches);
      assert k in blockScratches;
      blockScratches := blockScratches - {k};
      outputs := [Execute(core.blocks[k].commands)];
    }

    /** One action of the queue; `rest` is what is left of the batch. */
    method EffectAction(action: Action, ghost rest: seq<Action>) returns (outputs: seq<Output>)
      requires Running([action] + (rest + coreActions)) && CanPerform(core.config, Value(), action)
      modifies this`coreActions, this`blockScratches, core, core.pool
      ensures Running(rest + coreActions)
      ensures coreActions == old(coreActions) + Perform(core.config, old(Value()), action).1
      ensures Value() == Perform(core.config, old(Value()), action).0
      ensures outputs == Perform(core.config, old(Value()), action).2
    {
      hide Held, Perform;
      match action
      case Propose(k, commands) =>
        outputs := EffectPropose(k, commands, rest);
      case Prepare(k, digest) =>
        Alone(core.config, Value(), action, rest, coreActions, blockScratches);
        outputs := EffectPrepare(k, digest);
        assert rest + coreActions == coreActions == [] + coreActions;
      case Commit(k) =>
        Alone(core.config, Value(), action, rest, coreActions, blockScratches);
        outputs := EffectCommit(k);
        assert rest + coreActions == coreActions == [] + coreActions;
      case Finalize(k) =>
        Quiet(core.config, Value(), action);
        outputs := EffectFinalize(k, rest);
      case Forward(to, command) =>
        Quiet(core.config, Value(), action);
        ForwardKeeps(core.config, Value(), action, rest + coreActions, blockScratches);
        outputs := [To(to, Message.Request(command))];
    }

    /** The inner loop: the actions taken from the queue, while further ones are queued behind. */
    method EffectBatch(batch: seq<Action>) returns (outputs: seq<Output>)
      requires Running(batch) && coreActions == [] && Drain(core.config, Value(), batch).Done?
      modifies this`coreActions, this`blockScratches, core, core.pool
      ensures Running(coreActions)
      ensures var whole := Drain(core.config, old(Value()), batch); var later := Drain(core.config, Value(),
        coreActions);
        && later.Done? && whole.node == later.node && whole.outputs == outputs + later.outputs
        && whole.turns == later.turns + |batch|
    {
      hide Held, Drain, Perform, CanPerform;
      outputs := [];
      assert batch[0..] + coreActions == batch;
      for i := 0 to |batch|
        invariant Running(batch[i..] + coreActions)
        invariant var whole := Drain(core.config, old(Value()), batch);
          var later := Drain(core.config, Value(), batch[i..] + coreActions);
          && later.Done? && whole.node == later.node && whole.outputs == outputs + later.outputs
          && whole.turns == later.turns + i
      {
        ghost var rest := batch[i + 1..];
        assert batch[i..] + coreActions == [batch[i]] + (rest + coreActions);
        DrainStep(core.config, Value(), batch[i], rest + coreActions);
        assert rest + coreActions + Perform(core.config, Value(), batch[i]).1
            == rest + (coreActions + Perform(core.config, Value(), batch[i]).1);
        var more := EffectAction(batch[i], rest);
        outputs := outputs + more;
      }
      assert batch[|batch|..] + coreActions == coreActions;
    }

    /** src/pbft/mod.rs:484-603: the loop ends, because the value-level loop does. */
    method EffectActions() returns (outputs: seq<Output>)
      requires Running(coreActions) && Drain(core.config, Value(), coreActions).Done?
      modifies this`coreActions, this`blockScratches, core, core.pool
      ensures Running([]) && coreActions == []
      ensures var whole := Drain(core.config, old(Value()), old(coreActions));
        (Value(), outputs) == (whole.node, whole.outputs)
    {
      hide Held, Drain, Perform, CanPerform;
      outputs := [];
      while coreActions != []
        invariant Running(coreActions)
        invariant var whole := Drain(core.config, old(Value()), old(coreActions));
          var later := Drain(core.config, Value(), coreActions);
          && later.Done? && whole.node == later.node && whole.outputs == outputs + later.outputs
        decreases Drain(core.config, Value(), coreActions).turns
      {
        var batch := coreActions;
        coreActions := [];
        var more := EffectBatch(batch);
        outputs := outputs + more;
      }
      DrainNothing(core.config, Value());
      assert outputs + [] == outputs;
    }

    /** src/pbft/mod.rs:412-448 */
    method ReceivePrepare(vote: Vote, verified: bool)
      requires Valid() && vote.replica < core.config.n
      requires CanAdmit(core.config, Value(), PrepareVote(vote), verified)
      modifies this`coreActions, this`blockScratches, this`prepares, core, core.pool
      ensures Running(coreActions)
      ensures (Value(), coreActions, []) == Admit(core.config, old(Value()), PrepareVote(vote), verified)
    {
      hide Held, Handle, Settled, Lost, EnoughPrepares, EnoughCommits;
      var k := vote.blockNum;
      if vote.viewNum != core.config.viewNum || core.IsPreparedNow(k) {
        if Current(core.config, vote, verified) {
          LatePrepareHeld(core.config, Value(), blockScratches, vote);
          prepares := WithPrepare(core.config, Value(), vote).prepares;
        }
        return;
      }
      if !verified {
        return;
      }
      PrepareHeld(core.config, Value(), blockScratches, vote);
      prepares := WithPrepare(core.config, Value(), vote).prepares;
      var scratch := ScratchAt(blockScratches, k);
      if k in core.blocks {
        if vote.digest != core.blocks[k].digest {
          blockScratches := blockScratches[k := scratch];
          return;
        }
        blockScratches := blockScratches[k := scratch.(prepareQuorum := scratch.prepareQuorum + {vote.replica})];
        CheckPrepareQuorum(k);
      } else {
        blockScratches := blockScratches[k := scratch.(prepareVotes := scratch.prepareVotes + [vote])];
      }
    }

    /** src/pbft/mod.rs:449-482 */
    method ReceiveCommit(vote: Vote, verified: bool)
      requires Valid() && vote.replica < core.config.n
      requires CanAdmit(core.config, Value(), CommitVote(vote), verified)
      modifies this`coreActions, this`blockScratches, this`commits, core, core.pool
      ensures Running(coreActions)
      ensures (Value(), coreActions, []) == Admit(core.config, old(Value()), CommitVote(vote), verified)
    {
      hide Held, Handle, Settled, Lost, EnoughPrepares, EnoughCommits;
      var k := vote.blockNum;
      if vote.viewNum != core.config.viewNum || core.IsCommittedNow(k) {
        if Current(core.config, vote, verified) {
          LateCommitHeld(core.config, Value(), blockScratches, vote);
          commits := WithCommit(core.config, Value(), vote).commits;
        }
        return;
      }
      if !verified {
        return;
      }
      CommitHeld(core.config, Value(), blockScratches, vote);
      commits := WithCommit(core.config, Value(), vote).commits;
      var scratch := ScratchAt(blockScratches, k);
      if k in core.blocks {
        if vote.digest != core.blocks[k].digest {
          blockScratches := blockScratches[k := scratch];
          return;
        }
        blockScratches := blockScratches[k := scratch.(commitQuorum := scratch.commitQuorum + {vote.replica})];
        CheckCommitQuorum(k);
      } else {
        blockScratches := blockScratches[k := scratch.(commitVotes := scratch.commitVotes + [vote])];
      }
    }

    /** src/pbft/mod.rs:354-411 */
    method ReceivePrePrepare(viewNum: nat, k: nat, digest: Digest, commands: seq<Command>, verified: bool)
      returns (outputs: seq<Output>)
      requires Valid() && Admissible(core.config, Value(), PrePrepare(viewNum, k, digest, commands), verified)
      modifies this`coreActions, core, core.pool
      ensures Running(coreActions)
      ensures (Value(), coreActions, outputs) ==
        Admit(core.config, old(Value()), PrePrepare(viewNum, k, digest, commands), verified)
    {
      hide Held, Settled;
      outputs := [];
      if viewNum != core.config.viewNum {
        return;
      }
      if k in core.blocks {
        if core.blocks[k].digest == digest {
          var vote := SignedVote(core.config, k, digest);
          outputs := [To(Primary(core.config), PrepareVote(vote))];
          assert outputs + [] == outputs;
          if core.blocks[k].prepareQuorum.Some? {
            outputs := outputs + [To(Primary(core.config), CommitVote(vote))];
          }
        }
        return;
      }
      if !verified || digest != Digest(commands) {
        return;
      }
      ProposalHeld(core.config, Value(), blockScratches, k, commands);
      coreActions := core.HandleEvent(PbftReplicaCore.Proposal(k, PbftReplicaCore.Block(commands, digest, None, None)));
    }

    /**
     src/pbft/mod.rs:348-604: no assertion fails, the loop ends, and the outcome is the
     one the value-level replica has.
     */
    method ReceiveMessage(message: Message, verified: bool) returns (outputs: seq<Output>)
      requires Valid() && Admissible(core.config, Value(), message, verified)
      modifies this, core, core.pool
      ensures Valid()
      ensures var r := Receive(core.config, old(Value()), message, verified);
        r.Done? && (Value(), outputs) == (r.node, r.outputs)
      ensures IsRepeat(core.config, old(Value()), message) ==>
        var k, s := message.blockNum, old(Value());
        var mine := Vote(core.config.viewNum, k, message.digest, core.config.id);
        && Value() == s
        && outputs ==
          if message.digest != Digest(s.core.accepted[k]) then []
          else if k in s.core.prepared then
            [To(Primary(core.config), PrepareVote(mine)), To(Primary(core.config), CommitVote(mine))]
          else [To(Primary(core.config), PrepareVote(mine))]
    {
      hide Held, Settled, Admit, CanAdmit, Drain;
      ReceiveKeeps(core.config, Value(), message, verified);
      ReceiveIs(core.config, Value(), message, verified);
      ghost var before := Value();
      outputs := [];
      match message {
        case Request(command) =>
          RequestHeld(core.config, Value(), blockScratches, command);
          RequestAdmits(core.config, Value(), command);
          coreActions := core.HandleEvent(PbftReplicaCore.Request(command));
        case PrePrepare(viewNum, k, digest, commands) =>
          outputs := ReceivePrePrepare(viewNum, k, digest, commands, verified);
        case PrepareVote(vote) =>
          ReceivePrepare(vote, verified);
        case CommitVote(vote) =>
          ReceiveCommit(vote, verified);
      }
      assert (Value(), coreActions, outputs) == Admit(core.config, before, message, verified);
      var more := EffectActions();
      outputs := outputs + more;
      if IsRepeat(core.config, before, message) {
        RepeatAnswer(core.config, before, message.blockNum, message.digest, message.commands, verified);
      }
    }

    /**
     src/pbft/mod.rs:640-663: the primary sends again exactly the proposals of the tick before
     that are not committed yet; a backup sends nothing.
     */
    method TickTimer() returns (outputs: seq<Output>)
      requires Valid()
      modifies this`tickedScratchNum
      ensures Valid() && Value() == old(Value()) && tickedScratchNum == core.proposeNum
      ensures Tick(core.config, Value().core, old(tickedScratchNum)) == Some(outputs)
      ensures if IsPrimary(core.config)
        then ResendsJust(core.config, Value().core, outputs, core.finalizeNum + 1, old(tickedScratchNum))
        else outputs == []
    {
      hide Held, Settled, Honest, Executed, ResendsJust, Retransmit;
      TickSends(core.config, Value(), tickedScratchNum);
      var ticked2ScratchNum := tickedScratchNum;
      tickedScratchNum := core.proposeNum;
      if !IsPrimary(core.config) {
        return [];
      }
      outputs := ResendUpTo(ticked2ScratchNum);
    }

    method ResendUpTo(last: nat) returns (outputs: seq<Output>)
      requires core.Valid() && Retransmit(core.config, Value().core, core.finalizeNum + 1, last).Some?
      ensures Retransmit(core.config, Value().core, core.finalizeNum + 1, last) == Some(outputs)
    {
      outputs := [];
      ghost var s, c := core.Value(), core.config;
      var k := core.finalizeNum + 1;
      ghost var whole := Retransmit(c, s, k, last).value;
      assert [] + whole == whole;
      while k <= last
        invariant k > core.finalizeNum
        invariant Retransmit(c, s, k, last).Some? && whole == outputs + Retransmit(c, s, k, last).value
      {
        if !core.IsCommittedNow(k) {
          var block := core.blocks[k];
          var again := ToAll(PrePrepare(core.config.viewNum, k, block.digest, block.commands));
          ghost var later := Retransmit(c, s, k + 1, last).value;
          assert outputs + ([again] + later) == outputs + [again] + later;
          outputs := outputs + [again];
        }
        k := k + 1;
      }
      assert outputs + [] == outputs;
    }
  }

  lemma ReceiveIs(c: Setting, s: Node, m: Message, verified: bool)
    requires Sound(c) && Receive(c, s, m, verified).Done?
    ensures CanAdmit(c, s, m, verified)
    ensures var a := Admit(c, s, m, verified); var d := Drain(c, a.0, a.1); var r := Receive(c, s, m, verified);
      d.Done? && r.node == d.node && r.outputs == a.2 + d.outputs
  {
  }

  lemma RequestAdmits(c: Setting, s: Node, command: Command)
    requires Sound(c) && CanAdmit(c, s, Message.Request(command), true)
    ensures CanHandle(c, s.core, Event.Request(command))
    ensures var r := Deliver(c, s, Event.Request(command)); forall verified ::
      Admit(c, s, Message.Request(command), verified) == (r.0, r.1, [])
  {
  }

  lemma DrainNothing(c: Setting, s: Node)
    requires Sound(c)
    ensures Drain(c, s, []) == Done(s, [], 0)
  {
  }

  /** Prepares and Commits are queued alone. */
  lemma Alone(c: Setting, s: Node, a: Action, rest: seq<Action>, later: seq<Action>, scratches: Scratches)
    requires Sound(c) && Held(c, s, [a] + (rest + later), scratches) && (a.Prepare? || a.Commit?)
    ensures rest == [] && later == [] && [a] + (rest + later) == [a]
  {
    var queue := [a] + (rest + later);
    assert queue[0] == a;
  }

  lemma Quiet(c: Setting, s: Node, a: Action)
    requires Sound(c) && CanPerform(c, s, a) && (a.Finalize? || a.Forward?)
    ensures Perform(c, s, a).0 == s && Perform(c, s, a).1 == []
    ensures a.Forward? ==> Perform(c, s, a).2 == [To(a.to, Message.Request(a.command))]
  {
  }

  lemma NotFinal(c: Setting, s: Node, scratches: Scratches, k: nat)
    requires Sound(c) && Held(c, s, [], scratches) && k !in s.core.prepared
    ensures k == 0 || k > s.core.finalizeNum
  {
    assert 1 <= k <= s.core.finalizeNum ==> Final(s.core, k);
  }
}
