/**
 The leader's replica (`Replica` at the leader, src/hotstuff/mod.rs:362-669): it sends out
 what its core proposes, collects the votes, and feeds the certificates back.
 */
module HotStuffLeader {
  import opened Commands
  import opened HotStuffTree
  import opened HotStuffChain
  import opened HotStuffCore
  import opened HotStuffStableLeader
  import opened HotStuffLeaderLoop
  import opened HotStuffVotes
  import opened HotStuffRequests
  import HotStuffReplicaCore
  import CommandPool
  import Quorums

  class LeaderReplica {
    const core: HotStuffReplicaCore.ReplicaCore
    const numReplica: nat
    const numSigner: nat
    const asked: set<ReplicaId>
    var coreActions: seq<Action>
    var blockSigners: map<Digest, set<ReplicaId>>
    var quorumCertScratches: map<Digest, Tally>
    ghost var leader: Leader
    ghost var executed: seq<Digest>
    ghost var received: seq<Share>
    ghost var requests: seq<Command>

    /** Every block is to be signed by n - f replicas that are there. */
    predicate Signable() {
      1 <= numSigner == |asked| <= numReplica && forall r :: r in asked ==> r < numReplica
    }

    /** With these actions still to be performed. */
    ghost predicate Busy(queue: seq<Action>)
      reads this, core, core.pool.Object()
    {
      && core.Valid() && core.pool.Object() != this && Signable()
      && leader.core == core.Value()
      && Running(leader, queue, quorumCertScratches, blockSigners.Keys, numSigner)
      && Counted(leader, quorumCertScratches, blockSigners.Keys, received, asked) && Pooled(leader, requests)
      && (forall d :: d in blockSigners && d in quorumCertScratches ==>
           blockSigners[d] == quorumCertScratches[d].signers)
      && leader.finalized == executed + Finalized(queue)
    }

    /** Between two calls. */
    ghost predicate Valid()
      reads this, core, core.pool.Object()
    {
      Busy([]) && coreActions == []
    }

    constructor (numReplica: nat, numFaulty: nat, maxBatchSize: nat, openLoop: bool)
      requires Configured(HotStuffCore.Init(LEADER, maxBatchSize, openLoop)) && numFaulty < numReplica
      ensures Valid() && fresh(core) && fresh(core.pool.Object())
      ensures this.numReplica == numReplica && numSigner == numReplica - numFaulty && asked == FirstSigners(numSigner)
      ensures leader == Leader(HotStuffCore.Init(LEADER, maxBatchSize, openLoop), Genesis, [], [])
      ensures executed == [] && received == [] && requests == []
    {
      hide Configured, HotStuffCore.Init;
      this.numReplica, numSigner, asked := numReplica, numReplica - numFaulty, FirstSigners(numReplica - numFaulty);
      coreActions, blockSigners, quorumCertScratches := [], map[], map[];
      leader, executed := Leader(HotStuffCore.Init(LEADER, maxBatchSize, openLoop), Genesis, [], []), [];
      received, requests := [], [];
      core := new HotStuffReplicaCore.ReplicaCore(LEADER, maxBatchSize, openLoop);
      new;
      StartIsValid(this, maxBatchSize, openLoop);
    }

    /** Votes are being collected; only finalized blocks are queued, and `unsigned` lacks the leader's own vote. */
    ghost predicate Collecting(queue: seq<Action>, unsigned: set<Digest>)
      reads this, core, core.pool.Object()
    {
      && core.Valid() && core.pool.Object() != this && Signable()
      && leader.core == core.Value()
      && LeaderOk(leader) && OnlyFinalizes(queue) && TalliesOk(leader, quorumCertScratches, numSigner)
      && Counted(leader, quorumCertScratches, unsigned, received, asked) && Pooled(leader, requests)
      && blockSigners == map[]
      && leader.finalized == executed + Finalized(queue)
    }

    /**
     src/hotstuff/mod.rs:525-559. Not `ok` is a panic: no scratch, or no certificate out of
     enough shares. The block is certified, by exactly those who were asked, as soon as
     enough replicas have voted for it.
     */
    method HandleVoteGeneric(node: Digest, signer: ReplicaId, good: bool, ghost queue: seq<Action>,
        ghost unsigned: set<Digest>) returns (ok: bool, ghost more: seq<Action>)
      requires Collecting(queue, unsigned) && OwnShare(Share(node, signer, good), unsigned)
      modifies this`coreActions, this`quorumCertScratches, this`leader, this`received, core, core.pool.Object()
      ensures ok == ShareIsTaken(old(quorumCertScratches), numSigner, node, signer, good)
      ensures ok ==>
        && Busy(queue + more) && coreActions == old(coreActions) + more
        && RoundsLeft(core.Value()) + Proposals(queue + more) <= RoundsLeft(old(core.Value()))
        && OwnVotes(queue + more) == 0
        && leader.tip == old(leader).tip && leader.finalized == old(leader).finalized && node == leader.tip
        && received == old(received) + [Share(node, signer, good)]
      ensures ok && |Senders(received, node)| < numSigner ==>
        quorumCertScratches.Keys == {node} && more == [] && leader == old(leader)
      ensures ok && |Senders(received, node)| >= numSigner ==>
        quorumCertScratches == map[] && leader.core.chain.high == QuorumCert(node, Sig(asked))
    {
      hide LeaderOk, RoundsLeft, Running, Handle, OnlyFinalizes, TalliesOk, Finalized, Aggregates, Counted, Pooled,
        Senders;
      hide Proposals, OwnVotes, OwnShare;
      if node !in quorumCertScratches {
        return false, [];
      }
      TallyIsTip(leader, quorumCertScratches, numSigner, node);
      ghost var share := Share(node, signer, good);
      OneMoreShare(leader, quorumCertScratches, unsigned, received, asked, numSigner, share);
      var scratch := WithShare(quorumCertScratches[node], signer, good);
      if |scratch.shares| < numSigner {
        ok, more := true, [];
        KeepShare(node, scratch, share, queue, unsigned);
        NoOneProposes(queue);
        assert queue + [] == queue && coreActions + [] == coreActions;
      } else if !Aggregates(scratch) {
        ok, more := false, [];
      } else {
        ok := true;
        more := Certify(node, scratch, share, queue, unsigned);
      }
    }

    /** The share joins those of the other replicas. */
    method KeepShare(node: Digest, scratch: Tally, ghost share: Share, ghost queue: seq<Action>,
        ghost unsigned: set<Digest>)
      requires Collecting(queue, unsigned) && node == leader.tip && node in quorumCertScratches
      requires scratch == WithShare(quorumCertScratches[node], share.signer, share.good)
      requires |scratch.shares| < numSigner
      requires Counted(leader, quorumCertScratches[node := scratch], {}, received + [share], asked)
      modifies this`quorumCertScratches, this`received
      ensures Busy(queue) && received == old(received) + [share]
      ensures quorumCertScratches == old(quorumCertScratches)[node := scratch] && quorumCertScratches.Keys == {node}
    {
      hide LeaderOk, Running, OnlyFinalizes, TalliesOk, Finalized, Counted, Pooled;
      CountKeepsRunning(leader, queue, quorumCertScratches, numSigner, share.signer, share.good);
      TallyIsTip(leader, quorumCertScratches, numSigner, node);
      OnlyTip(leader, quorumCertScratches, numSigner);
      quorumCertScratches, received := quorumCertScratches[node := scratch], received + [share];
      assert blockSigners.Keys == {};
    }

    /** src/hotstuff/mod.rs:546-558: the last block is certified. */
    method Certify(node: Digest, scratch: Tally, ghost share: Share, ghost queue: seq<Action>,
        ghost unsigned: set<Digest>) returns (ghost more: seq<Action>)
      requires Collecting(queue, unsigned) && node == leader.tip && node in quorumCertScratches
      requires scratch.signers == asked
      requires Counted(leader, quorumCertScratches[node := scratch], {}, received + [share], asked)
      modifies this`coreActions, this`quorumCertScratches, this`leader, this`received, core, core.pool.Object()
      ensures Busy(queue + more) && coreActions == old(coreActions) + more
      ensures RoundsLeft(core.Value()) + Proposals(queue + more) <= RoundsLeft(old(core.Value()))
      ensures OwnVotes(queue + more) == 0 && received == old(received) + [share]
      ensures leader.tip == old(leader).tip && leader.finalized == old(leader).finalized
      ensures quorumCertScratches == map[] && leader.core.chain.high == QuorumCert(node, Sig(asked))
    {
      hide LeaderOk, RoundsLeft, Running, Handle, OnlyFinalizes, TalliesOk, Proposals, OwnVotes, Finalized, Counted,
        Pooled;
      TallyIsTip(leader, quorumCertScratches, numSigner, node);
      OnlyTip(leader, quorumCertScratches, numSigner);
      CertifyKeepsRunning(leader, queue, scratch.signers, numSigner);
      CertifyCounts(leader, quorumCertScratches[node := scratch], received + [share], asked);
      StimulatedPooled(leader, Certified(QuorumCert(node, Sig(scratch.signers))), requests);
      assert requests + [] == requests;
      assert blockSigners.Keys == {} && quorumCertScratches - {node} == map[];
      quorumCertScratches, received := quorumCertScratches - {node}, received + [share];
      var cert := QuorumCert(node, Sig(scratch.signers));
      leader := Stimulated(leader, Certified(cert));
      var actions := core.HandleEvent(Certified(cert));
      coreActions := coreActions + actions;
      more := actions;
    }

    /** src/hotstuff/mod.rs:566-617: the block is new, and the core may vote for it. */
    method EffectPropose(block: Proposal) returns (outputs: seq<Output>)
      requires Busy([Propose(block)]) && coreActions == []
      modifies this`coreActions, this`blockSigners, this`quorumCertScratches, this`leader, core, core.pool.Object()
      ensures Busy(coreActions)
      ensures Shows(outputs, executed, executed, old(leader).tip, leader.tip) && SentSigned(outputs, asked)
      ensures received == old(received) && Height(old(leader).tip) < Height(leader.tip)
      ensures quorumCertScratches == map[leader.tip := Tally(map[], asked)]
      ensures Closer(Distance(core.Value(), coreActions), Distance(old(core.Value()), [Propose(block)]))
    {
      hide Running, Shows, Handle, Distance, CanHandle, Stored, Finalized, Closer, Counted, Pooled;
      var signers := asked;
      OwnProposal(leader, executed, block, quorumCertScratches, blockSigners.Keys, numSigner, signers);
      CountProposal(leader, block, quorumCertScratches, blockSigners.Keys, numSigner, received, asked, requests);
      outputs := [Disseminate(block, signers)];
      var digest := DigestOf(block);
      quorumCertScratches := quorumCertScratches[digest := Tally(map[], signers)];
      assert digest !in blockSigners;
      blockSigners := blockSigners[digest := signers];
      assert blockSigners.Keys == {digest};
      assert leader.tip == old(leader).tip;
      coreActions := StoreOwn(block);
      TipIsStored(old(leader), block);
    }

    /** src/hotstuff/mod.rs:613-616 */
    method StoreOwn(block: Proposal) returns (actions: seq<Action>)
      requires core.Valid() && core.pool.Object() != this && leader.core == core.Value()
      requires CanHandle(leader.core.chain, Proposed(block))
      modifies this`leader, core, core.pool.Object()
      ensures core.Valid() && leader.core == core.Value()
      ensures leader == Stored(old(leader), block) && actions == Handle(old(leader).core, Proposed(block)).1
    {
      hide Handle;
      leader := Stored(leader, block);
      actions := core.HandleEvent(Proposed(block));
    }

    /** src/hotstuff/mod.rs:618-662: the signers are there; the leader's own vote is counted at once. */
    method EffectVote(digest: Digest, ghost rest: seq<Action>) returns (outputs: seq<Output>)
      requires Busy([Vote(digest)] + (rest + coreActions))
      modifies this`coreActions, this`blockSigners, this`quorumCertScratches, this`leader, this`received, core,
        core.pool.Object()
      ensures Busy(rest + coreActions) && executed == old(executed) && leader.tip == old(leader).tip && outputs == []
      ensures received == old(received) + (if LEADER in asked then [Share(digest, LEADER, true)] else [])
      ensures quorumCertScratches.Keys <= old(quorumCertScratches).Keys
      ensures Closer(Distance(core.Value(), rest + coreActions),
                     Distance(old(core.Value()), [Vote(digest)] + (rest + old(coreActions))))
    {
      hide Handle, LeaderOk, OnlyFinalizes, TalliesOk, RoundsLeft, Finalized, Running, Distance, Closer, Counted,
        Pooled;
      hide Proposals, OwnVotes, ShareIsTaken, Senders;
      VoteComesAlone(leader, digest, rest + coreActions, quorumCertScratches, blockSigners.Keys, numSigner);
      NoOneProposes(rest + coreActions);
      VoteFinalizesNothing(digest, rest + coreActions);
      RunningTallies(leader, [Vote(digest)] + (rest + coreActions), quorumCertScratches, blockSigners.Keys, numSigner);
      var signers := blockSigners[digest];
      blockSigners := blockSigners - {digest};
      assert blockSigners == map[] && blockSigners.Keys == {};
      outputs := [];
      VoteIsCloser(core.Value(), core.Value(), digest, rest + coreActions, rest + coreActions);
      AskedToSign(leader, quorumCertScratches, {digest}, received, asked, digest);
      if LEADER !in signers {
        SkipKeepsRunning(leader, rest + coreActions, quorumCertScratches, numSigner);
        SkipCounts(leader, quorumCertScratches, {digest}, received, asked);
        return;
      }
      ghost var queued := rest + coreActions;
      TallyIsTip(leader, quorumCertScratches, numSigner, digest);
      OwnShareIsTaken(quorumCertScratches, numSigner, digest);
      var ok; ghost var more;
      ok, more := HandleVoteGeneric(digest, LEADER, true, queued, {digest});
      assert queued + more == rest + coreActions;
      VoteIsCloser(old(core.Value()), core.Value(), digest, queued, queued + more);
    }

    /** src/hotstuff/mod.rs:663-665 */
    method EffectFinalize(digest: Digest, ghost queue: seq<Action>) returns (outputs: seq<Output>)
      requires Busy([Finalize(digest)] + queue)
      modifies this`executed
      ensures Busy(queue) && executed == old(executed) + [digest]
      ensures outputs == [Execute(CommandsOf(digest))]
      ensures Closer(Distance(core.Value(), queue), Distance(core.Value(), [Finalize(digest)] + queue))
    {
      hide Running, Distance, Closer, Counted, Pooled;
      FinalizeKeepsRunning(leader, digest, queue, quorumCertScratches, blockSigners.Keys, numSigner);
      FinalizedConcat([Finalize(digest)], queue);
      assert [Finalize(digest)][..0] == [];
      executed := executed + [digest];
      outputs := [Execute(CommandsOf(digest))];
    }

    /** One action of the queue; `rest` is what is left of the batch. */
    method EffectAction(action: Action, ghost rest: seq<Action>) returns (outputs: seq<Output>)
      requires Busy([action] + (rest + coreActions))
      modifies this`coreActions, this`blockSigners, this`quorumCertScratches, this`leader, this`executed, this`received,
        core, core.pool.Object()
      ensures Busy(rest + coreActions)
      ensures Shows(outputs, old(executed), executed, old(leader).tip, leader.tip)
      ensures SentSigned(outputs, asked)
      ensures Onward(old(received), received, old(leader).tip, leader.tip, old(quorumCertScratches),
        quorumCertScratches)
      ensures Closer(Distance(core.Value(), rest + coreActions),
        Distance(old(core.Value()), [action] + (rest + old(coreActions))))
    {
      hide Running, Shows, Distance, Closer, Finalized, Counted, Pooled;
      match action
      case Propose(block) =>
        ProposalIsAlone(leader, block, rest, coreActions, quorumCertScratches, blockSigners.Keys, numSigner);
        outputs := EffectPropose(block);
        assert rest + coreActions == coreActions;
      case Vote(digest) =>
        outputs := EffectVote(digest, rest);
        ShowsNothing(executed, leader.tip);
      case Finalize(digest) =>
        ShowsExecution(executed, digest, leader.tip);
        outputs := EffectFinalize(digest, rest + coreActions);
    }

    /** The inner loop: the actions taken from the queue, while further ones are queued behind. */
    method EffectBatch(batch: seq<Action>) returns (outputs: seq<Output>)
      requires Busy(batch) && coreActions == []
      modifies this`coreActions, this`blockSigners, this`quorumCertScratches, this`leader, this`executed, this`received,
        core, core.pool.Object()
      ensures Busy(coreActions)
      ensures Shows(outputs, old(executed), executed, old(leader).tip, leader.tip)
      ensures SentSigned(outputs, asked)
      ensures Onward(old(received), received, old(leader).tip, leader.tip, old(quorumCertScratches),
        quorumCertScratches)
      ensures batch != [] ==> Closer(Distance(core.Value(), coreActions), Distance(old(core.Value()), batch))
    {
      hide Running, Shows, Distance, Finalized, Counted, Pooled, Onward;
      outputs := [];
      ShowsNothing(executed, leader.tip);
      OnwardStays(received, leader.tip, quorumCertScratches);
      assert batch[0..] + coreActions == batch;
      for i := 0 to |batch|
        invariant Busy(batch[i..] + coreActions)
        invariant Shows(outputs, old(executed), executed, old(leader).tip, leader.tip)
        invariant SentSigned(outputs, asked)
        invariant Onward(old(received), received, old(leader).tip, leader.tip, old(quorumCertScratches),
                         quorumCertScratches)
        invariant i == 0 ==> Distance(core.Value(), batch[i..] + coreActions) == Distance(old(core.Value()), batch)
        invariant i > 0 ==> Closer(Distance(core.Value(), batch[i..] + coreActions), Distance(old(core.Value()), batch))
      {
        assert batch[i..] + coreActions == [batch[i]] + (batch[i + 1..] + coreActions);
        ghost var e, t, r, s := executed, leader.tip, received, quorumCertScratches;
        var more := EffectAction(batch[i], batch[i + 1..]);
        ShowsOn(outputs, more, old(executed), e, executed, old(leader).tip, t, leader.tip);
        OnwardOn(old(received), r, received, old(leader).tip, t, leader.tip, old(quorumCertScratches), s,
                 quorumCertScratches);
        outputs := outputs + more;
      }
      assert batch[|batch|..] + coreActions == coreActions;
    }

    /** src/hotstuff/mod.rs:561-669: the loop ends, even when the leader's own vote certifies its blocks. */
    method EffectActions() returns (outputs: seq<Output>)
      requires Busy(coreActions)
      modifies this`coreActions, this`blockSigners, this`quorumCertScratches, this`leader, this`executed, this`received,
        core, core.pool.Object()
      ensures Valid()
      ensures Shows(outputs, old(executed), executed, old(leader).tip, leader.tip)
      ensures SentSigned(outputs, asked)
      ensures Onward(old(received), received, old(leader).tip, leader.tip, old(quorumCertScratches),
        quorumCertScratches)
      ensures old(coreActions) == [] ==>
        outputs == [] && leader == old(leader) && received == old(received) && executed == old(executed)
        && quorumCertScratches == old(quorumCertScratches)
    {
      hide Running, Shows, Distance, Finalized, Counted, Pooled, Onward;
      outputs := [];
      ShowsNothing(executed, leader.tip);
      OnwardStays(received, leader.tip, quorumCertScratches);
      while coreActions != []
        invariant Busy(coreActions)
        invariant old(coreActions) == [] ==>
            coreActions == [] && outputs == [] && leader == old(leader) && received == old(received)
            && executed == old(executed) && quorumCertScratches == old(quorumCertScratches)
        invariant Shows(outputs, old(executed), executed, old(leader).tip, leader.tip)
        invariant SentSigned(outputs, asked)
        invariant Onward(old(received), received, old(leader).tip, leader.tip, old(quorumCertScratches),
                         quorumCertScratches)
        decreases Distance(core.Value(), coreActions).0, Distance(core.Value(), coreActions).1,
          Distance(core.Value(), coreActions).2
      {
        ghost var e, t, r, s := executed, leader.tip, received, quorumCertScratches;
        var batch := coreActions;
        coreActions := [];
        var more := EffectBatch(batch);
        ShowsOn(outputs, more, old(executed), e, executed, old(leader).tip, t, leader.tip);
        OnwardOn(old(received), r, received, old(leader).tip, t, leader.tip, old(quorumCertScratches), s,
                 quorumCertScratches);
        outputs := outputs + more;
      }
    }

    /** A client's request. */
    method ReceiveRequest(command: Command) returns (outputs: seq<Output>)
      requires Valid()
      modifies this, core, core.pool.Object()
      ensures Valid() && requests == old(requests) + [command]
      ensures Shows(outputs, old(executed), executed, old(leader).tip, leader.tip)
      ensures SentSigned(outputs, asked)
      ensures Onward(old(received), received, old(leader).tip, leader.tip, old(quorumCertScratches),
        quorumCertScratches)
    {
      hide Running, Shows, Finalized, Counted, Pooled, Onward, SentSigned;
      TakeRequest(command);
      outputs := EffectActions();
    }

    /** The core takes the request in between two calls. */
    method TakeRequest(command: Command)
      requires Valid()
      modifies this`coreActions, this`leader, this`requests, core, core.pool.Object()
      ensures Busy(coreActions) && requests == old(requests) + [command] && leader.tip == old(leader).tip
    {
      hide Running, Handle, Finalized, Counted, Pooled, LeaderOk, Configured;
      NothingUnsigned(leader, quorumCertScratches, blockSigners.Keys, numSigner);
      RunningIsOk(leader, quorumCertScratches, numSigner);
      RequestKeepsRunning(leader, command, quorumCertScratches, numSigner);
      RequestCounts(leader, quorumCertScratches, Request(command), received, asked);
      StimulatedPooled(leader, Request(command), requests);
      requests := requests + [command];
      FinalizedNone();
      leader := Stimulated(leader, Request(command));
      coreActions := core.HandleEvent(Request(command));
    }

    /**
     src/hotstuff/mod.rs:510-523: any vote, of anyone, for anything; not `ok` is a panic. As
     long as votes are missing it only joins the tally; with the last one the block is certified.
     */
    method ReceiveVote(node: Digest, signer: ReplicaId, good: bool) returns (ok: bool, outputs: seq<Output>)
      requires Valid()
      modifies this, core, core.pool.Object()
      ensures ok == ShareIsTaken(old(quorumCertScratches), numSigner, node, signer, good)
      ensures ok ==> Valid() && Shows(outputs, old(executed), executed, old(leader).tip, leader.tip)
      ensures ok ==> SentSigned(outputs, asked) && requests == old(requests)
      ensures ok ==>
        var counted := old(received) + [Share(node, signer, good)];
        && Onward(counted, received, old(leader).tip, leader.tip, old(quorumCertScratches), quorumCertScratches)
        && (|Senders(counted, node)| < numSigner ==>
             received == counted && leader == old(leader) && node in quorumCertScratches && outputs == [])
        && (|Senders(counted, node)| >= numSigner ==> node !in quorumCertScratches)
    {
      hide LeaderOk, Shows, Handle, Finalized, TalliesOk, Counted, Pooled, Senders, Running, ShareIsTaken, Onward;
      NothingUnsigned(leader, quorumCertScratches, blockSigners.Keys, numSigner);
      RunningIsOk(leader, quorumCertScratches, numSigner);
      outputs := [];
      ok := TakeVote(node, signer, good);
      if ok {
        ghost var l, s, r := leader, quorumCertScratches, received;
        outputs := EffectActions();
        OnwardFrom(r, received, l.tip, leader.tip, s, old(quorumCertScratches), quorumCertScratches);
      }
    }

    /** The vote is taken in between two calls. */
    method TakeVote(node: Digest, signer: ReplicaId, good: bool) returns (ok: bool)
      requires Collecting([], {}) && coreActions == []
      modifies this`coreActions, this`quorumCertScratches, this`leader, this`received, core, core.pool.Object()
      ensures ok == ShareIsTaken(old(quorumCertScratches), numSigner, node, signer, good)
      ensures ok ==>
        && Busy(coreActions) && leader.tip == old(leader).tip && node == leader.tip
        && received == old(received) + [Share(node, signer, good)]
        && quorumCertScratches.Keys <= {node} <= old(quorumCertScratches).Keys
        && (|Senders(received, node)| < numSigner ==>
             node in quorumCertScratches && coreActions == [] && leader == old(leader))
        && (|Senders(received, node)| >= numSigner ==> node !in quorumCertScratches)
    {
      hide LeaderOk, Handle, Finalized, TalliesOk, Aggregates, Counted, Pooled, Senders, Running, OnlyFinalizes,
        RoundsLeft;
      ghost var more;
      ok, more := HandleVoteGeneric(node, signer, good, [], {});
      assert [] + more == more && [] + coreActions == coreActions;
    }
  }

  // ---- when a vote is taken ----

  /** There is a scratch for a block exactly while it is the last one and not yet certified. */
  lemma ScratchIff(r: LeaderReplica, node: Digest)
    requires r.Valid()
    ensures node in r.quorumCertScratches <==> node == r.leader.tip && r.leader.core.chain.high.node != r.leader.tip
  {
    assert node in r.quorumCertScratches <==> node in r.quorumCertScratches.Keys;
  }

  /**
   The `unwrap` at src/hotstuff/mod.rs:529 fails for a vote on any other block, such as one
   nobody proposed: a single Byzantine replica can send it at any time.
   */
  lemma StrayVotePanics(r: LeaderReplica, signer: ReplicaId, good: bool)
    requires r.Valid()
    ensures var stray := Hash(Block(r.leader.tip, [], r.leader.tip, 0));
      !ShareIsTaken(r.quorumCertScratches, r.numSigner, stray, signer, good)
  {
    ScratchIff(r, Hash(Block(r.leader.tip, [], r.leader.tip, 0)));
  }

  /** A second delivery of the vote that certified a block is such a vote. */
  lemma LateVotePanics(r: LeaderReplica, signer: ReplicaId, good: bool)
    requires r.Valid() && r.leader.core.chain.high.node == r.leader.tip
    ensures !ShareIsTaken(r.quorumCertScratches, r.numSigner, r.leader.tip, signer, good)
  {
    ScratchIff(r, r.leader.tip);
  }

  /** So does the share that completes the count, when it is bad or its sender was not asked. */
  lemma WrongSharePanics(r: LeaderReplica, node: Digest, signer: ReplicaId, good: bool)
    requires r.Valid() && node in r.quorumCertScratches && signer !in r.quorumCertScratches[node].shares
    requires |r.quorumCertScratches[node].shares| == r.numSigner - 1
    requires !good || signer !in r.quorumCertScratches[node].signers
    ensures !ShareIsTaken(r.quorumCertScratches, r.numSigner, node, signer, good)
  {
    hide Aggregates;
    RunningTallies(r.leader, [], r.quorumCertScratches, r.blockSigners.Keys, r.numSigner);
    TallyIsTip(r.leader, r.quorumCertScratches, r.numSigner, node);
    WrongShareSpoils(r.quorumCertScratches[node], signer, good);
  }

  lemma WrongShareSpoils(t: Tally, signer: ReplicaId, good: bool)
    requires signer !in t.shares && |t.shares| + 1 == |t.signers| && (!good || signer !in t.signers)
    ensures |WithShare(t, signer, good).shares| == |t.signers| && !Aggregates(WithShare(t, signer, good))
  {
    var t' := WithShare(t, signer, good);
    assert t'.shares.Keys == t.shares.Keys + {signer};
    if Aggregates(t') {
      SameSize(t'.shares.Keys, t.signers);
    }
  }

  lemma SameSize<T>(whole: set<T>, part: set<T>)
    requires part <= whole && |part| == |whole|
    ensures part == whole
  {
    Quorums.SubsetCount(whole - part, whole);
    assert |whole - part| == |whole| - |part|;
  }

  /** The replicas with the lowest indices, as long as each has commitments at hand. */
  function FirstSigners(quorum: nat): (signers: set<ReplicaId>)
    ensures |signers| == quorum && forall r: ReplicaId :: r in signers <==> r < quorum
  {
    Quorums.Ids(quorum)
  }

  lemma StartRuns(l: Leader, quorum: nat, maxBatchSize: nat, openLoop: bool)
    requires l == Leader(HotStuffCore.Init(LEADER, maxBatchSize, openLoop), Genesis, [], []) && Configured(l.core)
    ensures Running(l, [], map[], {}, quorum) && Finalized([]) == []
  {
  }

  lemma StartIsValid(r: LeaderReplica, maxBatchSize: nat, openLoop: bool)
    requires r.core.Valid() && r.core.pool.Object() != r && r.Signable() && r.leader.core == r.core.Value()
    requires r.leader == Leader(HotStuffCore.Init(LEADER, maxBatchSize, openLoop), Genesis, [], [])
    requires r.coreActions == [] && r.blockSigners == map[] && r.quorumCertScratches == map[]
    requires r.executed == [] && r.received == [] && r.requests == []
    ensures r.Valid()
  {
    hide Running, Counted, Pooled, HotStuffCore.Init, Finalized;
    assert r.blockSigners.Keys == {};
    StartRuns(r.leader, r.numSigner, maxBatchSize, openLoop);
    StartCounts(r.leader, r.asked, maxBatchSize, openLoop);
    StartPooled(maxBatchSize, openLoop);
  }

  lemma StartCounts(l: Leader, asked: set<ReplicaId>, maxBatchSize: nat, openLoop: bool)
    requires l == Leader(HotStuffCore.Init(LEADER, maxBatchSize, openLoop), Genesis, [], [])
    ensures Counted(l, map[], {}, [], asked)
  {
  }

  lemma NoOneProposes(queue: seq<Action>)
    requires OnlyFinalizes(queue)
    ensures Proposals(queue) == 0 && OwnVotes(queue) == 0
  {
  }

  /** All that proposing a block comes to. */
  lemma OwnProposal(l: Leader, executed: seq<Digest>, b: Proposal, tallies: map<Digest, Tally>, unsigned: set<Digest>,
                    quorum: nat, signers: set<ReplicaId>)
    requires Running(l, [Propose(b)], tallies, unsigned, quorum) && |signers| == quorum >= 1
    requires l.finalized == executed + Finalized([Propose(b)])
    ensures tallies == map[] && unsigned == {}
    ensures Configured(l.core) && CanHandle(l.core.chain, Proposed(b))
    ensures var l' := Stored(l, b); var queue' := Handle(l.core, Proposed(b)).1;
      && Running(l', queue', map[DigestOf(b) := Tally(map[], signers)], {DigestOf(b)}, quorum)
      && Configured(l'.core) && Closer(Distance(l'.core, queue'), Distance(l.core, [Propose(b)]))
      && l'.finalized == executed + Finalized(queue')
      && Shows([Disseminate(b, signers)], executed, executed, l.tip, l'.tip)
  {
    hide Running, Shows, Handle, Line, Proposing, Distance, CanHandle, Closer, Finalized, VotePhase;
    assert [Propose(b)] + [] == [Propose(b)];
    ProposeKeepsRunning(l, b, [], tallies, unsigned, quorum, signers);
    ProposingFacts(l, b);
    ProposeStep(l, b);
    PhasesAreConfigured(Stored(l, b), Handle(l.core, Proposed(b)).1);
    ShowsBlock(executed, b, signers, l.tip);
    ProposalFinalizesNothing(b);
    assert executed + [] == executed;
  }

  lemma ProposalFinalizesNothing(b: Proposal)
    ensures Finalized([Propose(b)]) == []
  {
  }

  lemma VoteFinalizesNothing(digest: Digest, rest: seq<Action>)
    ensures Finalized([Vote(digest)] + rest) == Finalized(rest)
  {
    FinalizedConcat([Vote(digest)], rest);
    assert [Vote(digest)][..0] == [];
  }

  lemma CountProposal(l: Leader, b: Proposal, tallies: map<Digest, Tally>, unsigned: set<Digest>, quorum: nat,
      received: seq<Share>, asked: set<ReplicaId>, requests: seq<Command>)
    requires Running(l, [Propose(b)], tallies, unsigned, quorum) && |asked| == quorum >= 1
    requires Counted(l, tallies, unsigned, received, asked) && Pooled(l, requests)
    ensures CanHandle(l.core.chain, Proposed(b)) && Configured(l.core)
    ensures Counted(Stored(l, b), map[DigestOf(b) := Tally(map[], asked)], {DigestOf(b)}, received, asked)
    ensures Height(DigestOf(b)) > Height(l.tip) && Signed(b.justify, asked) && Pooled(Stored(l, b), requests)
  {
    hide Running, Proposing, Handle, CanHandle, Counted, Pooled, Configured;
    assert [Propose(b)] + [] == [Propose(b)];
    ProposeKeepsRunning(l, b, [], tallies, unsigned, quorum, asked);
    ProposingFacts(l, b);
    ProposeCounts(l, b, received, asked);
    StoredPooled(l, b, requests);
  }

  lemma TipIsStored(l: Leader, b: Proposal)
    requires Configured(l.core) && CanHandle(l.core.chain, Proposed(b))
    ensures Stored(l, b).tip == DigestOf(b)
  {
    hide Handle, CanHandle;
  }

  lemma AskedToSign(l: Leader, tallies: map<Digest, Tally>, unsigned: set<Digest>, received: seq<Share>,
      asked: set<ReplicaId>, d: Digest)
    requires Counted(l, tallies, unsigned, received, asked) && d in tallies
    ensures tallies[d].signers == asked
  {
  }

  lemma TallyIsTip(l: Leader, tallies: map<Digest, Tally>, quorum: nat, d: Digest)
    requires TalliesOk(l, tallies, quorum) && d in tallies
    ensures d == l.tip && l.core.chain.high.node != l.tip && |tallies[d].signers| == quorum
  {
  }

  lemma OnlyTip(l: Leader, tallies: map<Digest, Tally>, quorum: nat)
    requires TalliesOk(l, tallies, quorum)
    ensures tallies.Keys <= {l.tip}
  {
  }

  lemma VoteIsCloser(c: Core, c': Core, d: Digest, rest: seq<Action>, queue: seq<Action>)
    requires Configured(c) && Configured(c') && OnlyFinalizes(rest)
    requires RoundsLeft(c') + Proposals(queue) <= RoundsLeft(c) && OwnVotes(queue) == 0
    ensures Closer(Distance(c', queue), Distance(c, [Vote(d)] + rest))
  {
  }

  lemma RunningTallies(l: Leader, queue: seq<Action>, tallies: map<Digest, Tally>, unsigned: set<Digest>, quorum: nat)
    requires Running(l, queue, tallies, unsigned, quorum)
    ensures TalliesOk(l, tallies, quorum)
  {
  }

  lemma ProposalIsAlone(l: Leader, b: Proposal, rest: seq<Action>, later: seq<Action>, tallies: map<Digest, Tally>,
      unsigned: set<Digest>, quorum: nat)
    requires Running(l, [Propose(b)] + (rest + later), tallies, unsigned, quorum)
    ensures rest == [] && later == [] && [Propose(b)] + (rest + later) == [Propose(b)]
  {
  }

  lemma NothingUnsigned(l: Leader, tallies: map<Digest, Tally>, unsigned: set<Digest>, quorum: nat)
    requires Running(l, [], tallies, unsigned, quorum)
    ensures unsigned == {}
  {
  }

  /**
   Quiescence and conservation: when no votes are being collected the pool is empty, and
   every command ever taken from it has been executed, once and in order.
   */
  lemma QuietMeansDone(r: LeaderReplica)
    requires r.Valid() && r.quorumCertScratches == map[]
    ensures CommandPool.Pending(r.leader.core.pool) == []
    ensures r.executed == r.leader.finalized && NoRepeats(r.executed) && r.leader.taken == Flatten(r.executed)
  {
    hide Running;
    QuietRunning(r.leader, r.blockSigners.Keys, r.numSigner);
    QuietLeader(r.leader);
  }

  /**
   Either the leader is quiet, or some replica that was asked to sign the last block has not
   voted for it: nothing but a missing vote holds the leader up.
   */
  lemma QuietOrWaiting(r: LeaderReplica)
    requires r.Valid()
    ensures
      || (r.quorumCertScratches == map[] && CommandPool.Pending(r.leader.core.pool) == []
          && r.executed == r.leader.finalized && r.leader.taken == Flatten(r.executed))
      || exists v: ReplicaId :: v in r.asked && v !in Senders(r.received, r.leader.tip)
  {
    hide Running, HoldsShares, Senders;
    if r.quorumCertScratches == map[] {
      QuietMeansDone(r);
    } else {
      var d :| d in r.quorumCertScratches;
      RunningTallies(r.leader, [], r.quorumCertScratches, r.blockSigners.Keys, r.numSigner);
      TallyIsTip(r.leader, r.quorumCertScratches, r.numSigner, d);
      var v := SomeoneIsMissing(r.received, d, r.quorumCertScratches[d], r.numSigner);
    }
  }

  /** When the votes for the last block are good ones of those who were asked, a further such vote is taken. */
  lemma GoodVoteIsTaken(r: LeaderReplica, signer: ReplicaId)
    requires r.Valid() && r.quorumCertScratches != map[] && signer in r.asked
    requires forall s :: s in r.received && s.node == r.leader.tip ==> s.good && s.signer in r.asked
    ensures ShareIsTaken(r.quorumCertScratches, r.numSigner, r.leader.tip, signer, true)
  {
    hide Running;
    var d :| d in r.quorumCertScratches;
    RunningTallies(r.leader, [], r.quorumCertScratches, r.blockSigners.Keys, r.numSigner);
    TallyIsTip(r.leader, r.quorumCertScratches, r.numSigner, d);
    GoodSharesAggregate(r.received, d, r.quorumCertScratches[d], r.numSigner, signer);
  }

  lemma GoodSharesAggregate(received: seq<Share>, d: Digest, t: Tally, quorum: nat, signer: ReplicaId)
    requires HoldsShares(received, d, t.shares) && TallyOk(t, quorum) && signer in t.signers
    requires forall s :: s in received && s.node == d ==> s.good && s.signer in t.signers
    ensures var t' := WithShare(t, signer, true); |t'.shares| < quorum || Aggregates(t')
  {
    var t' := WithShare(t, signer, true);
    forall v | v in t'.shares ensures t'.shares[v] && v in t'.signers {
      if v != signer {
        var i: nat :| IsLast(received, d, v, i) && received[i].good == t.shares[v];
        assert received[i] in received;
      }
    }
    if |t'.shares| >= quorum {
      Quorums.SubsetCount(t'.shares.Keys, t'.signers);
      SameSize(t'.signers, t'.shares.Keys);
    }
  }

  /**
   With a close-loop pool, a leader that collects no votes has executed, for every request it
   ever received, one of its client that is at least as new.
   */
  lemma QuietHasServed(r: LeaderReplica, x: Command)
    requires r.Valid() && r.quorumCertScratches == map[] && r.leader.core.pool.CloseLoop? && x in r.requests
    ensures exists y :: Covers(y, x) && y in Flatten(r.executed)
  {
    hide Running, Counted, Pooled;
    QuietMeansDone(r);
    QuietRunning(r.leader, r.blockSigners.Keys, r.numSigner);
    QuietLeaf(r.leader);
    QuietServes(r.leader, r.requests, x);
  }

  lemma QuietLeaf(l: Leader)
    requires LeaderOk(l) && l.core.chain.high.node == l.tip
    ensures l.core.chain.high.node == l.core.chain.leaf
  {
  }

  lemma QuietRunning(l: Leader, unsigned: set<Digest>, quorum: nat)
    requires Running(l, [], map[], unsigned, quorum)
    ensures LeaderOk(l) && l.core.chain.high.node == l.tip
  {
  }
}
