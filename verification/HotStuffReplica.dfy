/**
 A HotStuff backup around its core (`Replica`, src/hotstuff/mod.rs:362-669): it orders
 blocks before the core sees them, and acts on what the core asks for.
 */
module HotStuffReplica {
  import opened Commands
  import opened HotStuffTree
  import opened HotStuffChain
  import opened HotStuffCore
  import opened HotStuffReordering
  import opened HotStuffLeaderLoop
  import opened HotStuffStableLeader
  import opened HotStuffBackups
  import HotStuffReplicaCore

  /** What is to be done with the core's actions: every vote is for a stored block whose signers are known, once. */
  ghost predicate ActionsOk(queue: seq<Action>, known: set<Digest>, signed: set<Digest>) {
    && NoRepeats(VotedIn(queue))
    && (forall d :: d in VotedIn(queue) ==> d in known && d in signed)
    && (forall a :: a in queue ==> !a.Propose?)
  }

  /** A backup's answer to one action. */
  function EffectOf(id: ReplicaId, a: Action, signers: map<Digest, set<ReplicaId>>): seq<Output> {
    match a
    case Vote(d) => if d in signers && id in signers[d] then [SendVote(LEADER, d)] else []
    case Finalize(d) => [Execute(CommandsOf(d))]
    case Propose(_) => []
  }

  function Effects(id: ReplicaId, queue: seq<Action>, signers: map<Digest, set<ReplicaId>>): seq<Output> {
    if queue == [] then [] else EffectOf(id, queue[0], signers) + Effects(id, queue[1..], signers)
  }

  /** The blocks that votes were sent for, all to the leader. */
  function VotesSent(outputs: seq<Output>): seq<Digest> {
    if outputs == [] then []
    else
      (if outputs[0].SendVote? && outputs[0].to == LEADER then [outputs[0].node] else []) + VotesSent(outputs[1..])
  }

  /** Those of the blocks that this replica is asked to sign. */
  function Asked(blocks: seq<Digest>, id: ReplicaId, signers: map<Digest, set<ReplicaId>>): seq<Digest> {
    if blocks == [] then []
    else (if blocks[0] in signers && id in signers[blocks[0]] then [blocks[0]] else []) + Asked(blocks[1..], id,
      signers)
  }

  lemma VotesOf(a: Action, rest: seq<Action>)
    ensures VotedIn([a] + rest) == (if a.Vote? then [a.node] else []) + VotedIn(rest)
    ensures Finalized([a] + rest) == (if a.Finalize? then [a.node] else []) + Finalized(rest)
  {
    VotedInConcat([a], rest);
    FinalizedConcat([a], rest);
    assert [a][..0] == [];
  }

  /**
   What goes out is an execution for each finalized block and a vote for each block to be
   signed, in order, and no more.
   */
  lemma {:induction false} EffectsAre(id: ReplicaId, queue: seq<Action>, signers: map<Digest, set<ReplicaId>>)
    ensures Executions(Effects(id, queue, signers)) == BatchesOn(Finalized(queue))
    ensures VotesSent(Effects(id, queue, signers)) == Asked(VotedIn(queue), id, signers)
    ensures var out := Effects(id, queue, signers); |out| == |Executions(out)| + |VotesSent(out)|
  {
    hide Executions, BatchesOn, VotesSent, Asked, EffectOf, Finalized, VotedIn;
    if queue == [] {
      NothingOut(id, signers);
    } else {
      var a, rest := queue[0], queue[1..];
      var one, more := EffectOf(id, a, signers), Effects(id, rest, signers);
      var votes, final := if a.Vote? then [a.node] else [], if a.Finalize? then [a.node] else [];
      EffectsAre(id, rest, signers);
      assert queue == [a] + rest;
      VotesOf(a, rest);
      ExecutionsConcat(one, more);
      BatchesConcat(final, Finalized(rest));
      AskedConcat(votes, VotedIn(rest), id, signers);
      OneEffect(id, a, signers, more);
    }
  }

  lemma NothingOut(id: ReplicaId, signers: map<Digest, set<ReplicaId>>)
    ensures Executions([]) == BatchesOn(Finalized([])) == [] && VotesSent([]) == Asked(VotedIn([]), id, signers) == []
  {
  }

  lemma AskedConcat(a: seq<Digest>, b: seq<Digest>, id: ReplicaId, signers: map<Digest, set<ReplicaId>>)
    requires |a| <= 1
    ensures Asked(a + b, id, signers) == Asked(a, id, signers) + Asked(b, id, signers)
  {
    if a == [] {
      assert a + b == b;
    } else {
      assert (a + b)[1..] == b;
    }
  }

  lemma OneEffect(id: ReplicaId, a: Action, signers: map<Digest, set<ReplicaId>>, more: seq<Output>)
    ensures var one := EffectOf(id, a, signers);
      && Executions(one) == BatchesOn(if a.Finalize? then [a.node] else [])
      && VotesSent(one + more) == Asked(if a.Vote? then [a.node] else [], id, signers) + VotesSent(more)
      && |one| == |Executions(one)| + |Asked(if a.Vote? then [a.node] else [], id, signers)|
  {
    var one := EffectOf(id, a, signers);
    if one != [] {
      assert one[..0] == [] && (one + more)[1..] == more;
    } else {
      assert one + more == more;
    }
    match a
    case Vote(d) => assert [d][1..] == [];
    case Finalize(d) => assert [d][..0] == [];
    case Propose(_) =>
  }

  /** A replica that is not the leader. */
  class Replica {
    const core: HotStuffReplicaCore.ReplicaCore
    var coreActions: seq<Action>
    var reorderingBlocks: map<Digest, seq<Proposal>>
    var blockSigners: map<Digest, set<ReplicaId>>
    ghost const start: Core
    ghost var arrived: set<Digest>
    ghost var place: map<Digest, Option<Digest>>
    ghost var events: seq<Event>
    ghost var emitted: seq<Action>
    ghost var outbox: seq<Output>

    ghost function Value(): Core
      requires core.Stored()
      reads this, core, core.pool.Object()
    {
      core.Value()
    }

    /** Signers are kept for exactly the blocks that wait. */
    ghost predicate SignersKept()
      reads this, core
    {
      forall d :: d in blockSigners && d !in core.nodeIndex <==> d in place
    }

    /** Blocks are in causal order; `pending` are still to be looked at. */
    ghost predicate Draining(pending: seq<Proposal>)
      reads this, core, core.pool.Object()
    {
      && core.Valid() && core.id != LEADER
      && core.pool.Object() != this
      && Closed(core.nodeIndex.Keys)
      && BufferOk(core.nodeIndex.Keys, arrived, Buffer(reorderingBlocks, pending), place)
      && SignersKept()
      && ActionsOk(coreActions, core.nodeIndex.Keys, blockSigners.Keys)
    }

    /** No block is left to look at: what is stored is what has its whole past here. */
    ghost predicate Ordered()
      reads this, core, core.pool.Object()
    {
      Draining([]) && Causal(core.nodeIndex.Keys, arrived)
    }

    /** The ghost fields tell how the core got where it is. */
    ghost predicate Recorded()
      requires core.Stored()
      reads this, core, core.pool.Object()
    {
      && start == HotStuffCore.Init(start.id, start.maxBatchSize, start.pool.OpenLoop?) && start.id == core.id
      && HandleAll(start, events) == Some((Value(), emitted))
      && Executions(outbox) == BatchesOn(Finalized(emitted))
    }

    /** Between two calls. */
    ghost predicate Valid()
      reads this, core, core.pool.Object()
    {
      Ordered() && coreActions == [] && Recorded()
    }

    constructor (id: ReplicaId, maxBatchSize: nat, openLoop: bool)
      requires Configured(HotStuffCore.Init(id, maxBatchSize, openLoop)) && id != LEADER
      ensures Valid() && fresh(core) && fresh(core.pool.Object())
      ensures Value() == start == HotStuffCore.Init(id, maxBatchSize, openLoop) && arrived == {} && events == []
      ensures outbox == []
    {
      core := new HotStuffReplicaCore.ReplicaCore(id, maxBatchSize, openLoop);
      coreActions, reorderingBlocks, blockSigners, arrived, place := [], map[], map[], {}, map[];
      start, events, emitted, outbox := HotStuffCore.Init(id, maxBatchSize, openLoop), [], [], [];
      new;
      NothingBuffered();
    }

    /** What the checks at the head of the `Generic` arm let through (src/hotstuff/mod.rs:460-479). */
    ghost predicate Admissible(digest: Digest, block: Proposal, verified: bool)
      reads this, core
    {
      digest !in core.nodeIndex && DigestOf(block) == digest && (block.justify.node in core.quorumCertIndex || verified)
    }

    /** Who is asked to sign, after a block arrived. */
    ghost function SignersAfter(digest: Digest, signers: set<ReplicaId>, block: Proposal, verified: bool):
      map<Digest, set<ReplicaId>>
      reads this, core
    {
      if Admissible(digest, block, verified) then blockSigners[digest := signers] else blockSigners
    }

    /**
     src/hotstuff/mod.rs:459-509. `verified` is the outcome of checking the block's
     certificate. Not `ok` is the panic of line 484: a block that is still buffered is
     delivered again.
     */
    method ReceiveGeneric(digest: Digest, signers: set<ReplicaId>, block: Proposal, verified: bool)
      returns (ok: bool, ghost delivered: seq<Event>)
      requires Ordered() && coreActions == []
      modifies this`coreActions, this`reorderingBlocks, this`blockSigners, this`arrived, this`place
      modifies core, core.pool.Object()
      ensures ok <==> !(old(Admissible(digest, block, verified)) && digest in old(arrived))
      ensures ok ==>
        && Ordered()
        && arrived == (if old(Admissible(digest, block, verified)) then old(arrived) + {digest} else old(arrived))
        && blockSigners == old(SignersAfter(digest, signers, block, verified))
        && HandleAll(old(Value()), delivered) == Some((Value(), coreActions))
        && forall i :: 0 <= i < |delivered| ==> delivered[i].Received?
    {
      hide Closed, BufferOk, Causal, HandleAll, Handle, ActionsOk;
      delivered, ok := [], true;
      HandleNone(Value());
      if digest in core.nodeIndex || DigestOf(block) != digest {
        return;
      }
      if block.justify.node !in core.quorumCertIndex && !verified {
        return;
      }
      BufferedIff(this, digest);
      if digest in blockSigners {
        return false, [];
      }
      delivered := TakeIn(digest, signers, block);
    }

    /** src/hotstuff/mod.rs:481-508: a block that is new here and in order. */
    method TakeIn(digest: Digest, signers: set<ReplicaId>, block: Proposal) returns (ghost delivered: seq<Event>)
      requires Ordered() && coreActions == []
      requires digest !in core.nodeIndex && DigestOf(block) == digest && digest !in blockSigners
      modifies this`coreActions, this`reorderingBlocks, this`blockSigners, this`arrived, this`place
      modifies core, core.pool.Object()
      ensures Ordered() && arrived == old(arrived) + {digest} && blockSigners == old(blockSigners)[digest := signers]
      ensures HandleAll(old(Value()), delivered) == Some((Value(), coreActions))
      ensures forall i :: 0 <= i < |delivered| ==> delivered[i].Received?
    {
      hide Closed, BufferOk, Causal, HandleAll, Handle, ActionsOk, CanHandle, Configured;
      NotPlaced(core.nodeIndex.Keys, arrived, Buffer(reorderingBlocks, []), place, digest);
      ActionsStay(coreActions, core.nodeIndex.Keys, blockSigners.Keys, blockSigners.Keys + {digest});
      blockSigners := blockSigners[digest := signers];
      assert blockSigners.Keys == old(blockSigners).Keys + {digest};
      if block.parent !in core.nodeIndex {
        Park(digest, block);
        HandleNone(Value());
        return [];
      }
      ArrivePending(core.nodeIndex.Keys, arrived, Buffer(reorderingBlocks, []), place, block);
      arrived, place := arrived + {digest}, place[digest := None];
      delivered := DrainPending([block]);
      assert [] + HandleAll(old(Value()), delivered).value.1 == HandleAll(old(Value()), delivered).value.1;
    }

    /** src/hotstuff/mod.rs:485-490 */
    method Park(digest: Digest, block: Proposal)
      requires core.Valid() && core.pool.Object() != this && Closed(core.nodeIndex.Keys)
      requires BufferOk(core.nodeIndex.Keys, arrived, Buffer(reorderingBlocks, []), place)
      requires DigestOf(block) == digest && digest !in arrived && digest !in core.nodeIndex
      requires block.parent !in core.nodeIndex
      modifies this`reorderingBlocks, this`arrived, this`place
      ensures BufferOk(core.nodeIndex.Keys, arrived, Buffer(reorderingBlocks, []), place)
      ensures Causal(core.nodeIndex.Keys, arrived)
      ensures arrived == old(arrived) + {digest} && place == old(place)[digest := Some(block.parent)]
    {
      hide Closed, BufferOk, Causal;
      ArriveWaiting(core.nodeIndex.Keys, arrived, Buffer(reorderingBlocks, []), place, block);
      reorderingBlocks := Enqueue(reorderingBlocks, block.parent, block);
      arrived, place := arrived + {digest}, place[digest := Some(block.parent)];
      RestIsCausal(core.nodeIndex.Keys, arrived, Buffer(reorderingBlocks, []), place);
    }

    /** src/hotstuff/mod.rs:494-501: the block that is certified by the last pending one is missing. */
    method HoldBack(pending: seq<Proposal>)
      requires Draining(pending) && pending != [] && Last(pending).justify.node !in core.nodeIndex
      modifies this`reorderingBlocks, this`place
      ensures Draining(pending[..|pending| - 1])
    {
      hide Closed, BufferOk, ActionsOk;
      var next := Last(pending);
      PopToWaiting(core.nodeIndex.Keys, arrived, Buffer(reorderingBlocks, pending), place);
      PlacedIsWaiting(core.nodeIndex.Keys, arrived, Buffer(reorderingBlocks, pending), place);
      reorderingBlocks := Enqueue(reorderingBlocks, next.justify.node, next);
      place := place[DigestOf(next) := Some(next.justify.node)];
    }

    /** src/hotstuff/mod.rs:502-507: the last pending block is stored, and what waited for it is pending. */
    method Release(pending: seq<Proposal>) returns (rest: seq<Proposal>)
      requires Draining(pending) && pending != [] && Last(pending).justify.node in core.nodeIndex
      modifies this`coreActions, this`reorderingBlocks, this`place, core, core.pool.Object()
      ensures Draining(rest) && core.nodeIndex.Keys == old(core.nodeIndex.Keys) + {DigestOf(Last(pending))}
      ensures DigestOf(Last(pending)) in arrived - old(core.nodeIndex.Keys)
      ensures Configured(old(Value())) && CanHandle(old(Value()).chain, Received(Last(pending)))
      ensures Value() == Handle(old(Value()), Received(Last(pending))).0
      ensures coreActions == old(coreActions) + Handle(old(Value()), Received(Last(pending))).1
    {
      hide Closed, BufferOk, Handle, ActionsOk;
      var next := Last(pending);
      var digest := DigestOf(next);
      PlacedIsWaiting(core.nodeIndex.Keys, arrived, Buffer(reorderingBlocks, pending), place);
      PopToStore(core.nodeIndex.Keys, arrived, Buffer(reorderingBlocks, pending), place);
      StoreKeepsClosed(core.nodeIndex.Keys, next);
      HandleStores(Value(), next);
      ActionsGrow(Value(), next, coreActions, blockSigners.Keys);
      rest := pending[..|pending| - 1] + Waiters(reorderingBlocks, digest);
      reorderingBlocks := reorderingBlocks - {digest};
      place := PlaceAfterStore(place, digest);
      var actions := core.HandleEvent(Received(next));
      coreActions := coreActions + actions;
    }

    /** src/hotstuff/mod.rs:492-508 */
    method DrainPending(first: seq<Proposal>) returns (ghost delivered: seq<Event>)
      requires Draining(first)
      modifies this`coreActions, this`reorderingBlocks, this`place, core, core.pool.Object()
      ensures Ordered()
      ensures HandleAll(old(Value()), delivered).Some?
      ensures Value() == HandleAll(old(Value()), delivered).value.0
      ensures coreActions == old(coreActions) + HandleAll(old(Value()), delivered).value.1
      ensures forall i :: 0 <= i < |delivered| ==> delivered[i].Received?
    {
      hide Closed, BufferOk, Handle, HandleAll, ActionsOk;
      var pending := first;
      delivered := [];
      HandleNone(Value());
      while pending != []
        invariant Draining(pending)
        invariant HandleAll(old(Value()), delivered).Some?
        invariant Value() == HandleAll(old(Value()), delivered).value.0
        invariant coreActions == old(coreActions) + HandleAll(old(Value()), delivered).value.1
        invariant forall i :: 0 <= i < |delivered| ==> delivered[i].Received?
        decreases arrived - core.nodeIndex.Keys, |pending|
      {
        var next := Last(pending);
        if next.justify.node !in core.nodeIndex {
          HoldBack(pending);
          pending := pending[..|pending| - 1];
        } else {
          pending := Release(pending);
          HandleAllSnoc(old(Value()), delivered, Received(next));
          delivered := delivered + [Received(next)];
        }
      }
      RestIsCausal(core.nodeIndex.Keys, arrived, Buffer(reorderingBlocks, []), place);
    }

    /** One action; a vote finds its signers. What remains is as it was. */
    method EffectAction(action: Action, ghost rest: seq<Action>) returns (outputs: seq<Output>)
      requires SignersKept() && ActionsOk([action] + rest, core.nodeIndex.Keys, blockSigners.Keys)
      modifies this`blockSigners
      ensures SignersKept() && ActionsOk(rest, core.nodeIndex.Keys, blockSigners.Keys)
      ensures outputs == EffectOf(core.id, action, old(blockSigners))
      ensures Effects(core.id, rest, blockSigners) == Effects(core.id, rest, old(blockSigners))
    {
      hide ActionsOk, Effects;
      ActionsRest(action, rest, core.nodeIndex.Keys, blockSigners.Keys);
      match action
      case Vote(digest) =>
        var signers := blockSigners[digest];
        EffectsFrame(core.id, rest, blockSigners, digest);
        ghost var before := blockSigners.Keys;
        blockSigners := blockSigners - {digest};
        assert blockSigners.Keys == before - {digest};
        outputs := if core.id in signers then [SendVote(LEADER, digest)] else [];
      case Finalize(digest) =>
        outputs := [Execute(CommandsOf(digest))];
    }

    /** src/hotstuff/mod.rs:561-669, at a backup */
    method EffectActions() returns (outputs: seq<Output>)
      requires Ordered()
      modifies this`coreActions, this`blockSigners
      ensures Ordered() && coreActions == []
      ensures outputs == Effects(core.id, old(coreActions), old(blockSigners))
    {
      hide Closed, BufferOk, Causal, ActionsOk, EffectOf;
      outputs := [];
      while coreActions != []
        invariant Ordered()
        invariant Effects(core.id, old(coreActions), old(blockSigners)) ==
          outputs + Effects(core.id, coreActions, blockSigners)
        decreases |coreActions|
      {
        var more := EffectBatch();
        outputs := outputs + more;
      }
      assert outputs + [] == outputs;
    }

    /** The inner loop over the actions taken from the queue. */
    method EffectBatch() returns (outputs: seq<Output>)
      requires Ordered()
      modifies this`coreActions, this`blockSigners
      ensures Ordered() && coreActions == []
      ensures outputs == Effects(core.id, old(coreActions), old(blockSigners))
    {
      hide Closed, BufferOk, Causal, ActionsOk, EffectOf;
      var batch := coreActions;
      coreActions := [];
      outputs := [];
      assert batch[0..] == batch;
      for i := 0 to |batch|
        invariant coreActions == [] && SignersKept()
        invariant ActionsOk(batch[i..], core.nodeIndex.Keys, blockSigners.Keys)
        invariant Effects(core.id, batch, old(blockSigners)) == outputs + Effects(core.id, batch[i..], blockSigners)
      {
        assert batch[i..] == [batch[i]] + batch[i + 1..];
        assert batch[i..][1..] == batch[i + 1..];
        var more := EffectAction(batch[i], batch[i + 1..]);
        outputs := outputs + more;
      }
      assert batch[|batch|..] == [] && outputs + [] == outputs;
      NoActionsOk(core.nodeIndex.Keys, blockSigners.Keys);
    }

    /**
     A `Generic` message, any at all: blocks reach the core in causal order, and its
     actions go out; or, exactly for a block that waits already, it is a panic.
     */
    method ReceiveMessage(digest: Digest, signers: set<ReplicaId>, block: Proposal, verified: bool)
      returns (ok: bool, outputs: seq<Output>, ghost delivered: seq<Event>)
      requires Valid()
      modifies this, core, core.pool.Object()
      ensures ok <==> !(old(Admissible(digest, block, verified)) && digest in old(arrived))
      ensures ok ==>
        && Valid()
        && arrived == (if old(Admissible(digest, block, verified)) then old(arrived) + {digest} else old(arrived))
        && HandleAll(old(Value()), delivered).Some? && Value() == HandleAll(old(Value()), delivered).value.0
        && (forall i :: 0 <= i < |delivered| ==> delivered[i].Received?)
        && events == old(events) + delivered
        && emitted == old(emitted) + HandleAll(old(Value()), delivered).value.1
        && outbox == old(outbox) + outputs
        && var actions := HandleAll(old(Value()), delivered).value.1;
           && Executions(outputs) == BatchesOn(Finalized(actions))
           && VotesSent(outputs) == Asked(VotedIn(actions), core.id,
                old(SignersAfter(digest, signers, block, verified)))
           && |outputs| == |Executions(outputs)| + |VotesSent(outputs)|
    {
      hide Closed, BufferOk, Causal, ActionsOk, HandleAll, Effects, HotStuffCore.Init, Executions, BatchesOn, VotesSent;
      hide Asked, Finalized, VotedIn;
      outputs := [];
      ok, delivered := ReceiveGeneric(digest, signers, block, verified);
      if ok {
        outputs := Flush(delivered, old(Value()));
      }
    }

    /** The queue is worked off, and what was done is noted. */
    method Flush(ghost delivered: seq<Event>, ghost before: Core) returns (outputs: seq<Output>)
      requires Ordered()
      requires start == HotStuffCore.Init(start.id, start.maxBatchSize, start.pool.OpenLoop?) && start.id == core.id
      requires HandleAll(start, events) == Some((before, emitted))
      requires HandleAll(before, delivered) == Some((Value(), coreActions))
      requires Executions(outbox) == BatchesOn(Finalized(emitted))
      modifies this`coreActions, this`blockSigners, this`events, this`emitted, this`outbox
      ensures Valid()
      ensures events == old(events) + delivered && emitted == old(emitted) + old(coreActions)
      ensures outbox == old(outbox) + outputs
      ensures Executions(outputs) == BatchesOn(Finalized(old(coreActions)))
      ensures VotesSent(outputs) == Asked(VotedIn(old(coreActions)), core.id, old(blockSigners))
      ensures |outputs| == |Executions(outputs)| + |VotesSent(outputs)|
    {
      hide Closed, BufferOk, Causal, ActionsOk, HandleAll, Effects, HotStuffCore.Init, Executions, BatchesOn, VotesSent;
      hide Asked, Finalized, VotedIn;
      Record(delivered, before);
      EffectsAre(core.id, coreActions, blockSigners);
      ghost var actions := coreActions;
      outputs := EffectActions();
      Send(old(emitted), outputs, actions);
    }

    /** Notes what went out. */
    ghost method Send(before: seq<Action>, outputs: seq<Output>, actions: seq<Action>)
      requires Executions(outbox) == BatchesOn(Finalized(before))
      requires Executions(outputs) == BatchesOn(Finalized(actions))
      modifies this`outbox
      ensures outbox == old(outbox) + outputs && Executions(outbox) == BatchesOn(Finalized(before + actions))
    {
      FinalizedConcat(before, actions);
      BatchesConcat(Finalized(before), Finalized(actions));
      ExecutionsConcat(outbox, outputs);
      outbox := outbox + outputs;
    }

    /** Notes what the core was given and what it asked for. */
    ghost method Record(delivered: seq<Event>, before: Core)
      requires core.Stored()
      requires HandleAll(start, events) == Some((before, emitted))
      requires HandleAll(before, delivered) == Some((Value(), coreActions))
      modifies this`events, this`emitted
      ensures HandleAll(start, events) == Some((Value(), emitted))
      ensures events == old(events) + delivered && emitted == old(emitted) + coreActions
    {
      hide HandleAll;
      HandleAllConcat(start, events, delivered);
      events := events + delivered;
      emitted := emitted + coreActions;
    }

    /** A client's request: it joins the pool and causes nothing. */
    method ReceiveRequest(command: Command)
      requires Valid()
      modifies this, core, core.pool.Object()
      ensures Valid() && arrived == old(arrived)
      ensures events == old(events) + [Request(command)] && emitted == old(emitted)
      ensures Value() == Handle(old(Value()), Request(command)).0
    {
      hide Closed, BufferOk, Causal, ActionsOk, HandleAll, Handle;
      RequestAside(Value(), command);
      HandleAllSnoc(start, events, Request(command));
      coreActions := core.HandleEvent(Request(command));
      assert emitted + [] == emitted;
      events := events + [Request(command)];
    }
  }

  lemma HandleStores(c: Core, b: Proposal)
    requires Configured(c) && CanHandle(c.chain, Received(b))
    ensures Handle(c, Received(b)).0.chain.known == c.chain.known + {DigestOf(b)}
  {
  }

  lemma PlacedIsWaiting(known: set<Digest>, arrived: set<Digest>, u: Buffer, place: map<Digest, Option<Digest>>)
    requires BufferOk(known, arrived, u, place) && u.pending != []
    ensures DigestOf(Last(u.pending)) in place
  {
  }

  /** What is neither stored nor placed has not arrived. */
  lemma NotPlaced(known: set<Digest>, arrived: set<Digest>, u: Buffer, place: map<Digest, Option<Digest>>, d: Digest)
    requires BufferOk(known, arrived, u, place) && d !in known
    ensures d in place <==> d in arrived
  {
    assert d in place <==> d in place.Keys;
  }

  // ---- when a block trips the assertion ----

  /** Signers are on record for exactly the blocks that arrived and are not stored. */
  lemma BufferedIff(r: Replica, digest: Digest)
    requires r.Draining([]) && digest !in r.core.nodeIndex
    ensures digest in r.blockSigners <==> digest in r.arrived
  {
    hide BufferOk;
    NotPlaced(r.core.nodeIndex.Keys, r.arrived, Buffer(r.reorderingBlocks, []), r.place, digest);
  }

  /**
   A block that waits passes all checks when its certificate verifies, so delivering it
   again is the failing input.
   */
  lemma RedeliveryPanics(r: Replica, block: Proposal)
    requires r.Valid() && DigestOf(block) in r.arrived && DigestOf(block) !in r.core.nodeIndex
    ensures r.Admissible(DigestOf(block), block, true) && DigestOf(block) in r.blockSigners
  {
    hide BufferOk;
    BufferedIff(r, DigestOf(block));
  }

  /** The shortest such run: a block whose parent has not arrived, twice. */
  method DeliverTwice() returns (ok: bool)
    ensures !ok
  {
    var r := new Replica(1, 1, false);
    var absent := Proposal(Genesis, [], QuorumCert(Genesis, GENESIS_SIG), 1);
    var block := Proposal(DigestOf(absent), [], QuorumCert(Genesis, GENESIS_SIG), 2);
    var digest := DigestOf(block);
    assert r.Value().chain.known == {Genesis};
    var outputs;
    ghost var delivered;
    ok, outputs, delivered := r.ReceiveMessage(digest, {}, block, true);
    NotReady(r, block);
    ok, outputs, delivered := r.ReceiveMessage(digest, {}, block, true);
  }

  /** A block whose parent has not arrived is not stored. */
  lemma NotReady(r: Replica, block: Proposal)
    requires r.Valid() && block.parent.Hash? && block.parent !in r.arrived
    ensures DigestOf(block) !in r.core.nodeIndex
  {
    assert !Ready(r.arrived, block.parent);
    assert !Ready(r.arrived, DigestOf(block));
  }

  // ---- the queue of actions ----

  lemma NothingBuffered()
    ensures Closed({Genesis}) && BufferOk({Genesis}, {}, Buffer(map[], []), map[]) && Causal({Genesis}, {})
    ensures ActionsOk([], {Genesis}, {})
  {
  }

  lemma ActionsStay(queue: seq<Action>, known: set<Digest>, signed: set<Digest>, signed': set<Digest>)
    requires ActionsOk(queue, known, signed) && signed <= signed'
    ensures ActionsOk(queue, known, signed')
  {
  }

  lemma ActionsGrow(c: Core, b: Proposal, queue: seq<Action>, signed: set<Digest>)
    requires Configured(c) && CanHandle(c.chain, Received(b)) && c.id != LEADER
    requires ActionsOk(queue, c.chain.known, signed) && DigestOf(b) in signed
    ensures ActionsOk(queue + Handle(c, Received(b)).1, c.chain.known + {DigestOf(b)}, signed)
  {
    hide Handle, VotedIn, Accepts;
    BackupNeverProposes(c, Received(b));
    HandleVotes(c, Received(b));
    VotedInConcat(queue, Handle(c, Received(b)).1);
    var votes := VotedIn(queue);
    forall i | 0 <= i < |votes| ensures votes[i] != DigestOf(b) {
      assert votes[i] in votes;
    }
  }

  lemma NoActionsOk(known: set<Digest>, signed: set<Digest>)
    ensures ActionsOk([], known, signed)
  {
  }

  lemma ActionsRest(a: Action, rest: seq<Action>, known: set<Digest>, signed: set<Digest>)
    requires ActionsOk([a] + rest, known, signed)
    ensures !a.Propose?
    ensures a.Vote? ==>
      a.node in known && a.node in signed && a.node !in VotedIn(rest) && ActionsOk(rest, known, signed - {a.node})
    ensures !a.Vote? ==> ActionsOk(rest, known, signed)
  {
    hide VotedIn, NoRepeats;
    VotesOfRest(a, rest);
    if a.Vote? {
      FirstIsAlone(a.node, VotedIn(rest));
    }
    assert ([a] + rest)[0] == a;
    assert forall x :: x in rest ==> x in [a] + rest;
  }

  lemma VotesOfRest(a: Action, rest: seq<Action>)
    ensures VotedIn([a] + rest) == if a.Vote? then [a.node] + VotedIn(rest) else VotedIn(rest)
  {
    VotedInConcat([a], rest);
    assert [a][..0] == [];
  }

  lemma FirstIsAlone(d: Digest, later: seq<Digest>)
    requires NoRepeats([d] + later)
    ensures NoRepeats(later) && d !in later
  {
    var all := [d] + later;
    assert all[0] == d && forall i :: 0 <= i < |later| ==> all[i + 1] == later[i];
  }

  /** Signers that no later vote needs make no difference. */
  lemma {:induction false} EffectsFrame(id: ReplicaId, queue: seq<Action>, signers: map<Digest, set<ReplicaId>>,
      d: Digest)
    requires d !in VotedIn(queue)
    ensures Effects(id, queue, signers - {d}) == Effects(id, queue, signers)
  {
    if queue != [] {
      assert [queue[0]] + queue[1..] == queue && [queue[0]][..0] == [];
      VotedInConcat([queue[0]], queue[1..]);
      if queue[0].Vote? {
        assert VotedIn([queue[0]])[0] == queue[0].node;
        assert queue[0].node in VotedIn(queue);
      }
      EffectsFrame(id, queue[1..], signers, d);
    }
  }

  // ---- under the stable leader ----

  /**
   A backup that has received blocks of the leader's line only, in any order: its state
   is the closed form of the last block before the first gap in what has arrived, it has
   voted for every block up to there, and finalized and executed every block up to the
   third before, once each and in order.
   */
  lemma BackupFollowsArrivals(r: Replica, head: Digest, d: Digest)
    requires r.Valid() && Straight(head) && FromLeader(head, r.events) && d in Past(head)
    ensures BackupAt(r.Value(), head, TipOf(r.events), r.emitted)
    ensures Executions(r.outbox) == BatchesOn(Line(Parent3(TipOf(r.events))))
    ensures d in Past(TipOf(r.events)) <==> forall x :: x in Line(d) ==> x in r.arrived
  {
    hide Closed, BufferOk, Causal, ActionsOk, HandleAll, FromLeader, Straight;
    BackupInAnyOrder(r.start, head, r.events);
    TipIsLastBeforeGap(r.Value().chain, head, TipOf(r.events), r.arrived, d);
  }
}
