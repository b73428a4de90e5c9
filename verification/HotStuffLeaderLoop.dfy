/**
 What the leader's replica does with its core's actions (src/hotstuff/mod.rs:561-669):
 the shapes its queue takes, and why the loop ends.
 */
module HotStuffLeaderLoop {
  import opened Commands
  import opened HotStuffTree
  import opened HotStuffChain
  import opened HotStuffCore
  import opened HotStuffStableLeader
  import Quorums
  import CommandPool

  /** The latest signature share of each sender, with whether it is a good one, and who was asked to sign. */
  datatype Tally = Tally(shares: map<ReplicaId, bool>, signers: set<ReplicaId>)

  /** A certificate comes out only of good shares of all who were asked (src/crypto/threshold.rs:201-216). */
  predicate Aggregates(t: Tally) {
    forall r :: r in t.signers ==> r in t.shares && t.shares[r]
  }

  datatype Output =
    | Disseminate(block: Proposal, signers: set<ReplicaId>)
    | SendVote(to: ReplicaId, node: Digest)
    | Execute(commands: seq<Command>)

  /** The batches that are executed, in order. */
  function Executions(outputs: seq<Output>): seq<seq<Command>> {
    if outputs == [] then []
    else Executions(outputs[..|outputs| - 1]) + (if Last(outputs).Execute? then [Last(outputs).commands] else [])
  }

  /** The blocks that are sent out, in order. */
  function Sent(outputs: seq<Output>): seq<Digest> {
    if outputs == [] then []
    else Sent(outputs[..|outputs| - 1]) + (if Last(outputs).Disseminate? then [DigestOf(Last(outputs).block)] else [])
  }

  lemma {:induction false} ExecutionsConcat(a: seq<Output>, b: seq<Output>)
    ensures Executions(a + b) == Executions(a) + Executions(b)
    ensures Sent(a + b) == Sent(a) + Sent(b)
    decreases |b|
  {
    if b == [] {
      assert a + b == a;
    } else {
      assert (a + b)[..|a + b| - 1] == a + b[..|b| - 1];
      ExecutionsConcat(a, b[..|b| - 1]);
    }
  }

  /** The commands of each block of a path. */
  function BatchesOn(path: seq<Digest>): (r: seq<seq<Command>>)
    ensures |r| == |path| && forall i :: 0 <= i < |r| ==> r[i] == CommandsOf(path[i])
  {
    if path == [] then [] else BatchesOn(path[..|path| - 1]) + [CommandsOf(Last(path))]
  }

  // ---- the states between two actions ----

  /** The leader has asked for `b` to be proposed, and has not stored it yet. */
  ghost predicate Proposing(l: Leader, b: Proposal) {
    && l.core.id == LEADER && Configured(l.core)
    && LeaderForm(l.core.chain, l.tip) && l.core.chain.high.node == l.tip
    && Straight(DigestOf(b)) && b.parent == l.tip && b.justify == l.core.chain.high
    && l.core.extraRound == Needs(DigestOf(b))
    && l.taken == Flatten(Line(l.tip)) + b.commands
    && l.finalized == Line(Parent3(l.tip))
  }

  ghost predicate OnlyFinalizes(queue: seq<Action>) {
    forall i :: 0 <= i < |queue| ==> queue[i].Finalize?
  }

  /** The leader's own vote comes first, then what its block finalized. */
  ghost predicate VotePhase(l: Leader, queue: seq<Action>) {
    && queue != [] && queue[0] == Vote(l.tip) && OnlyFinalizes(queue[1..])
    && LeaderOk(l) && l.core.chain.high.node != l.tip
  }

  ghost predicate ProposePhase(l: Leader, queue: seq<Action>) {
    queue != [] && Last(queue).Propose? && OnlyFinalizes(queue[..|queue| - 1]) && Proposing(l, Last(queue).block)
  }

  ghost predicate IdlePhase(l: Leader, queue: seq<Action>) {
    OnlyFinalizes(queue) && LeaderOk(l)
  }

  ghost predicate TallyOk(t: Tally, quorum: nat) {
    |t.shares| < quorum && |t.signers| == quorum
  }

  /** A tally is kept for the one block that is still to be certified. */
  ghost predicate TalliesOk(l: Leader, tallies: map<Digest, Tally>, quorum: nat) {
    && tallies.Keys == (if l.core.chain.high.node == l.tip then {} else {l.tip})
    && forall d :: d in tallies ==> TallyOk(tallies[d], quorum)
  }

  ghost predicate Running(l: Leader, queue: seq<Action>, tallies: map<Digest, Tally>, unsigned: set<Digest>,
      quorum: nat) {
    && TalliesOk(l, tallies, quorum)
    && (VotePhase(l, queue) || ProposePhase(l, queue) || IdlePhase(l, queue))
    && unsigned == (if queue != [] && queue[0].Vote? then {l.tip} else {})
    && (unsigned != {} ==> l.tip in tallies && tallies[l.tip].shares == map[])
  }

  // ---- the two steps of a turn ----

  ghost function Stimulated(l: Leader, e: Event): Leader
    requires Configured(l.core) && Stimulus(l.core, e)
  {
    Leader(Handle(l.core, e).0, l.tip, l.taken + TakenBy(l.core, e), l.finalized)
  }

  /** A request or a certificate: the leader stays idle, or asks for one block. */
  lemma StimulusStep(l: Leader, e: Event)
    requires LeaderOk(l) && Stimulus(l.core, e)
    ensures var queue := Handle(l.core, e).1; var l' := Stimulated(l, e);
      && ((IdlePhase(l', queue) && queue == []) || (ProposePhase(l', queue) && |queue| == 1))
      && l'.core.chain.high.node == (if e.Certified? && Height(e.cert.node) > Height(l.core.chain.high.node)
           then e.cert.node else l.core.chain.high.node)
  {
    hide LeaderForm, Needs, Line, Flatten, TakenBy, Finalized, React, PoolAfter;
    var queue := Handle(l.core, e).1;
    StimulusHandles(l, e);
    if queue == [] {
      SilenceOk(l, e, Leader(Handle(l.core, e).0, l.tip, l.taken + TakenBy(l.core, e), l.finalized + Finalized(queue)));
      assert l.finalized + Finalized([]) == l.finalized by { FinalizedNone(); }
    } else {
      ProposalIs(l, e, queue[0].block);
      assert queue[..0] == [];
    }
  }

  lemma FinalizedNone()
    ensures Finalized([]) == []
  {
  }

  lemma StimulusHandles(l: Leader, e: Event)
    requires LeaderOk(l) && Stimulus(l.core, e)
    ensures var h := Handle(l.core, e);
      && |h.1| <= 1 && (forall a :: a in h.1 ==> a.Propose?)
      && h.0.chain == React(l.core.chain, e)
      && h.0.chain.high.node == (if e.Certified? && Height(e.cert.node) > Height(l.core.chain.high.node)
           then e.cert.node else l.core.chain.high.node)
  {
  }

  /** A certificate costs as many rounds as it makes the leader propose blocks. */
  lemma StimulusCosts(l: Leader, e: Event)
    requires LeaderOk(l) && Stimulus(l.core, e) && e.Certified?
    ensures Configured(Handle(l.core, e).0)
    ensures RoundsLeft(Handle(l.core, e).0) + |Handle(l.core, e).1| <= RoundsLeft(l.core)
  {
    hide LeaderForm, Line, Flatten, Finalized, React, Beat, RoundsLeft;
    var c := Reacted(l.core, e);
    StimulusKeepsForm(l, e);
    StimulusEmitsNothing(l.core, e);
    FewerLeft(l.core, c);
    StimulusHandles(l, e);
    if Beat(c).1 == [] {
      SilentBeatCosts(c);
    } else {
      BeatUsesRound(c);
    }
  }

  /** The leader stores its own block. */
  ghost function Stored(l: Leader, b: Proposal): Leader
    requires Configured(l.core) && CanHandle(l.core.chain, Proposed(b))
  {
    var h := Handle(l.core, Proposed(b));
    Leader(h.0, DigestOf(b), l.taken, l.finalized + Finalized(h.1))
  }

  lemma ProposeStep(l: Leader, b: Proposal)
    requires Proposing(l, b)
    ensures CanHandle(l.core.chain, Proposed(b))
    ensures VotePhase(Stored(l, b), Handle(l.core, Proposed(b)).1)
    ensures RoundsLeft(Stored(l, b).core) <= RoundsLeft(l.core)
    ensures Line(DigestOf(b)) == Line(l.tip) + [DigestOf(b)]
  {
    hide React, ClosedForm, Flatten, Finalized, LeaderForm, Needs, RoundsLeft, CommandPool.CommitAll;
    ProposerWaits(l.core, l.tip, b);
    LineGrows(DigestOf(b));
    ReactedFrame(l.core, Proposed(b));
    OwnActions(l.core.chain, b);
    LeafIsTip(Reacted(l.core, Proposed(b)).chain, DigestOf(b));
    StoredCosts(l, b);
  }

  lemma LeafIsTip(s: Chain, tip: Digest)
    requires LeaderForm(s, tip)
    ensures s.leaf == tip
  {
  }

  lemma StoredCosts(l: Leader, b: Proposal)
    requires Proposing(l, b) && CanHandle(l.core.chain, Proposed(b))
    requires Handle(l.core, Proposed(b)).0 == Reacted(l.core, Proposed(b))
    ensures Configured(Stored(l, b).core) && RoundsLeft(Stored(l, b).core) <= RoundsLeft(l.core)
  {
    CommitShrinks(l.core.pool, Flatten(FinalizedBy(l.core.chain, Proposed(b))));
    FewerLeft(l.core, Reacted(l.core, Proposed(b)));
  }

  /** The actions of storing one's own block: the vote, then what is final. */
  lemma OwnActions(s: Chain, b: Proposal)
    requires CanHandle(s, Proposed(b))
    ensures var queue := ReactActions(s, Proposed(b));
      queue != [] && queue[0] == Vote(DigestOf(b)) && OnlyFinalizes(queue[1..])
  {
    hide FinalizedBy, Accepts;
    var path := FinalizedBy(s, Proposed(b));
    FinalizesOnly(path);
    assert ReactActions(s, Proposed(b)) == [Vote(DigestOf(b))] + Finalizes(path);
    assert ReactActions(s, Proposed(b))[1..] == Finalizes(path);
  }

  // ---- why the loop ends ----

  function Proposals(queue: seq<Action>): nat {
    if queue != [] && Last(queue).Propose? then 1 else 0
  }

  function OwnVotes(queue: seq<Action>): nat {
    if queue != [] && queue[0].Vote? then 1 else 0
  }

  function Distance(c: Core, queue: seq<Action>): (nat, nat, nat)
    requires Configured(c)
  {
    (RoundsLeft(c) + Proposals(queue), OwnVotes(queue), |queue|)
  }

  predicate Closer(a: (nat, nat, nat), b: (nat, nat, nat)) {
    a.0 < b.0 || (a.0 == b.0 && (a.1 < b.1 || (a.1 == b.1 && a.2 < b.2)))
  }

  function WithShare(t: Tally, r: ReplicaId, good: bool): Tally {
    t.(shares := t.shares[r := good])
  }

  /** A share is taken in without a panic: there is a tally for the block, and the last share needed completes it. */
  predicate ShareIsTaken(tallies: map<Digest, Tally>, quorum: nat, d: Digest, r: ReplicaId, good: bool) {
    d in tallies && var t := WithShare(tallies[d], r, good); |t.shares| < quorum || Aggregates(t)
  }

  // ---- one action ----

  lemma FinalizeKeepsRunning(l: Leader, d: Digest, rest: seq<Action>, tallies: map<Digest, Tally>,
      unsigned: set<Digest>, quorum: nat)
    requires Running(l, [Finalize(d)] + rest, tallies, unsigned, quorum)
    ensures Running(l, rest, tallies, unsigned, quorum)
    ensures Configured(l.core) && Closer(Distance(l.core, rest), Distance(l.core, [Finalize(d)] + rest))
  {
    hide LeaderOk, Proposing, RoundsLeft;
    var queue := [Finalize(d)] + rest;
    PhasesAreConfigured(l, queue);
    assert queue[0] == Finalize(d) && queue[1..] == rest;
    assert forall i :: 0 <= i < |rest| ==> rest[i] == queue[i + 1];
    if rest != [] {
      assert queue[..|queue| - 1] == [Finalize(d)] + rest[..|rest| - 1];
      assert forall i :: 0 <= i < |rest| - 1 ==> rest[i] == queue[..|queue| - 1][i + 1];
    }
  }

  lemma PhasesAreConfigured(l: Leader, queue: seq<Action>)
    requires VotePhase(l, queue) || ProposePhase(l, queue) || IdlePhase(l, queue)
    ensures Configured(l.core)
  {
  }

  /** A proposal is alone in the queue when its turn comes; storing it leaves a vote to cast. */
  lemma ProposeKeepsRunning(l: Leader, b: Proposal, rest: seq<Action>, tallies: map<Digest, Tally>,
      unsigned: set<Digest>, quorum: nat, signers: set<ReplicaId>)
    requires Running(l, [Propose(b)] + rest, tallies, unsigned, quorum) && |signers| == quorum >= 1
    ensures rest == [] && tallies == map[] && unsigned == {} && Proposing(l, b) && CanHandle(l.core.chain, Proposed(b))
    ensures DigestOf(b) !in l.core.chain.known && b.parent in l.core.chain.known && b.justify.node in l.core.chain.known
    ensures var l' := Stored(l, b); var queue' := Handle(l.core, Proposed(b)).1;
      && Running(l', queue', map[DigestOf(b) := Tally(map[], signers)], {DigestOf(b)}, quorum)
      && Closer(Distance(l'.core, queue'), Distance(l.core, [Propose(b)] + rest))
  {
    hide LeaderOk, RoundsLeft, Handle, LeaderForm, Needs, Line, Flatten;
    var queue := [Propose(b)] + rest;
    assert queue[0] == Propose(b);
    ProposeIsLast(l, queue);
    assert queue == [Propose(b)];
    ProposingFacts(l, b);
    ProposeStep(l, b);
    OkIsConfigured(Stored(l, b));
    VoteIsFirst(Stored(l, b), Handle(l.core, Proposed(b)).1);
  }

  lemma OkIsConfigured(l: Leader)
    requires LeaderOk(l)
    ensures Configured(l.core)
  {
  }

  /** After the vote only finalizations are queued. */
  lemma VoteIsFirst(l: Leader, queue: seq<Action>)
    requires VotePhase(l, queue)
    ensures !Last(queue).Propose?
  {
  }

  lemma HeadIsFinalize(queue: seq<Action>)
    requires queue != []
    ensures OnlyFinalizes(queue[..|queue| - 1]) ==> |queue| == 1 || queue[0].Finalize?
  {
  }

  lemma ProposeIsLast(l: Leader, queue: seq<Action>)
    requires VotePhase(l, queue) || ProposePhase(l, queue) || IdlePhase(l, queue)
    requires queue != [] && queue[0].Propose?
    ensures |queue| == 1 && Proposing(l, queue[0].block)
  {
    hide LeaderOk, Proposing;
    HeadIsFinalize(queue);
  }

  lemma ProposingFacts(l: Leader, b: Proposal)
    requires Proposing(l, b)
    ensures l.core.chain.high.node == l.tip && CanHandle(l.core.chain, Proposed(b)) && Configured(l.core)
  {
    LeaderStores(l.core.chain, l.tip, b);
  }

  /** The certificate of the leader's last block is the highest there is. */
  lemma TipIsHighest(l: Leader, e: Event)
    requires LeaderOk(l) && l.core.chain.high.node != l.tip && e.Certified? && e.cert.node == l.tip
    ensures Stimulus(l.core, e) && Configured(l.core) && Height(l.tip) > Height(l.core.chain.high.node)
  {
  }

  /** A vote that completes the tally of the last block certifies it. */
  lemma CertifyKeepsRunning(l: Leader, rest: seq<Action>, votes: set<ReplicaId>, quorum: nat)
    requires LeaderOk(l) && l.core.chain.high.node != l.tip && OnlyFinalizes(rest)
    ensures var e := Certified(QuorumCert(l.tip, Sig(votes)));
      && Stimulus(l.core, e) && Configured(l.core)
      && var l' := Stimulated(l, e); var queue' := rest + Handle(l.core, e).1;
         && Running(l', queue', map[], {}, quorum) && Configured(l'.core)
         && RoundsLeft(l'.core) + Proposals(queue') <= RoundsLeft(l.core) && OwnVotes(queue') == 0
         && Finalized(queue') == Finalized(rest) && l'.finalized == l.finalized
  {
    hide LeaderOk, Proposing, RoundsLeft, Handle;
    var e := Certified(QuorumCert(l.tip, Sig(votes)));
    TipIsHighest(l, e);
    StimulusStep(l, e);
    StimulusCosts(l, e);
    var more := Handle(l.core, e).1;
    ProposalsFinalizeNothing(more);
    FinalizedConcat(rest, more);
    if more == [] {
      assert rest + more == rest;
    } else {
      assert more == [more[0]];
      assert (rest + more)[..|rest + more| - 1] == rest;
    }
  }

  /** A vote that does not complete the tally is kept. */
  lemma CountKeepsRunning(l: Leader, rest: seq<Action>, tallies: map<Digest, Tally>, quorum: nat, r: ReplicaId,
      good: bool)
    requires LeaderOk(l) && OnlyFinalizes(rest) && TalliesOk(l, tallies, quorum) && l.tip in tallies
    requires |WithShare(tallies[l.tip], r, good).shares| < quorum
    ensures Running(l, rest, tallies[l.tip := WithShare(tallies[l.tip], r, good)], {}, quorum)
  {
    hide LeaderOk, VotePhase, ProposePhase;
  }

  lemma SkipKeepsRunning(l: Leader, rest: seq<Action>, tallies: map<Digest, Tally>, quorum: nat)
    requires LeaderOk(l) && OnlyFinalizes(rest) && TalliesOk(l, tallies, quorum)
    ensures Running(l, rest, tallies, {}, quorum)
  {
  }

  lemma VoteComesAlone(l: Leader, d: Digest, rest: seq<Action>, tallies: map<Digest, Tally>, unsigned: set<Digest>,
      quorum: nat)
    requires Running(l, [Vote(d)] + rest, tallies, unsigned, quorum)
    ensures d == l.tip && unsigned == {d} && d in tallies && tallies[d].shares == map[] && OnlyFinalizes(rest)
    ensures LeaderOk(l) && l.core.chain.high.node != l.tip
  {
    hide LeaderOk, Proposing;
    HeadIsFinalize([Vote(d)] + rest);
    assert ([Vote(d)] + rest)[1..] == rest;
  }

  lemma {:induction false} ProposalsFinalizeNothing(queue: seq<Action>)
    requires IdleOrProposal(queue)
    ensures Finalized(queue) == []
  {
  }

  predicate IdleOrProposal(queue: seq<Action>) {
    queue == [] || (|queue| == 1 && queue[0].Propose?)
  }

  /** A request goes to the pool; it may make an idle leader propose. */
  lemma RequestKeepsRunning(l: Leader, command: Command, tallies: map<Digest, Tally>, quorum: nat)
    requires Running(l, [], tallies, {}, quorum)
    ensures Configured(l.core) && Stimulus(l.core, Request(command))
    ensures var l' := Stimulated(l, Request(command)); var queue := Handle(l.core, Request(command)).1;
      Running(l', queue, tallies, {}, quorum) && Finalized(queue) == []
  {
    hide LeaderOk, Proposing, Handle;
    RunningIsOk(l, tallies, quorum);
    StimulusStep(l, Request(command));
    ProposalsFinalizeNothing(Handle(l.core, Request(command)).1);
  }

  lemma RunningIsOk(l: Leader, tallies: map<Digest, Tally>, quorum: nat)
    requires Running(l, [], tallies, {}, quorum)
    ensures LeaderOk(l) && Configured(l.core) && TalliesOk(l, tallies, quorum)
  {
  }

  // ---- what a call shows to the outside ----

  /** The outputs are the blocks that were executed and those that were sent since. */
  ghost predicate Shows(outputs: seq<Output>, executed: seq<Digest>, executed': seq<Digest>, tip: Digest,
      tip': Digest) {
    && executed <= executed' && Executions(outputs) == BatchesOn(executed'[|executed|..])
    && Line(tip) <= Line(tip') && Sent(outputs) == Line(tip')[|Line(tip)|..]
  }

  lemma ShowsNothing(executed: seq<Digest>, tip: Digest)
    ensures Shows([], executed, executed, tip, tip)
  {
  }

  lemma {:induction false} BatchesConcat(a: seq<Digest>, b: seq<Digest>)
    ensures BatchesOn(a + b) == BatchesOn(a) + BatchesOn(b)
  {
  }

  lemma ShowsOn(first: seq<Output>, more: seq<Output>, e0: seq<Digest>, e1: seq<Digest>, e2: seq<Digest>, t0: Digest,
      t1: Digest, t2: Digest)
    requires Shows(first, e0, e1, t0, t1) && Shows(more, e1, e2, t1, t2)
    ensures Shows(first + more, e0, e2, t0, t2)
  {
    hide Line, Executions, Sent, BatchesOn;
    ExecutionsConcat(first, more);
    BatchesConcat(e1[|e0|..], e2[|e1|..]);
    assert e2[|e0|..] == e1[|e0|..] + e2[|e1|..];
    assert Line(t2)[|Line(t0)|..] == Line(t1)[|Line(t0)|..] + Line(t2)[|Line(t1)|..];
  }

  lemma ShowsExecution(executed: seq<Digest>, d: Digest, tip: Digest)
    ensures Shows([Execute(CommandsOf(d))], executed, executed + [d], tip, tip)
  {
  }

  lemma ShowsBlock(executed: seq<Digest>, b: Proposal, signers: set<ReplicaId>, tip: Digest)
    requires Line(DigestOf(b)) == Line(tip) + [DigestOf(b)]
    ensures Shows([Disseminate(b, signers)], executed, executed, tip, DigestOf(b))
  {
  }

  /** The leader's own share is always taken. */
  lemma OwnShareIsTaken(tallies: map<Digest, Tally>, quorum: nat, d: Digest)
    requires d in tallies && tallies[d].shares == map[] && |tallies[d].signers| == quorum
    requires LEADER in tallies[d].signers
    ensures ShareIsTaken(tallies, quorum, d, LEADER, true)
  {
    var t := WithShare(tallies[d], LEADER, true);
    assert t.shares.Keys == {LEADER};
    if quorum == 1 {
      Quorums.SubsetCount({LEADER}, t.signers);
      assert |t.signers - {LEADER}| == 0;
    }
  }
}
