/**
 What every message keeps at a PBFT replica: quorums are formed exactly when enough
 matching votes are there, blocks are final without a gap, and no assertion fails.
 */
module PbftInvariant {
  import opened Commands
  import opened PbftCore
  import opened PbftNode
  import Quorums
  import CloseLoopPool

  // ---- a node at rest ----

  /** Block `k` is prepared iff enough Prepares match, and committed iff enough Commits match as well. */
  ghost predicate SlotOk(c: Setting, s: Node, k: nat)
    requires Sound(c)
  {
    && (k in s.core.prepared <==> EnoughPrepares(c, s, k))
    && (k in s.core.committed <==> k in s.core.prepared && EnoughCommits(c, s, k))
  }

  /** All numbers but `but`. */
  ghost predicate Slots(c: Setting, s: Node, but: set<nat>)
    requires Sound(c)
  {
    forall k {:trigger SlotOk(c, s, k)} :: k !in but ==> SlotOk(c, s, k)
  }

  ghost predicate Final(s: Core, k: nat) {
    k in s.accepted && k in s.prepared && k in s.committed
  }

  ghost predicate FinalUpTo(s: Core) {
    forall k {:trigger Final(s, k)} :: 1 <= k <= s.finalizeNum ==> Final(s, k)
  }

  ghost predicate VoteOk(c: Setting, s: Node, v: Vote)
    requires Sound(c)
  {
    v.viewNum == c.viewNum && v.replica < c.n && (IsPrimary(c) ==> v.blockNum in s.core.accepted)
  }

  ghost predicate VotesOk(c: Setting, s: Node)
    requires Sound(c)
  {
    (forall v :: v in s.prepares ==> VoteOk(c, s, v)) && (forall v :: v in s.commits ==> VoteOk(c, s, v))
  }

  /** The primary's window, with the proposals from `next` on still to be accepted. */
  ghost predicate Window(c: Setting, s: Core, next: nat)
    requires Sound(c)
  {
    IsPrimary(c) ==>
      && s.finalizeNum < next <= s.proposeNum + 1
      && s.proposeNum <= s.finalizeNum + c.maxInflight
      && (forall k :: k in s.accepted <==> 1 <= k < next)
  }

  /** The primary leaves commands in its pool only while its window is full. */
  ghost predicate Saturated(c: Setting, s: Core)
    requires Sound(c)
  {
    IsPrimary(c) && s.proposeNum < s.finalizeNum + c.maxInflight ==> s.pool.pending == []
  }

  ghost predicate Orderly(c: Setting, s: Node, next: nat)
    requires Sound(c)
  {
    && Slots(c, s, {})
    && FinalUpTo(s.core) && !CanFinalize(s.core)
    && VotesOk(c, s)
    && Window(c, s.core, next)
  }

  ghost predicate AlmostSettled(c: Setting, s: Node, next: nat)
    requires Sound(c)
  {
    Orderly(c, s, next) && Saturated(c, s.core)
  }

  /** Between two messages. */
  ghost predicate Settled(c: Setting, s: Node)
    requires Sound(c)
  {
    AlmostSettled(c, s, s.core.proposeNum + 1)
  }

  /** What the environment guarantees: known senders, and no one else signs for the primary. */
  ghost predicate Admissible(c: Setting, s: Node, m: Message, verified: bool)
    requires Sound(c)
  {
    match m
    case Request(_) => true
    case PrePrepare(viewNum, k, _, _) => IsPrimary(c) && verified && viewNum == c.viewNum ==> k in s.core.accepted
    case PrepareVote(v) => v.replica < c.n
    case CommitVote(v) => v.replica < c.n
  }

  lemma InitIsSettled(c: Setting)
    requires Sound(c)
    ensures Settled(c, PbftNode.Init())
  {
  }

  // ---- what one message does ----

  ghost predicate Grows(s: Node, s': Node) {
    && s.core.accepted.Keys <= s'.core.accepted.Keys
    && (forall k :: k in s.core.accepted ==> s'.core.accepted[k] == s.core.accepted[k])
    && s.prepares <= s'.prepares && s.commits <= s'.commits
    && s.core.prepared <= s'.core.prepared && s.core.committed <= s'.core.committed
    && s.core.finalizeNum <= s'.core.finalizeNum && s.core.proposeNum <= s'.core.proposeNum
  }

  function MessageOf(o: Output): Option<Message> {
    match o
    case ToAll(m) => Some(m)
    case To(_, m) => Some(m)
    case Execute(_) => None
  }

  /** A replica signs a vote only for the block it accepted, and the primary proposes only that. */
  ghost predicate Honest(c: Setting, s: Core, o: Output)
    requires Sound(c)
  {
    match MessageOf(o)
    case None => true
    case Some(Request(_)) => true
    case Some(PrePrepare(viewNum, k, digest, commands)) =>
      IsPrimary(c) && viewNum == c.viewNum && k in s.accepted && s.accepted[k] == commands && digest == Digest(commands)
    case Some(PrepareVote(v)) => v.blockNum in s.accepted && v ==
      SignedVote(c, v.blockNum, Digest(s.accepted[v.blockNum]))
    case Some(CommitVote(v)) =>
      v.blockNum in s.accepted && v == SignedVote(c, v.blockNum, Digest(s.accepted[v.blockNum]))
  }

  ghost predicate AllHonest(c: Setting, s: Core, outputs: seq<Output>)
    requires Sound(c)
  {
    forall i :: 0 <= i < |outputs| ==> Honest(c, s, outputs[i])
  }

  function Executed(outputs: seq<Output>): seq<seq<Command>> {
    if outputs == [] then []
    else (if outputs[0].Execute? then [outputs[0].commands] else []) + Executed(outputs[1..])
  }

  /** The blocks numbered `lo + 1` to `hi`. */
  function Batches(accepted: map<nat, seq<Command>>, lo: nat, hi: nat): (r: seq<seq<Command>>)
    requires lo <= hi && forall k :: lo < k <= hi ==> k in accepted
    ensures |r| == hi - lo && forall i :: 0 <= i < |r| ==> r[i] == accepted[lo + 1 + i]
    decreases hi - lo
  {
    if lo == hi then [] else [accepted[lo + 1]] + Batches(accepted, lo + 1, hi)
  }

  ghost predicate Reaches(c: Setting, s: Node, lo: nat, out: Outcome)
    requires Sound(c)
  {
    && out.Done?
    && Settled(c, out.node)
    && Grows(s, out.node)
    && AllHonest(c, out.node.core, out.outputs)
    && lo <= out.node.core.finalizeNum
    && (forall k :: lo < k <= out.node.core.finalizeNum ==> k in out.node.core.accepted)
    && Executed(out.outputs) == Batches(out.node.core.accepted, lo, out.node.core.finalizeNum)
  }

  // ---- small steps ----

  /** A slot depends only on its own votes and its own block. */
  lemma SlotFrame(c: Setting, s: Node, s': Node, k: nat)
    requires Sound(c) && SlotOk(c, s, k)
    requires k in s.core.accepted <==> k in s'.core.accepted
    requires k in s.core.accepted ==> s.core.accepted[k] == s'.core.accepted[k]
    requires k in s.core.prepared <==> k in s'.core.prepared
    requires k in s.core.committed <==> k in s'.core.committed
    requires forall v: Vote :: v.blockNum == k ==> (v in s.prepares <==> v in s'.prepares)
    requires forall v: Vote :: v.blockNum == k ==> (v in s.commits <==> v in s'.commits)
    ensures SlotOk(c, s', k)
  {
    if k in s.core.accepted {
      var digest := Digest(s.core.accepted[k]);
      assert Voters(s.prepares, k, digest) == Voters(s'.prepares, k, digest);
      assert Voters(s.commits, k, digest) == Voters(s'.commits, k, digest);
    }
  }

  lemma {:induction false} ExecutedConcat(a: seq<Output>, b: seq<Output>)
    ensures Executed(a + b) == Executed(a) + Executed(b)
  {
    if a == [] {
      assert a + b == b;
    } else {
      assert (a + b)[1..] == a[1..] + b;
      ExecutedConcat(a[1..], b);
    }
  }

  /** Outputs ahead of the loop's that execute nothing. */
  lemma Prepend(c: Setting, s: Node, lo: nat, out: Outcome, replies: seq<Output>, turns: nat)
    requires Sound(c) && Reaches(c, s, lo, out)
    requires AllHonest(c, out.node.core, replies) && Executed(replies) == []
    ensures Reaches(c, s, lo, Done(out.node, replies + out.outputs, turns))
  {
    ExecutedConcat(replies, out.outputs);
  }

  lemma StartFrom(c: Setting, s: Node, s1: Node, lo: nat, out: Outcome)
    requires Sound(c) && Grows(s, s1) && Reaches(c, s1, lo, out)
    ensures Reaches(c, s, lo, out)
  {
  }

  // ---- the primary takes in its own proposals ----

  function Accepting(s: Node, a: Action): Node
    requires a.Propose?
  {
    s.(core := s.core.(accepted := s.core.accepted[a.num := a.commands]))
  }

  lemma AcceptKeeps(c: Setting, s: Node, a: Action, next: nat)
    requires Sound(c) && IsPrimary(c) && AlmostSettled(c, s, next) && a.Propose? && a.num == next <= s.core.proposeNum
    ensures AlmostSettled(c, Accepting(s, a), next + 1)
    ensures Grows(s, Accepting(s, a))
    ensures CanPerform(c, s, a)
    ensures Perform(c, s, a) == (Accepting(s, a), [], [ToAll(PrePrepare(c.viewNum, next, Digest(a.commands),
      a.commands))])
  {
    var s' := Accepting(s, a);
    forall k ensures SlotOk(c, s', k) {
      assert SlotOk(c, s, k);
      if k != next {
        SlotFrame(c, s, s', k);
      }
    }
    assert SlotOk(c, s, next);
    forall k | 1 <= k <= s'.core.finalizeNum ensures Final(s'.core, k) {
      assert Final(s.core, k);
    }
  }

  lemma {:induction false} DrainProposals(c: Setting, s: Node, queue: seq<Action>, next: nat)
    requires Sound(c) && AlmostSettled(c, s, next) && (queue != [] ==> IsPrimary(c))
    requires forall i :: 0 <= i < |queue| ==> queue[i].Propose? && queue[i].num == next + i
    requires next + |queue| == s.core.proposeNum + 1
    ensures Reaches(c, s, s.core.finalizeNum, Drain(c, s, queue))
    ensures Drain(c, s, queue).node.core.finalizeNum == s.core.finalizeNum
    decreases |queue|
  {
    if queue != [] {
      var a := queue[0];
      AcceptKeeps(c, s, a, next);
      var s1 := Accepting(s, a);
      assert queue[1..] + [] == queue[1..];
      DrainProposals(c, s1, queue[1..], next + 1);
      var out := Drain(c, s1, queue[1..]);
      var reply := [ToAll(PrePrepare(c.viewNum, next, Digest(a.commands), a.commands))];
      StartFrom(c, s, s1, s.core.finalizeNum, out);
      assert s1.core.accepted[next] == a.commands;
      assert Honest(c, out.node.core, reply[0]);
      Prepend(c, s, s.core.finalizeNum, out, reply, out.turns + 1);
    }
  }

  lemma {:induction false} DrainFinalizes(c: Setting, s: Node, lo: nat, queue: seq<Action>)
    requires Sound(c) && lo <= s.core.finalizeNum
    requires forall k :: lo < k <= s.core.finalizeNum ==> k in s.core.accepted
    requires Reaches(c, s, s.core.finalizeNum, Drain(c, s, queue))
    requires Drain(c, s, queue).node.core.finalizeNum == s.core.finalizeNum
    ensures Reaches(c, s, lo, Drain(c, s, FinalizeActions(lo, s.core.finalizeNum) + queue))
    ensures Drain(c, s, FinalizeActions(lo, s.core.finalizeNum) + queue).node == Drain(c, s, queue).node
    decreases s.core.finalizeNum - lo
  {
    hide Settled, Drain;
    var finals := FinalizeActions(lo, s.core.finalizeNum);
    if lo == s.core.finalizeNum {
      assert finals + queue == queue;
    } else {
      var rest := FinalizeActions(lo + 1, s.core.finalizeNum) + queue;
      DrainFinalizes(c, s, lo + 1, queue);
      DrainFinalize(c, s, lo, rest);
      assert finals + queue == [Finalize(lo + 1)] + rest;
    }
  }

  lemma DrainFinalize(c: Setting, s: Node, lo: nat, rest: seq<Action>)
    requires Sound(c) && lo < s.core.finalizeNum && lo + 1 in s.core.accepted
    requires Reaches(c, s, lo + 1, Drain(c, s, rest))
    ensures Reaches(c, s, lo, Drain(c, s, [Finalize(lo + 1)] + rest))
    ensures Drain(c, s, [Finalize(lo + 1)] + rest).node == Drain(c, s, rest).node
  {
    hide Settled, Drain, Grows, Honest;
    var out, batch := Drain(c, s, rest), s.core.accepted[lo + 1];
    DrainQuiet(c, s, Finalize(lo + 1), rest);
    ExecutedConcat([Execute(batch)], out.outputs);
    assert [Execute(batch)][1..] == [];
    GrowsKeeps(s, out.node, lo + 1);
    HonestExecute(c, out.node.core, batch);
  }

  lemma GrowsKeeps(s: Node, s': Node, k: nat)
    requires Grows(s, s') && k in s.core.accepted
    ensures k in s'.core.accepted && s'.core.accepted[k] == s.core.accepted[k]
  {
  }

  lemma HonestExecute(c: Setting, s: Core, batch: seq<Command>)
    requires Sound(c)
    ensures Honest(c, s, Execute(batch))
  {
  }

  /** An action that changes nothing and asks for nothing. */
  lemma DrainQuiet(c: Setting, s: Node, a: Action, rest: seq<Action>)
    requires Sound(c) && CanPerform(c, s, a) && Perform(c, s, a).0 == s && Perform(c, s, a).1 == []
    requires Drain(c, s, rest).Done?
    ensures var out := Drain(c, s, rest);
      Drain(c, s, [a] + rest) == Done(out.node, Perform(c, s, a).2 + out.outputs, out.turns + 1)
  {
    var queue := [a] + rest;
    assert queue[1..] + [] == rest;
  }

  // ---- a commit quorum ----

  /** Everything is in place except that block `k`, already prepared, has to be looked at again. */
  ghost predicate Reopened(c: Setting, s: Node, k: nat)
    requires Sound(c)
  {
    && Slots(c, s, {k})
    && k in s.core.accepted && k in s.core.prepared && k !in s.core.committed && EnoughPrepares(c, s, k)
    && FinalUpTo(s.core) && !CanFinalize(s.core)
    && VotesOk(c, s)
    && Window(c, s.core, s.core.proposeNum + 1) && Saturated(c, s.core)
  }

  function WithCommitted(s: Node, k: nat): Node {
    s.(core := FinalizeAll(s.core.(committed := s.core.committed + {k})))
  }

  lemma CommittedIsAlmostSettled(c: Setting, s: Node, k: nat)
    requires Sound(c) && Reopened(c, s, k) && EnoughCommits(c, s, k)
    ensures CanHandle(c, s.core, CommitQuorum(k))
    ensures Orderly(c, WithCommitted(s, k), s.core.proposeNum + 1)
    ensures Grows(s, WithCommitted(s, k))
  {
    var s' := WithCommitted(s, k);
    forall j ensures SlotOk(c, s', j) {
      if j != k {
        assert SlotOk(c, s, j);
      }
    }
    forall j | 1 <= j <= s'.core.finalizeNum ensures Final(s'.core, j) {
      assert j <= s.core.finalizeNum ==> Final(s.core, j);
    }
    assert s'.core.finalizeNum > s.core.finalizeNum ==> s'.core.finalizeNum in s.core.accepted;
  }

  lemma ProposeAllKeeps(c: Setting, s: Node)
    requires Sound(c) && Orderly(c, s, s.core.proposeNum + 1)
    ensures var s' := s.(core := ProposeAll(c, s.core).0);
      AlmostSettled(c, s', s.core.proposeNum + 1) && Grows(s, s')
  {
    var s' := s.(core := ProposeAll(c, s.core).0);
    forall k ensures SlotOk(c, s', k) {
      assert SlotOk(c, s, k);
    }
    forall k | 1 <= k <= s'.core.finalizeNum ensures Final(s'.core, k) {
      assert Final(s.core, k);
    }
  }

  lemma DrainCommitQuorum(c: Setting, s: Node, k: nat)
    requires Sound(c) && Reopened(c, s, k) && EnoughCommits(c, s, k)
    ensures CanHandle(c, s.core, CommitQuorum(k))
    ensures var r := Deliver(c, s, CommitQuorum(k)); Reaches(c, s, s.core.finalizeNum, Drain(c, r.0, r.1))
  {
    hide Slots, Drain;
    CommittedIsAlmostSettled(c, s, k);
    var s1 := WithCommitted(s, k);
    ProposeAllKeeps(c, s1);
    var r := Deliver(c, s, CommitQuorum(k));
    var p := ProposeAll(c, s1.core);
    DrainProposals(c, r.0, p.1, s.core.proposeNum + 1);
    DrainFinalizes(c, r.0, s.core.finalizeNum, p.1);
    StartFrom(c, s, r.0, s.core.finalizeNum, Drain(c, r.0, r.1));
  }

  // ---- a prepare quorum ----

  lemma NoneIsExecuted(o: Output)
    requires !o.Execute?
    ensures Executed([o]) == []
  {
  }

  lemma NotCommitted(c: Setting, s: Node, k: nat)
    requires Sound(c) && Reopened(c, s, k) && !EnoughCommits(c, s, k)
    ensures Settled(c, s)
  {
  }

  lemma DrainOne(c: Setting, s: Node, a: Action)
    requires Sound(c) && CanPerform(c, s, a)
    ensures var r := Perform(c, s, a);
      Drain(c, r.0, r.1).Done? ==>
        var out := Drain(c, r.0, r.1);
        Drain(c, s, [a]) == Done(out.node, r.2 + out.outputs, out.turns + 1)
  {
    assert [a][1..] == [];
    assert [a][1..] + Perform(c, s, a).1 == Perform(c, s, a).1;
  }

  lemma DrainCommit(c: Setting, s: Node, k: nat)
    requires Sound(c) && Reopened(c, s, k)
    ensures Reaches(c, s, s.core.finalizeNum, Drain(c, s, [Commit(k)]))
  {
    hide Slots;
    if EnoughCommits(c, s, k) {
      DrainCommitQuorum(c, s, k);
    } else {
      NotCommitted(c, s, k);
    }
    DrainOne(c, s, Commit(k));
    var r := Perform(c, s, Commit(k));
    var out := Drain(c, r.0, r.1);
    assert Honest(c, out.node.core, r.2[0]);
    NoneIsExecuted(r.2[0]);
    Prepend(c, s, s.core.finalizeNum, out, r.2, out.turns + 1);
  }

  /** Everything is in place except that block `k` is not yet prepared. */
  ghost predicate Opened(c: Setting, s: Node, k: nat)
    requires Sound(c)
  {
    && Slots(c, s, {k})
    && k in s.core.accepted && k !in s.core.prepared && k !in s.core.committed
    && FinalUpTo(s.core) && !CanFinalize(s.core)
    && VotesOk(c, s)
    && Window(c, s.core, s.core.proposeNum + 1) && Saturated(c, s.core)
  }

  lemma PreparedIsReopened(c: Setting, s: Node, k: nat)
    requires Sound(c) && Opened(c, s, k) && EnoughPrepares(c, s, k)
    ensures CanHandle(c, s.core, PrepareQuorum(k))
    ensures var r := Deliver(c, s, PrepareQuorum(k));
      Reopened(c, r.0, k) && Grows(s, r.0) && r.1 == [Commit(k)]
  {
    var s' := Deliver(c, s, PrepareQuorum(k)).0;
    forall j | j != k ensures SlotOk(c, s', j) {
      assert SlotOk(c, s, j);
      SlotFrame(c, s, s', j);
    }
    forall j | 1 <= j <= s'.core.finalizeNum ensures Final(s'.core, j) {
      assert Final(s.core, j);
    }
  }

  lemma DrainPrepareQuorum(c: Setting, s: Node, k: nat)
    requires Sound(c) && Opened(c, s, k) && EnoughPrepares(c, s, k)
    ensures CanHandle(c, s.core, PrepareQuorum(k))
    ensures var r := Deliver(c, s, PrepareQuorum(k)); Reaches(c, s, s.core.finalizeNum, Drain(c, r.0, r.1))
  {
    PreparedIsReopened(c, s, k);
    var r := Deliver(c, s, PrepareQuorum(k));
    DrainCommit(c, r.0, k);
    StartFrom(c, s, r.0, s.core.finalizeNum, Drain(c, r.0, r.1));
  }

  lemma NotPrepared(c: Setting, s: Node, k: nat)
    requires Sound(c) && Opened(c, s, k) && !EnoughPrepares(c, s, k)
    ensures Settled(c, s)
  {
  }

  lemma DrainPrepare(c: Setting, s: Node, k: nat, digest: Digest)
    requires Sound(c) && Opened(c, s, k) && digest == Digest(s.core.accepted[k])
    ensures Reaches(c, s, s.core.finalizeNum, Drain(c, s, [Prepare(k, digest)]))
  {
    hide Slots;
    var a := Prepare(k, digest);
    if EnoughPrepares(c, s, k) {
      DrainPrepareQuorum(c, s, k);
    } else {
      NotPrepared(c, s, k);
    }
    DrainOne(c, s, a);
    var r := Perform(c, s, a);
    var out := Drain(c, r.0, r.1);
    assert Honest(c, out.node.core, r.2[0]);
    NoneIsExecuted(r.2[0]);
    Prepend(c, s, s.core.finalizeNum, out, r.2, out.turns + 1);
  }

  // ---- one message ----

  lemma NothingToDo(c: Setting, s: Node)
    requires Sound(c) && Settled(c, s)
    ensures Reaches(c, s, s.core.finalizeNum, Drain(c, s, []))
  {
  }

  /** A block nobody has voted on here yet, or voted on early. */
  lemma AcceptedIsOpened(c: Setting, s: Node, k: nat, commands: seq<Command>)
    requires Sound(c) && Settled(c, s) && k !in s.core.accepted && !IsPrimary(c)
    ensures var r := Deliver(c, s, Proposal(k, commands));
      Opened(c, r.0, k) && Grows(s, r.0) && r.1 == [Prepare(k, Digest(commands))]
  {
    var s' := Deliver(c, s, Proposal(k, commands)).0;
    assert SlotOk(c, s, k);
    forall j | j != k ensures SlotOk(c, s', j) {
      assert SlotOk(c, s, j);
      SlotFrame(c, s, s', j);
    }
    forall j | 1 <= j <= s'.core.finalizeNum ensures Final(s'.core, j) {
      assert Final(s.core, j);
    }
  }

  lemma RequestKeeps(c: Setting, s: Node, command: Command)
    requires Sound(c) && Settled(c, s)
    ensures CanHandle(c, s.core, Event.Request(command))
    ensures var r := Deliver(c, s, Event.Request(command)); Reaches(c, s, s.core.finalizeNum, Drain(c, r.0, r.1))
  {
    var r := Deliver(c, s, Event.Request(command));
    var s1 := s.(core := s.core.(pool := CloseLoopPool.Push(s.core.pool, command).0));
    PoolIsAside(c, s, s1);
    if IsPrimary(c) {
      ProposeAllKeeps(c, s1);
      var p := ProposeAll(c, s1.core);
      DrainProposals(c, r.0, p.1, s.core.proposeNum + 1);
      StartFrom(c, s, r.0, s.core.finalizeNum, Drain(c, r.0, r.1));
    } else {
      NothingToDo(c, s1);
      DrainOne(c, s1, Forward(Primary(c), command));
      StartFrom(c, s, s1, s.core.finalizeNum, Drain(c, s1, []));
      NoneIsExecuted(To(Primary(c), Message.Request(command)));
      Prepend(c, s, s.core.finalizeNum, Drain(c, s1, []), [To(Primary(c), Message.Request(command))], 1);
    }
  }

  lemma PoolIsAside(c: Setting, s: Node, s': Node)
    requires Sound(c) && Settled(c, s) && s' == s.(core := s.core.(pool := s'.core.pool))
    ensures Orderly(c, s', s'.core.proposeNum + 1) && Grows(s, s')
  {
    forall k ensures SlotOk(c, s', k) {
      assert SlotOk(c, s, k);
    }
    forall k | 1 <= k <= s'.core.finalizeNum ensures Final(s'.core, k) {
      assert Final(s.core, k);
    }
  }

  lemma PrePrepareKeeps(c: Setting, s: Node, m: Message, verified: bool)
    requires Sound(c) && Settled(c, s) && m.PrePrepare? && Admissible(c, s, m, verified)
    ensures Reaches(c, s, s.core.finalizeNum, Receive(c, s, m, verified))
  {
    hide Slots;
    var a := Admit(c, s, m, verified);
    if a.1 != [] {
      AcceptedIsOpened(c, s, m.blockNum, m.commands);
      DrainPrepare(c, a.0, m.blockNum, Digest(m.commands));
      StartFrom(c, s, a.0, s.core.finalizeNum, Drain(c, a.0, a.1));
      Prepend(c, s, s.core.finalizeNum, Drain(c, a.0, a.1), [], Drain(c, a.0, a.1).turns);
    } else {
      NothingToDo(c, s);
      ResendIsHonest(c, s, m);
      Prepend(c, s, s.core.finalizeNum, Drain(c, s, []), a.2, 0);
    }
  }

  lemma ResendIsHonest(c: Setting, s: Node, m: Message)
    requires Sound(c) && m.PrePrepare?
    ensures m.blockNum in s.core.accepted ==>
      var replies := Resend(c, s, m.blockNum); AllHonest(c, s.core, replies) && Executed(replies) == []
  {
    if m.blockNum in s.core.accepted {
      var replies := Resend(c, s, m.blockNum);
      ExecutedConcat(replies[..1], replies[1..]);
      assert replies == replies[..1] + replies[1..];
      NoneIsExecuted(replies[0]);
      if |replies| == 2 {
        NoneIsExecuted(replies[1]);
        assert replies[1..] == [replies[1]];
      }
    }
  }

  /** A Prepare or Commit on `k` changes at most slot `k`. */
  lemma VoteTouchesOne(c: Setting, s: Node, s': Node, v: Vote)
    requires Sound(c) && Settled(c, s) && v.viewNum == c.viewNum && v.replica < c.n
    requires s' == WithPrepare(c, s, v) || s' == WithCommit(c, s, v)
    ensures Slots(c, s', {v.blockNum}) && FinalUpTo(s'.core) && !CanFinalize(s'.core)
    ensures VotesOk(c, s') && Window(c, s'.core, s'.core.proposeNum + 1) && Saturated(c, s'.core) && Grows(s, s')
  {
    forall k | k != v.blockNum ensures SlotOk(c, s', k) {
      assert SlotOk(c, s, k);
      SlotFrame(c, s, s', k);
    }
  }

  lemma VotersGrow(votes: set<Vote>, v: Vote, k: nat, digest: Digest)
    ensures Voters(votes + {v}, k, digest) ==
      (if v.blockNum == k && v.digest == digest then Voters(votes, k, digest) + {v.replica}
        else Voters(votes, k, digest))
  {
  }

  /** A vote that completes no quorum leaves its own slot as it was. */
  lemma LatePrepareSlot(c: Setting, s: Node, v: Vote)
    requires Sound(c) && SlotOk(c, s, v.blockNum) && FinalUpTo(s.core) && !Prepares(c, s, v)
    ensures SlotOk(c, WithPrepare(c, s, v), v.blockNum)
  {
    var s', k := WithPrepare(c, s, v), v.blockNum;
    if k in s.core.accepted && s' != s {
      VotersGrow(s.prepares, v, k, Digest(s.core.accepted[k]));
      Quorums.SubsetCount(Preparers(c, s, k), Preparers(c, s', k));
      assert 1 <= k < s.core.finalizeNum ==> Final(s.core, k);
    }
  }

  lemma LateCommitSlot(c: Setting, s: Node, v: Vote)
    requires Sound(c) && SlotOk(c, s, v.blockNum) && FinalUpTo(s.core) && !Commits(c, s, v)
    ensures SlotOk(c, WithCommit(c, s, v), v.blockNum)
  {
    var s', k := WithCommit(c, s, v), v.blockNum;
    if k in s.core.accepted && s' != s {
      VotersGrow(s.commits, v, k, Digest(s.core.accepted[k]));
      Quorums.SubsetCount(Committers(c, s, k), Committers(c, s', k));
      assert 1 <= k < s.core.finalizeNum ==> Final(s.core, k);
    }
  }

  lemma AllSlots(c: Setting, s: Node, k: nat)
    requires Sound(c) && Slots(c, s, {k}) && SlotOk(c, s, k)
    ensures Slots(c, s, {})
  {
  }

  lemma LateVote(c: Setting, s: Node, s': Node, v: Vote)
    requires Sound(c) && Settled(c, s) && v.viewNum == c.viewNum && v.replica < c.n
    requires (s' == WithPrepare(c, s, v) && !Prepares(c, s, v)) || (s' == WithCommit(c, s, v) && !Commits(c, s, v))
    ensures Settled(c, s') && Grows(s, s')
  {
    hide Slots, SlotOk, FinalUpTo, VotesOk, Window, Saturated, Prepares, Commits, Lost;
    VoteTouchesOne(c, s, s', v);
    SettledSlot(c, s, v.blockNum);
    if s' == WithPrepare(c, s, v) && !Prepares(c, s, v) {
      LatePrepareSlot(c, s, v);
    } else {
      LateCommitSlot(c, s, v);
    }
    AllSlots(c, s', v.blockNum);
  }

  lemma PrepareKeeps(c: Setting, s: Node, v: Vote)
    requires Sound(c) && Settled(c, s) && v.viewNum == c.viewNum && v.replica < c.n
    ensures Reaches(c, s, s.core.finalizeNum, Receive(c, s, PrepareVote(v), true))
  {
    hide Slots, FinalUpTo, VotesOk, Window, Saturated, Drain;
    var s1 := WithPrepare(c, s, v);
    if Prepares(c, s, v) {
      VoteTouchesOne(c, s, s1, v);
      SettledSlot(c, s, v.blockNum);
      DrainPrepareQuorum(c, s1, v.blockNum);
      var r := Deliver(c, s1, PrepareQuorum(v.blockNum));
      StartFrom(c, s, s1, s.core.finalizeNum, Drain(c, r.0, r.1));
      Prepend(c, s, s.core.finalizeNum, Drain(c, r.0, r.1), [], Drain(c, r.0, r.1).turns);
    } else {
      LateVote(c, s, s1, v);
      NothingToDo(c, s1);
      StartFrom(c, s, s1, s.core.finalizeNum, Drain(c, s1, []));
      Prepend(c, s, s.core.finalizeNum, Drain(c, s1, []), [], Drain(c, s1, []).turns);
    }
  }

  lemma SettledSlot(c: Setting, s: Node, k: nat)
    requires Sound(c) && Settled(c, s)
    ensures SlotOk(c, s, k)
  {
  }

  /** The Commit that completes a quorum. */
  lemma CommitReopens(c: Setting, s: Node, v: Vote)
    requires Sound(c) && Settled(c, s) && v.viewNum == c.viewNum && v.replica < c.n && Commits(c, s, v)
    ensures var s1 := WithCommit(c, s, v);
      Reopened(c, s1, v.blockNum) && EnoughCommits(c, s1, v.blockNum) && Grows(s, s1)
  {
    hide Slots, FinalUpTo, VotesOk, Window, Saturated;
    VoteTouchesOne(c, s, WithCommit(c, s, v), v);
    SettledSlot(c, s, v.blockNum);
  }

  lemma CommitKeeps(c: Setting, s: Node, v: Vote)
    requires Sound(c) && Settled(c, s) && v.viewNum == c.viewNum && v.replica < c.n
    ensures Reaches(c, s, s.core.finalizeNum, Receive(c, s, CommitVote(v), true))
  {
    hide Settled, Reopened, Commits, EnoughCommits, Drain, Reaches, Handle, Grows;
    var s1 := WithCommit(c, s, v);
    if Commits(c, s, v) {
      CommitReopens(c, s, v);
      DrainCommitQuorum(c, s1, v.blockNum);
      var r := Deliver(c, s1, CommitQuorum(v.blockNum));
      StartFrom(c, s, s1, s.core.finalizeNum, Drain(c, r.0, r.1));
      WithoutReplies(c, s, CommitVote(v), true);
      ReachesDone(c, s, Drain(c, r.0, r.1));
    } else {
      LateVote(c, s, s1, v);
      NothingToDo(c, s1);
      StartFrom(c, s, s1, s.core.finalizeNum, Drain(c, s1, []));
      WithoutReplies(c, s, CommitVote(v), true);
      ReachesDone(c, s, Drain(c, s1, []));
    }
  }

  lemma ReachesDone(c: Setting, s: Node, out: Outcome)
    requires Sound(c) && Reaches(c, s, s.core.finalizeNum, out)
    ensures out.Done?
  {
  }

  /**
   Every message, in every settled node: no assertion fails, the loop ends, the node is
   settled again and has only grown, what it signs is about the blocks it accepted, and
   it executes exactly the newly final blocks, in order.
   */
  lemma ReceiveKeeps(c: Setting, s: Node, m: Message, verified: bool)
    requires Sound(c) && Settled(c, s) && Admissible(c, s, m, verified)
    ensures Reaches(c, s, s.core.finalizeNum, Receive(c, s, m, verified))
  {
    hide Slots, Reaches, Settled;
    match m
    case Request(command) =>
      RequestKeeps(c, s, command);
      WithoutReplies(c, s, m, verified);
    case PrePrepare(_, _, _, _) => PrePrepareKeeps(c, s, m, verified);
    case PrepareVote(v) =>
      if Current(c, v, verified) {
        PrepareKeeps(c, s, v);
        assert verified;
      } else {
        Ignored(c, s, m, verified);
      }
    case CommitVote(v) =>
      if Current(c, v, verified) {
        CommitKeeps(c, s, v);
        assert verified;
      } else {
        Ignored(c, s, m, verified);
      }
  }

  lemma WithoutReplies(c: Setting, s: Node, m: Message, verified: bool)
    requires Sound(c) && CanAdmit(c, s, m, verified) && Admit(c, s, m, verified).2 == []
    ensures var a := Admit(c, s, m, verified);
      Drain(c, a.0, a.1).Done? ==> Receive(c, s, m, verified) == Drain(c, a.0, a.1)
  {
  }

  lemma Ignored(c: Setting, s: Node, m: Message, verified: bool)
    requires Sound(c) && Settled(c, s) && CanAdmit(c, s, m, verified) && Admit(c, s, m, verified) == (s, [], [])
    ensures Reaches(c, s, s.core.finalizeNum, Receive(c, s, m, verified))
  {
  }

  /**
   src/pbft/mod.rs:355-387: to a proposal it has already accepted a replica answers with its
   Prepare, and with its Commit iff the block is prepared, to the primary alone; to one
   with another digest under that number it answers nothing.
   */
  lemma RepeatAnswer(c: Setting, s: Node, k: nat, digest: Digest, commands: seq<Command>, verified: bool)
    requires Sound(c) && k in s.core.accepted
    ensures var mine := Vote(c.viewNum, k, digest, c.id);
      Receive(c, s, PrePrepare(c.viewNum, k, digest, commands), verified) ==
      Done(s,
        if digest != Digest(s.core.accepted[k]) then []
        else if k in s.core.prepared then
          [To(Primary(c), PrepareVote(mine)), To(Primary(c), CommitVote(mine))]
        else [To(Primary(c), PrepareVote(mine))], 0)
  {
    var m := PrePrepare(c.viewNum, k, digest, commands);
    assert Admit(c, s, m, verified).2 + [] == Admit(c, s, m, verified).2;
  }

  // ---- the timer ----

  function ProposalFor(c: Setting, k: nat, commands: seq<Command>): Output {
    ToAll(PrePrepare(c.viewNum, k, Digest(commands), commands))
  }

  predicate Waits(s: Core, j: nat, k: nat, last: nat) {
    k <= j <= last && !IsCommitted(s, j) && j in s.accepted
  }

  function NumOf(o: Output): nat {
    if o.ToAll? && o.message.PrePrepare? then o.message.blockNum else 0
  }

  /**
   These are the proposals of exactly the blocks from `k` to `last` that are not committed,
   once each and in order.
   */
  ghost predicate ResendsJust(c: Setting, s: Core, sent: seq<Output>, k: nat, last: nat) {
    && (forall o :: o in sent ==> exists j: nat :: Waits(s, j, k, last) && o == ProposalFor(c, j, s.accepted[j]))
    && (forall j: nat :: Waits(s, j, k, last) ==> ProposalFor(c, j, s.accepted[j]) in sent)
    && (forall x, y :: 0 <= x < y < |sent| ==> NumOf(sent[x]) < NumOf(sent[y]))
  }

  lemma ResendsCons(c: Setting, s: Core, more: seq<Output>, k: nat, last: nat)
    requires ResendsJust(c, s, more, k + 1, last) && Waits(s, k, k, last)
    ensures ResendsJust(c, s, [ProposalFor(c, k, s.accepted[k])] + more, k, last)
  {
    var one := ProposalFor(c, k, s.accepted[k]);
    var sent := [one] + more;
    assert sent[0] == one;
    forall j: nat | Waits(s, j, k, last) ensures ProposalFor(c, j, s.accepted[j]) in sent {
      assert j > k ==> Waits(s, j, k + 1, last);
    }
    forall o | o in sent ensures exists j: nat :: Waits(s, j, k, last) && o == ProposalFor(c, j, s.accepted[j]) {
      if o in more {
        var j: nat :| Waits(s, j, k + 1, last) && o == ProposalFor(c, j, s.accepted[j]);
        assert Waits(s, j, k, last);
      }
    }
    forall x, y | 0 <= x < y < |sent| ensures NumOf(sent[x]) < NumOf(sent[y]) {
      assert sent[y] == more[y - 1];
      assert sent[y] in more;
      assert x > 0 ==> sent[x] == more[x - 1];
    }
  }

  /** The timer of the primary finds every block it looks up, and sends exactly what is not committed. */
  lemma {:induction false} RetransmitIs(c: Setting, s: Core, k: nat, last: nat)
    requires Sound(c) && IsPrimary(c) && k >= 1 && last <= s.proposeNum
    requires forall j :: j in s.accepted <==> 1 <= j <= s.proposeNum
    ensures Retransmit(c, s, k, last).Some?
    ensures var sent := Retransmit(c, s, k, last).value;
      AllHonest(c, s, sent) && Executed(sent) == [] && ResendsJust(c, s, sent, k, last)
    decreases last + 1 - k
  {
    hide ResendsJust;
    if k > last {
      NothingToResend(c, s, k, last);
    } else {
      RetransmitIs(c, s, k + 1, last);
      var more := Retransmit(c, s, k + 1, last).value;
      if IsCommitted(s, k) {
        CommittedIsSkipped(c, s, more, k, last);
      } else {
        var one := ProposalFor(c, k, s.accepted[k]);
        assert Retransmit(c, s, k, last) == Some([one] + more);
        ExecutedConcat([one], more);
        NoneIsExecuted(one);
        ResendsCons(c, s, more, k, last);
      }
    }
  }

  lemma NothingToResend(c: Setting, s: Core, k: nat, last: nat)
    requires k > last
    ensures ResendsJust(c, s, [], k, last)
  {
  }

  lemma CommittedIsSkipped(c: Setting, s: Core, more: seq<Output>, k: nat, last: nat)
    requires ResendsJust(c, s, more, k + 1, last) && IsCommitted(s, k)
    ensures ResendsJust(c, s, more, k, last)
  {
    forall o | o in more ensures exists j: nat :: Waits(s, j, k, last) && o == ProposalFor(c, j, s.accepted[j]) {
      var j: nat :| Waits(s, j, k + 1, last) && o == ProposalFor(c, j, s.accepted[j]);
      assert Waits(s, j, k, last);
    }
    forall j: nat | Waits(s, j, k, last) ensures ProposalFor(c, j, s.accepted[j]) in more {
      assert Waits(s, j, k + 1, last);
    }
  }

  /**
   A tick at the primary sends exactly the proposals above its last final block that it had
   made by the tick before and that are not committed; at a backup it sends nothing.
   */
  lemma TickSends(c: Setting, node: Node, ticked: nat)
    requires Sound(c) && Settled(c, node) && ticked <= node.core.proposeNum
    ensures Tick(c, node.core, ticked).Some?
    ensures var sent := Tick(c, node.core, ticked).value;
      && AllHonest(c, node.core, sent)
      && if IsPrimary(c) then ResendsJust(c, node.core, sent, node.core.finalizeNum + 1, ticked) else sent == []
    ensures IsPrimary(c) ==>
      forall j: nat :: node.core.finalizeNum < j <= ticked ==> j in node.core.accepted
  {
    hide ResendsJust;
    if IsPrimary(c) {
      RetransmitIs(c, node.core, node.core.finalizeNum + 1, ticked);
    }
  }
}
