/**
 A PBFT replica as a function of the messages delivered to it (`Replica`,
 src/pbft/mod.rs:295-664), in one fixed view.

 A node keeps every vote it was given that can still matter. The program keeps less: it
 collects votes piece by piece in scratch tables, drops late ones and parks early ones;
 the class in PbftReplica shows that this comes to the same.
 */
module PbftNode {
  import opened Commands
  import opened PbftCore

  datatype Vote = Vote(viewNum: nat, blockNum: nat, digest: Digest, replica: ReplicaId)

  datatype Message =
    | Request(command: Command)
    | PrePrepare(viewNum: nat, blockNum: nat, digest: Digest, commands: seq<Command>)
    | PrepareVote(vote: Vote)
    | CommitVote(vote: Vote)

  datatype Output =
    | ToAll(message: Message)
    | To(replica: ReplicaId, message: Message)
    | Execute(commands: seq<Command>)

  datatype Node = Node(core: Core, prepares: set<Vote>, commits: set<Vote>)

  function Init(): Node {
    Node(PbftCore.Init(), {}, {})
  }

  // ---- counting ----

  function Voters(votes: set<Vote>, k: nat, digest: Digest): set<ReplicaId> {
    set v | v in votes && v.blockNum == k && v.digest == digest :: v.replica
  }

  /** Whose Prepare counts for the accepted block: a backup counts its own. */
  function Preparers(c: Setting, s: Node, k: nat): set<ReplicaId>
    requires Sound(c) && k in s.core.accepted
  {
    Voters(s.prepares, k, Digest(s.core.accepted[k])) + (if IsPrimary(c) then {} else {c.id})
  }

  /** Whose Commit counts: one's own, once prepared. */
  function Committers(c: Setting, s: Node, k: nat): set<ReplicaId>
    requires k in s.core.accepted
  {
    Voters(s.commits, k, Digest(s.core.accepted[k])) + (if k in s.core.prepared then {c.id} else {})
  }

  /** With the primary's own proposal, enough have agreed to the number. Someone must have sent a Prepare. */
  predicate EnoughPrepares(c: Setting, s: Node, k: nat)
    requires Sound(c)
  {
    k in s.core.accepted && Preparers(c, s, k) != {} && |Preparers(c, s, k)| + 1 >= c.n - c.f
  }

  predicate EnoughCommits(c: Setting, s: Node, k: nat)
    requires Sound(c)
  {
    k in s.core.accepted && |Committers(c, s, k)| >= c.n - c.f
  }

  // ---- the loop over the core's actions ----

  function SignedVote(c: Setting, k: nat, digest: Digest): Vote {
    Vote(c.viewNum, k, digest, c.id)
  }

  /** Performing this action breaks no assertion and finds what it looks up. */
  predicate CanPerform(c: Setting, s: Node, a: Action)
    requires Sound(c)
  {
    match a
    case Propose(_, _) => true
    case Prepare(k, _) => EnoughPrepares(c, s, k) ==> CanHandle(c, s.core, PrepareQuorum(k))
    case Commit(k) => k in s.core.accepted && (CommitsNow(c, s, k) ==> CanHandle(c, s.core, CommitQuorum(k)))
    case Finalize(k) => k in s.core.accepted
    case Forward(_, _) => true
  }

  predicate CommitsNow(c: Setting, s: Node, k: nat)
    requires Sound(c)
  {
    IsPrepared(s.core, k) && EnoughCommits(c, s, k)
  }

  /** Lets the core handle an event; the actions it asks for come second. */
  function Deliver(c: Setting, s: Node, e: Event): (Node, seq<Action>)
    requires Sound(c)
  {
    var r := Handle(c, s.core, e);
    (s.(core := r.0), r.1)
  }

  /** One action: the node after it, the further actions, and what goes out. */
  function Perform(c: Setting, s: Node, a: Action): (Node, seq<Action>, seq<Output>)
    requires Sound(c) && CanPerform(c, s, a)
  {
    match a
    case Propose(k, commands) =>
      var r := Deliver(c, s, Proposal(k, commands));
      (r.0, r.1, [ToAll(PrePrepare(c.viewNum, k, Digest(commands), commands))])
    case Prepare(k, digest) =>
      var r := if EnoughPrepares(c, s, k) then Deliver(c, s, PrepareQuorum(k)) else (s, []);
      (r.0, r.1, [ToAll(PrepareVote(SignedVote(c, k, digest)))])
    case Commit(k) =>
      var r := if CommitsNow(c, s, k) then Deliver(c, s, CommitQuorum(k)) else (s, []);
      (r.0, r.1, [ToAll(CommitVote(SignedVote(c, k, Digest(s.core.accepted[k]))))])
    case Finalize(k) => (s, [], [Execute(s.core.accepted[k])])
    case Forward(to, command) => (s, [], [To(to, Message.Request(command))])
  }

  function Rank(a: Action): nat {
    match a
    case Propose(_, _) => 3
    case Prepare(_, _) => 2
    case Commit(_) => 1
    case _ => 0
  }

  function Count(queue: seq<Action>, rank: nat): nat {
    if queue == [] then 0 else Count(queue[1..], rank) + (if Rank(queue[0]) == rank then 1 else 0)
  }

  lemma {:induction false} CountConcat(a: seq<Action>, b: seq<Action>, rank: nat)
    ensures Count(a + b, rank) == Count(a, rank) + Count(b, rank)
  {
    if a == [] {
      assert a + b == b;
    } else {
      assert (a + b)[1..] == a[1..] + b;
      CountConcat(a[1..], b, rank);
    }
  }

  lemma {:induction false} CountNone(queue: seq<Action>, rank: nat)
    requires forall i :: 0 <= i < |queue| ==> Rank(queue[i]) != rank
    ensures Count(queue, rank) == 0
  {
    if queue != [] {
      CountNone(queue[1..], rank);
    }
  }

  /** How far the loop is from its end, in lexicographic order. */
  function Distance(c: Setting, queue: seq<Action>): (nat, nat, nat, nat)
    requires Sound(c)
  {
    (if IsPrimary(c) then 0 else Count(queue, 3), Count(queue, 2), Count(queue, 1), |queue|)
  }

  predicate Closer(a: (nat, nat, nat, nat), b: (nat, nat, nat, nat)) {
    a.0 < b.0 || (a.0 == b.0 && (a.1 < b.1 || (a.1 == b.1 && (a.2 < b.2 || (a.2 == b.2 && a.3 < b.3)))))
  }

  /** An action asks only for actions of later kinds. */
  lemma AsksForLater(c: Setting, s: Node, a: Action)
    requires Sound(c) && CanPerform(c, s, a)
    ensures var more := Perform(c, s, a).1;
      && (IsPrimary(c) || Count(more, 3) == 0)
      && ((a.Propose? && !IsPrimary(c)) || Count(more, 2) == 0)
      && (a.Prepare? || Count(more, 1) == 0)
      && ((a.Propose? && IsPrimary(c)) || a.Finalize? || a.Forward? ==> more == [])
  {
    var more := Perform(c, s, a).1;
    match a
    case Propose(_, _) =>
    case Prepare(_, _) =>
    case Commit(_) =>
      CountNone(more, 1);
      CountNone(more, 2);
      if !IsPrimary(c) {
        CountNone(more, 3);
      }
    case _ =>
  }

  lemma PerformGetsCloser(c: Setting, s: Node, queue: seq<Action>)
    requires Sound(c) && queue != [] && CanPerform(c, s, queue[0])
    ensures Closer(Distance(c, queue[1..] + Perform(c, s, queue[0]).1), Distance(c, queue))
  {
    hide Perform, CanPerform;
    var more := Perform(c, s, queue[0]).1;
    AsksForLater(c, s, queue[0]);
    CountConcat(queue[1..], more, 3);
    CountConcat(queue[1..], more, 2);
    CountConcat(queue[1..], more, 1);
  }

  /** How a call ends: by a failed assertion, or in a node with its outputs after some turns of the loop. */
  datatype Outcome = Panic | Done(node: Node, outputs: seq<Output>, turns: nat)

  /** The loop over actions, first in first out, until none is left (src/pbft/mod.rs:484-603). */
  function Drain(c: Setting, s: Node, queue: seq<Action>): Outcome
    requires Sound(c)
    decreases Distance(c, queue).0, Distance(c, queue).1, Distance(c, queue).2, Distance(c, queue).3
  {
    if queue == [] then Done(s, [], 0)
    else if !CanPerform(c, s, queue[0]) then Panic
    else
      var r := Perform(c, s, queue[0]);
      PerformGetsCloser(c, s, queue);
      match Drain(c, r.0, queue[1..] + r.1)
      case Panic => Panic
      case Done(node, outputs, turns) => Done(node, r.2 + outputs, turns + 1)
  }

  // ---- one message ----

  /**
   Votes on this number are thrown away: at the primary before its own proposal, and on
   number 0 once anything is final.
   */
  predicate Lost(c: Setting, s: Node, k: nat)
    requires Sound(c)
  {
    (IsPrimary(c) && k !in s.core.accepted) || (k == 0 && s.core.finalizeNum > 0)
  }

  predicate Current(c: Setting, v: Vote, verified: bool) {
    v.viewNum == c.viewNum && verified
  }

  function WithPrepare(c: Setting, s: Node, v: Vote): Node
    requires Sound(c)
  {
    if Lost(c, s, v.blockNum) then s else s.(prepares := s.prepares + {v})
  }

  function WithCommit(c: Setting, s: Node, v: Vote): Node
    requires Sound(c)
  {
    if Lost(c, s, v.blockNum) then s else s.(commits := s.commits + {v})
  }

  predicate Matches(s: Node, v: Vote) {
    v.blockNum in s.core.accepted && Digest(s.core.accepted[v.blockNum]) == v.digest
  }

  /** The Prepare completes a quorum. */
  predicate Prepares(c: Setting, s: Node, v: Vote)
    requires Sound(c)
  {
    !IsPrepared(s.core, v.blockNum) && Matches(s, v) && EnoughPrepares(c, WithPrepare(c, s, v), v.blockNum)
  }

  /** The Commit completes a quorum. */
  predicate Commits(c: Setting, s: Node, v: Vote)
    requires Sound(c)
  {
    !IsCommitted(s.core, v.blockNum) && Matches(s, v) && CommitsNow(c, WithCommit(c, s, v), v.blockNum)
  }

  /** What the message does before the loop: the node, the queued actions, the immediate replies. */
  function Admit(c: Setting, s: Node, m: Message, verified: bool): (Node, seq<Action>, seq<Output>)
    requires Sound(c)
  {
    match m
    case Request(command) =>
      var r := Deliver(c, s, Event.Request(command));
      (r.0, r.1, [])
    case PrePrepare(viewNum, k, digest, commands) =>
      if viewNum != c.viewNum then (s, [], [])
      else if k in s.core.accepted then
        (s, [], if Digest(s.core.accepted[k]) == digest then Resend(c, s, k) else [])
      else if !verified || digest != Digest(commands) then (s, [], [])
      else
        var r := Deliver(c, s, Proposal(k, commands));
        (r.0, r.1, [])
    case PrepareVote(v) =>
      if !Current(c, v, verified) then (s, [], [])
      else
        var r := if Prepares(c, s, v) then Deliver(c, WithPrepare(c, s, v), PrepareQuorum(v.blockNum))
          else (WithPrepare(c, s, v), []);
        (r.0, r.1, [])
    case CommitVote(v) =>
      if !Current(c, v, verified) then (s, [], [])
      else
        var r := if Commits(c, s, v) then Deliver(c, WithCommit(c, s, v), CommitQuorum(v.blockNum))
          else (WithCommit(c, s, v), []);
        (r.0, r.1, [])
  }

  /** The answer to a repeated PrePrepare. */
  function Resend(c: Setting, s: Node, k: nat): seq<Output>
    requires Sound(c) && k in s.core.accepted
  {
    var vote := SignedVote(c, k, Digest(s.core.accepted[k]));
    [To(Primary(c), PrepareVote(vote))] + (if k in s.core.prepared then [To(Primary(c), CommitVote(vote))] else [])
  }

  /** The event the core is given by a message is one it can handle. */
  predicate CanAdmit(c: Setting, s: Node, m: Message, verified: bool)
    requires Sound(c)
  {
    match m
    case Request(command) => CanHandle(c, s.core, Event.Request(command))
    case PrePrepare(_, _, _, _) => true
    case PrepareVote(v) =>
      Current(c, v, verified) && Prepares(c, s, v) ==> CanHandle(c, s.core, PrepareQuorum(v.blockNum))
    case CommitVote(v) =>
      Current(c, v, verified) && Commits(c, s, v) ==> CanHandle(c, s.core, CommitQuorum(v.blockNum))
  }

  /** src/pbft/mod.rs:348-604 */
  function Receive(c: Setting, s: Node, m: Message, verified: bool): Outcome
    requires Sound(c)
  {
    if !CanAdmit(c, s, m, verified) then Panic
    else
      var a := Admit(c, s, m, verified);
      match Drain(c, a.0, a.1)
      case Panic => Panic
      case Done(node, outputs, turns) => Done(node, a.2 + outputs, turns)
  }

  // ---- the timer ----

  /** What the timer sends again of the blocks from `k` to `last`; None if a block is not there. */
  function Retransmit(c: Setting, s: Core, k: nat, last: nat): Option<seq<Output>>
    decreases last + 1 - k
  {
    if k > last then Some([])
    else if IsCommitted(s, k) then Retransmit(c, s, k + 1, last)
    else if k !in s.accepted then None
    else
      match Retransmit(c, s, k + 1, last)
      case None => None
      case Some(more) => Some([ToAll(PrePrepare(c.viewNum, k, Digest(s.accepted[k]), s.accepted[k]))] + more)
  }

  /** src/pbft/mod.rs:640-663; `ticked` is what had been proposed at the tick before. */
  function Tick(c: Setting, s: Core, ticked: nat): Option<seq<Output>>
    requires Sound(c)
  {
    if IsPrimary(c) then Retransmit(c, s, s.finalizeNum + 1, ticked) else Some([])
  }
}
