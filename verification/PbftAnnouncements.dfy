/**
 What a PBFT replica owes the others: every block it accepts and every quorum it forms
 is announced in the same call.
 */
module PbftAnnouncements {
  import opened Commands
  import opened PbftCore
  import opened PbftNode
  import opened PbftInvariant

  function PrepareFor(c: Setting, k: nat, commands: seq<Command>): Output {
    ToAll(PrepareVote(SignedVote(c, k, Digest(commands))))
  }

  function CommitFor(c: Setting, k: nat, commands: seq<Command>): Output {
    ToAll(CommitVote(SignedVote(c, k, Digest(commands))))
  }

  /** Queued Prepares are for the block that was accepted. */
  ghost predicate Sensible(s: Core, queue: seq<Action>) {
    forall a :: a in queue && a.Prepare? ==> a.num in s.accepted && a.digest == Digest(s.accepted[a.num])
  }

  ghost predicate Extends(s: Core, s': Core) {
    && s.accepted.Keys <= s'.accepted.Keys
    && (forall k :: k in s.accepted ==> s'.accepted[k] == s.accepted[k])
    && s.prepared <= s'.prepared
  }

  /** The block numbered `k` is new since `s`, or about to be looked at. */
  ghost predicate NewBlock(s: Core, queue: seq<Action>, s': Core, k: nat) {
    k in s'.accepted && (k !in s.accepted || exists a :: a in queue && a.Prepare? && a.num == k)
  }

  ghost predicate NewQuorum(s: Core, queue: seq<Action>, s': Core, k: nat) {
    k in s'.prepared && k in s'.accepted && (k !in s.prepared || Commit(k) in queue)
  }

  /** What is new about `k` is in the outputs. */
  ghost predicate Announced(c: Setting, s: Core, queue: seq<Action>, s': Core, outputs: seq<Output>, k: nat)
    requires Sound(c)
  {
    && (NewBlock(s, queue, s', k) ==>
          (if IsPrimary(c) then ProposalFor(c, k, s'.accepted[k]) in outputs || k in s.accepted
           else PrepareFor(c, k, s'.accepted[k]) in outputs))
    && (NewQuorum(s, queue, s', k) ==> CommitFor(c, k, s'.accepted[k]) in outputs)
  }

  ghost predicate AllAnnounced(c: Setting, s: Core, queue: seq<Action>, s': Core, outputs: seq<Output>)
    requires Sound(c)
  {
    forall k {:trigger Announced(c, s, queue, s', outputs, k)} :: Announced(c, s, queue, s', outputs, k)
  }

  /** Prepared numbers have blocks, and Commits are queued for those. */
  ghost predicate Backed(s: Core, queue: seq<Action>) {
    s.prepared <= s.accepted.Keys && forall a :: a in queue && a.Commit? ==> a.num in s.accepted
  }

  lemma PerformExtends(c: Setting, s: Node, a: Action)
    requires Sound(c) && CanPerform(c, s, a)
    ensures Extends(s.core, Perform(c, s, a).0.core)
  {
  }

  /** One action asks for whatever its own change calls for. */
  lemma PerformAsks(c: Setting, s: Node, a: Action)
    requires Sound(c) && CanPerform(c, s, a)
    ensures var r := Perform(c, s, a);
      && (forall k :: k in r.0.core.accepted && k !in s.core.accepted ==>
            a.Propose? && a.num == k && r.0.core.accepted[k] == a.commands
              && (IsPrimary(c) || Prepare(k, Digest(a.commands)) in r.1))
      && (forall k :: k in r.0.core.prepared && k !in s.core.prepared ==> Commit(k) in r.1 && k in s.core.accepted)
      && (forall b :: b in r.1 && b.Prepare? ==>
           b.num in r.0.core.accepted && b.digest == Digest(r.0.core.accepted[b.num]))
      && (forall b :: b in r.1 && b.Commit? ==> b.num in r.0.core.accepted)
  {
  }

  lemma StepAnnounces(c: Setting, s: Node, queue: seq<Action>, k: nat, out: Outcome)
    requires Sound(c) && queue != [] && CanPerform(c, s, queue[0]) && out.Done?
    requires Sensible(s.core, queue) && Backed(s.core, queue)
    requires var r := Perform(c, s, queue[0]);
      Extends(r.0.core, out.node.core) && Announced(c, r.0.core, queue[1..] + r.1, out.node.core, out.outputs, k)
    ensures Announced(c, s.core, queue, out.node.core, Perform(c, s, queue[0]).2 + out.outputs, k)
  {
    hide Perform, CanPerform;
    var a, r, s' := queue[0], Perform(c, s, queue[0]), out.node.core;
    var later := queue[1..] + r.1;
    PerformAsks(c, s, a);
    PerformExtends(c, s, a);
    PerformSends(c, s, a);
    assert queue == [a] + queue[1..];
    assert a in queue;
  }

  lemma PerformSends(c: Setting, s: Node, a: Action)
    requires Sound(c) && CanPerform(c, s, a)
    ensures var sent := Perform(c, s, a).2;
      match a
      case Propose(k, commands) => ProposalFor(c, k, commands) in sent
      case Prepare(k, digest) => ToAll(PrepareVote(SignedVote(c, k, digest))) in sent
      case Commit(k) => k in s.core.accepted && CommitFor(c, k, s.core.accepted[k]) in sent
      case Finalize(k) => k in s.core.accepted && Execute(s.core.accepted[k]) in sent
      case Forward(to, command) => To(to, Message.Request(command)) in sent
  {
  }

  lemma {:induction false} DrainAnnounces(c: Setting, s: Node, queue: seq<Action>)
    requires Sound(c) && Drain(c, s, queue).Done? && Sensible(s.core, queue) && Backed(s.core, queue)
    ensures var out := Drain(c, s, queue);
      Extends(s.core, out.node.core) && AllAnnounced(c, s.core, queue, out.node.core, out.outputs)
    decreases Distance(c, queue).0, Distance(c, queue).1, Distance(c, queue).2, Distance(c, queue).3
  {
    hide Perform, CanPerform, Announced;
    if queue == [] {
      NothingNew(c, s.core);
    } else {
      var r := Perform(c, s, queue[0]);
      PerformGetsCloser(c, s, queue);
      PerformExtends(c, s, queue[0]);
      PerformAsks(c, s, queue[0]);
      DrainAnnounces(c, r.0, queue[1..] + r.1);
      var out := Drain(c, r.0, queue[1..] + r.1);
      forall k ensures Announced(c, s.core, queue, out.node.core, r.2 + out.outputs, k) {
        assert Announced(c, r.0.core, queue[1..] + r.1, out.node.core, out.outputs, k);
        StepAnnounces(c, s, queue, k, out);
      }
    }
  }

  lemma NothingNew(c: Setting, s: Core)
    requires Sound(c)
    ensures AllAnnounced(c, s, [], s, [])
  {
  }

  lemma AdmitAsks(c: Setting, s: Node, m: Message, verified: bool)
    requires Sound(c) && s.core.prepared <= s.core.accepted.Keys
    requires CanAdmit(c, s, m, verified) && Admissible(c, s, m, verified)
    ensures var a := Admit(c, s, m, verified);
      && Extends(s.core, a.0.core) && Sensible(a.0.core, a.1) && Backed(a.0.core, a.1)
      && (forall k :: k in a.0.core.accepted && k !in s.core.accepted ==>
            !IsPrimary(c) && Prepare(k, Digest(a.0.core.accepted[k])) in a.1)
      && (forall k :: k in a.0.core.prepared && k !in s.core.prepared ==> Commit(k) in a.1)
      && (m.Request? && !IsPrimary(c) ==> a.1 == [Forward(Primary(c), m.command)])
  {
  }

  lemma PreparedIsAccepted(c: Setting, s: Node)
    requires Sound(c) && Settled(c, s)
    ensures s.core.prepared <= s.core.accepted.Keys
  {
    forall k | k in s.core.prepared ensures k in s.core.accepted {
      assert SlotOk(c, s, k);
    }
  }

  lemma AdmittedIsNew(c: Setting, s: Core, s1: Core, queue: seq<Action>, s': Core, replies: seq<Output>,
      outputs: seq<Output>, k: nat)
    requires Sound(c) && Extends(s, s1) && Extends(s1, s') && Announced(c, s1, queue, s', outputs, k)
    requires k in s1.accepted && k !in s.accepted ==> !IsPrimary(c) && Prepare(k, Digest(s1.accepted[k])) in queue
    requires k in s1.prepared && k !in s.prepared ==> Commit(k) in queue
    ensures Announced(c, s, [], s', replies + outputs, k)
  {
  }

  /**
   One call announces all it changes: a new block by the primary's PrePrepare or a backup's
   Prepare, a new prepare quorum by a Commit; a backup passes requests on to the primary.
   */
  lemma ReceiveAnnounces(c: Setting, s: Node, m: Message, verified: bool)
    requires Sound(c) && Settled(c, s) && Admissible(c, s, m, verified)
    ensures Receive(c, s, m, verified).Done?
    ensures var r := Receive(c, s, m, verified);
      && AllAnnounced(c, s.core, [], r.node.core, r.outputs)
      && (m.Request? && !IsPrimary(c) ==> To(Primary(c), m) in r.outputs)
  {
    hide Announced, Settled, Admit, CanAdmit, Drain, Extends, Sensible, Backed, Admissible, Reaches;
    ReceiveIsDone(c, s, m, verified);
    PreparedIsAccepted(c, s);
    AdmitAsks(c, s, m, verified);
    var a, r := Admit(c, s, m, verified), Receive(c, s, m, verified);
    DrainAnnounces(c, a.0, a.1);
    var out := Drain(c, a.0, a.1);
    forall k ensures Announced(c, s.core, [], r.node.core, r.outputs, k) {
      assert Announced(c, a.0.core, a.1, out.node.core, out.outputs, k);
      AdmittedIsNew(c, s.core, a.0.core, a.1, out.node.core, a.2, out.outputs, k);
    }
    if m.Request? && !IsPrimary(c) {
      ForwardGoesOut(c, a.0, m.command);
      assert To(Primary(c), m) in out.outputs;
    }
  }

  lemma ReceiveIsDone(c: Setting, s: Node, m: Message, verified: bool)
    requires Sound(c) && Settled(c, s) && Admissible(c, s, m, verified)
    ensures Receive(c, s, m, verified).Done? && CanAdmit(c, s, m, verified)
    ensures var a := Admit(c, s, m, verified); Drain(c, a.0, a.1).Done?
  {
    ReceiveKeeps(c, s, m, verified);
  }

  lemma ForwardGoesOut(c: Setting, s: Node, command: Command)
    requires Sound(c) && Drain(c, s, [Forward(Primary(c), command)]).Done?
    ensures To(Primary(c), Message.Request(command)) in Drain(c, s, [Forward(Primary(c), command)]).outputs
  {
  }
}
