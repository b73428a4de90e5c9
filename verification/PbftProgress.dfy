/**
 Lost messages are made up for: a tick at the primary, delivery of what it sends and
 delivery of the answers bring the primary the Prepares and Commits it is lacking.
 */
module PbftProgress {
  import opened Commands
  import opened PbftCore
  import opened PbftNode
  import opened PbftInvariant
  import PbftOutcome
  import opened PbftSystem
  import opened PbftAgreement
  import opened PbftQuiescence
  import PbftAnnouncements
  import Quorums

  // ---- one call ----

  /** The message goes to this replica, alone or with all others. */
  predicate GoesTo(outputs: seq<Output>, r: ReplicaId, m: Message) {
    ToAll(m) in outputs || To(r, m) in outputs
  }

  /** Accepted for the first time or once more, a proposal is answered with a Prepare. */
  lemma ProposalIsAnswered(c: Setting, s: Node, k: nat, block: seq<Command>)
    requires Sound(c) && Settled(c, s) && !IsPrimary(c)
    requires k in s.core.accepted ==> s.core.accepted[k] == block
    ensures var r := Receive(c, s, PrePrepare(c.viewNum, k, Digest(block), block), true);
      && r.Done? && GoesTo(r.outputs, Primary(c), PrepareVote(SignedVote(c, k, Digest(block))))
      && (k in s.core.prepared ==> GoesTo(r.outputs, Primary(c), CommitVote(SignedVote(c, k, Digest(block)))))
  {
    hide Settled, PbftAnnouncements.Announced, Receive;
    var m := PrePrepare(c.viewNum, k, Digest(block), block);
    PbftAnnouncements.PreparedIsAccepted(c, s);
    if k in s.core.accepted {
      RepeatAnswer(c, s, k, Digest(block), block, true);
    } else {
      PbftAnnouncements.ReceiveAnnounces(c, s, m, true);
      var r := Receive(c, s, m, true);
      assert PbftAnnouncements.Announced(c, s.core, [], r.node.core, r.outputs, k);
      ProposalIsAccepted(c, s, k, block);
      NewIsAnnounced(c, s.core, r.node.core, r.outputs, k);
    }
  }

  lemma NewIsAnnounced(c: Setting, s: Core, s': Core, outputs: seq<Output>, k: nat)
    requires Sound(c) && !IsPrimary(c) && PbftAnnouncements.Announced(c, s, [], s', outputs, k)
    requires k in s'.accepted && k !in s.accepted
    ensures ToAll(PrepareVote(SignedVote(c, k, Digest(s'.accepted[k])))) in outputs
  {
  }

  lemma ProposalIsAccepted(c: Setting, s: Node, k: nat, block: seq<Command>)
    requires Sound(c) && Settled(c, s) && !IsPrimary(c) && k !in s.core.accepted
    ensures var r := Receive(c, s, PrePrepare(c.viewNum, k, Digest(block), block), true);
      r.Done? && k in r.node.core.accepted && r.node.core.accepted[k] == block
  {
    hide Settled;
    var m := PrePrepare(c.viewNum, k, Digest(block), block);
    ReceiveKeeps(c, s, m, true);
    DrainGrows(c, Admit(c, s, m, true).0, Admit(c, s, m, true).1);
  }

  lemma {:induction false} DrainGrows(c: Setting, s: Node, queue: seq<Action>)
    requires Sound(c) && Drain(c, s, queue).Done?
    ensures var s' := Drain(c, s, queue).node;
      forall k :: k in s.core.accepted ==> k in s'.core.accepted && s'.core.accepted[k] == s.core.accepted[k]
    decreases Distance(c, queue).0, Distance(c, queue).1, Distance(c, queue).2, Distance(c, queue).3
  {
    hide Perform, CanPerform;
    if queue != [] {
      var r := Perform(c, s, queue[0]);
      PerformGetsCloser(c, s, queue);
      PbftAnnouncements.PerformExtends(c, s, queue[0]);
      DrainGrows(c, r.0, queue[1..] + r.1);
    }
  }

  // ---- what is delivered is held ----

  lemma BlocksAreNumbered(w: World, s: System, p: ReplicaId, i: ReplicaId, k: nat)
    requires Led(w, s, p) && i in s.members && k in s.members[i].node.core.accepted
    ensures k in s.members[p].node.core.accepted && k >= 1
  {
    hide Settled;
    BlockOfPrimary(w, s, p, i, k);
    PrimaryWindow(w, s, p);
  }

  /** A vote on a block that is there is kept, and so is one that comes early at a backup. */
  lemma VoteIsKept(c: Setting, s: Node, v: Vote, commit: bool)
    requires Sound(c) && v.viewNum == c.viewNum && v.blockNum >= 1
    requires IsPrimary(c) ==> v.blockNum in s.core.accepted
    ensures var r := Receive(c, s, if commit then CommitVote(v) else PrepareVote(v), true);
      r.Done? ==> if commit then v in r.node.commits else v in r.node.prepares
  {
    var m := if commit then CommitVote(v) else PrepareVote(v);
    var r := Receive(c, s, m, true);
    if r.Done? {
      DrainKeepsVotes(c, Admit(c, s, m, true).0, Admit(c, s, m, true).1);
    }
  }

  /** Whatever an honest replica sent is held by the replica it is delivered to. */
  lemma DeliveryIsHeld(w: World, s: System, s': System, p: ReplicaId, i: ReplicaId, m: Message)
    requires Led(w, s, p) && m in s.sent && ReceiveStep(w, s, s', i, PbftOutcome.Arrival(m, true))
    ensures i in s'.members && Holds(s'.members[i].node, i, m)
  {
    hide Receive, Settled, Deliverable;
    assert MessageOk(w, s, m);
    var j :| SentBy(w, s, m, j);
    PrimaryIs(w, s, p, i);
    PrimaryIs(w, s, p, j);
    match m
    case Request(_) =>
    case PrePrepare(_, k, digest, commands) =>
      HeldProposal(w, s, s', p, i, k, commands);
    case PrepareVote(v) =>
      BlocksAreNumbered(w, s, p, j, v.blockNum);
      VoteIsKept(w.settings[i], s.members[i].node, v, false);
    case CommitVote(v) =>
      BlocksAreNumbered(w, s, p, j, v.blockNum);
      VoteIsKept(w.settings[i], s.members[i].node, v, true);
  }

  lemma HeldProposal(w: World, s: System, s': System, p: ReplicaId, i: ReplicaId, k: nat, block: seq<Command>)
    requires Led(w, s, p) && k in s.members[p].node.core.accepted && s.members[p].node.core.accepted[k] == block
    requires ReceiveStep(w, s, s', i, PbftOutcome.Arrival(PrePrepare(w.viewNum, k, Digest(block), block), true))
    ensures k in s'.members[i].node.core.accepted
  {
    hide Receive, Settled, Deliverable;
    PrimaryIs(w, s, p, i);
    PrimaryIs(w, s, p, p);
    StepGrows(w, s, s', i);
    assert MemberOk(w, s, i);
    if k !in s.members[i].node.core.accepted {
      ProposalIsAccepted(w.settings[i], s.members[i].node, k, block);
    }
  }

  // ---- over a run ----

  lemma StepGrows(w: World, s: System, s': System, i: ReplicaId)
    requires WorldOk(w) && Inv(w, s) && Next(w, s, s') && i in s.members
    ensures i in s'.members && Grows(s.members[i].node, s'.members[i].node) && s.sent <= s'.sent
  {
    hide Receive, Settled, Admissible, Deliverable, Tick;
    if j, a :| ReceiveStep(w, s, s', j, a) {
      assert MemberOk(w, s, j);
      DeliverableIsAdmissible(w, s, j, a);
      ReceiveKeeps(w.settings[j], s.members[j].node, a.message, a.verified);
    }
  }

  lemma {:induction false} RunGrows(w: World, run: seq<System>, i: ReplicaId, x: nat, y: nat)
    requires WorldOk(w) && IsRun(w, run) && x <= y < |run| && i in run[x].members
    ensures i in run[y].members && Grows(run[x].members[i].node, run[y].members[i].node) && run[x].sent <= run[y].sent
    decreases y - x
  {
    hide Inv, Starts, ReceiveStep, TickStep, Grows;
    if x == y {
      GrowsStays(run[x].members[i].node);
    } else {
      RunGrows(w, run, i, x, y - 1);
      RunKeepsInv(w, run, y - 1);
      assert StepAt(w, run, y - 1);
      StepGrows(w, run[y - 1], run[y], i);
      GrowsOn(run[x].members[i].node, run[y - 1].members[i].node, run[y].members[i].node);
    }
  }

  lemma GrowsStays(s: Node)
    ensures Grows(s, s)
  {
  }

  lemma GrowsOn(a: Node, b: Node, c: Node)
    requires Grows(a, b) && Grows(b, c)
    ensures Grows(a, c)
  {
  }

  /** At step `x` of the run this message, sent before, is handed to replica `i`. */
  ghost predicate HandedOver(w: World, run: seq<System>, x: nat, i: ReplicaId, m: Message)
    requires WorldOk(w)
  {
    x + 1 < |run| && m in run[x].sent && ReceiveStep(w, run[x], run[x + 1], i, PbftOutcome.Arrival(m, true))
  }

  lemma LedAt(w: World, run: seq<System>, x: nat, p: ReplicaId)
    requires WorldOk(w) && IsRun(w, run) && x < |run| && p in run[x].members && p == w.viewNum % w.cfg.n
    ensures Led(w, run[x], p)
  {
    RunOwes(w, run, x);
  }

  /** What has been handed over once is held from then on. */
  lemma HandedOverIsHeld(w: World, run: seq<System>, p: ReplicaId, x: nat, i: ReplicaId, m: Message, y: nat)
    requires WorldOk(w) && IsRun(w, run) && HandedOver(w, run, x, i, m) && x < y < |run|
    requires p in run[x].members && p == w.viewNum % w.cfg.n
    ensures i in run[y].members && Holds(run[y].members[i].node, i, m)
  {
    hide Led, IsRun, ReceiveStep;
    LedAt(w, run, x, p);
    DeliveryIsHeld(w, run[x], run[x + 1], p, i, m);
    MembersStay(w, run, x, x + 1, i);
    RunGrows(w, run, i, x + 1, y);
  }

  lemma MembersStay(w: World, run: seq<System>, x: nat, y: nat, i: ReplicaId)
    requires WorldOk(w) && IsRun(w, run) && x < |run| && y < |run|
    ensures i in run[x].members <==> i in run[y].members
  {
    RunKeepsInv(w, run, x);
    RunKeepsInv(w, run, y);
  }

  /** Once every message has been handed over to every honest replica, everything is held. */
  lemma HandedOverToAll(w: World, run: seq<System>, p: ReplicaId)
    requires WorldOk(w) && IsRun(w, run) && p in Last(run).members && p == w.viewNum % w.cfg.n
    requires forall i, m :: i in Last(run).members && m in Last(run).sent ==> exists x: nat ::
      HandedOver(w, run, x, i, m)
    ensures AllDelivered(Last(run))
  {
    hide HandedOver;
    forall i, m | i in Last(run).members && m in Last(run).sent ensures Holds(Last(run).members[i].node, i, m) {
      var x: nat :| HandedOver(w, run, x, i, m);
      assert x + 1 < |run| by { HandedOverInRun(w, run, x, i, m); }
      MembersStay(w, run, x, |run| - 1, p);
      HandedOverIsHeld(w, run, p, x, i, m, |run| - 1);
    }
  }

  lemma HandedOverInRun(w: World, run: seq<System>, x: nat, i: ReplicaId, m: Message)
    requires WorldOk(w) && HandedOver(w, run, x, i, m)
    ensures x + 1 < |run|
  {
  }

  // ---- a tick and its answers ----

  /** The block the primary proposed under this number, as it stands in state `x` of the run. */
  ghost predicate ProposedAt(run: seq<System>, x: nat, p: ReplicaId, k: nat, block: seq<Command>) {
    && x < |run| && p in run[x].members
    && k in run[x].members[p].node.core.accepted && run[x].members[p].node.core.accepted[k] == block
  }

  ghost predicate TicksAt(w: World, run: seq<System>, t: nat, p: ReplicaId)
    requires WorldOk(w)
  {
    t + 1 < |run| && TickStep(w, run[t], run[t + 1], p)
  }

  /** What a tick at this replica sends. */
  ghost function Ticking(w: World, s: System, p: ReplicaId): seq<Output> {
    if p in s.members && p in w.settings && Sound(w.settings[p]) then
      match Tick(w.settings[p], s.members[p].node.core, s.members[p].ticked)
      case Some(sent) => sent
      case None => []
    else []
  }

  /** The primary lacks the commit of a block that it had proposed by the tick before. */
  ghost predicate Lacks(m: Member, k: nat) {
    m.node.core.finalizeNum < k <= m.ticked && !IsCommitted(m.node.core, k)
  }

  /** A tick at the primary sends every such proposal again. */
  lemma TickAsksAgain(w: World, run: seq<System>, t: nat, p: ReplicaId, k: nat)
    requires WorldOk(w) && IsRun(w, run) && TicksAt(w, run, t, p) && p == w.viewNum % w.cfg.n
    requires Lacks(run[t].members[p], k)
    ensures k in run[t].members[p].node.core.accepted
    ensures var block := run[t].members[p].node.core.accepted[k];
      var proposal := PrePrepare(w.viewNum, k, Digest(block), block);
      ToAll(proposal) in Ticking(w, run[t], p) && proposal in run[t + 1].sent
  {
    hide Settled, IsRun, Inv, AllOwe, Honest;
    LedAt(w, run, t, p);
    var s := run[t];
    PrimaryIs(w, s, p, p);
    SettledMember(w, s, p);
    var c, m := w.settings[p], s.members[p];
    TickSends(c, m.node, m.ticked);
    var sent := Tick(c, m.node.core, m.ticked).value;
    assert Waits(m.node.core, k, m.node.core.finalizeNum + 1, m.ticked);
    SentIn(sent, PrePrepare(c.viewNum, k, Digest(m.node.core.accepted[k]), m.node.core.accepted[k]));
  }

  lemma SettledMember(w: World, s: System, i: ReplicaId)
    requires Inv(w, s) && i in s.members
    ensures i in w.settings && Sound(w.settings[i]) && Settled(w.settings[i], s.members[i].node)
    ensures s.members[i].ticked <= s.members[i].node.core.proposeNum
  {
    assert MemberOk(w, s, i);
  }

  function VoteOf(w: World, k: nat, block: seq<Command>, r: ReplicaId): Vote {
    Vote(w.viewNum, k, Digest(block), r)
  }

  /** Whichever honest replica the proposal is handed to, its answer goes to the primary. */
  lemma HandedProposalIsAnswered(w: World, run: seq<System>, x: nat, p: ReplicaId, k: nat, block: seq<Command>,
      r: ReplicaId)
    requires WorldOk(w) && IsRun(w, run) && ProposedAt(run, x, p, k, block) && p == w.viewNum % w.cfg.n && r != p
    requires HandedOver(w, run, x, r, PrePrepare(w.viewNum, k, Digest(block), block))
    ensures r in w.settings && Sound(w.settings[r]) && r in run[x].members
    ensures var answer := Receive(w.settings[r], run[x].members[r].node,
                                  PrePrepare(w.viewNum, k, Digest(block), block), true);
      && answer.Done? && GoesTo(answer.outputs, p, PrepareVote(VoteOf(w, k, block, r)))
      && (k in run[x].members[r].node.core.prepared ==>
            GoesTo(answer.outputs, p, CommitVote(VoteOf(w, k, block, r))))
  {
    hide Settled, IsRun, Inv, AllOwe, Receive, Deliverable;
    LedAt(w, run, x, p);
    PrimaryIs(w, run[x], p, r);
    SettledMember(w, run[x], r);
    if k in run[x].members[r].node.core.accepted {
      BlockOfPrimary(w, run[x], p, r, k);
    }
    ProposalIsAnswered(w.settings[r], run[x].members[r].node, k, block);
  }

  /** After the tick the proposal reaches replica `r`, and later its Prepare reaches the primary. */
  ghost predicate PrepareRoundTrip(w: World, run: seq<System>, t: nat, p: ReplicaId, k: nat, block: seq<Command>,
      r: ReplicaId)
    requires WorldOk(w)
  {
    exists x: nat, y: nat :: t < x < y
      && HandedOver(w, run, x, r, PrePrepare(w.viewNum, k, Digest(block), block))
      && HandedOver(w, run, y, p, PrepareVote(VoteOf(w, k, block, r)))
  }

  /** The same for its Commit, which it answers with as it has formed the prepare quorum. */
  ghost predicate CommitRoundTrip(w: World, run: seq<System>, t: nat, p: ReplicaId, k: nat, block: seq<Command>,
      r: ReplicaId)
    requires WorldOk(w)
  {
    exists x: nat, y: nat :: t < x < y
      && HandedOver(w, run, x, r, PrePrepare(w.viewNum, k, Digest(block), block))
      && HandedOver(w, run, y, p, CommitVote(VoteOf(w, k, block, r)))
  }

  lemma BlockStays(w: World, run: seq<System>, t: nat, x: nat, p: ReplicaId, k: nat, block: seq<Command>)
    requires WorldOk(w) && IsRun(w, run) && ProposedAt(run, t, p, k, block) && t <= x < |run|
    ensures ProposedAt(run, x, p, k, block)
  {
    hide IsRun;
    RunGrows(w, run, p, t, x);
  }

  lemma PrepareCounts(w: World, run: seq<System>, t: nat, p: ReplicaId, k: nat, block: seq<Command>, r: ReplicaId)
    requires WorldOk(w) && IsRun(w, run) && p == w.viewNum % w.cfg.n && r != p
    requires ProposedAt(run, t, p, k, block) && PrepareRoundTrip(w, run, t, p, k, block, r)
    ensures ProposedAt(run, |run| - 1, p, k, block)
    ensures r in Voters(Last(run).members[p].node.prepares, k, Digest(block))
  {
    hide IsRun, HandedOver;
    var v := VoteOf(w, k, block, r);
    var x: nat, y: nat :| t < x < y && HandedOver(w, run, x, r, PrePrepare(w.viewNum, k, Digest(block), block))
      && HandedOver(w, run, y, p, PrepareVote(v));
    HandedOverInRun(w, run, y, p, PrepareVote(v));
    BlockStays(w, run, t, y, p, k, block);
    BlockStays(w, run, t, |run| - 1, p, k, block);
    HandedOverIsHeld(w, run, p, y, p, PrepareVote(v), |run| - 1);
    assert v in Last(run).members[p].node.prepares;
  }

  lemma CommitCounts(w: World, run: seq<System>, t: nat, p: ReplicaId, k: nat, block: seq<Command>, r: ReplicaId)
    requires WorldOk(w) && IsRun(w, run) && p == w.viewNum % w.cfg.n && r != p
    requires ProposedAt(run, t, p, k, block) && CommitRoundTrip(w, run, t, p, k, block, r)
    ensures ProposedAt(run, |run| - 1, p, k, block)
    ensures r in Voters(Last(run).members[p].node.commits, k, Digest(block))
  {
    hide IsRun, HandedOver;
    var v := VoteOf(w, k, block, r);
    var x: nat, y: nat :| t < x < y && HandedOver(w, run, x, r, PrePrepare(w.viewNum, k, Digest(block), block))
      && HandedOver(w, run, y, p, CommitVote(v));
    HandedOverInRun(w, run, y, p, CommitVote(v));
    BlockStays(w, run, t, y, p, k, block);
    BlockStays(w, run, t, |run| - 1, p, k, block);
    HandedOverIsHeld(w, run, p, y, p, CommitVote(v), |run| - 1);
    assert v in Last(run).members[p].node.commits;
  }

  /**
   Once the proposal that a tick sends again has made its round to n - f replicas, the
   primary among them, the primary has its Prepare quorum.
   */
  lemma TickBringsPrepares(w: World, run: seq<System>, t: nat, p: ReplicaId, k: nat, block: seq<Command>,
      q: set<ReplicaId>)
    requires WorldOk(w) && IsRun(w, run) && p == w.viewNum % w.cfg.n && ProposedAt(run, t, p, k, block)
    requires p in q && |q| >= w.cfg.n - w.cfg.f >= 2
    requires forall r :: r in q && r != p ==> PrepareRoundTrip(w, run, t, p, k, block, r)
    ensures p in Last(run).members && k in Last(run).members[p].node.core.prepared
  {
    hide IsRun, PrepareRoundTrip, Preparers, Settled;
    BlockStays(w, run, t, |run| - 1, p, k, block);
    LedAt(w, run, |run| - 1, p);
    PrimaryIs(w, Last(run), p, p);
    var c, node := w.settings[p], Last(run).members[p].node;
    forall r | r in q - {p} ensures r in Voters(node.prepares, k, Digest(block)) {
      PrepareCounts(w, run, t, p, k, block, r);
    }
    PreparersAre(c, node, k);
    Quorums.SubsetCount(q - {p}, Preparers(c, node, k));
    assert |q - {p}| == |q| - 1;
    SlotOfMember(w, Last(run), p, k);
  }

  lemma PreparersAre(c: Setting, s: Node, k: nat)
    requires Sound(c) && k in s.core.accepted
    ensures Voters(s.prepares, k, Digest(s.core.accepted[k])) <= Preparers(c, s, k)
  {
  }

  /** And once the Commits of as many have come the same way, the block is committed. */
  lemma TickBringsCommits(w: World, run: seq<System>, t: nat, p: ReplicaId, k: nat, block: seq<Command>,
      q: set<ReplicaId>)
    requires WorldOk(w) && IsRun(w, run) && p == w.viewNum % w.cfg.n && ProposedAt(run, t, p, k, block)
    requires p in q && |q| >= w.cfg.n - w.cfg.f >= 2
    requires forall r :: r in q && r != p ==> PrepareRoundTrip(w, run, t, p, k, block, r)
    requires forall r :: r in q && r != p ==> CommitRoundTrip(w, run, t, p, k, block, r)
    ensures p in Last(run).members && IsCommitted(Last(run).members[p].node.core, k)
  {
    hide IsRun, PrepareRoundTrip, CommitRoundTrip, Preparers, Settled;
    TickBringsPrepares(w, run, t, p, k, block, q);
    BlockStays(w, run, t, |run| - 1, p, k, block);
    LedAt(w, run, |run| - 1, p);
    PrimaryIs(w, Last(run), p, p);
    var c, node := w.settings[p], Last(run).members[p].node;
    forall r | r in q ensures r in Committers(c, node, k) {
      if r != p {
        CommitCounts(w, run, t, p, k, block, r);
      }
    }
    Quorums.SubsetCount(q, Committers(c, node, k));
    SlotOfMember(w, Last(run), p, k);
  }

  /** Every message that replica `r` sends the primary on the proposal it is handed at step `x` arrives later. */
  ghost predicate AnswersArrive(w: World, run: seq<System>, x: nat, p: ReplicaId, proposal: Message, r: ReplicaId)
    requires WorldOk(w) && x < |run| && r in run[x].members && r in w.settings && Sound(w.settings[r])
  {
    var answer := Receive(w.settings[r], run[x].members[r].node, proposal, true);
    answer.Done? ==> forall m :: GoesTo(answer.outputs, p, m) ==> exists y: nat :: x < y && HandedOver(w, run, y, p, m)
  }

  /** After step `t` the proposal is handed to replica `r`, and what it answers is handed to the primary. */
  ghost predicate AsksAndHears(w: World, run: seq<System>, t: nat, p: ReplicaId, proposal: Message, r: ReplicaId)
    requires WorldOk(w)
  {
    exists x: nat :: t < x && HandedOver(w, run, x, r, proposal) && AnswersArrive(w, run, x, p, proposal, r)
  }

  lemma AnswersAreRoundTrips(w: World, run: seq<System>, t: nat, p: ReplicaId, k: nat, block: seq<Command>,
      r: ReplicaId)
    requires WorldOk(w) && IsRun(w, run) && ProposedAt(run, t, p, k, block) && p == w.viewNum % w.cfg.n && r != p
    requires AsksAndHears(w, run, t, p, PrePrepare(w.viewNum, k, Digest(block), block), r)
    ensures PrepareRoundTrip(w, run, t, p, k, block, r) && r in run[t].members
    ensures k in run[t].members[r].node.core.prepared ==> CommitRoundTrip(w, run, t, p, k, block, r)
  {
    hide IsRun, GoesTo;
    var proposal := PrePrepare(w.viewNum, k, Digest(block), block);
    var x: nat :| t < x && HandedOver(w, run, x, r, proposal) && AnswersArrive(w, run, x, p, proposal, r);
    BlockStays(w, run, t, x, p, k, block);
    HandedProposalIsAnswered(w, run, x, p, k, block, r);
    MembersStay(w, run, t, x, r);
    RunGrows(w, run, r, t, x);
    var answer := Receive(w.settings[r], run[x].members[r].node, proposal, true);
    assert GoesTo(answer.outputs, p, PrepareVote(VoteOf(w, k, block, r)));
    var y: nat :| x < y && HandedOver(w, run, y, p, PrepareVote(VoteOf(w, k, block, r)));
    if k in run[t].members[r].node.core.prepared {
      assert GoesTo(answer.outputs, p, CommitVote(VoteOf(w, k, block, r)));
      var z: nat :| x < z && HandedOver(w, run, z, p, CommitVote(VoteOf(w, k, block, r)));
    }
  }

  /**
   Progress. The primary ticks and lacks the commit of a block. The tick sends the proposal
   again; when n - f honest replicas have been handed it and the primary has been handed
   what they answered, it has its Prepare quorum, and if they were prepared already the
   block is committed, whatever was lost before.
   */
  lemma TickMakesProgress(w: World, run: seq<System>, t: nat, p: ReplicaId, k: nat, q: set<ReplicaId>)
    requires WorldOk(w) && IsRun(w, run) && TicksAt(w, run, t, p) && p == w.viewNum % w.cfg.n
    requires Lacks(run[t].members[p], k) && p in q && |q| >= w.cfg.n - w.cfg.f >= 2
    ensures k in run[t].members[p].node.core.accepted
    ensures var block := run[t].members[p].node.core.accepted[k];
      var proposal := PrePrepare(w.viewNum, k, Digest(block), block);
      && ToAll(proposal) in Ticking(w, run[t], p)
      && p in Last(run).members
      && ((forall r :: r in q && r != p ==> AsksAndHears(w, run, t, p, proposal, r)) ==>
            && k in Last(run).members[p].node.core.prepared
            && ((forall r :: r in q && r != p && r in run[t].members ==> k in run[t].members[r].node.core.prepared) ==>
                  IsCommitted(Last(run).members[p].node.core, k)))
  {
    hide IsRun, Lacks, AsksAndHears, PrepareRoundTrip, CommitRoundTrip;
    TickAsksAgain(w, run, t, p, k);
    MembersStay(w, run, t, |run| - 1, p);
    var block := run[t].members[p].node.core.accepted[k];
    var proposal := PrePrepare(w.viewNum, k, Digest(block), block);
    if forall r :: r in q && r != p ==> AsksAndHears(w, run, t, p, proposal, r) {
      forall r | r in q && r != p
        ensures PrepareRoundTrip(w, run, t, p, k, block, r) && r in run[t].members
        ensures k in run[t].members[r].node.core.prepared ==> CommitRoundTrip(w, run, t, p, k, block, r)
      {
        AnswersAreRoundTrips(w, run, t, p, k, block, r);
      }
      TickBringsPrepares(w, run, t, p, k, block, q);
      if forall r :: r in q && r != p && r in run[t].members ==> k in run[t].members[r].node.core.prepared {
        TickBringsCommits(w, run, t, p, k, block, q);
      }
    }
  }
}
