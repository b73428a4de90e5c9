/**
 When everything an honest replica sent has arrived everywhere, an honest primary's
 proposals are all final at every honest replica, and its pool is empty.
 */
module PbftQuiescence {
  import opened Commands
  import opened PbftCore
  import opened PbftNode
  import opened PbftInvariant
  import opened PbftOutcome
  import opened PbftSystem
  import opened PbftAgreement
  import PbftAnnouncements
  import Quorums

  // ---- what every run keeps: blocks and quorums are announced, and blocks come from the primary ----

  ghost predicate BlockAnnounced(c: Setting, s: Node, sent: set<Message>, k: nat)
    requires Sound(c)
  {
    k in s.core.accepted ==>
      var digest := Digest(s.core.accepted[k]);
      if IsPrimary(c) then PrePrepare(c.viewNum, k, digest, s.core.accepted[k]) in sent
      else PrepareVote(SignedVote(c, k, digest)) in sent
  }

  ghost predicate QuorumAnnounced(c: Setting, s: Node, sent: set<Message>, k: nat) {
    k in s.core.prepared && k in s.core.accepted ==>
      CommitVote(SignedVote(c, k, Digest(s.core.accepted[k]))) in sent
  }

  /** A backup's block carries the primary's signature. */
  ghost predicate FromPrimary(w: World, s: System, c: Setting, node: Node, k: nat)
    requires Sound(c) && w.cfg.n > 0
  {
    k in node.core.accepted && !IsPrimary(c) ==> Proposed(w, s, w.viewNum, k, Digest(node.core.accepted[k]))
  }

  ghost predicate Owes(w: World, s: System, i: ReplicaId)
    requires w.cfg.n > 0
  {
    i in s.members && i in w.settings && Sound(w.settings[i]) ==>
      var c, node := w.settings[i], s.members[i].node;
      && (forall k {:trigger BlockAnnounced(c, node, s.sent, k)} :: BlockAnnounced(c, node, s.sent, k))
      && (forall k {:trigger QuorumAnnounced(c, node, s.sent, k)} :: QuorumAnnounced(c, node, s.sent, k))
      && (forall k {:trigger FromPrimary(w, s, c, node, k)} :: FromPrimary(w, s, c, node, k))
  }

  ghost predicate AllOwe(w: World, s: System)
    requires w.cfg.n > 0
  {
    forall i {:trigger Owes(w, s, i)} :: Owes(w, s, i)
  }

  /** Whoever does not move owes nothing new, and what was sent stays sent. */
  lemma OwesStays(w: World, s: System, s': System, i: ReplicaId)
    requires w.cfg.n > 0 && Owes(w, s, i) && s.sent <= s'.sent
    requires i in s'.members ==> i in s.members && s'.members[i].node == s.members[i].node
    ensures Owes(w, s', i)
  {
    if i in s'.members && i in w.settings && Sound(w.settings[i]) {
      var c, node := w.settings[i], s.members[i].node;
      forall k ensures BlockAnnounced(c, node, s'.sent, k) && QuorumAnnounced(c, node, s'.sent, k)
        && FromPrimary(w, s', c, node, k) {
        assert BlockAnnounced(c, node, s.sent, k) && QuorumAnnounced(c, node, s.sent, k)
          && FromPrimary(w, s, c, node, k);
      }
    }
  }

  lemma SentIn(outputs: seq<Output>, m: Message)
    requires ToAll(m) in outputs
    ensures m in MessagesOf(outputs)
  {
    assert MessageOf(ToAll(m)) == Some(m);
  }

  /** One call at one replica: all it changed is announced. */
  lemma CallAnnounces(c: Setting, s: Node, m: Message, verified: bool, sent: set<Message>, k: nat)
    requires Sound(c) && Settled(c, s) && Admissible(c, s, m, verified)
    requires BlockAnnounced(c, s, sent, k) && QuorumAnnounced(c, s, sent, k)
    ensures var r := Receive(c, s, m, verified);
      && r.Done?
      && BlockAnnounced(c, r.node, sent + MessagesOf(r.outputs), k)
      && QuorumAnnounced(c, r.node, sent + MessagesOf(r.outputs), k)
  {
    hide Receive, Settled, Admissible;
    PbftAnnouncements.ReceiveAnnounces(c, s, m, verified);
    PbftAnnouncements.PreparedIsAccepted(c, s);
    ReceiveKeeps(c, s, m, verified);
    var r := Receive(c, s, m, verified);
    assert PbftAnnouncements.Announced(c, s.core, [], r.node.core, r.outputs, k);
    forall x | ToAll(x) in r.outputs ensures x in MessagesOf(r.outputs) {
      SentIn(r.outputs, x);
    }
  }

  /** Only a signed PrePrepare brings a backup a block. */
  lemma CallAccepts(c: Setting, s: Node, a: Arrival, k: nat)
    requires Sound(c) && !IsPrimary(c) && Receive(c, s, a.message, a.verified).Done?
    ensures var s' := Receive(c, s, a.message, a.verified).node.core;
      k in s'.accepted && k !in s.core.accepted ==> Proposes(c, a, k) && s'.accepted[k] == a.message.commands
  {
    ReceiveLogs(c, s, a);
  }

  lemma ReceiveOwes(w: World, s: System, s': System, i: ReplicaId, a: Arrival)
    requires WorldOk(w) && Inv(w, s) && AllOwe(w, s) && ReceiveStep(w, s, s', i, a)
    ensures Owes(w, s', i)
  {
    hide Receive, Settled, Admissible, BlockAnnounced, QuorumAnnounced;
    assert MemberOk(w, s, i) && Owes(w, s, i) && SettingOk(w, i);
    var c, node := w.settings[i], s.members[i].node;
    DeliverableIsAdmissible(w, s, i, a);
    ReceiveKeeps(c, node, a.message, a.verified);
    var r := Receive(c, node, a.message, a.verified);
    forall k ensures BlockAnnounced(c, r.node, s'.sent, k) && QuorumAnnounced(c, r.node, s'.sent, k)
      && FromPrimary(w, s', c, r.node, k) {
      assert BlockAnnounced(c, node, s.sent, k) && QuorumAnnounced(c, node, s.sent, k) && FromPrimary(w, s, c, node, k);
      CallAnnounces(c, node, a.message, a.verified, s.sent, k);
      if !IsPrimary(c) && k in r.node.core.accepted && k !in node.core.accepted {
        CallAccepts(c, node, a, k);
      }
    }
  }

  lemma {:induction false} RunOwes(w: World, run: seq<System>, k: nat)
    requires WorldOk(w) && IsRun(w, run) && k < |run|
    ensures Inv(w, run[k]) && AllOwe(w, run[k])
  {
    hide Inv, Owes, ReceiveStep, TickStep, Starts;
    RunKeepsInv(w, run, k);
    if k == 0 {
      StartOwes(w, run[0]);
    } else {
      RunOwes(w, run, k - 1);
      assert StepAt(w, run, k - 1);
      StepOwes(w, run[k - 1], run[k]);
    }
  }

  lemma StartOwes(w: World, s: System)
    requires WorldOk(w) && Starts(w, s)
    ensures AllOwe(w, s)
  {
  }

  lemma StepOwes(w: World, s: System, s': System)
    requires WorldOk(w) && Inv(w, s) && AllOwe(w, s) && Next(w, s, s')
    ensures AllOwe(w, s')
  {
    hide Inv, Owes, Receive, Tick, Deliverable;
    forall j ensures Owes(w, s', j) {
      assert Owes(w, s, j);
      if i, a :| ReceiveStep(w, s, s', i, a) {
        if i == j {
          ReceiveOwes(w, s, s', i, a);
        } else {
          OwesStays(w, s, s', j);
        }
      } else {
        OwesStays(w, s, s', j);
      }
    }
  }

  // ---- everything delivered ----

  /** Replica `i` has taken in this message; nobody sends to itself. */
  predicate Holds(node: Node, i: ReplicaId, m: Message) {
    match m
    case Request(_) => true
    case PrePrepare(_, k, _, _) => k in node.core.accepted
    case PrepareVote(v) => v.replica == i || v in node.prepares
    case CommitVote(v) => v.replica == i || v in node.commits
  }

  ghost predicate AllDelivered(s: System) {
    forall i, m {:trigger Holds(s.members[i].node, i, m)} :: i in s.members && m in s.sent ==>
      Holds(s.members[i].node, i, m)
  }

  /** The primary `p` is honest. */
  ghost predicate Led(w: World, s: System, p: ReplicaId) {
    WorldOk(w) && Inv(w, s) && AllOwe(w, s) && p in s.members && p == w.viewNum % w.cfg.n
  }

  /** The state the theorem is about. */
  ghost predicate Complete(w: World, s: System, p: ReplicaId) {
    Led(w, s, p) && AllDelivered(s) && w.cfg.n - w.cfg.f >= 2
  }

  lemma PrimaryIs(w: World, s: System, p: ReplicaId, i: ReplicaId)
    requires Led(w, s, p) && i in s.members
    ensures i in w.settings && Sound(w.settings[i]) && i in Quorums.Honest(w.cfg)
    ensures IsPrimary(w.settings[i]) <==> i == p
    ensures w.settings[i].id == i && w.settings[i].viewNum == w.viewNum
    ensures w.settings[i].n == w.cfg.n && w.settings[i].f == w.cfg.f
  {
    hide Settled;
    assert MemberOk(w, s, i) && SettingOk(w, i);
  }

  /** Every block of an honest replica is the primary's. */
  lemma BlockOfPrimary(w: World, s: System, p: ReplicaId, i: ReplicaId, k: nat)
    requires Led(w, s, p) && i in s.members && k in s.members[i].node.core.accepted
    ensures k in s.members[p].node.core.accepted
    ensures s.members[p].node.core.accepted[k] == s.members[i].node.core.accepted[k]
  {
    hide Settled;
    PrimaryIs(w, s, p, i);
    if i != p {
      var digest := Digest(s.members[i].node.core.accepted[k]);
      assert Owes(w, s, i);
      assert FromPrimary(w, s, w.settings[i], s.members[i].node, k);
      var commands :| PrePrepare(w.viewNum, k, digest, commands) in s.sent;
      assert MessageOk(w, s, PrePrepare(w.viewNum, k, digest, commands));
      var j :| SentBy(w, s, PrePrepare(w.viewNum, k, digest, commands), j);
      PrimaryIs(w, s, p, j);
    }
  }

  /** Every honest replica has the primary's block. */
  lemma BlockArrived(w: World, s: System, p: ReplicaId, i: ReplicaId, k: nat)
    requires Complete(w, s, p) && i in s.members && k in s.members[p].node.core.accepted
    ensures k in s.members[i].node.core.accepted
    ensures s.members[i].node.core.accepted[k] == s.members[p].node.core.accepted[k]
  {
    hide Settled, Inv;
    PrimaryIs(w, s, p, p);
    assert Owes(w, s, p);
    assert BlockAnnounced(w.settings[p], s.members[p].node, s.sent, k);
    var commands := s.members[p].node.core.accepted[k];
    assert Holds(s.members[i].node, i, PrePrepare(w.viewNum, k, Digest(commands), commands));
    BlockOfPrimary(w, s, p, i, k);
  }

  /** Every other honest backup's Prepare counts at replica `i`. */
  lemma PrepareArrived(w: World, s: System, p: ReplicaId, i: ReplicaId, k: nat, r: ReplicaId)
    requires Complete(w, s, p) && i in s.members && r in s.members && r != p && k in s.members[p].node.core.accepted
    ensures i in w.settings && Sound(w.settings[i]) && k in s.members[i].node.core.accepted
    ensures r in Preparers(w.settings[i], s.members[i].node, k)
  {
    hide Settled, Inv;
    PrimaryIs(w, s, p, i);
    PrimaryIs(w, s, p, r);
    BlockArrived(w, s, p, i, k);
    BlockArrived(w, s, p, r, k);
    if r != i {
      assert Owes(w, s, r);
      assert BlockAnnounced(w.settings[r], s.members[r].node, s.sent, k);
      var vote := SignedVote(w.settings[r], k, Digest(s.members[r].node.core.accepted[k]));
      assert Holds(s.members[i].node, i, PrepareVote(vote));
    }
  }

  lemma Prepared(w: World, s: System, p: ReplicaId, i: ReplicaId, k: nat)
    requires Complete(w, s, p) && i in s.members && k in s.members[p].node.core.accepted
    ensures k in s.members[i].node.core.accepted && k in s.members[i].node.core.prepared
  {
    hide AllDelivered, AllOwe, Preparers;
    PrimaryIs(w, s, p, i);
    BlockArrived(w, s, p, i, k);
    var c, node := w.settings[i], s.members[i].node;
    var backups := Quorums.Honest(w.cfg) - {p};
    assert s.members.Keys == Quorums.Honest(w.cfg);
    forall r | r in backups ensures r in Preparers(c, node, k) {
      PrepareArrived(w, s, p, i, k, r);
    }
    HonestCount(w);
    Quorums.SubsetCount(backups, Preparers(c, node, k));
    SlotOfMember(w, s, i, k);
  }

  lemma HonestCount(w: World)
    requires WorldOk(w)
    ensures |Quorums.Honest(w.cfg)| >= w.cfg.n - w.cfg.f
  {
    assert Quorums.Ids(w.cfg.n) - w.cfg.byzantine == Quorums.Honest(w.cfg);
    assert |Quorums.Ids(w.cfg.n) - w.cfg.byzantine| == |Quorums.Ids(w.cfg.n)| - |w.cfg.byzantine|;
  }

  lemma SlotOfMember(w: World, s: System, i: ReplicaId, k: nat)
    requires WorldOk(w) && Inv(w, s) && i in s.members
    ensures i in w.settings && Sound(w.settings[i]) && SlotOk(w.settings[i], s.members[i].node, k)
  {
    assert MemberOk(w, s, i);
    SettledSlot(w.settings[i], s.members[i].node, k);
  }

  lemma CommitArrived(w: World, s: System, p: ReplicaId, i: ReplicaId, k: nat, r: ReplicaId)
    requires Complete(w, s, p) && i in s.members && r in s.members && k in s.members[p].node.core.accepted
    ensures i in w.settings && k in s.members[i].node.core.accepted
    ensures r in Committers(w.settings[i], s.members[i].node, k)
  {
    hide Settled, Inv;
    PrimaryIs(w, s, p, i);
    PrimaryIs(w, s, p, r);
    Prepared(w, s, p, i, k);
    Prepared(w, s, p, r, k);
    BlockArrived(w, s, p, i, k);
    BlockArrived(w, s, p, r, k);
    if r != i {
      assert Owes(w, s, r);
      assert QuorumAnnounced(w.settings[r], s.members[r].node, s.sent, k);
      var vote := SignedVote(w.settings[r], k, Digest(s.members[r].node.core.accepted[k]));
      assert Holds(s.members[i].node, i, CommitVote(vote));
    }
  }

  lemma Committed(w: World, s: System, p: ReplicaId, i: ReplicaId, k: nat)
    requires Complete(w, s, p) && i in s.members && k in s.members[p].node.core.accepted
    ensures Final(s.members[i].node.core, k)
  {
    hide AllDelivered, AllOwe, Committers;
    PrimaryIs(w, s, p, i);
    Prepared(w, s, p, i, k);
    var c, node := w.settings[i], s.members[i].node;
    assert s.members.Keys == Quorums.Honest(w.cfg);
    forall r | r in Quorums.Honest(w.cfg) ensures r in Committers(c, node, k) {
      CommitArrived(w, s, p, i, k, r);
    }
    HonestCount(w);
    Quorums.SubsetCount(Quorums.Honest(w.cfg), Committers(c, node, k));
    SlotOfMember(w, s, i, k);
  }

  /** The primary's blocks are numbered 1 to its number of proposals, and it fills its window. */
  lemma PrimaryWindow(w: World, s: System, p: ReplicaId)
    requires Led(w, s, p)
    ensures p in w.settings && Sound(w.settings[p])
    ensures var c, core := w.settings[p], s.members[p].node.core;
      && (forall k :: k in core.accepted <==> 1 <= k <= core.proposeNum)
      && (core.proposeNum < core.finalizeNum + c.maxInflight ==> core.pool.pending == [])
  {
    hide Slots;
    PrimaryIs(w, s, p, p);
    assert MemberOk(w, s, p);
  }

  /** Replica `i` has finalized all of the primary's proposals. */
  lemma AllFinal(w: World, s: System, p: ReplicaId, i: ReplicaId)
    requires Complete(w, s, p) && i in s.members
    ensures s.members[i].node.core.finalizeNum == s.members[p].node.core.proposeNum
    ensures |s.members[i].log| == s.members[p].node.core.proposeNum
  {
    hide Slots, AllDelivered, AllOwe;
    PrimaryWindow(w, s, p);
    assert MemberOk(w, s, i);
    var core, proposed := s.members[i].node.core, s.members[p].node.core.proposeNum;
    if core.finalizeNum < proposed {
      Committed(w, s, p, i, core.finalizeNum + 1);
    }
    if core.finalizeNum > proposed {
      BlockOfPrimary(w, s, p, i, core.finalizeNum);
    }
  }

  /**
   Quiescence: in every run with an honest primary and a window, once every message an
   honest replica sent is held by every honest node, all honest replicas have executed
   all proposals and the primary has nothing left to propose.
   */
  lemma Quiescence(w: World, run: seq<System>, p: ReplicaId)
    requires WorldOk(w) && IsRun(w, run) && w.cfg.n - w.cfg.f >= 2
    requires p in Last(run).members && p == w.viewNum % w.cfg.n && AllDelivered(Last(run))
    requires p in w.settings && w.settings[p].maxInflight >= 1
    ensures forall i :: i in Last(run).members ==>
      |Last(run).members[i].log| == Last(run).members[p].node.core.proposeNum
    ensures Last(run).members[p].node.core.pool.pending == []
  {
    hide Inv, AllDelivered;
    RunOwes(w, run, |run| - 1);
    var s := Last(run);
    forall i | i in s.members ensures |s.members[i].log| == s.members[p].node.core.proposeNum {
      AllFinal(w, s, p, i);
    }
    PrimaryIs(w, s, p, p);
    AllFinal(w, s, p, p);
    PrimaryWindow(w, s, p);
  }
}
