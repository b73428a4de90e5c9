/** Safety of PBFT within a view: honest replicas execute the same blocks in the same order. */
module PbftAgreement {
  import opened Commands
  import opened PbftCore
  import opened PbftNode
  import opened PbftInvariant
  import opened PbftOutcome
  import opened PbftSystem
  import Quorums

  // ---- the invariant ----

  /** A vote in someone's log is genuine. */
  ghost predicate Genuine(w: World, s: System, node: Node) {
    && (forall v :: v in node.prepares ==> Signed(w, s, v))
    && (forall v :: v in node.commits ==> Signed(w, s, v))
  }

  ghost predicate MemberOk(w: World, s: System, i: ReplicaId) {
    i in s.members ==>
      && i in w.settings && Sound(w.settings[i])
      && var m := s.members[i];
         && Settled(w.settings[i], m.node)
         && Genuine(w, s, m.node)
         && m.ticked <= m.node.core.proposeNum
         && (forall k :: 0 < k <= m.node.core.finalizeNum ==> k in m.node.core.accepted)
         && m.log == Batches(m.node.core.accepted, 0, m.node.core.finalizeNum)
  }

  /** An honest replica sent this message, and honestly. */
  ghost predicate SentBy(w: World, s: System, m: Message, i: ReplicaId) {
    && i in s.members && i in w.settings && Sound(w.settings[i])
    && Honest(w.settings[i], s.members[i].node.core, ToAll(m))
  }

  ghost predicate MessageOk(w: World, s: System, m: Message) {
    exists i :: SentBy(w, s, m, i)
  }

  ghost predicate Inv(w: World, s: System) {
    && s.members.Keys == w.settings.Keys
    && (forall i {:trigger MemberOk(w, s, i)} :: MemberOk(w, s, i))
    && (forall m {:trigger MessageOk(w, s, m)} :: m in s.sent ==> MessageOk(w, s, m))
  }

  lemma StartKeepsInv(w: World, s: System)
    requires WorldOk(w) && Starts(w, s)
    ensures Inv(w, s)
  {
    forall i ensures MemberOk(w, s, i) {
      if i in s.members {
        assert SettingOk(w, i);
        InitIsSettled(w.settings[i]);
      }
    }
  }

  // ---- one step ----

  ghost predicate Evolves(w: World, s: System, s': System, i: ReplicaId) {
    && i in s.members && s'.members.Keys == s.members.Keys
    && (forall j :: j in s.members && j != i ==> s'.members[j] == s.members[j])
    && Grows(s.members[i].node, s'.members[i].node)
    && s.sent <= s'.sent
  }

  lemma SentByStays(w: World, s: System, s': System, i: ReplicaId, m: Message)
    requires Evolves(w, s, s', i) && MessageOk(w, s, m)
    ensures MessageOk(w, s', m)
  {
    var j :| SentBy(w, s, m, j);
    assert SentBy(w, s', m, j);
  }

  /** A step of `i` that leaves `i` itself in order and sends only honest messages. */
  lemma StepKeepsInv(w: World, s: System, s': System, i: ReplicaId, outputs: seq<Output>)
    requires Inv(w, s) && Evolves(w, s, s', i) && MemberOk(w, s', i) && i in w.settings && Sound(w.settings[i])
    requires s'.sent == s.sent + MessagesOf(outputs) && AllHonest(w.settings[i], s'.members[i].node.core, outputs)
    ensures Inv(w, s')
  {
    hide Settled;
    forall j ensures MemberOk(w, s', j) {
      assert MemberOk(w, s, j);
    }
    forall m | m in s'.sent ensures MessageOk(w, s', m) {
      if m in s.sent {
        SentByStays(w, s, s', i, m);
      } else {
        var o :| o in outputs && MessageOf(o) == Some(m);
        assert SentBy(w, s', m, i);
      }
    }
  }

  /** No one else's signature is on a primary's proposal, so it has the block already. */
  lemma DeliverableIsAdmissible(w: World, s: System, i: ReplicaId, a: Arrival)
    requires WorldOk(w) && Inv(w, s) && i in s.members && Deliverable(w, s, a)
    ensures Sound(w.settings[i]) && Admissible(w.settings[i], s.members[i].node, a.message, a.verified)
  {
    hide Settled;
    assert MemberOk(w, s, i);
    var c, m := w.settings[i], a.message;
    assert SettingOk(w, i);
    if m.PrePrepare? && IsPrimary(c) && a.verified && m.viewNum == c.viewNum {
      var commands :| PrePrepare(m.viewNum, m.blockNum, m.digest, commands) in s.sent;
      var p := PrePrepare(m.viewNum, m.blockNum, m.digest, commands);
      assert MessageOk(w, s, p);
      var j :| SentBy(w, s, p, j);
      assert SettingOk(w, j);
      assert j == i;
    }
  }

  /** What a replica logs, it was handed. */
  lemma {:induction false} DrainKeepsVotes(c: Setting, s: Node, queue: seq<Action>)
    requires Sound(c) && Drain(c, s, queue).Done?
    ensures Drain(c, s, queue).node.prepares == s.prepares && Drain(c, s, queue).node.commits == s.commits
    decreases Distance(c, queue).0, Distance(c, queue).1, Distance(c, queue).2, Distance(c, queue).3
  {
    if queue != [] {
      var r := Perform(c, s, queue[0]);
      PerformGetsCloser(c, s, queue);
      DrainKeepsVotes(c, r.0, queue[1..] + r.1);
    }
  }

  lemma ReceiveAddsVotes(c: Setting, s: Node, m: Message, verified: bool)
    requires Sound(c) && Receive(c, s, m, verified).Done?
    ensures var s' := Receive(c, s, m, verified).node;
      && (forall v :: v in s'.prepares && v !in s.prepares ==> verified && m == PrepareVote(v))
      && (forall v :: v in s'.commits && v !in s.commits ==> verified && m == CommitVote(v))
  {
    var r := Admit(c, s, m, verified);
    DrainKeepsVotes(c, r.0, r.1);
  }

  lemma ReceiveKeepsInv(w: World, s: System, s': System, i: ReplicaId, a: Arrival)
    requires WorldOk(w) && Inv(w, s) && ReceiveStep(w, s, s', i, a)
    ensures Inv(w, s')
  {
    hide Settled, Receive, Admissible;
    assert MemberOk(w, s, i);
    var c, node := w.settings[i], s.members[i].node;
    DeliverableIsAdmissible(w, s, i, a);
    ReceiveKeeps(c, node, a.message, a.verified);
    var r := Receive(c, node, a.message, a.verified);
    ReceiveAddsVotes(c, node, a.message, a.verified);
    LogGrows(c, s.members[i], r);
    assert Genuine(w, s', r.node);
    assert MemberOk(w, s', i);
    StepKeepsInv(w, s, s', i, r.outputs);
  }

  lemma LogGrows(c: Setting, m: Member, r: Outcome)
    requires Sound(c) && Reaches(c, m.node, m.node.core.finalizeNum, r)
    requires forall k :: 0 < k <= m.node.core.finalizeNum ==> k in m.node.core.accepted
    requires m.log == Batches(m.node.core.accepted, 0, m.node.core.finalizeNum)
    ensures forall k :: 0 < k <= r.node.core.finalizeNum ==> k in r.node.core.accepted
    ensures m.log + Executed(r.outputs) == Batches(r.node.core.accepted, 0, r.node.core.finalizeNum)
  {
  }

  lemma TickKeepsInv(w: World, s: System, s': System, i: ReplicaId)
    requires WorldOk(w) && Inv(w, s) && TickStep(w, s, s', i)
    ensures Inv(w, s')
  {
    hide Slots;
    assert MemberOk(w, s, i);
    var c, m := w.settings[i], s.members[i];
    TickSends(c, m.node, m.ticked);
    assert Genuine(w, s', m.node);
    assert MemberOk(w, s', i);
    StepKeepsInv(w, s, s', i, Tick(c, m.node.core, m.ticked).value);
  }

  lemma {:induction false} RunKeepsInv(w: World, run: seq<System>, k: nat)
    requires WorldOk(w) && IsRun(w, run) && k < |run|
    ensures Inv(w, run[k])
  {
    hide Inv, Starts, ReceiveStep, TickStep;
    if k == 0 {
      StartKeepsInv(w, run[0]);
    } else {
      RunKeepsInv(w, run, k - 1);
      assert StepAt(w, run, k - 1);
      var s, s' := run[k - 1], run[k];
      if i, a :| ReceiveStep(w, s, s', i, a) {
        ReceiveKeepsInv(w, s, s', i, a);
      } else {
        var i :| TickStep(w, s, s', i);
        TickKeepsInv(w, s, s', i);
      }
    }
  }

  // ---- theorems ----

  /** In every reachable state, no message that can arrive and no tick makes an honest replica panic. */
  lemma NoPanic(w: World, run: seq<System>, i: ReplicaId, a: Arrival)
    requires WorldOk(w) && IsRun(w, run) && i in Last(run).members && Deliverable(w, Last(run), a)
    ensures i in w.settings && Sound(w.settings[i])
    ensures var m := Last(run).members[i];
      && Receive(w.settings[i], m.node, a.message, a.verified).Done?
      && Tick(w.settings[i], m.node.core, m.ticked).Some?
  {
    var s := Last(run);
    RunKeepsInv(w, run, |run| - 1);
    assert MemberOk(w, s, i);
    DeliverableIsAdmissible(w, s, i, a);
    ReceiveKeeps(w.settings[i], s.members[i].node, a.message, a.verified);
    TickSends(w.settings[i], s.members[i].node, s.members[i].ticked);
  }

  /** An honest replica counted for a block has accepted that block. */
  lemma CommitterAccepted(w: World, s: System, i: ReplicaId, k: nat, r: ReplicaId)
    requires WorldOk(w) && Inv(w, s) && i in s.members && i in w.settings && k in s.members[i].node.core.accepted
    requires r in Committers(w.settings[i], s.members[i].node, k) && r in Quorums.Honest(w.cfg)
    ensures r in s.members && k in s.members[r].node.core.accepted
    ensures s.members[r].node.core.accepted[k] == s.members[i].node.core.accepted[k]
  {
    hide Settled;
    assert MemberOk(w, s, i) && SettingOk(w, i);
    var node := s.members[i].node;
    var digest := Digest(node.core.accepted[k]);
    if r != i {
      var v :| v in node.commits && v.blockNum == k && v.digest == digest && v.replica == r;
      var m := if PrepareVote(v) in s.sent then PrepareVote(v) else CommitVote(v);
      assert MessageOk(w, s, m);
      var j :| SentBy(w, s, m, j);
      assert SettingOk(w, j);
    }
  }

  lemma CommittersAreReplicas(w: World, s: System, i: ReplicaId, k: nat)
    requires WorldOk(w) && Inv(w, s) && i in s.members && i in w.settings
    requires 1 <= k <= s.members[i].node.core.finalizeNum
    ensures k in s.members[i].node.core.accepted
    ensures Committers(w.settings[i], s.members[i].node, k) <= Quorums.Ids(w.cfg.n)
    ensures |Committers(w.settings[i], s.members[i].node, k)| >= w.cfg.n - w.cfg.f
  {
    assert MemberOk(w, s, i) && SettingOk(w, i);
    var node := s.members[i].node;
    assert Final(node.core, k) && SlotOk(w.settings[i], node, k);
  }

  lemma SameBlock(w: World, s: System, i: ReplicaId, j: ReplicaId, k: nat)
    requires WorldOk(w) && Inv(w, s) && i in s.members && j in s.members
    requires 1 <= k <= s.members[i].node.core.finalizeNum && k <= s.members[j].node.core.finalizeNum
    ensures k in s.members[i].node.core.accepted && k in s.members[j].node.core.accepted
    ensures s.members[i].node.core.accepted[k] == s.members[j].node.core.accepted[k]
  {
    hide MemberOk;
    CommittersAreReplicas(w, s, i, k);
    CommittersAreReplicas(w, s, j, k);
    var r := Quorums.SharedHonest(w.cfg, Committers(w.settings[i], s.members[i].node, k),
      Committers(w.settings[j], s.members[j].node, k));
    CommitterAccepted(w, s, i, k, r);
    CommitterAccepted(w, s, j, k, r);
  }

  lemma LogsAgree(w: World, s: System, i: ReplicaId, j: ReplicaId)
    requires WorldOk(w) && Inv(w, s) && i in s.members && j in s.members
    requires |s.members[i].log| <= |s.members[j].log|
    ensures s.members[i].log <= s.members[j].log
  {
    hide Settled;
    assert MemberOk(w, s, i) && MemberOk(w, s, j);
    forall x | 0 <= x < |s.members[i].log| ensures s.members[i].log[x] == s.members[j].log[x] {
      SameBlock(w, s, i, j, x + 1);
    }
  }

  lemma {:induction false} LogOnlyGrows(w: World, run: seq<System>, i: ReplicaId, x: nat, y: nat)
    requires WorldOk(w) && IsRun(w, run) && x <= y < |run| && i in run[x].members
    ensures i in run[y].members && run[x].members[i].log <= run[y].members[i].log
    decreases y - x
  {
    hide Receive, Tick, Starts, Deliverable;
    if x < y {
      LogOnlyGrows(w, run, i, x, y - 1);
      assert StepAt(w, run, y - 1);
    }
  }

  /**
   Agreement. Over every run, with loss, repetition, reordering and an equivocating
   primary: of what two honest replicas have executed at any two moments, one is a
   prefix of the other.
   */
  lemma Agreement(w: World, run: seq<System>, i: ReplicaId, x: nat, j: ReplicaId, y: nat)
    requires WorldOk(w) && IsRun(w, run) && x <= y < |run| && i in run[x].members && j in run[y].members
    ensures run[x].members[i].log <= run[y].members[j].log || run[y].members[j].log <= run[x].members[i].log
  {
    hide IsRun, Inv;
    LogOnlyGrows(w, run, i, x, y);
    RunKeepsInv(w, run, y);
    var early, late, other := run[x].members[i].log, run[y].members[i].log, run[y].members[j].log;
    if |late| <= |other| {
      LogsAgree(w, run[y], i, j);
      PrefixTransitive(early, late, other);
    } else {
      LogsAgree(w, run[y], j, i);
      PrefixesOfOne(early, other, late);
    }
  }

  lemma PrefixesOfOne<T>(a: seq<T>, b: seq<T>, whole: seq<T>)
    requires a <= whole && b <= whole
    ensures a <= b || b <= a
  {
  }
}
