/**
 What a PBFT backup has decided after any list of messages: it depends on which
 messages arrived, not on their order or on how often each came.
 */
module PbftOutcome {
  import opened Commands
  import opened PbftCore
  import opened PbftNode
  import opened PbftInvariant
  import Quorums

  /** A message as it arrives; `verified` says whether its signature checks. */
  datatype Arrival = Arrival(message: Message, verified: bool)

  /** A replica that receives a list of messages from its start. */
  function ReceiveAll(c: Setting, ms: seq<Arrival>): Outcome
    requires Sound(c)
  {
    if ms == [] then Done(PbftNode.Init(), [], 0)
    else
      match ReceiveAll(c, ms[..|ms| - 1])
      case Panic => Panic
      case Done(s, outputs, turns) =>
        match Receive(c, s, Last(ms).message, Last(ms).verified)
        case Panic => Panic
        case Done(s', more, moreTurns) => Done(s', outputs + more, turns + moreTurns)
  }

  ghost predicate AllAdmissible(c: Setting, ms: seq<Arrival>)
    requires Sound(c)
  {
    ms != [] ==>
      && AllAdmissible(c, ms[..|ms| - 1])
      && var before := ReceiveAll(c, ms[..|ms| - 1]);
         before.Done? ==> Admissible(c, before.node, Last(ms).message, Last(ms).verified)
  }

  lemma BatchesConcat(accepted: map<nat, seq<Command>>, lo: nat, mid: nat, hi: nat)
    requires lo <= mid <= hi && forall k :: lo < k <= hi ==> k in accepted
    ensures Batches(accepted, lo, hi) == Batches(accepted, lo, mid) + Batches(accepted, mid, hi)
  {
  }

  lemma BatchesGrow(s: Node, s': Node, hi: nat)
    requires Grows(s, s') && forall k :: 0 < k <= hi ==> k in s.core.accepted
    ensures Batches(s'.core.accepted, 0, hi) == Batches(s.core.accepted, 0, hi)
  {
  }

  lemma ReachesOn(c: Setting, s: Node, outputs: seq<Output>, turns: nat, out: Outcome)
    requires Sound(c) && Reaches(c, PbftNode.Init(), 0, Done(s, outputs, turns))
    requires Reaches(c, s, s.core.finalizeNum, out)
    ensures Reaches(c, PbftNode.Init(), 0, Done(out.node, outputs + out.outputs, turns + out.turns))
  {
    hide Settled;
    var s' := out.node;
    forall i | 0 <= i < |outputs| ensures Honest(c, s'.core, outputs[i]) {
      assert Honest(c, s.core, outputs[i]);
    }
    ExecutedConcat(outputs, out.outputs);
    BatchesGrow(s, s', s.core.finalizeNum);
    BatchesConcat(s'.core.accepted, 0, s.core.finalizeNum, s'.core.finalizeNum);
  }

  /**
   Whole runs of any replica: nothing panics, and it has executed exactly the blocks
   1, 2, ... up to its last final one, each once and in order.
   */
  lemma {:induction false} RunReaches(c: Setting, ms: seq<Arrival>)
    requires Sound(c) && AllAdmissible(c, ms)
    ensures Reaches(c, PbftNode.Init(), 0, ReceiveAll(c, ms))
  {
    hide Reaches, Admissible, Receive;
    if ms == [] {
      InitReaches(c);
    } else {
      var before := ReceiveAll(c, ms[..|ms| - 1]);
      RunReaches(c, ms[..|ms| - 1]);
      ReachesIsSettled(c, before);
      ReceiveKeeps(c, before.node, Last(ms).message, Last(ms).verified);
      var out := Receive(c, before.node, Last(ms).message, Last(ms).verified);
      ReachesIsDone(c, before.node, before.node.core.finalizeNum, out);
      ReachesOn(c, before.node, before.outputs, before.turns, out);
    }
  }

  lemma InitReaches(c: Setting)
    requires Sound(c)
    ensures Reaches(c, PbftNode.Init(), 0, Done(PbftNode.Init(), [], 0))
  {
  }

  lemma ReachesIsDone(c: Setting, s: Node, lo: nat, out: Outcome)
    requires Sound(c) && Reaches(c, s, lo, out)
    ensures out.Done?
  {
  }

  lemma ReachesIsSettled(c: Setting, out: Outcome)
    requires Sound(c) && Reaches(c, PbftNode.Init(), 0, out)
    ensures out.Done? && Settled(c, out.node)
  {
  }

  // ---- what reaches the logs of a backup ----

  /** The loop leaves votes alone, and at a backup the accepted blocks too. */
  lemma {:induction false} DrainKeepsLogs(c: Setting, s: Node, queue: seq<Action>)
    requires Sound(c) && !IsPrimary(c) && Count(queue, 3) == 0 && Drain(c, s, queue).Done?
    ensures var s' := Drain(c, s, queue).node;
      s'.prepares == s.prepares && s'.commits == s.commits && s'.core.accepted == s.core.accepted
    decreases Distance(c, queue).0, Distance(c, queue).1, Distance(c, queue).2, Distance(c, queue).3
  {
    if queue != [] {
      var r := Perform(c, s, queue[0]);
      PerformGetsCloser(c, s, queue);
      AsksForLater(c, s, queue[0]);
      CountConcat(queue[1..], r.1, 3);
      assert !queue[0].Propose?;
      DrainKeepsLogs(c, r.0, queue[1..] + r.1);
    }
  }

  /** A PrePrepare that a replica without that block takes. */
  predicate Proposes(c: Setting, a: Arrival, k: nat) {
    && a.message.PrePrepare? && a.verified
    && a.message.viewNum == c.viewNum && a.message.blockNum == k && a.message.digest == Digest(a.message.commands)
  }

  function AfterProposal(c: Setting, accepted: map<nat, seq<Command>>, a: Arrival): map<nat, seq<Command>> {
    if a.message.PrePrepare? && Proposes(c, a, a.message.blockNum) && a.message.blockNum !in accepted then
      accepted[a.message.blockNum := a.message.commands]
    else accepted
  }

  lemma ReceiveLogs(c: Setting, s: Node, a: Arrival)
    requires Sound(c) && !IsPrimary(c) && Receive(c, s, a.message, a.verified).Done?
    ensures var s' := Receive(c, s, a.message, a.verified).node; var m := a.message;
      && s'.core.accepted == AfterProposal(c, s.core.accepted, a)
      && s'.prepares == (if m.PrepareVote? && Current(c, m.vote, a.verified) then WithPrepare(c, s, m.vote).prepares
           else s.prepares)
      && s'.commits == (if m.CommitVote? && Current(c, m.vote, a.verified) then WithCommit(c, s, m.vote).commits
           else s.commits)
  {
    hide Drain;
    var r := Admit(c, s, a.message, a.verified);
    NoProposal(c, s, a);
    DrainKeepsLogs(c, r.0, r.1);
  }

  lemma NoProposal(c: Setting, s: Node, a: Arrival)
    requires Sound(c) && !IsPrimary(c)
    ensures Count(Admit(c, s, a.message, a.verified).1, 3) == 0
  {
    var queue := Admit(c, s, a.message, a.verified).1;
    CountNone(queue, 3);
  }

  // ---- the outcome ----

  /** The commands of the first valid PrePrepare for `k`. */
  function First(c: Setting, ms: seq<Arrival>, k: nat): Option<seq<Command>> {
    if ms == [] then None
    else
      var before := First(c, ms[..|ms| - 1], k);
      if before.None? && Proposes(c, Last(ms), k) then Some(Last(ms).message.commands) else before
  }

  /** Who sent a valid Prepare for this block among `ms`. */
  function PrepareSenders(c: Setting, ms: seq<Arrival>, k: nat, digest: Digest): set<ReplicaId> {
    set a | a in ms && a.message.PrepareVote? && Current(c, a.message.vote, a.verified)
            && a.message.vote.blockNum == k && a.message.vote.digest == digest :: a.message.vote.replica
  }

  function CommitSenders(c: Setting, ms: seq<Arrival>, k: nat, digest: Digest): set<ReplicaId> {
    set a | a in ms && a.message.CommitVote? && Current(c, a.message.vote, a.verified)
            && a.message.vote.blockNum == k && a.message.vote.digest == digest :: a.message.vote.replica
  }

  /** Prepared, as a statement about what arrived. */
  predicate PreparedBy(c: Setting, ms: seq<Arrival>, k: nat) {
    && First(c, ms, k).Some?
    && |PrepareSenders(c, ms, k, Digest(First(c, ms, k).value)) + {c.id}| + 1 >= c.n - c.f
  }

  predicate CommittedBy(c: Setting, ms: seq<Arrival>, k: nat) {
    && PreparedBy(c, ms, k)
    && |CommitSenders(c, ms, k, Digest(First(c, ms, k).value)) + {c.id}| >= c.n - c.f
  }

  /** The node holds what arrived: for every number from 1 on, the first block and all votes. */
  ghost predicate Holds(c: Setting, s: Node, ms: seq<Arrival>) {
    && (forall k :: k in s.core.accepted <==> First(c, ms, k).Some?)
    && (forall k :: k in s.core.accepted ==> s.core.accepted[k] == First(c, ms, k).value)
    && (forall v: Vote :: v.blockNum >= 1 ==> (v in s.prepares <==>
         v.viewNum == c.viewNum && Arrival(PrepareVote(v), true) in ms))
    && (forall v: Vote :: v.blockNum >= 1 ==> (v in s.commits <==>
         v.viewNum == c.viewNum && Arrival(CommitVote(v), true) in ms))
  }

  lemma {:induction false} RunHolds(c: Setting, ms: seq<Arrival>)
    requires Sound(c) && !IsPrimary(c) && ReceiveAll(c, ms).Done?
    ensures Holds(c, ReceiveAll(c, ms).node, ms)
  {
    if ms != [] {
      var front, a := ms[..|ms| - 1], Last(ms);
      RunHolds(c, front);
      var s := ReceiveAll(c, front).node;
      ReceiveLogs(c, s, a);
      HoldsOn(c, s, front, a, Receive(c, s, a.message, a.verified).node);
      assert front + [a] == ms;
    }
  }

  lemma HoldsOn(c: Setting, s: Node, front: seq<Arrival>, a: Arrival, s': Node)
    requires Sound(c) && !IsPrimary(c) && Holds(c, s, front)
    requires s'.core.accepted == AfterProposal(c, s.core.accepted, a)
    requires s'.prepares == (if a.message.PrepareVote? && Current(c, a.message.vote, a.verified)
      then WithPrepare(c, s, a.message.vote).prepares else s.prepares)
    requires s'.commits == (if a.message.CommitVote? && Current(c, a.message.vote, a.verified)
      then WithCommit(c, s, a.message.vote).commits else s.commits)
    ensures Holds(c, s', front + [a])
  {
  }

  lemma VotersAreSenders(c: Setting, s: Node, ms: seq<Arrival>, k: nat, digest: Digest)
    requires Holds(c, s, ms) && k >= 1
    ensures Voters(s.prepares, k, digest) == PrepareSenders(c, ms, k, digest)
    ensures Voters(s.commits, k, digest) == CommitSenders(c, ms, k, digest)
  {
  }

  /** The largest `m` such that blocks 1 to `m` are all committed. */
  ghost predicate LongestCommitted(c: Setting, ms: seq<Arrival>, m: nat) {
    (forall k {:trigger CommittedBy(c, ms, k)} :: 1 <= k <= m ==> CommittedBy(c, ms, k)) && !CommittedBy(c, ms, m + 1)
  }

  /** After any messages in any order, what a backup has decided, number by number. */
  lemma BackupOutcome(c: Setting, ms: seq<Arrival>)
    requires Sound(c) && !IsPrimary(c) && AllAdmissible(c, ms)
    ensures ReceiveAll(c, ms).Done?
    ensures var s := ReceiveAll(c, ms).node.core;
      && (forall k :: k >= 1 ==> (k in s.prepared <==> PreparedBy(c, ms, k)))
      && (forall k :: k >= 1 ==> (k in s.committed <==> CommittedBy(c, ms, k)))
      && LongestCommitted(c, ms, s.finalizeNum)
  {
    RunReaches(c, ms);
    RunHolds(c, ms);
    var s := ReceiveAll(c, ms).node;
    SettledOutcome(c, s, ms);
  }

  lemma SettledOutcome(c: Setting, s: Node, ms: seq<Arrival>)
    requires Sound(c) && !IsPrimary(c) && Settled(c, s) && Holds(c, s, ms)
    ensures forall k :: k >= 1 ==> (k in s.core.prepared <==> PreparedBy(c, ms, k))
    ensures forall k :: k >= 1 ==> (k in s.core.committed <==> CommittedBy(c, ms, k))
    ensures LongestCommitted(c, ms, s.core.finalizeNum)
  {
    hide Slots, Holds, PreparedBy, CommittedBy;
    SlotOutcome(c, s, ms, s.core.finalizeNum + 1);
    forall k: nat | k >= 1
      ensures (k in s.core.prepared <==> PreparedBy(c, ms, k)) && (k in s.core.committed <==> CommittedBy(c, ms, k))
    {
      SlotOutcome(c, s, ms, k);
    }
    forall k | 1 <= k <= s.core.finalizeNum ensures CommittedBy(c, ms, k) {
      assert Final(s.core, k);
      SlotOutcome(c, s, ms, k);
    }
  }

  lemma SlotOutcome(c: Setting, s: Node, ms: seq<Arrival>, k: nat)
    requires Sound(c) && !IsPrimary(c) && k >= 1 && Slots(c, s, {}) && Holds(c, s, ms)
    ensures k in s.core.prepared <==> PreparedBy(c, ms, k)
    ensures k in s.core.committed <==> CommittedBy(c, ms, k)
    ensures k in s.core.committed ==> k in s.core.prepared && k in s.core.accepted
  {
    assert SlotOk(c, s, k);
    if k in s.core.accepted {
      VotersAreSenders(c, s, ms, k, Digest(s.core.accepted[k]));
    }
  }

  /** Everything an honest replica of this block owes has arrived from `r`. */
  ghost predicate VotesFrom(c: Setting, ms: seq<Arrival>, k: nat, digest: Digest, r: ReplicaId)
    requires Sound(c)
  {
    var vote := Vote(c.viewNum, k, digest, r);
    Arrival(CommitVote(vote), true) in ms && (r != Primary(c) ==> Arrival(PrepareVote(vote), true) in ms)
  }

  /** The votes of n - f replicas commit a block; the primary among them need not send a Prepare. */
  lemma HonestSuffice(c: Setting, ms: seq<Arrival>, k: nat, honest: set<ReplicaId>)
    requires Sound(c) && |honest| >= c.n - c.f && First(c, ms, k).Some?
    requires forall r :: r in honest ==> VotesFrom(c, ms, k, Digest(First(c, ms, k).value), r)
    ensures CommittedBy(c, ms, k)
  {
    var digest := Digest(First(c, ms, k).value);
    forall r | r in honest ensures r in CommitSenders(c, ms, k, digest)
      && (r != Primary(c) ==> r in PrepareSenders(c, ms, k, digest)) {
      var vote := Vote(c.viewNum, k, digest, r);
      assert VotesFrom(c, ms, k, digest, r);
      assert Arrival(CommitVote(vote), true).message.vote == vote;
      assert r != Primary(c) ==> Arrival(PrepareVote(vote), true).message.vote == vote;
    }
    Quorums.SubsetCount(honest - {Primary(c)}, PrepareSenders(c, ms, k, digest) + {c.id});
    Quorums.SubsetCount(honest, CommitSenders(c, ms, k, digest) + {c.id});
  }

  // ---- order does not matter ----

  /** The primary did not send two different blocks for one number. */
  ghost predicate NoEquivocation(c: Setting, ms: seq<Arrival>) {
    forall a, b, k {:trigger Proposes(c, a, k), Proposes(c, b, k)} ::
      a in ms && b in ms && Proposes(c, a, k) && Proposes(c, b, k) ==> a.message.commands == b.message.commands
  }

  lemma {:induction false} FirstIsOne(c: Setting, ms: seq<Arrival>, k: nat) returns (a: Arrival)
    requires First(c, ms, k).Some?
    ensures a in ms && Proposes(c, a, k) && First(c, ms, k) == Some(a.message.commands)
  {
    var front := ms[..|ms| - 1];
    if First(c, front, k).None? {
      a := Last(ms);
    } else {
      a := FirstIsOne(c, front, k);
    }
  }

  lemma {:induction false} SomeIsFirst(c: Setting, ms: seq<Arrival>, k: nat, a: Arrival)
    requires a in ms && Proposes(c, a, k)
    ensures First(c, ms, k).Some?
  {
    if Last(ms) != a {
      SomeIsFirst(c, ms[..|ms| - 1], k, a);
    }
  }

  lemma FirstIsSame(c: Setting, ms: seq<Arrival>, ms': seq<Arrival>, k: nat)
    requires (forall a :: a in ms <==> a in ms') && NoEquivocation(c, ms)
    ensures First(c, ms, k) == First(c, ms', k)
  {
    if First(c, ms, k).Some? {
      var a := FirstIsOne(c, ms, k);
      SomeIsFirst(c, ms', k, a);
    }
    if First(c, ms', k).Some? {
      var b := FirstIsOne(c, ms', k);
      SomeIsFirst(c, ms, k, b);
      var a := FirstIsOne(c, ms, k);
      assert Proposes(c, a, k) && Proposes(c, b, k);
    }
  }

  /** For every number the first valid PrePrepare is the same. */
  ghost predicate SameFirsts(c: Setting, ms: seq<Arrival>, ms': seq<Arrival>) {
    forall k :: First(c, ms, k) == First(c, ms', k)
  }

  /** It is, in any two orders of the same messages, if the primary did not equivocate. */
  lemma HonestFirsts(c: Setting, ms: seq<Arrival>, ms': seq<Arrival>)
    requires (forall a :: a in ms <==> a in ms') && NoEquivocation(c, ms)
    ensures SameFirsts(c, ms, ms')
  {
    forall k ensures First(c, ms, k) == First(c, ms', k) {
      FirstIsSame(c, ms, ms', k);
    }
  }

  lemma SameDecisions(c: Setting, ms: seq<Arrival>, ms': seq<Arrival>, k: nat)
    requires (forall a :: a in ms <==> a in ms') && First(c, ms, k) == First(c, ms', k)
    ensures PreparedBy(c, ms, k) <==> PreparedBy(c, ms', k)
    ensures CommittedBy(c, ms, k) <==> CommittedBy(c, ms', k)
  {
    if First(c, ms, k).Some? {
      var digest := Digest(First(c, ms, k).value);
      assert PrepareSenders(c, ms, k, digest) == PrepareSenders(c, ms', k, digest);
      assert CommitSenders(c, ms, k, digest) == CommitSenders(c, ms', k, digest);
    }
  }

  /**
   The same messages, in any two orders and repeated at will: the accepted blocks agree
   exactly if the first PrePrepare does for every number, and then so does all that is
   executed.
   */
  lemma OrderIndependence(c: Setting, ms: seq<Arrival>, ms': seq<Arrival>)
    requires Sound(c) && !IsPrimary(c) && AllAdmissible(c, ms) && AllAdmissible(c, ms')
    requires forall a :: a in ms <==> a in ms'
    ensures ReceiveAll(c, ms).Done? && ReceiveAll(c, ms').Done?
    ensures ReceiveAll(c, ms).node.core.accepted == ReceiveAll(c, ms').node.core.accepted <==> SameFirsts(c, ms, ms')
    ensures SameFirsts(c, ms, ms') ==>
      && ReceiveAll(c, ms).node.core.finalizeNum == ReceiveAll(c, ms').node.core.finalizeNum
      && Executed(ReceiveAll(c, ms).outputs) == Executed(ReceiveAll(c, ms').outputs)
  {
    BackupOutcome(c, ms);
    BackupOutcome(c, ms');
    RunReaches(c, ms);
    RunReaches(c, ms');
    RunHolds(c, ms);
    RunHolds(c, ms');
    var s, s' := ReceiveAll(c, ms).node, ReceiveAll(c, ms').node;
    AcceptedAreFirsts(c, s, ms, s', ms');
    if SameFirsts(c, ms, ms') {
      SameLongest(c, ms, ms', s.core.finalizeNum, s'.core.finalizeNum);
    }
  }

  lemma AcceptedAreFirsts(c: Setting, s: Node, ms: seq<Arrival>, s': Node, ms': seq<Arrival>)
    requires Holds(c, s, ms) && Holds(c, s', ms')
    ensures s.core.accepted == s'.core.accepted <==> SameFirsts(c, ms, ms')
  {
    if s.core.accepted == s'.core.accepted {
      forall k ensures First(c, ms, k) == First(c, ms', k) {
        assert k in s.core.accepted <==> k in s'.core.accepted;
      }
    }
    if SameFirsts(c, ms, ms') {
      assert s.core.accepted.Keys == s'.core.accepted.Keys;
    }
  }

  lemma SameLongest(c: Setting, ms: seq<Arrival>, ms': seq<Arrival>, m: nat, m': nat)
    requires (forall a :: a in ms <==> a in ms') && SameFirsts(c, ms, ms')
    requires LongestCommitted(c, ms, m) && LongestCommitted(c, ms', m')
    ensures m == m'
  {
    SameDecisions(c, ms, ms', m + 1);
    SameDecisions(c, ms, ms', m' + 1);
  }

  // ---- an equivocating primary makes order matter ----

  /** The votes of replicas 0 to `m - 1` for these commands as block 1. */
  function VotesOf(c: Setting, commands: seq<Command>, m: nat): seq<Arrival> {
    if m == 0 then []
    else
      var vote := Vote(c.viewNum, 1, Digest(commands), m - 1);
      VotesOf(c, commands, m - 1) + [Arrival(PrepareVote(vote), true), Arrival(CommitVote(vote), true)]
  }

  function FirstBlock(c: Setting, commands: seq<Command>): Arrival {
    Arrival(PrePrepare(c.viewNum, 1, Digest(commands), commands), true)
  }

  lemma {:induction false} VotesOfAre(c: Setting, commands: seq<Command>, m: nat)
    requires Sound(c)
    ensures forall a :: a in VotesOf(c, commands, m) ==>
      (a.message.PrepareVote? || a.message.CommitVote?) && a.message.vote.replica < m && a.message.vote.digest ==
        Digest(commands)
    ensures forall r :: 0 <= r < m ==> VotesFrom(c, VotesOf(c, commands, m), 1, Digest(commands), r)
  {
    if m > 0 {
      VotesOfAre(c, commands, m - 1);
      forall r | 0 <= r < m ensures VotesFrom(c, VotesOf(c, commands, m), 1, Digest(commands), r) {
        assert r < m - 1 ==> VotesFrom(c, VotesOf(c, commands, m - 1), 1, Digest(commands), r);
      }
    }
  }

  /** A backup takes any message from known senders. */
  lemma {:induction false} BackupAdmits(c: Setting, ms: seq<Arrival>)
    requires Sound(c) && !IsPrimary(c)
    requires forall a :: a in ms && (a.message.PrepareVote? || a.message.CommitVote?) ==> a.message.vote.replica < c.n
    ensures AllAdmissible(c, ms)
  {
    if ms != [] {
      BackupAdmits(c, ms[..|ms| - 1]);
    }
  }

  /** Messages that are not valid PrePrepares for the number change nothing about the first one. */
  lemma {:induction false} FirstStays(c: Setting, ms: seq<Arrival>, more: seq<Arrival>, k: nat)
    requires First(c, ms, k).Some?
    ensures First(c, ms + more, k) == First(c, ms, k)
    decreases |more|
  {
    if more == [] {
      assert ms + more == ms;
    } else {
      FirstStays(c, ms, more[..|more| - 1], k);
      assert (ms + more)[..|ms + more| - 1] == ms + more[..|more| - 1];
    }
  }

  lemma FirstOfTwo(c: Setting, x: seq<Command>, y: seq<Command>)
    ensures First(c, [FirstBlock(c, x), FirstBlock(c, y)], 1) == Some(x)
  {
    var ms := [FirstBlock(c, x), FirstBlock(c, y)];
    assert ms[..1] == [FirstBlock(c, x)] && ms[..1][..0] == [];
    assert First(c, ms[..1], 1) == Some(x);
  }

  lemma VotesStay(c: Setting, ms: seq<Arrival>, ms': seq<Arrival>, k: nat, digest: Digest, r: ReplicaId)
    requires Sound(c) && VotesFrom(c, ms, k, digest, r) && forall a :: a in ms ==> a in ms'
    ensures VotesFrom(c, ms', k, digest, r)
  {
  }

  /** The messages of an equivocating primary, with everyone's votes for `x`, after `first` and `second`. */
  function Equivocal(c: Setting, first: seq<Command>, second: seq<Command>, x: seq<Command>): seq<Arrival> {
    [FirstBlock(c, first), FirstBlock(c, second)] + VotesOf(c, x, c.n)
  }

  lemma EquivocalIs(c: Setting, first: seq<Command>, second: seq<Command>, x: seq<Command>)
    requires Sound(c) && !IsPrimary(c)
    ensures AllAdmissible(c, Equivocal(c, first, second, x))
    ensures First(c, Equivocal(c, first, second, x), 1) == Some(first)
    ensures forall a :: a in Equivocal(c, first, second, x) <==>
      a == FirstBlock(c, first) || a == FirstBlock(c, second) || a in VotesOf(c, x, c.n)
  {
    VotesOfAre(c, x, c.n);
    FirstOfTwo(c, first, second);
    FirstStays(c, [FirstBlock(c, first), FirstBlock(c, second)], VotesOf(c, x, c.n), 1);
    BackupAdmits(c, Equivocal(c, first, second, x));
  }

  /** Two orders of the same messages: a backup executes a block in one and nothing in the other. */
  lemma EquivocationMatters(c: Setting, x: seq<Command>, y: seq<Command>)
    requires Sound(c) && !IsPrimary(c) && c.n - c.f >= 2 && x != y
    ensures var ms, ms' := Equivocal(c, x, y, x), Equivocal(c, y, x, x);
      && (forall a :: a in ms <==> a in ms')
      && ReceiveAll(c, ms).Done? && ReceiveAll(c, ms').Done?
      && Executed(ReceiveAll(c, ms).outputs) != [] && Executed(ReceiveAll(c, ms').outputs) == []
  {
    hide Equivocal, ReceiveAll, First, Executed;
    var ms, ms' := Equivocal(c, x, y, x), Equivocal(c, y, x, x);
    EquivocalIs(c, x, y, x);
    EquivocalIs(c, y, x, x);
    EveryoneCommits(c, x, y);
    NobodyCommits(c, x, y);
    RunExecutes(c, ms);
    RunExecutes(c, ms');
  }

  lemma RunExecutes(c: Setting, ms: seq<Arrival>)
    requires Sound(c) && !IsPrimary(c) && AllAdmissible(c, ms)
    ensures ReceiveAll(c, ms).Done?
    ensures Executed(ReceiveAll(c, ms).outputs) != [] <==> CommittedBy(c, ms, 1)
  {
    BackupOutcome(c, ms);
    RunReaches(c, ms);
    assert LongestCommitted(c, ms, ReceiveAll(c, ms).node.core.finalizeNum);
  }

  lemma EveryoneCommits(c: Setting, x: seq<Command>, y: seq<Command>)
    requires Sound(c) && !IsPrimary(c)
    ensures CommittedBy(c, Equivocal(c, x, y, x), 1)
  {
    var ms := Equivocal(c, x, y, x);
    EquivocalIs(c, x, y, x);
    VotesOfAre(c, x, c.n);
    forall r | r in Quorums.Ids(c.n) ensures VotesFrom(c, ms, 1, Digest(x), r) {
      VotesStay(c, VotesOf(c, x, c.n), ms, 1, Digest(x), r);
    }
    HonestSuffice(c, ms, 1, Quorums.Ids(c.n));
  }

  lemma NobodyCommits(c: Setting, x: seq<Command>, y: seq<Command>)
    requires Sound(c) && !IsPrimary(c) && c.n - c.f >= 2 && x != y
    ensures !CommittedBy(c, Equivocal(c, y, x, x), 1)
  {
    var ms := Equivocal(c, y, x, x);
    EquivocalIs(c, y, x, x);
    VotesOfAre(c, x, c.n);
    assert CommitSenders(c, ms, 1, Digest(y)) == {};
    assert CommitSenders(c, ms, 1, Digest(y)) + {c.id} == {c.id};
  }
}
