/**
 HotStuff safety: no two honest replicas ever finalize conflicting blocks, in any
 run with n >= 3f + 1, at most f Byzantine replicas and well-formed blocks.
 */
module HotStuffSafety {
  import opened Commands
  import opened HotStuffTree
  import opened HotStuffChain
  import opened HotStuffCore
  import opened HotStuffSystem
  import Quorums

  // ---- the invariant ----

  /** A known block arrived well formed, after its parent and its certified justification. */
  ghost predicate BlockOk(c: Chain, d: Digest) {
    d.Hash? ==>
      && WellFormed(d)
      && Parent(d) in c.known
      && Justify(d) in c.known
      && Justify(d) in c.certs
  }

  ghost predicate ChainOk(certified: iset<Digest>, c: Chain) {
    && Genesis in c.known && Genesis in c.certs
    && (forall d {:trigger BlockOk(c, d)} :: d in c.known ==> BlockOk(c, d))
    && (forall d :: d in c.certs ==> d in c.known && d in certified)
    && c.high.node in c.known && c.high.node in certified
    && c.lock in c.known && c.lock in certified
    && c.execute in c.known
  }

  /** The lock is at least as high as the grandparent-by-justification of every known block. */
  ghost predicate LockCovers(c: Chain) {
    forall d :: d in c.known ==> Height(Justify(Justify(d))) <= Height(c.lock)
  }

  ghost predicate LockCoversAllBut(c: Chain, d: Digest) {
    forall x :: x in c.known && x != d ==> Height(Justify(Justify(x))) <= Height(c.lock)
  }

  ghost predicate BallotOk(certified: iset<Digest>, c: Chain, b: Ballot) {
    && b.block in c.known && b.block.Hash?
    && b.lock in certified && b.lock != b.block
    && (Extends(b.block, b.lock) || Height(Justify(b.block)) > Height(b.lock))
    && Height(b.block) <= c.voteHeight
  }

  ghost predicate BallotsInOrder(b: Ballot, later: Ballot) {
    && Height(b.block) < Height(later.block)
    && Height(Justify(Justify(b.block))) <= Height(later.lock)
  }

  ghost predicate BallotsOk(certified: iset<Digest>, c: Chain, ballots: seq<Ballot>) {
    && (forall k :: 0 <= k < |ballots| ==> BallotOk(certified, c, ballots[k]))
    && (forall j, k :: 0 <= j < k < |ballots| ==> BallotsInOrder(ballots[j], ballots[k]))
  }

  /** `d` is at or below the foot of a certified three-chain whose top is `top`. */
  ghost predicate DecidedBy(certified: iset<Digest>, d: Digest, top: Digest) {
    && top in certified
    && Parent(top) == Justify(top)
    && Parent(Parent(top)) == Justify(Justify(top))
    && Ancestor(d, Parent(Parent(top)))
  }

  ghost predicate Decided(certified: iset<Digest>, d: Digest) {
    exists top :: DecidedBy(certified, d, top)
  }

  ghost predicate ReplicaOk(certified: iset<Digest>, r: Replica) {
    && ChainOk(certified, r.core.chain)
    && LockCovers(r.core.chain)
    && BallotsOk(certified, r.core.chain, r.ballots)
    && (forall d :: d in r.finalized ==> Decided(certified, d))
  }

  ghost predicate AllOk(certified: iset<Digest>, replicas: map<ReplicaId, Replica>) {
    forall i :: i in replicas ==> ReplicaOk(certified, replicas[i])
  }

  ghost predicate Inv(cfg: Quorums.Config, s: System) {
    s.replicas.Keys == Quorums.Honest(cfg) && AllOk(Certificates(cfg, s), s.replicas)
  }

  // ---- what the invariant says about certificates ----

  lemma CertifiedIsKnown(cfg: Quorums.Config, s: System, d: Digest) returns (i: ReplicaId)
    requires Quorums.Valid(cfg) && Inv(cfg, s) && d in Certificates(cfg, s) && d.Hash?
    ensures i in s.replicas && d in s.replicas[i].core.chain.known
  {
    i := Quorums.HonestMember(cfg, Voters(cfg, s, d));
  }

  lemma {:induction false} KnownRises(certified: iset<Digest>, c: Chain, d: Digest)
    requires ChainOk(certified, c) && d in c.known
    ensures Rising(d)
    decreases d
  {
    assert BlockOk(c, d);
    if d.Hash? {
      KnownRises(certified, c, d.block.parent);
    }
  }

  /** A certified block is well formed, its heights rise, and what it justifies is certified. */
  lemma CertifiedIsOk(cfg: Quorums.Config, s: System, d: Digest)
    requires Quorums.Valid(cfg) && Inv(cfg, s) && d in Certificates(cfg, s)
    ensures WellFormed(d) && Rising(d) && Justify(d) in Certificates(cfg, s)
  {
    if d.Hash? {
      var i := CertifiedIsKnown(cfg, s, d);
      var c := s.replicas[i].core.chain;
      assert BlockOk(c, d);
      KnownRises(Certificates(cfg, s), c, d);
    }
  }

  lemma OneBallotPerHeight(certified: iset<Digest>, c: Chain, ballots: seq<Ballot>, j: nat, k: nat)
    requires BallotsOk(certified, c, ballots) && j < |ballots| && k < |ballots|
    requires Height(ballots[j].block) == Height(ballots[k].block)
    ensures j == k
  {
  }

  /** At most one block per height can be certified. */
  lemma CertifiedUnique(cfg: Quorums.Config, s: System, a: Digest, b: Digest)
    requires Quorums.Valid(cfg) && Inv(cfg, s)
    requires a in Certificates(cfg, s) && b in Certificates(cfg, s) && Height(a) == Height(b)
    ensures a == b
  {
    CertifiedIsOk(cfg, s, a);
    CertifiedIsOk(cfg, s, b);
    if a.Hash? && b.Hash? {
      var i := Quorums.SharedHonest(cfg, Voters(cfg, s, a), Voters(cfg, s, b));
      var r := s.replicas[i];
      var j :| 0 <= j < |r.ballots| && r.ballots[j].block == a;
      var k :| 0 <= k < |r.ballots| && r.ballots[k].block == b;
      OneBallotPerHeight(Certificates(cfg, s), r.core.chain, r.ballots, j, k);
    }
  }

  lemma HigherIsLater(certified: iset<Digest>, c: Chain, ballots: seq<Ballot>, j: nat, k: nat)
    requires BallotsOk(certified, c, ballots) && j < |ballots| && k < |ballots|
    requires Height(ballots[j].block) < Height(ballots[k].block)
    ensures j < k && BallotsInOrder(ballots[j], ballots[k])
  {
  }

  /** Some honest replica voted for both, for the lower one first; and what its lock was at the later vote. */
  lemma LockAtLaterVote(cfg: Quorums.Config, s: System, top: Digest, w: Digest)
    returns (i: ReplicaId, j: nat, k: nat, lock: Digest)
    requires Quorums.Valid(cfg) && Inv(cfg, s)
    requires top in Certificates(cfg, s) && w in Certificates(cfg, s) && top.Hash? && Height(top) < Height(w)
    ensures i in Quorums.Honest(cfg) && i in s.replicas && j < k < |s.replicas[i].ballots|
    ensures s.replicas[i].ballots[j].block == top && s.replicas[i].ballots[k] == Ballot(w, lock)
    ensures lock in Certificates(cfg, s) && lock != w
    ensures Height(lock) >= Height(Justify(Justify(top)))
    ensures Ancestor(lock, w) || Height(Justify(w)) > Height(lock)
  {
    i := Quorums.SharedHonest(cfg, Voters(cfg, s, top), Voters(cfg, s, w));
    var r := s.replicas[i];
    j :| 0 <= j < |r.ballots| && r.ballots[j].block == top;
    k :| 0 <= k < |r.ballots| && r.ballots[k].block == w;
    HigherIsLater(Certificates(cfg, s), r.core.chain, r.ballots, j, k);
    lock := r.ballots[k].lock;
    assert BallotOk(Certificates(cfg, s), r.core.chain, r.ballots[k]);
    ExtendsIsAncestor(w, lock);
  }

  /** The heart of the safety argument: no certified block escapes a certified three-chain. */
  lemma {:induction false} CertifiedExtendsDecision(cfg: Quorums.Config, s: System, top: Digest, w: Digest)
    requires Quorums.Valid(cfg) && Inv(cfg, s)
    requires DecidedBy(Certificates(cfg, s), Parent(Parent(top)), top)
    requires w in Certificates(cfg, s) && Height(w) >= Height(Parent(Parent(top)))
    ensures Ancestor(Parent(Parent(top)), w)
    decreases Height(w)
  {
    var block3 := Parent(Parent(top));
    CertifiedIsOk(cfg, s, top);
    CertifiedIsOk(cfg, s, Justify(top));
    CertifiedIsOk(cfg, s, w);
    if block3 == Genesis {
      GenesisIsRoot(w);
    } else if Height(w) <= Height(top) {
      var b := if Height(w) == Height(block3) then block3 else if Height(w) == Height(Parent(top)) then Parent(top)
        else top;
      CertifiedUnique(cfg, s, w, b);
    } else {
      var i, j, k, lock := LockAtLaterVote(cfg, s, top, w);
      if Ancestor(lock, w) {
        AncestorHeight(lock, w);
        CertifiedExtendsDecision(cfg, s, top, lock);
        AncestorTransitive(block3, lock, w);
      } else {
        AncestorHeight(Justify(w), Parent(w));
        CertifiedExtendsDecision(cfg, s, top, Justify(w));
        AncestorTransitive(block3, Justify(w), Parent(w));
      }
    }
  }

  lemma DecidedAreComparable(cfg: Quorums.Config, s: System, d: Digest, e: Digest)
    requires Quorums.Valid(cfg) && Inv(cfg, s) && Decided(Certificates(cfg, s), d) && Decided(Certificates(cfg, s), e)
    ensures Comparable(d, e)
  {
    var x :| DecidedBy(Certificates(cfg, s), d, x);
    var y :| DecidedBy(Certificates(cfg, s), e, y);
    if Height(Parent(Parent(x))) <= Height(Parent(Parent(y))) {
      DecisionsMeet(cfg, s, d, x, e, y);
    } else {
      DecisionsMeet(cfg, s, e, y, d, x);
    }
  }

  lemma DecisionsMeet(cfg: Quorums.Config, s: System, d: Digest, x: Digest, e: Digest, y: Digest)
    requires Quorums.Valid(cfg) && Inv(cfg, s) && DecidedBy(Certificates(cfg, s), d, x)
    requires DecidedBy(Certificates(cfg, s), e, y)
    requires Height(Parent(Parent(x))) <= Height(Parent(Parent(y)))
    ensures Comparable(d, e)
  {
    CertifiedIsOk(cfg, s, y);
    CertifiedIsOk(cfg, s, Justify(y));
    CertifiedExtendsDecision(cfg, s, x, Parent(Parent(y)));
    AncestorTransitive(d, Parent(Parent(x)), Parent(Parent(y)));
    AncestorsAreComparable(d, e, Parent(Parent(y)));
  }

  // ---- every step keeps the invariant ----

  ghost predicate Grows(cfg: Quorums.Config, s: System, s': System) {
    forall i, d :: Voted(cfg, s, i, d) ==> Voted(cfg, s', i, d)
  }

  lemma CertificatesGrow(cfg: Quorums.Config, s: System, s': System)
    requires Grows(cfg, s, s')
    ensures Certificates(cfg, s) <= Certificates(cfg, s')
  {
    forall d | d in Certificates(cfg, s) ensures d in Certificates(cfg, s') {
      Quorums.SubsetCount(Voters(cfg, s, d), Voters(cfg, s', d));
    }
  }

  lemma ReplicaOkGrows(certified: iset<Digest>, certified': iset<Digest>, r: Replica)
    requires certified <= certified' && ReplicaOk(certified, r)
    ensures ReplicaOk(certified', r)
  {
    forall d | d in r.finalized ensures Decided(certified', d) {
      var top :| DecidedBy(certified, d, top);
      assert DecidedBy(certified', d, top);
    }
    forall k | 0 <= k < |r.ballots| ensures BallotOk(certified', r.core.chain, r.ballots[k]) {
      assert BallotOk(certified, r.core.chain, r.ballots[k]);
    }
  }

  lemma AllOkGrow(certified: iset<Digest>, certified': iset<Digest>, replicas: map<ReplicaId, Replica>)
    requires certified <= certified' && AllOk(certified, replicas)
    ensures AllOk(certified', replicas)
  {
    forall i | i in replicas ensures ReplicaOk(certified', replicas[i]) {
      ReplicaOkGrows(certified, certified', replicas[i]);
    }
  }

  lemma ValidCertIsCertified(cfg: Quorums.Config, s: System, qc: QuorumCert)
    requires ValidCert(cfg, s, qc)
    ensures qc.node in Certificates(cfg, s)
  {
    if qc.node != Genesis {
      Quorums.SubsetCount(qc.sig.signers, Voters(cfg, s, qc.node));
    }
  }

  /** `Admits`, with the check of signatures replaced by what it implies. */
  ghost predicate Justified(certified: iset<Digest>, c: Chain, e: Event) {
    && CanHandle(c, e)
    && match e
       case Request(_) => true
       case Received(b) => WellFormed(DigestOf(b)) && b.justify.node in certified
       case Proposed(b) => WellFormed(DigestOf(b)) && b.justify.node in certified
       case Certified(qc) => qc.node in certified
  }

  lemma AdmittedIsJustified(cfg: Quorums.Config, s: System, c: Chain, e: Event)
    requires Admits(cfg, s, c, e) && EventMeets(WellFormedBlocks, e) && ChainOk(Certificates(cfg, s), c)
    ensures Justified(Certificates(cfg, s), c, e)
  {
    match e
    case Request(_) =>
    case Certified(qc) => ValidCertIsCertified(cfg, s, qc);
    case Received(b) => if b.justify.node !in c.certs { ValidCertIsCertified(cfg, s, b.justify); }
    case Proposed(b) => if b.justify.node !in c.certs { ValidCertIsCertified(cfg, s, b.justify); }
  }

  lemma IngestOk(certified: iset<Digest>, c: Chain, b: Proposal)
    requires ChainOk(certified, c) && CanIngest(c, b) && WellFormed(DigestOf(b)) && b.justify.node in certified
    ensures ChainOk(certified, Ingest(c, b))
  {
    var c' := Ingest(c, b);
    forall d | d in c'.known ensures BlockOk(c', d) {
      assert d in c.known ==> BlockOk(c, d);
    }
  }

  lemma SameBlocksOk(certified: iset<Digest>, c: Chain, c': Chain)
    requires ChainOk(certified, c)
    requires c' == c.(voteHeight := c'.voteHeight, leaf := c'.leaf, high := c'.high, lock := c'.lock,
      execute := c'.execute)
    requires c'.high.node in c.known && c'.high.node in certified
    requires c'.lock in c.known && c'.lock in certified && c'.execute in c.known
    ensures ChainOk(certified, c')
  {
    forall d | d in c'.known ensures BlockOk(c', d) {
      assert BlockOk(c, d);
    }
  }

  lemma JustifyOk(certified: iset<Digest>, c: Chain, d: Digest)
    requires ChainOk(certified, c) && d in c.known
    ensures Justify(d) in c.known && Justify(d) in c.certs && Justify(d) in certified
  {
    assert BlockOk(c, d);
  }

  lemma UpdateCovers(c: Chain, d: Digest)
    requires LockCoversAllBut(c, d) && Justify(d) in c.certs
    ensures LockCovers(Update(c, d))
  {
  }

  lemma UpdateOk(certified: iset<Digest>, c: Chain, d: Digest)
    requires ChainOk(certified, c) && d in c.known && d.Hash? && LockCoversAllBut(c, d)
    ensures Justify(d) in c.certs
    ensures ChainOk(certified, Update(c, d)) && LockCovers(Update(c, d))
  {
    hide BlockOk, WellFormed, LockCovers, LockCoversAllBut;
    JustifyOk(certified, c, d);
    JustifyOk(certified, c, Justify(d));
    JustifyOk(certified, c, Justify(Justify(d)));
    UpdateCovers(c, d);
    SameBlocksOk(certified, c, Update(c, d));
  }

  lemma PathIsDecided(certified: iset<Digest>, exec: Digest, d: Digest)
    requires Justify(d) in certified && ClosesThreeChain(d)
    ensures forall x :: x in CommitPath(exec, Decides(d)) ==> Decided(certified, x)
  {
    forall x | x in CommitPath(exec, Decides(d)) ensures Decided(certified, x) {
      CommitPathIsBelow(exec, Decides(d), x);
      assert DecidedBy(certified, x, Justify(d));
    }
  }

  lemma ReactOk(certified: iset<Digest>, c: Chain, e: Event)
    requires ChainOk(certified, c) && LockCovers(c) && Justified(certified, c, e)
    ensures ChainOk(certified, React(c, e)) && LockCovers(React(c, e))
  {
    match e
    case Request(_) =>
    case Certified(qc) => SameBlocksOk(certified, c, RaiseHigh(c, qc));
    case Received(b) =>
      var c1 := Ingest(c, b);
      var c2 := if Accepts(c, e) then c1.(voteHeight := b.height) else c1;
      IngestOk(certified, c, b);
      SameBlocksOk(certified, c1, c2);
      UpdateOk(certified, c2, DigestOf(b));
    case Proposed(b) =>
      var c1 := Ingest(c, b);
      var c2 := c1.(voteHeight := b.height, leaf := DigestOf(b));
      IngestOk(certified, c, b);
      SameBlocksOk(certified, c1, c2);
      UpdateOk(certified, c2, DigestOf(b));
  }

  lemma FinalizedIsDecided(certified: iset<Digest>, c: Chain, e: Event)
    requires Justified(certified, c, e)
    ensures forall x :: x in FinalizedBy(c, e) ==> Decided(certified, x)
  {
    if BlockOf(e).Some? && ClosesThreeChain(DigestOf(BlockOf(e).value)) {
      PathIsDecided(certified, c.execute, DigestOf(BlockOf(e).value));
    }
  }

  function NewBallot(c: Chain, e: Event): Ballot
    requires Accepts(c, e)
  {
    Ballot(DigestOf(BlockOf(e).value), c.lock)
  }

  lemma NewBallotOk(certified: iset<Digest>, c: Chain, ballots: seq<Ballot>, e: Event)
    requires ChainOk(certified, c) && LockCovers(c) && BallotsOk(certified, c, ballots)
    requires Justified(certified, c, e) && Accepts(c, e)
    ensures BallotOk(certified, React(c, e), NewBallot(c, e))
    ensures forall k :: 0 <= k < |ballots| ==> BallotsInOrder(ballots[k], NewBallot(c, e))
  {
    ReactMoves(c, e);
    forall k | 0 <= k < |ballots| ensures BallotsInOrder(ballots[k], NewBallot(c, e)) {
      assert BallotOk(certified, c, ballots[k]);
    }
  }

  lemma OldBallotsOk(certified: iset<Digest>, c: Chain, ballots: seq<Ballot>, e: Event)
    requires BallotsOk(certified, c, ballots) && CanHandle(c, e)
    ensures BallotsOk(certified, React(c, e), ballots)
  {
    ReactMoves(c, e);
    forall k | 0 <= k < |ballots| ensures BallotOk(certified, React(c, e), ballots[k]) {
      assert BallotOk(certified, c, ballots[k]);
    }
  }

  lemma AdvanceBallots(r: Replica, e: Event)
    requires Configured(r.core) && CanHandle(r.core.chain, e)
    ensures Advance(r, e).core.chain == React(r.core.chain, e)
    ensures Advance(r, e).ballots == (if Accepts(r.core.chain, e) then r.ballots + [NewBallot(r.core.chain, e)]
      else r.ballots)
    ensures Advance(r, e).finalized == r.finalized + FinalizedBy(r.core.chain, e)
  {
    HandleEmits(r.core, e);
  }

  lemma MovedReplicaOk(certified: iset<Digest>, r: Replica, e: Event, r': Replica)
    requires ReplicaOk(certified, r) && Justified(certified, r.core.chain, e)
    requires r'.core.chain == React(r.core.chain, e)
    requires r'.ballots == (if Accepts(r.core.chain, e) then r.ballots + [NewBallot(r.core.chain, e)] else r.ballots)
    requires r'.finalized == r.finalized + FinalizedBy(r.core.chain, e)
    ensures ReplicaOk(certified, r')
  {
    hide ChainOk, LockCovers, React, Decided, FinalizedBy, Accepts, NewBallot;
    ReactOk(certified, r.core.chain, e);
    FinalizedIsDecided(certified, r.core.chain, e);
    OldBallotsOk(certified, r.core.chain, r.ballots, e);
    if Accepts(r.core.chain, e) {
      NewBallotOk(certified, r.core.chain, r.ballots, e);
    }
  }

  lemma AdvanceOk(certified: iset<Digest>, r: Replica, e: Event)
    requires ReplicaOk(certified, r) && Configured(r.core) && Justified(certified, r.core.chain, e)
    ensures ReplicaOk(certified, Advance(r, e))
  {
    AdvanceBallots(r, e);
    MovedReplicaOk(certified, r, e, Advance(r, e));
  }

  lemma HonestStepGrows(cfg: Quorums.Config, s: System, s': System, i: ReplicaId, e: Event)
    requires HonestStep(cfg, s, s', i, e)
    ensures Grows(cfg, s, s')
  {
    forall j, d | Voted(cfg, s, j, d) ensures Voted(cfg, s', j, d) {
      if j !in cfg.byzantine && j == i {
        var k :| 0 <= k < |s.replicas[i].ballots| && s.replicas[i].ballots[k].block == d;
        assert s'.replicas[i].ballots[k].block == d;
      }
    }
  }

  lemma ReplacementOk(cfg: Quorums.Config, s: System, s': System, i: ReplicaId, r: Replica)
    requires Inv(cfg, s) && Grows(cfg, s, s') && ReplicaOk(Certificates(cfg, s), r)
    requires i in s.replicas && s'.replicas == s.replicas[i := r]
    ensures Inv(cfg, s')
  {
    CertificatesGrow(cfg, s, s');
    AllOkGrow(Certificates(cfg, s), Certificates(cfg, s'), s'.replicas);
  }

  lemma HonestStepKeepsInv(cfg: Quorums.Config, s: System, s': System, i: ReplicaId, e: Event)
    requires Inv(cfg, s) && EventMeets(WellFormedBlocks, e) && HonestStep(cfg, s, s', i, e)
    ensures Inv(cfg, s')
  {
    HonestStepGrows(cfg, s, s', i, e);
    AdmittedIsJustified(cfg, s, s.replicas[i].core.chain, e);
    AdvanceOk(Certificates(cfg, s), s.replicas[i], e);
    ReplacementOk(cfg, s, s', i, Advance(s.replicas[i], e));
  }

  lemma ByzantineStepKeepsInv(cfg: Quorums.Config, s: System, s': System, i: ReplicaId, d: Digest)
    requires Inv(cfg, s) && ByzantineStep(cfg, s, s', i, d)
    ensures Inv(cfg, s')
  {
    assert Grows(cfg, s, s');
    CertificatesGrow(cfg, s, s');
    AllOkGrow(Certificates(cfg, s), Certificates(cfg, s'), s'.replicas);
  }

  lemma NextKeepsInv(cfg: Quorums.Config, s: System, s': System)
    requires Inv(cfg, s) && Next(WellFormedBlocks, cfg, s, s')
    ensures Inv(cfg, s')
  {
    if i, e :| EventMeets(WellFormedBlocks, e) && HonestStep(cfg, s, s', i, e) {
      HonestStepKeepsInv(cfg, s, s', i, e);
    } else {
      var i, d :| ByzantineStep(cfg, s, s', i, d);
      ByzantineStepKeepsInv(cfg, s, s', i, d);
    }
  }

  lemma {:induction false} RunKeepsInv(cfg: Quorums.Config, run: seq<System>, k: nat)
    requires IsRun(WellFormedBlocks, cfg, run) && k < |run|
    ensures Inv(cfg, run[k])
  {
    if k > 0 {
      RunKeepsInv(cfg, run, k - 1);
      assert StepAt(WellFormedBlocks, cfg, run, k - 1);
      NextKeepsInv(cfg, run[k - 1], run[k]);
    }
  }

  lemma StepKeepsFinalized(a: Assumption, cfg: Quorums.Config, run: seq<System>, k: nat, i: ReplicaId)
    requires Steps(a, cfg, run) && k + 1 < |run| && i in run[k].replicas
    ensures i in run[k + 1].replicas && run[k].replicas[i].finalized <= run[k + 1].replicas[i].finalized
  {
    assert StepAt(a, cfg, run, k);
  }

  /** What an honest replica finalized stays finalized. */
  lemma {:induction false} FinalizedStays(a: Assumption, cfg: Quorums.Config, run: seq<System>, k: nat, m: nat,
      i: ReplicaId)
    requires Steps(a, cfg, run) && k <= m < |run| && i in run[k].replicas
    ensures i in run[m].replicas && run[k].replicas[i].finalized <= run[m].replicas[i].finalized
    decreases m
  {
    if k < m {
      FinalizedStays(a, cfg, run, k, m - 1, i);
      StepKeepsFinalized(a, cfg, run, m - 1, i);
      PrefixTransitive(run[k].replicas[i].finalized, run[m - 1].replicas[i].finalized, run[m].replicas[i].finalized);
    }
  }

  // ---- the theorems ----

  /**
   Safety: in every run, whatever two honest replicas finalize, at whatever two
   moments, lies on one chain.
   */
  lemma Safety(cfg: Quorums.Config, run: seq<System>, k: nat, m: nat, i: ReplicaId, j: ReplicaId, d: Digest, e: Digest)
    requires Quorums.Valid(cfg) && IsRun(WellFormedBlocks, cfg, run) && k < |run| && m < |run|
    requires i in run[k].replicas && d in run[k].replicas[i].finalized
    requires j in run[m].replicas && e in run[m].replicas[j].finalized
    ensures Comparable(d, e)
  {
    var last := |run| - 1;
    FinalizedStays(WellFormedBlocks, cfg, run, k, last, i);
    FinalizedStays(WellFormedBlocks, cfg, run, m, last, j);
    RunKeepsInv(cfg, run, last);
    DecidedAreComparable(cfg, run[last], d, e);
  }

  /** In every reachable state at most one block per height has a certificate. */
  lemma CertifiedOncePerHeight(cfg: Quorums.Config, run: seq<System>, k: nat, p: QuorumCert, q: QuorumCert)
    requires Quorums.Valid(cfg) && IsRun(WellFormedBlocks, cfg, run) && k < |run|
    requires ValidCert(cfg, run[k], p) && ValidCert(cfg, run[k], q) && Height(p.node) == Height(q.node)
    ensures p.node == q.node
  {
    RunKeepsInv(cfg, run, k);
    ValidCertIsCertified(cfg, run[k], p);
    ValidCertIsCertified(cfg, run[k], q);
    CertifiedUnique(cfg, run[k], p.node, q.node);
  }
}
