/**
 Runs of a HotStuff system: honest replicas run `HotStuffCore.Handle`, up to f
 others send whatever they like, and messages arrive in any order, late or never.

 Blocks come from an arbitrary proposer. A signature counts as valid when n - f
 distinct replicas signed (src/crypto/threshold.rs:263-272), and an honest
 replica's signature exists only if it voted.
 */
module HotStuffSystem {
  import opened HotStuffTree
  import opened HotStuffChain
  import opened HotStuffCore
  import Quorums

  /** A vote of an honest replica, with the lock it held when it voted. */
  datatype Ballot = Ballot(block: Digest, lock: Digest)

  datatype Replica = Replica(core: Core, ballots: seq<Ballot>, finalized: seq<Digest>)

  datatype System = System(replicas: map<ReplicaId, Replica>, forged: set<(ReplicaId, Digest)>)

  ghost predicate VotedFor(r: Replica, d: Digest) {
    exists k :: 0 <= k < |r.ballots| && r.ballots[k].block == d
  }

  ghost predicate Voted(cfg: Quorums.Config, s: System, i: ReplicaId, d: Digest) {
    if i in cfg.byzantine then (i, d) in s.forged else i in s.replicas && VotedFor(s.replicas[i], d)
  }

  ghost function Voters(cfg: Quorums.Config, s: System, d: Digest): set<ReplicaId> {
    set i | i in Quorums.Ids(cfg.n) && Voted(cfg, s, i, d)
  }

  ghost predicate IsCertified(cfg: Quorums.Config, s: System, d: Digest) {
    d == Genesis || |Voters(cfg, s, d)| >= cfg.n - cfg.f
  }

  ghost function Certificates(cfg: Quorums.Config, s: System): iset<Digest> {
    iset d | IsCertified(cfg, s, d)
  }

  /** What `verify_digest` accepts, given that signatures cannot be forged. */
  ghost predicate ValidCert(cfg: Quorums.Config, s: System, qc: QuorumCert) {
    qc.node == Genesis || (|qc.sig.signers| >= cfg.n - cfg.f && qc.sig.signers <= Voters(cfg, s, qc.node))
  }

  /**
   What is taken for granted about blocks that honest replicas process. The code
   copies height and justification from the message unchecked
   (src/hotstuff/mod.rs:278-300); HotStuffSafety needs `WellFormedBlocks`, and
   HotStuffCounterexamples shows that neither half of it is enough alone.
   */
  datatype Assumption = WellFormedBlocks | ConsecutiveHeights | JustifiedBelow

  ghost predicate Meets(a: Assumption, d: Digest) {
    d.Hash? ==>
      match a
      case WellFormedBlocks => WellFormed(d)
      case ConsecutiveHeights => d.block.height == Height(d.block.parent) + 1
      case JustifiedBelow => d.block.height > Height(d.block.parent) && Ancestor(d.block.justify, d.block.parent)
  }

  ghost predicate EventMeets(a: Assumption, e: Event) {
    BlockOf(e).Some? ==> Meets(a, DigestOf(BlockOf(e).value))
  }

  // ---- runs ----

  ghost predicate Starts(cfg: Quorums.Config, s: System) {
    && s.forged == {}
    && s.replicas.Keys == Quorums.Honest(cfg)
    && forall i :: i in s.replicas ==> exists b: nat, o ::
         s.replicas[i] == Replica(HotStuffCore.Init(i, b, o), [], []) && Configured(HotStuffCore.Init(i, b, o))
  }

  /** A message an honest replica accepts for processing. */
  ghost predicate Admits(cfg: Quorums.Config, s: System, c: Chain, e: Event) {
    && CanHandle(c, e)
    && match e
       case Request(_) => true
       case Received(b) => b.justify.node in c.certs || ValidCert(cfg, s, b.justify)
       case Proposed(b) => b.justify.node in c.certs || ValidCert(cfg, s, b.justify)
       case Certified(qc) => ValidCert(cfg, s, qc)
  }

  function BallotOf(c: Chain, e: Event, actions: seq<Action>): seq<Ballot> {
    match e
    case Received(b) => if Votes(actions, DigestOf(b)) then [Ballot(DigestOf(b), c.lock)] else []
    case Proposed(b) => if Votes(actions, DigestOf(b)) then [Ballot(DigestOf(b), c.lock)] else []
    case _ => []
  }

  function Advance(r: Replica, e: Event): Replica
    requires Configured(r.core) && CanHandle(r.core.chain, e)
  {
    var h := Handle(r.core, e);
    Replica(h.0, r.ballots + BallotOf(r.core.chain, e, h.1), r.finalized + Finalized(h.1))
  }

  ghost predicate HonestStep(cfg: Quorums.Config, s: System, s': System, i: ReplicaId, e: Event) {
    && i in s.replicas
    && Configured(s.replicas[i].core)
    && Admits(cfg, s, s.replicas[i].core.chain, e)
    && s' == s.(replicas := s.replicas[i := Advance(s.replicas[i], e)])
  }

  ghost predicate ByzantineStep(cfg: Quorums.Config, s: System, s': System, i: ReplicaId, d: Digest) {
    i in cfg.byzantine && s' == s.(forged := s.forged + {(i, d)})
  }

  ghost predicate Next(a: Assumption, cfg: Quorums.Config, s: System, s': System) {
    || (exists i, e :: EventMeets(a, e) && HonestStep(cfg, s, s', i, e))
    || (exists i, d :: ByzantineStep(cfg, s, s', i, d))
  }

  ghost predicate StepAt(a: Assumption, cfg: Quorums.Config, run: seq<System>, k: int)
    requires 0 <= k < |run| - 1
  {
    Next(a, cfg, run[k], run[k + 1])
  }

  ghost predicate Steps(a: Assumption, cfg: Quorums.Config, run: seq<System>) {
    forall k {:trigger StepAt(a, cfg, run, k)} :: 0 <= k < |run| - 1 ==> StepAt(a, cfg, run, k)
  }

  ghost predicate IsRun(a: Assumption, cfg: Quorums.Config, run: seq<System>) {
    && run != []
    && Starts(cfg, run[0])
    && Steps(a, cfg, run)
  }
}
