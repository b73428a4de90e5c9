/**
 What a HotStuff replica keeps about blocks and certificates, and how an event
 moves it (`ReplicaCore`, src/hotstuff/mod.rs:93-342, without pool and pacemaker).

 This is the simple form, over digests: no slab keys, no index tables. The class
 in HotStuffReplicaCore keeps the program's tables and refines it.
 */
module HotStuffChain {
  import opened Commands
  import opened HotStuffTree

  type ReplicaId = nat

  /** An aggregated signature, reduced to who took part in it. */
  datatype Sig = Sig(signers: set<ReplicaId>)
  datatype QuorumCert = QuorumCert(node: Digest, sig: Sig)

  /** A block as it travels (message::Block). */
  datatype Proposal = Proposal(parent: Digest, commands: seq<Command>, justify: QuorumCert, height: nat)

  function DigestOf(b: Proposal): Digest {
    Hash(Block(b.parent, b.commands, b.justify.node, b.height))
  }

  const GENESIS_SIG := Sig({})

  datatype Chain = Chain(
    voteHeight: nat,
    lock: Digest,
    execute: Digest,
    leaf: Digest,
    high: QuorumCert,
    known: set<Digest>,
    certs: map<Digest, Sig>)

  datatype Event =
    | Request(command: Command)
    | Received(block: Proposal)
    | Proposed(block: Proposal)
    | Certified(cert: QuorumCert)

  function Init(): Chain {
    Chain(0, Genesis, Genesis, Genesis, QuorumCert(Genesis, GENESIS_SIG), {Genesis}, map[Genesis := GENESIS_SIG])
  }

  predicate CanIngest(s: Chain, b: Proposal) {
    DigestOf(b) !in s.known && b.parent in s.known && b.justify.node in s.known
  }

  function Ingest(s: Chain, b: Proposal): (r: Chain)
    ensures b.justify.node in r.certs
  {
    s.(known := s.known + {DigestOf(b)},
       certs := if b.justify.node in s.certs then s.certs else s.certs[b.justify.node := b.justify.sig])
  }

  predicate ShouldVote(s: Chain, d: Digest) {
    Height(d) > s.voteHeight && (Extends(d, s.lock) || Height(Justify(d)) > Height(s.lock))
  }

  function RaiseHigh(s: Chain, cert: QuorumCert): Chain {
    if Height(cert.node) > Height(s.high.node) then s.(high := cert, leaf := cert.node) else s
  }

  function RaiseLock(s: Chain, d: Digest): Chain {
    if Height(d) > Height(s.lock) then s.(lock := d) else s
  }

  /** `d` closes a chain of three certified blocks linked parent to child. */
  predicate ClosesThreeChain(d: Digest) {
    var block1 := Justify(d);
    var block2 := Justify(block1);
    var block3 := Justify(block2);
    Parent(block1) == block2 && Parent(block2) == block3
  }

  function Decides(d: Digest): Digest {
    Justify(Justify(Justify(d)))
  }

  /** What storing `d` raises: the highest certificate and the lock. */
  function Raised(s: Chain, d: Digest): Chain
    requires Justify(d) in s.certs
  {
    RaiseLock(RaiseHigh(s, QuorumCert(Justify(d), s.certs[Justify(d)])), Justify(Justify(d)))
  }

  function Update(s: Chain, d: Digest): Chain
    requires Justify(d) in s.certs
  {
    if ClosesThreeChain(d) then Raised(s, d).(execute := Decides(d)) else Raised(s, d)
  }

  /** The blocks that storing `d` finalizes, in order. */
  function PathTo(s: Chain, d: Digest): seq<Digest> {
    if ClosesThreeChain(d) then CommitPath(s.execute, Decides(d)) else []
  }

  /** The block an event brings in, if it brings one. */
  function BlockOf(e: Event): Option<Proposal> {
    match e
    case Received(b) => Some(b)
    case Proposed(b) => Some(b)
    case _ => None
  }

  /** The event brings a block that the voting rule accepts. */
  predicate Accepts(s: Chain, e: Event) {
    BlockOf(e).Some? && ShouldVote(Ingest(s, BlockOf(e).value), DigestOf(BlockOf(e).value))
  }

  predicate CanHandle(s: Chain, e: Event) {
    match e
    case Request(_) => true
    case Received(b) => CanIngest(s, b)
    case Proposed(b) => CanIngest(s, b) && Accepts(s, e)
    case Certified(qc) => qc.node in s.known
  }

  function React(s: Chain, e: Event): Chain
    requires CanHandle(s, e)
  {
    match e
    case Request(_) => s
    case Received(b) =>
      var s1 := Ingest(s, b);
      Update(if Accepts(s, e) then s1.(voteHeight := b.height) else s1, DigestOf(b))
    case Proposed(b) =>
      Update(Ingest(s, b).(voteHeight := b.height, leaf := DigestOf(b)), DigestOf(b))
    case Certified(qc) => RaiseHigh(s, qc)
  }

  function FinalizedBy(s: Chain, e: Event): seq<Digest> {
    match BlockOf(e)
    case Some(b) => PathTo(s, DigestOf(b))
    case None => []
  }

  /** How far an event moves what is known and the height voted at. */
  lemma ReactMoves(s: Chain, e: Event)
    requires CanHandle(s, e)
    ensures React(s, e).known == (if BlockOf(e).Some? then s.known + {DigestOf(BlockOf(e).value)} else s.known)
    ensures React(s, e).voteHeight == (if Accepts(s, e) then BlockOf(e).value.height else s.voteHeight)
  {
  }
}
