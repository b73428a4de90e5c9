/**
 The HotStuff core as the program runs it (`ReplicaCore`, src/hotstuff/mod.rs:93-342):
 slabs, index tables and keys, updated in place. Every method refines the
 digest-level state machine of HotStuffChain and HotStuffCore.
 */
module HotStuffReplicaCore {
  import opened Commands
  import opened HotStuffTree
  import opened HotStuffChain
  import opened HotStuffCore
  import opened HotStuffTables
  import PoolVariants
  import CommandPool

  class ReplicaCore {
    const id: ReplicaId
    const maxBatchSize: nat

    var voteHeight: nat
    var blockLock: nat
    var blockExecute: nat
    var blockLeaf: nat
    var quorumCertHigh: nat
    var nodes: seq<Node>
    var nodeIndex: map<Digest, nat>
    var quorumCerts: seq<StoredCert>
    var quorumCertIndex: map<Digest, nat>
    var numExtraRound: nat
    const pool: PoolVariants.Pool

    ghost function Slabs(): Tables
      reads this
    {
      Tables(nodes, nodeIndex, quorumCerts, quorumCertIndex)
    }

    /** The tables are consistent and every key is in range. */
    ghost predicate Stored()
      reads this
    {
      && Consistent(Slabs())
      && blockLock < |nodes| && blockExecute < |nodes| && blockLeaf < |nodes| && quorumCertHigh < |quorumCerts|
    }

    ghost predicate Valid()
      reads this, pool.Object()
    {
      && Stored()
      && pool.Object() != this && pool.Valid()
      && Configured(Value())
    }

    ghost function CertAt(key: nat): QuorumCert
      requires Consistent(Slabs()) && key < |quorumCerts|
      reads this
    {
      assert CertOk(Slabs(), key);
      QuorumCert(nodes[quorumCerts[key].node].digest, quorumCerts[key].sig)
    }

    ghost function ChainValue(): Chain
      requires Stored()
      reads this
    {
      Chain(voteHeight, nodes[blockLock].digest, nodes[blockExecute].digest, nodes[blockLeaf].digest,
            CertAt(quorumCertHigh), nodeIndex.Keys, CertsOf(Slabs()))
    }

    ghost function Value(): Core
      requires Stored()
      reads this, pool.Object()
    {
      Core(id, maxBatchSize, ChainValue(), pool.Value(), numExtraRound)
    }

    constructor (id: ReplicaId, maxBatchSize: nat, openLoop: bool)
      requires Configured(HotStuffCore.Init(id, maxBatchSize, openLoop))
      ensures Valid() && fresh(pool.Object()) && Value() == HotStuffCore.Init(id, maxBatchSize, openLoop)
    {
      this.id, this.maxBatchSize := id, maxBatchSize;
      voteHeight, blockLock, blockExecute, blockLeaf, quorumCertHigh := 0, 0, 0, 0, 0;
      nodes, nodeIndex := GENESIS_TABLES.nodes, GENESIS_TABLES.nodeIndex;
      quorumCerts, quorumCertIndex := GENESIS_TABLES.certs, GENESIS_TABLES.certIndex;
      numExtraRound := 0;
      var p := PoolVariants.NewPool(openLoop);
      pool := p;
      new;
      GenesisIsConsistent();
      assert Slabs() == GENESIS_TABLES;
      assert CertOk(Slabs(), 0);
      assert CertsOf(Slabs()) == map[Genesis := GENESIS_SIG];
    }

    /** src/hotstuff/mod.rs:178-185 */
    method UpdateQuorumCertHigh(quorumCert: nat)
      requires Stored() && quorumCert < |quorumCerts|
      modifies this`quorumCertHigh, this`blockLeaf
      ensures Stored()
      ensures ChainValue() == RaiseHigh(old(ChainValue()), CertAt(quorumCert))
    {
      assert CertOk(Slabs(), quorumCert) && CertOk(Slabs(), quorumCertHigh);
      assert NodeOk(Slabs(), quorumCerts[quorumCert].node) && NodeOk(Slabs(), quorumCerts[quorumCertHigh].node);
      if nodes[quorumCerts[quorumCert].node].height > nodes[quorumCerts[quorumCertHigh].node].height {
        quorumCertHigh := quorumCert;
        blockLeaf := quorumCerts[quorumCert].node;
      }
    }

    /** src/hotstuff/mod.rs:278-300. The assertion that nothing is replaced is the first precondition of `CanIngest`. */
    method IngestBlock(block: Proposal) returns (key: nat)
      requires Stored() && CanIngest(ChainValue(), block)
      modifies this`nodes, this`nodeIndex, this`quorumCerts, this`quorumCertIndex
      ensures Stored() && key < |nodes| && nodes[key].digest == DigestOf(block)
      ensures ChainValue() == Ingest(old(ChainValue()), block)
    {
      ghost var t := Slabs();
      var justify := block.justify.node;
      IndexedCertKeepsConsistent(t, justify, block.justify.sig);
      if justify !in quorumCertIndex {
        quorumCertIndex := quorumCertIndex[justify := |quorumCerts|];
        quorumCerts := quorumCerts + [StoredCert(nodeIndex[justify], block.justify.sig)];
      }
      assert Slabs() == WithIndexedCert(t, justify, block.justify.sig);
      NodeKeepsConsistent(Slabs(), block);
      key := |nodes|;
      ghost var t' := WithNode(Slabs(), block);
      nodes := nodes + [Node(DigestOf(block), nodeIndex[block.parent], block.commands, quorumCertIndex[justify],
        block.height)];
      nodeIndex := nodeIndex[DigestOf(block) := key];
      assert Slabs() == t';
      KeepsCertAt(t, t', quorumCertHigh);
    }

    /** src/hotstuff/mod.rs:309-317. It stops because a parent has the smaller key and genesis the least height. */
    function ExtendsKey(node: nat, other: nat): (r: bool)
      requires Consistent(Slabs()) && node < |nodes| && other < |nodes|
      reads this
      ensures r == Extends(nodes[node].digest, nodes[other].digest)
      decreases node
    {
      KeysAreDistinct(Slabs(), node, other);
      assert NodeOk(Slabs(), node) && NodeOk(Slabs(), other);
      if node == other then true
      else if nodes[node].height <= nodes[other].height then false
      else ExtendsKey(nodes[node].parent, other)
    }

    /** src/hotstuff/mod.rs:302-307 */
    function ShouldVoteKey(block: nat): (r: bool)
      requires Stored() && block < |nodes|
      reads this
      ensures r == ShouldVote(ChainValue(), nodes[block].digest)
    {
      KeysLead(Slabs(), block);
      KeysLead(Slabs(), blockLock);
      KeysLead(Slabs(), quorumCerts[nodes[block].justify].node);
      nodes[block].height > voteHeight
      && (ExtendsKey(block, blockLock)
          || nodes[quorumCerts[nodes[block].justify].node].height > nodes[blockLock].height)
    }

    /** src/hotstuff/mod.rs:333-341 */
    method OnCommit(block: nat) returns (actions: seq<Action>)
      requires Valid() && block < |nodes|
      modifies pool.Object()
      ensures Valid()
      ensures var path := CommitPath(nodes[blockExecute].digest, nodes[block].digest);
        && actions == Finalizes(path)
        && pool.Value() == CommandPool.CommitAll(old(pool.Value()), Flatten(path))
      decreases block
    {
      assert NodeOk(Slabs(), block) && NodeOk(Slabs(), blockExecute);
      ghost var path := CommitPath(nodes[blockExecute].digest, nodes[block].digest);
      if nodes[blockExecute].height < nodes[block].height {
        assert block > 0;
        actions := OnCommit(nodes[block].parent);
        ghost var front := path[..|path| - 1];
        assert front == CommitPath(nodes[blockExecute].digest, nodes[nodes[block].parent].digest);
        CommitCommands(nodes[block].commands);
        CommitAllConcat(old(pool.Value()), Flatten(front), nodes[block].commands);
        actions := actions + [Finalize(nodes[block].digest)];
      } else {
        actions := [];
      }
    }

    method CommitCommands(commands: seq<Command>)
      requires Valid()
      modifies pool.Object()
      ensures Valid()
      ensures pool.Value() == CommandPool.CommitAll(old(pool.Value()), commands)
    {
      for i := 0 to |commands|
        invariant Valid()
        invariant pool.Value() == CommandPool.CommitAll(old(pool.Value()), commands[..i])
      {
        assert commands[..i + 1][..i] == commands[..i];
        pool.Commit(commands[i]);
      }
      assert commands[..|commands|] == commands;
    }

    /** The first half of `update`: what a stored block's justifications raise. */
    method RaiseFrom(block0: nat)
      requires Stored() && block0 < |nodes|
      modifies this`quorumCertHigh, this`blockLeaf, this`blockLock
      ensures Stored()
      ensures Justify(nodes[block0].digest) in old(ChainValue()).certs
      ensures ChainValue() == Raised(old(ChainValue()), nodes[block0].digest)
    {
      hide Consistent, CertsOf;
      var block1 := StoredJustify(block0);
      var block2 := StoredJustify(block1);
      UpdateQuorumCertHigh(nodes[block0].justify);
      KeysLead(Slabs(), block2);
      KeysLead(Slabs(), blockLock);
      if nodes[block2].height > nodes[blockLock].height {
        blockLock := block2;
      }
    }

    /** `self.quorum_certs[self.nodes[block].justify].node` */
    function StoredJustify(block: nat): (r: nat)
      requires Consistent(Slabs()) && block < |nodes|
      reads this
      ensures r < |nodes| && nodes[r].digest == Justify(nodes[block].digest)
      ensures nodes[block].justify < |quorumCerts| && Justify(nodes[block].digest) in CertsOf(Slabs())
      ensures CertAt(nodes[block].justify) ==
        QuorumCert(Justify(nodes[block].digest), CertsOf(Slabs())[Justify(nodes[block].digest)])
    {
      KeysLead(Slabs(), block);
      quorumCerts[nodes[block].justify].node
    }

    /** src/hotstuff/mod.rs:319-331 */
    method UpdateFrom(block0: nat) returns (actions: seq<Action>)
      requires Valid() && block0 < |nodes|
      modifies this`quorumCertHigh, this`blockLeaf, this`blockLock, this`blockExecute, pool.Object()
      ensures Valid()
      ensures Justify(nodes[block0].digest) in old(ChainValue()).certs
      ensures ChainValue() == Update(old(ChainValue()), nodes[block0].digest)
      ensures actions == Finalizes(PathTo(old(ChainValue()), nodes[block0].digest))
      ensures pool.Value() ==
        CommandPool.CommitAll(old(pool.Value()), Flatten(PathTo(old(ChainValue()), nodes[block0].digest)))
    {
      hide Consistent, CertsOf, CommitPath, RaiseHigh, RaiseLock;
      ghost var s := ChainValue();
      var block1 := StoredJustify(block0);
      var block2 := StoredJustify(block1);
      var block3 := StoredJustify(block2);
      RaisingKeepsExecute(s, nodes[block0].digest);
      RaiseFrom(block0);
      KeysLead(Slabs(), block1);
      KeysLead(Slabs(), block2);
      KeysAreDistinct(Slabs(), nodes[block1].parent, block2);
      KeysAreDistinct(Slabs(), nodes[block2].parent, block3);
      if nodes[block1].parent == block2 && nodes[block2].parent == block3 {
        actions := OnCommit(block3);
        blockExecute := block3;
      } else {
        actions := [];
      }
    }

    /** src/hotstuff/mod.rs:210-241, inlined `onPropose` and `createLeaf` */
    method OnBeatOf(commands: Option<seq<Command>>) returns (actions: seq<Action>)
      requires Valid() && (commands == Some([]) ==> id != LEADER || numExtraRound > 0)
      modifies this`numExtraRound
      ensures Valid()
      ensures (Value(), actions) == OnBeat(old(Value()), commands)
    {
      hide Consistent, CertsOf;
      if id == LEADER && (commands.Some? || numExtraRound > 0) {
        var batch := if commands.Some? then commands.value else [];
        numExtraRound := if batch == [] then numExtraRound - 1 else 3;
        KeysLead(Slabs(), blockLeaf);
        KeysInRange(Slabs(), quorumCertHigh);
        var justify := QuorumCert(nodes[quorumCerts[quorumCertHigh].node].digest, quorumCerts[quorumCertHigh].sig);
        return [Propose(Proposal(nodes[blockLeaf].digest, batch, justify, nodes[blockLeaf].height + 1))];
      }
      return [];
    }

    /** src/hotstuff/mod.rs:187-208 */
    method BeatNow() returns (actions: seq<Action>)
      requires Valid()
      modifies this`numExtraRound, pool.Object()
      ensures Valid()
      ensures (Value(), actions) == Beat(old(Value()))
    {
      hide Consistent, CertsOf, CommandPool.CloseBatch;
      KeysInRange(Slabs(), quorumCertHigh);
      KeysAreDistinct(Slabs(), quorumCerts[quorumCertHigh].node, blockLeaf);
      if quorumCerts[quorumCertHigh].node == blockLeaf {
        BatchesAreFull(pool.Value(), maxBatchSize);
        var commands := pool.TakeBatch(maxBatchSize);
        actions := OnBeatOf(commands);
      } else {
        actions := [];
      }
    }

    /** Store the block of an event, and move to its height if it wins this replica's vote. */
    method StoreAndVote(event: Event) returns (key: nat, votes: bool)
      requires Stored() && BlockOf(event).Some? && CanHandle(ChainValue(), event)
      modifies this`nodes, this`nodeIndex, this`quorumCerts, this`quorumCertIndex, this`voteHeight, this`blockLeaf
      ensures Stored() && key < |nodes| && nodes[key].digest == DigestOf(BlockOf(event).value)
      ensures votes == Accepts(old(ChainValue()), event)
      ensures ChainValue() == ReadyToUpdate(old(ChainValue()), event)
    {
      hide Consistent, CertsOf, ShouldVote;
      var block := BlockOf(event).value;
      key := IngestBlock(block);
      KeysLead(Slabs(), key);
      votes := ShouldVoteKey(key);
      if event.Proposed? {
        assert votes;
        voteHeight := nodes[key].height;
        blockLeaf := key;
      } else if votes {
        voteHeight := nodes[key].height;
      }
    }

    /** The two arms of `handle` that store a block: its proposer's, and every other replica's. */
    method StoreBlock(event: Event) returns (actions: seq<Action>)
      requires Valid() && BlockOf(event).Some? && CanHandle(ChainValue(), event)
      modifies this, pool.Object()
      ensures Valid() && numExtraRound == old(numExtraRound)
      ensures ChainValue() == React(old(ChainValue()), event)
      ensures actions == ReactActions(old(ChainValue()), event)
      ensures pool.Value() == CommandPool.CommitAll(old(pool.Value()), Flatten(FinalizedBy(old(ChainValue()), event)))
    {
      hide Consistent, CertsOf, Update, PathTo, React, FinalizedBy, Accepts, ReadyToUpdate;
      StoringReacts(ChainValue(), event);
      var key, votes := StoreAndVote(event);
      var finalizes := UpdateFrom(key);
      actions := (if votes then [Vote(nodes[key].digest)] else []) + finalizes;
    }

    /** The arm of `handle` for a certificate formed from votes; it is stored but not indexed. */
    method StoreCert(cert: QuorumCert)
      requires Stored() && cert.node in nodeIndex
      modifies this`quorumCerts, this`quorumCertHigh, this`blockLeaf
      ensures Stored()
      ensures ChainValue() == RaiseHigh(old(ChainValue()), cert)
    {
      hide Consistent, CertsOf;
      ghost var t := Slabs();
      NodeKeyInRange(t, cert.node);
      CertKeepsConsistent(t, cert.node, cert.sig);
      quorumCerts := quorumCerts + [StoredCert(nodeIndex[cert.node], cert.sig)];
      assert Slabs() == WithCert(t, cert.node, cert.sig);
      KeepsCertAt(t, Slabs(), quorumCertHigh);
      UpdateQuorumCertHigh(|quorumCerts| - 1);
    }

    /** src/hotstuff/mod.rs:245-276 */
    method HandleEvent(event: Event) returns (actions: seq<Action>)
      requires Valid() && CanHandle(ChainValue(), event)
      modifies this, pool.Object()
      ensures Valid()
      ensures (Value(), actions) == Handle(old(Value()), event)
    {
      hide Consistent, CertsOf, Ingest, Update, Beat;
      match event {
        case Request(command) =>
          pool.Push(command);
          actions := [];
        case Proposed(block) => actions := StoreBlock(event);
        case Received(block) => actions := StoreBlock(event);
        case Certified(cert) =>
          StoreCert(cert);
          actions := [];
      }
      var proposals := BeatNow();
      actions := actions + proposals;
    }
  }

  /** The digest-level state between storing a block and the update it causes. */
  function ReadyToUpdate(s: Chain, e: Event): Chain
    requires BlockOf(e).Some?
  {
    var b := BlockOf(e).value;
    var s1 := Ingest(s, b);
    var s2 := if Accepts(s, e) then s1.(voteHeight := b.height) else s1;
    if e.Proposed? then s2.(leaf := DigestOf(b)) else s2
  }

  lemma StoringReacts(s: Chain, e: Event)
    requires BlockOf(e).Some? && CanHandle(s, e)
    ensures Justify(DigestOf(BlockOf(e).value)) in ReadyToUpdate(s, e).certs
    ensures React(s, e) == Update(ReadyToUpdate(s, e), DigestOf(BlockOf(e).value))
    ensures FinalizedBy(s, e) == PathTo(ReadyToUpdate(s, e), DigestOf(BlockOf(e).value))
  {
  }

  lemma RaisingKeepsExecute(s: Chain, d: Digest)
    requires Justify(d) in s.certs
    ensures Raised(s, d).execute == s.execute
  {
  }

  /** Growing tables keep what an old certificate key means. */
  lemma KeepsCertAt(t: Tables, t': Tables, key: nat)
    requires Consistent(t) && key < |t.certs| && t.certs <= t'.certs && t.nodes <= t'.nodes
    ensures t'.certs[key] == t.certs[key]
    ensures t.certs[key].node < |t.nodes| && t'.nodes[t'.certs[key].node] == t.nodes[t.certs[key].node]
  {
    assert CertOk(t, key);
  }

  lemma {:induction false} CommitAllConcat(p: CommandPool.State, a: seq<Command>, b: seq<Command>)
    ensures CommandPool.CommitAll(CommandPool.CommitAll(p, a), b) == CommandPool.CommitAll(p, a + b)
    decreases |b|
  {
    if b == [] {
      assert a + b == a;
    } else {
      assert (a + b)[..|a + b| - 1] == a + b[..|b| - 1];
      CommitAllConcat(p, a, b[..|b| - 1]);
    }
  }
}
