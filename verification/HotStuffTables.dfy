/**
 The append-only slabs of a HotStuff core and their indexes (src/hotstuff/mod.rs:61-107),
 and what they say about the digest-level state.
 */
module HotStuffTables {
  import opened Commands
  import opened HotStuffTree
  import opened HotStuffChain

  datatype Node = Node(digest: Digest, parent: nat, commands: seq<Command>, justify: nat, height: nat)
  datatype StoredCert = StoredCert(node: nat, sig: Sig)

  datatype Tables = Tables(
    nodes: seq<Node>,
    nodeIndex: map<Digest, nat>,
    certs: seq<StoredCert>,
    certIndex: map<Digest, nat>)

  const GENESIS_TABLES := Tables(
    [Node(Genesis, 0, [], 0, 0)], map[Genesis := 0],
    [StoredCert(0, GENESIS_SIG)], map[Genesis := 0])

  /** A stored node spells out its digest, with keys for parent and justification; a parent has the smaller key. */
  ghost predicate NodeOk(t: Tables, k: int)
    requires 0 <= k < |t.nodes|
  {
    var node := t.nodes[k];
    && node.digest in t.nodeIndex && t.nodeIndex[node.digest] == k
    && node.commands == CommandsOf(node.digest) && node.height == Height(node.digest)
    && node.parent < |t.nodes| && t.nodes[node.parent].digest == Parent(node.digest)
    && (k > 0 ==> node.parent < k && node.digest.Hash?)
    && Justify(node.digest) in t.certIndex && node.justify == t.certIndex[Justify(node.digest)]
  }

  ghost predicate NodeIndexed(t: Tables, d: Digest) {
    d in t.nodeIndex ==> t.nodeIndex[d] < |t.nodes| && t.nodes[t.nodeIndex[d]].digest == d
  }

  ghost predicate CertOk(t: Tables, c: int)
    requires 0 <= c < |t.certs|
  {
    t.certs[c].node < |t.nodes|
  }

  ghost predicate CertIndexed(t: Tables, d: Digest) {
    d in t.certIndex ==>
      && t.certIndex[d] < |t.certs|
      && t.certs[t.certIndex[d]].node < |t.nodes|
      && t.nodes[t.certs[t.certIndex[d]].node].digest == d
  }

  ghost predicate Consistent(t: Tables) {
    && 0 < |t.nodes| && t.nodes[0].digest == Genesis
    && (forall k {:trigger NodeOk(t, k)} :: 0 <= k < |t.nodes| ==> NodeOk(t, k))
    && (forall d {:trigger NodeIndexed(t, d)} :: NodeIndexed(t, d))
    && (forall c {:trigger CertOk(t, c)} :: 0 <= c < |t.certs| ==> CertOk(t, c))
    && (forall d {:trigger CertIndexed(t, d)} :: CertIndexed(t, d))
  }

  lemma GenesisIsConsistent()
    ensures Consistent(GENESIS_TABLES)
  {
  }

  /** The signatures the index offers, by certified block. */
  ghost function CertsOf(t: Tables): map<Digest, Sig>
    requires Consistent(t)
  {
    map d | d in t.certIndex :: (assert CertIndexed(t, d); t.certs[t.certIndex[d]].sig)
  }

  // ---- growing ----

  function WithCert(t: Tables, d: Digest, sig: Sig): Tables
    requires d in t.nodeIndex
  {
    t.(certs := t.certs + [StoredCert(t.nodeIndex[d], sig)])
  }

  function WithIndexedCert(t: Tables, d: Digest, sig: Sig): Tables
    requires d in t.nodeIndex
  {
    if d in t.certIndex then t else WithCert(t, d, sig).(certIndex := t.certIndex[d := |t.certs|])
  }

  function WithNode(t: Tables, b: Proposal): Tables
    requires b.parent in t.nodeIndex && b.justify.node in t.certIndex
  {
    var d := DigestOf(b);
    t.(nodes := t.nodes + [Node(d, t.nodeIndex[b.parent], b.commands, t.certIndex[b.justify.node], b.height)],
       nodeIndex := t.nodeIndex[d := |t.nodes|])
  }

  lemma CertKeepsConsistent(t: Tables, d: Digest, sig: Sig)
    requires Consistent(t) && d in t.nodeIndex
    ensures Consistent(WithCert(t, d, sig)) && CertsOf(WithCert(t, d, sig)) == CertsOf(t)
  {
    var t' := WithCert(t, d, sig);
    assert NodeIndexed(t, d);
    forall k | 0 <= k < |t'.nodes| ensures NodeOk(t', k) { assert NodeOk(t, k); }
    forall x ensures NodeIndexed(t', x) { assert NodeIndexed(t, x); }
    forall c | 0 <= c < |t'.certs| ensures CertOk(t', c) { assert c < |t.certs| ==> CertOk(t, c); }
    forall x ensures CertIndexed(t', x) { assert CertIndexed(t, x); }
    forall x | x in t.certIndex ensures CertsOf(t')[x] == CertsOf(t)[x] { assert CertIndexed(t, x); }
  }

  lemma IndexedCertKeepsConsistent(t: Tables, d: Digest, sig: Sig)
    requires Consistent(t) && d in t.nodeIndex
    ensures Consistent(WithIndexedCert(t, d, sig))
    ensures CertsOf(WithIndexedCert(t, d, sig)) == if d in CertsOf(t) then CertsOf(t) else CertsOf(t)[d := sig]
  {
    if d !in t.certIndex {
      var t' := WithIndexedCert(t, d, sig);
      assert NodeIndexed(t, d);
      forall k | 0 <= k < |t'.nodes| ensures NodeOk(t', k) { assert NodeOk(t, k); }
      forall x ensures NodeIndexed(t', x) { assert NodeIndexed(t, x); }
      forall c | 0 <= c < |t'.certs| ensures CertOk(t', c) { assert c < |t.certs| ==> CertOk(t, c); }
      forall x ensures CertIndexed(t', x) { assert CertIndexed(t, x); }
      forall x | x in t.certIndex ensures CertsOf(t')[x] == CertsOf(t)[x] { assert CertIndexed(t, x); }
    }
  }

  lemma NodeKeepsConsistent(t: Tables, b: Proposal)
    requires Consistent(t) && b.parent in t.nodeIndex && b.justify.node in t.certIndex && DigestOf(b) !in t.nodeIndex
    ensures Consistent(WithNode(t, b)) && CertsOf(WithNode(t, b)) == CertsOf(t)
    ensures WithNode(t, b).nodeIndex.Keys == t.nodeIndex.Keys + {DigestOf(b)}
  {
    var t' := WithNode(t, b);
    assert NodeIndexed(t, b.parent);
    forall k | 0 <= k < |t'.nodes| ensures NodeOk(t', k) { assert k < |t.nodes| ==> NodeOk(t, k); }
    forall x ensures NodeIndexed(t', x) { assert NodeIndexed(t, x); }
    forall c | 0 <= c < |t'.certs| ensures CertOk(t', c) { assert CertOk(t, c); }
    forall x ensures CertIndexed(t', x) { assert CertIndexed(t, x); }
    forall x | x in t.certIndex ensures CertsOf(t')[x] == CertsOf(t)[x] { assert CertIndexed(t, x); }
  }

  /** Distinct keys name distinct blocks. */
  lemma KeysAreDistinct(t: Tables, j: nat, k: nat)
    requires Consistent(t) && j < |t.nodes| && k < |t.nodes|
    ensures t.nodes[j].digest == t.nodes[k].digest <==> j == k
  {
    assert NodeOk(t, j) && NodeOk(t, k);
  }

  /** What the key fields of a stored node lead to. */
  lemma KeysLead(t: Tables, k: nat)
    requires Consistent(t) && k < |t.nodes|
    ensures t.nodes[k].height == Height(t.nodes[k].digest) && t.nodes[k].commands == CommandsOf(t.nodes[k].digest)
    ensures t.nodes[k].parent < |t.nodes| && t.nodes[t.nodes[k].parent].digest == Parent(t.nodes[k].digest)
    ensures t.nodes[k].justify < |t.certs| && t.certs[t.nodes[k].justify].node < |t.nodes|
    ensures t.nodes[t.certs[t.nodes[k].justify].node].digest == Justify(t.nodes[k].digest)
    ensures Justify(t.nodes[k].digest) in CertsOf(t)
    ensures t.certs[t.nodes[k].justify].sig == CertsOf(t)[Justify(t.nodes[k].digest)]
  {
    assert NodeOk(t, k);
    assert CertIndexed(t, Justify(t.nodes[k].digest));
  }

  lemma KeysInRange(t: Tables, key: nat)
    requires Consistent(t) && key < |t.certs|
    ensures t.certs[key].node < |t.nodes|
  {
    assert CertOk(t, key);
  }

  lemma NodeKeyInRange(t: Tables, d: Digest)
    requires Consistent(t) && d in t.nodeIndex
    ensures t.nodeIndex[d] < |t.nodes| && t.nodes[t.nodeIndex[d]].digest == d
  {
    assert NodeIndexed(t, d);
  }
}
