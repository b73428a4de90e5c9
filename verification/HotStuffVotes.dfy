/**
 The votes that reach the leader, in order, and what its tallies and certificates
 make of them (src/hotstuff/mod.rs:525-559, src/crypto/threshold.rs:192-216).
 */
module HotStuffVotes {
  import opened HotStuffTree
  import opened HotStuffChain
  import opened HotStuffCore
  import opened HotStuffStableLeader
  import opened HotStuffLeaderLoop
  import Quorums

  /** A vote as it came in, with whether its signature share is a good one. */
  datatype Share = Share(node: Digest, signer: ReplicaId, good: bool)

  predicate IsFrom(share: Share, node: Digest, r: ReplicaId) {
    share.node == node && share.signer == r
  }

  /** Vote number `i` is this replica's last one for the block. */
  ghost predicate IsLast(received: seq<Share>, node: Digest, r: ReplicaId, i: nat) {
    i < |received| && IsFrom(received[i], node, r) && forall j :: i < j < |received| ==> !IsFrom(received[j], node, r)
  }

  /** The replicas that voted for the block. */
  ghost function Senders(received: seq<Share>, node: Digest): set<ReplicaId> {
    set share | share in received && share.node == node :: share.signer
  }

  /** The table holds exactly the last share that each sender sent for the block. */
  ghost predicate HoldsShares(received: seq<Share>, node: Digest, shares: map<ReplicaId, bool>) {
    && Senders(received, node) <= shares.Keys
    && forall r :: r in shares ==> exists i: nat :: IsLast(received, node, r, i) && received[i].good == shares[r]
  }

  lemma SendersAreKeys(received: seq<Share>, node: Digest, shares: map<ReplicaId, bool>)
    requires HoldsShares(received, node, shares)
    ensures Senders(received, node) == shares.Keys && |Senders(received, node)| == |shares|
  {
    forall r | r in shares ensures r in Senders(received, node) {
      var i: nat :| IsLast(received, node, r, i) && received[i].good == shares[r];
      assert received[i] in received;
    }
    assert shares.Keys == Senders(received, node);
  }

  lemma LastStays(received: seq<Share>, share: Share, node: Digest, r: ReplicaId, i: nat)
    requires IsLast(received, node, r, i) && !IsFrom(share, node, r)
    ensures IsLast(received + [share], node, r, i) && (received + [share])[i] == received[i]
  {
  }

  lemma SharesOn(received: seq<Share>, node: Digest, shares: map<ReplicaId, bool>, share: Share)
    requires HoldsShares(received, node, shares)
    ensures HoldsShares(received + [share], node,
                        if share.node == node then shares[share.signer := share.good] else shares)
  {
    var shares' := if share.node == node then shares[share.signer := share.good] else shares;
    forall r | r in shares'
      ensures exists i: nat :: IsLast(received + [share], node, r, i) && (received + [share])[i].good == shares'[r]
    {
      if IsFrom(share, node, r) {
        NewIsLast(received, share);
      } else {
        var i: nat :| IsLast(received, node, r, i) && received[i].good == shares[r];
        LastStays(received, share, node, r, i);
      }
    }
  }

  lemma NewIsLast(received: seq<Share>, share: Share)
    ensures IsLast(received + [share], share.node, share.signer, |received|)
    ensures (received + [share])[|received|] == share
  {
  }

  // ---- certificates ----

  /** All certificates but the one of genesis are signed by exactly those who were asked. */
  predicate Signed(qc: QuorumCert, asked: set<ReplicaId>) {
    qc.node.Hash? ==> qc.sig == Sig(asked)
  }

  ghost predicate AllSigned(s: Chain, asked: set<ReplicaId>) {
    Signed(s.high, asked) && forall d :: d in s.certs ==> Signed(QuorumCert(d, s.certs[d]), asked)
  }

  lemma IngestSigned(s: Chain, b: Proposal, asked: set<ReplicaId>)
    requires AllSigned(s, asked) && Signed(b.justify, asked)
    ensures AllSigned(Ingest(s, b), asked)
  {
  }

  lemma UpdateSigned(s: Chain, d: Digest, asked: set<ReplicaId>)
    requires AllSigned(s, asked) && Justify(d) in s.certs
    ensures AllSigned(Update(s, d), asked)
  {
    hide ClosesThreeChain, Height;
  }

  lemma SameSigned(s: Chain, s': Chain, asked: set<ReplicaId>)
    requires AllSigned(s, asked) && s'.high == s.high && s'.certs == s.certs
    ensures AllSigned(s', asked)
  {
  }

  lemma ReactSigned(s: Chain, e: Event, asked: set<ReplicaId>)
    requires CanHandle(s, e) && AllSigned(s, asked)
    requires BlockOf(e).Some? ==> Signed(BlockOf(e).value.justify, asked)
    requires e.Certified? ==> Signed(e.cert, asked)
    ensures AllSigned(React(s, e), asked)
  {
    hide AllSigned, Signed, Update, Ingest, CanIngest, Accepts;
    match e
    case Request(_) =>
    case Received(b) =>
      var s1 := Ingest(s, b);
      IngestSigned(s, b, asked);
      SameSigned(s1, s1.(voteHeight := b.height), asked);
      UpdateSigned(if Accepts(s, e) then s1.(voteHeight := b.height) else s1, DigestOf(b), asked);
    case Proposed(b) =>
      var s1 := Ingest(s, b).(voteHeight := b.height, leaf := DigestOf(b));
      IngestSigned(s, b, asked);
      SameSigned(Ingest(s, b), s1, asked);
      UpdateSigned(s1, DigestOf(b), asked);
    case Certified(qc) => RaiseSigned(s, qc, asked);
  }

  lemma RaiseSigned(s: Chain, qc: QuorumCert, asked: set<ReplicaId>)
    requires AllSigned(s, asked) && Signed(qc, asked)
    ensures AllSigned(RaiseHigh(s, qc), asked)
  {
  }

  // ---- what the tallies count ----

  /**
   The tally of the last block holds the votes that came for it, the leader's own among
   them once it was cast; `unsigned` is the block it still has to vote for.
   */
  ghost predicate Counted(l: Leader, tallies: map<Digest, Tally>, unsigned: set<Digest>, received: seq<Share>,
      asked: set<ReplicaId>) {
    && AllSigned(l.core.chain, asked)
    && (forall share :: share in received ==> Height(share.node) <= Height(l.tip))
    && (forall d :: d in tallies ==> tallies[d].signers == asked && HoldsShares(received, d, tallies[d].shares))
    && (forall d :: d in tallies && d !in unsigned && LEADER in asked ==> Share(d, LEADER, true) in received)
  }

  /** The leader's own share, if it still has to come, is this one. */
  ghost predicate OwnShare(share: Share, unsigned: set<Digest>) {
    forall d :: d in unsigned ==> share == Share(d, LEADER, true)
  }

  lemma OneMoreShare(l: Leader, tallies: map<Digest, Tally>, unsigned: set<Digest>, received: seq<Share>,
      asked: set<ReplicaId>, quorum: nat, share: Share)
    requires Counted(l, tallies, unsigned, received, asked) && TalliesOk(l, tallies, quorum)
    requires share.node in tallies && OwnShare(share, unsigned)
    ensures var t := WithShare(tallies[share.node], share.signer, share.good); var received' := received + [share];
      && Counted(l, tallies[share.node := t], {}, received', asked) && t.signers == asked
      && |Senders(received', share.node)| == |t.shares|
  {
    hide HoldsShares, Senders, AllSigned;
    var received' := received + [share];
    var t := WithShare(tallies[share.node], share.signer, share.good);
    SharesOn(received, share.node, tallies[share.node].shares, share);
    SendersAreKeys(received', share.node, t.shares);
    assert received'[|received|] == share;
    assert forall s :: s in received' <==> s in received || s == share;
  }

  /** The certificate that comes of a full tally. */
  lemma CertifyCounts(l: Leader, tallies: map<Digest, Tally>, received: seq<Share>, asked: set<ReplicaId>)
    requires Counted(l, tallies, {}, received, asked) && LeaderOk(l) && l.core.chain.high.node != l.tip
    ensures var e := Certified(QuorumCert(l.tip, Sig(asked)));
      && Configured(l.core) && Stimulus(l.core, e)
      && Counted(Stimulated(l, e), map[], {}, received, asked)
      && Stimulated(l, e).core.chain.high == e.cert
  {
    hide LeaderOk, AllSigned, HoldsShares;
    var e := Certified(QuorumCert(l.tip, Sig(asked)));
    TipIsHighest(l, e);
    StimulusHandles(l, e);
    ReactSigned(l.core.chain, e, asked);
  }

  lemma RequestCounts(l: Leader, tallies: map<Digest, Tally>, e: Event, received: seq<Share>, asked: set<ReplicaId>)
    requires Counted(l, tallies, {}, received, asked) && LeaderOk(l) && Stimulus(l.core, e) && e.Request?
    ensures Counted(Stimulated(l, e), tallies, {}, received, asked)
  {
    hide LeaderOk, HoldsShares;
    StimulusHandles(l, e);
  }

  /** No vote has come for a new block. */
  lemma ProposeCounts(l: Leader, b: Proposal, received: seq<Share>, asked: set<ReplicaId>)
    requires Counted(l, map[], {}, received, asked) && Proposing(l, b) && CanHandle(l.core.chain, Proposed(b))
    ensures var d := DigestOf(b);
      && Counted(Stored(l, b), map[d := Tally(map[], asked)], {d}, received, asked)
      && Height(d) > Height(l.tip) && Signed(b.justify, asked)
  {
    hide AllSigned, LeaderForm, Handle, HoldsShares, React, Needs, Line, Flatten, Finalized, CanHandle;
    ProposerWaits(l.core, l.tip, b);
    HighSigned(l.core.chain, asked);
    ReactSigned(l.core.chain, Proposed(b), asked);
    NextIsHigher(l, b);
    NothingHeld(received, DigestOf(b), Height(l.tip));
  }

  lemma NextIsHigher(l: Leader, b: Proposal)
    requires Proposing(l, b)
    ensures Height(DigestOf(b)) == Height(l.tip) + 1
  {
  }

  lemma NothingHeld(received: seq<Share>, d: Digest, height: nat)
    requires Height(d) > height && forall share :: share in received ==> Height(share.node) <= height
    ensures HoldsShares(received, d, map[])
  {
  }

  lemma HighSigned(s: Chain, asked: set<ReplicaId>)
    requires AllSigned(s, asked)
    ensures Signed(s.high, asked)
  {
  }

  lemma SkipCounts(l: Leader, tallies: map<Digest, Tally>, unsigned: set<Digest>, received: seq<Share>,
      asked: set<ReplicaId>)
    requires Counted(l, tallies, unsigned, received, asked) && LEADER !in asked
    ensures Counted(l, tallies, {}, received, asked)
  {
  }

  // ---- between two points of a turn ----

  /** Only own votes have been added, and only newer blocks have been opened for votes. */
  ghost predicate Onward(received: seq<Share>, received': seq<Share>, tip: Digest, tip': Digest,
      tallies: map<Digest, Tally>, tallies': map<Digest, Tally>) {
    && received <= received'
    && (forall i :: |received| <= i < |received'| ==> received'[i].signer == LEADER && received'[i].good)
    && Height(tip) <= Height(tip')
    && (forall d :: d in tallies' ==> d in tallies || Height(d) > Height(tip))
  }

  lemma OnwardOn(r0: seq<Share>, r1: seq<Share>, r2: seq<Share>, t0: Digest, t1: Digest, t2: Digest,
      s0: map<Digest, Tally>, s1: map<Digest, Tally>, s2: map<Digest, Tally>)
    requires Onward(r0, r1, t0, t1, s0, s1) && Onward(r1, r2, t1, t2, s1, s2)
    ensures Onward(r0, r2, t0, t2, s0, s2)
  {
  }

  lemma OnwardFrom(r: seq<Share>, r': seq<Share>, tip: Digest, tip': Digest, tallies: map<Digest, Tally>,
      earlier: map<Digest, Tally>, tallies': map<Digest, Tally>)
    requires Onward(r, r', tip, tip', tallies, tallies') && tallies.Keys <= earlier.Keys
    ensures Onward(r, r', tip, tip', earlier, tallies')
    ensures forall d :: d !in tallies && Height(d) <= Height(tip) ==> d !in tallies'
  {
  }

  lemma OnwardStays(received: seq<Share>, tip: Digest, tallies: map<Digest, Tally>)
    ensures Onward(received, received, tip, tip, tallies, tallies)
  {
  }

  /** Every block goes out with a certificate that its receivers accept, to be signed by those who are asked. */
  predicate SentSigned(outputs: seq<Output>, asked: set<ReplicaId>) {
    forall o :: o in outputs && o.Disseminate? ==> o.signers == asked && Signed(o.block.justify, asked)
  }

  // ---- what the votes come to ----

  /** While a block is not certified, some replica that was asked has not voted for it. */
  lemma SomeoneIsMissing(received: seq<Share>, node: Digest, t: Tally, quorum: nat) returns (r: ReplicaId)
    requires HoldsShares(received, node, t.shares) && TallyOk(t, quorum)
    ensures r in t.signers && r !in Senders(received, node)
  {
    SendersAreKeys(received, node, t.shares);
    if t.signers <= t.shares.Keys {
      Quorums.SubsetCount(t.signers, t.shares.Keys);
    }
    r :| r in t.signers && r !in t.shares;
  }
}
