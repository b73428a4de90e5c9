/** Finalizing twice, in a whole system: safety puts all decisions of a replica on one branch. */
module HotStuffRepeats {
  import opened HotStuffTree
  import opened HotStuffChain
  import opened HotStuffCore
  import opened HotStuffSystem
  import opened HotStuffSafety
  import opened HotStuffExecution
  import Quorums

  /** `ts` are the decisions that brought the replica where it is. */
  ghost predicate DecidedInOrder(certified: iset<Digest>, r: Replica, ts: seq<Digest>) {
    && r.core.chain.execute == Pointer(ts)
    && r.finalized == Emitted(ts)
    && forall k :: 0 <= k < |ts| ==> Rising(ts[k]) && Decided(certified, ts[k])
  }

  lemma DecidedStays(certified: iset<Digest>, certified': iset<Digest>, r: Replica, ts: seq<Digest>)
    requires DecidedInOrder(certified, r, ts) && certified <= certified'
    ensures DecidedInOrder(certified', r, ts)
  {
    forall k | 0 <= k < |ts| ensures Decided(certified', ts[k]) {
      var top :| DecidedBy(certified, ts[k], top);
      assert DecidedBy(certified', ts[k], top);
    }
  }

  /** The decisions after one more event. */
  function DecisionsAfter(ts: seq<Digest>, e: Event): seq<Digest> {
    match BlockOf(e)
    case Some(b) => if ClosesThreeChain(DigestOf(b)) then ts + [Decides(DigestOf(b))] else ts
    case None => ts
  }

  lemma AdvanceDecides(cfg: Quorums.Config, s: System, i: ReplicaId, e: Event, ts: seq<Digest>)
    requires Quorums.Valid(cfg) && Inv(cfg, s) && i in s.replicas
    requires Configured(s.replicas[i].core) && Admits(cfg, s, s.replicas[i].core.chain, e)
    requires EventMeets(WellFormedBlocks, e)
    requires DecidedInOrder(Certificates(cfg, s), s.replicas[i], ts)
    ensures DecidedInOrder(Certificates(cfg, s), Advance(s.replicas[i], e), DecisionsAfter(ts, e))
  {
    hide ChainOk, LockCovers, BallotsOk, Admits, EventMeets, React, Advance, PathTo, DecidedInOrder, CanHandle;
    var r, c := s.replicas[i], s.replicas[i].core.chain;
    AdmitsHandles(cfg, s, c, e);
    AdvanceBallots(r, e);
    PointerMoves(c, e);
    AdmittedIsJustified(cfg, s, c, e);
    DecisionIsDecided(cfg, s, c, e);
    MoreDecisions(Certificates(cfg, s), r, e, ts, Advance(r, e));
  }

  lemma AdmitsHandles(cfg: Quorums.Config, s: System, c: Chain, e: Event)
    requires Admits(cfg, s, c, e)
    ensures CanHandle(c, e)
  {
  }

  /** What a block with a certified justification decides is decided by it, and heights rise to it. */
  lemma DecisionIsDecided(cfg: Quorums.Config, s: System, c: Chain, e: Event)
    requires Quorums.Valid(cfg) && Inv(cfg, s) && Justified(Certificates(cfg, s), c, e)
    ensures BlockOf(e).Some? && ClosesThreeChain(DigestOf(BlockOf(e).value)) ==>
      var t := Decides(DigestOf(BlockOf(e).value)); Rising(t) && Decided(Certificates(cfg, s), t)
  {
    if BlockOf(e).Some? && ClosesThreeChain(DigestOf(BlockOf(e).value)) {
      var d := DigestOf(BlockOf(e).value);
      CertifiedIsOk(cfg, s, Justify(d));
      assert Ancestor(Decides(d), Decides(d));
      assert DecidedBy(Certificates(cfg, s), Decides(d), Justify(d));
    }
  }

  lemma MoreDecisions(certified: iset<Digest>, r: Replica, e: Event, ts: seq<Digest>, r': Replica)
    requires DecidedInOrder(certified, r, ts)
    requires r'.finalized == r.finalized + FinalizedBy(r.core.chain, e)
    requires var b := BlockOf(e);
      if b.Some? && ClosesThreeChain(DigestOf(b.value)) then
        var t := Decides(DigestOf(b.value)); r'.core.chain.execute == t && Rising(t) && Decided(certified, t)
      else r'.core.chain.execute == r.core.chain.execute
    ensures DecidedInOrder(certified, r', DecisionsAfter(ts, e))
  {
    hide Decided, Decides, ClosesThreeChain;
    var b := BlockOf(e);
    if b.Some? && ClosesThreeChain(DigestOf(b.value)) {
      assert (ts + [Decides(DigestOf(b.value))])[..|ts|] == ts;
    }
  }

  lemma StartDecides(cfg: Quorums.Config, s: System, i: ReplicaId)
    requires Starts(cfg, s) && i in s.replicas
    ensures DecidedInOrder(Certificates(cfg, s), s.replicas[i], [])
  {
  }

  lemma {:induction false} RunDecides(cfg: Quorums.Config, run: seq<System>, k: nat,
      i: ReplicaId) returns (ts: seq<Digest>)
    requires Quorums.Valid(cfg) && IsRun(WellFormedBlocks, cfg, run) && k < |run| && i in run[k].replicas
    ensures DecidedInOrder(Certificates(cfg, run[k]), run[k].replicas[i], ts)
  {
    hide Inv, DecidedInOrder, Starts;
    if k == 0 {
      ts := [];
      StartDecides(cfg, run[0], i);
    } else {
      assert StepAt(WellFormedBlocks, cfg, run, k - 1);
      RunKeepsInv(cfg, run, k - 1);
      ReplicasStay(cfg, run[k - 1], run[k], i);
      ts := RunDecides(cfg, run, k - 1, i);
      ts := StepDecides(cfg, run[k - 1], run[k], i, ts);
    }
  }

  lemma ReplicasStay(cfg: Quorums.Config, s: System, s': System, i: ReplicaId)
    requires Next(WellFormedBlocks, cfg, s, s') && i in s'.replicas
    ensures i in s.replicas
  {
    hide Admits, Advance, EventMeets;
  }

  lemma StepDecides(cfg: Quorums.Config, s: System, s': System, i: ReplicaId,
      ts: seq<Digest>) returns (ts': seq<Digest>)
    requires Quorums.Valid(cfg) && Inv(cfg, s) && Next(WellFormedBlocks, cfg, s, s') && i in s.replicas
    requires i in s'.replicas
    requires DecidedInOrder(Certificates(cfg, s), s.replicas[i], ts)
    ensures DecidedInOrder(Certificates(cfg, s'), s'.replicas[i], ts')
  {
    hide DecidedInOrder, Inv, Admits;
    ts' := ts;
    if j, e :| EventMeets(WellFormedBlocks, e) && HonestStep(cfg, s, s', j, e) {
      HonestStepGrows(cfg, s, s', j, e);
      CertificatesGrow(cfg, s, s');
      if j == i {
        AdvanceDecides(cfg, s, i, e, ts);
        ts' := DecisionsAfter(ts, e);
      }
    } else {
      var j, d :| ByzantineStep(cfg, s, s', j, d);
      assert Grows(cfg, s, s');
      CertificatesGrow(cfg, s, s');
    }
    DecidedStays(Certificates(cfg, s), Certificates(cfg, s'), s'.replicas[i], ts');
  }

  /**
   In every run an honest replica finalizes no block twice exactly if none of its
   decisions lies above a pointer that an earlier one had moved back.
   */
  lemma FinalizesOnceIff(cfg: Quorums.Config, run: seq<System>, k: nat, i: ReplicaId) returns (ts: seq<Digest>)
    requires Quorums.Valid(cfg) && IsRun(WellFormedBlocks, cfg, run) && k < |run| && i in run[k].replicas
    ensures DecidedInOrder(Certificates(cfg, run[k]), run[k].replicas[i], ts)
    ensures NoRepeats(run[k].replicas[i].finalized) <==> forall j :: 0 <= j < |ts| ==> !Rewinds(ts, j)
  {
    hide IsRun, Inv;
    ts := RunDecides(cfg, run, k, i);
    RunKeepsInv(cfg, run, k);
    forall a, b | 0 <= a < |ts| && 0 <= b < |ts| ensures Comparable(ts[a], ts[b]) {
      DecidedAreComparable(cfg, run[k], ts[a], ts[b]);
    }
    FinalizedOnceIff(ts);
  }
}
