/**
 Why safety needs both halves of `WellFormedBlocks`.

 The code checks neither. For every number of replicas, and even when none of them
 misbehaves, a proposer that breaks one half while keeping the other can make an
 honest replica finalize two conflicting blocks. In both runs all honest replicas
 receive the same blocks, one after the other.
 */
module HotStuffCounterexamples {
  import opened Commands
  import opened HotStuffTree
  import opened HotStuffChain
  import opened HotStuffCore
  import opened HotStuffSystem
  import CloseLoopPool
  import CommandPool
  import Quorums

  /** What all honest replicas have in common in such a run. */
  datatype Common = Common(chain: Chain, ballots: seq<Ballot>, finalized: seq<Digest>)

  const START := Common(HotStuffChain.Init(), [], [])

  function At(i: ReplicaId, w: Common): Replica {
    Replica(Core(i, 1, w.chain, CommandPool.CloseLoop(CloseLoopPool.EMPTY), 0), w.ballots, w.finalized)
  }

  function Message(d: Digest, sig: Sig): Proposal
    requires d.Hash?
  {
    Proposal(d.block.parent, d.block.commands, QuorumCert(d.block.justify, sig), d.block.height)
  }

  /** No block on the parent chain carries commands. */
  ghost predicate Bare(d: Digest)
    decreases d
  {
    d.Hash? ==> d.block.commands == [] && Bare(d.block.parent)
  }

  predicate HasBallot(ballots: seq<Ballot>, d: Digest) {
    exists k :: 0 <= k < |ballots| && ballots[k].block == d
  }

  ghost predicate Deliverable(w: Common, d: Digest, sig: Sig) {
    && d.Hash? && Bare(d) && Bare(Decides(d))
    && CanIngest(w.chain, Message(d, sig))
    && (Justify(d) == Genesis || HasBallot(w.ballots, Justify(d)))
  }

  function Deliver(w: Common, d: Digest, sig: Sig): Common
    requires d.Hash? && CanIngest(w.chain, Message(d, sig))
  {
    var e := Received(Message(d, sig));
    Common(
      React(w.chain, e),
      w.ballots + (if Accepts(w.chain, e) then [Ballot(d, w.chain.lock)] else []),
      w.finalized + PathTo(w.chain, d))
  }

  // ---- one block, delivered to every honest replica ----

  lemma {:induction false} BarePathIsEmpty(exec: Digest, target: Digest)
    requires Bare(target)
    ensures Flatten(CommitPath(exec, target)) == []
    decreases target
  {
    if Height(exec) < Height(target) {
      BarePathIsEmpty(exec, target.block.parent);
      var p := CommitPath(exec, target);
      assert p[..|p| - 1] == CommitPath(exec, target.block.parent);
    }
  }

  lemma AdvanceAt(i: ReplicaId, w: Common, d: Digest, sig: Sig)
    requires Deliverable(w, d, sig)
    ensures Configured(At(i, w).core)
    ensures Advance(At(i, w), Received(Message(d, sig))) == At(i, Deliver(w, d, sig))
  {
    var e := Received(Message(d, sig));
    var c := At(i, w).core;
    BarePathIsEmpty(w.chain.execute, Decides(d));
    assert PoolAfter(c, e) == c.pool;
    HandleEmits(c, e);
  }

  /** Some replicas have the block already, the others not yet. */
  ghost function Mixed(cfg: Quorums.Config, done: set<ReplicaId>, w: Common, w': Common): System {
    System(map i | i in Quorums.Honest(cfg) :: At(i, if i in done then w' else w), {})
  }

  ghost function Uniform(cfg: Quorums.Config, w: Common): System {
    Mixed(cfg, {}, w, w)
  }

  lemma HonestCount(cfg: Quorums.Config)
    requires Quorums.Valid(cfg)
    ensures |Quorums.Honest(cfg)| >= cfg.n - cfg.f
  {
    assert Quorums.Ids(cfg.n) == Quorums.Honest(cfg) + cfg.byzantine;
  }

  lemma AllSigned(cfg: Quorums.Config, done: set<ReplicaId>, w: Common, w': Common, d: Digest)
    requires Quorums.Valid(cfg) && HasBallot(w.ballots, d) && w.ballots <= w'.ballots
    ensures ValidCert(cfg, Mixed(cfg, done, w, w'), QuorumCert(d, Sig(Quorums.Honest(cfg))))
  {
    var honest := Quorums.Honest(cfg);
    HonestCount(cfg);
    var k :| 0 <= k < |w.ballots| && w.ballots[k].block == d;
    forall i | i in honest ensures Voted(cfg, Mixed(cfg, done, w, w'), i, d) {
      assert w'.ballots[k].block == d;
      assert Mixed(cfg, done, w, w').replicas[i].ballots[k].block == d;
    }
  }

  lemma OneMore(a: Assumption, cfg: Quorums.Config, done: set<ReplicaId>, i: ReplicaId, w: Common, d: Digest)
    requires Quorums.Valid(cfg) && i in Quorums.Honest(cfg) && i !in done
    requires Deliverable(w, d, Sig(Quorums.Honest(cfg))) && Meets(a, d)
    ensures var w' := Deliver(w, d, Sig(Quorums.Honest(cfg)));
      Next(a, cfg, Mixed(cfg, done, w, w'), Mixed(cfg, done + {i}, w, w'))
  {
    var sig := Sig(Quorums.Honest(cfg));
    var w' := Deliver(w, d, sig);
    var e := Received(Message(d, sig));
    var s, s' := Mixed(cfg, done, w, w'), Mixed(cfg, done + {i}, w, w');
    AdvanceAt(i, w, d, sig);
    if Justify(d) != Genesis {
      AllSigned(cfg, done, w, w', Justify(d));
    }
    assert s'.replicas == s.replicas[i := Advance(s.replicas[i], e)];
    assert EventMeets(a, e) && HonestStep(cfg, s, s', i, e);
  }

  lemma StepsSnoc(a: Assumption, cfg: Quorums.Config, run: seq<System>, s: System)
    requires IsRun(a, cfg, run) && Next(a, cfg, Last(run), s)
    ensures IsRun(a, cfg, run + [s])
  {
    hide Next, Starts;
    var run' := run + [s];
    forall k | 0 <= k < |run'| - 1 ensures StepAt(a, cfg, run', k) {
      if k < |run| - 1 {
        assert StepAt(a, cfg, run, k);
      }
    }
  }

  lemma {:induction false} DeliverToRest(a: Assumption, cfg: Quorums.Config, run: seq<System>, done: set<ReplicaId>,
      w: Common, d: Digest)
    returns (run': seq<System>)
    requires Quorums.Valid(cfg) && IsRun(a, cfg, run) && done <= Quorums.Honest(cfg)
    requires Deliverable(w, d, Sig(Quorums.Honest(cfg))) && Meets(a, d)
    requires Last(run) == Mixed(cfg, done, w, Deliver(w, d, Sig(Quorums.Honest(cfg))))
    ensures IsRun(a, cfg, run') && Last(run') == Uniform(cfg, Deliver(w, d, Sig(Quorums.Honest(cfg))))
    decreases Quorums.Honest(cfg) - done
  {
    hide Next, Starts, Steps, Deliver, Meets;
    var w' := Deliver(w, d, Sig(Quorums.Honest(cfg)));
    var rest := Quorums.Honest(cfg) - done;
    if rest == {} {
      assert done == Quorums.Honest(cfg);
      assert Mixed(cfg, done, w, w').replicas == Uniform(cfg, w').replicas;
      run' := run;
    } else {
      var i :| i in rest;
      OneMore(a, cfg, done, i, w, d);
      StepsSnoc(a, cfg, run, Mixed(cfg, done + {i}, w, w'));
      run' := DeliverToRest(a, cfg, run + [Mixed(cfg, done + {i}, w, w')], done + {i}, w, d);
    }
  }

  lemma StartIsRun(a: Assumption, cfg: Quorums.Config)
    ensures IsRun(a, cfg, [Uniform(cfg, START)])
  {
    var s := Uniform(cfg, START);
    forall i | i in s.replicas
      ensures exists b: nat, o ::
        s.replicas[i] == Replica(HotStuffCore.Init(i, b, o), [], []) && Configured(HotStuffCore.Init(i, b, o))
    {
      assert s.replicas[i] == Replica(HotStuffCore.Init(i, 1, false), [], [])
        && Configured(HotStuffCore.Init(i, 1, false));
    }
  }


  // ---- the part of the common state that decides what happens next ----

  datatype Key = Key(voteHeight: nat, lock: Digest, execute: Digest, known: set<Digest>, voted: set<Digest>,
      finalized: seq<Digest>)

  const START_KEY := Key(0, Genesis, Genesis, {Genesis}, {Genesis}, [])

  predicate VotesFor(k: Key, d: Digest) {
    Height(d) > k.voteHeight && (Extends(d, k.lock) || Height(Justify(d)) > Height(k.lock))
  }

  function NextKey(k: Key, d: Digest): Key {
    Key(if VotesFor(k, d) then Height(d) else k.voteHeight,
        if Height(Justify(Justify(d))) > Height(k.lock) then Justify(Justify(d)) else k.lock,
        if ClosesThreeChain(d) then Decides(d) else k.execute,
        k.known + {d},
        if VotesFor(k, d) then k.voted + {d} else k.voted,
        k.finalized + if ClosesThreeChain(d) then CommitPath(k.execute, Decides(d)) else [])
  }

  ghost predicate Possible(a: Assumption, k: Key, d: Digest) {
    && d.Hash? && d !in k.known && Parent(d) in k.known && Justify(d) in k.known && Justify(d) in k.voted
    && Bare(d) && Bare(Decides(d)) && Meets(a, d)
  }

  ghost predicate Shows(w: Common, k: Key) {
    && w.chain.voteHeight == k.voteHeight && w.chain.lock == k.lock && w.chain.execute == k.execute
    && w.chain.known == k.known && w.finalized == k.finalized
    && forall d :: d in k.voted && d.Hash? ==> HasBallot(w.ballots, d)
  }

  lemma DeliverShows(a: Assumption, w: Common, k: Key, d: Digest, sig: Sig)
    requires Shows(w, k) && Possible(a, k, d)
    ensures Deliverable(w, d, sig)
    ensures Shows(Deliver(w, d, sig), NextKey(k, d))
  {
    var w' := Deliver(w, d, sig);
    assert Accepts(w.chain, Received(Message(d, sig))) <==> VotesFor(k, d) by {
      hide Bare, Meets;
    }
    hide Accepts, VotesFor, Extends, CommitPath, Bare, Meets;
    forall x | x in NextKey(k, d).voted && x.Hash? ensures HasBallot(w'.ballots, x) {
      if x in k.voted {
        var j :| 0 <= j < |w.ballots| && w.ballots[j].block == x;
        assert w'.ballots[j].block == x;
      } else {
        assert w'.ballots[|w.ballots|].block == d;
      }
    }
  }

  lemma StartShows()
    ensures Shows(START, START_KEY)
  {
  }

  ghost predicate Moves(a: Assumption, k: Key, d: Digest, k': Key) {
    Possible(a, k, d) && NextKey(k, d) == k'
  }

  /** What deciding each block of `ds` does to the common state, written down in advance. */
  ghost predicate IsTranscript(a: Assumption, ds: seq<Digest>, ks: seq<Key>) {
    && |ks| == |ds| + 1 && ks[0] == START_KEY
    && forall m :: 0 <= m < |ds| ==> Moves(a, ks[m], ds[m], ks[m + 1])
  }

  /** Every prefix of a transcript is a run of the whole system. */
  lemma {:induction false} TranscriptIsRun(a: Assumption, cfg: Quorums.Config, ds: seq<Digest>, ks: seq<Key>, m: nat)
    returns (run: seq<System>, w: Common)
    requires Quorums.Valid(cfg) && IsTranscript(a, ds, ks) && m <= |ds|
    ensures IsRun(a, cfg, run) && Last(run) == Uniform(cfg, w) && Shows(w, ks[m])
  {
    hide Steps, Starts, Shows, NextKey;
    if m == 0 {
      StartIsRun(a, cfg);
      StartShows();
      run, w := [Uniform(cfg, START)], START;
    } else {
      var before, w0 := TranscriptIsRun(a, cfg, ds, ks, m - 1);
      var sig := Sig(Quorums.Honest(cfg));
      assert Moves(a, ks[m - 1], ds[m - 1], ks[m]);
      DeliverShows(a, w0, ks[m - 1], ds[m - 1], sig);
      w := Deliver(w0, ds[m - 1], sig);
      assert Mixed(cfg, {}, w0, w) == Uniform(cfg, w0);
      run := DeliverToRest(a, cfg, before, {}, w0, ds[m - 1]);
    }
  }

  /** A run, an honest replica in its last state, and two conflicting blocks that replica finalized. */
  ghost predicate Conflict(a: Assumption, cfg: Quorums.Config, run: seq<System>, i: ReplicaId, d: Digest, e: Digest) {
    && IsRun(a, cfg, run)
    && i in Quorums.Honest(cfg) && i in Last(run).replicas
    && d in Last(run).replicas[i].finalized && e in Last(run).replicas[i].finalized
    && !Comparable(d, e)
  }

  lemma TranscriptConflicts(a: Assumption, cfg: Quorums.Config, ds: seq<Digest>, ks: seq<Key>, d: Digest, e: Digest)
    requires Quorums.Valid(cfg) && IsTranscript(a, ds, ks)
    requires d in Last(ks).finalized && e in Last(ks).finalized && !Comparable(d, e)
    ensures exists run, i :: Conflict(a, cfg, run, i, d, e)
  {
    var run, w := TranscriptIsRun(a, cfg, ds, ks, |ds|);
    var i := Quorums.HonestMember(cfg, Quorums.Ids(cfg.n));
    assert Conflict(a, cfg, run, i, d, e);
  }

  function Empty(parent: Digest, justify: Digest, height: nat): Digest {
    Hash(Block(parent, [], justify, height))
  }

  // ---- heights may skip: JustifiedBelow alone is not enough ----

  const A1 := Empty(Genesis, Genesis, 1)
  const A2 := Empty(A1, A1, 2)
  const W := Empty(Genesis, Genesis, 3)
  const A3 := Empty(A2, A2, 4)
  const A4 := Empty(A3, A3, 5)
  const X1 := Empty(W, W, 6)
  const X2 := Empty(X1, X1, 7)
  const X3 := Empty(X2, X2, 8)

  const SK1 := Key(1, Genesis, Genesis, {Genesis, A1}, {Genesis, A1}, [])
  const SK2 := Key(2, Genesis, Genesis, SK1.known + {A2}, SK1.known + {A2}, [])
  const SK3 := Key(3, Genesis, Genesis, SK2.known + {W}, SK2.known + {W}, [])
  const SK4 := Key(4, A1, Genesis, SK3.known + {A3}, SK3.known + {A3}, [])
  const SK5 := Key(5, A2, A1, SK4.known + {A4}, SK4.known + {A4}, [A1])
  const SK6 := Key(6, A2, Genesis, SK5.known + {X1}, SK5.known + {X1}, [A1])
  const SK7 := Key(7, W, Genesis, SK6.known + {X2}, SK6.known + {X2}, [A1])
  const SK8 := Key(8, X1, W, SK7.known + {X3}, SK7.known + {X3}, [A1, W])


  lemma SkipA1() ensures Moves(JustifiedBelow, START_KEY, A1, SK1) {}
  lemma SkipA2() ensures Moves(JustifiedBelow, SK1, A2, SK2) {}
  lemma SkipW() ensures Moves(JustifiedBelow, SK2, W, SK3) {}
  lemma SkipA3() ensures Moves(JustifiedBelow, SK3, A3, SK4) {}
  lemma SkipA4() ensures Moves(JustifiedBelow, SK4, A4, SK5) {}
  lemma SkipX1() ensures Moves(JustifiedBelow, SK5, X1, SK6) {}
  lemma SkipX2() ensures Moves(JustifiedBelow, SK6, X2, SK7) {}
  lemma SkipX3() ensures Moves(JustifiedBelow, SK7, X3, SK8) {}

  const SKIP_BLOCKS := [A1, A2, W, A3, A4, X1, X2, X3]
  const SKIP_KEYS := [START_KEY, SK1, SK2, SK3, SK4, SK5, SK6, SK7, SK8]

  lemma SkipIncomparable()
    ensures !Comparable(A1, W)
  {
  }

  lemma SkipMoves(m: nat)
    requires m < 8
    ensures Moves(JustifiedBelow, SKIP_KEYS[m], SKIP_BLOCKS[m], SKIP_KEYS[m + 1])
  {
    hide Moves, Possible, NextKey;
    match m
    case 0 => SkipA1();
    case 1 => SkipA2();
    case 2 => SkipW();
    case 3 => SkipA3();
    case 4 => SkipA4();
    case 5 => SkipX1();
    case 6 => SkipX2();
    case 7 => SkipX3();
  }

  /** Heights may rise by more than one: replicas finalize both A1 and W, two children of genesis. */
  lemma SkippedHeightsBreakSafety(cfg: Quorums.Config)
    requires Quorums.Valid(cfg)
    ensures exists run, i :: Conflict(JustifiedBelow, cfg, run, i, A1, W)
  {
    hide Moves, Conflict;
    forall m | 0 <= m < 8 ensures Moves(JustifiedBelow, SKIP_KEYS[m], SKIP_BLOCKS[m], SKIP_KEYS[m + 1]) {
      SkipMoves(m);
    }
    SkipIncomparable();
    hide Comparable;
    TranscriptConflicts(JustifiedBelow, cfg, SKIP_BLOCKS, SKIP_KEYS, A1, W);
  }

  // ---- the justified block may lie elsewhere: ConsecutiveHeights alone is not enough ----

  const B3 := Empty(A2, A2, 3)
  const F1 := Empty(Genesis, A1, 1)
  const F2 := Empty(F1, Genesis, 2)
  const F3 := Empty(F2, Genesis, 3)
  const C4 := Empty(F3, B3, 4)
  const C5 := Empty(C4, C4, 5)
  const C6 := Empty(C5, C5, 6)
  const C7 := Empty(C6, C6, 7)

  const JK3 := Key(3, A1, Genesis, SK2.known + {B3}, SK2.voted + {B3}, [])
  const JK4 := JK3.(known := JK3.known + {F1})
  const JK5 := JK3.(known := JK4.known + {F2})
  const JK6 := JK3.(known := JK5.known + {F3})
  const JK7 := Key(4, A2, A1, JK6.known + {C4}, JK6.voted + {C4}, [A1])
  const JK8 := Key(5, B3, A1, JK7.known + {C5}, JK7.voted + {C5}, [A1])
  const JK9 := Key(6, C4, A1, JK8.known + {C6}, JK8.voted + {C6}, [A1])
  const JK10 := Key(7, C5, C4, JK9.known + {C7}, JK9.voted + {C7}, [A1, F2, F3, C4])


  lemma AsideA1() ensures Moves(ConsecutiveHeights, START_KEY, A1, SK1) {}
  lemma AsideA2() ensures Moves(ConsecutiveHeights, SK1, A2, SK2) {}
  lemma AsideB3() ensures Moves(ConsecutiveHeights, SK2, B3, JK3) {}
  lemma AsideF1() ensures Moves(ConsecutiveHeights, JK3, F1, JK4) {}
  lemma AsideF2() ensures Moves(ConsecutiveHeights, JK4, F2, JK5) {}
  lemma AsideF3() ensures Moves(ConsecutiveHeights, JK5, F3, JK6) {}
  lemma AsideC4() ensures Moves(ConsecutiveHeights, JK6, C4, JK7) {}
  lemma AsideC5() ensures Moves(ConsecutiveHeights, JK7, C5, JK8) {}
  lemma AsideC6() ensures Moves(ConsecutiveHeights, JK8, C6, JK9) {}
  lemma AsideC7() ensures Moves(ConsecutiveHeights, JK9, C7, JK10) {}

  const ASIDE_BLOCKS := [A1, A2, B3, F1, F2, F3, C4, C5, C6, C7]
  const ASIDE_KEYS := [START_KEY, SK1, SK2, JK3, JK4, JK5, JK6, JK7, JK8, JK9, JK10]

  lemma AsideIncomparable()
    ensures !Comparable(A1, C4)
  {
  }

  lemma AsideMoves(m: nat)
    requires m < 10
    ensures Moves(ConsecutiveHeights, ASIDE_KEYS[m], ASIDE_BLOCKS[m], ASIDE_KEYS[m + 1])
  {
    hide Moves, Possible, NextKey;
    match m
    case 0 => AsideA1();
    case 1 => AsideA2();
    case 2 => AsideB3();
    case 3 => AsideF1();
    case 4 => AsideF2();
    case 5 => AsideF3();
    case 6 => AsideC4();
    case 7 => AsideC5();
    case 8 => AsideC6();
    case 9 => AsideC7();
  }

  /** C4 justifies a block of another branch: replicas finalize both A1 and, off to the side, C4. */
  lemma JustifyingAsideBreaksSafety(cfg: Quorums.Config)
    requires Quorums.Valid(cfg)
    ensures exists run, i :: Conflict(ConsecutiveHeights, cfg, run, i, A1, C4)
  {
    hide Moves, Conflict;
    forall m | 0 <= m < 10 ensures Moves(ConsecutiveHeights, ASIDE_KEYS[m], ASIDE_BLOCKS[m], ASIDE_KEYS[m + 1]) {
      AsideMoves(m);
    }
    AsideIncomparable();
    hide Comparable;
    TranscriptConflicts(ConsecutiveHeights, cfg, ASIDE_BLOCKS, ASIDE_KEYS, A1, C4);
  }
}
