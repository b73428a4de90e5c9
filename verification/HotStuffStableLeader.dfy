/**
 HotStuff under its one stable leader: blocks come from `beat` and `on_beat` alone
 (src/hotstuff/mod.rs:187-241), each standing directly on the block it justifies.
 Then the state of every replica is a closed form of the last block it stored, and
 the leader keeps proposing exactly until all it took from its pool is finalized.
 */
module HotStuffStableLeader {
  import opened Commands
  import opened HotStuffTree
  import opened HotStuffChain
  import opened HotStuffCore
  import CommandPool

  /** A chain of blocks, each justifying its parent. */
  ghost predicate Straight(d: Digest)
    decreases d
  {
    d.Hash? ==>
      && d.block.parent == d.block.justify
      && d.block.height == Height(d.block.parent) + 1
      && Straight(d.block.parent)
  }

  /** The blocks from the first one after genesis up to `d`. */
  function Line(d: Digest): seq<Digest>
    decreases d
  {
    if d.Genesis? then [] else Line(d.block.parent) + [d]
  }

  /** `d` and everything before it. */
  function Past(d: Digest): set<Digest>
    decreases d
  {
    if d.Genesis? then {Genesis} else Past(d.block.parent) + {d}
  }

  function Parent3(d: Digest): Digest { Parent(Parent(Parent(d))) }

  /** The closed form: everything a replica keeps follows from the last block it stored. */
  ghost predicate ClosedForm(s: Chain, tip: Digest) {
    && Straight(tip)
    && s.known == Past(tip)
    && s.voteHeight == Height(tip)
    && s.lock == Parent(Parent(tip))
    && s.execute == Parent3(tip)
    && s.certs.Keys == Past(Parent(tip))
  }

  /** A backup has seen a certificate for the parent of its last block, and nothing higher. */
  ghost predicate BackupForm(s: Chain, tip: Digest) {
    ClosedForm(s, tip) && s.high.node == Parent(tip) && s.leaf == Parent(tip)
  }

  /** The leader builds on its last block, once that is certified. */
  ghost predicate LeaderForm(s: Chain, tip: Digest) {
    ClosedForm(s, tip) && s.leaf == tip && (s.high.node == tip || s.high.node == Parent(tip))
  }

  lemma {:induction false} StraightRises(d: Digest)
    requires Straight(d)
    ensures Rising(d) && Justify(d) == Parent(d)
    decreases d
  {
    if d.Hash? {
      StraightRises(d.block.parent);
    }
  }

  lemma {:induction false} PastIsAncestors(d: Digest, a: Digest)
    ensures a in Past(d) <==> Ancestor(a, d)
    decreases d
  {
    if d.Hash? {
      PastIsAncestors(d.block.parent, a);
    }
  }

  lemma ParentIsAncestor(d: Digest)
    ensures Ancestor(Parent(d), d)
  {
  }

  lemma StraightTriple(d: Digest)
    requires Straight(d)
    ensures Justify(d) == Parent(d) && Justify(Parent(d)) == Parent(Parent(d))
    ensures Justify(Parent(Parent(d))) == Parent3(d)
    ensures Straight(Parent(d)) && Straight(Parent(Parent(d))) && Straight(Parent3(d))
  {
  }

  lemma NextIsNew(s: Chain, tip: Digest, d: Digest)
    requires ClosedForm(s, tip) && Straight(d) && d.Hash? && d.block.parent == tip
    ensures d !in s.known && tip in s.known
  {
    StraightRises(d);
    PastIsAncestors(tip, d);
    PastIsAncestors(tip, tip);
    if Ancestor(d, tip) {
      AncestorHeight(d, tip);
    }
  }

  lemma NextExtendsLock(s: Chain, tip: Digest, d: Digest)
    requires ClosedForm(s, tip) && Straight(d) && d.Hash? && d.block.parent == tip
    ensures Extends(d, s.lock)
  {
    StraightRises(d);
    ParentIsAncestor(Parent(tip));
    ParentIsAncestor(tip);
    AncestorTransitive(s.lock, Parent(tip), tip);
    assert Ancestor(s.lock, d);
    ExtendsIsAncestor(d, s.lock);
  }

  /** Committing one block further: the parent edge is the whole path. */
  lemma OneBlockPath(d: Digest)
    requires Rising(d)
    ensures CommitPath(Parent(d), d) == if d.Hash? then [d] else []
  {
  }

  /** The next block of the line is voted for, and finalizes one block. */
  lemma NextBlock(s: Chain, tip: Digest, b: Proposal)
    requires ClosedForm(s, tip) && Straight(DigestOf(b)) && b.parent == tip
    ensures CanIngest(s, b) && ShouldVote(Ingest(s, b), DigestOf(b))
    ensures PathTo(s, DigestOf(b)) == if Parent3(DigestOf(b)).Hash? then [Parent3(DigestOf(b))] else []
  {
    var d := DigestOf(b);
    NextIsNew(s, tip, d);
    NextExtendsLock(s, tip, d);
    StraightTriple(d);
    StraightTriple(tip);
    StraightRises(Parent(Parent(tip)));
    OneBlockPath(Parent(Parent(tip)));
  }

  lemma BackupStores(s: Chain, tip: Digest, b: Proposal)
    requires BackupForm(s, tip) && Straight(DigestOf(b)) && b.parent == tip
    ensures CanHandle(s, Received(b)) && Accepts(s, Received(b))
    ensures BackupForm(React(s, Received(b)), DigestOf(b))
    ensures Line(Parent3(DigestOf(b))) == Line(Parent3(tip)) + FinalizedBy(s, Received(b))
  {
    NextBlock(s, tip, b);
    StraightTriple(DigestOf(b));
    StraightTriple(tip);
    PastIsAncestors(tip, tip);
    RaisedForm(s, tip, b);
  }

  /** What the justifications of the next block raise. */
  lemma RaisedForm(s: Chain, tip: Digest, b: Proposal)
    requires ClosedForm(s, tip) && Straight(DigestOf(b)) && b.parent == tip
    ensures tip in Ingest(s, b).certs && Ingest(s, b).certs.Keys == Past(tip)
    ensures Raised(Ingest(s, b), DigestOf(b)).lock == Parent(tip)
    ensures ClosesThreeChain(DigestOf(b)) && Decides(DigestOf(b)) == Parent(Parent(tip))
  {
    var d := DigestOf(b);
    StraightTriple(d);
    StraightTriple(tip);
    StraightRises(tip);
  }

  /** The leader's own block: the check that it may vote for it never fails. */
  lemma LeaderStores(s: Chain, tip: Digest, b: Proposal)
    requires LeaderForm(s, tip) && s.high.node == tip && Straight(DigestOf(b)) && b.parent == tip
    ensures CanHandle(s, Proposed(b))
    ensures LeaderForm(React(s, Proposed(b)), DigestOf(b)) && React(s, Proposed(b)).high.node == tip
    ensures Line(Parent3(DigestOf(b))) == Line(Parent3(tip)) + FinalizedBy(s, Proposed(b))
  {
    NextBlock(s, tip, b);
    StraightTriple(DigestOf(b));
    StraightTriple(tip);
    PastIsAncestors(tip, tip);
    RaisedForm(s, tip, b);
  }

  /** A certificate for any block of the line, new or old, keeps the leader in form. */
  lemma LeaderCertified(s: Chain, tip: Digest, qc: QuorumCert)
    requires LeaderForm(s, tip) && qc.node in s.known
    ensures LeaderForm(RaiseHigh(s, qc), tip)
    ensures qc.node == tip ==> RaiseHigh(s, qc).high.node == tip
  {
    PastIsAncestors(tip, qc.node);
    StraightRises(tip);
    AncestorHeight(qc.node, tip);
    if qc.node != tip && tip.Hash? {
      AncestorHeight(qc.node, tip.block.parent);
    }
  }

  // ---- the leader over its whole run ----

  /** The leader with what it took from its pool, what it finalized, and its last block. */
  datatype Leader = Leader(core: Core, tip: Digest, taken: seq<Command>, finalized: seq<Digest>)

  function Reacted(c: Core, e: Event): Core
    requires CanHandle(c.chain, e)
  {
    c.(chain := React(c.chain, e), pool := PoolAfter(c, e))
  }

  /** The commands `handle` takes out of the pool, whatever becomes of them. */
  function TakenBy(c: Core, e: Event): seq<Command>
    requires Configured(c) && CanHandle(c.chain, e)
  {
    var c' := Reacted(c, e);
    if c'.chain.high.node == c'.chain.leaf then
      match CommandPool.CloseBatch(c'.pool, c'.maxBatchSize).1
      case Some(batch) => batch
      case None => []
    else []
  }

  /** What reaches the core of a leader from outside: requests, and certificates it formed from votes. */
  predicate Stimulus(c: Core, e: Event) {
    (e.Request? || e.Certified?) && CanHandle(c.chain, e)
  }

  ghost predicate Silent(actions: seq<Action>) {
    forall a :: a in actions ==> !a.Propose?
  }

  /**
   One call of the leader's `handle`, followed at once by `handle(Proposed)` when it
   proposed a block (src/hotstuff/mod.rs:566-617).
   */
  ghost predicate Turn(l: Leader, e: Event, l': Leader) {
    && Configured(l.core) && Stimulus(l.core, e)
    && var h := Handle(l.core, e);
       if Silent(h.1) then
         l' == Leader(h.0, l.tip, l.taken + TakenBy(l.core, e), l.finalized + Finalized(h.1))
       else
         exists b :: Follows(l, e, b, l')
  }

  ghost predicate Follows(l: Leader, e: Event, b: Proposal, l': Leader)
    requires Configured(l.core) && Stimulus(l.core, e)
  {
    var h := Handle(l.core, e);
    && Propose(b) in h.1
    && Configured(h.0) && CanHandle(h.0.chain, Proposed(b))
    && l' == Leader(Handle(h.0, Proposed(b)).0, DigestOf(b),
                    l.taken + TakenBy(l.core, e) + TakenBy(h.0, Proposed(b)),
                    l.finalized + Finalized(h.1) + Finalized(Handle(h.0, Proposed(b)).1))
  }

  /** How many more blocks it takes until every command on the line of `d` is finalized. */
  function Needs(d: Digest): (n: nat)
    ensures n <= 3
    decreases d
  {
    if d.Genesis? then 0
    else if d.block.commands != [] then 3
    else if Needs(d.block.parent) == 0 then 0
    else Needs(d.block.parent) - 1
  }

  ghost predicate LeaderOk(l: Leader) {
    && l.core.id == LEADER && Configured(l.core)
    && LeaderForm(l.core.chain, l.tip)
    && l.core.extraRound == Needs(l.tip)
    && l.taken == Flatten(Line(l.tip))
    && l.finalized == Line(Parent3(l.tip))
    && (l.core.chain.high.node == l.core.chain.leaf ==>
         CommandPool.Pending(l.core.pool) == [] && l.core.extraRound == 0)
  }

  /** The leader's proposal, and what is left in the pool, when its last block is certified. */
  lemma BeatProposes(c: Core)
    requires Configured(c) && c.id == LEADER && c.chain.high.node == c.chain.leaf
    ensures var r := CommandPool.CloseBatch(c.pool, c.maxBatchSize);
      var batch := if r.1.Some? then r.1.value else [];
      && (batch == [] <==> CommandPool.Pending(c.pool) == [])
      && if batch == [] && c.extraRound == 0 then Beat(c) == (c.(pool := r.0), [])
         else Beat(c) == (c.(pool := r.0, extraRound := if batch == [] then c.extraRound - 1 else 3),
                          [Propose(Proposal(c.chain.leaf, batch, c.chain.high, Height(c.chain.leaf) + 1))])
  {
    BatchesAreFull(c.pool, c.maxBatchSize);
  }

  lemma StimulusEmitsNothing(c: Core, e: Event)
    requires Stimulus(c, e)
    ensures ReactActions(c.chain, e) == [] && FinalizedBy(c.chain, e) == []
    ensures e.Certified? ==> PoolAfter(c, e) == c.pool
  {
  }

  /** A stimulus leaves the leader in form; what follows is decided by `beat`. */
  lemma StimulusKeepsForm(l: Leader, e: Event)
    requires LeaderOk(l) && Stimulus(l.core, e)
    ensures LeaderForm(Reacted(l.core, e).chain, l.tip)
    ensures Handle(l.core, e) == Beat(Reacted(l.core, e))
  {
    StimulusEmitsNothing(l.core, e);
    if e.Certified? {
      LeaderCertified(l.core.chain, l.tip, e.cert);
    }
    assert [] + Beat(Reacted(l.core, e)).1 == Beat(Reacted(l.core, e)).1;
  }

  lemma ProtocolActionsAreSilent(s: Chain, e: Event)
    ensures Silent(ReactActions(s, e))
  {
    FinalizesOnly(FinalizedBy(s, e));
  }

  /** After storing its own block the leader waits for the certificate: it neither beats nor takes commands. */
  lemma ProposerWaits(c: Core, tip: Digest, b: Proposal)
    requires c.id == LEADER && Configured(c)
    requires LeaderForm(c.chain, tip) && c.chain.high.node == tip && Straight(DigestOf(b)) && b.parent == tip
    ensures CanHandle(c.chain, Proposed(b))
    ensures Handle(c, Proposed(b)) == (Reacted(c, Proposed(b)), ReactActions(c.chain, Proposed(b)))
    ensures Silent(Handle(c, Proposed(b)).1) && TakenBy(c, Proposed(b)) == []
    ensures LeaderForm(Reacted(c, Proposed(b)).chain, DigestOf(b))
    ensures Reacted(c, Proposed(b)).chain.high.node != Reacted(c, Proposed(b)).chain.leaf
    ensures Line(Parent3(DigestOf(b))) == Line(Parent3(tip)) + Finalized(Handle(c, Proposed(b)).1)
  {
    hide React, FinalizedBy, ClosedForm, Line, PoolAfter, Finalized, Accepts, CanIngest, Finalizes;
    LeaderStores(c.chain, tip, b);
    ProtocolActionsAreSilent(c.chain, Proposed(b));
    HandleEmits(c, Proposed(b));
    assert ReactActions(c.chain, Proposed(b)) + [] == ReactActions(c.chain, Proposed(b));
  }

  lemma LineGrows(d: Digest)
    requires d.Hash?
    ensures Flatten(Line(d)) == Flatten(Line(d.block.parent)) + d.block.commands
  {
    assert Line(d)[..|Line(d)| - 1] == Line(d.block.parent);
  }

  /** The leader proposed `b`: what the rest of the turn makes of it. */
  lemma ProposalOk(l: Leader, e: Event, b: Proposal)
    requires LeaderOk(l) && Stimulus(l.core, e) && Propose(b) in Handle(l.core, e).1
    ensures Configured(Handle(l.core, e).0) && CanHandle(Handle(l.core, e).0.chain, Proposed(b))
    ensures Silent(Handle(Handle(l.core, e).0, Proposed(b)).1)
    ensures Straight(DigestOf(b)) && b.parent == l.tip && b.commands == TakenBy(l.core, e)
    ensures forall l' :: Follows(l, e, b, l') ==> LeaderOk(l')
  {
    hide React, Reacted, Handle, ClosedForm, Line, Flatten, Finalized, LeaderForm;
    ProposalIs(l, e, b);
    var h := Handle(l.core, e).0;
    ProposerWaits(h, l.tip, b);
    LineGrows(DigestOf(b));
    forall l' | Follows(l, e, b, l') ensures LeaderOk(l') {
      ReactedFrame(h, Proposed(b));
      assert l'.core == Reacted(h, Proposed(b));
      assert l'.taken == l.taken + b.commands + [];
      assert l'.finalized == l.finalized + [] + Finalized(Handle(h, Proposed(b)).1);
    }
  }

  lemma ReactedFrame(c: Core, e: Event)
    requires CanHandle(c.chain, e)
    ensures Reacted(c, e).id == c.id && Reacted(c, e).extraRound == c.extraRound
    ensures Configured(c) ==> Configured(Reacted(c, e))
  {
  }

  /** Which block the leader proposes, and the state it proposes it in. */
  lemma ProposalIs(l: Leader, e: Event, b: Proposal)
    requires LeaderOk(l) && Stimulus(l.core, e) && Propose(b) in Handle(l.core, e).1
    ensures var h := Handle(l.core, e).0;
      && h.id == LEADER && Configured(h) && LeaderForm(h.chain, l.tip) && h.chain.high.node == l.tip
      && b.justify == h.chain.high && h.extraRound == Needs(DigestOf(b))
    ensures Finalized(Handle(l.core, e).1) == []
    ensures Straight(DigestOf(b)) && b.parent == l.tip && b.commands == TakenBy(l.core, e)
  {
    hide React, Flatten, Line, Beat, Handle, Reacted, CommandPool.CloseBatch, Finalized, FinalizedBy, Parent3;
    var c := Reacted(l.core, e);
    StimulusKeepsForm(l, e);
    ReactedFrame(l.core, e);
    BeatsWhenCertified(c);
    BeatProposes(c);
    BatchesAreFull(c.pool, c.maxBatchSize);
    StimulusEmitsNothing(l.core, e);
    HandleEmits(l.core, e);
  }

  lemma BeatsWhenCertified(c: Core)
    requires Configured(c) && Beat(c).1 != []
    ensures c.chain.high.node == c.chain.leaf
  {
  }

  lemma SilenceOk(l: Leader, e: Event, l': Leader)
    requires LeaderOk(l) && Stimulus(l.core, e) && Silent(Handle(l.core, e).1) && Turn(l, e, l')
    ensures LeaderOk(l') && l'.tip == l.tip
  {
    var c := Reacted(l.core, e);
    StimulusKeepsForm(l, e);
    StimulusEmitsNothing(l.core, e);
    HandleEmits(l.core, e);
    if c.chain.high.node == c.chain.leaf {
      BeatProposes(c);
      BatchesAreFull(c.pool, c.maxBatchSize);
    }
  }

  /** The state after a turn that proposes `b`. */
  ghost function AfterProposal(l: Leader, e: Event, b: Proposal): Leader
    requires Configured(l.core) && Stimulus(l.core, e)
    requires Configured(Handle(l.core, e).0) && CanHandle(Handle(l.core, e).0.chain, Proposed(b))
  {
    var h := Handle(l.core, e);
    var h2 := Handle(h.0, Proposed(b));
    Leader(h2.0, DigestOf(b), l.taken + TakenBy(l.core, e) + TakenBy(h.0, Proposed(b)),
           l.finalized + Finalized(h.1) + Finalized(h2.1))
  }

  /** No turn of the leader panics: the voting check holds and the round counter stays at or above zero. */
  lemma LeaderNeverPanics(l: Leader, e: Event)
    requires LeaderOk(l) && Stimulus(l.core, e)
    ensures exists l' :: Turn(l, e, l')
  {
    hide Handle, React, TakenBy, Finalized, CanHandle, LeaderForm, Line, Flatten, Needs, CommandPool.Pending;
    var h := Handle(l.core, e);
    if Silent(h.1) {
      assert Turn(l, e, Leader(h.0, l.tip, l.taken + TakenBy(l.core, e), l.finalized + Finalized(h.1)));
    } else {
      var a :| a in h.1 && a.Propose?;
      ProposalOk(l, e, a.block);
      assert Follows(l, e, a.block, AfterProposal(l, e, a.block));
      assert Turn(l, e, AfterProposal(l, e, a.block));
    }
  }

  lemma TurnKeepsOk(l: Leader, e: Event, l': Leader)
    requires LeaderOk(l) && Turn(l, e, l')
    ensures LeaderOk(l')
    ensures l'.tip == l.tip || (l'.tip.Hash? && l'.tip.block.parent == l.tip)
  {
    if Silent(Handle(l.core, e).1) {
      SilenceOk(l, e, l');
    } else {
      var b :| Follows(l, e, b, l');
      ProposalOk(l, e, b);
    }
  }

  // ---- runs of the leader ----

  ghost predicate LeaderStarts(l: Leader) {
    exists b: nat, o :: l == Leader(HotStuffCore.Init(LEADER, b, o), Genesis, [], []) && Configured(l.core)
  }

  ghost predicate TurnAt(run: seq<Leader>, es: seq<Event>, k: int)
    requires |run| == |es| + 1 && 0 <= k < |es|
  {
    Turn(run[k], es[k], run[k + 1])
  }

  ghost predicate IsLeaderRun(run: seq<Leader>, es: seq<Event>) {
    && |run| == |es| + 1
    && LeaderStarts(run[0])
    && forall k {:trigger TurnAt(run, es, k)} :: 0 <= k < |es| ==> TurnAt(run, es, k)
  }

  lemma {:induction false} LeaderRunOk(run: seq<Leader>, es: seq<Event>, k: nat)
    requires IsLeaderRun(run, es) && k < |run|
    ensures LeaderOk(run[k])
  {
    hide Turn, LeaderOk;
    if k == 0 {
      StartOk(run[0]);
    } else {
      LeaderRunOk(run, es, k - 1);
      assert TurnAt(run, es, k - 1);
      TurnKeepsOk(run[k - 1], es[k - 1], run[k]);
    }
  }

  lemma StartOk(l: Leader)
    requires LeaderStarts(l)
    ensures LeaderOk(l)
  {
    var b: nat, o :| l == Leader(HotStuffCore.Init(LEADER, b, o), Genesis, [], []) && Configured(l.core);
  }

  /** Every block with commands on the line of `d` lies at or below `foot`. */
  ghost predicate Covered(d: Digest, foot: Digest) {
    forall b :: Ancestor(b, d) && CommandsOf(b) != [] ==> Ancestor(b, foot)
  }

  lemma CoveredStep(d: Digest, foot: Digest)
    requires Straight(d) && d.Hash? && Ancestor(foot, d.block.parent)
    ensures Covered(d, foot) <==> d.block.commands == [] && Covered(d.block.parent, foot)
  {
    StraightRises(d);
    if Covered(d, foot) {
      forall b | Ancestor(b, d.block.parent) && CommandsOf(b) != [] ensures Ancestor(b, foot) {
        assert Ancestor(b, d);
      }
      if Ancestor(d, foot) {
        AncestorTransitive(d, foot, d.block.parent);
        AncestorHeight(d, d.block.parent);
      }
    }
  }

  lemma CoveredBySelf(d: Digest)
    ensures Covered(d, d)
  {
  }

  function Back(d: Digest, k: nat): Digest
    decreases k
  {
    if k == 0 then d else Back(Parent(d), k - 1)
  }

  lemma {:induction false} BackIsAncestor(d: Digest, k: nat)
    ensures Ancestor(Back(d, k), d)
    decreases k
  {
    if k > 0 {
      BackIsAncestor(Parent(d), k - 1);
      ParentIsAncestor(d);
      AncestorTransitive(Back(d, k), Parent(d), d);
    }
  }

  /**
   What the counter of extra rounds counts: `j` blocks below `d`, execution has passed
   every command exactly when j + Needs(d) is at most three.
   */
  lemma {:induction false} NeedsIsExact(d: Digest, j: nat)
    requires Straight(d) && j <= 3
    ensures Covered(d, Back(d, j)) <==> j + Needs(d) <= 3
    decreases j
  {
    if j == 0 {
      CoveredBySelf(d);
    } else if d.Hash? {
      BackIsAncestor(d.block.parent, j - 1);
      CoveredStep(d, Back(d, j));
      NeedsIsExact(d.block.parent, j - 1);
    } else {
      BackIsAncestor(Genesis, j);
      assert Back(Genesis, j) == Genesis;
    }
  }

  lemma {:induction false} BackBack(x: Digest, a: nat, b: nat)
    ensures Back(Back(x, a), b) == Back(x, a + b)
    decreases a
  {
    if a > 0 {
      BackBack(Parent(x), a - 1, b);
    }
  }

  lemma CoveredGrows(d: Digest, foot: Digest, foot': Digest)
    requires Covered(d, foot) && Ancestor(foot, foot')
    ensures Covered(d, foot')
  {
    forall b | Ancestor(b, d) && CommandsOf(b) != [] ensures Ancestor(b, foot') {
      AncestorTransitive(b, foot, foot');
    }
  }

  /** Once `k` blocks stand on `d`, all commands up to `d` are finalized if and only if k has reached Needs(d). */
  lemma RoundsUntilFinalized(d: Digest, x: Digest, k: nat)
    requires Straight(x) && Straight(d) && Back(x, k) == d
    ensures Covered(d, Parent3(x)) <==> Needs(d) <= k
  {
    assert Back(x, 3) == Parent3(x) by {
      assert Back(x, 3) == Back(Parent(x), 2) == Back(Parent(Parent(x)), 1);
    }
    if k <= 3 {
      BackBack(x, k, 3 - k);
      NeedsIsExact(d, 3 - k);
    } else {
      BackBack(x, 3, k - 3);
      BackIsAncestor(Parent3(x), k - 3);
      CoveredBySelf(d);
      CoveredGrows(d, d, Parent3(x));
    }
  }

  // ---- quiescence ----

  lemma {:induction false} CoveredFlattens(d: Digest, j: nat)
    requires Straight(d) && Covered(d, Back(d, j))
    ensures Flatten(Line(d)) == Flatten(Line(Back(d, j)))
    decreases j
  {
    if j > 0 {
      if d.Hash? {
        BackIsAncestor(d.block.parent, j - 1);
        CoveredStep(d, Back(d, j));
        CoveredFlattens(d.block.parent, j - 1);
        LineGrows(d);
      } else {
        CoveredFlattens(d, j - 1);
      }
    }
  }

  lemma {:induction false} LineHeights(d: Digest)
    requires Straight(d)
    ensures |Line(d)| == Height(d)
    ensures forall i :: 0 <= i < |Line(d)| ==> Height(Line(d)[i]) == i + 1
    decreases d
  {
    if d.Hash? {
      LineHeights(d.block.parent);
    }
  }

  /** A leader with nothing to propose and no vote to wait for. */
  lemma QuietLeader(l: Leader)
    requires LeaderOk(l) && l.core.chain.high.node == l.core.chain.leaf
    ensures CommandPool.Pending(l.core.pool) == []
    ensures l.taken == Flatten(l.finalized) && NoRepeats(l.finalized)
  {
    RoundsUntilFinalized(l.tip, l.tip, 0);
    assert Back(l.tip, 3) == Parent3(l.tip) by {
      assert Back(l.tip, 3) == Back(Parent(l.tip), 2) == Back(Parent(Parent(l.tip)), 1);
    }
    CoveredFlattens(l.tip, 3);
    StraightTriple(l.tip);
    LineHeights(Parent3(l.tip));
  }

  /**
   Quiescence: whenever the leader's last block is certified and it proposes nothing,
   its pool is empty and all commands it ever took from the pool are finalized, in
   the order it took them, from blocks finalized once each.
   */
  lemma Quiescence(run: seq<Leader>, es: seq<Event>, k: nat)
    requires IsLeaderRun(run, es) && k < |run|
    requires run[k].core.chain.high.node == run[k].core.chain.leaf
    ensures CommandPool.Pending(run[k].core.pool) == []
    ensures run[k].taken == Flatten(run[k].finalized) && NoRepeats(run[k].finalized)
  {
    LeaderRunOk(run, es, k);
    QuietLeader(run[k]);
  }

  // ---- how many proposals it takes ----

  /** How many batches of at most `b` it takes to hand out `a` commands: `a / b` rounded up. */
  function BatchesOf(a: nat, b: nat): nat
    requires b > 0
    decreases a
  {
    if a == 0 then 0 else 1 + BatchesOf(if a < b then 0 else a - b, b)
  }

  lemma {:induction false} BatchesOfRoundsUp(a: nat, b: nat, k: nat)
    requires b > 0
    ensures BatchesOf(a, b) <= k <==> a <= k * b
    decreases a
  {
    if a > 0 && k > 0 {
      BatchesOfRoundsUp(if a < b then 0 else a - b, b, k - 1);
      assert k * b == (k - 1) * b + b;
    }
  }

  lemma BatchesOfGrows(a: nat, a': nat, b: nat)
    requires b > 0 && a <= a'
    ensures BatchesOf(a, b) <= BatchesOf(a', b)
  {
    BatchesOfRoundsUp(a', b, BatchesOf(a', b));
    BatchesOfRoundsUp(a, b, BatchesOf(a', b));
  }

  function Batches(pool: CommandPool.State, maxBatchSize: nat): nat
    requires maxBatchSize > 0
  {
    match pool
    case CloseLoop(p) => BatchesOf(|p.pending|, maxBatchSize)
    case OpenLoop(p) => if p.buffer == [] then 0 else 1
  }

  /** An upper bound on the blocks the leader still proposes if no request arrives. */
  function RoundsLeft(c: Core): nat
    requires Configured(c)
  {
    if CommandPool.Pending(c.pool) == [] then c.extraRound else Batches(c.pool, c.maxBatchSize) + 3
  }

  /** `p'` has at most the pending commands of `p`. */
  ghost predicate Shrinks(p: CommandPool.State, p': CommandPool.State) {
    (p.OpenLoop? <==> p'.OpenLoop?) && |CommandPool.Pending(p')| <= |CommandPool.Pending(p)|
  }

  lemma {:induction false} CommitShrinks(p: CommandPool.State, cs: seq<Command>)
    ensures Shrinks(p, CommandPool.CommitAll(p, cs))
    decreases |cs|
  {
    if cs != [] {
      CommitShrinks(p, cs[..|cs| - 1]);
    }
  }

  lemma FewerLeft(c: Core, c': Core)
    requires Configured(c) && Configured(c') && c'.maxBatchSize == c.maxBatchSize
    requires Shrinks(c.pool, c'.pool) && c'.extraRound <= c.extraRound && c'.extraRound <= 3
    ensures RoundsLeft(c') <= RoundsLeft(c)
  {
    if c.pool.CloseLoop? {
      BatchesOfGrows(|c'.pool.close.pending|, |c.pool.close.pending|, c.maxBatchSize);
    }
  }

  /** Proposing uses up one round. */
  lemma BeatUsesRound(c: Core)
    requires Configured(c) && c.extraRound <= 3 && Beat(c).1 != []
    ensures Configured(Beat(c).0) && Beat(c).0.maxBatchSize == c.maxBatchSize
    ensures Beat(c).0.extraRound <= 3 && RoundsLeft(Beat(c).0) + 1 <= RoundsLeft(c)
  {
    BeatsWhenCertified(c);
    BeatProposes(c);
    match c.pool
    case CloseLoop(p) =>
    case OpenLoop(p) =>
  }

  /** A turn without a request costs at least as many rounds as it proposes blocks. */
  lemma TurnCosts(l: Leader, e: Event, l': Leader)
    requires LeaderOk(l) && Turn(l, e, l') && e.Certified?
    ensures Height(l'.tip) >= Height(l.tip) && LeaderOk(l')
    ensures RoundsLeft(l'.core) + (Height(l'.tip) - Height(l.tip)) <= RoundsLeft(l.core)
  {
    TurnKeepsOk(l, e, l');
    var c := Reacted(l.core, e);
    StimulusKeepsForm(l, e);
    StimulusEmitsNothing(l.core, e);
    FewerLeft(l.core, c);
    if Silent(Handle(l.core, e).1) {
      SilentBeatCosts(c);
    } else {
      var b :| Follows(l, e, b, l');
      ProposalOk(l, e, b);
      ProposalIs(l, e, b);
      BeatUsesRound(c);
      var h := Handle(l.core, e).0;
      ProposerWaits(h, l.tip, b);
      CommitShrinks(h.pool, Flatten(FinalizedBy(h.chain, Proposed(b))));
      FewerLeft(h, l'.core);
    }
  }

  lemma SilentBeatCosts(c: Core)
    requires Configured(c) && c.extraRound <= 3 && Silent(Beat(c).1)
    ensures Configured(Beat(c).0) && RoundsLeft(Beat(c).0) <= RoundsLeft(c)
  {
    BatchesAreFull(c.pool, c.maxBatchSize);
    if Beat(c).1 != [] {
      HeadIn(Beat(c).1);
    }
  }

  /**
   From any moment of a run on, if only certificates and no requests come in, the
   leader proposes at most as many more blocks as it has full batches, plus three.
   */
  lemma {:induction false} RoundsAreBounded(run: seq<Leader>, es: seq<Event>, i: nat, j: nat)
    requires IsLeaderRun(run, es) && i <= j < |run|
    requires forall k :: i <= k < j ==> es[k].Certified?
    ensures LeaderOk(run[i]) && LeaderOk(run[j])
    ensures Height(run[i].tip) <= Height(run[j].tip)
    ensures RoundsLeft(run[j].core) + (Height(run[j].tip) - Height(run[i].tip)) <= RoundsLeft(run[i].core)
    decreases j - i
  {
    hide LeaderOk, Turn, RoundsLeft, LeaderStarts, Height, Configured;
    LeaderRunOk(run, es, i);
    if i < j {
      RoundsAreBounded(run, es, i, j - 1);
      assert TurnAt(run, es, j - 1);
      TurnCosts(run[j - 1], es[j - 1], run[j]);
    }
  }
}
