/**
 Backups under the stable leader: whatever the order in which the leader's blocks and
 the clients' requests reach it, a backup's state is the closed form of the last block
 it could store, and it has finalized a prefix of what the leader has.
 */
module HotStuffBackups {
  import opened Commands
  import opened HotStuffTree
  import opened HotStuffChain
  import opened HotStuffCore
  import opened HotStuffStableLeader
  import opened HotStuffReordering
  import CommandPool

  /** Requests, and blocks of the leader's line up to `head`. */
  ghost predicate FromLeader(head: Digest, es: seq<Event>) {
    forall i :: 0 <= i < |es| ==> es[i].Request? || (es[i].Received? && DigestOf(es[i].block) in Past(head))
  }

  /** The last block that was stored. */
  function TipOf(es: seq<Event>): Digest {
    if es == [] then Genesis
    else if Last(es).Received? then DigestOf(Last(es).block)
    else TipOf(es[..|es| - 1])
  }

  /** On one line, the block after the last stored one is the only one that can be stored. */
  lemma NextOnLine(head: Digest, tip: Digest, d: Digest)
    requires Straight(head) && tip in Past(head) && d in Past(head)
    requires d !in Past(tip) && Parent(d) in Past(tip)
    ensures d.Hash? && Parent(d) == tip && Straight(d)
  {
    PastIsAncestors(head, tip);
    PastIsAncestors(head, d);
    AncestorsAreComparable(tip, d, head);
    PastIsAncestors(tip, d);
    PastIsAncestors(tip, Parent(d));
    StraightBelow(head, d);
    StraightBelow(head, tip);
    StraightRises(d);
    StraightRises(tip);
    GenesisIsRoot(tip);
    if d.Hash? {
      AncestorHeight(tip, d.block.parent);
      AncestorHeight(d.block.parent, tip);
    }
  }

  lemma {:induction false} StraightBelow(head: Digest, d: Digest)
    requires Straight(head) && Ancestor(d, head)
    ensures Straight(d)
    decreases head
  {
    if d != head {
      StraightBelow(head.block.parent, d);
    }
  }

  /** A request does not concern the protocol, and a backup proposes nothing. */
  lemma RequestAside(c: Core, command: Command)
    requires Configured(c) && c.id != LEADER
    ensures CanHandle(c.chain, Request(command))
    ensures Handle(c, Request(command)).0.chain == c.chain && Handle(c, Request(command)).1 == []
  {
  }

  // ---- what becomes of a batch ----

  /** What was taken out of the pool is proposed. */
  ghost predicate TakenIsProposed(c: Core, e: Event)
    requires Configured(c) && CanHandle(c.chain, e)
  {
    TakenBy(c, e) == [] || exists b :: Propose(b) in Handle(c, e).1 && b.commands == TakenBy(c, e)
  }

  /**
   Any replica, any event, on any tree: a batch is taken and lost exactly when a replica
   that does not lead has its highest certificate for its leaf and commands in its pool.
   `beat` closes the batch before `on_beat` asks who leads (src/hotstuff/mod.rs:204-211).
   */
  lemma TakenIsProposedIff(c: Core, e: Event)
    requires Configured(c) && CanHandle(c.chain, e)
    ensures var c' := Reacted(c, e);
      TakenIsProposed(c, e) <==>
        c.id == LEADER || c'.chain.high.node != c'.chain.leaf || CommandPool.Pending(c'.pool) == []
  {
    hide React, ReactActions, PoolAfter;
    var c' := Reacted(c, e);
    BatchesAreFull(c'.pool, c'.maxBatchSize);
    if c.id == LEADER && c'.chain.high.node == c'.chain.leaf {
      BeatProposes(c');
      if TakenBy(c, e) != [] {
        HeadIn(Beat(c').1);
        assert Beat(c').1[0] in Handle(c, e).1;
      }
    } else if c.id != LEADER {
      BackupNeverProposes(c, e);
    }
  }

  lemma BackupNeverProposes(c: Core, e: Event)
    requires Configured(c) && CanHandle(c.chain, e) && c.id != LEADER
    ensures forall a :: a in Handle(c, e).1 ==> !a.Propose?
  {
    hide React, Accepts, FinalizedBy, PoolAfter;
    FinalizesOnly(FinalizedBy(c.chain, e));
  }

  /** Only a proposal of one's own moves the leaf away from the highest certified block. */
  lemma LeafFollowsHigh(s: Chain, e: Event)
    requires CanHandle(s, e) && !e.Proposed? && s.leaf == s.high.node
    ensures React(s, e).leaf == React(s, e).high.node
  {
  }

  /** A replica that has never proposed anything: its highest certificate is for its leaf. */
  lemma {:induction false} NeverProposed(start: Core, es: seq<Event>)
    requires start == HotStuffCore.Init(start.id, start.maxBatchSize, start.pool.OpenLoop?) && Configured(start)
    requires HandleAll(start, es).Some? && forall i :: 0 <= i < |es| ==> !es[i].Proposed?
    ensures var c := HandleAll(start, es).value.0;
      c.chain.leaf == c.chain.high.node && c.id == start.id && Configured(c)
  {
    hide Configured, CanHandle, React;
    if es != [] {
      NeverProposed(start, es[..|es| - 1]);
      var c := HandleAll(start, es[..|es| - 1]).value.0;
      HandleEmits(c, Last(es));
      HandleKeepsConfigured(c, Last(es));
      LeafFollowsHigh(c.chain, Last(es));
    }
  }

  /**
   So a backup, after any events whatever, loses a batch with every event it handles,
   except exactly when that event leaves nothing in its pool.
   */
  lemma BackupLosesIff(start: Core, es: seq<Event>, e: Event)
    requires start == HotStuffCore.Init(start.id, start.maxBatchSize, start.pool.OpenLoop?) && Configured(start)
    requires start.id != LEADER && !e.Proposed? && forall i :: 0 <= i < |es| ==> !es[i].Proposed?
    requires HandleAll(start, es).Some? && CanHandle(HandleAll(start, es).value.0.chain, e)
    ensures var c := HandleAll(start, es).value.0;
      Configured(c) && (TakenIsProposed(c, e) <==> CommandPool.Pending(PoolAfter(c, e)) == [])
  {
    hide HandleAll, React;
    NeverProposed(start, es);
    var c := HandleAll(start, es).value.0;
    LeafFollowsHigh(c.chain, e);
    TakenIsProposedIff(c, e);
  }

  /**
   For instance, under the stable leader a request that finds a backup's pool empty is
   lost at once.
   */
  lemma BackupDropsRequest(c: Core, tip: Digest, command: Command)
    requires Configured(c) && c.id != LEADER && BackupForm(c.chain, tip) && CommandPool.Pending(c.pool) == []
    ensures CommandPool.Pending(Handle(c, Request(command)).0.pool) == [] && Handle(c, Request(command)).1 == []
  {
  }

  /** What a backup emits when it stores a block of the line: its vote, then the block it finalizes. */
  lemma BackupEmits(c: Core, tip: Digest, b: Proposal)
    requires Configured(c) && c.id != LEADER && BackupForm(c.chain, tip) && Straight(DigestOf(b)) && b.parent == tip
    ensures CanHandle(c.chain, Received(b))
    ensures var h := Handle(c, Received(b));
      && BackupForm(h.0.chain, DigestOf(b))
      && VotedIn(h.1) == [DigestOf(b)]
      && Line(Parent3(DigestOf(b))) == Line(Parent3(tip)) + Finalized(h.1)
      && forall a :: a in h.1 ==> !a.Propose?
  {
    hide BackupForm, Line, FinalizedBy, Accepts, React, Finalizes;
    BackupStores(c.chain, tip, b);
    HandleEmits(c, Received(b));
    HandleVotes(c, Received(b));
    FinalizesOnly(FinalizedBy(c.chain, Received(b)));
    assert ReactActions(c.chain, Received(b)) + [] == ReactActions(c.chain, Received(b));
  }

  /** A backup's state after events that reached its core. */
  ghost predicate BackupAt(c: Core, head: Digest, tip: Digest, actions: seq<Action>) {
    && BackupForm(c.chain, tip) && tip in Past(head)
    && VotedIn(actions) == Line(tip)
    && Finalized(actions) == Line(Parent3(tip))
    && forall a :: a in actions ==> !a.Propose?
  }

  lemma BackupStep(c: Core, head: Digest, tip: Digest, actions: seq<Action>, e: Event)
    requires Straight(head) && BackupAt(c, head, tip, actions) && c.id != LEADER
    requires Configured(c) && CanHandle(c.chain, e) && FromLeader(head, [e])
    ensures var h := Handle(c, e);
      BackupAt(h.0, head, if e.Received? then DigestOf(e.block) else tip, actions + h.1)
  {
    assert [e][0] == e;
    var h := Handle(c, e);
    if e.Received? {
      NextOnLine(head, tip, DigestOf(e.block));
      BackupEmits(c, tip, e.block);
      VotedInConcat(actions, h.1);
      FinalizedConcat(actions, h.1);
    } else {
      RequestAside(c, e.command);
      assert actions + [] == actions;
    }
  }

  lemma InitIsBackup(id: ReplicaId, maxBatchSize: nat, openLoop: bool, head: Digest)
    ensures BackupAt(HotStuffCore.Init(id, maxBatchSize, openLoop), head, Genesis, [])
  {
    PastIsAncestors(head, Genesis);
    GenesisIsRoot(head);
  }

  /**
   In any order of events: the closed form of the last stored block, one vote for each
   block in turn, and one finalization for each block up to the third before the last.
   */
  lemma {:induction false} BackupInAnyOrder(start: Core, head: Digest, es: seq<Event>)
    requires start == HotStuffCore.Init(start.id, start.maxBatchSize, start.pool.OpenLoop?) && start.id != LEADER
    requires Straight(head) && FromLeader(head, es) && HandleAll(start, es).Some?
    ensures var r := HandleAll(start, es).value; r.0.id == start.id && BackupAt(r.0, head, TipOf(es), r.1)
  {
    hide BackupAt, Handle, Configured, CanHandle, Straight;
    if es == [] {
      InitIsBackup(start.id, start.maxBatchSize, start.pool.OpenLoop?, head);
    } else {
      var front := es[..|es| - 1];
      BackupInAnyOrder(start, head, front);
      var r := HandleAll(start, front).value;
      HandleKeepsConfigured(r.0, Last(es));
      BackupStep(r.0, head, TipOf(front), r.1, Last(es));
    }
  }

  // ---- which block that is ----

  lemma {:induction false} ReadyOnLine(arrived: set<Digest>, d: Digest)
    requires Straight(d)
    ensures Ready(arrived, d) <==> forall x :: x in Line(d) ==> x in arrived
    decreases d
  {
    if d.Hash? {
      ReadyOnLine(arrived, d.block.parent);
    }
  }

  /**
   The last stored block is the last one before the first gap in what has arrived, so
   the whole state is fixed by which blocks arrived, not by their order.
   */
  lemma TipIsLastBeforeGap(s: Chain, head: Digest, tip: Digest, arrived: set<Digest>, d: Digest)
    requires Straight(head) && BackupForm(s, tip) && tip in Past(head) && Causal(s.known, arrived) && d in Past(head)
    ensures d in Past(tip) <==> forall x :: x in Line(d) ==> x in arrived
  {
  }

  lemma SameArrivalsSameState(s: Chain, s': Chain, head: Digest, tip: Digest, tip': Digest, arrived: set<Digest>)
    requires Straight(head) && tip in Past(head) && tip' in Past(head)
    requires BackupForm(s, tip) && BackupForm(s', tip') && Causal(s.known, arrived) && Causal(s'.known, arrived)
    ensures tip == tip' && s' == s.(certs := s'.certs, high := s'.high) && s'.high.node == s.high.node
  {
    PastIsAncestors(tip, tip);
    PastIsAncestors(tip', tip');
    assert tip in s'.known && tip' in s.known;
    PastIsAncestors(tip', tip);
    PastIsAncestors(tip, tip');
    StraightRises(tip);
    StraightRises(tip');
    AncestorHeight(tip, tip');
    AncestorHeight(tip', tip);
    assert s.known == s'.known;
  }

  // ---- backups and the leader ----

  lemma {:induction false} LineBelow(head: Digest, d: Digest)
    requires Ancestor(d, head)
    ensures Line(d) <= Line(head)
    decreases head
  {
    if d != head {
      LineBelow(head.block.parent, d);
    }
  }

  lemma Parent3Below(head: Digest, d: Digest)
    requires Straight(head) && Ancestor(d, head)
    ensures Ancestor(Parent3(d), Parent3(head))
  {
  }

  /** What a backup has finalized is a prefix of what the leader has. */
  lemma BackupsFollowLeader(run: seq<Leader>, les: seq<Event>, k: nat, start: Core, es: seq<Event>)
    requires IsLeaderRun(run, les) && k < |run|
    requires start == HotStuffCore.Init(start.id, start.maxBatchSize, start.pool.OpenLoop?) && start.id != LEADER
    requires FromLeader(run[k].tip, es) && HandleAll(start, es).Some?
    ensures Finalized(HandleAll(start, es).value.1) <= run[k].finalized
  {
    hide IsLeaderRun, HandleAll, FromLeader;
    LeaderRunOk(run, les, k);
    var head, tip := run[k].tip, TipOf(es);
    LeaderLineIsStraight(run[k]);
    BackupInAnyOrder(start, head, es);
    PastIsAncestors(head, tip);
    Parent3Below(head, tip);
    LineBelow(Parent3(head), Parent3(tip));
  }

  lemma LeaderLineIsStraight(l: Leader)
    requires LeaderOk(l)
    ensures Straight(l.tip) && l.finalized == Line(Parent3(l.tip))
  {
  }
}
