/**
 The tables in which a PBFT replica collects votes piece by piece (`BlockScratch`,
 src/pbft/mod.rs:303-309), and why they hold just what is needed of all the votes that
 were delivered.
 */
module PbftScratch {
  import opened Commands
  import opened PbftCore
  import opened PbftNode
  import opened PbftInvariant

  /** Early votes in the order they came, and who is counted so far. */
  datatype Scratch = Scratch(
    prepareVotes: seq<Vote>, prepareQuorum: set<ReplicaId>,
    commitVotes: seq<Vote>, commitQuorum: set<ReplicaId>)

  const EMPTY := Scratch([], {}, [], {})

  type Scratches = map<nat, Scratch>

  function ScratchAt(scratches: Scratches, k: nat): Scratch {
    if k in scratches then scratches[k] else EMPTY
  }

  function SendersOf(votes: seq<Vote>, digest: Digest): set<ReplicaId> {
    set v | v in votes && v.digest == digest :: v.replica
  }

  /** Early votes that match are counted, the others dropped; one's own Prepare is counted too. */
  function Gathered(sc: Scratch, digest: Digest, id: ReplicaId): Scratch {
    Scratch([], sc.prepareQuorum + SendersOf(sc.prepareVotes, digest) + {id},
            [], sc.commitQuorum + SendersOf(sc.commitVotes, digest))
  }

  // ---- the queue of actions, in the three shapes it takes ----

  /** The block has not been looked at: no one's Prepare is counted. */
  predicate Uncounted(s: Core, queue: seq<Action>, k: nat) {
    k !in s.accepted || (queue != [] && queue[0].Prepare? && queue[0].num == k)
  }

  /** One's own Commit is about to be sent. */
  predicate CommitDue(queue: seq<Action>, k: nat) {
    queue != [] && queue[0] == Commit(k)
  }

  predicate FinalizeDue(queue: seq<Action>, k: nat) {
    Finalize(k) in queue
  }

  ghost predicate Ending(c: Setting, s: Core, queue: seq<Action>)
    requires Sound(c)
  {
    && (forall i :: 0 <= i < |queue| ==>
         !queue[i].Prepare? && !queue[i].Commit? && (queue[i].Propose? ==> IsPrimary(c)))
    && (forall i, j :: 0 <= i < j < |queue| && queue[i].Finalize? ==> queue[j] != queue[i])
    && (forall i :: 0 <= i < |queue| && queue[i].Finalize? ==>
         Final(s, queue[i].num) && 1 <= queue[i].num <= s.finalizeNum)
  }

  ghost predicate Preparing(c: Setting, s: Core, queue: seq<Action>)
    requires Sound(c)
  {
    && |queue| == 1 && queue[0].Prepare? && !IsPrimary(c)
    && queue[0].num in s.accepted && queue[0].num !in s.prepared && queue[0].num !in s.committed
    && queue[0].digest == Digest(s.accepted[queue[0].num])
  }

  ghost predicate Committing(s: Core, queue: seq<Action>) {
    && |queue| == 1 && queue[0].Commit?
    && queue[0].num in s.accepted && queue[0].num in s.prepared && queue[0].num !in s.committed
    && (queue[0].num == 0 || queue[0].num > s.finalizeNum)
  }

  ghost predicate Shape(c: Setting, s: Core, queue: seq<Action>)
    requires Sound(c)
  {
    Preparing(c, s, queue) || Committing(s, queue) || Ending(c, s, queue)
  }

  // ---- what the tables hold ----

  /** Votes that wait for the block; the primary never looks at those again. */
  ghost predicate Parked(c: Setting, s: Node, sc: Scratch, k: nat)
    requires Sound(c)
  {
    && sc.prepareQuorum == {} && sc.commitQuorum == {}
    && (!IsPrimary(c) ==>
          && (forall v :: v in sc.prepareVotes <==> v in s.prepares && v.blockNum == k)
          && (forall v :: v in sc.commitVotes <==> v in s.commits && v.blockNum == k))
  }

  /** Votes for the accepted block that still matter are counted. */
  ghost predicate Counted(c: Setting, s: Node, queue: seq<Action>, sc: Scratch, k: nat)
    requires Sound(c) && k in s.core.accepted
  {
    && (k !in s.core.prepared ==> sc.prepareQuorum == Preparers(c, s, k))
    && (k !in s.core.committed ==>
          sc.commitQuorum == if CommitDue(queue, k) then Voters(s.commits, k, Digest(s.core.accepted[k]))
            else Committers(c, s, k))
  }

  ghost predicate ScratchOk(c: Setting, s: Node, queue: seq<Action>, scratches: Scratches, k: nat)
    requires Sound(c)
  {
    && (Uncounted(s.core, queue, k) ==> Parked(c, s, ScratchAt(scratches, k), k))
    && (!Uncounted(s.core, queue, k) ==> Counted(c, s, queue, ScratchAt(scratches, k), k))
    && (k in s.core.prepared && (k == 0 || k > s.core.finalizeNum || FinalizeDue(queue, k)) ==> k in scratches)
  }

  ghost predicate Held(c: Setting, s: Node, queue: seq<Action>, scratches: Scratches)
    requires Sound(c)
  {
    && (forall k {:trigger ScratchOk(c, s, queue, scratches, k)} :: ScratchOk(c, s, queue, scratches, k))
    && Shape(c, s.core, queue)
    && VotesOk(c, s) && FinalUpTo(s.core)
    && s.core.prepared <= s.core.accepted.Keys && s.core.committed <= s.core.prepared
  }

  lemma FinalStays(s: Core, s': Core)
    requires FinalUpTo(s) && s.finalizeNum <= s'.finalizeNum
    requires s.accepted.Keys <= s'.accepted.Keys && s.prepared <= s'.prepared && s.committed <= s'.committed
    requires forall k :: s.finalizeNum < k <= s'.finalizeNum ==> Final(s', k)
    ensures FinalUpTo(s')
  {
    forall k | 1 <= k <= s'.finalizeNum ensures Final(s', k) {
      assert k <= s.finalizeNum ==> Final(s, k);
    }
  }


  lemma InitIsHeld(c: Setting)
    requires Sound(c)
    ensures Held(c, PbftNode.Init(), [], map[])
  {
  }

  /** Nothing about number `k` differs: its block, votes and scratch are as before. */
  ghost predicate Unmoved(s: Node, s': Node, scratches: Scratches, scratches': Scratches, k: nat) {
    && (k in s.core.accepted <==> k in s'.core.accepted)
    && (k in s.core.accepted ==> s.core.accepted[k] == s'.core.accepted[k])
    && (k in s.core.prepared <==> k in s'.core.prepared)
    && (k in s.core.committed <==> k in s'.core.committed)
    && (forall v: Vote :: v.blockNum == k ==> (v in s.prepares <==> v in s'.prepares))
    && (forall v: Vote :: v.blockNum == k ==> (v in s.commits <==> v in s'.commits))
    && (k in scratches <==> k in scratches')
    && (k in scratches ==> scratches[k] == scratches'[k])
  }

  lemma UnmovedStays(c: Setting, s: Node, queue: seq<Action>, scratches: Scratches, s': Node, queue': seq<Action>,
      scratches': Scratches, k: nat)
    requires Sound(c) && ScratchOk(c, s, queue, scratches, k) && Unmoved(s, s', scratches, scratches', k)
    requires Uncounted(s.core, queue, k) <==> Uncounted(s'.core, queue', k)
    requires CommitDue(queue, k) <==> CommitDue(queue', k)
    requires FinalizeDue(queue', k) ==> FinalizeDue(queue, k) || k > s.core.finalizeNum
    requires s.core.finalizeNum <= s'.core.finalizeNum
    ensures ScratchOk(c, s', queue', scratches', k)
  {
  }

  // ---- one action ----

  /** Taking in the early votes of a block just accepted. */
  lemma GatheredIs(c: Setting, s: Node, sc: Scratch, k: nat)
    requires Sound(c) && !IsPrimary(c) && k in s.core.accepted && k !in s.core.prepared && Parked(c, s, sc, k)
    ensures var digest := Digest(s.core.accepted[k]);
      && Gathered(sc, digest, c.id).prepareQuorum == Preparers(c, s, k)
      && Gathered(sc, digest, c.id).commitQuorum == Committers(c, s, k)
  {
  }

  lemma GatherKeeps(c: Setting, s: Node, a: Action, scratches: Scratches)
    requires Sound(c) && Held(c, s, [a], scratches) && a.Prepare?
    ensures Preparing(c, s.core, [a])
    ensures Gathered(ScratchAt(scratches, a.num), a.digest, c.id).prepareQuorum == Preparers(c, s, a.num)
    ensures Held(c, s, [], scratches[a.num := Gathered(ScratchAt(scratches, a.num), a.digest, c.id)])
  {
    var k := a.num;
    var scratches' := scratches[k := Gathered(ScratchAt(scratches, k), a.digest, c.id)];
    assert ScratchOk(c, s, [a], scratches, k);
    GatheredIs(c, s, ScratchAt(scratches, k), k);
    forall j ensures ScratchOk(c, s, [], scratches', j) {
      assert ScratchOk(c, s, [a], scratches, j);
      if j != k {
        UnmovedStays(c, s, [a], scratches, s, [], scratches', j);
      }
    }
    assert Ending(c, s.core, []);
  }

  /** A prepare quorum is formed and its scratch emptied. */
  lemma PrepareQuorumKeeps(c: Setting, s: Node, scratches: Scratches, k: nat)
    requires Sound(c) && Held(c, s, [], scratches) && CanHandle(c, s.core, PrepareQuorum(k)) && k in scratches
    requires k == 0 || k > s.core.finalizeNum
    ensures var r := Deliver(c, s, PrepareQuorum(k));
      Held(c, r.0, r.1, scratches[k := scratches[k].(prepareQuorum := {})])
  {
    var r := Deliver(c, s, PrepareQuorum(k));
    var scratches' := scratches[k := scratches[k].(prepareQuorum := {})];
    forall j ensures ScratchOk(c, r.0, r.1, scratches', j) {
      assert ScratchOk(c, s, [], scratches, j);
      if j != k {
        UnmovedStays(c, s, [], scratches, r.0, r.1, scratches', j);
      }
    }
    assert Committing(r.0.core, r.1);
    FinalStays(s.core, r.0.core);
  }

  /** One's own Commit is counted. */
  lemma OwnCommitKeeps(c: Setting, s: Node, a: Action, scratches: Scratches)
    requires Sound(c) && Held(c, s, [a], scratches) && a.Commit?
    ensures Committing(s.core, [a]) && a.num in scratches
    ensures scratches[a.num].commitQuorum + {c.id} == Committers(c, s, a.num)
    ensures Held(c, s, [],
                 scratches[a.num := scratches[a.num].(commitQuorum := scratches[a.num].commitQuorum + {c.id})])
  {
    var k := a.num;
    assert ScratchOk(c, s, [a], scratches, k);
    var scratches' := scratches[k := scratches[k].(commitQuorum := scratches[k].commitQuorum + {c.id})];
    forall j ensures ScratchOk(c, s, [], scratches', j) {
      assert ScratchOk(c, s, [a], scratches, j);
      if j != k {
        UnmovedStays(c, s, [a], scratches, s, [], scratches', j);
      }
    }
    assert Ending(c, s.core, []);
  }

  /** What a commit quorum asks for: the final blocks in order, then the new proposals. */
  lemma QuorumActions(c: Setting, s: Node, k: nat)
    requires Sound(c) && CanHandle(c, s.core, CommitQuorum(k)) && FinalUpTo(s.core)
    ensures var r := Deliver(c, s, CommitQuorum(k));
      && Ending(c, r.0.core, r.1)
      && r.0.core.finalizeNum >= s.core.finalizeNum
      && r.0.core == s.core.(committed := s.core.committed + {k}, pool := r.0.core.pool,
                             proposeNum := r.0.core.proposeNum, finalizeNum := r.0.core.finalizeNum)
      && (forall j: nat :: FinalizeDue(r.1, j) <==> s.core.finalizeNum < j <= r.0.core.finalizeNum)
      && (forall j :: s.core.finalizeNum < j <= r.0.core.finalizeNum ==> Final(r.0.core, j))
      && (forall j :: !CommitDue(r.1, j)) && (r.1 != [] ==> !r.1[0].Prepare?)
  {
    var r := Deliver(c, s, CommitQuorum(k));
    var s1 := FinalizeAll(s.core.(committed := s.core.committed + {k}));
    var finals := FinalizeActions(s.core.finalizeNum, s1.finalizeNum);
    forall j: nat | s.core.finalizeNum < j <= s1.finalizeNum ensures FinalizeDue(r.1, j) {
      assert finals[j - s.core.finalizeNum - 1] == Finalize(j);
      assert r.1[j - s.core.finalizeNum - 1] == Finalize(j);
    }
  }

  lemma CommitQuorumKeeps(c: Setting, s: Node, scratches: Scratches, k: nat)
    requires Sound(c) && Held(c, s, [], scratches) && CanHandle(c, s.core, CommitQuorum(k)) && k in scratches
    requires k in s.core.prepared
    ensures var r := Deliver(c, s, CommitQuorum(k));
      Held(c, r.0, r.1, scratches[k := scratches[k].(commitQuorum := {})])
  {
    var r := Deliver(c, s, CommitQuorum(k));
    var scratches' := scratches[k := scratches[k].(commitQuorum := {})];
    QuorumActions(c, s, k);
    FinalStays(s.core, r.0.core);
    forall j ensures ScratchOk(c, r.0, r.1, scratches', j) {
      assert ScratchOk(c, s, [], scratches, j);
      if j != k {
        UnmovedStays(c, s, [], scratches, r.0, r.1, scratches', j);
      }
    }
  }

  /** A final block's scratch is there to be removed. */
  lemma FinalizeKeeps(c: Setting, s: Node, a: Action, rest: seq<Action>, scratches: Scratches)
    requires Sound(c) && Held(c, s, [a] + rest, scratches) && a.Finalize?
    ensures a.num in scratches
    ensures Held(c, s, rest, scratches - {a.num})
  {
    var queue, k := [a] + rest, a.num;
    assert queue[0] == a;
    assert Ending(c, s.core, queue);
    EndingRest(c, s.core, a, rest);
    assert FinalizeDue(queue, k);
    assert ScratchOk(c, s, queue, scratches, k);
    forall j ensures ScratchOk(c, s, rest, scratches - {k}, j) {
      assert ScratchOk(c, s, queue, scratches, j);
      if j != k {
        UnmovedStays(c, s, queue, scratches, s, rest, scratches - {k}, j);
      }
    }
  }

  lemma EndingRest(c: Setting, s: Core, a: Action, rest: seq<Action>)
    requires Sound(c) && Ending(c, s, [a] + rest)
    ensures Ending(c, s, rest)
    ensures forall j :: FinalizeDue(rest, j) ==> FinalizeDue([a] + rest, j)
    ensures a.Finalize? ==> !FinalizeDue(rest, a.num)
    ensures forall j :: !CommitDue(rest, j)
    ensures rest != [] ==> !rest[0].Prepare?
  {
    var queue := [a] + rest;
    assert queue[0] == a;
    assert forall i :: 0 <= i < |rest| ==> rest[i] == queue[i + 1];
  }

  lemma ProposeKeeps(c: Setting, s: Node, a: Action, rest: seq<Action>, scratches: Scratches)
    requires Sound(c) && Held(c, s, [a] + rest, scratches) && a.Propose?
    ensures var r := Perform(c, s, a); r.1 == [] && Held(c, r.0, rest, scratches)
  {
    var queue, k := [a] + rest, a.num;
    assert queue[0] == a;
    assert Ending(c, s.core, queue);
    EndingRest(c, s.core, a, rest);
    var s' := Perform(c, s, a).0;
    FinalStays(s.core, s'.core);
    forall j ensures ScratchOk(c, s', rest, scratches, j) {
      assert ScratchOk(c, s, queue, scratches, j);
      if j != k {
        UnmovedStays(c, s, queue, scratches, s', rest, scratches, j);
      }
    }
  }

  lemma ForwardKeeps(c: Setting, s: Node, a: Action, rest: seq<Action>, scratches: Scratches)
    requires Sound(c) && Held(c, s, [a] + rest, scratches) && a.Forward?
    ensures Held(c, s, rest, scratches)
  {
    var queue := [a] + rest;
    assert queue[0] == a;
    EndingRest(c, s.core, a, rest);
    forall j ensures ScratchOk(c, s, rest, scratches, j) {
      assert ScratchOk(c, s, queue, scratches, j);
      UnmovedStays(c, s, queue, scratches, s, rest, scratches, j);
    }
  }

  // ---- one message ----

  lemma RequestHeld(c: Setting, s: Node, scratches: Scratches, command: Command)
    requires Sound(c) && Held(c, s, [], scratches)
    ensures var r := Deliver(c, s, Event.Request(command)); Held(c, r.0, r.1, scratches)
  {
    var r := Deliver(c, s, Event.Request(command));
    assert forall i :: 0 <= i < |r.1| ==> r.1[i].Propose? || r.1[i].Forward?;
    forall j ensures ScratchOk(c, r.0, r.1, scratches, j) {
      assert ScratchOk(c, s, [], scratches, j);
      UnmovedStays(c, s, [], scratches, r.0, r.1, scratches, j);
    }
    FinalStays(s.core, r.0.core);
    assert Ending(c, r.0.core, r.1);
  }

  lemma ProposalHeld(c: Setting, s: Node, scratches: Scratches, k: nat, commands: seq<Command>)
    requires Sound(c) && Held(c, s, [], scratches) && k !in s.core.accepted && !IsPrimary(c)
    ensures var r := Deliver(c, s, Proposal(k, commands)); Held(c, r.0, r.1, scratches)
  {
    var r := Deliver(c, s, Proposal(k, commands));
    forall j ensures ScratchOk(c, r.0, r.1, scratches, j) {
      assert ScratchOk(c, s, [], scratches, j);
      if j != k {
        UnmovedStays(c, s, [], scratches, r.0, r.1, scratches, j);
      }
    }
    FinalStays(s.core, r.0.core);
    assert Preparing(c, r.0.core, r.1);
  }

  /** A vote and a scratch change only at number `k`. */
  lemma OneSlot(c: Setting, s: Node, scratches: Scratches, v: Vote, s': Node, scratches': Scratches)
    requires Sound(c) && Held(c, s, [], scratches) && v.viewNum == c.viewNum && v.replica < c.n
    requires s' == WithPrepare(c, s, v) || s' == WithCommit(c, s, v)
    requires scratches' == scratches || scratches' == scratches[v.blockNum := ScratchAt(scratches', v.blockNum)]
    requires ScratchOk(c, s', [], scratches', v.blockNum)
    ensures Held(c, s', [], scratches')
  {
    forall j ensures ScratchOk(c, s', [], scratches', j) {
      if j != v.blockNum {
        assert ScratchOk(c, s, [], scratches, j);
        UnmovedStays(c, s, [], scratches, s', [], scratches', j);
      }
    }
  }

  /** Late Prepares are dropped without loss. */
  lemma LatePrepareHeld(c: Setting, s: Node, scratches: Scratches, v: Vote)
    requires Sound(c) && Held(c, s, [], scratches) && v.viewNum == c.viewNum && v.replica < c.n
    requires IsPrepared(s.core, v.blockNum)
    ensures Held(c, WithPrepare(c, s, v), [], scratches)
  {
    var k := v.blockNum;
    assert ScratchOk(c, s, [], scratches, k);
    assert 1 <= k < s.core.finalizeNum ==> Final(s.core, k);
    OneSlot(c, s, scratches, v, WithPrepare(c, s, v), scratches);
  }

  lemma LateCommitHeld(c: Setting, s: Node, scratches: Scratches, v: Vote)
    requires Sound(c) && Held(c, s, [], scratches) && v.viewNum == c.viewNum && v.replica < c.n
    requires IsCommitted(s.core, v.blockNum)
    ensures Held(c, WithCommit(c, s, v), [], scratches)
  {
    var k := v.blockNum;
    assert ScratchOk(c, s, [], scratches, k);
    assert 1 <= k < s.core.finalizeNum ==> Final(s.core, k);
    OneSlot(c, s, scratches, v, WithCommit(c, s, v), scratches);
  }

  /** The scratch after a Prepare that is not late: counted, parked, or ignored. */
  function TakePrepare(s: Node, sc: Scratch, v: Vote): Scratch {
    if v.blockNum !in s.core.accepted then sc.(prepareVotes := sc.prepareVotes + [v])
    else if Matches(s, v) then sc.(prepareQuorum := sc.prepareQuorum + {v.replica})
    else sc
  }

  function TakeCommit(s: Node, sc: Scratch, v: Vote): Scratch {
    if v.blockNum !in s.core.accepted then sc.(commitVotes := sc.commitVotes + [v])
    else if Matches(s, v) then sc.(commitQuorum := sc.commitQuorum + {v.replica})
    else sc
  }

  lemma PrepareHeld(c: Setting, s: Node, scratches: Scratches, v: Vote)
    requires Sound(c) && Held(c, s, [], scratches) && v.viewNum == c.viewNum && v.replica < c.n
    requires !IsPrepared(s.core, v.blockNum)
    ensures var sc := TakePrepare(s, ScratchAt(scratches, v.blockNum), v); var s' := WithPrepare(c, s, v);
      && Held(c, s', [], scratches[v.blockNum := sc])
      && (Matches(s, v) ==> sc.prepareQuorum == Preparers(c, s', v.blockNum) && v.replica in sc.prepareQuorum)
  {
    var k, s' := v.blockNum, WithPrepare(c, s, v);
    var sc := TakePrepare(s, ScratchAt(scratches, k), v);
    assert ScratchOk(c, s, [], scratches, k);
    if k in s.core.accepted {
      VotersGrow(s.prepares, v, k, Digest(s.core.accepted[k]));
    }
    assert ScratchOk(c, s', [], scratches[k := sc], k);
    OneSlot(c, s, scratches, v, s', scratches[k := sc]);
  }

  lemma CommitHeld(c: Setting, s: Node, scratches: Scratches, v: Vote)
    requires Sound(c) && Held(c, s, [], scratches) && v.viewNum == c.viewNum && v.replica < c.n
    requires !IsCommitted(s.core, v.blockNum)
    ensures var sc := TakeCommit(s, ScratchAt(scratches, v.blockNum), v); var s' := WithCommit(c, s, v);
      && Held(c, s', [], scratches[v.blockNum := sc])
      && (Matches(s, v) ==> sc.commitQuorum == Committers(c, s', v.blockNum))
  {
    var k, s' := v.blockNum, WithCommit(c, s, v);
    var sc := TakeCommit(s, ScratchAt(scratches, k), v);
    assert ScratchOk(c, s, [], scratches, k);
    NotYetCommitted(s.core, k);
    if k in s.core.accepted {
      VotersGrow(s.commits, v, k, Digest(s.core.accepted[k]));
    }
    assert ScratchOk(c, s', [], scratches[k := sc], k);
    OneSlot(c, s, scratches, v, s', scratches[k := sc]);
  }

  lemma NotYetCommitted(s: Core, k: nat)
    requires !IsCommitted(s, k) && s.committed <= s.prepared
    ensures k !in s.committed && k >= s.finalizeNum
  {
  }
}
