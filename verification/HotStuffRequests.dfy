/**
 What becomes of client requests in HotStuff: the pool of every core has been given exactly
 the requests and the finalized commands of its run, and a leader proposes all it takes.
 */
module HotStuffRequests {
  import opened Commands
  import opened HotStuffTree
  import opened HotStuffChain
  import opened HotStuffCore
  import opened HotStuffStableLeader
  import opened HotStuffLeaderLoop
  import CommandPool
  import Runs = CommandPoolRuns

  function RequestOf(e: Event): seq<Command> {
    if e.Request? then [e.command] else []
  }

  function RequestsIn(es: seq<Event>): seq<Command> {
    if es == [] then [] else RequestsIn(es[..|es| - 1]) + RequestOf(Last(es))
  }

  /** The commands of all proposed blocks, in order. */
  function ProposedIn(actions: seq<Action>): seq<Command> {
    if actions == [] then []
    else ProposedIn(actions[..|actions| - 1]) + (if Last(actions).Propose? then Last(actions).block.commands else [])
  }

  lemma {:induction false} ProposedInConcat(a: seq<Action>, b: seq<Action>)
    ensures ProposedIn(a + b) == ProposedIn(a) + ProposedIn(b)
    decreases |b|
  {
    if b == [] {
      assert a + b == a;
    } else {
      assert (a + b)[..|a + b| - 1] == a + b[..|b| - 1];
      ProposedInConcat(a, b[..|b| - 1]);
    }
  }

  lemma {:induction false} FlattenConcat(a: seq<Digest>, b: seq<Digest>)
    ensures Flatten(a + b) == Flatten(a) + Flatten(b)
    decreases |b|
  {
    if b == [] {
      assert a + b == a;
    } else {
      assert (a + b)[..|a + b| - 1] == a + b[..|b| - 1];
      FlattenConcat(a, b[..|b| - 1]);
    }
  }

  // ---- the pool's history ----

  /** The pool is the outcome of these operations: its requests, batches and commits are the given ones, in order. */
  ghost predicate Pools(pool: CommandPool.State, maxBatchSize: nat, ops: seq<Op>, requests: seq<Command>,
      handed: seq<Command>, committed: seq<Command>) {
    && Runs.IsHistory(pool, ops, handed)
    && PushedIn(ops) == requests && CommittedIn(ops) == committed
    && forall op :: op in ops && op.CloseOp? ==> op.maxBatchSize == maxBatchSize
  }

  lemma OneOp(pool: CommandPool.State, b: nat, ops: seq<Op>, r: seq<Command>, h: seq<Command>, f: seq<Command>, op: Op)
    requires Pools(pool, b, ops, r, h, f) && (op.CloseOp? ==> op.maxBatchSize == b)
    requires pool.OpenLoop? ==> Runs.Open.Allowed(op)
    ensures var (pool', taken) := Runs.After(pool, op);
      Pools(pool', b, ops + [op], if op.PushOp? then r + [op.command] else r, h + taken,
            if op.CommitOp? then f + [op.command] else f)
  {
    hide Runs.IsHistory, Runs.After;
    Runs.OneMoreOp(pool, ops, h, op);
    OpsAfter(ops, op);
  }

  lemma {:induction false} CommitAllPools(pool: CommandPool.State, b: nat, ops: seq<Op>, r: seq<Command>,
      h: seq<Command>, f: seq<Command>, cs: seq<Command>) returns (ops': seq<Op>)
    requires Pools(pool, b, ops, r, h, f)
    ensures Pools(CommandPool.CommitAll(pool, cs), b, ops', r, h, f + cs)
    decreases |cs|
  {
    hide Pools;
    if cs == [] {
      assert f + cs == f;
      ops' := ops;
    } else {
      var front := cs[..|cs| - 1];
      var more := CommitAllPools(pool, b, ops, r, h, f, front);
      OneOp(CommandPool.CommitAll(pool, front), b, more, r, h, f + front, CommitOp(Last(cs)));
      assert f + cs == f + front + [Last(cs)];
      assert h + [] == h;
      ops' := more + [CommitOp(Last(cs))];
    }
  }

  lemma EventPools(c: Core, e: Event, ops: seq<Op>, r: seq<Command>, h: seq<Command>, f: seq<Command>)
    returns (ops': seq<Op>)
    requires Pools(c.pool, c.maxBatchSize, ops, r, h, f)
    ensures Pools(PoolAfter(c, e), c.maxBatchSize, ops', r + RequestOf(e), h, f + Flatten(FinalizedBy(c.chain, e)))
  {
    hide Pools, FinalizedBy;
    assert r + [] == r && h + [] == h && f + [] == f;
    if e.Request? {
      OneOp(c.pool, c.maxBatchSize, ops, r, h, f, PushOp(e.command));
      NoBlockNoPath(c.chain, e);
      ops' := ops + [PushOp(e.command)];
    } else {
      ops' := CommitAllPools(c.pool, c.maxBatchSize, ops, r, h, f, Flatten(FinalizedBy(c.chain, e)));
    }
  }

  /** One event of a core. */
  lemma HandlePools(c: Core, e: Event, ops: seq<Op>, r: seq<Command>, h: seq<Command>, f: seq<Command>)
    returns (ops': seq<Op>)
    requires Configured(c) && CanHandle(c.chain, e) && Pools(c.pool, c.maxBatchSize, ops, r, h, f)
    ensures var c' := Handle(c, e).0;
      && c'.maxBatchSize == c.maxBatchSize
      && Pools(c'.pool, c.maxBatchSize, ops', r + RequestOf(e), h + TakenBy(c, e),
               f + Flatten(FinalizedBy(c.chain, e)))
  {
    hide Pools, FinalizedBy, React, PoolAfter, CommandPool.CloseBatch;
    ops' := EventPools(c, e, ops, r, h, f);
    var c1 := Reacted(c, e);
    assert h + [] == h;
    if c1.chain.high.node == c1.chain.leaf {
      OneOp(c1.pool, c.maxBatchSize, ops', r + RequestOf(e), h, f + Flatten(FinalizedBy(c.chain, e)),
            CloseOp(c.maxBatchSize));
      ops' := ops' + [CloseOp(c.maxBatchSize)];
    }
  }

  /** A leader proposes the commands it takes, and no others. */
  lemma TakenIsProposed(c: Core, e: Event)
    requires Configured(c) && CanHandle(c.chain, e) && c.id == LEADER
    ensures ProposedIn(Handle(c, e).1) == TakenBy(c, e)
  {
    hide React, PoolAfter, CommandPool.CloseBatch, FinalizedBy, Accepts;
    var own, beat := ReactActions(c.chain, e), Beat(Reacted(c, e)).1;
    ProtocolActionsAreSilent(c.chain, e);
    NoneProposed(own);
    ProposedInConcat(own, beat);
    assert beat != [] ==> beat[..0] == [];
  }

  lemma {:induction false} NoneProposed(actions: seq<Action>)
    requires Silent(actions)
    ensures ProposedIn(actions) == []
  {
    if actions != [] {
      NoneProposed(actions[..|actions| - 1]);
    }
  }

  /**
   Over any run of any core, what the pool was given is exactly what was requested, and what
   was committed in it is what was finalized, in order; all that a leader took out of it,
   it proposed, in order.
   */
  lemma {:induction false} RunPools(id: ReplicaId, b: nat, openLoop: bool, es: seq<Event>)
    returns (ops: seq<Op>, taken: seq<Command>)
    requires Configured(HotStuffCore.Init(id, b, openLoop)) && HandleAll(HotStuffCore.Init(id, b, openLoop), es).Some?
    ensures var (c, actions) := HandleAll(HotStuffCore.Init(id, b, openLoop), es).value;
      && c.id == id && c.maxBatchSize == b
      && Pools(c.pool, b, ops, RequestsIn(es), taken, Flatten(Finalized(actions)))
      && (id == LEADER ==> taken == ProposedIn(actions))
    decreases |es|
  {
    if es == [] {
      ops, taken := [], [];
      Runs.EmptyHistory(openLoop);
    } else {
      hide Pools, Handle, TakenBy, Flatten, Configured, CanHandle;
      var front := es[..|es| - 1];
      var (c, actions) := HandleAll(HotStuffCore.Init(id, b, openLoop), front).value;
      var h := Handle(c, Last(es));
      ops, taken := RunPools(id, b, openLoop, front);
      ops := HandlePools(c, Last(es), ops, RequestsIn(front), taken, Flatten(Finalized(actions)));
      taken := taken + TakenBy(c, Last(es));
      HandleKeepsConfigured(c, Last(es));
      HandleEmits(c, Last(es));
      FinalizedConcat(actions, h.1);
      FlattenConcat(Finalized(actions), Finalized(h.1));
      ProposedInConcat(actions, h.1);
      if id == LEADER {
        TakenIsProposed(c, Last(es));
      }
    }
  }

  // ---- the leader ----

  /** The leader's pool was given these requests, what was taken from it, and what was finalized. */
  ghost predicate Pooled(l: Leader, requests: seq<Command>) {
    exists ops :: Pools(l.core.pool, l.core.maxBatchSize, ops, requests, l.taken, Flatten(l.finalized))
  }

  lemma StartPooled(maxBatchSize: nat, openLoop: bool)
    ensures Pooled(Leader(HotStuffCore.Init(LEADER, maxBatchSize, openLoop), Genesis, [], []), [])
  {
    var l := Leader(HotStuffCore.Init(LEADER, maxBatchSize, openLoop), Genesis, [], []);
    Runs.EmptyHistory(openLoop);
    assert Pools(l.core.pool, l.core.maxBatchSize, [], [], l.taken, Flatten(l.finalized));
  }

  lemma StimulatedPooled(l: Leader, e: Event, requests: seq<Command>)
    requires Configured(l.core) && Stimulus(l.core, e) && Pooled(l, requests)
    ensures Pooled(Stimulated(l, e), requests + RequestOf(e))
  {
    hide Pools, Handle, TakenBy, Flatten;
    var ops :| Pools(l.core.pool, l.core.maxBatchSize, ops, requests, l.taken, Flatten(l.finalized));
    ops := HandlePools(l.core, e, ops, requests, l.taken, Flatten(l.finalized));
    StimulusEmitsNothing(l.core, e);
    FlattenConcat(l.finalized, []);
    assert l.finalized + [] == l.finalized;
  }

  lemma StoredPooled(l: Leader, b: Proposal, requests: seq<Command>)
    requires Proposing(l, b) && CanHandle(l.core.chain, Proposed(b)) && Pooled(l, requests)
    ensures Configured(l.core) && Pooled(Stored(l, b), requests)
  {
    hide Pools, Handle, TakenBy, Flatten, LeaderForm;
    var ops :| Pools(l.core.pool, l.core.maxBatchSize, ops, requests, l.taken, Flatten(l.finalized));
    ops := HandlePools(l.core, Proposed(b), ops, requests, l.taken, Flatten(l.finalized));
    ProposerWaits(l.core, l.tip, b);
    HandleEmits(l.core, Proposed(b));
    FlattenConcat(l.finalized, Finalized(Handle(l.core, Proposed(b)).1));
    assert requests + [] == requests && l.taken + [] == l.taken;
  }

  /**
   A quiet leader with a close-loop pool has finalized, for every request it was given, one
   of its client that is at least as new.
   */
  lemma QuietServes(l: Leader, requests: seq<Command>, x: Command)
    requires LeaderOk(l) && l.core.chain.high.node == l.core.chain.leaf
    requires Pooled(l, requests) && l.core.pool.CloseLoop? && x in requests
    ensures exists y :: Covers(y, x) && y in Flatten(l.finalized)
  {
    QuietLeader(l);
    var ops :| Pools(l.core.pool, l.core.maxBatchSize, ops, requests, l.taken, Flatten(l.finalized));
    Runs.PushedIsCovered(l.core.pool, ops, l.taken, x);
  }
}
