/**
 What becomes of client requests in PBFT: the pool of every replica has been given exactly
 the requests, the proposals and the final blocks of its run, so no request is forgotten.
 */
module PbftRequests {
  import opened Commands
  import opened PbftCore
  import opened PbftNode
  import opened PbftInvariant
  import opened PbftOutcome
  import PbftSystem
  import PbftAgreement
  import PbftQuiescence
  import CloseLoopPool
  import Runs = CloseLoopPoolRuns

  lemma {:induction false} InFlat(batches: seq<seq<Command>>, i: nat, x: Command)
    requires i < |batches| && x in batches[i]
    ensures x in Flat(batches)
  {
    if i > 0 {
      InFlat(batches[1..], i - 1, x);
    }
  }

  /** The requests that were delivered, in order. */
  function RequestsIn(ms: seq<Arrival>): seq<Command> {
    if ms == [] then []
    else RequestsIn(ms[..|ms| - 1]) + (if Last(ms).message.Request? then [Last(ms).message.command] else [])
  }

  /** The commands of the blocks that were sent to all as proposals, in order. */
  function ProposedIn(outputs: seq<Output>): seq<Command> {
    if outputs == [] then []
    else
      (if outputs[0].ToAll? && outputs[0].message.PrePrepare? then outputs[0].message.commands else [])
      + ProposedIn(outputs[1..])
  }

  lemma {:induction false} ProposedInConcat(a: seq<Output>, b: seq<Output>)
    ensures ProposedIn(a + b) == ProposedIn(a) + ProposedIn(b)
  {
    if a == [] {
      assert a + b == b;
    } else {
      assert (a + b)[1..] == a[1..] + b;
      ProposedInConcat(a[1..], b);
    }
  }

  /** The commands of the queued proposals concatenate. */
  lemma {:induction false} CommandsConcat(a: seq<Action>, b: seq<Action>)
    ensures CommandsProposed(a + b) == CommandsProposed(a) + CommandsProposed(b)
  {
    if a == [] {
      assert a + b == b;
    } else {
      assert (a + b)[1..] == a[1..] + b;
      CommandsConcat(a[1..], b);
    }
  }

  /** The commands of the blocks whose finalization is queued, in order. */
  function FinalIn(accepted: map<nat, seq<Command>>, queue: seq<Action>): seq<Command> {
    if queue == [] then []
    else
      (if queue[0].Finalize? && queue[0].num in accepted then accepted[queue[0].num] else [])
      + FinalIn(accepted, queue[1..])
  }

  lemma {:induction false} FinalInConcat(accepted: map<nat, seq<Command>>, a: seq<Action>, b: seq<Action>)
    ensures FinalIn(accepted, a + b) == FinalIn(accepted, a) + FinalIn(accepted, b)
  {
    if a == [] {
      assert a + b == b;
    } else {
      assert (a + b)[1..] == a[1..] + b;
      FinalInConcat(accepted, a[1..], b);
    }
  }

  /** What is to be finalized has been accepted. */
  ghost predicate Known(accepted: map<nat, seq<Command>>, queue: seq<Action>) {
    forall a :: a in queue && a.Finalize? ==> a.num in accepted
  }

  ghost predicate Keeps(accepted: map<nat, seq<Command>>, accepted': map<nat, seq<Command>>) {
    forall k :: k in accepted ==> k in accepted' && accepted'[k] == accepted[k]
  }

  lemma {:induction false} FinalInStays(accepted: map<nat, seq<Command>>, accepted': map<nat, seq<Command>>,
      queue: seq<Action>)
    requires Known(accepted, queue) && Keeps(accepted, accepted')
    ensures FinalIn(accepted', queue) == FinalIn(accepted, queue) && Known(accepted', queue)
  {
    if queue != [] {
      FinalInStays(accepted, accepted', queue[1..]);
    }
  }

  // ---- the pool's history ----

  /** The pool is the outcome of these operations: its requests, batches and commits are the given ones, in order. */
  ghost predicate Pools(c: Setting, pool: CloseLoopPool.State, ops: seq<Op>, requests: seq<Command>,
      handed: seq<Command>, committed: seq<Command>) {
    && pool == Runs.Run(ops).pool
    && PushedIn(ops) == requests && Runs.Run(ops).handed == handed && CommittedIn(ops) == committed
    && forall op :: op in ops && op.CloseOp? ==> op.maxBatchSize == c.maxBatchSize
  }

  lemma OneOp(c: Setting, pool: CloseLoopPool.State, ops: seq<Op>, r: seq<Command>, h: seq<Command>, f: seq<Command>,
      op: Op)
    requires Pools(c, pool, ops, r, h, f) && (op.CloseOp? ==> op.maxBatchSize == c.maxBatchSize)
    ensures match op
      case PushOp(x) => Pools(c, CloseLoopPool.Push(pool, x).0, ops + [op], r + [x], h, f)
      case CloseOp(b) => Pools(c, CloseLoopPool.CloseBatch(pool, b).0, ops + [op], r, h + Runs.Batch(pool, b), f)
      case CommitOp(x) => Pools(c, CloseLoopPool.Commit(pool, x), ops + [op], r, h, f + [x])
  {
    Runs.OneMoreOp(ops, op);
    OpsAfter(ops, op);
  }

  lemma {:induction false} CommitAllPools(c: Setting, pool: CloseLoopPool.State, ops: seq<Op>, r: seq<Command>,
      h: seq<Command>, f: seq<Command>, cs: seq<Command>) returns (ops': seq<Op>)
    requires Pools(c, pool, ops, r, h, f)
    ensures Pools(c, CommitAll(pool, cs), ops', r, h, f + cs)
    decreases |cs|
  {
    hide Pools;
    if cs == [] {
      assert f + cs == f;
      ops' := ops;
    } else {
      var front := cs[..|cs| - 1];
      var more := CommitAllPools(c, pool, ops, r, h, f, front);
      OneOp(c, CommitAll(pool, front), more, r, h, f + front, CommitOp(Last(cs)));
      assert f + cs == f + front + [Last(cs)];
      ops' := more + [CommitOp(Last(cs))];
    }
  }

  /** Finalizing commits what it asks to be executed. */
  lemma {:induction false} FinalizeAllPools(c: Setting, s: Core, ops: seq<Op>, r: seq<Command>, h: seq<Command>,
      f: seq<Command>) returns (ops': seq<Op>)
    requires Pools(c, s.pool, ops, r, h, f)
    ensures var actions := FinalizeActions(s.finalizeNum, FinalizeAll(s).finalizeNum);
      Pools(c, FinalizeAll(s).pool, ops', r, h, f + FinalIn(s.accepted, actions)) && Known(s.accepted, actions)
    decreases Unfinalized(s)
  {
    hide Pools, CommitAll, FinalIn;
    if CanFinalize(s) {
      FinalizeOneProgresses(s);
      FinalizeOneIsNext(s);
      var more := CommitAllPools(c, s.pool, ops, r, h, f, s.accepted[s.finalizeNum + 1]);
      ops' := FinalizeAllPools(c, FinalizeOne(s), more, r, h, f + s.accepted[s.finalizeNum + 1]);
      var hi := FinalizeAll(s).finalizeNum;
      var later := FinalizeActions(s.finalizeNum + 1, hi);
      QueueHeads(s.accepted, Finalize(s.finalizeNum + 1), later);
      Associates(f, s.accepted[s.finalizeNum + 1], FinalIn(s.accepted, later));
    } else {
      NoFinals(s.accepted, []);
      assert f + [] == f;
      ops' := ops;
    }
  }

  lemma BatchIs(pool: CloseLoopPool.State, b: nat)
    ensures Runs.Batch(pool, b) ==
      match CloseLoopPool.CloseBatch(pool, b).1 { case None => [] case Some(batch) => batch }
  {
  }

  /** Proposing hands out what it proposes. */
  lemma {:induction false} ProposeAllPools(c: Setting, s: Core, ops: seq<Op>, r: seq<Command>, h: seq<Command>,
      f: seq<Command>) returns (ops': seq<Op>)
    requires Sound(c) && Pools(c, s.pool, ops, r, h, f)
    ensures Pools(c, ProposeAll(c, s).0.pool, ops', r, h + CommandsProposed(ProposeAll(c, s).1), f)
    decreases s.finalizeNum + c.maxInflight - s.proposeNum
  {
    hide Pools, CloseLoopPool.CloseBatch;
    assert h + [] == h;
    ops' := ops;
    if CanPropose(c, s) {
      OneOp(c, s.pool, ops, r, h, f, CloseOp(c.maxBatchSize));
      var batch := CloseLoopPool.CloseBatch(s.pool, c.maxBatchSize);
      ops' := ops + [CloseOp(c.maxBatchSize)];
      BatchIs(s.pool, c.maxBatchSize);
      if batch.1.Some? {
        var s1 := s.(pool := batch.0, proposeNum := s.proposeNum + 1);
        ops' := ProposeAllPools(c, s1, ops', r, h + batch.1.value, f);
        ProposedCons(Propose(s.proposeNum + 1, batch.1.value), ProposeAll(c, s1).1);
        Associates(h, batch.1.value, CommandsProposed(ProposeAll(c, s1).1));
      }
    }
  }

  lemma {:induction false} NoProposals(queue: seq<Action>)
    requires forall i :: 0 <= i < |queue| ==> !queue[i].Propose?
    ensures CommandsProposed(queue) == []
  {
    if queue != [] {
      NoProposals(queue[1..]);
    }
  }

  lemma {:induction false} NoFinals(accepted: map<nat, seq<Command>>, queue: seq<Action>)
    requires forall i :: 0 <= i < |queue| ==> !queue[i].Finalize?
    ensures FinalIn(accepted, queue) == [] && Known(accepted, queue)
  {
    if queue != [] {
      NoFinals(accepted, queue[1..]);
    }
  }

  lemma CommitQuorumPools(c: Setting, s: Core, k: nat, ops: seq<Op>, r: seq<Command>, h: seq<Command>,
      f: seq<Command>) returns (ops': seq<Op>)
    requires Sound(c) && Pools(c, s.pool, ops, r, h, f)
    ensures var out := Handle(c, s, CommitQuorum(k));
      && Pools(c, out.0.pool, ops', r, h + CommandsProposed(out.1), f + FinalIn(s.accepted, out.1))
      && Known(s.accepted, out.1) && out.0.accepted == s.accepted
  {
    hide Pools;
    var s1 := s.(committed := s.committed + {k});
    var s2 := FinalizeAll(s1);
    var actions, proposals := FinalizeActions(s.finalizeNum, s2.finalizeNum), ProposeAll(c, s2).1;
    ops' := FinalizeAllPools(c, s1, ops, r, h, f);
    ops' := ProposeAllPools(c, s2, ops', r, h, f + FinalIn(s.accepted, actions));
    NoProposals(actions);
    NoFinals(s.accepted, proposals);
    CommandsConcat(actions, proposals);
    FinalInConcat(s.accepted, actions, proposals);
    assert FinalIn(s.accepted, actions) + [] == FinalIn(s.accepted, actions);
    assert [] + CommandsProposed(proposals) == CommandsProposed(proposals);
  }

  /** One event of the core. */
  lemma HandlePools(c: Setting, s: Core, e: Event, ops: seq<Op>, r: seq<Command>, h: seq<Command>, f: seq<Command>)
    returns (ops': seq<Op>)
    requires Sound(c) && Pools(c, s.pool, ops, r, h, f)
    ensures var out := Handle(c, s, e);
      && Pools(c, out.0.pool, ops', r + (if e.Request? then [e.command] else []), h + CommandsProposed(out.1),
               f + FinalIn(s.accepted, out.1))
      && Known(s.accepted, out.1) && Keeps(s.accepted, out.0.accepted)
  {
    hide Pools;
    assert r + [] == r && h + [] == h && f + [] == f;
    ops' := ops;
    var more := Handle(c, s, e).1;
    match e
    case Request(x) =>
      OneOp(c, s.pool, ops, r, h, f, PushOp(x));
      ops' := ops + [PushOp(x)];
      if IsPrimary(c) {
        var s1 := s.(pool := CloseLoopPool.Push(s.pool, x).0);
        ops' := ProposeAllPools(c, s1, ops', r + [x], h, f);
      } else {
        NoProposals(more);
      }
      NoFinals(s.accepted, more);
    case CommitQuorum(k) =>
      ops' := CommitQuorumPools(c, s, k, ops, r, h, f);
    case _ =>
      NoProposals(more);
      NoFinals(s.accepted, more);
  }

  // ---- the loop over actions ----

  /** The event that performing an action gives the core, if it does. */
  function EventOf(c: Setting, s: Node, a: Action): Option<Event>
    requires Sound(c)
  {
    match a
    case Propose(k, commands) => Some(Proposal(k, commands))
    case Prepare(k, _) => if EnoughPrepares(c, s, k) then Some(PrepareQuorum(k)) else None
    case Commit(k) => if CommitsNow(c, s, k) then Some(CommitQuorum(k)) else None
    case _ => None
  }

  lemma PerformIs(c: Setting, s: Node, a: Action)
    requires Sound(c) && CanPerform(c, s, a)
    ensures var p := Perform(c, s, a);
      && (match EventOf(c, s, a)
          case None => p.0.core == s.core && p.1 == []
          case Some(e) => !e.Request? && (p.0.core, p.1) == Handle(c, s.core, e))
      && ProposedIn(p.2) == (if a.Propose? then a.commands else [])
      && (a.Finalize? ==> a.num in s.core.accepted)
      && Flat(Executed(p.2)) == (if a.Finalize? then s.core.accepted[a.num] else [])
  {
    hide Handle;
    var sent := Perform(c, s, a).2;
    assert |sent| == 1 && sent == [sent[0]] && sent[1..] == [];
  }

  lemma QueueHeads(accepted: map<nat, seq<Command>>, a: Action, rest: seq<Action>)
    ensures CommandsProposed([a] + rest) == (if a.Propose? then a.commands else []) + CommandsProposed(rest)
    ensures FinalIn(accepted, [a] + rest) ==
      (if a.Finalize? && a.num in accepted then accepted[a.num] else []) + FinalIn(accepted, rest)
  {
    assert ([a] + rest)[1..] == rest;
  }

  lemma PerformPools(c: Setting, s: Node, a: Action, rest: seq<Action>, ops: seq<Op>, r: seq<Command>,
      h: seq<Command>, f: seq<Command>) returns (ops': seq<Op>)
    requires Sound(c) && CanPerform(c, s, a) && Known(s.core.accepted, rest)
    requires Pools(c, s.core.pool, ops, r, h + CommandsProposed([a] + rest), f + FinalIn(s.core.accepted, [a] + rest))
    ensures var p := Perform(c, s, a);
      && Pools(c, p.0.core.pool, ops', r, h + ProposedIn(p.2) + CommandsProposed(rest + p.1),
               f + Flat(Executed(p.2)) + FinalIn(p.0.core.accepted, rest + p.1))
      && Known(p.0.core.accepted, rest + p.1)
  {
    hide Pools, Perform, CanPerform, Handle, EventOf;
    var p := Perform(c, s, a);
    var h1, f1 := h + ProposedIn(p.2) + CommandsProposed(rest),
      f + Flat(Executed(p.2)) + FinalIn(s.core.accepted, rest);
    PerformIs(c, s, a);
    QueueHeads(s.core.accepted, a, rest);
    assert h + CommandsProposed([a] + rest) == h1;
    assert f + FinalIn(s.core.accepted, [a] + rest) == f1;
    match EventOf(c, s, a)
    case None =>
      assert rest + p.1 == rest;
      ops' := ops;
    case Some(e) =>
      ops' := HandlePools(c, s.core, e, ops, r, h1, f1);
      assert r + [] == r;
      FinalInStays(s.core.accepted, p.0.core.accepted, rest + p.1);
      CommandsConcat(rest, p.1);
      FinalInConcat(s.core.accepted, rest, p.1);
      assert h1 + CommandsProposed(p.1) == h + ProposedIn(p.2) + CommandsProposed(rest + p.1);
      assert f1 + FinalIn(s.core.accepted, p.1) == f + Flat(Executed(p.2)) + FinalIn(s.core.accepted, rest + p.1);
  }

  lemma {:induction false} DrainPools(c: Setting, s: Node, queue: seq<Action>, ops: seq<Op>, r: seq<Command>,
      h: seq<Command>, f: seq<Command>) returns (ops': seq<Op>)
    requires Sound(c) && Drain(c, s, queue).Done? && Known(s.core.accepted, queue)
    requires Pools(c, s.core.pool, ops, r, h + CommandsProposed(queue), f + FinalIn(s.core.accepted, queue))
    ensures var out := Drain(c, s, queue);
      Pools(c, out.node.core.pool, ops', r, h + ProposedIn(out.outputs), f + Flat(Executed(out.outputs)))
    decreases Distance(c, queue).0, Distance(c, queue).1, Distance(c, queue).2, Distance(c, queue).3
  {
    hide Pools, Perform, CanPerform, Distance, ProposedIn, Flat, Executed;
    OutputsStart(h, f);
    if queue == [] {
      ops' := ops;
    } else {
      var p := Perform(c, s, queue[0]);
      PerformGetsCloser(c, s, queue);
      assert queue == [queue[0]] + queue[1..];
      ops' := PerformPools(c, s, queue[0], queue[1..], ops, r, h, f);
      var out := Drain(c, p.0, queue[1..] + p.1);
      ops' := DrainPools(c, p.0, queue[1..] + p.1, ops', r, h + ProposedIn(p.2), f + Flat(Executed(p.2)));
      OutputsConcat(h, f, p.2, out.outputs);
    }
  }

  lemma OutputsStart(h: seq<Command>, f: seq<Command>)
    ensures h + ProposedIn([]) == h && f + Flat(Executed([])) == f
  {
  }

  lemma OutputsConcat(h: seq<Command>, f: seq<Command>, a: seq<Output>, b: seq<Output>)
    ensures h + ProposedIn(a + b) == h + ProposedIn(a) + ProposedIn(b)
    ensures f + Flat(Executed(a + b)) == f + Flat(Executed(a)) + Flat(Executed(b))
  {
    hide ProposedIn, Executed, Flat;
    ProposedInConcat(a, b);
    ExecutedConcat(a, b);
    FlatConcat(Executed(a), Executed(b));
    Associates(h, ProposedIn(a), ProposedIn(b));
    Associates(f, Flat(Executed(a)), Flat(Executed(b)));
  }

  lemma Associates<T>(a: seq<T>, b: seq<T>, c: seq<T>)
    ensures a + (b + c) == a + b + c
  {
  }

  // ---- one message, and whole runs ----

  function EventOfMessage(c: Setting, s: Node, m: Message, verified: bool): Option<Event>
    requires Sound(c)
  {
    match m
    case Request(x) => Some(Event.Request(x))
    case PrePrepare(viewNum, k, digest, commands) =>
      if viewNum == c.viewNum && k !in s.core.accepted && verified && digest == Digest(commands)
      then Some(Proposal(k, commands)) else None
    case PrepareVote(v) =>
      if Current(c, v, verified) && Prepares(c, s, v) then Some(PrepareQuorum(v.blockNum)) else None
    case CommitVote(v) =>
      if Current(c, v, verified) && Commits(c, s, v) then Some(CommitQuorum(v.blockNum)) else None
  }

  lemma {:induction false} AnswersArePlain(outputs: seq<Output>)
    requires forall o :: o in outputs ==> o.To?
    ensures ProposedIn(outputs) == [] && Executed(outputs) == []
  {
    if outputs != [] {
      assert outputs[0] in outputs;
      AnswersArePlain(outputs[1..]);
    }
  }

  lemma AdmitIs(c: Setting, s: Node, m: Message, verified: bool)
    requires Sound(c) && CanAdmit(c, s, m, verified)
    ensures var a := Admit(c, s, m, verified);
      && (match EventOfMessage(c, s, m, verified)
          case None => a.0.core == s.core && a.1 == [] && !m.Request?
          case Some(e) =>
            && (a.0.core, a.1) == Handle(c, s.core, e)
            && (e.Request? <==> m.Request?) && (m.Request? ==> e.command == m.command))
      && ProposedIn(a.2) == [] && Executed(a.2) == []
  {
    hide Handle, Prepares, Commits, Current;
    AnswersArePlain(Admit(c, s, m, verified).2);
  }

  lemma ReceivePools(c: Setting, s: Node, m: Message, verified: bool, ops: seq<Op>, r: seq<Command>, h: seq<Command>,
      f: seq<Command>) returns (ops': seq<Op>)
    requires Sound(c) && Receive(c, s, m, verified).Done? && Pools(c, s.core.pool, ops, r, h, f)
    ensures var out := Receive(c, s, m, verified);
      Pools(c, out.node.core.pool, ops', r + (if m.Request? then [m.command] else []), h + ProposedIn(out.outputs),
            f + Flat(Executed(out.outputs)))
  {
    hide Pools, Admit, CanAdmit, Drain, Handle, EventOfMessage;
    var a := Admit(c, s, m, verified);
    var r' := r + (if m.Request? then [m.command] else []);
    AdmitIs(c, s, m, verified);
    assert r + [] == r && h + [] == h && f + [] == f;
    match EventOfMessage(c, s, m, verified) {
      case None =>
        ops' := DrainPools(c, a.0, a.1, ops, r', h, f);
      case Some(e) =>
        ops' := HandlePools(c, s.core, e, ops, r, h, f);
        FinalInStays(s.core.accepted, a.0.core.accepted, a.1);
        ops' := DrainPools(c, a.0, a.1, ops', r', h, f);
    }
    var out := Drain(c, a.0, a.1);
    ProposedInConcat(a.2, out.outputs);
    ExecutedConcat(a.2, out.outputs);
    assert [] + ProposedIn(out.outputs) == ProposedIn(out.outputs);
    assert [] + Executed(out.outputs) == Executed(out.outputs);
  }

  /**
   Over any run, what the pool was given is exactly what was requested, what it gave out is
   what was proposed, and what was committed in it is what was executed: all of it, in order.
   */
  lemma {:induction false} RunPools(c: Setting, ms: seq<Arrival>) returns (ops: seq<Op>)
    requires Sound(c) && ReceiveAll(c, ms).Done?
    ensures var out := ReceiveAll(c, ms);
      Pools(c, out.node.core.pool, ops, RequestsIn(ms), ProposedIn(out.outputs), Flat(Executed(out.outputs)))
  {
    ops := [];
    if ms != [] {
      hide Pools, Receive;
      var before := ReceiveAll(c, ms[..|ms| - 1]);
      ops := RunPools(c, ms[..|ms| - 1]);
      ops := ReceivePools(c, before.node, Last(ms).message, Last(ms).verified, ops, RequestsIn(ms[..|ms| - 1]),
                          ProposedIn(before.outputs), Flat(Executed(before.outputs)));
      var out := Receive(c, before.node, Last(ms).message, Last(ms).verified);
      ProposedInConcat(before.outputs, out.outputs);
      ExecutedConcat(before.outputs, out.outputs);
      FlatConcat(Executed(before.outputs), Executed(out.outputs));
    }
  }

  /**
   No request is forgotten: one of its client at least as new is still pending, went out in
   a proposal, or was executed.
   */
  lemma RequestIsCovered(c: Setting, ms: seq<Arrival>, x: Command)
    requires Sound(c) && ReceiveAll(c, ms).Done? && x in RequestsIn(ms)
    ensures var out := ReceiveAll(c, ms);
      exists y :: Covers(y, x)
        && (y in out.node.core.pool.pending || y in ProposedIn(out.outputs) || y in Flat(Executed(out.outputs)))
  {
    var ops := RunPools(c, ms);
    Runs.PushedIsCovered(ops, x);
  }

  // ---- all replicas together ----

  /**
   Every replica of a run is one that received a list of messages; whichever of them we ask
   for is in the list.
   */
  lemma {:induction false} MemberReceives(w: PbftSystem.World, run: seq<PbftSystem.System>, i: ReplicaId, n: nat,
      x: nat, a: Arrival) returns (ms: seq<Arrival>)
    requires PbftSystem.WorldOk(w) && PbftSystem.IsRun(w, run) && n < |run| && x + 1 < |run|
    requires PbftSystem.ReceiveStep(w, run[x], run[x + 1], i, a)
    ensures i in w.settings && Sound(w.settings[i]) && i in run[n].members
    ensures AllAdmissible(w.settings[i], ms)
    ensures var out := ReceiveAll(w.settings[i], ms);
      out.Done? && out.node == run[n].members[i].node && Executed(out.outputs) == run[n].members[i].log
    ensures x < n ==> a in ms
    decreases n
  {
    hide PbftAgreement.Inv, PbftSystem.Deliverable, Receive, Tick, Admissible;
    if n == 0 {
      ms := [];
      StartMembers(w, run, i, x, a);
    } else {
      var before := MemberReceives(w, run, i, n - 1, x, a);
      assert PbftSystem.StepAt(w, run, n - 1);
      PbftAgreement.RunKeepsInv(w, run, n - 1);
      var s, s' := run[n - 1], run[n];
      if x == n - 1 {
        ms := before + [a];
        OneMoreArrival(w, s, s', i, before, a);
      } else if b :| PbftSystem.ReceiveStep(w, s, s', i, b) {
        ms := before + [b];
        OneMoreArrival(w, s, s', i, before, b);
      } else {
        ms := before;
      }
    }
  }

  lemma StartMembers(w: PbftSystem.World, run: seq<PbftSystem.System>, i: ReplicaId, x: nat, a: Arrival)
    requires PbftSystem.WorldOk(w) && PbftSystem.IsRun(w, run) && x + 1 < |run|
    requires PbftSystem.ReceiveStep(w, run[x], run[x + 1], i, a)
    ensures i in w.settings && Sound(w.settings[i]) && i in run[0].members
    ensures run[0].members[i].node == PbftNode.Init() && run[0].members[i].log == []
  {
    PbftAgreement.RunKeepsInv(w, run, x);
  }

  lemma OneMoreArrival(w: PbftSystem.World, s: PbftSystem.System, s': PbftSystem.System, i: ReplicaId,
      ms: seq<Arrival>, a: Arrival)
    requires PbftSystem.WorldOk(w) && PbftAgreement.Inv(w, s) && PbftSystem.ReceiveStep(w, s, s', i, a)
    requires AllAdmissible(w.settings[i], ms)
    requires var out := ReceiveAll(w.settings[i], ms);
      out.Done? && out.node == s.members[i].node && Executed(out.outputs) == s.members[i].log
    ensures AllAdmissible(w.settings[i], ms + [a]) && a in ms + [a]
    ensures var out := ReceiveAll(w.settings[i], ms + [a]);
      out.Done? && out.node == s'.members[i].node && Executed(out.outputs) == s'.members[i].log
  {
    hide Receive, PbftAgreement.Inv, PbftSystem.Deliverable, Admissible;
    PbftAgreement.DeliverableIsAdmissible(w, s, i, a);
    assert (ms + [a])[..|ms|] == ms && Last(ms + [a]) == a;
    ExecutedConcat(ReceiveAll(w.settings[i], ms).outputs,
                   Receive(w.settings[i], s.members[i].node, a.message, a.verified).outputs);
  }

  lemma {:induction false} RequestIsIn(ms: seq<Arrival>, a: Arrival)
    requires a in ms && a.message.Request?
    ensures a.message.command in RequestsIn(ms)
  {
    if Last(ms) != a {
      assert a in ms[..|ms| - 1];
      RequestIsIn(ms[..|ms| - 1], a);
    }
  }

  /** Every proposed command is in a block that the honest primary accepted. */
  lemma {:induction false} ProposedIsAccepted(c: Setting, s: Core, outputs: seq<Output>, y: Command)
    returns (k: nat)
    requires Sound(c) && AllHonest(c, s, outputs) && y in ProposedIn(outputs)
    ensures k in s.accepted && y in s.accepted[k]
  {
    var o := outputs[0];
    assert Honest(c, s, outputs[0]);
    if o.ToAll? && o.message.PrePrepare? && y in o.message.commands {
      k := o.message.blockNum;
    } else {
      k := ProposedIsAccepted(c, s, outputs[1..], y);
    }
  }

  /**
   Liveness to the end: once all messages between honest replicas are held, each of these
   has executed, for every request the honest primary was ever handed, one of its client
   that is at least as new.
   */
  lemma RequestsAreExecuted(w: PbftSystem.World, run: seq<PbftSystem.System>, p: ReplicaId, x: nat, request: Command,
      verified: bool, i: ReplicaId)
    requires PbftSystem.WorldOk(w) && PbftSystem.IsRun(w, run) && w.cfg.n - w.cfg.f >= 2
    requires p in Last(run).members && p == w.viewNum % w.cfg.n && PbftQuiescence.AllDelivered(Last(run))
    requires p in w.settings && w.settings[p].maxInflight >= 1
    requires x + 1 < |run|
    requires PbftSystem.ReceiveStep(w, run[x], run[x + 1], p, Arrival(Message.Request(request), verified))
    requires i in Last(run).members
    ensures exists y :: Covers(y, request) && y in Flat(Last(run).members[i].log)
  {
    hide PbftSystem.IsRun, PbftQuiescence.AllDelivered, PbftSystem.ReceiveStep, Covers;
    var n := |run| - 1;
    PbftQuiescence.Quiescence(w, run, p);
    PrimaryExecuted(w, run, p, x, request, verified);
    PbftAgreement.Agreement(w, run, p, n, i, n);
    assert Last(run).members[p].log == Last(run).members[i].log;
  }

  lemma PrimaryExecuted(w: PbftSystem.World, run: seq<PbftSystem.System>, p: ReplicaId, x: nat, request: Command,
      verified: bool)
    requires PbftSystem.WorldOk(w) && PbftSystem.IsRun(w, run) && p in Last(run).members && p == w.viewNum % w.cfg.n
    requires |Last(run).members[p].log| == Last(run).members[p].node.core.proposeNum
    requires Last(run).members[p].node.core.pool.pending == []
    requires x + 1 < |run|
    requires PbftSystem.ReceiveStep(w, run[x], run[x + 1], p, Arrival(Message.Request(request), verified))
    ensures exists y :: Covers(y, request) && y in Flat(Last(run).members[p].log)
  {
    hide PbftSystem.IsRun, PbftSystem.ReceiveStep, Covers, ReceiveAll, Executed, ProposedIn, Flat, Reaches;
    var a := Arrival(Message.Request(request), verified);
    var ms := MemberReceives(w, run, p, |run| - 1, x, a);
    RequestIsIn(ms, a);
    var c, out := w.settings[p], ReceiveAll(w.settings[p], ms);
    RequestIsCovered(c, ms, request);
    var y :| Covers(y, request) && (y in out.node.core.pool.pending || y in ProposedIn(out.outputs)
                                    || y in Flat(Executed(out.outputs)));
    if y in ProposedIn(out.outputs) {
      RunReaches(c, ms);
      HonestRun(c, out);
      var k := ProposedIsAccepted(c, out.node.core, out.outputs, y);
      AcceptedIsLogged(w, run, p, k, y);
    }
  }

  lemma HonestRun(c: Setting, out: Outcome)
    requires Sound(c) && Reaches(c, PbftNode.Init(), 0, out)
    ensures AllHonest(c, out.node.core, out.outputs)
  {
  }

  lemma AcceptedIsLogged(w: PbftSystem.World, run: seq<PbftSystem.System>, p: ReplicaId, k: nat, y: Command)
    requires PbftSystem.WorldOk(w) && PbftSystem.IsRun(w, run) && p in Last(run).members && p == w.viewNum % w.cfg.n
    requires |Last(run).members[p].log| == Last(run).members[p].node.core.proposeNum
    requires var core := Last(run).members[p].node.core; k in core.accepted && y in core.accepted[k]
    ensures y in Flat(Last(run).members[p].log)
  {
    hide Slots, PbftQuiescence.AllOwe;
    var s := Last(run);
    PbftQuiescence.RunOwes(w, run, |run| - 1);
    PbftQuiescence.PrimaryIs(w, s, p, p);
    PbftQuiescence.PrimaryWindow(w, s, p);
    assert PbftAgreement.MemberOk(w, s, p);
    InFlat(s.members[p].log, k - 1, y);
  }
}
