/**
 What a PBFT replica decides, without votes and messages (`ReplicaCore`,
 src/pbft/mod.rs:54-281), in one fixed view.

 This is the simple form: of a block the core keeps its commands and whether each of
 its two quorums was formed.
 */
module PbftCore {
  import opened Commands
  import CloseLoopPool

  type ReplicaId = nat

  /** Digests are taken to be collision free. */
  datatype Digest = Digest(commands: seq<Command>)

  datatype Setting = Setting(
    n: nat, f: nat, viewNum: nat, id: ReplicaId, maxInflight: nat, maxBatchSize: nat)

  predicate Sound(c: Setting) {
    c.f < c.n && c.id < c.n
  }

  function Primary(c: Setting): ReplicaId
    requires Sound(c)
  {
    c.viewNum % c.n
  }

  predicate IsPrimary(c: Setting)
    requires Sound(c)
  {
    Primary(c) == c.id
  }

  datatype Core = Core(
    accepted: map<nat, seq<Command>>,
    prepared: set<nat>,
    committed: set<nat>,
    pool: CloseLoopPool.State,
    proposeNum: nat,
    finalizeNum: nat)

  datatype Event =
    | Request(command: Command)
    | Proposal(num: nat, commands: seq<Command>)
    | PrepareQuorum(num: nat)
    | CommitQuorum(num: nat)

  datatype Action =
    | Propose(num: nat, commands: seq<Command>)
    | Prepare(num: nat, digest: Digest)
    | Commit(num: nat)
    | Finalize(num: nat)
    | Forward(to: ReplicaId, command: Command)

  function Init(): Core {
    Core(map[], {}, {}, CloseLoopPool.EMPTY, 0, 0)
  }

  predicate IsPrepared(s: Core, k: nat) {
    k < s.finalizeNum || k in s.prepared
  }

  predicate IsCommitted(s: Core, k: nat) {
    k < s.finalizeNum || (IsPrepared(s, k) && k in s.committed)
  }

  // ---- finalizing ----

  function CommitAll(pool: CloseLoopPool.State, cs: seq<Command>): CloseLoopPool.State {
    if cs == [] then pool else CloseLoopPool.Commit(CommitAll(pool, cs[..|cs| - 1]), Last(cs))
  }

  predicate CanFinalize(s: Core) {
    var next := s.finalizeNum + 1;
    next in s.accepted && next in s.prepared && next in s.committed
  }

  function FinalizeOne(s: Core): Core
    requires CanFinalize(s)
  {
    var next := s.finalizeNum + 1;
    s.(finalizeNum := next, pool := CommitAll(s.pool, s.accepted[next]))
  }

  ghost function Unfinalized(s: Core): set<nat> {
    set k | k in s.committed && k > s.finalizeNum
  }

  lemma FinalizeOneProgresses(s: Core)
    requires CanFinalize(s)
    ensures Unfinalized(FinalizeOne(s)) < Unfinalized(s)
  {
    assert s.finalizeNum + 1 in Unfinalized(s);
  }

  lemma FinalizeOneIsNext(s: Core)
    requires CanFinalize(s)
    ensures FinalizeOne(s).finalizeNum == s.finalizeNum + 1 && FinalizeOne(s).accepted == s.accepted
  {
  }

  /** The loop over consecutive blocks with both quorums. */
  function FinalizeAll(s: Core): (r: Core)
    ensures r.finalizeNum >= s.finalizeNum && !CanFinalize(r)
    ensures forall k :: s.finalizeNum < k <= r.finalizeNum ==> k in s.accepted && k in s.prepared && k in s.committed
    ensures r == s.(finalizeNum := r.finalizeNum, pool := r.pool)
    decreases Unfinalized(s)
  {
    if CanFinalize(s) then
      FinalizeOneProgresses(s);
      FinalizeAll(FinalizeOne(s))
    else s
  }

  function FinalizeActions(lo: nat, hi: nat): (r: seq<Action>)
    requires lo <= hi
    ensures |r| == hi - lo
    ensures forall i :: 0 <= i < |r| ==> r[i] == Finalize(lo + 1 + i)
    decreases hi - lo
  {
    if lo == hi then [] else [Finalize(lo + 1)] + FinalizeActions(lo + 1, hi)
  }

  // ---- proposing ----

  predicate CanPropose(c: Setting, s: Core)
    requires Sound(c)
  {
    IsPrimary(c) && s.proposeNum < s.finalizeNum + c.maxInflight
  }

  /** The loop that turns batches into proposals while the window allows. */
  function ProposeAll(c: Setting, s: Core): (r: (Core, seq<Action>))
    requires Sound(c)
    ensures r.0 == s.(pool := r.0.pool, proposeNum := s.proposeNum + |r.1|)
    ensures forall i :: 0 <= i < |r.1| ==> r.1[i].Propose? && r.1[i].num == s.proposeNum + 1 + i
    ensures r.1 != [] ==> IsPrimary(c) && r.0.proposeNum <= s.finalizeNum + c.maxInflight
    ensures CanPropose(c, r.0) ==> r.0.pool.pending == []
    decreases s.finalizeNum + c.maxInflight - s.proposeNum
  {
    if !CanPropose(c, s) then (s, [])
    else
      var batch := CloseLoopPool.CloseBatch(s.pool, c.maxBatchSize);
      if batch.1.None? then (s.(pool := batch.0), [])
      else
        var num := s.proposeNum + 1;
        var r := ProposeAll(c, s.(pool := batch.0, proposeNum := num));
        (r.0, [Propose(num, batch.1.value)] + r.1)
  }

  /** The commands of a list of proposals, in order. */
  function CommandsProposed(actions: seq<Action>): seq<Command> {
    if actions == [] then []
    else (if actions[0].Propose? then actions[0].commands else []) + CommandsProposed(actions[1..])
  }

  /** Proposing neither loses nor reorders commands: what was pending is proposed or still pending. */
  lemma {:induction false} ProposeAllTakes(c: Setting, s: Core)
    requires Sound(c)
    ensures CommandsProposed(ProposeAll(c, s).1) + ProposeAll(c, s).0.pool.pending == s.pool.pending
    decreases s.finalizeNum + c.maxInflight - s.proposeNum
  {
    hide CloseLoopPool.CloseBatch;
    BatchSplits(s.pool, c.maxBatchSize);
    var batch := CloseLoopPool.CloseBatch(s.pool, c.maxBatchSize);
    if CanPropose(c, s) && batch.1.Some? {
      var s1 := s.(pool := batch.0, proposeNum := s.proposeNum + 1);
      ProposeAllTakes(c, s1);
      var r := ProposeAll(c, s1);
      ProposedCons(Propose(s.proposeNum + 1, batch.1.value), r.1);
      assert batch.1.value + CommandsProposed(r.1) + r.0.pool.pending ==
        batch.1.value + (CommandsProposed(r.1) + r.0.pool.pending);
    }
  }

  lemma BatchSplits(pool: CloseLoopPool.State, b: nat)
    ensures var r := CloseLoopPool.CloseBatch(pool, b);
      (match r.1 case Some(batch) => batch case None => []) + r.0.pending == pool.pending
  {
  }

  lemma ProposedCons(a: Action, rest: seq<Action>)
    requires a.Propose?
    ensures CommandsProposed([a] + rest) == a.commands + CommandsProposed(rest)
  {
  }

  // ---- one event ----

  /** No assertion of the core fails on this event, and the window does not underflow. */
  predicate CanHandle(c: Setting, s: Core, e: Event)
    requires Sound(c)
  {
    match e
    case Request(_) => IsPrimary(c) ==> s.finalizeNum <= s.proposeNum
    case Proposal(_, _) => true
    case PrepareQuorum(k) => k in s.accepted && k !in s.prepared
    case CommitQuorum(k) =>
      && k in s.accepted && k !in s.committed
      && (IsPrimary(c) ==> FinalizeAll(s.(committed := s.committed + {k})).finalizeNum <= s.proposeNum)
  }

  function Handle(c: Setting, s: Core, e: Event): (Core, seq<Action>)
    requires Sound(c)
  {
    match e
    case Request(command) =>
      var s1 := s.(pool := CloseLoopPool.Push(s.pool, command).0);
      if IsPrimary(c) then ProposeAll(c, s1) else (s1, [Forward(Primary(c), command)])
    case Proposal(k, commands) =>
      if k in s.accepted then (s, [])
      else (s.(accepted := s.accepted[k := commands]), if IsPrimary(c) then [] else [Prepare(k, Digest(commands))])
    case PrepareQuorum(k) =>
      (s.(prepared := s.prepared + {k}), [Commit(k)])
    case CommitQuorum(k) =>
      var s1 := FinalizeAll(s.(committed := s.committed + {k}));
      var r := ProposeAll(c, s1);
      (r.0, FinalizeActions(s.finalizeNum, s1.finalizeNum) + r.1)
  }
}
