/**
 The HotStuff core with its command pool and pacemaker: `handle`, `beat` and
 `on_beat` (src/hotstuff/mod.rs:187-276).
 */
module HotStuffCore {
  import opened Commands
  import opened HotStuffTree
  import opened HotStuffChain
  import CommandPool
  import CloseLoopPool
  import OpenLoopPool

  const LEADER: ReplicaId := 0

  datatype Core = Core(id: ReplicaId, maxBatchSize: nat, chain: Chain, pool: CommandPool.State, extraRound: nat)

  datatype Action =
    | Propose(block: Proposal)
    | Vote(node: Digest)
    | Finalize(node: Digest)

  function Init(id: ReplicaId, maxBatchSize: nat, openLoop: bool): Core {
    Core(id, maxBatchSize, HotStuffChain.Init(), CommandPool.Empty(openLoop), 0)
  }

  /** Batches hold at least one command, and at most what the open-loop pool can hold. */
  predicate Configured(c: Core) {
    1 <= c.maxBatchSize && (c.pool.OpenLoop? ==> c.maxBatchSize <= OpenLoopPool.MAX_LEN)
  }

  function Finalizes(path: seq<Digest>): seq<Action> {
    if path == [] then [] else Finalizes(path[..|path| - 1]) + [Finalize(Last(path))]
  }

  /** All commands of a list of blocks, in order. */
  function Flatten(path: seq<Digest>): seq<Command> {
    if path == [] then [] else Flatten(path[..|path| - 1]) + CommandsOf(Last(path))
  }

  /** The pool after the event, before the leader takes its next batch. */
  function PoolAfter(c: Core, e: Event): (r: CommandPool.State)
    ensures r.OpenLoop? <==> c.pool.OpenLoop?
  {
    match e
    case Request(command) => CommandPool.Push(c.pool, command)
    case _ => CommandPool.CommitAll(c.pool, Flatten(FinalizedBy(c.chain, e)))
  }

  /** The counter of extra rounds can be counted down, if `on_beat` does so. */
  predicate CountsDown(c: Core, commands: Option<seq<Command>>) {
    commands == Some([]) ==> c.id != LEADER || c.extraRound > 0
  }

  function OnBeat(c: Core, commands: Option<seq<Command>>): (Core, seq<Action>)
    requires CountsDown(c, commands)
  {
    if c.id == LEADER && (commands.Some? || c.extraRound > 0) then
      var cs := if commands.Some? then commands.value else [];
      (c.(extraRound := if cs == [] then c.extraRound - 1 else 3),
       [Propose(Proposal(c.chain.leaf, cs, c.chain.high, Height(c.chain.leaf) + 1))])
    else (c, [])
  }

  function Beat(c: Core): (r: (Core, seq<Action>))
    requires Configured(c)
    ensures r.0.chain == c.chain && r.0.id == c.id
    ensures |r.1| <= 1 && forall a :: a in r.1 ==> a.Propose?
  {
    if c.chain.high.node == c.chain.leaf then
      var r := CommandPool.CloseBatch(c.pool, c.maxBatchSize);
      OnBeat(c.(pool := r.0), r.1)
    else (c, [])
  }

  /** An event's own actions: its vote, then what it finalizes. */
  function ReactActions(s: Chain, e: Event): seq<Action> {
    match BlockOf(e)
    case Some(b) => (if Accepts(s, e) then [Vote(DigestOf(b))] else []) + Finalizes(FinalizedBy(s, e))
    case None => []
  }

  function Handle(c: Core, e: Event): (Core, seq<Action>)
    requires Configured(c) && CanHandle(c.chain, e)
  {
    var b := Beat(c.(chain := React(c.chain, e), pool := PoolAfter(c, e)));
    (b.0, ReactActions(c.chain, e) + b.1)
  }

  /** The blocks a list of actions finalizes. */
  function Finalized(actions: seq<Action>): seq<Digest> {
    if actions == [] then []
    else Finalized(actions[..|actions| - 1]) + (if Last(actions).Finalize? then [Last(actions).node] else [])
  }

  predicate Votes(actions: seq<Action>, d: Digest) {
    Vote(d) in actions
  }

  /** A core that handles a list of events, with all it asked for; None if an event cannot be handled. */
  function HandleAll(c: Core, es: seq<Event>): Option<(Core, seq<Action>)> {
    if es == [] then Some((c, []))
    else
      match HandleAll(c, es[..|es| - 1])
      case None => None
      case Some(r) =>
        if Configured(r.0) && CanHandle(r.0.chain, Last(es)) then
          var h := Handle(r.0, Last(es));
          Some((h.0, r.1 + h.1))
        else None
  }

  lemma HandleNone(c: Core)
    ensures HandleAll(c, []) == Some((c, []))
  {
  }

  lemma HandleAllSnoc(c: Core, es: seq<Event>, e: Event)
    requires HandleAll(c, es).Some? && Configured(HandleAll(c, es).value.0)
    requires CanHandle(HandleAll(c, es).value.0.chain, e)
    ensures var r := HandleAll(c, es).value;
      HandleAll(c, es + [e]) == Some((Handle(r.0, e).0, r.1 + Handle(r.0, e).1))
  {
  }

  lemma {:induction false} HandleAllConcat(c: Core, a: seq<Event>, b: seq<Event>)
    requires HandleAll(c, a).Some? && HandleAll(HandleAll(c, a).value.0, b).Some?
    ensures var r := HandleAll(c, a).value; var r' := HandleAll(r.0, b).value;
      HandleAll(c, a + b) == Some((r'.0, r.1 + r'.1))
    decreases |b|
  {
    hide Handle, Configured, CanHandle;
    var r := HandleAll(c, a).value;
    if b == [] {
      assert a + b == a && r.1 + [] == r.1;
    } else {
      var front := b[..|b| - 1];
      HandleAllConcat(c, a, front);
      assert a + b == a + front + [Last(b)];
      HandleAllSnoc(c, a + front, Last(b));
      var s := HandleAll(r.0, front).value;
      var h := Handle(s.0, Last(b));
      assert r.1 + (s.1 + h.1) == r.1 + s.1 + h.1;
    }
  }

  // ---- what one event emits ----

  lemma {:induction false} FinalizedConcat(a: seq<Action>, b: seq<Action>)
    ensures Finalized(a + b) == Finalized(a) + Finalized(b)
    decreases |b|
  {
    if b == [] {
      assert a + b == a;
    } else {
      assert (a + b)[..|a + b| - 1] == a + b[..|b| - 1];
      FinalizedConcat(a, b[..|b| - 1]);
    }
  }

  lemma {:induction false} FinalizesOnly(path: seq<Digest>)
    ensures Finalized(Finalizes(path)) == path
    ensures forall x :: x in Finalizes(path) ==> x.Finalize?
  {
    if path != [] {
      FinalizesOnly(path[..|path| - 1]);
    }
  }

  lemma ActionsEmit(s: Chain, e: Event)
    ensures Finalized(ReactActions(s, e)) == FinalizedBy(s, e)
    ensures forall d :: Votes(ReactActions(s, e), d) <==> Accepts(s, e) && d == DigestOf(BlockOf(e).value)
  {
    hide FinalizedBy, Accepts;
    match BlockOf(e)
    case None =>
      OnlyBlocksAreAccepted(s, e);
      NoBlockNoPath(s, e);
    case Some(block) =>
      var path := FinalizedBy(s, e);
      FinalizesOnly(path);
      FinalizedConcat(if Accepts(s, e) then [Vote(DigestOf(block))] else [], Finalizes(path));
  }

  lemma ProposalsEmitNothing(actions: seq<Action>, proposals: seq<Action>)
    requires |proposals| <= 1 && forall a :: a in proposals ==> a.Propose?
    ensures Finalized(actions + proposals) == Finalized(actions)
    ensures forall d :: Votes(actions + proposals, d) <==> Votes(actions, d)
  {
    FinalizedConcat(actions, proposals);
    if proposals != [] {
      assert proposals[..|proposals| - 1] == [];
      assert Last(proposals) in proposals;
    }
  }

  /** An event votes for its own block if the voting rule allows, and for nothing else. */
  lemma HandleEmits(c: Core, e: Event)
    requires Configured(c) && CanHandle(c.chain, e)
    ensures Handle(c, e).0.chain == React(c.chain, e)
    ensures Finalized(Handle(c, e).1) == FinalizedBy(c.chain, e)
    ensures forall d :: Votes(Handle(c, e).1, d) <==> Accepts(c.chain, e) && d == DigestOf(BlockOf(e).value)
  {
    ActionsEmit(c.chain, e);
    ProposalsEmitNothing(ReactActions(c.chain, e), Beat(c.(chain := React(c.chain, e), pool := PoolAfter(c, e))).1);
  }

  /** The blocks a list of actions votes for. */
  function VotedIn(actions: seq<Action>): seq<Digest> {
    if actions == [] then []
    else VotedIn(actions[..|actions| - 1]) + (if Last(actions).Vote? then [Last(actions).node] else [])
  }

  lemma {:induction false} VotedInConcat(a: seq<Action>, b: seq<Action>)
    ensures VotedIn(a + b) == VotedIn(a) + VotedIn(b)
    decreases |b|
  {
    if b == [] {
      assert a + b == a;
    } else {
      assert (a + b)[..|a + b| - 1] == a + b[..|b| - 1];
      VotedInConcat(a, b[..|b| - 1]);
    }
  }

  lemma {:induction false} NoVotes(actions: seq<Action>)
    requires forall a :: a in actions ==> !a.Vote?
    ensures VotedIn(actions) == []
  {
    if actions != [] {
      NoVotes(actions[..|actions| - 1]);
    }
  }

  lemma ReactVotes(s: Chain, e: Event)
    ensures VotedIn(ReactActions(s, e)) == if Accepts(s, e) then [DigestOf(BlockOf(e).value)] else []
  {
    hide Accepts, FinalizedBy;
    match BlockOf(e)
    case Some(b) =>
      var path := FinalizedBy(s, e);
      var own := if Accepts(s, e) then [Vote(DigestOf(b))] else [];
      FinalizesOnly(path);
      NoVotes(Finalizes(path));
      VotedInConcat(own, Finalizes(path));
      assert own != [] ==> own[..0] == [];
    case None => OnlyBlocksAreAccepted(s, e);
  }

  /** An event's actions vote at most once, for the block it brings. */
  lemma HandleVotes(c: Core, e: Event)
    requires Configured(c) && CanHandle(c.chain, e)
    ensures VotedIn(Handle(c, e).1) == if Accepts(c.chain, e) then [DigestOf(BlockOf(e).value)] else []
  {
    hide React, Accepts, FinalizedBy, ReactActions, VotedIn;
    var beat := Beat(c.(chain := React(c.chain, e), pool := PoolAfter(c, e))).1;
    NoVotes(beat);
    ReactVotes(c.chain, e);
    VotedInConcat(ReactActions(c.chain, e), beat);
  }

  lemma NoBlockNoPath(s: Chain, e: Event)
    requires BlockOf(e).None?
    ensures FinalizedBy(s, e) == []
  {
  }

  lemma OnlyBlocksAreAccepted(s: Chain, e: Event)
    requires BlockOf(e).None?
    ensures !Accepts(s, e)
  {
  }

  /** The configuration stays sound, whatever happens. */
  lemma HandleKeepsConfigured(c: Core, e: Event)
    requires Configured(c) && CanHandle(c.chain, e)
    ensures Configured(Handle(c, e).0) && Handle(c, e).0.id == c.id && Handle(c, e).0.maxBatchSize == c.maxBatchSize
  {
  }

  /** The blocks a leader builds stand directly on the block they justify. */
  lemma BeatBuildsOnJustify(c: Core, b: Proposal)
    requires Configured(c) && Propose(b) in Beat(c).1
    ensures b.parent == b.justify.node == c.chain.leaf && b.justify == c.chain.high && c.id == LEADER
    ensures WellFormed(DigestOf(b))
  {
  }

  /** A pool never hands out an empty batch, unless asked for one. */
  lemma BatchesAreFull(pool: CommandPool.State, maxBatchSize: nat)
    requires 1 <= maxBatchSize && (pool.OpenLoop? ==> maxBatchSize <= OpenLoopPool.MAX_LEN)
    ensures CommandPool.CloseBatch(pool, maxBatchSize).1 != Some([])
    ensures CommandPool.CloseBatch(pool, maxBatchSize).1.Some? <==> CommandPool.Pending(pool) != []
    ensures CommandPool.CloseBatch(pool, maxBatchSize).0.OpenLoop? <==> pool.OpenLoop?
  {
  }

  /** `beat` would call `on_beat` against its precondition; `Configured` rules it out. */
  predicate Underflows(c: Core)
    requires c.pool.OpenLoop? ==> c.maxBatchSize <= OpenLoopPool.MAX_LEN
  {
    c.chain.high.node == c.chain.leaf && !CountsDown(c, CommandPool.CloseBatch(c.pool, c.maxBatchSize).1)
  }

  lemma UnderflowIff(c: Core)
    requires c.pool.OpenLoop? ==> c.maxBatchSize <= OpenLoopPool.MAX_LEN
    ensures Underflows(c) <==>
      && c.id == LEADER && c.chain.high.node == c.chain.leaf && c.extraRound == 0
      && CommandPool.Pending(c.pool) != [] && c.maxBatchSize == 0
  {
    match c.pool
    case CloseLoop(p) =>
      if p.pending != [] && c.maxBatchSize != 0 {
        assert p.pending[..CloseLoopPool.Min(c.maxBatchSize, |p.pending|)][0] == p.pending[0];
      }
    case OpenLoop(p) =>
      if p.buffer != [] {
        var skipped := |p.buffer| - |CommandPool.CloseBatch(c.pool, c.maxBatchSize).1.value|;
        assert c.maxBatchSize == 0 <==> p.buffer[skipped..] == [];
      }
  }

  /** The shortest failing run: a leader with batches of size zero receives a request. */
  lemma FirstRequestUnderflows(command: Command)
    ensures var c := Init(LEADER, 0, false);
      Underflows(c.(chain := React(c.chain, Request(command)), pool := PoolAfter(c, Request(command))))
  {
    assert [command][..0] == [];
  }
}
