/**
 The order of the closed-loop pool: how long a client can be kept waiting, and which
 operations keep the queue first in, first out.
 */
module CloseLoopPoolOrder {
  import opened Commands
  import opened CloseLoopPool
  import opened CloseLoopPoolRuns

  // ---- waiting ----

  function ApplyOp(s: State, op: Op): State {
    match op
    case PushOp(c) => Push(s, c).0
    case CloseOp(b) => CloseBatch(s, b).0
    case CommitOp(c) => Commit(s, c)
  }

  function ApplyAll(s: State, ops: seq<Op>): State {
    if ops == [] then s else ApplyOp(ApplyAll(s, ops[..|ops| - 1]), Last(ops))
  }

  predicate Waits(s: State, client: ClientId) {
    IndexOf(s.pending, client).Some?
  }

  /** The client has an entry before, between and after the operations. */
  ghost predicate KeepsWaiting(s: State, ops: seq<Op>, client: ClientId) {
    Waits(ApplyAll(s, ops), client) && (ops != [] ==> KeepsWaiting(s, ops[..|ops| - 1], client))
  }

  function Closes(ops: seq<Op>): nat {
    if ops == [] then 0 else Closes(ops[..|ops| - 1]) + (if Last(ops).CloseOp? then 1 else 0)
  }

  lemma ApplyKeepsInv(s: State, op: Op)
    requires Inv(s)
    ensures Inv(ApplyOp(s, op))
  {
    match op
    case PushOp(c) => PushKeepsInv(s, c);
    case CloseOp(b) => CloseBatchKeepsInv(s, b);
    case CommitOp(c) => CommitKeepsInv(s, c);
  }

  /** No operation moves a waiting client back; closing a batch moves it forward by its size. */
  lemma PositionDrops(s: State, op: Op, client: ClientId)
    requires Inv(s) && Waits(s, client) && Waits(ApplyOp(s, op), client)
    ensures IndexOf(ApplyOp(s, op).pending, client).value <= IndexOf(s.pending, client).value
    ensures op.CloseOp? ==>
      IndexOf(ApplyOp(s, op).pending, client).value == IndexOf(s.pending, client).value - op.maxBatchSize
  {
    hide Inv, IndexOf, Push, CloseBatch, Commit;
    match op
    case PushOp(c) => PushPosition(s, c, client);
    case CloseOp(b) => ClosePosition(s, b, client);
    case CommitOp(c) => CommitPosition(s, c, client);
  }

  lemma PushPosition(s: State, c: Command, client: ClientId)
    requires Inv(s) && Waits(s, client)
    ensures IndexOf(Push(s, c).0.pending, client) == IndexOf(s.pending, client)
  {
    PushKeepsInv(s, c);
    IndexOfIs(Push(s, c).0, IndexOf(s.pending, client).value);
  }

  lemma ClosePosition(s: State, b: nat, client: ClientId)
    requires Inv(s) && Waits(s, client) && Waits(CloseBatch(s, b).0, client)
    ensures IndexOf(s.pending, client).value == b + IndexOf(CloseBatch(s, b).0.pending, client).value
  {
  }

  lemma CommitPosition(s: State, c: Command, client: ClientId)
    requires Inv(s) && Waits(s, client) && Waits(Commit(s, c), client)
    ensures IndexOf(Commit(s, c).pending, client).value <= IndexOf(s.pending, client).value
  {
  }

  /**
   Bounded waiting: a client that is still waiting has moved forward by a full batch for
   every batch closed, so an entry at position i is gone after i / b + 1 batches.
   */
  lemma {:induction false} BoundedWaiting(s: State, ops: seq<Op>, client: ClientId, b: nat)
    requires Inv(s) && KeepsWaiting(s, ops, client)
    requires forall i :: 0 <= i < |ops| && ops[i].CloseOp? ==> ops[i].maxBatchSize >= b
    ensures Inv(ApplyAll(s, ops)) && Waits(s, client)
    ensures b * Closes(ops) + IndexOf(ApplyAll(s, ops).pending, client).value <= IndexOf(s.pending, client).value
  {
    hide Inv, IndexOf, ApplyOp;
    if ops != [] {
      var front := ops[..|ops| - 1];
      BoundedWaiting(s, front, client, b);
      ApplyKeepsInv(ApplyAll(s, front), Last(ops));
      PositionDrops(ApplyAll(s, front), Last(ops), client);
      OneMore(b, Closes(front));
    }
  }

  lemma OneMore(b: nat, n: nat)
    ensures b * (n + 1) == b * n + b
  {
  }

  /** So after i / b + 1 batches, which together are longer than i, the entry at position i is gone. */
  lemma GoneAfter(s: State, ops: seq<Op>, client: ClientId, b: nat)
    requires Inv(s) && Waits(s, client)
    requires forall i :: 0 <= i < |ops| && ops[i].CloseOp? ==> ops[i].maxBatchSize >= b
    requires b * Closes(ops) > IndexOf(s.pending, client).value
    ensures !KeepsWaiting(s, ops, client)
  {
    hide Inv, IndexOf, ApplyAll;
    if KeepsWaiting(s, ops, client) {
      BoundedWaiting(s, ops, client, b);
    }
  }

  /** A client stops waiting only because its entry is handed out or committed. */
  lemma LeavesBy(s: State, op: Op, client: ClientId)
    requires Inv(s) && Waits(s, client) && !Waits(ApplyOp(s, op), client)
    ensures var entry := s.pending[IndexOf(s.pending, client).value];
      || (op.CloseOp? && entry in Batch(s, op.maxBatchSize))
      || (op.CommitOp? && op.command.client == client && op.command.num >= entry.num)
  {
    var i := IndexOf(s.pending, client).value;
    match op
    case PushOp(c) => PushStill(s, c, i);
    case CloseOp(b) => CloseStill(s, b, i);
    case CommitOp(c) =>
      if !(c.client == client && c.num >= s.pending[i].num) {
        SwapStill(s, c, i);
      }
  }

  lemma PushStill(s: State, c: Command, i: nat)
    requires i < |s.pending|
    ensures Waits(Push(s, c).0, s.pending[i].client)
  {
    assert Push(s, c).0.pending[i].client == s.pending[i].client;
  }

  lemma CloseStill(s: State, b: nat, i: nat)
    requires i < |s.pending|
    ensures s.pending[i] in Batch(s, b) || Waits(CloseBatch(s, b).0, s.pending[i].client)
  {
  }

  lemma SwapStill(s: State, c: Command, i: nat)
    requires Inv(s) && i < |s.pending| && !(c.client == s.pending[i].client && c.num >= s.pending[i].num)
    ensures Waits(Commit(s, c), s.pending[i].client)
  {
    CommitMembers(s, c);
    var x, s' := s.pending[i], Commit(s, c);
    IndexOfIs(s, i);
    assert x in s.pending;
    var j :| 0 <= j < |s'.pending| && s'.pending[j] == x;
  }

  // ---- what becomes of a waiting command ----

  function AfterAll(l: Ledger, ops: seq<Op>): Ledger {
    if ops == [] then l else After(AfterAll(l, ops[..|ops| - 1]), Last(ops))
  }

  lemma {:induction false} PoolAfterAll(l: Ledger, ops: seq<Op>)
    ensures AfterAll(l, ops).pool == ApplyAll(l.pool, ops)
  {
    if ops != [] {
      PoolAfterAll(l, ops[..|ops| - 1]);
    }
  }

  lemma {:induction false} LedgerAfterAll(l: Ledger, ops: seq<Op>)
    requires LedgerOk(l)
    ensures LedgerOk(AfterAll(l, ops)) && l.accepted <= AfterAll(l, ops).accepted && l.handed <= AfterAll(l, ops).handed
  {
    hide LedgerOk;
    if ops != [] {
      var before := AfterAll(l, ops[..|ops| - 1]);
      LedgerAfterAll(l, ops[..|ops| - 1]);
      match Last(ops)
      case PushOp(c) => PushKeepsLedger(before, c);
      case CloseOp(b) => CloseKeepsLedger(before, b);
      case CommitOp(c) => CommitKeepsLedger(before, c);
    }
  }

  /** A command that has left the queue does not come back. */
  lemma StillPending(l: Ledger, op: Op, x: Command)
    requires LedgerOk(l) && LedgerOk(After(l, op)) && x in l.accepted && x in After(l, op).pool.pending
    ensures x in l.pool.pending
  {
    var l' := After(l, op);
    assert OnePlace(l, x);
    PendingIsNew(l', x);
    var p :| In(l, x, p);
  }

  /** If a command is pending after some operations, its client had an entry all along. */
  lemma {:induction false} PendingThroughout(l: Ledger, ops: seq<Op>, x: Command)
    requires LedgerOk(l) && x in l.accepted && x in AfterAll(l, ops).pool.pending
    ensures KeepsWaiting(l.pool, ops, x.client) && x in l.pool.pending
  {
    hide LedgerOk;
    PoolAfterAll(l, ops);
    HasEntry(AfterAll(l, ops).pool, x);
    if ops != [] {
      LedgerAfterAll(l, ops);
      LedgerAfterAll(l, ops[..|ops| - 1]);
      StillPending(AfterAll(l, ops[..|ops| - 1]), Last(ops), x);
      PendingThroughout(l, ops[..|ops| - 1], x);
    }
  }

  lemma HasEntry(s: State, x: Command)
    requires x in s.pending
    ensures Waits(s, x.client)
  {
    var i :| 0 <= i < |s.pending| && s.pending[i] == x;
  }

  /**
   The command at index `i` is, once the closed batches of at least `b` together exceed
   `i`, no longer pending: it was handed out, replaced by an accepted command of its
   client with a higher number, or dropped by a commit of at least its number.
   */
  lemma SettledAfter(l: Ledger, ops: seq<Op>, i: nat, b: nat)
    requires LedgerOk(l) && i < |l.pool.pending|
    requires forall k :: 0 <= k < |ops| && ops[k].CloseOp? ==> ops[k].maxBatchSize >= b
    requires b * Closes(ops) > i
    ensures var x := l.pool.pending[i]; var l' := AfterAll(l, ops);
      && x !in l'.pool.pending && x !in l.handed
      && (x in l'.handed
          || (x in l'.replaced && exists y :: y in l'.accepted && y.client == x.client && y.num > x.num)
          || (x in l'.dropped && exists c :: c in l'.committed && c.client == x.client && c.num >= x.num))
  {
    var x, l' := l.pool.pending[i], AfterAll(l, ops);
    PendingIsNew(l, x);
    LedgerAfterAll(l, ops);
    IndexOfIs(l.pool, i);
    if x in l'.pool.pending {
      PendingThroughout(l, ops, x);
      GoneAfter(l.pool, ops, x.client, b);
    }
    assert OnePlace(l', x) && Behind(l', x);
    var p :| In(l', x, p);
  }

  // ---- order ----

  /** The pool with the time at which each pending and each handed-out entry was pushed. */
  datatype Timed = Timed(pool: State, stamps: seq<nat>, clock: nat, handed: seq<nat>)

  const TIMED_START := Timed(EMPTY, [], 0, [])

  predicate StampsOk(t: Timed) {
    |t.stamps| == |t.pool.pending|
  }

  function Tick(t: Timed, op: Op): (r: Timed)
    requires StampsOk(t)
    ensures StampsOk(r) && r.pool == ApplyOp(t.pool, op)
  {
    var pool, later := ApplyOp(t.pool, op), t.clock + 1;
    match op
    case PushOp(c) =>
      if !Push(t.pool, c).1 then Timed(pool, t.stamps, later, t.handed)
      else
        var i := IndexOf(t.pool.pending, c.client);
        Timed(pool, if i.Some? then t.stamps[i.value := t.clock] else t.stamps + [t.clock], later, t.handed)
    case CloseOp(b) =>
      var n := |Batch(t.pool, b)|;
      Timed(pool, t.stamps[n..], later, t.handed + t.stamps[..n])
    case CommitOp(c) =>
      var i := IndexOf(t.pool.pending, c.client);
      var drops := i.Some? && t.pool.pending[i.value].num <= c.num;
      Timed(pool, if drops then SwapRemove(t.stamps, i.value) else t.stamps, later, t.handed)
  }

  function TimedRun(ops: seq<Op>): (t: Timed)
    ensures StampsOk(t)
  {
    if ops == [] then TIMED_START else Tick(TimedRun(ops[..|ops| - 1]), Last(ops))
  }

  ghost predicate Ascending(stamps: seq<nat>) {
    forall i, j :: 0 <= i < j < |stamps| ==> stamps[i] < stamps[j]
  }

  ghost predicate Before(stamps: seq<nat>, clock: nat) {
    forall i :: 0 <= i < |stamps| ==> stamps[i] < clock
  }

  /** Handed out and pending entries together are in the order they were pushed. */
  ghost predicate Fifo(t: Timed) {
    Ascending(t.handed + t.stamps) && Before(t.handed + t.stamps, t.clock)
  }

  /** The operation replaces an entry that is not the last, or removes one with two or more behind it. */
  predicate Disorders(s: State, op: Op) {
    match op
    case PushOp(c) => Push(s, c).1 && IndexOf(s.pending, c.client).Some?
      && IndexOf(s.pending, c.client).value + 1 < |s.pending|
    case CloseOp(_) => false
    case CommitOp(c) =>
      var i := IndexOf(s.pending, c.client);
      i.Some? && s.pending[i.value].num <= c.num && i.value + 2 < |s.pending|
  }

  /** A newer stamp put at position `i` of the part behind `h` keeps the order iff nothing comes after it. */
  lemma RestampIff(h: seq<nat>, stamps: seq<nat>, i: nat, clock: nat)
    requires i < |stamps| && Ascending(h + stamps) && Before(h + stamps, clock)
    ensures Ascending(h + stamps[i := clock]) <==> i + 1 == |stamps|
    ensures Before(h + stamps[i := clock], clock + 1)
  {
    var was, now := h + stamps, h + stamps[i := clock];
    assert forall j :: 0 <= j < |now| ==> now[j] == if j == |h| + i then clock else was[j];
    if i + 1 < |stamps| {
      assert now[|h| + i] > now[|h| + i + 1];
    }
  }

  /** Moving the last stamp into the hole at `i` keeps the order iff at most one comes after the hole. */
  lemma SwapIff(h: seq<nat>, stamps: seq<nat>, i: nat, clock: nat)
    requires i < |stamps| && Ascending(h + stamps) && Before(h + stamps, clock)
    ensures Ascending(h + SwapRemove(stamps, i)) <==> i + 2 >= |stamps|
    ensures Before(h + SwapRemove(stamps, i), clock + 1)
  {
    var was, now := h + stamps, h + SwapRemove(stamps, i);
    assert forall j :: 0 <= j < |now| ==> now[j] == if j == |h| + i then was[|was| - 1] else was[j];
    if i + 2 < |stamps| {
      assert now[|h| + i] > now[|h| + i + 1];
    }
  }

  /** First in, first out is kept by exactly the operations that do not disorder the queue. */
  lemma FifoKeptIff(t: Timed, op: Op)
    requires StampsOk(t) && Fifo(t)
    ensures Fifo(Tick(t, op)) <==> !Disorders(t.pool, op)
  {
    hide Ascending;
    var t' := Tick(t, op);
    match op
    case PushOp(c) =>
      match IndexOf(t.pool.pending, c.client) {
        case Some(i) => RestampIff(t.handed, t.stamps, i, t.clock);
        case None => AppendStamp(t.handed, t.stamps, t.clock);
      }
    case CloseOp(b) => assert t'.handed + t'.stamps == t.handed + t.stamps;
    case CommitOp(c) =>
      match IndexOf(t.pool.pending, c.client) {
        case Some(i) => SwapIff(t.handed, t.stamps, i, t.clock);
        case None =>
      }
  }

  lemma AppendStamp(h: seq<nat>, stamps: seq<nat>, clock: nat)
    requires Ascending(h + stamps) && Before(h + stamps, clock)
    ensures Ascending(h + (stamps + [clock])) && Before(h + (stamps + [clock]), clock + 1)
  {
    assert h + (stamps + [clock]) == h + stamps + [clock];
  }

  ghost predicate NeverDisorders(ops: seq<Op>) {
    ops != [] ==> NeverDisorders(ops[..|ops| - 1]) && !Disorders(TimedRun(ops[..|ops| - 1]).pool, Last(ops))
  }

  lemma {:induction false} FifoRuns(ops: seq<Op>)
    requires NeverDisorders(ops)
    ensures Fifo(TimedRun(ops))
  {
    if ops != [] {
      FifoRuns(ops[..|ops| - 1]);
      FifoKeptIff(TimedRun(ops[..|ops| - 1]), Last(ops));
    }
  }

  /** The batch that takes a disordered queue whole is handed out in the wrong order. */
  lemma DisorderShows(t: Timed)
    requires StampsOk(t)
    ensures Tick(t, CloseOp(|t.stamps|)).handed == t.handed + t.stamps
  {
    if t.stamps != [] {
      assert Batch(t.pool, |t.stamps|) == t.pool.pending;
    }
  }

  /** So from any queue in order, an operation that disorders it is seen in the next full batch, and no other is. */
  lemma DisorderShowsIff(t: Timed, op: Op)
    requires StampsOk(t) && Fifo(t)
    ensures var t' := Tick(t, op); !Ascending(Tick(t', CloseOp(|t'.stamps|)).handed) <==> Disorders(t.pool, op)
  {
    hide Disorders, Ascending;
    FifoKeptIff(t, op);
    DisorderShows(Tick(t, op));
    StillBefore(t, op);
  }

  lemma StillBefore(t: Timed, op: Op)
    requires StampsOk(t) && Fifo(t)
    ensures var t' := Tick(t, op); Before(t'.handed + t'.stamps, t'.clock)
  {
    var t' := Tick(t, op);
    match op
    case PushOp(c) =>
      match IndexOf(t.pool.pending, c.client) {
        case Some(i) => RestampIff(t.handed, t.stamps, i, t.clock);
        case None => AppendStamp(t.handed, t.stamps, t.clock);
      }
    case CloseOp(b) => assert t'.handed + t'.stamps == t.handed + t.stamps;
    case CommitOp(c) =>
      match IndexOf(t.pool.pending, c.client) {
        case Some(i) => SwapIff(t.handed, t.stamps, i, t.clock);
        case None =>
      }
  }

  lemma TimedSnoc(ops: seq<Op>, op: Op)
    ensures TimedRun(ops + [op]) == Tick(TimedRun(ops), op)
  {
  }

  const A := Command(0, 1, [])
  const B := Command(1, 1, [])
  const C := Command(2, 1, [])
  const NEXT_A := Command(0, 2, [])

  lemma TwoPushed()
    ensures TimedRun([] + [PushOp(A)] + [PushOp(B)]) == Timed(State([A, B], map[]), [0, 1], 2, [])
  {
    TimedSnoc([], PushOp(A));
    TimedSnoc([] + [PushOp(A)], PushOp(B));
    assert Tick(TIMED_START, PushOp(A)) == Timed(State([A], map[]), [0], 1, []);
    assert IndexOf([A], 1).None?;
  }

  lemma ThreePushed()
    ensures TimedRun([] + [PushOp(A)] + [PushOp(B)] + [PushOp(C)]) == Timed(State([A, B, C], map[]), [0, 1, 2], 3, [])
  {
    TwoPushed();
    TimedSnoc([] + [PushOp(A)] + [PushOp(B)], PushOp(C));
    assert IndexOf([A, B], 2).None?;
  }

  /** The promise of order fails: after a commit, the third push is handed out before the second. */
  lemma OrderFailsByCommit()
    ensures TimedRun([] + [PushOp(A)] + [PushOp(B)] + [PushOp(C)] + [CommitOp(A)] + [CloseOp(2)]).handed == [2, 1]
  {
    ThreePushed();
    var ops := [] + [PushOp(A)] + [PushOp(B)] + [PushOp(C)];
    TimedSnoc(ops, CommitOp(A));
    TimedSnoc(ops + [CommitOp(A)], CloseOp(2));
    assert IndexOf([A, B, C], 0) == Some(0);
    assert SwapRemove([A, B, C], 0) == [C, B] && SwapRemove([0, 1, 2], 0) == [2, 1];
    assert |Batch(TimedRun(ops + [CommitOp(A)]).pool, 2)| == 2;
  }

  /** It fails as well when a client replaces its own pending command. */
  lemma OrderFailsByReplacement()
    ensures TimedRun([] + [PushOp(A)] + [PushOp(B)] + [PushOp(NEXT_A)] + [CloseOp(2)]).handed == [2, 1]
  {
    TwoPushed();
    var ops := [] + [PushOp(A)] + [PushOp(B)];
    TimedSnoc(ops, PushOp(NEXT_A));
    TimedSnoc(ops + [PushOp(NEXT_A)], CloseOp(2));
    assert IndexOf([A, B], 0) == Some(0);
    assert |Batch(TimedRun(ops + [PushOp(NEXT_A)]).pool, 2)| == 2;
  }
}
