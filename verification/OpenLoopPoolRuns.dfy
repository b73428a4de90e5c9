/**
 Runs of the open-loop pool: it stays bounded, hands out commands in the order they were
 pushed, and none of them twice.
 */
module OpenLoopPoolRuns {
  import opened Commands
  import opened OpenLoopPool

  /**
   Every command the pool accepted, in order, and for those handed out and those buffered
   their places in that order.
   */
  datatype History = History(pool: State, accepted: seq<Command>, handed: seq<nat>, buffered: seq<nat>,
      committed: set<Command>)

  predicate Allowed(op: Op) {
    op.CloseOp? ==> op.maxBatchSize <= MAX_LEN
  }

  function Skipped(len: nat, maxBatchSize: nat): nat {
    if len <= maxBatchSize then 0 else len - maxBatchSize
  }

  function After(h: History, op: Op): History
    requires Allowed(op) && |h.buffered| == |h.pool.buffer|
  {
    match op
    case PushOp(c) =>
      var r := Push(h.pool, c);
      if !r.1 then h.(pool := r.0)
      else
        var kept := if |h.buffered| == MAX_LEN then h.buffered[1..] else h.buffered;
        h.(pool := r.0, accepted := h.accepted + [c], buffered := kept + [|h.accepted|])
    case CloseOp(b) =>
      h.(pool := CloseBatch(h.pool, b).0, handed := h.handed + h.buffered[Skipped(|h.buffered|, b)..], buffered := [])
    case CommitOp(c) => h.(pool := Commit(h.pool, c), committed := h.committed + {c})
  }

  // ---- the invariant ----

  ghost predicate Ascending(places: seq<nat>) {
    forall i, j :: 0 <= i < j < |places| ==> places[i] < places[j]
  }

  /** No number of a client was accepted after it or a higher one. */
  ghost predicate Increasing(cs: seq<Command>) {
    forall i, j :: 0 <= i < j < |cs| && cs[i].client == cs[j].client ==> cs[i].num < cs[j].num
  }

  ghost predicate Seen(pool: State, c: Command) {
    c.client in pool.seen && pool.seen[c.client] >= c.num
  }

  ghost predicate HistoryOk(h: History) {
    && |h.buffered| == |h.pool.buffer| <= MAX_LEN
    && (forall i :: 0 <= i < |h.buffered| ==>
         h.buffered[i] < |h.accepted| && h.pool.buffer[i] == h.accepted[h.buffered[i]])
    && (forall i :: 0 <= i < |h.handed| ==> h.handed[i] < |h.accepted|)
    && Ascending(h.handed + h.buffered)
    && Increasing(h.accepted)
    && (forall i :: 0 <= i < |h.accepted| ==> Seen(h.pool, h.accepted[i]))
    && (forall c :: c in h.committed ==> Seen(h.pool, c))
  }

  const START := History(EMPTY, [], [], [], {})

  lemma PushKeeps(h: History, c: Command)
    requires HistoryOk(h)
    ensures HistoryOk(After(h, PushOp(c)))
  {
    if Push(h.pool, c).1 {
      PushPlaces(h, c);
      PushIncreases(h, c);
      var h' := After(h, PushOp(c));
      assert forall i :: 0 <= i < |h'.accepted| ==> h'.accepted[i] == if i < |h.accepted| then h.accepted[i] else c;
    }
  }

  lemma PushPlaces(h: History, c: Command)
    requires HistoryOk(h) && Push(h.pool, c).1
    ensures var h' := After(h, PushOp(c)); Ascending(h'.handed + h'.buffered)
  {
    var h' := After(h, PushOp(c));
    var was, now, n := h.handed + h.buffered, h'.handed + h'.buffered, |h.handed|;
    var skipped := if |h.buffered| == MAX_LEN then 1 else 0;
    assert forall i :: 0 <= i < |was| ==> was[i] == (if i < n then h.handed[i] else h.buffered[i - n]) < |h.accepted|;
    assert forall i :: 0 <= i < |now| - 1 ==> now[i] == was[if i < n then i else i + skipped];
    assert now[|now| - 1] == |h.accepted|;
  }

  lemma PushIncreases(h: History, c: Command)
    requires HistoryOk(h) && Push(h.pool, c).1
    ensures Increasing(h.accepted + [c])
  {
  }

  lemma CloseKeeps(h: History, b: nat)
    requires HistoryOk(h) && b <= MAX_LEN
    ensures HistoryOk(After(h, CloseOp(b)))
  {
    var h' := After(h, CloseOp(b));
    var was, now, skipped := h.handed + h.buffered, h'.handed + h'.buffered, Skipped(|h.buffered|, b);
    assert forall i :: 0 <= i < |now| ==> now[i] == was[if i < |h.handed| then i else i + skipped];
  }

  lemma CommitKeeps(h: History, c: Command)
    requires HistoryOk(h)
    ensures HistoryOk(After(h, CommitOp(c)))
  {
  }

  /** The states a run goes through. */
  ghost predicate Reachable(h: History, ops: seq<Op>)
    decreases |ops|
  {
    if ops == [] then h == START
    else
      exists before :: Reachable(before, ops[..|ops| - 1]) && |before.buffered| == |before.pool.buffer|
        && Allowed(Last(ops)) && h == After(before, Last(ops))
  }

  lemma {:induction false} RunKeeps(h: History, ops: seq<Op>)
    requires Reachable(h, ops)
    ensures HistoryOk(h)
    decreases |ops|
  {
    if ops != [] {
      var before :| Reachable(before, ops[..|ops| - 1]) && |before.buffered| == |before.pool.buffer|
        && Allowed(Last(ops)) && h == After(before, Last(ops));
      hide HistoryOk;
      RunKeeps(before, ops[..|ops| - 1]);
      match Last(ops)
      case PushOp(c) => PushKeeps(before, c);
      case CloseOp(b) => CloseKeeps(before, b);
      case CommitOp(c) => CommitKeeps(before, c);
    }
  }

  // ---- theorems ----

  /** What comes out is pushed order, each client's numbers increasing, so nothing comes out twice. */
  lemma HandedInOrderOnce(h: History, ops: seq<Op>, i: nat, j: nat)
    requires Reachable(h, ops) && i < j < |h.handed|
    ensures h.handed[i] < h.handed[j] < |h.accepted|
    ensures var x, y := h.accepted[h.handed[i]], h.accepted[h.handed[j]]; x.client == y.client ==> x.num < y.num
  {
    RunKeeps(h, ops);
    assert (h.handed + h.buffered)[i] == h.handed[i] && (h.handed + h.buffered)[j] == h.handed[j];
  }

  /** The pool never holds more than `MAX_LEN`; a batch is the newest of it, and the rest is lost. */
  lemma BatchIsNewest(h: History, ops: seq<Op>, b: nat)
    requires Reachable(h, ops) && b <= MAX_LEN
    ensures |h.pool.buffer| <= MAX_LEN && CloseBatch(h.pool, b).0.buffer == []
    ensures match CloseBatch(h.pool, b).1
      case None => h.pool.buffer == []
      case Some(batch) =>
        && h.pool.buffer != [] && |batch| == (if |h.pool.buffer| < b then |h.pool.buffer| else b)
        && batch == h.pool.buffer[|h.pool.buffer| - |batch|..]
  {
    RunKeeps(h, ops);
  }

  /** What was accepted or committed once is refused from then on. */
  lemma RefusedAgain(h: History, ops: seq<Op>, x: Command)
    requires Reachable(h, ops) && (x in h.accepted || x in h.committed)
    ensures !Push(h.pool, x).1
  {
    RunKeeps(h, ops);
  }

  /** A number on record for a client is one that was accepted or committed. */
  ghost predicate Recorded(h: History, k: ClientId) {
    k in h.pool.seen ==> exists x :: (x in h.accepted || x in h.committed) && x.client == k && x.num == h.pool.seen[k]
  }

  ghost predicate AllRecorded(h: History) {
    forall k {:trigger Recorded(h, k)} :: Recorded(h, k)
  }

  lemma StepRecords(h: History, op: Op, k: ClientId)
    requires Allowed(op) && |h.buffered| == |h.pool.buffer| && Recorded(h, k)
    ensures Recorded(After(h, op), k)
  {
    var h' := After(h, op);
    if k in h.pool.seen {
      var x :| (x in h.accepted || x in h.committed) && x.client == k && x.num == h.pool.seen[k];
      assert x in h'.accepted || x in h'.committed;
    }
    assert op.PushOp? && Push(h.pool, op.command).1 ==> op.command in h'.accepted;
    assert op.CommitOp? ==> op.command in h'.committed;
  }

  lemma {:induction false} RunRecords(h: History, ops: seq<Op>)
    requires Reachable(h, ops)
    ensures AllRecorded(h)
    decreases |ops|
  {
    if ops != [] {
      var before :| Reachable(before, ops[..|ops| - 1]) && |before.buffered| == |before.pool.buffer|
        && Allowed(Last(ops)) && h == After(before, Last(ops));
      RunRecords(before, ops[..|ops| - 1]);
      forall k ensures Recorded(h, k) {
        assert Recorded(before, k);
        StepRecords(before, Last(ops), k);
      }
    }
  }

  /**
   Over any run a push is accepted if and only if its number is above all that were
   accepted or committed for its client; it is then the newest in the buffer.
   */
  lemma AcceptedIff(h: History, ops: seq<Op>, c: Command)
    requires Reachable(h, ops)
    ensures Push(h.pool, c).1 <==>
      forall x :: (x in h.accepted || x in h.committed) && x.client == c.client ==> x.num < c.num
    ensures Push(h.pool, c).1 ==> Push(h.pool, c).0.buffer != [] && Last(Push(h.pool, c).0.buffer) == c
    ensures !Push(h.pool, c).1 ==> Push(h.pool, c).0 == h.pool
  {
    RunKeeps(h, ops);
    RunRecords(h, ops);
    if !Push(h.pool, c).1 {
      assert Recorded(h, c.client);
    }
  }
}
