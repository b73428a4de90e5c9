/**
 Runs of the closed-loop pool: what becomes of every accepted command, and that no
 command is handed out twice.
 */
module CloseLoopPoolRuns {
  import opened Commands
  import opened CloseLoopPool

  /** The pool together with all that has happened to the commands it accepted. */
  datatype Ledger = Ledger(
    pool: State,
    accepted: set<Command>,
    handed: seq<Command>,
    replaced: set<Command>,
    dropped: set<Command>,
    committed: set<Command>)

  const START := Ledger(EMPTY, {}, [], {}, {}, {})

  function Batch(pool: State, maxBatchSize: nat): seq<Command> {
    match CloseBatch(pool, maxBatchSize).1
    case None => []
    case Some(batch) => batch
  }

  /** The pending entry of the command's client. */
  function EntryOf(pool: State, c: Command): set<Command> {
    match IndexOf(pool.pending, c.client)
    case None => {}
    case Some(i) => {pool.pending[i]}
  }

  function After(l: Ledger, op: Op): Ledger {
    match op
    case PushOp(c) =>
      var r := Push(l.pool, c);
      if r.1 then l.(pool := r.0, accepted := l.accepted + {c}, replaced := l.replaced + EntryOf(l.pool, c))
      else l.(pool := r.0)
    case CloseOp(b) =>
      l.(pool := CloseBatch(l.pool, b).0, handed := l.handed + Batch(l.pool, b))
    case CommitOp(c) =>
      l.(pool := Commit(l.pool, c), committed := l.committed + {c},
         dropped := l.dropped + set x | x in EntryOf(l.pool, c) && x.num <= c.num)
  }

  function Run(ops: seq<Op>): Ledger {
    if ops == [] then START else After(Run(ops[..|ops| - 1]), Last(ops))
  }

  // ---- the invariant ----

  /** A pending entry of this client has a higher number. */
  ghost predicate Outnumbered(pending: seq<Command>, x: Command) {
    exists i :: 0 <= i < |pending| && pending[i].client == x.client && pending[i].num > x.num
  }

  ghost predicate Outdated(pool: State, x: Command) {
    Superseded(pool.submitted, x) || Outnumbered(pool.pending, x)
  }

  /** The four places a command can be in. */
  datatype Place = Pending | Handed | Replaced | Dropped

  ghost predicate In(l: Ledger, x: Command, p: Place) {
    match p
    case Pending => x in l.pool.pending
    case Handed => x in l.handed
    case Replaced => x in l.replaced
    case Dropped => x in l.dropped
  }

  ghost predicate Increasing(handed: seq<Command>) {
    forall i, j :: 0 <= i < j < |handed| && handed[i].client == handed[j].client ==> handed[i].num < handed[j].num
  }

  ghost predicate OnePlace(l: Ledger, x: Command) {
    && (x in l.accepted <==> exists p :: In(l, x, p))
    && (forall p, q :: In(l, x, p) && In(l, x, q) ==> p == q)
  }

  ghost predicate Behind(l: Ledger, x: Command) {
    && (x in l.handed || x in l.dropped || x in l.committed ==> Superseded(l.pool.submitted, x))
    && (x in l.replaced ==> Outdated(l.pool, x) && exists y :: y in l.accepted && y.client == x.client && y.num > x.num)
    && (x in l.dropped ==> exists c :: c in l.committed && c.client == x.client && c.num >= x.num)
  }

  ghost predicate LedgerOk(l: Ledger) {
    && Inv(l.pool)
    && Increasing(l.handed)
    && (forall x {:trigger OnePlace(l, x)} :: OnePlace(l, x))
    && (forall x {:trigger Behind(l, x)} :: Behind(l, x))
  }

  // ---- each operation keeps it ----

  /** What a pending command is not: handed out, replaced or dropped. */
  lemma PendingIsNew(l: Ledger, x: Command)
    requires LedgerOk(l) && x in l.pool.pending
    ensures x !in l.handed && x !in l.replaced && x !in l.dropped && x in l.accepted
  {
    assert OnePlace(l, x);
    assert In(l, x, Pending);
    assert x in l.handed ==> In(l, x, Handed);
    assert x in l.replaced ==> In(l, x, Replaced);
    assert x in l.dropped ==> In(l, x, Dropped);
  }

  /** A command that a push accepts was never accepted before. */
  lemma AcceptedIsNew(l: Ledger, c: Command, x: Command)
    requires LedgerOk(l) && Push(l.pool, c).1 && x in l.accepted && x.client == c.client
    ensures x.num < c.num
  {
    assert OnePlace(l, x) && Behind(l, x);
    var p :| In(l, x, p);
    match IndexOf(l.pool.pending, c.client)
    case None =>
    case Some(i) =>
      IndexOfIs(l.pool, i);
  }

  lemma ReplaceMember(pending: seq<Command>, i: nat, c: Command, x: Command)
    requires i < |pending| && forall a, b :: 0 <= a < b < |pending| ==> pending[a].client != pending[b].client
    requires pending[i].client == c.client
    ensures x in pending[i := c] <==> x == c || (x in pending && x != pending[i])
  {
    if x in pending && x != pending[i] {
      var j :| 0 <= j < |pending| && pending[j] == x;
      assert pending[i := c][j] == x;
    }
    assert pending[i := c][i] == c;
  }

  lemma PushMembers(s: State, c: Command)
    requires Inv(s) && Push(s, c).1
    ensures forall x :: x in Push(s, c).0.pending <==> x == c || (x in s.pending && x !in EntryOf(s, c))
    ensures forall x :: x in EntryOf(s, c) ==> x in s.pending && x.client == c.client && x.num < c.num
  {
    match IndexOf(s.pending, c.client)
    case None =>
      assert EntryOf(s, c) == {} && Push(s, c).0.pending == s.pending + [c];
    case Some(i) =>
      assert EntryOf(s, c) == {s.pending[i]} && Push(s, c).0.pending == s.pending[i := c];
      forall x ensures x in Push(s, c).0.pending <==> x == c || (x in s.pending && x !in EntryOf(s, c)) {
        ReplaceMember(s.pending, i, c, x);
      }
  }

  lemma OutnumberedMember(pending: seq<Command>, x: Command)
    ensures Outnumbered(pending, x) <==> exists y :: y in pending && y.client == x.client && y.num > x.num
  {
  }

  lemma PushPlaces(l: Ledger, c: Command, x: Command)
    requires LedgerOk(l) && Push(l.pool, c).1
    ensures OnePlace(After(l, PushOp(c)), x)
  {
    var l' := After(l, PushOp(c));
    PushMembers(l.pool, c);
    assert OnePlace(l, x);
    if c in l.accepted {
      AcceptedIsNew(l, c, c);
    }
    if x == c {
      assert In(l', x, Pending);
      assert forall p :: In(l', x, p) ==> p == Pending || In(l, x, p);
    } else if x in EntryOf(l.pool, c) {
      PendingIsNew(l, x);
      assert In(l', x, Replaced);
    } else {
      assert forall p :: In(l', x, p) <==> In(l, x, p);
    }
  }

  lemma PushBehind(l: Ledger, c: Command, x: Command)
    requires LedgerOk(l) && Push(l.pool, c).1
    ensures Behind(After(l, PushOp(c)), x)
  {
    var l' := After(l, PushOp(c));
    PushMembers(l.pool, c);
    OutnumberedMember(l.pool.pending, x);
    OutnumberedMember(l'.pool.pending, x);
    assert Behind(l, x);
    if x in l.replaced && Outnumbered(l.pool.pending, x) {
      var y :| y in l.pool.pending && y.client == x.client && y.num > x.num;
      assert y in EntryOf(l.pool, c) ==> c.num > x.num && c in l'.pool.pending;
    }
    if x in EntryOf(l.pool, c) {
      assert c in l'.pool.pending && c in l'.accepted;
    }
  }

  lemma PushKeepsLedger(l: Ledger, c: Command)
    requires LedgerOk(l)
    ensures LedgerOk(After(l, PushOp(c)))
  {
    PushKeepsInv(l.pool, c);
    if Push(l.pool, c).1 {
      forall x ensures OnePlace(After(l, PushOp(c)), x) && Behind(After(l, PushOp(c)), x) {
        PushPlaces(l, c, x);
        PushBehind(l, c, x);
      }
    }
  }

  // ---- closing a batch ----

  ghost predicate Grew(m: map<ClientId, ClientSeq>, m': map<ClientId, ClientSeq>, k: ClientId) {
    k in m ==> k in m' && m[k] <= m'[k]
  }

  lemma CloseSubmits(s: State, b: nat)
    requires Inv(s)
    ensures Batch(s, b) + CloseBatch(s, b).0.pending == s.pending
    ensures forall x :: x in Batch(s, b) ==> Superseded(CloseBatch(s, b).0.submitted, x)
    ensures forall k {:trigger Grew(s.submitted, CloseBatch(s, b).0.submitted, k)} ::
      Grew(s.submitted, CloseBatch(s, b).0.submitted, k)
  {
    var batch, submitted := Batch(s, b), CloseBatch(s, b).0.submitted;
    MarkSubmittedIs(s.submitted, batch);
    forall x | x in batch ensures Superseded(submitted, x) {
      var i :| 0 <= i < |batch| && batch[i] == x;
      assert Records(submitted, batch[i]);
    }
    forall k ensures Grew(s.submitted, submitted, k) {
      if NoneFrom(batch, k) {
        assert SameAt(submitted, s.submitted, k);
      } else {
        var i :| 0 <= i < |batch| && batch[i].client == k;
        assert Records(submitted, batch[i]) && batch[i] == s.pending[i];
      }
    }
  }

  lemma SplitMembers(a: seq<Command>, b: seq<Command>, whole: seq<Command>)
    requires a + b == whole
    requires forall i, j :: 0 <= i < j < |whole| ==> whole[i].client != whole[j].client
    ensures forall x :: x in whole <==> x in a || x in b
    ensures forall x, y :: x in a && y in b ==> x.client != y.client
  {
    forall x, y | x in a && y in b ensures x.client != y.client {
      var i :| 0 <= i < |a| && a[i] == x;
      var j :| 0 <= j < |b| && b[j] == y;
      assert whole[i] == x && whole[|a| + j] == y;
    }
  }

  lemma ClosePlaces(l: Ledger, b: nat, x: Command)
    requires LedgerOk(l)
    ensures OnePlace(After(l, CloseOp(b)), x)
  {
    var l' := After(l, CloseOp(b));
    CloseSubmits(l.pool, b);
    SplitMembers(Batch(l.pool, b), l'.pool.pending, l.pool.pending);
    assert OnePlace(l, x);
    if x in Batch(l.pool, b) {
      PendingIsNew(l, x);
      assert In(l', x, Handed);
    } else {
      assert forall p :: In(l', x, p) <==> In(l, x, p);
    }
  }

  lemma CloseBehind(l: Ledger, b: nat, x: Command)
    requires LedgerOk(l)
    ensures Behind(After(l, CloseOp(b)), x)
  {
    var l' := After(l, CloseOp(b));
    CloseSubmits(l.pool, b);
    SplitMembers(Batch(l.pool, b), l'.pool.pending, l.pool.pending);
    OutnumberedMember(l.pool.pending, x);
    OutnumberedMember(l'.pool.pending, x);
    assert Behind(l, x);
    assert Grew(l.pool.submitted, l'.pool.submitted, x.client);
  }

  /** A batch holds only numbers above all that was handed out or committed for their client. */
  lemma BatchIsNew(l: Ledger, b: nat, x: Command, y: Command)
    requires LedgerOk(l) && x in Batch(l.pool, b) && (y in l.handed || y in l.committed) && y.client == x.client
    ensures y.num < x.num
  {
    CloseSubmits(l.pool, b);
    assert x in l.pool.pending;
    var i :| 0 <= i < |l.pool.pending| && l.pool.pending[i] == x;
    assert Behind(l, y);
  }

  lemma CloseKeepsLedger(l: Ledger, b: nat)
    requires LedgerOk(l)
    ensures LedgerOk(After(l, CloseOp(b)))
  {
    var l' := After(l, CloseOp(b));
    CloseBatchKeepsInv(l.pool, b);
    CloseSubmits(l.pool, b);
    var batch := Batch(l.pool, b);
    assert forall i :: 0 <= i < |batch| ==> batch[i] == l.pool.pending[i];
    forall i, j | 0 <= i < j < |l'.handed| && l'.handed[i].client == l'.handed[j].client
      ensures l'.handed[i].num < l'.handed[j].num
    {
      if j >= |l.handed| {
        assert l'.handed[j] == batch[j - |l.handed|];
        if i < |l.handed| {
          BatchIsNew(l, b, l'.handed[j], l'.handed[i]);
        }
      }
    }
    forall x ensures OnePlace(l', x) && Behind(l', x) {
      ClosePlaces(l, b, x);
      CloseBehind(l, b, x);
    }
  }

  // ---- committing ----

  lemma SwapMembers(pending: seq<Command>, i: nat)
    requires i < |pending| && forall a, b :: 0 <= a < b < |pending| ==> pending[a].client != pending[b].client
    ensures forall x :: x in SwapRemove(pending, i) <==> x in pending && x != pending[i]
  {
  }

  function DroppedBy(s: State, c: Command): set<Command> {
    set x | x in EntryOf(s, c) && x.num <= c.num
  }

  lemma CommitMembers(s: State, c: Command)
    requires Inv(s)
    ensures forall x :: x in Commit(s, c).pending <==> x in s.pending && x !in DroppedBy(s, c)
    ensures forall x :: x in DroppedBy(s, c) ==> x in s.pending && x.client == c.client && x.num <= c.num
    ensures Superseded(Commit(s, c).submitted, c)
    ensures forall k {:trigger Grew(s.submitted, Commit(s, c).submitted, k)} ::
      Grew(s.submitted, Commit(s, c).submitted, k)
  {
    match IndexOf(s.pending, c.client)
    case None =>
    case Some(i) => SwapMembers(s.pending, i);
  }

  lemma CommitPlaces(l: Ledger, c: Command, x: Command)
    requires LedgerOk(l)
    ensures OnePlace(After(l, CommitOp(c)), x)
  {
    var l' := After(l, CommitOp(c));
    CommitMembers(l.pool, c);
    assert OnePlace(l, x);
    if x in DroppedBy(l.pool, c) {
      PendingIsNew(l, x);
      assert In(l', x, Dropped);
    } else {
      assert forall p :: In(l', x, p) <==> In(l, x, p);
    }
  }

  lemma CommitBehind(l: Ledger, c: Command, x: Command)
    requires LedgerOk(l)
    ensures Behind(After(l, CommitOp(c)), x)
  {
    var l' := After(l, CommitOp(c));
    CommitMembers(l.pool, c);
    OutnumberedMember(l.pool.pending, x);
    OutnumberedMember(l'.pool.pending, x);
    assert Behind(l, x);
    assert Grew(l.pool.submitted, l'.pool.submitted, x.client);
    assert c in l'.committed;
  }

  lemma CommitKeepsLedger(l: Ledger, c: Command)
    requires LedgerOk(l)
    ensures LedgerOk(After(l, CommitOp(c)))
  {
    CommitKeepsInv(l.pool, c);
    forall x ensures OnePlace(After(l, CommitOp(c)), x) && Behind(After(l, CommitOp(c)), x) {
      CommitPlaces(l, c, x);
      CommitBehind(l, c, x);
    }
  }

  // ---- theorems over runs ----

  /** At all times every accepted command is in exactly one place, and none is handed out twice. */
  lemma {:induction false} RunKeepsLedger(ops: seq<Op>)
    ensures LedgerOk(Run(ops))
  {
    hide LedgerOk;
    if ops == [] {
      StartIsOk();
    } else {
      var l := Run(ops[..|ops| - 1]);
      RunKeepsLedger(ops[..|ops| - 1]);
      match Last(ops)
      case PushOp(c) => PushKeepsLedger(l, c);
      case CloseOp(b) => CloseKeepsLedger(l, b);
      case CommitOp(c) => CommitKeepsLedger(l, c);
    }
  }

  lemma StartIsOk()
    ensures LedgerOk(START)
  {
  }

  /** Over any run, what is handed out next is newer than all that was handed out or committed for its client. */
  lemma HandedOutAtMostOnce(ops: seq<Op>, b: nat, x: Command, y: Command)
    requires x in Batch(Run(ops).pool, b) && y.client == x.client
    requires y in Run(ops).handed || y in Run(ops).committed
    ensures y.num < x.num
  {
    RunKeepsLedger(ops);
    BatchIsNew(Run(ops), b, x, y);
  }

  /** What was accepted or committed once is refused from then on. */
  lemma RefusedAgain(ops: seq<Op>, x: Command)
    requires x in Run(ops).accepted || x in Run(ops).committed
    ensures !Push(Run(ops).pool, x).1
  {
    RunKeepsLedger(ops);
    var l := Run(ops);
    assert Behind(l, x);
    if Push(l.pool, x).1 && x in l.accepted {
      AcceptedIsNew(l, x, x);
    }
  }

  // ---- exactly what is accepted ----

  /** A number on record for a client is one that was handed out or committed. */
  ghost predicate Recorded(l: Ledger, k: ClientId) {
    k in l.pool.submitted ==>
      exists x :: (x in l.handed || x in l.committed) && x.client == k && x.num == l.pool.submitted[k]
  }

  ghost predicate AllRecorded(l: Ledger) {
    forall k {:trigger Recorded(l, k)} :: Recorded(l, k)
  }

  lemma CloseRecords(l: Ledger, b: nat, k: ClientId)
    requires LedgerOk(l) && Recorded(l, k)
    ensures Recorded(After(l, CloseOp(b)), k)
  {
    var batch, l' := Batch(l.pool, b), After(l, CloseOp(b));
    if l.pool.pending != [] {
      CloseSubmits(l.pool, b);
      assert forall i :: 0 <= i < |batch| ==> batch[i] == l.pool.pending[i];
      MarkSubmittedIs(l.pool.submitted, batch);
      if NoneFrom(batch, k) {
        assert SameAt(l'.pool.submitted, l.pool.submitted, k);
      } else {
        var i :| 0 <= i < |batch| && batch[i].client == k;
        assert Records(l'.pool.submitted, batch[i]) && batch[i] in l'.handed;
      }
    }
  }

  lemma CommitRecords(l: Ledger, c: Command, k: ClientId)
    requires Recorded(l, k)
    ensures Recorded(After(l, CommitOp(c)), k)
  {
    var l' := After(l, CommitOp(c));
    assert c in l'.committed;
    if k in l.pool.submitted {
      var x :| (x in l.handed || x in l.committed) && x.client == k && x.num == l.pool.submitted[k];
      assert x in l'.handed || x in l'.committed;
    }
  }

  lemma {:induction false} RunRecords(ops: seq<Op>)
    ensures AllRecorded(Run(ops))
  {
    hide LedgerOk;
    if ops != [] {
      var l, op := Run(ops[..|ops| - 1]), Last(ops);
      RunRecords(ops[..|ops| - 1]);
      RunKeepsLedger(ops[..|ops| - 1]);
      forall k ensures Recorded(Run(ops), k) {
        assert Recorded(l, k);
        match op
        case PushOp(c) =>
        case CloseOp(b) => CloseRecords(l, b, k);
        case CommitOp(c) => CommitRecords(l, c, k);
      }
    }
  }

  /**
   Over any run a push is accepted if and only if its number is above all that were
   accepted or committed for its client.
   */
  lemma AcceptedIff(ops: seq<Op>, c: Command)
    ensures Push(Run(ops).pool, c).1 <==>
      forall x :: (x in Run(ops).accepted || x in Run(ops).committed) && x.client == c.client ==> x.num < c.num
  {
    RunKeepsLedger(ops);
    RunRecords(ops);
    var l := Run(ops);
    if Push(l.pool, c).1 {
      forall x | (x in l.accepted || x in l.committed) && x.client == c.client ensures x.num < c.num {
        assert Behind(l, x);
        if x in l.accepted {
          AcceptedIsNew(l, c, x);
        }
      }
    } else {
      var x := WhyRefused(l, c);
    }
  }

  lemma WhyRefused(l: Ledger, c: Command) returns (x: Command)
    requires LedgerOk(l) && AllRecorded(l) && !Push(l.pool, c).1
    ensures (x in l.accepted || x in l.committed) && x.client == c.client && x.num >= c.num
  {
    if Superseded(l.pool.submitted, c) {
      assert Recorded(l, c.client);
      x :| (x in l.handed || x in l.committed) && x.client == c.client && x.num == l.pool.submitted[c.client];
      assert OnePlace(l, x) && (x in l.handed ==> In(l, x, Handed));
    } else {
      var i := IndexOf(l.pool.pending, c.client).value;
      x := l.pool.pending[i];
      PendingIsNew(l, x);
    }
  }

  lemma OneMoreOp(ops: seq<Op>, op: Op)
    ensures Run(ops + [op]) == After(Run(ops), op)
  {
    assert (ops + [op])[..|ops|] == ops;
  }

  lemma {:induction false} CommitsAre(ops: seq<Op>, x: Command)
    ensures x in CommittedIn(ops) <==> x in Run(ops).committed
  {
    if ops != [] {
      CommitsAre(ops[..|ops| - 1], x);
    }
  }

  /** A number that was pushed once is refused from then on, whether it was accepted or not. */
  lemma {:induction false} PushedIsRefused(ops: seq<Op>, x: Command)
    requires x in PushedIn(ops)
    ensures !Push(Run(ops).pool, x).1
  {
    hide Push;
    var before := ops[..|ops| - 1];
    AcceptedIff(ops, x);
    AcceptedIff(before, x);
    AcceptedGrow(Run(before), Last(ops));
    if x in PushedIn(before) {
      PushedIsRefused(before, x);
    }
  }

  lemma AcceptedGrow(l: Ledger, op: Op)
    ensures l.accepted <= After(l, op).accepted && l.committed <= After(l, op).committed
    ensures op.PushOp? && Push(l.pool, op.command).1 ==> op.command in After(l, op).accepted
  {
  }

  /**
   Over any run, for every command that was pushed one of its client at least as new is
   still pending, was handed out, or was committed.
   */
  lemma PushedIsCovered(ops: seq<Op>, x: Command)
    requires x in PushedIn(ops)
    ensures exists y ::
      Covers(y, x) && (y in Run(ops).pool.pending || y in Run(ops).handed || y in CommittedIn(ops))
  {
    var l := Run(ops);
    PushedIsRefused(ops, x);
    RunRecords(ops);
    if Superseded(l.pool.submitted, x) {
      assert Recorded(l, x.client);
      var y :| (y in l.handed || y in l.committed) && y.client == x.client && y.num == l.pool.submitted[x.client];
      CommitsAre(ops, y);
      assert Covers(y, x);
    } else {
      var i := IndexOf(l.pool.pending, x.client).value;
      assert l.pool.pending[i] in l.pool.pending && Covers(l.pool.pending[i], x);
    }
  }

  /**
   An accepted command is pending afterwards: where its client's entry was, or at the end;
   every other entry stays where it is. A refused one changes nothing.
   */
  lemma AcceptedIsPending(l: Ledger, c: Command)
    requires LedgerOk(l)
    ensures var r := Push(l.pool, c); var was := IndexOf(l.pool.pending, c.client);
      && (!r.1 ==> r.0 == l.pool)
      && (r.1 ==>
           var at := if was.Some? then was.value else |l.pool.pending|;
           && IndexOf(r.0.pending, c.client) == Some(at) && r.0.pending[at] == c
           && |r.0.pending| == (if was.Some? then |l.pool.pending| else |l.pool.pending| + 1)
           && (forall j :: 0 <= j < |l.pool.pending| && j != at ==> r.0.pending[j] == l.pool.pending[j])
           && r.0.submitted == l.pool.submitted)
  {
    PushKeepsInv(l.pool, c);
    var r, was := Push(l.pool, c), IndexOf(l.pool.pending, c.client);
    if r.1 {
      IndexOfIs(r.0, if was.Some? then was.value else |l.pool.pending|);
    }
  }
}
