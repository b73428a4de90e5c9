/** What clients submit and replicas agree on (src/command.rs, src/client.rs). */
module Commands {
  newtype Byte = x: int | 0 <= x < 256

  type ClientId = nat
  type ClientSeq = nat

  datatype Command = Command(client: ClientId, num: ClientSeq, op: seq<Byte>)

  datatype Option<+T> = None | Some(value: T)

  /** A command of the same client that is at least as new. */
  predicate Covers(y: Command, x: Command) {
    y.client == x.client && y.num >= x.num
  }

  /** What is asked of a command pool. */
  datatype Op =
    | PushOp(command: Command)
    | CloseOp(maxBatchSize: nat)
    | CommitOp(command: Command)

  function Last<T>(s: seq<T>): T
    requires s != []
  {
    s[|s| - 1]
  }

  /** The commands that were pushed, accepted or not, in order. */
  function PushedIn(ops: seq<Op>): seq<Command> {
    if ops == [] then []
    else PushedIn(ops[..|ops| - 1]) + (if Last(ops).PushOp? then [Last(ops).command] else [])
  }

  /** The commands that were committed, in order. */
  function CommittedIn(ops: seq<Op>): seq<Command> {
    if ops == [] then []
    else CommittedIn(ops[..|ops| - 1]) + (if Last(ops).CommitOp? then [Last(ops).command] else [])
  }

  lemma OpsAfter(ops: seq<Op>, op: Op)
    ensures PushedIn(ops + [op]) == PushedIn(ops) + (if op.PushOp? then [op.command] else [])
    ensures CommittedIn(ops + [op]) == CommittedIn(ops) + (if op.CommitOp? then [op.command] else [])
  {
    assert (ops + [op])[..|ops|] == ops;
  }

  /** All commands of a list of batches, in order. */
  function Flat(batches: seq<seq<Command>>): seq<Command> {
    if batches == [] then [] else batches[0] + Flat(batches[1..])
  }

  lemma {:induction false} FlatConcat(a: seq<seq<Command>>, b: seq<seq<Command>>)
    ensures Flat(a + b) == Flat(a) + Flat(b)
  {
    if a == [] {
      assert a + b == b;
    } else {
      assert (a + b)[1..] == a[1..] + b;
      FlatConcat(a[1..], b);
      assert a[0] + (Flat(a[1..]) + Flat(b)) == a[0] + Flat(a[1..]) + Flat(b);
    }
  }

  lemma PrefixTransitive<T>(a: seq<T>, b: seq<T>, c: seq<T>)
    requires a <= b <= c
    ensures a <= c
  {
  }

  lemma HeadIn<T>(s: seq<T>)
    requires s != []
    ensures s[0] in s
  {
  }
}
