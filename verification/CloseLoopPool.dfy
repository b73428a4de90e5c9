/**
 The closed-loop command pool (src/command/pool.rs, module close_loop) as a plain list
 searched by client; it is what the rest of the model reasons about. The class in
 CloseLoopCommandPool keeps the program's moving queue and table of offsets.
 */
module CloseLoopPool {
  import opened Commands

  datatype State = State(pending: seq<Command>, submitted: map<ClientId, ClientSeq>)

  const EMPTY := State([], map[])

  /** The position of the entry of `client`, by linear search. */
  function IndexOf(pending: seq<Command>, client: ClientId): (r: Option<nat>)
    ensures r.Some? ==> r.value < |pending| && pending[r.value].client == client
    ensures r.Some? ==> forall j :: 0 <= j < r.value ==> pending[j].client != client
    ensures r.None? ==> forall j :: 0 <= j < |pending| ==> pending[j].client != client
  {
    if pending == [] then None
    else if pending[0].client == client then Some(0)
    else
      match IndexOf(pending[1..], client)
      case None => assert forall j :: 1 <= j < |pending| ==> pending[j] == pending[1..][j - 1]; None
      case Some(i) => assert forall j :: 1 <= j <= i + 1 ==> pending[j] == pending[1..][j - 1]; Some(i + 1)
  }

  /** Whether a command numbered like `c` of this client was already handed out or committed. */
  predicate Superseded(submitted: map<ClientId, ClientSeq>, c: Command) {
    c.client in submitted && submitted[c.client] >= c.num
  }

  function Push(s: State, c: Command): (State, bool) {
    if Superseded(s.submitted, c) then (s, false)
    else
      match IndexOf(s.pending, c.client)
      case Some(i) =>
        if c.num > s.pending[i].num then (s.(pending := s.pending[i := c]), true) else (s, false)
      case None => (s.(pending := s.pending + [c]), true)
  }

  function MarkSubmitted(submitted: map<ClientId, ClientSeq>, batch: seq<Command>): map<ClientId, ClientSeq> {
    if batch == [] then submitted
    else MarkSubmitted(submitted, batch[..|batch| - 1])[Last(batch).client := Last(batch).num]
  }

  function Min(a: nat, b: nat): nat { if a < b then a else b }

  function Max(a: nat, b: nat): nat { if a < b then b else a }

  function CloseBatch(s: State, maxBatchSize: nat): (State, Option<seq<Command>>) {
    if s.pending == [] then (s, None)
    else
      var n := Min(maxBatchSize, |s.pending|);
      var batch := s.pending[..n];
      (State(s.pending[n..], MarkSubmitted(s.submitted, batch)), Some(batch))
  }

  /** Removal that fills the hole with the last entry. */
  function SwapRemove<T>(pending: seq<T>, i: nat): (r: seq<T>)
    requires i < |pending|
  {
    if i == |pending| - 1 then pending[..i] else pending[..|pending| - 1][i := Last(pending)]
  }

  function Commit(s: State, c: Command): State {
    var seen := if c.client in s.submitted then s.submitted[c.client] else 0;
    var submitted := s.submitted[c.client := Max(seen, c.num)];
    match IndexOf(s.pending, c.client)
    case Some(i) =>
      if s.pending[i].num <= c.num then State(SwapRemove(s.pending, i), submitted)
      else State(s.pending, submitted)
    case None => State(s.pending, submitted)
  }

  /** One entry per client, and every entry is newer than all that was submitted for its client. */
  ghost predicate Inv(s: State) {
    && (forall i, j :: 0 <= i < j < |s.pending| ==> s.pending[i].client != s.pending[j].client)
    && (forall i :: 0 <= i < |s.pending| ==> !Superseded(s.submitted, s.pending[i]))
  }

  lemma IndexOfIs(s: State, i: nat)
    requires Inv(s) && i < |s.pending|
    ensures IndexOf(s.pending, s.pending[i].client) == Some(i)
  {
  }

  lemma PushKeepsInv(s: State, c: Command)
    requires Inv(s)
    ensures Inv(Push(s, c).0)
  {
  }

  predicate Records(submitted: map<ClientId, ClientSeq>, c: Command) {
    c.client in submitted && submitted[c.client] == c.num
  }

  predicate NoneFrom(batch: seq<Command>, client: ClientId) {
    forall i :: 0 <= i < |batch| ==> batch[i].client != client
  }

  predicate SameAt(m: map<ClientId, ClientSeq>, m': map<ClientId, ClientSeq>, client: ClientId) {
    (client in m <==> client in m') && (client in m ==> m[client] == m'[client])
  }

  /** The numbers recorded for a batch of distinct clients. */
  lemma {:induction false} MarkSubmittedIs(submitted: map<ClientId, ClientSeq>, batch: seq<Command>)
    requires forall i, j :: 0 <= i < j < |batch| ==> batch[i].client != batch[j].client
    ensures forall i :: 0 <= i < |batch| ==> Records(MarkSubmitted(submitted, batch), batch[i])
    ensures forall k :: NoneFrom(batch, k) ==> SameAt(MarkSubmitted(submitted, batch), submitted, k)
  {
    if batch != [] {
      var front := batch[..|batch| - 1];
      MarkSubmittedIs(submitted, front);
      forall k | NoneFrom(batch, k) ensures SameAt(MarkSubmitted(submitted, batch), submitted, k) {
        assert NoneFrom(front, k) && batch[|batch| - 1].client != k;
      }
    }
  }

  lemma CloseBatchKeepsInv(s: State, b: nat)
    requires Inv(s)
    ensures Inv(CloseBatch(s, b).0)
  {
    if s.pending != [] {
      var n := Min(b, |s.pending|);
      var batch := s.pending[..n];
      MarkSubmittedIs(s.submitted, batch);
      var s' := CloseBatch(s, b).0;
      forall i | 0 <= i < |s'.pending| ensures !Superseded(s'.submitted, s'.pending[i]) {
        assert s'.pending[i] == s.pending[n + i];
        assert NoneFrom(batch, s'.pending[i].client);
        assert SameAt(s'.submitted, s.submitted, s'.pending[i].client);
      }
    }
  }

  lemma CommitKeepsInv(s: State, c: Command)
    requires Inv(s)
    ensures Inv(Commit(s, c))
  {
  }
}
