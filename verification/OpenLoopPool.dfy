/** The open-loop command pool (src/command/pool.rs, module open_loop). */
module OpenLoopPool {
  import opened Commands

  const MAX_LEN: nat := 5000

  datatype State = State(buffer: seq<Command>, seen: map<ClientId, ClientSeq>)

  const EMPTY := State([], map[])

  function Push(s: State, c: Command): (State, bool) {
    if c.client in s.seen && s.seen[c.client] >= c.num then (s, false)
    else
      var kept := if |s.buffer| == MAX_LEN then s.buffer[1..] else s.buffer;
      (State(kept + [c], s.seen[c.client := c.num]), true)
  }

  function CloseBatch(s: State, maxBatchSize: nat): (State, Option<seq<Command>>)
    requires maxBatchSize <= MAX_LEN
  {
    if s.buffer == [] then (s, None)
    else
      var skipped := (if |s.buffer| < maxBatchSize then maxBatchSize else |s.buffer|) - maxBatchSize;
      (s.(buffer := []), Some(s.buffer[skipped..]))
  }

  function Commit(s: State, c: Command): State {
    var seen := if c.client in s.seen then s.seen[c.client] else 0;
    s.(seen := s.seen[c.client := if seen < c.num then c.num else seen])
  }
}
