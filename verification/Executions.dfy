/**
 Which commands of a finalized log a service executes: those numbered above all that
 came before them for their client (src/pbft/transport.rs:180-200).
 */
module Executions {
  import opened Commands

  /** No earlier command of the client is as new. */
  predicate Newest(log: seq<Command>, i: nat)
    requires i < |log|
  {
    forall j :: 0 <= j < i && log[j].client == log[i].client ==> log[j].num < log[i].num
  }

  function Executed(log: seq<Command>): seq<Command> {
    if log == [] then []
    else Executed(log[..|log| - 1]) + (if Newest(log, |log| - 1) then [Last(log)] else [])
  }

  /** The highest number of each client in the log, which is what a service remembers. */
  ghost predicate Tracks(log: seq<Command>, seqs: map<ClientId, ClientSeq>) {
    && (forall i :: 0 <= i < |log| ==> log[i].client in seqs && log[i].num <= seqs[log[i].client])
    && (forall k :: k in seqs ==> exists i :: 0 <= i < |log| && log[i].client == k && log[i].num == seqs[k])
  }

  /** The check against the remembered number is the right one. */
  lemma TracksNewest(log: seq<Command>, seqs: map<ClientId, ClientSeq>, c: Command)
    requires Tracks(log, seqs)
    ensures Newest(log + [c], |log|) <==> !(c.client in seqs && seqs[c.client] >= c.num)
  {
    var log' := log + [c];
    if c.client in seqs {
      var i :| 0 <= i < |log| && log[i].client == c.client && log[i].num == seqs[c.client];
      assert log'[i] == log[i];
    }
  }

  /** The highest number of the client in the log is this one. */
  ghost predicate IsHighest(log: seq<Command>, c: Command) {
    && (exists i :: 0 <= i < |log| && log[i].client == c.client && log[i].num == c.num)
    && (forall i :: 0 <= i < |log| && log[i].client == c.client ==> log[i].num <= c.num)
  }

  lemma TracksHighest(log: seq<Command>, seqs: map<ClientId, ClientSeq>, c: Command)
    requires Tracks(log, seqs)
    ensures IsHighest(log, c) <==> c.client in seqs && seqs[c.client] == c.num
  {
    if c.client in seqs {
      var i :| 0 <= i < |log| && log[i].client == c.client && log[i].num == seqs[c.client];
    }
  }

  lemma TracksOn(log: seq<Command>, seqs: map<ClientId, ClientSeq>, c: Command)
    requires Tracks(log, seqs)
    ensures Tracks(log + [c], if Newest(log + [c], |log|) then seqs[c.client := c.num] else seqs)
  {
    TracksNewest(log, seqs, c);
    var log' := log + [c];
    var seqs' := if Newest(log', |log|) then seqs[c.client := c.num] else seqs;
    forall k | k in seqs' ensures exists i :: 0 <= i < |log'| && log'[i].client == k && log'[i].num == seqs'[k] {
      if k == c.client && Newest(log', |log|) {
        assert log'[|log|] == c;
      } else {
        var i :| 0 <= i < |log| && log[i].client == k && log[i].num == seqs[k];
        assert log'[i] == log[i];
      }
    }
  }

  lemma ExecutedSnoc(log: seq<Command>, c: Command)
    ensures Executed(log + [c]) == Executed(log) + (if Newest(log + [c], |log|) then [c] else [])
  {
  }

  /** A longer log only adds executions: what was executed stays executed. */
  lemma {:induction false} ExecutedPrefix(a: seq<Command>, b: seq<Command>)
    requires a <= b
    ensures Executed(a) <= Executed(b)
    decreases |b|
  {
    if a == b {
    } else {
      ExecutedPrefix(a, b[..|b| - 1]);
    }
  }

  /** For every command of the log one of its client at least as new is executed. */
  lemma {:induction false} NewestIsExecuted(log: seq<Command>, y: Command) returns (z: Command)
    requires y in log
    ensures z in Executed(log) && Covers(z, y)
    decreases |log|
  {
    var front := log[..|log| - 1];
    ExecutedPrefix(front, log);
    if y in front {
      z := NewestIsExecuted(front, y);
    } else if Newest(log, |log| - 1) {
      z := y;
    } else {
      var j :| 0 <= j < |log| - 1 && log[j].client == y.client && log[j].num >= y.num;
      assert front[j] == log[j];
      z := NewestIsExecuted(front, log[j]);
    }
  }

  /** Each client's numbers strictly increase. */
  ghost predicate Increases(e: seq<Command>) {
    forall i, j :: 0 <= i < j < |e| && e[i].client == e[j].client ==> e[i].num < e[j].num
  }

  lemma IncreasesOn(e: seq<Command>, c: Command)
    requires Increases(e) && forall x :: x in e && x.client == c.client ==> x.num < c.num
    ensures Increases(e + [c])
  {
  }

  /** What is executed is in the log, and is newer than everything executed before for its client. */
  lemma {:induction false} ExecutedIncreases(log: seq<Command>)
    ensures forall c :: c in Executed(log) ==> c in log
    ensures Increases(Executed(log))
  {
    if log != [] {
      var front := log[..|log| - 1];
      ExecutedIncreases(front);
      assert log == front + [Last(log)];
      if Newest(log, |log| - 1) {
        forall x | x in Executed(front) && x.client == Last(log).client ensures x.num < Last(log).num {
          EarlierIsOlder(log, x);
        }
        IncreasesOn(Executed(front), Last(log));
      }
    }
  }

  lemma EarlierIsOlder(log: seq<Command>, x: Command)
    requires log != [] && Newest(log, |log| - 1) && x in log[..|log| - 1] && x.client == Last(log).client
    ensures x.num < Last(log).num
  {
  }

  /** `e` is the subsequence of `log` at the positions `kept`: those newer than all before them, in order. */
  ghost predicate NewestAt(log: seq<Command>, e: seq<Command>, kept: seq<nat>) {
    && |e| == |kept|
    && (forall a, b :: 0 <= a < b < |kept| ==> kept[a] < kept[b])
    && (forall a :: 0 <= a < |kept| ==> kept[a] < |log| && e[a] == log[kept[a]] && Newest(log, kept[a]))
    && (forall i: nat {:trigger Newest(log, i)} :: i < |log| && Newest(log, i) ==> i in kept)
  }

  lemma NewestBefore(log: seq<Command>, c: Command, i: nat)
    requires i < |log|
    ensures Newest(log + [c], i) <==> Newest(log, i)
  {
    assert forall j :: 0 <= j <= i ==> (log + [c])[j] == log[j];
  }

  lemma NewestOn(log: seq<Command>, e: seq<Command>, kept: seq<nat>, c: Command)
    requires NewestAt(log, e, kept)
    ensures if Newest(log + [c], |log|) then NewestAt(log + [c], e + [c], kept + [|log|])
            else NewestAt(log + [c], e, kept)
  {
    var log' := log + [c];
    var kept' := if Newest(log', |log|) then kept + [|log|] else kept;
    forall i: nat | i < |log| ensures Newest(log', i) <==> Newest(log, i) {
      NewestBefore(log, c, i);
    }
    forall i: nat | i < |log'| && Newest(log', i) ensures i in kept' {
      if i < |log| {
        assert Newest(log, i) && i in kept;
      } else {
        assert kept'[|kept|] == i;
      }
    }
  }

  lemma NothingKept()
    ensures NewestAt([], [], [])
  {
  }

  /**
   What is executed is exactly the subsequence of the log at the positions newer than all
   before them for their client: each such position once, in order, and no other.
   */
  lemma {:induction false} ExecutedIff(log: seq<Command>) returns (kept: seq<nat>)
    ensures NewestAt(log, Executed(log), kept)
  {
    hide NewestAt, Newest;
    if log == [] {
      kept := [];
      NothingKept();
    } else {
      var front := log[..|log| - 1];
      kept := ExecutedIff(front);
      NewestOn(front, Executed(front), kept, Last(log));
      assert log == front + [Last(log)] && Executed(front) + [] == Executed(front);
      kept := if Newest(log, |front|) then kept + [|front|] else kept;
    }
  }
}
