/** A client waiting for f + 1 equal replies (src/pbft/transport.rs:61-152). */
module PbftClient {
  import opened Commands
  import opened PbftService
  import Quorums

  /** The replicas whose latest reply is this result. */
  function Backers(results: map<ReplicaId, Result>, result: Result): set<ReplicaId> {
    set r | r in results && results[r] == result
  }

  datatype Scratch = Scratch(results: map<ReplicaId, Result>, expected: Option<Result>)

  datatype Outcome = Unknown | Waiting | Accepted(result: Result) | Unexpected(result: Result)

  /** Close loop: one request at a time. Open loop: the oldest makes room for the newest. */
  datatype Mode = CloseLoop | OpenLoop(maxInflight: nat)

  lemma BackersAfter(results: map<ReplicaId, Result>, r: ReplicaId, result: Result, other: Result)
    ensures Backers(results[r := result], other) ==
      if other == result then Backers(results, other) + {r} else Backers(results, other) - {r}
  {
  }

  /** One reply adds at most one backer to its own result, and none to any other. */
  lemma OneReply(results: map<ReplicaId, Result>, r: ReplicaId, result: Result, other: Result)
    ensures |Backers(results[r := result], result)| <= |Backers(results, result)| + 1
    ensures other != result ==> |Backers(results[r := result], other)| <= |Backers(results, other)|
  {
    hide Backers;
    BackersAfter(results, r, result, result);
    BackersAfter(results, r, result, other);
  }

  ghost predicate Below(results: map<ReplicaId, Result>, f: nat, result: Result) {
    |Backers(results, result)| <= f
  }

  /** No result of an outstanding request has more than f backers. */
  ghost predicate Open(results: map<ReplicaId, Result>, f: nat) {
    forall result {:trigger Below(results, f, result)} :: Below(results, f, result)
  }

  /**
   The test for exactly f + 1 fires whenever there are f + 1 or more, even though
   replicas may overwrite their replies; and when it does not fire the request stays open.
   */
  lemma NeverSteppedOver(results: map<ReplicaId, Result>, f: nat, r: ReplicaId, result: Result)
    requires Open(results, f)
    ensures var results' := results[r := result];
      && (|Backers(results', result)| == f + 1 <==> !Open(results', f))
      && |Backers(results', result)| <= f + 1
  {
    var results' := results[r := result];
    assert Below(results, f, result);
    OneReply(results, r, result, result);
    forall other | other != result ensures Below(results', f, other) {
      assert Below(results, f, other);
      OneReply(results, r, result, other);
    }
    if |Backers(results', result)| == f + 1 {
      assert !Below(results', f, result);
    } else {
      assert Below(results', f, result);
    }
  }

  /** This replica replied so to this request. */
  ghost predicate SaidBy(received: seq<Reply>, num: ClientSeq, result: Result, r: ReplicaId) {
    exists reply :: reply in received && reply.num == num && reply.result == result && reply.replica == r
  }

  /** Reply number `i` is the last one of its replica to this request since reply number `at`. */
  ghost predicate IsLatest(received: seq<Reply>, at: nat, num: ClientSeq, i: nat) {
    && at <= i < |received| && received[i].num == num
    && forall j :: i < j < |received| && received[j].num == num ==> received[j].replica != received[i].replica
  }

  /** The replicas whose latest reply to this request, since reply number `at`, is this result. */
  ghost function Agreeing(received: seq<Reply>, at: nat, num: ClientSeq, result: Result): set<ReplicaId> {
    set i: nat | i < |received| && IsLatest(received, at, num, i) && received[i].result == result :: received[i].replica
  }

  /** The table holds exactly the latest reply of every replica since reply number `at`. */
  ghost predicate HoldsLatest(received: seq<Reply>, at: nat, num: ClientSeq, results: map<ReplicaId, Result>) {
    && (forall i :: at <= i < |received| && received[i].num == num ==> received[i].replica in results)
    && (forall i: nat {:trigger IsLatest(received, at, num, i)} ::
         IsLatest(received, at, num, i) ==> results[received[i].replica] == received[i].result)
    && (forall r :: r in results ==> exists i: nat :: IsLatest(received, at, num, i) && received[i].replica == r)
  }

  lemma LatestStays(received: seq<Reply>, at: nat, num: ClientSeq, reply: Reply, i: nat)
    requires i < |received|
    ensures IsLatest(received + [reply], at, num, i) <==>
      IsLatest(received, at, num, i) && !(reply.num == num && reply.replica == received[i].replica)
  {
    var more := received + [reply];
    assert more[|received|] == reply;
    assert forall j :: 0 <= j < |received| ==> more[j] == received[j];
  }

  lemma LatestOn(received: seq<Reply>, at: nat, num: ClientSeq, results: map<ReplicaId, Result>, reply: Reply)
    requires HoldsLatest(received, at, num, results) && at <= |received|
    ensures HoldsLatest(received + [reply], at, num,
                        if reply.num == num then results[reply.replica := reply.result] else results)
  {
    var more, n := received + [reply], |received|;
    var results' := if reply.num == num then results[reply.replica := reply.result] else results;
    assert more[n] == reply && (forall j :: 0 <= j < n ==> more[j] == received[j]);
    forall i: nat | IsLatest(more, at, num, i) ensures results'[more[i].replica] == more[i].result {
      if i < n {
        LatestStays(received, at, num, reply, i);
      }
    }
    forall r | r in results' ensures exists i: nat :: IsLatest(more, at, num, i) && more[i].replica == r {
      if reply.num == num && r == reply.replica {
        assert IsLatest(more, at, num, n);
      } else {
        var i: nat :| IsLatest(received, at, num, i) && received[i].replica == r;
        LatestStays(received, at, num, reply, i);
      }
    }
  }

  lemma AgreeingAreBackers(received: seq<Reply>, at: nat, num: ClientSeq, results: map<ReplicaId, Result>,
      result: Result)
    requires HoldsLatest(received, at, num, results)
    ensures Agreeing(received, at, num, result) == Backers(results, result)
    ensures forall r :: r in Backers(results, result) ==> SaidBy(received, num, result, r)
  {
    forall r | r in Backers(results, result)
      ensures r in Agreeing(received, at, num, result) && SaidBy(received, num, result, r)
    {
      var i: nat :| IsLatest(received, at, num, i) && received[i].replica == r;
      assert received[i] in received;
    }
  }

  /** The latest replies since the request was sent are on record, and none has enough backers yet. */
  ghost predicate Outstanding(f: nat, received: seq<Reply>, at: nat, num: ClientSeq, results: map<ReplicaId, Result>) {
    at <= |received| && Open(results, f) && HoldsLatest(received, at, num, results)
  }

  lemma NothingSaid(f: nat, received: seq<Reply>, num: ClientSeq)
    ensures Outstanding(f, received, |received|, num, map[])
  {
    forall result ensures Below(map[], f, result) {
      assert Backers(map[], result) == {};
    }
  }

  lemma MoreReceived(f: nat, received: seq<Reply>, at: nat, reply: Reply, num: ClientSeq, results: map<ReplicaId,
      Result>)
    requires Outstanding(f, received, at, num, results) && reply.num != num
    ensures Outstanding(f, received + [reply], at, num, results)
  {
    LatestOn(received, at, num, results, reply);
  }

  /** What a counted reply does to its request. */
  lemma ReplyCounts(f: nat, received: seq<Reply>, at: nat, results: map<ReplicaId, Result>, reply: Reply)
    requires Outstanding(f, received, at, reply.num, results)
    ensures var results' := results[reply.replica := reply.result];
      var backers := Backers(results', reply.result);
      && |backers| <= f + 1
      && backers == Agreeing(received + [reply], at, reply.num, reply.result)
      && (forall r :: r in backers ==> SaidBy(received + [reply], reply.num, reply.result, r))
      && (|backers| != f + 1 ==> Outstanding(f, received + [reply], at, reply.num, results'))
  {
    NeverSteppedOver(results, f, reply.replica, reply.result);
    LatestOn(received, at, reply.num, results, reply);
    AgreeingAreBackers(received + [reply], at, reply.num, results[reply.replica := reply.result], reply.result);
  }

  /** `since` says how many replies had come when each request was sent. */
  ghost predicate AllOutstanding(f: nat, received: seq<Reply>, since: map<ClientSeq, nat>, last: ClientSeq,
      scratches: map<ClientSeq, Scratch>) {
    forall s :: s in scratches ==>
      1 <= s <= last && s in since && Outstanding(f, received, since[s], s, scratches[s].results)
  }

  function ResultsAfter(scratches: map<ClientSeq, Scratch>, reply: Reply): map<ReplicaId, Result>
    requires reply.num in scratches
  {
    scratches[reply.num].results[reply.replica := reply.result]
  }

  /** More than f latest replies agree with this one. */
  predicate Settles(f: nat, scratches: map<ClientSeq, Scratch>, reply: Reply)
    requires reply.num in scratches
  {
    |Backers(ResultsAfter(scratches, reply), reply.result)| > f
  }

  /** The outstanding requests after a reply, and what the client makes of it. */
  function Answered(f: nat, scratches: map<ClientSeq, Scratch>, reply: Reply): (map<ClientSeq, Scratch>, Outcome) {
    if reply.num !in scratches then (scratches, Unknown)
    else
      var was := scratches[reply.num];
      if !Settles(f, scratches, reply) then (scratches[reply.num := was.(results := ResultsAfter(scratches, reply))],
        Waiting)
      else
        (scratches - {reply.num},
         if was.expected.Some? && was.expected.value != reply.result then Unexpected(reply.result)
           else Accepted(reply.result))
  }

  lemma AnsweredKeeps(f: nat, received: seq<Reply>, since: map<ClientSeq, nat>, last: ClientSeq,
      scratches: map<ClientSeq, Scratch>, reply: Reply)
    requires AllOutstanding(f, received, since, last, scratches)
    ensures AllOutstanding(f, received + [reply], since, last, Answered(f, scratches, reply).0)
    ensures |Answered(f, scratches, reply).0| <= |scratches|
    ensures reply.num in scratches ==>
      var backers := Backers(ResultsAfter(scratches, reply), reply.result);
      && (Settles(f, scratches, reply) <==> |backers| == f + 1)
      && reply.num in since && backers == Agreeing(received + [reply], since[reply.num], reply.num, reply.result)
      && (forall r :: r in backers ==> SaidBy(received + [reply], reply.num, reply.result, r))
  {
    hide Outstanding;
    forall s | s in scratches && s != reply.num
      ensures Outstanding(f, received + [reply], since[s], s, scratches[s].results)
    {
      MoreReceived(f, received, since[s], reply, s, scratches[s].results);
    }
    if reply.num in scratches {
      ReplyCounts(f, received, since[reply.num], scratches[reply.num].results, reply);
      OneLessKey(scratches, reply.num);
      SameKeys(scratches, reply.num, scratches[reply.num].(results := ResultsAfter(scratches, reply)));
    }
  }

  lemma OneMoreKey<K, V>(m: map<K, V>, k: K, v: V)
    requires k !in m
    ensures |m[k := v]| == |m| + 1
  {
  }

  lemma OneLessKey<K, V>(m: map<K, V>, k: K)
    requires k in m
    ensures |m - {k}| == |m| - 1
  {
  }

  lemma SameKeys<K, V>(m: map<K, V>, k: K, v: V)
    requires k in m
    ensures |m[k := v]| == |m|
  {
  }

  class Client {
    const numFaulty: nat
    const mode: Mode
    var num: ClientSeq
    var scratches: map<ClientSeq, Scratch>
    var viewNum: nat
    ghost var received: seq<Reply>
    ghost var since: map<ClientSeq, nat>

    ghost predicate Valid()
      reads this
    {
      && AllOutstanding(numFaulty, received, since, num, scratches)
      && (mode.CloseLoop? ==> |scratches| <= 1)
      && (mode.OpenLoop? && mode.maxInflight >= 1 ==> |scratches| <= mode.maxInflight)
    }

    constructor (numFaulty: nat, mode: Mode)
      ensures Valid() && this.numFaulty == numFaulty && this.mode == mode && received == [] && since == map[]
    {
      this.numFaulty, this.mode := numFaulty, mode;
      num, scratches, viewNum, received, since := 0, map[], 0, [], map[];
    }

    /** The request that is dropped for a new one. */
    method PopFirst() returns (first: ClientSeq)
      requires scratches != map[]
      ensures first in scratches && forall s :: s in scratches ==> first <= s
    {
      var rest := scratches.Keys;
      first :| first in rest;
      rest := rest - {first};
      while rest != {}
        invariant first in scratches && rest <= scratches.Keys
        invariant forall s :: s in scratches && s !in rest ==> first <= s
      {
        var s :| s in rest;
        if s < first {
          first := s;
        }
        rest := rest - {s};
      }
    }

    /** src/pbft/transport.rs:109-111 */
    method MakeRoom()
      requires num >= 1 && AllOutstanding(numFaulty, received, since, num - 1, scratches)
      requires mode.OpenLoop? && (mode.maxInflight >= 1 ==> |scratches| <= mode.maxInflight)
      modifies this`scratches
      ensures num >= 1 && AllOutstanding(numFaulty, received, since, num - 1, scratches)
      ensures mode.maxInflight >= 1 ==> |scratches| < mode.maxInflight
      ensures forall s :: s in scratches ==> s in old(scratches) && scratches[s] == old(scratches)[s]
      ensures forall s :: s in old(scratches) && s !in scratches ==>
        |old(scratches)| == mode.maxInflight && forall t :: t in scratches ==> s < t
      ensures |scratches| >= |old(scratches)| - 1
    {
      hide Outstanding;
      if |scratches| == mode.maxInflight && scratches != map[] {
        var first := PopFirst();
        OneLessKey(scratches, first);
        scratches := scratches - {first};
      }
    }

    /** src/pbft/transport.rs:95-122; false if a close-loop request is still outstanding. */
    method Invoke(expected: Option<Result>) returns (ok: bool)
      requires Valid()
      modifies this`num, this`scratches, this`since
      ensures Valid() && num == old(num) + 1
      ensures since == if ok then old(since)[num := |received|] else old(since)
      ensures |scratches| >= |old(scratches)|
      ensures ok <==> (mode.CloseLoop? ==> old(scratches) == map[])
      ensures ok ==> num in scratches && scratches[num] == Scratch(map[], expected)
      ensures forall s :: s in scratches && s != num ==> s in old(scratches) && scratches[s] == old(scratches)[s]
      ensures forall s :: s in old(scratches) && s !in scratches ==>
        mode.OpenLoop? && |old(scratches)| == mode.maxInflight && forall t :: t in scratches ==> s < t
    {
      hide Outstanding;
      num := num + 1;
      if mode.CloseLoop? {
        if scratches != map[] {
          return false;
        }
      } else {
        MakeRoom();
      }
      Place(expected);
      return true;
    }

    /** The new request joins the outstanding ones. */
    method Place(expected: Option<Result>)
      requires num >= 1 && AllOutstanding(numFaulty, received, since, num - 1, scratches)
      requires mode.CloseLoop? ==> scratches == map[]
      requires mode.OpenLoop? && mode.maxInflight >= 1 ==> |scratches| < mode.maxInflight
      modifies this`scratches, this`since
      ensures Valid() && scratches == old(scratches)[num := Scratch(map[], expected)]
      ensures since == old(since)[num := |received|] && |scratches| == |old(scratches)| + 1
    {
      hide Outstanding;
      NothingSaid(numFaulty, received, num);
      OneMoreKey(scratches, num, Scratch(map[], expected));
      scratches := scratches[num := Scratch(map[], expected)];
      since := since[num := |received|];
    }

    /**
     src/pbft/transport.rs:124-148. Over all replies since the request was sent: it is
     settled as soon as the latest replies of f + 1 replicas agree, and not before.
     */
    method OnReply(reply: Reply) returns (outcome: Outcome)
      requires Valid()
      modifies this`scratches, this`viewNum, this`received
      ensures Valid() && received == old(received) + [reply]
      ensures (scratches, outcome) == Answered(numFaulty, old(scratches), reply)
      ensures outcome.Unknown? <==> reply.num !in old(scratches)
      ensures reply.num in old(scratches) ==>
        && reply.num in since
        && var agreeing := Agreeing(received, since[reply.num], reply.num, reply.result);
           && (outcome.Waiting? <==> |agreeing| <= numFaulty)
           && (reply.num in scratches <==> outcome.Waiting?)
           && (!outcome.Waiting? ==>
                && |agreeing| == numFaulty + 1
                && (forall r :: r in agreeing ==> SaidBy(received, reply.num, reply.result, r))
                && (outcome == Accepted(reply.result) || outcome == Unexpected(reply.result)))
      ensures forall s :: s != reply.num ==> (s in scratches <==> s in old(scratches))
      ensures viewNum == if outcome.Accepted? || outcome.Unexpected? then reply.viewNum else old(viewNum)
    {
      hide AllOutstanding, Backers, SaidBy, Agreeing;
      AnsweredKeeps(numFaulty, received, since, num, scratches, reply);
      received := received + [reply];
      if reply.num !in scratches {
        return Unknown;
      }
      var scratch := scratches[reply.num];
      var results := scratch.results[reply.replica := reply.result];
      if |Backers(results, reply.result)| == numFaulty + 1 {
        viewNum := reply.viewNum;
        scratches := scratches - {reply.num};
        if scratch.expected.Some? && scratch.expected.value != reply.result {
          return Unexpected(reply.result);
        }
        return Accepted(reply.result);
      }
      scratches := scratches[reply.num := scratch.(results := results)];
      return Waiting;
    }
  }

  /**
   A request to which f + 1 replicas have replied since it was sent, all with one result
   every time, no longer waits.
   */
  lemma EnoughRepliesSettle(c: Client, num: ClientSeq, result: Result, repliers: set<ReplicaId>)
    requires c.Valid() && num in c.since && |repliers| > c.numFaulty
    requires forall r :: r in repliers ==> Replied(c.received, c.since[num], num, r)
    requires forall i :: c.since[num] <= i < |c.received| && c.received[i].num == num ==>
        c.received[i].replica in repliers ==> c.received[i].result == result
    ensures num !in c.scratches
  {
    hide Replied, Below, HoldsLatest;
    if num in c.scratches {
      var results := c.scratches[num].results;
      AllBack(c.received, c.since[num], num, results, result, repliers);
      Quorums.SubsetCount(repliers, Backers(results, result));
      FewBack(results, c.numFaulty, result);
    }
  }

  lemma FewBack(results: map<ReplicaId, Result>, f: nat, result: Result)
    requires Open(results, f)
    ensures |Backers(results, result)| <= f
  {
    assert Below(results, f, result);
  }

  lemma AllBack(received: seq<Reply>, at: nat, num: ClientSeq, results: map<ReplicaId, Result>, result: Result,
      repliers: set<ReplicaId>)
    requires HoldsLatest(received, at, num, results)
    requires forall r :: r in repliers ==> Replied(received, at, num, r)
    requires forall i :: at <= i < |received| && received[i].num == num && received[i].replica in repliers ==>
      received[i].result == result
    ensures repliers <= Backers(results, result)
  {
    forall r | r in repliers ensures r in Backers(results, result) {
      assert Replied(received, at, num, r);
      assert r in results;
      var j: nat :| IsLatest(received, at, num, j) && received[j].replica == r;
    }
  }

  /** This replica replied to the request since reply number `at`. */
  ghost predicate Replied(received: seq<Reply>, at: nat, num: ClientSeq, r: ReplicaId) {
    exists i :: at <= i < |received| && received[i].num == num && received[i].replica == r
  }
}
