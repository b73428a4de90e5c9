/** From agreement on blocks to what a client may rely on. */
module PbftEndToEnd {
  import opened Commands
  import opened Executions
  import opened PbftSystem
  import opened PbftAgreement
  import opened PbftClient
  import PbftService
  import PbftQuiescence
  import PbftRequests
  import opened PbftOutcome
  import opened PbftNode
  import Quorums

  type ReplicaId = nat

  lemma FlatPrefix(a: seq<seq<Command>>, b: seq<seq<Command>>)
    requires a <= b
    ensures Flat(a) <= Flat(b)
  {
    assert b == a + b[|a|..];
    FlatConcat(a, b[|a|..]);
  }

  /** What the service of an honest replica has executed at some moment. */
  function ExecutedBy(run: seq<System>, x: nat, i: ReplicaId): seq<Command>
    requires x < |run| && i in run[x].members
  {
    Executed(Flat(run[x].members[i].log))
  }

  lemma Follows(run: seq<System>, x: nat, i: ReplicaId, y: nat, j: ReplicaId)
    requires x < |run| && y < |run| && i in run[x].members && j in run[y].members
    requires run[x].members[i].log <= run[y].members[j].log
    ensures ExecutedBy(run, x, i) <= ExecutedBy(run, y, j)
  {
    FlatPrefix(run[x].members[i].log, run[y].members[j].log);
    ExecutedPrefix(Flat(run[x].members[i].log), Flat(run[y].members[j].log));
  }

  /** Agreement, for any two moments in either order. */
  lemma LogsAgreeAnytime(w: World, run: seq<System>, i: ReplicaId, x: nat, j: ReplicaId, y: nat)
    requires WorldOk(w) && IsRun(w, run) && x < |run| && y < |run| && i in run[x].members && j in run[y].members
    ensures run[x].members[i].log <= run[y].members[j].log || run[y].members[j].log <= run[x].members[i].log
  {
    if x <= y {
      Agreement(w, run, i, x, j, y);
    } else {
      Agreement(w, run, j, y, i, x);
    }
  }

  /** The services of honest replicas execute the same commands in the same order, each client's numbers increasing. */
  lemma ExecutionsAgree(w: World, run: seq<System>, i: ReplicaId, x: nat, j: ReplicaId, y: nat)
    requires WorldOk(w) && IsRun(w, run) && x < |run| && y < |run| && i in run[x].members && j in run[y].members
    ensures ExecutedBy(run, x, i) <= ExecutedBy(run, y, j) || ExecutedBy(run, y, j) <= ExecutedBy(run, x, i)
    ensures Increases(ExecutedBy(run, x, i))
  {
    hide IsRun, WorldOk;
    LogsAgreeAnytime(w, run, i, x, j, y);
    ExecutedIncreases(Flat(run[x].members[i].log));
    if run[x].members[i].log <= run[y].members[j].log {
      Follows(run, x, i, y, j);
    } else {
      Follows(run, y, j, x, i);
    }
  }

  /** By moment `x` replica `i` has executed this request. */
  ghost predicate Served(run: seq<System>, x: nat, i: ReplicaId, client: ClientId, num: ClientSeq) {
    && x < |run| && i in run[x].members
    && exists c :: c in ExecutedBy(run, x, i) && c.client == client && c.num == num
  }

  /**
   A service of an honest replica sent this reply: it had been given the replica's log at
   some moment, and its replies are what `PbftService.Service` keeps them to be.
   */
  ghost predicate SentByService(run: seq<System>, client: ClientId, reply: PbftService.Reply) {
    exists x: nat, sent :: x < |run| && ServiceAt(run, x, reply.replica, sent) && (client, reply) in sent
  }

  ghost predicate ServiceAt(run: seq<System>, x: nat, i: ReplicaId, sent: seq<(ClientId, PbftService.Reply)>)
    requires x < |run|
  {
    i in run[x].members && PbftService.Answers(sent, ExecutedBy(run, x, i), i)
  }

  /** A service object that was given the log of replica `i` at moment `x` is such a service. */
  lemma ServiceIsAt(run: seq<System>, x: nat, i: ReplicaId, service: PbftService.Service)
    requires x < |run| && i in run[x].members
    requires service.Valid() && service.replicaId == i && service.log == Flat(run[x].members[i].log)
    ensures ServiceAt(run, x, i, service.sent)
  {
  }

  /** What can reach a client: anything from Byzantine replicas, from honest ones what their services sent to it. */
  ghost predicate Receivable(w: World, run: seq<System>, client: ClientId, received: seq<PbftService.Reply>) {
    forall reply :: reply in received ==>
      reply.replica < w.cfg.n && (reply.replica !in w.cfg.byzantine ==> SentByService(run, client, reply))
  }

  lemma SentIsServed(run: seq<System>, client: ClientId, reply: PbftService.Reply) returns (x: nat)
    requires SentByService(run, client, reply)
    ensures Served(run, x, reply.replica, client, reply.num)
  {
    ghost var sent;
    x, sent :| x < |run| && ServiceAt(run, x, reply.replica, sent) && (client, reply) in sent;
    var j :| 0 <= j < |sent| && sent[j] == (client, reply);
    assert ExecutedBy(run, x, reply.replica)[j] in ExecutedBy(run, x, reply.replica);
  }

  /**
   A result that f + 1 replicas gave was given by an honest one, which had executed the
   request; and every honest replica that has got as far, at any time, has executed it too.
   */
  lemma AcceptedIsExecuted(w: World, run: seq<System>, client: ClientId, received: seq<PbftService.Reply>,
                           num: ClientSeq, result: PbftService.Result, backers: set<ReplicaId>)
    returns (i: ReplicaId, x: nat)
    requires WorldOk(w) && IsRun(w, run) && Receivable(w, run, client, received)
    requires |backers| >= w.cfg.f + 1 && forall r :: r in backers ==> SaidBy(received, num, result, r)
    ensures i in backers && i !in w.cfg.byzantine && Served(run, x, i, client, num)
    ensures forall j, y: nat ::
      y < |run| && j in run[y].members && |run[y].members[j].log| >= |run[x].members[i].log| ==>
      Served(run, y, j, client, num)
  {
    hide IsRun, Executed, Flat;
    i := HonestBacker(w, backers);
    x := MomentOf(w, run, client, received, num, result, i);
    var c :| c in ExecutedBy(run, x, i) && c.client == client && c.num == num;
    forall j, y: nat | y < |run| && j in run[y].members && |run[y].members[j].log| >= |run[x].members[i].log|
      ensures Served(run, y, j, client, num)
    {
      LogsAgreeAnytime(w, run, i, x, j, y);
      Follows(run, x, i, y, j);
      assert c in ExecutedBy(run, y, j);
    }
  }

  lemma HonestBacker(w: World, backers: set<ReplicaId>) returns (r: ReplicaId)
    requires WorldOk(w) && |backers| >= w.cfg.f + 1
    ensures r in backers && r !in w.cfg.byzantine
  {
    if backers <= w.cfg.byzantine {
      Quorums.SubsetCount(backers, w.cfg.byzantine);
    }
    r :| r in backers && r !in w.cfg.byzantine;
  }

  lemma MomentOf(w: World, run: seq<System>, client: ClientId, received: seq<PbftService.Reply>,
                 num: ClientSeq, result: PbftService.Result, r: ReplicaId) returns (x: nat)
    requires Receivable(w, run, client, received) && SaidBy(received, num, result, r) && r !in w.cfg.byzantine
    ensures Served(run, x, r, client, num)
  {
    var reply :| reply in received && reply.num == num && reply.result == result && reply.replica == r;
    x := SentIsServed(run, client, reply);
  }

  /** Honest services give every request the same result. */
  lemma HonestResult(run: seq<System>, client: ClientId, reply: PbftService.Reply)
    requires SentByService(run, client, reply)
    ensures reply.result == []
  {
    var x: nat, sent :| x < |run| && ServiceAt(run, x, reply.replica, sent) && (client, reply) in sent;
    var j :| 0 <= j < |sent| && sent[j] == (client, reply);
  }

  /** Once f + 1 honest replicas have replied to a request since it was sent, the client no longer waits for it. */
  lemma HonestRepliesSettle(w: World, run: seq<System>, client: ClientId, c: Client, num: ClientSeq,
      honest: set<ReplicaId>)
    requires c.Valid() && num in c.since && Receivable(w, run, client, c.received)
    requires |honest| > c.numFaulty && honest !! w.cfg.byzantine
    requires forall r :: r in honest ==> Replied(c.received, c.since[num], num, r)
    ensures num !in c.scratches
  {
    forall i | c.since[num] <= i < |c.received| && c.received[i].num == num && c.received[i].replica in honest
      ensures c.received[i].result == []
    {
      assert c.received[i] in c.received;
      HonestResult(run, client, c.received[i]);
    }
    EnoughRepliesSettle(c, num, [], honest);
  }

  /**
   From request to reply: once all messages between honest replicas are held, the service of
   each of these has executed, for every request the honest primary was ever handed, one of
   its client that is at least as new.
   */
  lemma RequestIsServed(w: World, run: seq<System>, p: ReplicaId, x: nat, request: Command, verified: bool,
      i: ReplicaId)
    requires WorldOk(w) && IsRun(w, run) && w.cfg.n - w.cfg.f >= 2
    requires p in Last(run).members && p == w.viewNum % w.cfg.n && PbftQuiescence.AllDelivered(Last(run))
    requires p in w.settings && w.settings[p].maxInflight >= 1 && i in Last(run).members
    requires x + 1 < |run| && ReceiveStep(w, run[x], run[x + 1], p, Arrival(Request(request), verified))
    ensures exists z :: z in ExecutedBy(run, |run| - 1, i) && Covers(z, request)
  {
    hide IsRun, ReceiveStep, PbftQuiescence.AllDelivered, Executed, Flat;
    PbftRequests.RequestsAreExecuted(w, run, p, x, request, verified, i);
    var y :| Covers(y, request) && y in Flat(Last(run).members[i].log);
    var z := NewestIsExecuted(Flat(Last(run).members[i].log), y);
    assert z in ExecutedBy(run, |run| - 1, i) && Covers(z, request);
  }
}
