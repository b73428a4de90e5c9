/**
 The buffer that puts blocks back in causal order (src/hotstuff/mod.rs:481-508).

 A block waits under one missing digest: its parent, or, once the parent is stored,
 the block it justifies. `Buffer` is that table together with the stack of blocks the
 loop is about to look at; the ghost map `place` says where each arrived block waits.
 */
module HotStuffReordering {
  import opened Commands
  import opened HotStuffTree
  import opened HotStuffChain

  /** A block whose whole causal past has arrived. */
  ghost predicate Ready(arrived: set<Digest>, d: Digest)
    decreases d
  {
    d.Hash? ==> d in arrived && Ready(arrived, d.block.parent) && Ready(arrived, d.block.justify)
  }

  /** Every stored block came after its parent and the block it justifies. */
  ghost predicate Closed(known: set<Digest>) {
    && Genesis in known
    && forall d {:trigger LinksIn(known, d)} :: d in known ==> LinksIn(known, d)
  }

  ghost predicate LinksIn(known: set<Digest>, d: Digest) {
    d.Hash? ==> d.block.parent in known && d.block.justify in known
  }

  datatype Buffer = Buffer(waiting: map<Digest, seq<Proposal>>, pending: seq<Proposal>)

  /** No two blocks of a list are the same. */
  ghost predicate Distinct(bs: seq<Proposal>) {
    forall i, j :: 0 <= i < j < |bs| ==> DigestOf(bs[i]) != DigestOf(bs[j])
  }

  ghost predicate Listed(bs: seq<Proposal>, d: Digest) {
    exists i :: 0 <= i < |bs| && DigestOf(bs[i]) == d
  }

  /** `b` waits under `k` because that is what it lacks first. */
  ghost predicate WaitsFor(known: set<Digest>, b: Proposal, k: Digest) {
    b.parent == k || (b.justify.node == k && b.parent in known)
  }

  /** The blocks waiting under `k`: `k` is missing, and each is there for good reason, once. */
  ghost predicate QueueOk(known: set<Digest>, bs: seq<Proposal>, k: Digest, place: map<Digest, Option<Digest>>) {
    && k !in known
    && Distinct(bs)
    && forall i :: 0 <= i < |bs| ==>
         WaitsFor(known, bs[i], k) && DigestOf(bs[i]) in place && place[DigestOf(bs[i])] == Some(k)
  }

  ghost predicate PendingOk(known: set<Digest>, bs: seq<Proposal>, place: map<Digest, Option<Digest>>) {
    && Distinct(bs)
    && forall i :: 0 <= i < |bs| ==>
         bs[i].parent in known && DigestOf(bs[i]) in place && place[DigestOf(bs[i])] == None
  }

  /** Where the map says a block is, it is. */
  ghost predicate Placed(u: Buffer, place: map<Digest, Option<Digest>>, d: Digest) {
    d in place ==>
      match place[d]
      case None => Listed(u.pending, d)
      case Some(k) => k in u.waiting && Listed(u.waiting[k], d)
  }

  ghost predicate BufferOk(known: set<Digest>, arrived: set<Digest>, u: Buffer, place: map<Digest, Option<Digest>>) {
    && place.Keys == arrived - known
    && known <= arrived + {Genesis}
    && (forall k :: k in u.waiting ==> QueueOk(known, u.waiting[k], k, place))
    && PendingOk(known, u.pending, place)
    && (forall d {:trigger Placed(u, place, d)} :: Placed(u, place, d))
  }

  // ---- the three moves of the loop ----

  function Enqueue(waiting: map<Digest, seq<Proposal>>, k: Digest, b: Proposal): map<Digest, seq<Proposal>> {
    waiting[k := (if k in waiting then waiting[k] else []) + [b]]
  }

  lemma ListedGrows(bs: seq<Proposal>, b: Proposal)
    ensures forall d :: Listed(bs + [b], d) <==> Listed(bs, d) || d == DigestOf(b)
  {
    forall d ensures Listed(bs + [b], d) <==> Listed(bs, d) || d == DigestOf(b) {
      if i :| 0 <= i < |bs| && DigestOf(bs[i]) == d {
        assert (bs + [b])[i] == bs[i];
      }
      if d == DigestOf(b) {
        assert (bs + [b])[|bs|] == b;
      }
    }
  }

  /** A block that just arrived and must wait for its parent. */
  lemma ArriveWaiting(known: set<Digest>, arrived: set<Digest>, u: Buffer, place: map<Digest, Option<Digest>>,
      b: Proposal)
    requires BufferOk(known, arrived, u, place) && DigestOf(b) !in arrived && DigestOf(b) !in known
    requires b.parent !in known
    ensures BufferOk(known, arrived + {DigestOf(b)}, u.(waiting := Enqueue(u.waiting, b.parent, b)),
                     place[DigestOf(b) := Some(b.parent)])
  {
    EnqueueOk(known, arrived + {DigestOf(b)}, u, place, b, b.parent);
  }

  /** A block that just arrived and whose parent is stored. */
  lemma ArrivePending(known: set<Digest>, arrived: set<Digest>, u: Buffer, place: map<Digest, Option<Digest>>,
      b: Proposal)
    requires BufferOk(known, arrived, u, place) && DigestOf(b) !in arrived && DigestOf(b) !in known && b.parent in known
    requires u.pending == []
    ensures BufferOk(known, arrived + {DigestOf(b)}, u.(pending := [b]), place[DigestOf(b) := None])
  {
    var d, u', place' := DigestOf(b), u.(pending := [b]), place[DigestOf(b) := None];
    assert DigestOf(u'.pending[0]) == d;
    forall x ensures Placed(u', place', x) {
      assert Placed(u, place, x);
    }
    forall k | k in u'.waiting ensures QueueOk(known, u'.waiting[k], k, place') {
      assert QueueOk(known, u.waiting[k], k, place);
    }
  }

  /** Putting a block that has no place yet under a missing digest. */
  lemma EnqueueOk(known: set<Digest>, arrived: set<Digest>, u: Buffer, place: map<Digest, Option<Digest>>,
      b: Proposal, k: Digest)
    requires BufferOk(known, arrived - {DigestOf(b)}, u, place) && DigestOf(b) in arrived && DigestOf(b) !in known
    requires k !in known && WaitsFor(known, b, k)
    ensures BufferOk(known, arrived, u.(waiting := Enqueue(u.waiting, k, b)), place[DigestOf(b) := Some(k)])
  {
    var d, place' := DigestOf(b), place[DigestOf(b) := Some(k)];
    var u' := u.(waiting := Enqueue(u.waiting, k, b));
    var queue := if k in u.waiting then u.waiting[k] else [];
    ListedGrows(queue, b);
    forall x ensures Placed(u', place', x) {
      assert Placed(u, place, x);
    }
    forall q | q in u'.waiting ensures QueueOk(known, u'.waiting[q], q, place') {
      assert q in u.waiting ==> QueueOk(known, u.waiting[q], q, place);
    }
  }

  lemma FrontOf(bs: seq<Proposal>)
    requires bs != []
    ensures Distinct(bs) ==> Distinct(bs[..|bs| - 1]) && !Listed(bs[..|bs| - 1], DigestOf(Last(bs)))
    ensures forall d :: Listed(bs, d) <==> Listed(bs[..|bs| - 1], d) || d == DigestOf(Last(bs))
  {
    assert bs == bs[..|bs| - 1] + [Last(bs)];
    ListedGrows(bs[..|bs| - 1], Last(bs));
  }

  /** The popped block must wait for the block it justifies. */
  lemma PopToWaiting(known: set<Digest>, arrived: set<Digest>, u: Buffer, place: map<Digest, Option<Digest>>)
    requires BufferOk(known, arrived, u, place) && u.pending != [] && Last(u.pending).justify.node !in known
    ensures var b := Last(u.pending);
      BufferOk(known, arrived, Buffer(Enqueue(u.waiting, b.justify.node, b), u.pending[..|u.pending| - 1]),
               place[DigestOf(b) := Some(b.justify.node)])
  {
    var b, front := Last(u.pending), u.pending[..|u.pending| - 1];
    var d := DigestOf(b);
    FrontOf(u.pending);
    var place0 := map x | x in place && x != d :: place[x];
    var u0 := Buffer(u.waiting, front);
    forall x ensures Placed(u0, place0, x) {
      assert Placed(u, place, x);
    }
    forall k | k in u0.waiting ensures QueueOk(known, u0.waiting[k], k, place0) {
      assert QueueOk(known, u.waiting[k], k, place);
    }
    assert BufferOk(known, arrived - {d}, u0, place0);
    EnqueueOk(known, arrived, u0, place0, b, b.justify.node);
    assert place0[d := Some(b.justify.node)] == place[d := Some(b.justify.node)];
  }

  /** The blocks waiting under `d`, if any. */
  function Waiters(waiting: map<Digest, seq<Proposal>>, d: Digest): seq<Proposal> {
    if d in waiting then waiting[d] else []
  }

  ghost function PlaceAfterStore(place: map<Digest, Option<Digest>>, d: Digest): map<Digest, Option<Digest>> {
    map x | x in place && x != d :: if place[x] == Some(d) then None else place[x]
  }

  lemma ListedConcat(a: seq<Proposal>, b: seq<Proposal>, d: Digest)
    ensures Listed(a + b, d) <==> Listed(a, d) || Listed(b, d)
  {
    if i :| 0 <= i < |a| && DigestOf(a[i]) == d {
      assert (a + b)[i] == a[i];
    }
    if i :| 0 <= i < |b| && DigestOf(b[i]) == d {
      assert (a + b)[|a| + i] == b[i];
    }
  }

  /** The popped block is stored, and what waited under it becomes pending. */
  lemma PopToStore(known: set<Digest>, arrived: set<Digest>, u: Buffer, place: map<Digest, Option<Digest>>)
    requires BufferOk(known, arrived, u, place) && u.pending != []
    ensures var d := DigestOf(Last(u.pending));
      && d in arrived - known && Last(u.pending).parent in known
      && BufferOk(known + {d}, arrived,
                  Buffer(u.waiting - {d}, u.pending[..|u.pending| - 1] + Waiters(u.waiting, d)),
                    PlaceAfterStore(place, d))
  {
    var b, front := Last(u.pending), u.pending[..|u.pending| - 1];
    var d := DigestOf(b);
    var others := Waiters(u.waiting, d);
    var known', place' := known + {d}, PlaceAfterStore(place, d);
    var u' := Buffer(u.waiting - {d}, front + others);
    FrontOf(u.pending);
    assert others != [] ==> QueueOk(known, others, d, place);
    PendingAfterStore(known, u, place);
    forall x ensures Placed(u', place', x) {
      assert Placed(u, place, x);
      ListedConcat(front, others, x);
    }
    forall k | k in u'.waiting ensures QueueOk(known', u'.waiting[k], k, place') {
      assert QueueOk(known, u.waiting[k], k, place);
    }
  }

  lemma PendingAfterStore(known: set<Digest>, u: Buffer, place: map<Digest, Option<Digest>>)
    requires u.pending != [] && PendingOk(known, u.pending, place)
    requires forall k :: k in u.waiting ==> QueueOk(known, u.waiting[k], k, place)
    ensures var d := DigestOf(Last(u.pending));
      PendingOk(known + {d}, u.pending[..|u.pending| - 1] + Waiters(u.waiting, d), PlaceAfterStore(place, d))
  {
    var d := DigestOf(Last(u.pending));
    var front, others := u.pending[..|u.pending| - 1], Waiters(u.waiting, d);
    var bs, place' := front + others, PlaceAfterStore(place, d);
    FrontOf(u.pending);
    assert others != [] ==> QueueOk(known, others, d, place);
    forall i | 0 <= i < |bs|
      ensures bs[i].parent in known + {d} && DigestOf(bs[i]) in place' && place'[DigestOf(bs[i])] == None
    {
      assert i < |front| ==> bs[i] == u.pending[i] && Listed(front, DigestOf(bs[i]));
    }
    assert Distinct(bs);
  }

  // ---- what the buffer achieves ----

  /** At rest the stored blocks are exactly those whose causal past has arrived. */
  ghost predicate Causal(known: set<Digest>, arrived: set<Digest>) {
    forall d :: d in known <==> Ready(arrived, d)
  }

  lemma {:induction false} KnownIsReady(known: set<Digest>, arrived: set<Digest>, d: Digest)
    requires Closed(known) && known <= arrived + {Genesis} && d in known
    ensures Ready(arrived, d)
    decreases d
  {
    assert LinksIn(known, d);
    if d.Hash? {
      KnownIsReady(known, arrived, d.block.parent);
      KnownIsReady(known, arrived, d.block.justify);
    }
  }

  /** A block still in the buffer lacks its parent or the block it justifies. */
  lemma BufferedLacks(known: set<Digest>, arrived: set<Digest>, u: Buffer, place: map<Digest, Option<Digest>>,
      d: Digest)
    requires BufferOk(known, arrived, u, place) && u.pending == [] && d in arrived && d !in known
    ensures Parent(d) !in known || Justify(d) !in known
  {
    assert Placed(u, place, d);
    var k := place[d].value;
    assert QueueOk(known, u.waiting[k], k, place);
  }

  lemma {:induction false} ReadyIsKnown(known: set<Digest>, arrived: set<Digest>, u: Buffer,
      place: map<Digest, Option<Digest>>, d: Digest)
    requires Closed(known) && BufferOk(known, arrived, u, place) && u.pending == [] && Ready(arrived, d)
    ensures d in known
    decreases d
  {
    if d.Hash? {
      ReadyIsKnown(known, arrived, u, place, d.block.parent);
      ReadyIsKnown(known, arrived, u, place, d.block.justify);
      if d !in known {
        BufferedLacks(known, arrived, u, place, d);
      }
    }
  }

  lemma RestIsCausal(known: set<Digest>, arrived: set<Digest>, u: Buffer, place: map<Digest, Option<Digest>>)
    requires Closed(known) && BufferOk(known, arrived, u, place) && u.pending == []
    ensures Causal(known, arrived)
  {
    forall d ensures d in known <==> Ready(arrived, d) {
      if d in known {
        KnownIsReady(known, arrived, d);
      }
      if Ready(arrived, d) {
        ReadyIsKnown(known, arrived, u, place, d);
      }
    }
  }

  lemma StoreKeepsClosed(known: set<Digest>, b: Proposal)
    requires Closed(known) && b.parent in known && b.justify.node in known
    ensures Closed(known + {DigestOf(b)})
  {
    forall d | d in known + {DigestOf(b)} ensures LinksIn(known + {DigestOf(b)}, d) {
      assert d in known ==> LinksIn(known, d);
    }
  }
}
