/**
 When blocks are finalized once: the execution pointer is set to the decided block
 whatever it was before (src/hotstuff/mod.rs:327-330), so on a tree with forks it may move
 back, and what lies above it is then finalized again. This says exactly when.
 */
module HotStuffExecution {
  import opened Commands
  import opened HotStuffTree
  import opened HotStuffChain
  import opened HotStuffCore
  import opened HotStuffStableLeader

  /** Everything from genesis to the execution pointer was finalized, once each and in order. */
  ghost predicate ExecutedOnce(s: Chain, finalized: seq<Digest>) {
    Rising(s.execute) && finalized == CommitPath(Genesis, s.execute)
  }

  lemma {:induction false} CommitPathSplits(e: Digest, t: Digest)
    requires Rising(t) && Ancestor(e, t)
    ensures CommitPath(Genesis, t) == CommitPath(Genesis, e) + CommitPath(e, t)
    decreases t
  {
    AncestorHeight(e, t);
    if t != e {
      AncestorHeight(e, t.block.parent);
      CommitPathSplits(e, t.block.parent);
    }
  }

  lemma AncestorOfSelf(d: Digest)
    ensures Ancestor(d, d)
  {
  }

  lemma PathLength(t: Digest)
    requires Rising(t)
    ensures |CommitPath(Genesis, t)| == Height(t)
  {
  }

  /**
   A block keeps the finalized list equal to the path up to the execution pointer if and
   only if it decides nothing, or nothing below the pointer. That what it decides lies on
   the same branch is safety.
   */
  lemma ExecutedOnceIff(s: Chain, finalized: seq<Digest>, b: Proposal)
    requires ExecutedOnce(s, finalized) && CanHandle(s, Received(b))
    requires ClosesThreeChain(DigestOf(b)) ==>
      Rising(Decides(DigestOf(b))) && Comparable(s.execute, Decides(DigestOf(b)))
    ensures ExecutedOnce(React(s, Received(b)), finalized + FinalizedBy(s, Received(b))) <==>
      (ClosesThreeChain(DigestOf(b)) ==> Height(Decides(DigestOf(b))) >= Height(s.execute))
  {
    var target := if ClosesThreeChain(DigestOf(b)) then Decides(DigestOf(b)) else s.execute;
    AncestorOfSelf(s.execute);
    PathLength(target);
    PathLength(s.execute);
    if Ancestor(s.execute, target) {
      CommitPathSplits(s.execute, target);
      AncestorHeight(s.execute, target);
    } else {
      AncestorHeight(target, s.execute);
    }
  }

  // ---- what a decision finalizes again ----

  /** With the pointer at `x`, a decision finalizes the ancestors of `t` above the height of `x`. */
  lemma {:induction false} InPathIff(x: Digest, t: Digest, b: Digest)
    requires Rising(t)
    ensures b in CommitPath(x, t) <==> Ancestor(b, t) && Height(x) < Height(b)
    decreases t
  {
    if Height(x) < Height(t) {
      InPathIff(x, t.block.parent, b);
    } else if Ancestor(b, t) {
      AncestorHeight(b, t);
    }
  }

  /** All blocks up to `e` are final and the pointer stands at `x`: which of them `t` finalizes again. */
  lemma {:induction false} MovedBackRepeats(e: Digest, x: Digest, t: Digest, b: Digest)
    requires Rising(e) && Rising(t) && Comparable(e, t) && Ancestor(b, e)
    ensures b in CommitPath(x, t) <==> Height(x) < Height(b) <= Height(t)
  {
    InPathIff(x, t, b);
    AncestorHeight(b, e);
    if Ancestor(b, t) {
      AncestorHeight(b, t);
    }
    if Height(b) <= Height(t) {
      LowIsBelow(e, t, b);
    }
  }

  /** On one branch, an ancestor of one block that is no higher than the other is its ancestor too. */
  lemma {:induction false} LowIsBelow(e: Digest, t: Digest, b: Digest)
    requires Rising(e) && Rising(t) && Comparable(e, t) && Ancestor(b, e) && Height(b) <= Height(t)
    ensures Ancestor(b, t)
  {
    if Ancestor(e, t) {
      AncestorTransitive(b, e, t);
    } else {
      AncestorsAreComparable(b, t, e);
      AncestorHeight(t, e);
      AncestorHeight(b, e);
      if Ancestor(t, b) {
        AncestorHeight(t, b);
      }
    }
  }

  lemma {:induction false} PathNoRepeats(x: Digest, t: Digest)
    requires Rising(t)
    ensures NoRepeats(CommitPath(x, t))
    decreases t
  {
    if Height(x) < Height(t) {
      PathNoRepeats(x, t.block.parent);
      var front := CommitPath(x, t.block.parent);
      forall i | 0 <= i < |front| ensures front[i] != t {
        InPathIff(x, t.block.parent, front[i]);
        AncestorHeight(front[i], t.block.parent);
      }
    }
  }

  lemma NoRepeatsConcat(a: seq<Digest>, b: seq<Digest>)
    requires NoRepeats(a) && NoRepeats(b)
    ensures NoRepeats(a + b) <==> forall d :: d in a ==> d !in b
  {
    if d :| d in a && d in b {
      var i :| 0 <= i < |a| && a[i] == d;
      var j :| 0 <= j < |b| && b[j] == d;
      assert (a + b)[i] == (a + b)[|a| + j];
    } else {
      forall i, j | 0 <= i < j < |a + b| ensures (a + b)[i] != (a + b)[j] {
        assert i < |a| ==> a[i] in a;
        assert j >= |a| ==> b[j - |a|] in b;
      }
    }
  }

  /** A decision finalizes nothing again: the pointer stands at the highest final block, or nothing is above it. */
  predicate Harmless(e: Digest, x: Digest, t: Digest) {
    x == e || Height(t) <= Height(x)
  }

  /**
   All blocks up to `e` are final, once each, and the pointer stands at `x`. Deciding `t`
   finalizes a block a second time exactly if the pointer had moved back and `t` is above it.
   */
  lemma RepeatsIff(e: Digest, x: Digest, t: Digest)
    requires Rising(e) && Rising(t) && Ancestor(x, e) && Comparable(e, t)
    ensures NoRepeats(CommitPath(Genesis, e) + CommitPath(x, t)) <==> Harmless(e, x, t)
  {
    var before, added := CommitPath(Genesis, e), CommitPath(x, t);
    PathNoRepeats(Genesis, e);
    PathNoRepeats(x, t);
    NoRepeatsConcat(before, added);
    AncestorHeight(x, e);
    forall d | d in before ensures Height(d) <= Height(e) && (d in added <==> Height(x) < Height(d) <= Height(t)) {
      InPathIff(Genesis, e, d);
      MovedBackRepeats(e, x, t, d);
      AncestorHeight(d, e);
    }
    if !Harmless(e, x, t) {
      var d := ChildTowards(x, e);
      InPathIff(Genesis, e, d);
      assert d in before && d in added;
    }
  }

  // ---- runs of decisions ----

  /** Where the execution pointer stands after these decisions. */
  function Pointer(ts: seq<Digest>): Digest {
    if ts == [] then Genesis else Last(ts)
  }

  /** The highest of these decisions. */
  function Peak(ts: seq<Digest>): Digest {
    if ts == [] then Genesis
    else if Height(Last(ts)) > Height(Peak(ts[..|ts| - 1])) then Last(ts)
    else Peak(ts[..|ts| - 1])
  }

  /** All blocks these decisions finalize, in order. */
  function Emitted(ts: seq<Digest>): seq<Digest> {
    if ts == [] then [] else Emitted(ts[..|ts| - 1]) + CommitPath(Pointer(ts[..|ts| - 1]), Last(ts))
  }

  /** The decision numbered `k` lies above a pointer that an earlier one had moved back. */
  predicate Rewinds(ts: seq<Digest>, k: nat)
    requires k < |ts|
  {
    !Harmless(Peak(ts[..k]), Pointer(ts[..k]), ts[k])
  }

  ghost predicate OneBranch(ts: seq<Digest>) {
    && (forall i :: 0 <= i < |ts| ==> Rising(ts[i]))
    && (forall i, j :: 0 <= i < |ts| && 0 <= j < |ts| ==> Comparable(ts[i], ts[j]))
  }

  lemma {:induction false} PeakIsHighest(ts: seq<Digest>)
    requires OneBranch(ts)
    ensures Peak(ts) == Genesis || Peak(ts) in ts
    ensures Rising(Peak(ts)) && Ancestor(Pointer(ts), Peak(ts))
    ensures forall i :: 0 <= i < |ts| ==> Comparable(Peak(ts), ts[i])
  {
    if ts != [] {
      var front := ts[..|ts| - 1];
      PeakIsHighest(front);
      var t := Last(ts);
      assert Comparable(t, t);
      forall i | 0 <= i < |ts| ensures Comparable(Peak(ts), ts[i]) {
        GenesisIsRoot(ts[i]);
        if Peak(ts) in ts {
          var j :| 0 <= j < |ts| && ts[j] == Peak(ts);
          assert Comparable(ts[j], ts[i]);
        }
      }
      assert Comparable(Peak(ts), ts[|ts| - 1]);
      if Ancestor(Peak(ts), t) {
        AncestorHeight(Peak(ts), t);
      }
    }
  }

  lemma RewindsFront(ts: seq<Digest>, k: nat)
    requires k < |ts| - 1
    ensures Rewinds(ts, k) <==> Rewinds(ts[..|ts| - 1], k)
  {
    assert ts[..|ts| - 1][..k] == ts[..k];
  }

  /**
   Any list of decisions on one branch finalizes every block at most once if and only if
   none of them lies above a pointer that had moved back.
   */
  lemma {:induction false} FinalizedOnceIff(ts: seq<Digest>)
    requires OneBranch(ts)
    ensures NoRepeats(Emitted(ts)) <==> forall k :: 0 <= k < |ts| ==> !Rewinds(ts, k)
    ensures NoRepeats(Emitted(ts)) ==> Emitted(ts) == CommitPath(Genesis, Peak(ts))
  {
    if ts != [] {
      var front, t := ts[..|ts| - 1], Last(ts);
      FinalizedOnceIff(front);
      PeakIsHighest(front);
      PeakIsHighest(ts);
      var e, x := Peak(front), Pointer(front);
      forall k | 0 <= k < |front| ensures Rewinds(ts, k) <==> Rewinds(front, k) {
        RewindsFront(ts, k);
      }
      assert ts[..|ts| - 1] == front;
      RepeatsStay(Emitted(front), CommitPath(x, t));
      PeakMeetsLast(ts);
      if NoRepeats(Emitted(front)) {
        RepeatsIff(e, x, t);
        NextPeak(e, x, t, Peak(ts));
      }
      assert Rewinds(ts, |front|) <==> !Harmless(e, x, t);
    }
  }

  lemma PeakMeetsLast(ts: seq<Digest>)
    requires OneBranch(ts) && ts != []
    ensures Comparable(Peak(ts[..|ts| - 1]), Last(ts))
  {
    var front := ts[..|ts| - 1];
    PeakIsHighest(front);
    GenesisIsRoot(Last(ts));
    if Peak(front) in front {
      var j :| 0 <= j < |front| && front[j] == Peak(front);
      assert Comparable(ts[j], ts[|ts| - 1]);
    }
  }

  lemma RepeatsStay(a: seq<Digest>, b: seq<Digest>)
    ensures NoRepeats(a + b) ==> NoRepeats(a)
  {
    assert forall i :: 0 <= i < |a| ==> (a + b)[i] == a[i];
  }

  /** A harmless decision leaves everything up to the higher of the two final. */
  lemma NextPeak(e: Digest, x: Digest, t: Digest, e': Digest)
    requires Rising(e) && Rising(t) && Ancestor(x, e) && Comparable(e, t)
    requires e' == if Height(t) > Height(e) then t else e
    ensures Harmless(e, x, t) ==> CommitPath(Genesis, e) + CommitPath(x, t) == CommitPath(Genesis, e')
  {
    AncestorHeight(x, e);
    if Ancestor(e, t) {
      AncestorHeight(e, t);
      CommitPathSplits(e, t);
    } else {
      AncestorHeight(t, e);
    }
  }

  // ---- runs of a core ----

  /** What the blocks among these events decide, in order. */
  function Decisions(es: seq<Event>): seq<Digest> {
    if es == [] then []
    else
      var front := Decisions(es[..|es| - 1]);
      match BlockOf(Last(es))
      case Some(b) => if ClosesThreeChain(DigestOf(b)) then front + [Decides(DigestOf(b))] else front
      case None => front
  }

  /** A core finalizes what its decisions emit, and its pointer stands at the last of them. */
  lemma {:induction false} DecisionsEmit(start: Core, es: seq<Event>)
    requires start == HotStuffCore.Init(start.id, start.maxBatchSize, start.pool.OpenLoop?)
    requires HandleAll(start, es).Some?
    ensures HandleAll(start, es).value.0.chain.execute == Pointer(Decisions(es))
    ensures Finalized(HandleAll(start, es).value.1) == Emitted(Decisions(es))
  {
    hide Handle, Configured, CanHandle, Accepts;
    if es != [] {
      var front, e := es[..|es| - 1], Last(es);
      DecisionsEmit(start, front);
      var r := HandleAll(start, front).value;
      HandleEmits(r.0, e);
      FinalizedConcat(r.1, Handle(r.0, e).1);
      PointerMoves(r.0.chain, e);
      DecisionsSnoc(es);
    }
  }

  lemma DecisionsSnoc(es: seq<Event>)
    requires es != []
    ensures var front := Decisions(es[..|es| - 1]); var b := BlockOf(Last(es));
      var t := if b.Some? && ClosesThreeChain(DigestOf(b.value)) then [Decides(DigestOf(b.value))] else [];
      && Decisions(es) == front + t
      && (t != [] ==>
           Emitted(Decisions(es)) == Emitted(front) + CommitPath(Pointer(front), t[0])
           && Pointer(Decisions(es)) == t[0])
  {
    var front := Decisions(es[..|es| - 1]);
    var b := BlockOf(Last(es));
    if b.Some? && ClosesThreeChain(DigestOf(b.value)) {
      assert (front + [Decides(DigestOf(b.value))])[..|front|] == front;
    }
  }

  lemma PointerMoves(s: Chain, e: Event)
    requires CanHandle(s, e)
    ensures var b := BlockOf(e);
      React(s, e).execute == if b.Some? && ClosesThreeChain(DigestOf(b.value)) then Decides(DigestOf(b.value))
        else s.execute
  {
  }

  /**
   Exactly when a replica finalizes a block twice, over any events: some block decides
   above a pointer that an earlier block had moved back. That all decisions lie on one
   branch is safety.
   */
  lemma RunFinalizesOnceIff(start: Core, es: seq<Event>)
    requires start == HotStuffCore.Init(start.id, start.maxBatchSize, start.pool.OpenLoop?)
    requires HandleAll(start, es).Some?
    requires OneBranch(Decisions(es))
    ensures NoRepeats(Finalized(HandleAll(start, es).value.1)) <==>
      forall k :: 0 <= k < |Decisions(es)| ==> !Rewinds(Decisions(es), k)
  {
    DecisionsEmit(start, es);
    FinalizedOnceIff(Decisions(es));
  }

  /** The block right above `x` on the way to `e`. */
  lemma {:induction false} ChildTowards(x: Digest, e: Digest) returns (d: Digest)
    requires Rising(e) && Ancestor(x, e) && x != e
    ensures Ancestor(d, e) && Height(d) == Height(x) + 1 && d.Hash?
    decreases e
  {
    if e.block.parent == x {
      d := e;
    } else {
      d := ChildTowards(x, e.block.parent);
    }
  }

  /**
   It happens with well-formed blocks: a second block on the grandparent of the last one
   moves the pointer back, and the next block of the line finalizes two blocks, the
   first of them for the second time.
   */
  lemma ForkRepeats(s: Chain, tip: Digest, fork: Proposal, next: Proposal)
    requires BackupForm(s, tip) && Height(tip) >= 5
    requires fork.parent == fork.justify.node == Parent(Parent(tip)) && fork.height == Height(fork.parent) + 1
    requires DigestOf(fork) !in s.known
    requires Straight(DigestOf(next)) && next.parent == tip
    ensures WellFormed(DigestOf(fork)) && WellFormed(DigestOf(next))
    ensures CanHandle(s, Received(fork)) && FinalizedBy(s, Received(fork)) == []
    ensures var s' := React(s, Received(fork));
      && CanHandle(s', Received(next))
      && FinalizedBy(s', Received(next)) == [Parent3(tip), Parent(Parent(tip))]
    ensures Parent3(tip) in Line(Parent3(tip))
  {
    StraightTriple(tip);
    StraightTriple(Parent3(tip));
    StraightTriple(DigestOf(next));
    StraightRises(tip);
    ForkStores(s, tip, fork);
    NextAfterFork(s, tip, fork, next);
  }

  lemma PastHas(tip: Digest)
    ensures tip in Past(tip) && Parent(tip) in Past(tip) && Parent(Parent(tip)) in Past(Parent(tip))
    ensures Parent(Parent(tip)) in Past(tip)
  {
  }

  /** The forking block is stored without a vote, and only moves the execution pointer. */
  lemma ForkStores(s: Chain, tip: Digest, fork: Proposal)
    requires BackupForm(s, tip) && Height(tip) >= 5 && Rising(tip)
    requires fork.parent == fork.justify.node == Parent(Parent(tip)) && fork.height == Height(fork.parent) + 1
    requires DigestOf(fork) !in s.known
    ensures WellFormed(DigestOf(fork))
    ensures CanHandle(s, Received(fork)) && FinalizedBy(s, Received(fork)) == []
    ensures React(s, Received(fork)) == s.(known := s.known + {DigestOf(fork)}, execute := Parent(Parent3(tip)))
  {
    var d := DigestOf(fork);
    PastHas(tip);
    StraightTriple(tip);
    StraightTriple(Parent(Parent(tip)));
    assert Height(Parent(tip)) == Height(tip) - 1 && Height(Parent(Parent(tip))) == Height(tip) - 2;
    assert Height(Parent3(tip)) == Height(tip) - 3 && Height(Parent(Parent3(tip))) == Height(tip) - 4;
    assert Decides(d) == Parent(Parent3(tip)) && ClosesThreeChain(d);
    assert !ShouldVote(Ingest(s, fork), d);
  }

  lemma NextAfterFork(s: Chain, tip: Digest, fork: Proposal, next: Proposal)
    requires BackupForm(s, tip) && Height(tip) >= 5 && Rising(tip)
    requires fork.parent == Parent(Parent(tip))
    requires Straight(DigestOf(next)) && next.parent == tip
    ensures var s' := s.(known := s.known + {DigestOf(fork)}, execute := Parent(Parent3(tip)));
      CanHandle(s', Received(next)) && FinalizedBy(s', Received(next)) == [Parent3(tip), Parent(Parent(tip))]
  {
    NextBlock(s, tip, next);
    StraightTriple(tip);
    StraightTriple(DigestOf(next));
    assert Height(Parent3(tip)) == Height(tip) - 3 && Height(Parent(Parent3(tip))) == Height(tip) - 4;
    var e, target := Parent(Parent3(tip)), Parent(Parent(tip));
    assert CommitPath(e, target) == CommitPath(e, Parent3(tip)) + [target];
    assert CommitPath(e, Parent3(tip)) == CommitPath(e, e) + [Parent3(tip)];
    assert CommitPath(e, e) == [];
  }
}
