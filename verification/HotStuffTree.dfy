/**
 The HotStuff block tree, named by digests.

 A digest is a free constructor over what it covers (src/hotstuff/message.rs:60-67):
 parent, commands, justified block and height. So equal digests mean equal blocks,
 and the whole past of a block can be read off its digest. The genesis block is its
 own parent and its own justification (src/hotstuff/mod.rs:135-149).
 */
module HotStuffTree {
  import opened Commands

  datatype Digest = Genesis | Hash(block: Block)
  datatype Block = Block(parent: Digest, commands: seq<Command>, justify: Digest, height: nat)

  function Parent(d: Digest): Digest { if d.Genesis? then Genesis else d.block.parent }

  function Justify(d: Digest): Digest { if d.Genesis? then Genesis else d.block.justify }

  function Height(d: Digest): nat { if d.Genesis? then 0 else d.block.height }

  function CommandsOf(d: Digest): seq<Command> { if d.Genesis? then [] else d.block.commands }

  /** `a` lies on the parent chain of `d`, ends included. */
  ghost predicate Ancestor(a: Digest, d: Digest)
    decreases d
  {
    a == d || (d.Hash? && Ancestor(a, d.block.parent))
  }

  ghost predicate Comparable(a: Digest, b: Digest) {
    Ancestor(a, b) || Ancestor(b, a)
  }

  /** Along the whole parent chain the height grows by one per edge. */
  ghost predicate Rising(d: Digest)
    decreases d
  {
    d.Hash? ==> d.block.height == Height(d.block.parent) + 1 && Rising(d.block.parent)
  }

  /** What safety asks of a proposed block, and the code does not check: see HotStuffCounterexamples. */
  ghost predicate WellFormed(d: Digest) {
    d.Hash? ==>
      && d.block.height == Height(d.block.parent) + 1
      && Ancestor(d.block.justify, d.block.parent)
  }

  lemma {:induction false} GenesisIsRoot(d: Digest)
    ensures Ancestor(Genesis, d)
    decreases d
  {
    if d.Hash? {
      GenesisIsRoot(d.block.parent);
    }
  }

  lemma {:induction false} AncestorTransitive(a: Digest, b: Digest, c: Digest)
    requires Ancestor(a, b) && Ancestor(b, c)
    ensures Ancestor(a, c)
    decreases c
  {
    if b != c {
      AncestorTransitive(a, b, c.block.parent);
    }
  }

  /** Two ancestors of one block lie on one chain. */
  lemma {:induction false} AncestorsAreComparable(a: Digest, b: Digest, d: Digest)
    requires Ancestor(a, d) && Ancestor(b, d)
    ensures Comparable(a, b)
    decreases d
  {
    if a != d && b != d {
      AncestorsAreComparable(a, b, d.block.parent);
    }
  }

  lemma {:induction false} AncestorHeight(a: Digest, d: Digest)
    requires Rising(d) && Ancestor(a, d)
    ensures Rising(a)
    ensures Height(a) <= Height(d)
    ensures Height(a) == Height(d) ==> a == d
    decreases d
  {
    if a != d {
      AncestorHeight(a, d.block.parent);
    }
  }

  /** The walk of src/hotstuff/mod.rs:309-317. It stops on every tree: genesis has the least height. */
  predicate Extends(d: Digest, other: Digest)
    decreases d
  {
    if d == other then true
    else if Height(d) <= Height(other) then false
    else Extends(d.block.parent, other)
  }

  /** On any tree a positive answer is right; when heights rise along `d` the negative one is too. */
  lemma {:induction false} ExtendsIsAncestor(d: Digest, other: Digest)
    ensures Extends(d, other) ==> Ancestor(other, d)
    ensures Rising(d) ==> (Extends(d, other) <==> Ancestor(other, d))
    decreases d
  {
    if d != other {
      if Height(d) > Height(other) {
        ExtendsIsAncestor(d.block.parent, other);
      } else if Rising(d) && Ancestor(other, d) {
        AncestorHeight(other, d);
      }
    }
  }

  /** The blocks `on_commit` finalizes, in order, when execution stands at `exec` (src/hotstuff/mod.rs:333-341). */
  function CommitPath(exec: Digest, target: Digest): seq<Digest>
    decreases target
  {
    if Height(exec) < Height(target) then CommitPath(exec, target.block.parent) + [target] else []
  }

  /** `path` leads from `exec` (excluded) to `target` (included), one parent edge at a time. */
  ghost predicate IsPath(exec: Digest, path: seq<Digest>, target: Digest) {
    && (if path == [] then exec == target else Last(path) == target)
    && forall i :: 0 <= i < |path| ==> path[i].Hash? && path[i].block.parent == Before(exec, path, i)
  }

  function Before(exec: Digest, path: seq<Digest>, i: nat): Digest
    requires i < |path|
  {
    if i == 0 then exec else path[i - 1]
  }

  lemma PathFront(exec: Digest, path: seq<Digest>, target: Digest)
    requires IsPath(exec, path, target) && path != []
    ensures target.Hash? && IsPath(exec, path[..|path| - 1], target.block.parent)
    ensures path == path[..|path| - 1] + [target]
  {
    var front := path[..|path| - 1];
    assert target == path[|path| - 1] && target.block.parent == Before(exec, path, |path| - 1);
    forall i | 0 <= i < |front| ensures front[i].Hash? && front[i].block.parent == Before(exec, front, i) {
      assert front[i] == path[i] && Before(exec, front, i) == Before(exec, path, i);
    }
  }

  lemma PathSnoc(exec: Digest, path: seq<Digest>, target: Digest)
    requires target.Hash? && IsPath(exec, path, target.block.parent)
    ensures IsPath(exec, path + [target], target)
  {
    var p := path + [target];
    forall i | 0 <= i < |p| ensures p[i].Hash? && p[i].block.parent == Before(exec, p, i) {
      if i < |path| {
        assert p[i] == path[i] && Before(exec, p, i) == Before(exec, path, i);
      }
    }
  }

  lemma {:induction false} CommitPathIsPath(exec: Digest, target: Digest)
    requires Rising(target) && Ancestor(exec, target)
    ensures IsPath(exec, CommitPath(exec, target), target)
    ensures |CommitPath(exec, target)| == Height(target) - Height(exec)
    decreases target
  {
    AncestorHeight(exec, target);
    if exec != target {
      CommitPathIsPath(exec, target.block.parent);
      PathSnoc(exec, CommitPath(exec, target.block.parent), target);
    }
  }

  /** The path between two blocks is unique: no other list of blocks could be finalized. */
  lemma {:induction false} PathIsUnique(exec: Digest, p: seq<Digest>, q: seq<Digest>, target: Digest)
    requires Rising(target) && IsPath(exec, p, target) && IsPath(exec, q, target)
    ensures p == q
    decreases |p| + |q|
  {
    if p != [] && q != [] {
      var pf, qf := p[..|p| - 1], q[..|q| - 1];
      PathFront(exec, p, target);
      PathFront(exec, q, target);
      PathIsUnique(exec, pf, qf, target.block.parent);
    } else if p != [] || q != [] {
      var r := if p != [] then p else q;
      PathRises(exec, r, target);
    }
  }

  lemma {:induction false} PathRises(exec: Digest, p: seq<Digest>, target: Digest)
    requires Rising(target) && IsPath(exec, p, target)
    ensures Ancestor(exec, target) && Height(target) == Height(exec) + |p|
    decreases |p|
  {
    if p != [] {
      PathFront(exec, p, target);
      PathRises(exec, p[..|p| - 1], target.block.parent);
    }
  }

  /** Without any assumption on heights, everything finalized on the way to `target` is an ancestor of it. */
  lemma {:induction false} CommitPathIsBelow(exec: Digest, target: Digest, d: Digest)
    requires d in CommitPath(exec, target)
    ensures Ancestor(d, target) && d.Hash?
    decreases target
  {
    if d != target {
      CommitPathIsBelow(exec, target.block.parent, d);
    }
  }

  ghost predicate NoRepeats(path: seq<Digest>) {
    forall i, j :: 0 <= i < j < |path| ==> path[i] != path[j]
  }
}
