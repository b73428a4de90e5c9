/**
 All PBFT replicas of one view together, with a network that may lose, repeat and
 reorder messages, and up to f Byzantine replicas, the primary possibly among them.
 */
module PbftSystem {
  import opened Commands
  import opened PbftCore
  import opened PbftNode
  import opened PbftInvariant
  import opened PbftOutcome
  import Quorums

  datatype World = World(cfg: Quorums.Config, viewNum: nat, settings: map<ReplicaId, Setting>)

  ghost predicate SettingOk(w: World, i: ReplicaId) {
    i in w.settings ==>
      var c := w.settings[i];
      c.id == i && c.n == w.cfg.n && c.f == w.cfg.f && c.viewNum == w.viewNum
  }

  ghost predicate WorldOk(w: World) {
    && Quorums.Valid(w.cfg)
    && w.settings.Keys == Quorums.Honest(w.cfg)
    && forall i {:trigger SettingOk(w, i)} :: SettingOk(w, i)
  }

  /** An honest replica: its node, what it has executed, and what it had proposed at the last tick. */
  datatype Member = Member(node: Node, log: seq<seq<Command>>, ticked: nat)

  /** `sent` is every message an honest replica ever sent. */
  datatype System = System(members: map<ReplicaId, Member>, sent: set<Message>)

  ghost predicate Starts(w: World, s: System) {
    && s.members.Keys == w.settings.Keys
    && s.sent == {}
    && forall i :: i in s.members ==> s.members[i] == Member(PbftNode.Init(), [], 0)
  }

  /** A vote whose signature checks: its sender is Byzantine, or sent it, as a Prepare or as a Commit. */
  ghost predicate Signed(w: World, s: System, v: Vote) {
    v.replica in w.cfg.byzantine || PrepareVote(v) in s.sent || CommitVote(v) in s.sent
  }

  /** The primary's signature covers the number and the digest, not the commands. */
  ghost predicate Proposed(w: World, s: System, viewNum: nat, k: nat, digest: Digest)
    requires w.cfg.n > 0
  {
    viewNum % w.cfg.n in w.cfg.byzantine || exists commands :: PrePrepare(viewNum, k, digest, commands) in s.sent
  }

  /** What the network can hand over: anything, but signatures cannot be forged. */
  ghost predicate Deliverable(w: World, s: System, a: Arrival)
    requires w.cfg.n > 0
  {
    match a.message
    case Request(_) => true
    case PrePrepare(viewNum, k, digest, _) => a.verified ==> Proposed(w, s, viewNum, k, digest)
    case PrepareVote(v) => v.replica < w.cfg.n && (a.verified ==> Signed(w, s, v))
    case CommitVote(v) => v.replica < w.cfg.n && (a.verified ==> Signed(w, s, v))
  }

  function MessagesOf(outputs: seq<Output>): set<Message> {
    set o | o in outputs && MessageOf(o).Some? :: MessageOf(o).value
  }

  ghost predicate ReceiveStep(w: World, s: System, s': System, i: ReplicaId, a: Arrival)
    requires WorldOk(w)
  {
    && i in s.members && i in w.settings && Sound(w.settings[i])
    && Deliverable(w, s, a)
    && var r := Receive(w.settings[i], s.members[i].node, a.message, a.verified);
       && r.Done?
       && s' == System(s.members[i := s.members[i].(node := r.node, log := s.members[i].log + Executed(r.outputs))],
                       s.sent + MessagesOf(r.outputs))
  }

  ghost predicate TickStep(w: World, s: System, s': System, i: ReplicaId)
    requires WorldOk(w)
  {
    && i in s.members && i in w.settings && Sound(w.settings[i])
    && var m := s.members[i];
       var r := Tick(w.settings[i], m.node.core, m.ticked);
       && r.Some?
       && s' == System(s.members[i := m.(ticked := m.node.core.proposeNum)], s.sent + MessagesOf(r.value))
  }

  ghost predicate Next(w: World, s: System, s': System)
    requires WorldOk(w)
  {
    (exists i, a :: ReceiveStep(w, s, s', i, a)) || (exists i :: TickStep(w, s, s', i))
  }

  ghost predicate StepAt(w: World, run: seq<System>, k: int)
    requires WorldOk(w) && 0 <= k < |run| - 1
  {
    Next(w, run[k], run[k + 1])
  }

  ghost predicate IsRun(w: World, run: seq<System>)
    requires WorldOk(w)
  {
    && run != []
    && Starts(w, run[0])
    && forall k {:trigger StepAt(w, run, k)} :: 0 <= k < |run| - 1 ==> StepAt(w, run, k)
  }
}
