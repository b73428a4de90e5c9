/** The service in front of a replica: it executes finalized commands and answers clients. */
module PbftService {
  import opened Commands
  import opened Executions

  type ReplicaId = nat

  type Result = seq<Byte>

  datatype Reply = Reply(num: ClientSeq, result: Result, replica: ReplicaId, viewNum: nat)

  /** What to do with a request: nothing, answer it again, or hand it to the replica. */
  datatype Response = Stale | Again(reply: Reply) | Hand

  function ReplyTo(c: Command, replica: ReplicaId, viewNum: nat): (ClientId, Reply) {
    (c.client, Reply(c.num, [], replica, viewNum))
  }

  function Numbers(replies: map<ClientId, Reply>): map<ClientId, ClientSeq> {
    map k | k in replies :: replies[k].num
  }

  /** The replies sent so far: one for each executed command, in order. */
  ghost predicate Answers(sent: seq<(ClientId, Reply)>, executed: seq<Command>, replica: ReplicaId) {
    && |sent| == |executed|
    && forall i :: 0 <= i < |sent| ==> sent[i] == ReplyTo(executed[i], replica, sent[i].1.viewNum)
  }

  /** What is remembered for a client was sent to it. */
  ghost predicate Remembered(replies: map<ClientId, Reply>, sent: seq<(ClientId, Reply)>) {
    forall k :: k in replies ==> (k, replies[k]) in sent
  }

  lemma AnswerOneMore(sent: seq<(ClientId, Reply)>, executed: seq<Command>, replica: ReplicaId, c: Command,
      viewNum: nat,
                      replies: map<ClientId, Reply>)
    requires Answers(sent, executed, replica) && Remembered(replies, sent)
    ensures var reply := ReplyTo(c, replica, viewNum);
      Answers(sent + [reply], executed + [c], replica) && Remembered(replies[c.client := reply.1], sent + [reply])
  {
    var reply := ReplyTo(c, replica, viewNum);
    assert (sent + [reply])[|sent|] == reply;
  }

  class Service {
    const replicaId: ReplicaId
    var replies: map<ClientId, Reply>
    ghost var log: seq<Command>
    ghost var sent: seq<(ClientId, Reply)>

    ghost predicate Valid()
      reads this
    {
      Tracks(log, Numbers(replies)) && Answers(sent, Executed(log), replicaId) && Remembered(replies, sent)
    }

    constructor (replicaId: ReplicaId)
      ensures Valid() && log == [] && sent == [] && this.replicaId == replicaId
    {
      this.replicaId := replicaId;
      replies, log, sent := map[], [], [];
    }

    /** src/pbft/transport.rs:186-198: a reply if the command is executed. */
    method Answer(command: Command, viewNum: nat) returns (r: Option<(ClientId, Reply)>)
      requires Valid()
      modifies this
      ensures Valid() && log == old(log) + [command]
      ensures Executed(log) == Executed(old(log)) + if r.Some? then [command] else []
      ensures r.Some? ==> r.value == ReplyTo(command, replicaId, viewNum)
      ensures sent == old(sent) + if r.Some? then [r.value] else []
    {
      hide Tracks, Newest, Executed, Answers, Remembered;
      ghost var before := replies;
      TracksNewest(log, Numbers(replies), command);
      TracksOn(log, Numbers(replies), command);
      ExecutedSnoc(log, command);
      log := log + [command];
      if command.client in replies && replies[command.client].num >= command.num {
        assert Executed(old(log)) + [] == Executed(old(log)) && sent + [] == sent;
        return None;
      }
      AnswerOneMore(sent, Executed(old(log)), replicaId, command, viewNum, replies);
      var reply := Reply(command.num, [], replicaId, viewNum);
      replies := replies[command.client := reply];
      assert Numbers(replies) == Numbers(before)[command.client := command.num];
      sent := sent + [(command.client, reply)];
      return Some((command.client, reply));
    }

    /** src/pbft/transport.rs:180-200: one reply for each command that is executed, in order. */
    method OnFinalized(commands: seq<Command>, viewNum: nat) returns (out: seq<(ClientId, Reply)>)
      requires Valid()
      modifies this
      ensures Valid() && log == old(log) + commands
      ensures |Executed(log)| == |Executed(old(log))| + |out| && Executed(old(log)) <= Executed(log)
      ensures forall i :: 0 <= i < |out| ==>
        var c := Executed(log)[|Executed(old(log))| + i];
        out[i] == (c.client, Reply(c.num, [], replicaId, viewNum))
      ensures sent == old(sent) + out
    {
      hide Tracks, Executed, Answers, Remembered;
      out := [];
      for i := 0 to |commands|
        invariant Valid() && log == old(log) + commands[..i] && sent == old(sent) + out
        invariant |Executed(log)| == |Executed(old(log))| + |out| && Executed(old(log)) <= Executed(log)
        invariant forall j :: 0 <= j < |out| ==> out[j] == ReplyTo(Executed(log)[|Executed(old(log))| + j],
          replicaId, viewNum)
      {
        assert commands[..i + 1] == commands[..i] + [commands[i]];
        var answer := Answer(commands[i], viewNum);
        if answer.Some? {
          out := out + [answer.value];
        }
      }
      assert commands[..|commands|] == commands;
    }

    /**
     src/transport.rs:221-240: a request is handed on exactly if its number is above all
     finalized ones of its client, and answered again exactly if it is the highest of them.
     */
    method OnRequest(command: Command) returns (r: Response)
      requires Valid()
      ensures r.Hand? <==> Newest(log + [command], |log|)
      ensures r.Again? <==> IsHighest(log, command)
      ensures r.Again? ==> (command.client, r.reply) in sent && r.reply.num == command.num
    {
      TracksNewest(log, Numbers(replies), command);
      TracksHighest(log, Numbers(replies), command);
      if command.client in replies && replies[command.client].num > command.num {
        return Stale;
      }
      if command.client in replies && replies[command.client].num == command.num {
        assert command.client in Numbers(replies);
        return Again(replies[command.client]);
      }
      return Hand;
    }
  }
}
