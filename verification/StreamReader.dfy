/** The buffer loop that takes messages out of a connection (`read_task`, src/transport/tcp.rs:22-58). */
module StreamReader {
  import opened Commands
  import opened StreamFraming

  datatype Status = Reading | Closed | Failed

  const CAPACITY: nat := 0x1_0000

  class Reader<M> {
    const decode: Decoder<M>
    const decodeBytes: array<Byte>
    var bytesLen: nat
    ghost var stream: seq<Byte>
    ghost var sent: seq<M>

    ghost function Kept(): seq<Byte>
      requires bytesLen <= decodeBytes.Length
      reads this, decodeBytes
    {
      decodeBytes[..bytesLen]
    }

    /** What was sent on and what is kept are what the whole stream so far decodes to. */
    ghost predicate Valid()
      reads this, decodeBytes
    {
      && Stable(decode)
      && bytesLen <= decodeBytes.Length == CAPACITY
      && Frames(decode, stream) == Framing(sent, Kept(), false)
    }

    constructor (decode: Decoder<M>)
      requires Stable(decode)
      ensures Valid() && fresh(decodeBytes) && stream == [] && sent == [] && this.decode == decode
    {
      this.decode := decode;
      decodeBytes := new Byte[CAPACITY](_ => 0);
      bytesLen, stream, sent := 0, [], [];
    }

    /** Moves the bytes `lo..hi` to the front. */
    method CopyWithin(lo: nat, hi: nat)
      requires lo <= hi <= decodeBytes.Length
      modifies decodeBytes
      ensures decodeBytes[..hi - lo] == old(decodeBytes[lo..hi])
    {
      for i := 0 to hi - lo
        invariant forall j :: 0 <= j < i ==> decodeBytes[j] == old(decodeBytes[lo + j])
        invariant forall j :: i <= j < decodeBytes.Length ==> decodeBytes[j] == old(decodeBytes[j])
      {
        decodeBytes[i] := decodeBytes[lo + i];
      }
    }

    /** The bytes that one read puts behind those kept. */
    method Append(chunk: seq<Byte>)
      requires bytesLen + |chunk| <= decodeBytes.Length
      modifies this`bytesLen, decodeBytes
      ensures bytesLen == old(bytesLen) + |chunk| <= decodeBytes.Length
      ensures Kept() == old(Kept()) + chunk
    {
      for i := 0 to |chunk|
        invariant bytesLen == old(bytesLen)
        invariant forall j :: 0 <= j < bytesLen ==> decodeBytes[j] == old(decodeBytes[j])
        invariant forall j :: 0 <= j < i ==> decodeBytes[bytesLen + j] == chunk[j]
      {
        decodeBytes[bytesLen + i] := chunk[i];
      }
      bytesLen := bytesLen + |chunk|;
    }

    /** Takes all whole messages out of the buffer; `offset` is where the bytes to keep begin. */
    method TakeMessages() returns (messages: seq<M>, offset: nat, malformed: bool)
      requires Stable(decode) && bytesLen <= decodeBytes.Length
      ensures offset <= bytesLen
      ensures Frames(decode, Kept()) == Framing(messages, decodeBytes[offset..bytesLen], malformed)
    {
      messages, offset := [], 0;
      assert decodeBytes[0..bytesLen] == Kept();
      assert [] + Frames(decode, Kept()).messages == Frames(decode, Kept()).messages;
      while offset < bytesLen
        invariant offset <= bytesLen
        invariant var later := Frames(decode, decodeBytes[offset..bytesLen]);
          Frames(decode, Kept()) == later.(messages := messages + later.messages)
        decreases bytesLen - offset
      {
        ghost var here := decodeBytes[offset..bytesLen];
        assert StableAt(decode, here, []);
        match decode(decodeBytes[offset..bytesLen])
        case Message(m, n) =>
          ghost var later := Frames(decode, here[n..]);
          assert messages + ([m] + later.messages) == messages + [m] + later.messages;
          assert decodeBytes[offset + n..bytesLen] == here[n..];
          messages := messages + [m];
          offset := offset + n;
        case Partial =>
          return messages, offset, false;
        case Malformed =>
          return messages, offset, true;
      }
      return messages, offset, false;
    }

    /**
     One turn of the outer loop, with what the read returned. At most as many bytes
     come as there is room for, and none when there is no room.
     */
    method Feed(chunk: seq<Byte>) returns (status: Status, messages: seq<M>)
      requires Valid() && |chunk| <= CAPACITY - bytesLen
      modifies this, decodeBytes
      ensures status.Closed? <==> chunk == []
      ensures status.Closed? ==> Valid() && stream == old(stream) && messages == []
      ensures !status.Closed? ==> stream == old(stream) + chunk
      ensures sent == old(sent) + messages
      ensures status.Reading? ==> Valid()
      ensures status.Failed? <==> Frames(decode, stream).malformed
      ensures status.Failed? ==> Frames(decode, stream).messages == sent
    {
      if |chunk| == 0 {
        return Closed, [];
      }
      FramesConcat(decode, stream, chunk);
      Append(chunk);
      stream := stream + chunk;
      var offset, malformed;
      messages, offset, malformed := TakeMessages();
      sent := sent + messages;
      if malformed {
        return Failed, messages;
      }
      CopyWithin(offset, bytesLen);
      bytesLen := bytesLen - offset;
      return Reading, messages;
    }
  }

  /** With messages that fit, there is room for the next read, so a connection is never taken for closed. */
  lemma NeverFull<M>(r: Reader<M>)
    requires r.Valid() && Fits(r.decode, CAPACITY)
    ensures r.bytesLen < CAPACITY
  {
  }
}
