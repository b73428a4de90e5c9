/**
 Messages in a byte stream: what a stream decodes to from its start, whatever pieces it
 arrives in.

 The decoder is a parameter. `Stable` is what is asked of it: it takes at least one byte
 for a message, and what it says about some bytes it also says when more follow.
 */
module StreamFraming {
  import opened Commands

  datatype Decoded<+M> = Message(message: M, length: nat) | Partial | Malformed

  type Decoder<!M> = seq<Byte> -> Decoded<M>

  ghost predicate StableAt<M>(decode: Decoder<M>, bytes: seq<Byte>, more: seq<Byte>) {
    && (decode(bytes).Message? ==> 1 <= decode(bytes).length <= |bytes| && decode(bytes + more) == decode(bytes))
    && (decode(bytes).Malformed? ==> decode(bytes + more).Malformed?)
  }

  ghost predicate Stable<M>(decode: Decoder<M>) {
    forall bytes, more {:trigger StableAt(decode, bytes, more)} :: StableAt(decode, bytes, more)
  }

  /** The messages of a stream, the bytes after them, and whether those bytes are no message at all. */
  datatype Framing<+M> = Framing(messages: seq<M>, rest: seq<Byte>, malformed: bool)

  ghost function Frames<M>(decode: Decoder<M>, stream: seq<Byte>): (r: Framing<M>)
    requires Stable(decode)
    ensures |r.rest| <= |stream|
    ensures !r.malformed && r.rest != [] ==> decode(r.rest).Partial?
    decreases |stream|
  {
    assert StableAt(decode, stream, []);
    if stream == [] then Framing([], [], false)
    else
      match decode(stream)
      case Partial => Framing([], stream, false)
      case Malformed => Framing([], stream, true)
      case Message(m, n) =>
        var later := Frames(decode, stream[n..]);
        later.(messages := [m] + later.messages)
  }

  /** Decoding can stop after any piece and go on from the bytes it kept. */
  lemma {:induction false} FramesConcat<M>(decode: Decoder<M>, a: seq<Byte>, b: seq<Byte>)
    requires Stable(decode)
    ensures var first := Frames(decode, a); var whole := Frames(decode, a + b);
      if first.malformed then whole.malformed && whole.messages == first.messages
      else
        var following := Frames(decode, first.rest + b);
        whole == following.(messages := first.messages + following.messages)
    decreases |a|
  {
    assert StableAt(decode, a, b) && StableAt(decode, a, []);
    if a == [] {
      assert a + b == b;
      assert [] + Frames(decode, b).messages == Frames(decode, b).messages;
    } else {
      match decode(a)
      case Partial => assert [] + Frames(decode, a + b).messages == Frames(decode, a + b).messages;
      case Malformed =>
      case Message(m, n) =>
        assert (a + b)[n..] == a[n..] + b;
        FramesConcat(decode, a[n..], b);
        var first, whole := Frames(decode, a[n..]), Frames(decode, a[n..] + b);
        if !first.malformed {
          var following := Frames(decode, first.rest + b);
          assert [m] + (first.messages + following.messages) == ([m] + first.messages) + following.messages;
        }
    }
  }

  function Concat(pieces: seq<seq<Byte>>): seq<Byte> {
    if pieces == [] then [] else pieces[0] + Concat(pieces[1..])
  }

  ghost predicate PieceAt<M>(decode: Decoder<M>, pieces: seq<seq<Byte>>, f: Framing<M>, i: nat)
    requires i < |pieces| == |f.messages|
  {
    pieces[i] != [] && decode(Concat(pieces[i..]) + f.rest) == Message(f.messages[i], |pieces[i]|)
  }

  /**
   The stream is these pieces and a rest. Each piece is what the decoder takes for one
   message from there on, and the rest is empty, or the beginning of a message, or malformed.
   */
  ghost predicate IsSplit<M>(decode: Decoder<M>, stream: seq<Byte>, pieces: seq<seq<Byte>>, f: Framing<M>) {
    && stream == Concat(pieces) + f.rest && |pieces| == |f.messages|
    && (forall i {:trigger PieceAt(decode, pieces, f, i)} :: 0 <= i < |pieces| ==> PieceAt(decode, pieces, f, i))
    && (if f.rest == [] then !f.malformed
        else if f.malformed then decode(f.rest).Malformed? else decode(f.rest).Partial?)
  }

  lemma SplitCons<M>(decode: Decoder<M>, piece: seq<Byte>, m: M, stream: seq<Byte>, pieces: seq<seq<Byte>>,
      f: Framing<M>)
    requires IsSplit(decode, stream, pieces, f) && piece != [] && decode(piece + stream) == Message(m, |piece|)
    ensures IsSplit(decode, piece + stream, [piece] + pieces, f.(messages := [m] + f.messages))
  {
    var pieces', f' := [piece] + pieces, f.(messages := [m] + f.messages);
    assert pieces'[1..] == pieces && pieces'[0..] == pieces';
    assert Concat(pieces') + f.rest == piece + (Concat(pieces) + f.rest);
    forall i | 0 <= i < |pieces'| ensures PieceAt(decode, pieces', f', i) {
      if i > 0 {
        assert PieceAt(decode, pieces, f, i - 1);
        assert pieces'[i..] == pieces[i - 1..];
      }
    }
  }

  /** What a stream decodes to is a split of it. */
  lemma {:induction false} FramesSplit<M>(decode: Decoder<M>, stream: seq<Byte>) returns (pieces: seq<seq<Byte>>)
    requires Stable(decode)
    ensures IsSplit(decode, stream, pieces, Frames(decode, stream))
    decreases |stream|
  {
    pieces := [];
    assert StableAt(decode, stream, []);
    if stream != [] && decode(stream).Message? {
      var n := decode(stream).length;
      var later := FramesSplit(decode, stream[n..]);
      assert stream == stream[..n] + stream[n..];
      SplitCons(decode, stream[..n], decode(stream).message, stream[n..], later, Frames(decode, stream[n..]));
      pieces := [stream[..n]] + later;
    }
  }

  lemma SplitTail<M>(decode: Decoder<M>, stream: seq<Byte>, pieces: seq<seq<Byte>>, f: Framing<M>)
    requires IsSplit(decode, stream, pieces, f) && pieces != []
    ensures stream != [] && |pieces[0]| <= |stream| && decode(stream) == Message(f.messages[0], |pieces[0]|)
    ensures IsSplit(decode, stream[|pieces[0]|..], pieces[1..], f.(messages := f.messages[1..]))
  {
    var tail, later := pieces[1..], f.(messages := f.messages[1..]);
    assert PieceAt(decode, pieces, f, 0);
    assert pieces[0..] == pieces;
    assert stream == pieces[0] + (Concat(tail) + f.rest);
    forall i | 0 <= i < |tail| ensures PieceAt(decode, tail, later, i) {
      assert PieceAt(decode, pieces, f, i + 1);
      assert tail[i..] == pieces[i + 1..];
    }
  }

  lemma SplitOfNothing<M>(decode: Decoder<M>, stream: seq<Byte>, f: Framing<M>)
    requires Stable(decode) && IsSplit(decode, stream, [], f)
    ensures f == Frames(decode, stream)
  {
    assert stream == f.rest && f.messages == [];
  }

  /** And it is the only one: no message is dropped, doubled or taken from elsewhere. */
  lemma {:induction false} SplitIsUnique<M>(decode: Decoder<M>, stream: seq<Byte>, pieces: seq<seq<Byte>>,
      f: Framing<M>)
    requires Stable(decode) && IsSplit(decode, stream, pieces, f)
    ensures f == Frames(decode, stream)
    decreases |pieces|
  {
    hide IsSplit;
    if pieces == [] {
      SplitOfNothing(decode, stream, f);
    } else {
      SplitSize(decode, stream, pieces, f);
      SplitTail(decode, stream, pieces, f);
      SplitIsUnique(decode, stream[|pieces[0]|..], pieces[1..], f.(messages := f.messages[1..]));
      assert f.messages == [f.messages[0]] + f.messages[1..];
    }
  }

  lemma SplitSize<M>(decode: Decoder<M>, stream: seq<Byte>, pieces: seq<seq<Byte>>, f: Framing<M>)
    requires IsSplit(decode, stream, pieces, f)
    ensures |pieces| == |f.messages|
  {
  }

  function EncodeAll<M>(encode: M -> seq<Byte>, messages: seq<M>): (pieces: seq<seq<Byte>>)
    ensures |pieces| == |messages| && forall i :: 0 <= i < |messages| ==> pieces[i] == encode(messages[i])
  {
    seq(|messages|, i requires 0 <= i < |messages| => encode(messages[i]))
  }

  /** The decoder finds an encoded message at the start of any stream. */
  ghost predicate Inverts<M(!new)>(decode: Decoder<M>, encode: M -> seq<Byte>) {
    forall m, more: seq<Byte> ::
      encode(m) != [] && decode(encode(m) + more) == Message(m, |encode(m)|)
  }

  /** Round trip: the messages that were written one after the other are the messages that are read. */
  lemma WrittenIsRead<M(!new)>(decode: Decoder<M>, encode: M -> seq<Byte>, messages: seq<M>)
    requires Stable(decode) && Inverts(decode, encode)
    ensures Frames(decode, Concat(EncodeAll(encode, messages))) == Framing(messages, [], false)
  {
    var pieces, f := EncodeAll(encode, messages), Framing(messages, [], false);
    forall i | 0 <= i < |pieces| ensures PieceAt(decode, pieces, f, i) {
      assert Concat(pieces[i..]) + f.rest == encode(messages[i]) + Concat(pieces[i..][1..]);
    }
    assert Concat(pieces) + [] == Concat(pieces);
    SplitIsUnique(decode, Concat(pieces), pieces, f);
  }

  /** No message needs as many bytes as the buffer has. */
  ghost predicate Fits<M>(decode: Decoder<M>, capacity: nat) {
    forall bytes :: |bytes| >= capacity ==> !decode(bytes).Partial?
  }
}
