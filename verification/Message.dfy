/** The wire format of src/network/message.cpp: a header, a length and a payload. */
module Message {
  import opened Bytes

  // ----- messages -----

  /** The enumerations have a one-byte underlying type, so any byte is a value. */
  const REQUEST: byte := 1
  const RESPONSE: byte := 2

  const DEAL_CARD: byte := 0
  const VOTE: byte := 1
  const NEW_CONNECTION: byte := 2
  const START_GAME: byte := 3
  const NEW_ROUND: byte := 4
  const PLAY_CARD: byte := 5
  const LOAD_GAME: byte := 6
  const DONT_CARE: byte := 8

  datatype Message = Message(kind: byte, id: uint16, rpc: byte, payload: Text)

  /** The message the accept handler stores. */
  const DONT_CARE_MESSAGE := Message(REQUEST, 0, DONT_CARE, [])

  /** A value-initialised Message, which an empty queue hands out. */
  const ZERO_MESSAGE := Message(0, 0, DEAL_CARD, [])

  const HEADER: nat := 4
  const PREFIX: nat := 8

  /** Header, four-byte payload length, payload. */
  function Frame(m: Message): (f: seq<byte>)
    ensures |f| == PREFIX + |m.payload|
  {
    [m.kind] + Le16(m.id) + [m.rpc] + Le32(|m.payload|) + m.payload
  }

  /** The length field of a buffer. */
  function LengthField(b: seq<byte>): nat
    requires |b| >= PREFIX
  {
    FromLe32(b[HEADER..PREFIX])
  }

  /** The decoder keeps every byte after the length field, whatever that field says. */
  function Unframe(b: seq<byte>): Message
    requires |b| >= PREFIX
  {
    Message(b[0], FromLe16(b[1..3]), b[3], b[PREFIX..])
  }

  /** The second slice the decoder cuts, bounded by the length field. */
  function BoundedPayload(b: seq<byte>): Text
    requires |b| >= PREFIX && LengthField(b) <= |b| - PREFIX
  {
    b[PREFIX..PREFIX + LengthField(b)]
  }

  /** memcpy of `src` to `dest + offset`. */
  method Memcpy(dest: array<byte>, offset: nat, src: seq<byte>)
    requires offset + |src| <= dest.Length
    modifies dest
    ensures dest[..] == old(dest[..])[..offset] + src + old(dest[..])[offset + |src|..]
  {
    for i := 0 to |src|
      invariant dest[offset..offset + i] == src[..i]
      invariant dest[..offset] == old(dest[..offset])
      invariant dest[offset + i..] == old(dest[offset + i..])
    {
      dest[offset + i] := src[i];
    }
    assert dest[..] == dest[..offset] + dest[offset..offset + |src|] + dest[offset + |src|..];
  }

  method SerializeMessage(m: Message) returns (frame: seq<byte>)
    ensures frame == Frame(m)
  {
    var buffer := new byte[PREFIX + |m.payload|];
    Memcpy(buffer, 0, [m.kind]);
    Memcpy(buffer, 1, Le16(m.id));
    Memcpy(buffer, 3, [m.rpc]);
    assert buffer[..HEADER] == [m.kind] + Le16(m.id) + [m.rpc];
    Memcpy(buffer, HEADER, Le32(|m.payload|));
    assert buffer[..PREFIX] == [m.kind] + Le16(m.id) + [m.rpc] + Le32(|m.payload|);
    Memcpy(buffer, PREFIX, m.payload);
    frame := buffer[..];
  }

  /** The second slice is only defined when the length field stays inside the buffer. */
  method DeserializeMessage(b: seq<byte>) returns (m: Message)
    requires |b| >= PREFIX && LengthField(b) <= |b| - PREFIX
    ensures m == Unframe(b)
  {
    var payloadSize := FromLe32(b[HEADER..PREFIX]);
    var payloadSlice := b[PREFIX..];
    var payloadSlicez := b[PREFIX..PREFIX + payloadSize];
    m := Message(b[0], FromLe16(b[1..3]), b[3], payloadSlice);
  }

  /** Every byte of a frame: kind, id and RPC type, the payload size with its low byte first,
      and the payload. */
  lemma FrameBytes(m: Message)
    ensures var f, n := Frame(m), |m.payload|;
            && |f| == 8 + n && f[0] == m.kind && f[1] == m.id % 256 && f[2] == m.id / 256 && f[3] == m.rpc
            && f[4] == n % 256 && f[5] == n / 256 % 256 && f[6] == n / 65536 % 256 && f[7] == n / 16777216 % 256
            && f[8..] == m.payload
  {
    FrameParts(m, []);
    assert Frame(m) + [] == Frame(m) && m.payload + [] == m.payload;
    var f := Frame(m);
    assert f[1] == f[1..3][0] && f[2] == f[1..3][1];
    assert f[4] == f[4..8][0] && f[5] == f[4..8][1] && f[6] == f[4..8][2] && f[7] == f[4..8][3];
  }

  /** Every field of a decoded buffer. */
  lemma UnframeBytes(b: seq<byte>)
    requires |b| >= 8
    ensures var m := Unframe(b);
            && m.kind == b[0] && m.id == b[1] as int + 256 * b[2] as int && m.rpc == b[3] && m.payload == b[8..]
    ensures LengthField(b)
         == b[4] as int + 256 * b[5] as int + 65536 * b[6] as int + 16777216 * b[7] as int
  {
  }

  lemma FrameParts(m: Message, rest: seq<byte>)
    ensures var b := Frame(m) + rest;
            && b[0] == m.kind && b[1..3] == Le16(m.id) && b[3] == m.rpc
            && b[HEADER..PREFIX] == Le32(|m.payload|) && b[PREFIX..] == m.payload + rest
  {
    var b := Frame(m) + rest;
    assert b == [m.kind] + Le16(m.id) + [m.rpc] + Le32(|m.payload|) + (m.payload + rest);
    assert b[1..3] == Le16(m.id);
    assert b[HEADER..PREFIX] == Le32(|m.payload|);
  }

  /** Decoding a read that holds a frame and `rest` returns the message exactly when
      the read ended with the frame; the length-bounded slice is right either way. */
  lemma UnframeOfRead(m: Message, rest: seq<byte>)
    ensures Unframe(Frame(m) + rest) == m <==> rest == []
    ensures |m.payload| < 0x1_0000_0000 ==>
              var b := Frame(m) + rest;
              LengthField(b) == |m.payload| && BoundedPayload(b) == m.payload
  {
    hide Frame, Le16, FromLe16, Le32, FromLe32;
    var b := Frame(m) + rest;
    FrameParts(m, rest);
    Le16Inverse(m.id, Le16(m.id));
    Le32Truncates(|m.payload|);
    assert |b| == PREFIX + |m.payload| + |rest|;
    if |m.payload| < 0x1_0000_0000 {
      assert b[PREFIX..][..|m.payload|] == m.payload;
    }
    if rest == [] { assert m.payload + rest == m.payload; }
  }

  /** Every message survives encoding and decoding, and the decoder's own
      preconditions hold of every frame. */
  lemma UnframeOfFrame(m: Message)
    ensures Unframe(Frame(m)) == m
    ensures LengthField(Frame(m)) <= |Frame(m)| - PREFIX
  {
    UnframeOfRead(m, []);
    assert Frame(m) + [] == Frame(m);
    FrameParts(m, []);
    Le32Truncates(|m.payload|);
  }

  /** A buffer is the frame of what it decodes to exactly when its length field,
      taken modulo 2^32, is honest. */
  lemma FrameOfUnframe(b: seq<byte>)
    requires |b| >= PREFIX
    ensures Frame(Unframe(b)) == b <==> LengthField(b) == (|b| - PREFIX) % 0x1_0000_0000
  {
    var m := Unframe(b);
    var n := |b| - PREFIX;
    FrameParts(m, []);
    assert Frame(m) + [] == Frame(m);
    Le16Inverse(0, b[1..3]);
    Le32OfFromLe32(b[HEADER..PREFIX]);
    Le32Truncates(n);
    assert b == [b[0]] + b[1..3] + [b[3]] + b[HEADER..PREFIX] + b[PREFIX..];
    if LengthField(b) == n % 0x1_0000_0000 {
      Le32OfFromLe32(Le32(n));
      assert Le32(n) == b[HEADER..PREFIX];
    }
  }

  /** The size of the buffer one read fills at most. */
  const BUFFER: nat := 1024

  /** One read of a frame that waits whole. */
  function ReadOnce(m: Message): (b: seq<byte>)
    ensures PREFIX <= |b| <= BUFFER
  {
    if |Frame(m)| <= BUFFER then Frame(m) else Frame(m)[..BUFFER]
  }

  /** A read gives the whole message exactly up to 1016 bytes of payload. */
  lemma ReadOnceIff(m: Message)
    ensures Unframe(ReadOnce(m)) == m <==> |m.payload| <= 1016
  {
    UnframeOfFrame(m);
    assert |Unframe(ReadOnce(m)).payload| == |ReadOnce(m)| - PREFIX;
  }

  /** And up to there exactly the decoder's second slice is defined, unless the length field
      wraps around. */
  lemma ReadOnceDefinedIff(m: Message)
    ensures LengthField(ReadOnce(m)) <= |ReadOnce(m)| - PREFIX
            <==> |m.payload| % 0x1_0000_0000 <= 1016
    ensures |m.payload| < 0x1_0000_0000 ==>
              (LengthField(ReadOnce(m)) <= |ReadOnce(m)| - PREFIX <==> |m.payload| <= 1016)
  {
    hide Le32, FromLe32;
    assert Frame(m) + [] == Frame(m);
    FrameParts(m, []);
    Le32Truncates(|m.payload|);
    assert ReadOnce(m)[HEADER..PREFIX] == Frame(m)[HEADER..PREFIX];
  }

  /** No frame is a proper prefix of another. */
  lemma FramePrefixFree(m1: Message, s1: seq<byte>, m2: Message, s2: seq<byte>)
    requires |m1.payload| < 0x1_0000_0000 && |m2.payload| < 0x1_0000_0000
    requires Frame(m1) + s1 == Frame(m2) + s2
    ensures m1 == m2 && s1 == s2
  {
    var b := Frame(m1) + s1;
    FrameParts(m1, s1);
    FrameParts(m2, s2);
    Le16Inverse(m1.id, b[1..3]);
    Le16Inverse(m2.id, b[1..3]);
    UnframeOfRead(m1, s1);
    UnframeOfRead(m2, s2);
    assert b[PREFIX..] == m1.payload + s1 && b[PREFIX..] == m2.payload + s2;
    assert m1.payload == m2.payload;
    assert s1 == b[PREFIX..][|m1.payload|..];
    assert s2 == b[PREFIX..][|m1.payload|..];
  }

  /** What a byte stream holds after the messages of `ms` were written to it. */
  function Stream(ms: seq<Message>): seq<byte> {
    if ms == [] then [] else Frame(ms[0]) + Stream(ms[1..])
  }

  /** Even without read boundaries the stream determines the messages. */
  lemma {:induction false} StreamDeterminesMessages(ms: seq<Message>, ns: seq<Message>)
    requires forall m :: m in ms || m in ns ==> |m.payload| < 0x1_0000_0000
    requires Stream(ms) == Stream(ns)
    ensures ms == ns
  {
    if ms == [] || ns == [] {
    } else {
      assert ms[0] in ms && ns[0] in ns;
      FramePrefixFree(ms[0], Stream(ms[1..]), ns[0], Stream(ns[1..]));
      StreamDeterminesMessages(ms[1..], ns[1..]);
      assert ms == [ms[0]] + ms[1..] && ns == [ns[0]] + ns[1..];
    }
  }
}
