/** What is on the wire, byte by byte, without the functions that put it there: bittorrent/peer_protocol.go:175-309. */
module Wire {
  import opened Types
  import opened BigEndian
  import opened Bitfields
  import opened PeerProtocol

  /** Exactly which bytes are the frame of a message. */
  lemma {:induction false} FrameIff(bytes: seq<byte>, code: byte, data: seq<byte>)
    requires FitsUint32(1 + |data|)
    ensures bytes == Frame(Message(code, data)) <==>
      && |bytes| == 5 + |data| && HasValue(bytes[..4], 1 + |data|)
      && bytes[4] == code && bytes[5..] == data
  {
    if |bytes| == 5 + |data| {
      FieldHasValue(bytes[..4], 1 + |data|);
      assert bytes == bytes[..4] + [bytes[4]] + bytes[5..];
    }
    var frame := Frame(Message(code, data));
    assert frame[..4] == PutUint32(1 + |data|) && frame[4] == code && frame[5..] == data;
  }

  lemma {:induction false} KeepAliveIff(bytes: seq<byte>)
    ensures bytes == Frame(KEEP_ALIVE) <==> bytes == [0, 0, 0, 0]
  {
    PutInNumbers(0);
    assert PutUint32(0) == [0, 0, 0, 0];
  }

  /** Exactly which messages carry this block: code 7, the index, the offset, and more than nothing. */
  lemma {:induction false} PieceIff(msg: PeerMessage, index: nat, begin: nat, block: seq<byte>)
    ensures DeserializePieceMsg(msg) == Ok((index, begin, block)) <==>
      && msg.code == 7 && |msg.data| > 8 && HasValue(msg.data[0..4], index) && HasValue(msg.data[4..8], begin)
      && block == msg.data[8..]
  {
    if |msg.data| > 8 {
      FieldHasValue(msg.data[0..4], index);
      FieldHasValue(msg.data[4..8], begin);
    }
  }

  /** Exactly which payloads are this request: the index, the offset and the length; what follows is ignored. */
  lemma {:induction false} RequestIff(msg: PeerMessage, index: nat, begin: nat, length: nat)
    ensures DeserializeRequestMsg(msg) == Ok((index, begin, length)) <==>
      && |msg.data| >= 12 && HasValue(msg.data[0..4], index) && HasValue(msg.data[4..8], begin)
      && HasValue(msg.data[8..12], length)
  {
    if |msg.data| >= 12 {
      FieldHasValue(msg.data[0..4], index);
      FieldHasValue(msg.data[4..8], begin);
      FieldHasValue(msg.data[8..12], length);
    }
  }

  lemma {:induction false} Sends(code: byte, data: seq<byte>, bytes: seq<byte>)
    requires |bytes| == 5 + |data| < 100 && bytes[4] == code && bytes[5..] == data
    requires bytes[0] == bytes[1] == bytes[2] == 0 && bytes[3] as int == 1 + |data|
    ensures SerializeMessage(Message(code, data)) == Ok(bytes)
  {
    FrameIff(bytes, code, data);
    SerializeSucceedsIff(Message(code, data));
  }

  /** The codes of BEP 3, as they are sent. */
  lemma {:induction false} CodesOnTheWire()
    ensures SerializeMessage(Message(CHOKE, [])) == Ok([0, 0, 0, 1, 0])
    ensures SerializeMessage(Message(UNCHOKE, [])) == Ok([0, 0, 0, 1, 1])
    ensures SerializeMessage(Message(INTERESTED, [])) == Ok([0, 0, 0, 1, 2])
    ensures SerializeMessage(Message(NOT_INTERESTED, [])) == Ok([0, 0, 0, 1, 3])
    ensures SerializeMessage(Message(HAVE, [0, 0, 0, 9])) == Ok([0, 0, 0, 5, 4, 0, 0, 0, 9])
    ensures SerializeMessage(Message(BITFIELD, [128])) == Ok([0, 0, 0, 2, 5, 128])
  {
    Sends(CHOKE, [], [0, 0, 0, 1, 0]);
    Sends(UNCHOKE, [], [0, 0, 0, 1, 1]);
    Sends(INTERESTED, [], [0, 0, 0, 1, 2]);
    Sends(NOT_INTERESTED, [], [0, 0, 0, 1, 3]);
    Sends(HAVE, [0, 0, 0, 9], [0, 0, 0, 5, 4, 0, 0, 0, 9]);
    Sends(BITFIELD, [128], [0, 0, 0, 2, 5, 128]);
  }

  /** A request for two bytes of piece 1 at offset 16384, and the block that answers it. */
  lemma {:induction false} RequestsOnTheWire()
    ensures SerializeMessage(RequestMessage(1, 16384, 2)) ==
      Ok([0, 0, 0, 13, 6, 0, 0, 0, 1, 0, 0, 64, 0, 0, 0, 0, 2])
    ensures SerializeMessage(PieceMessage(1, 16384, [8, 9])) == Ok([0, 0, 0, 11, 7, 0, 0, 0, 1, 0, 0, 64, 0, 8, 9])
  {
    PutValue(1, [0, 0, 0, 1]);
    PutValue(16384, [0, 0, 64, 0]);
    PutValue(2, [0, 0, 0, 2]);
    assert [0, 0, 0, 1] + [0, 0, 64, 0] + [0, 0, 0, 2] == [0, 0, 0, 1, 0, 0, 64, 0, 0, 0, 0, 2];
    assert [0, 0, 0, 1] + [0, 0, 64, 0] + [8, 9] == [0, 0, 0, 1, 0, 0, 64, 0, 8, 9];
    Sends(REQUEST, [0, 0, 0, 1, 0, 0, 64, 0, 0, 0, 0, 2], [0, 0, 0, 13, 6, 0, 0, 0, 1, 0, 0, 64, 0, 0, 0, 0, 2]);
    Sends(PIECE, [0, 0, 0, 1, 0, 0, 64, 0, 8, 9], [0, 0, 0, 11, 7, 0, 0, 0, 1, 0, 0, 64, 0, 8, 9]);
  }

  /** The payload of a BITFIELD, read at an index. */
  lemma {:induction false} FieldInNumbers(data: seq<byte>, n: nat, i: nat)
    requires i < n <= 8 * |data|
    ensures Bits(n, FromWire(data)).Get(i) == Ok((data[i / 8] as bv8 as int / Weight(i % 8)) % 2 == 1)
  {
    BitInNumbers(FromWire(data), i);
  }

  /** A bitfield of one byte with its most significant bit set says that the first of eight pieces is there. */
  lemma {:induction false} FieldOnTheWire(i: nat)
    requires i < 8
    ensures Bits(8, FromWire([128])).Get(i) == Ok(i == 0)
  {
    FieldInNumbers([128], 8, i);
  }
}
