/** Messages and their framing: bittorrent/peer_protocol.go. */
module PeerProtocol {
  import opened Types
  import opened BigEndian
  import opened Codec

  const CHOKE: byte := 0
  const UNCHOKE: byte := 1
  const INTERESTED: byte := 2
  const NOT_INTERESTED: byte := 3
  const HAVE: byte := 4
  const BITFIELD: byte := 5
  const REQUEST: byte := 6
  const PIECE: byte := 7

  datatype PeerMessage = PeerMessage(keepAlive: bool, code: byte, data: seq<byte>)

  const KEEP_ALIVE := PeerMessage(true, 0, [])

  function Message(code: byte, data: seq<byte>): PeerMessage {
    PeerMessage(false, code, data)
  }

  // ---------- Frames ----------

  /** `SerializeMessage`: the length is a uint32, and so is the size of the buffer made for the frame.
      The keep-alive flag is not looked at. */
  function SerializeMessage(msg: PeerMessage): Outcome<seq<byte>> {
    var payloadLength := (1 + |msg.data|) % TWO_TO_THE_32;
    var size := (4 + payloadLength) % TWO_TO_THE_32;
    if size < 5 then Panic
    else if Min(|msg.data|, size - 5) != |msg.data| then Err
    else Ok(PutUint32(payloadLength) + [msg.code] + msg.data)
  }

  /** The frame of a message; a keep-alive is a zero length and nothing else. */
  function Frame(msg: PeerMessage): seq<byte> {
    if msg.keepAlive then PutUint32(0)
    else PutUint32(1 + |msg.data|) + [msg.code] + msg.data
  }

  /** What the receiver can be given: a bare keep-alive, or a code with a payload that the length field can count. */
  predicate Framable(msg: PeerMessage) {
    if msg.keepAlive then msg == KEEP_ALIVE else FitsUint32(1 + |msg.data|)
  }

  predicate Sendable(msg: PeerMessage) {
    !msg.keepAlive && |msg.data| + 5 < TWO_TO_THE_32
  }

  /** A message can be serialized exactly when its whole frame is shorter than 2^32 bytes. */
  lemma SerializeSucceedsIff(msg: PeerMessage)
    requires !msg.keepAlive
    ensures SerializeMessage(msg).Ok? <==> Sendable(msg)
    ensures Sendable(msg) ==> SerializeMessage(msg) == Ok(Frame(msg)) && Framable(msg)
  {
    var k := (1 + |msg.data|) / TWO_TO_THE_32;
    assert k > 0 ==> (1 + |msg.data|) % TWO_TO_THE_32 <= 1 + |msg.data| - TWO_TO_THE_32;
  }

  /** What one call of `DeserializeMessage` finds. `EndOfStream` is io.EOF, `Broken` any other error. */
  datatype Received =
    | Received(msg: PeerMessage, rest: seq<byte>)
    | EndOfStream
    | Broken

  function Deserialize(bytes: seq<byte>): Received {
    if bytes == [] then EndOfStream
    else if |bytes| < 4 then Broken
    else
      var length := Uint32(bytes[..4]);
      if length == 0 then Received(KEEP_ALIVE, bytes[4..])
      else if |bytes| == 4 then EndOfStream
      else if length > 1 && |bytes| == 5 then EndOfStream
      else if |bytes| < 4 + length then Broken
      else Received(Message(bytes[4], bytes[5..4 + length]), bytes[4 + length..])
  }

  lemma DeserializeFrame(msg: PeerMessage, rest: seq<byte>)
    requires Framable(msg)
    ensures Deserialize(Frame(msg) + rest) == Received(msg, rest)
  {
    var bytes := Frame(msg) + rest;
    var length := if msg.keepAlive then 0 else 1 + |msg.data|;
    assert bytes[..4] == PutUint32(length);
    PutThenGet(length);
    if msg.keepAlive {
      assert bytes[4..] == rest;
    } else {
      assert bytes[5..4 + length] == msg.data && bytes[4 + length..] == rest;
    }
  }

  lemma FrameOfDeserialized(bytes: seq<byte>)
    requires Deserialize(bytes).Received?
    ensures var r := Deserialize(bytes);
      Framable(r.msg) && bytes == Frame(r.msg) + r.rest
  {
    var r := Deserialize(bytes);
    GetThenPut(bytes[..4]);
    var length := Uint32(bytes[..4]);
    if length == 0 {
      assert bytes == bytes[..4] + bytes[4..];
    } else {
      assert bytes == bytes[..4] + [bytes[4]] + bytes[5..4 + length] + bytes[4 + length..];
    }
  }

  // ---------- Streams ----------

  function Frames(msgs: seq<PeerMessage>): seq<byte> {
    PrintAll(Frame, msgs)
  }

  predicate AllFramable(msgs: seq<PeerMessage>) {
    forall m :: m in msgs ==> Framable(m)
  }

  function ParseMessage(bytes: seq<byte>): Parsed<PeerMessage> {
    match Deserialize(bytes)
    case Received(msg, rest) => Parsed(msg, rest)
    case _ => NoParse
  }

  /** All that a receive loop takes from a stream: the messages, and the bytes at which it stopped. */
  function ReadAll(bytes: seq<byte>): Stream<PeerMessage> {
    ParseAll(ParseMessage, bytes)
  }

  lemma FramesAreACodec()
    ensures ParsesPrinted(Frame, ParseMessage, Framable)
    ensures PrintsParsed(Frame, ParseMessage, Framable)
  {
    forall msg, rest | Framable(msg)
      ensures ParseMessage(Frame(msg) + rest) == Parsed(msg, rest)
    {
      DeserializeFrame(msg, rest);
    }
    forall bytes | ParseMessage(bytes).Parsed?
      ensures var r := ParseMessage(bytes);
        Framable(r.value) && |r.rest| < |bytes| && bytes == Frame(r.value) + r.rest
    {
      FrameOfDeserialized(bytes);
    }
  }

  /** Framing theorem: the receive loop gets exactly `msgs`, keep-alives included, and then a clean end
      of stream, if and only if the stream is the concatenation of their frames. */
  lemma StreamFraming(bytes: seq<byte>, msgs: seq<PeerMessage>)
    ensures ReadAll(bytes) == Stream(msgs, []) <==> AllFramable(msgs) && bytes == Frames(msgs)
  {
    FramesAreACodec();
    StreamIff(Frame, ParseMessage, Framable, bytes, msgs);
  }

  /** A connection cut inside a frame is still reported as a clean end in two places: right after the
      length, and right after the code of a message that has data. Everywhere else it is an error. */
  lemma CleanEndIff(bytes: seq<byte>)
    ensures Deserialize(bytes).EndOfStream? <==>
      || bytes == []
      || (|bytes| == 4 && Uint32(bytes) != 0)
      || (|bytes| == 5 && Uint32(bytes[..4]) > 1)
  {
    if |bytes| == 4 {
      assert bytes[..4] == bytes;
    }
    if |bytes| >= 4 {
      GetThenPut(bytes[..4]);
    }
  }

  // ---------- Payloads ----------

  /** `SerializePieceMsg` and `SerializeRequestMsg`: the fields are cut to 32 bits. */
  function PieceMessage(index: int, begin: int, block: seq<byte>): PeerMessage {
    Message(PIECE, PutUint32(index) + PutUint32(begin) + block)
  }

  function RequestMessage(index: int, begin: int, length: int): PeerMessage {
    Message(REQUEST, PutUint32(index) + PutUint32(begin) + PutUint32(length))
  }

  function DeserializePieceMsg(msg: PeerMessage): Outcome<(nat, nat, seq<byte>)> {
    if msg.code != PIECE || |msg.data| <= 8 then Err
    else Ok((Uint32(msg.data[0..4]), Uint32(msg.data[4..8]), msg.data[8..]))
  }

  function DeserializeRequestMsg(msg: PeerMessage): Outcome<(nat, nat, nat)> {
    if |msg.data| < 12 then Err
    else Ok((Uint32(msg.data[0..4]), Uint32(msg.data[4..8]), Uint32(msg.data[8..12])))
  }

  /** A block comes back as it was sent exactly when it is not empty and its position fits 32 bits. */
  lemma PieceRoundTrip(index: int, begin: int, block: seq<byte>)
    ensures DeserializePieceMsg(PieceMessage(index, begin, block)) == Ok((index, begin, block))
      <==> block != [] && FitsUint32(index) && FitsUint32(begin)
  {
    var data := PieceMessage(index, begin, block).data;
    assert data[0..4] == PutUint32(index) && data[4..8] == PutUint32(begin) && data[8..] == block;
    PutThenGet(index);
    PutThenGet(begin);
  }

  lemma RequestRoundTrip(index: int, begin: int, length: int)
    ensures DeserializeRequestMsg(RequestMessage(index, begin, length)) == Ok((index, begin, length))
      <==> FitsUint32(index) && FitsUint32(begin) && FitsUint32(length)
  {
    var data := RequestMessage(index, begin, length).data;
    assert data[0..4] == PutUint32(index) && data[4..8] == PutUint32(begin) && data[8..12] == PutUint32(length);
    PutThenGet(index);
    PutThenGet(begin);
    PutThenGet(length);
  }

  // ---------- Reading from a stream ----------

  datatype ReadError = NoError | EOF | UnexpectedEOF

  /** An io.Reader over bytes already known; both read operations of the standard library. */
  class Reader {
    var rest: seq<byte>

    constructor (bytes: seq<byte>)
      ensures rest == bytes
    {
      rest := bytes;
    }

    /** `io.ReadFull` */
    method ReadFull(n: nat) returns (data: seq<byte>, err: ReadError)
      modifies this
      ensures err == if n <= |old(rest)| then NoError else if old(rest) == [] then EOF else UnexpectedEOF
      ensures err == NoError ==> data == old(rest)[..n] && rest == old(rest)[n..]
      ensures err != NoError ==> data == old(rest) && rest == []
    {
      if n <= |rest| {
        data, err, rest := rest[..n], NoError, rest[n..];
      } else {
        data, err, rest := rest, if rest == [] then EOF else UnexpectedEOF, [];
      }
    }

    /** `Read`: as many bytes as there are, up to `n`; EOF when there are none. */
    method Read(n: nat) returns (data: seq<byte>, err: ReadError)
      modifies this
      ensures err == if n > 0 && old(rest) == [] then EOF else NoError
      ensures data == old(rest)[..Min(n, |old(rest)|)]
      ensures rest == old(rest)[|data|..]
    {
      err := if n > 0 && rest == [] then EOF else NoError;
      data := rest[..Min(n, |rest|)];
      rest := rest[|data|..];
    }
  }

  method DeserializeMessage(r: Reader) returns (result: Received)
    modifies r
    ensures result == Deserialize(old(r.rest))
    ensures result.Received? ==> r.rest == result.rest
  {
    ghost var bytes := r.rest;
    var lengthBuf, err := r.ReadFull(4);
    if err != NoError {
      return if err == EOF then EndOfStream else Broken;
    }
    var length := Uint32(lengthBuf);
    GetThenPut(lengthBuf);
    if length == 0 {
      return Received(KEEP_ALIVE, r.rest);
    }
    var codeBuf;
    codeBuf, err := r.ReadFull(1);
    if err != NoError {
      return if err == EOF then EndOfStream else Broken;
    }
    var dataBuf: seq<byte> := [];
    if length - 1 > 0 {
      dataBuf, err := r.ReadFull(length - 1);
      if err != NoError {
        return if err == EOF then EndOfStream else Broken;
      }
      assert dataBuf == bytes[5..4 + length];
    }
    assert bytes[4..][1..][length - 1..] == bytes[4 + length..];
    return Received(Message(codeBuf[0], dataBuf), r.rest);
  }

  /** The receiving goroutine of a connection (client/peer.go:80-92): what it hands over, and where it stops. */
  method ReceiveLoop(r: Reader) returns (msgs: seq<PeerMessage>)
    modifies r
    ensures msgs == ReadAll(old(r.rest)).values
  {
    msgs := [];
    ghost var all := ReadAll(r.rest);
    while true
      invariant all.values == msgs + ReadAll(r.rest).values
      decreases |r.rest|
    {
      ghost var before := r.rest;
      var result := DeserializeMessage(r);
      if !result.Received? {
        return;
      }
      FrameOfDeserialized(before);
      ParseAllStep(ParseMessage, before);
      msgs := msgs + [result.msg];
    }
  }
}
