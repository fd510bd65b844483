/** Two bitflood clients joined by two reliable byte streams, both running the loop of client/peer.go,
    both leeching and seeding. */
module Transfer {
  import opened Types
  import opened BigEndian
  import opened Codec
  import opened Bitfields
  import opened PeerProtocol
  import opened Assembly
  import opened PeerLoop

  datatype Node = Node(loop: Loop, pieces: seq<Option<Piece>>)

  /** The clients and the bytes under way between them, in each direction. */
  datatype Pair = Pair(a: Node, b: Node, ab: seq<byte>, ba: seq<byte>)

  /** What one client can do next. The five parts of the loop body may be taken in any order and number,
      so every schedule of the loop is among the runs. `Store` is the main loop keeping a verified piece. */
  datatype Act =
    | Upload | Complete | Take(order: PieceOrder) | Interested | Fill
    | Receive | Tick(choke: bool) | Store(piece: Piece)

  datatype Move = ByA(act: Act) | ByB(act: Act)

  function Reliable(): Network {
    _ => true
  }

  function Outgoing(actions: seq<Action>): seq<PeerMessage> {
    if actions == [] then []
    else (if actions[0].Sent? then [actions[0].msg] else []) + Outgoing(actions[1..])
  }

  /** The messages written while the history grew from `before` to `after`. */
  function Written(before: seq<Action>, after: seq<Action>): seq<PeerMessage> {
    if |before| <= |after| then Outgoing(after[|before|..]) else []
  }

  /** One part of the loop body. */
  function LoopPart(l: Loop, act: Act, pieces: seq<Option<Piece>>, t: Torrent): Outcome<Loop>
    requires !act.Receive? && !act.Store?
  {
    match act
    case Upload => UploadChunk(l, pieces, Reliable())
    case Complete => Ok(CompletePiece(l, t.sha1, Reliable()))
    case Take(order) => GetPiece(l, t.NumPieces(), Some(order))
    case Interested => Ok(SendInterested(l, Reliable()))
    case Fill => Ok(FillRequests(l, Reliable()))
    case Tick(choke) => Ok(SetChoking(l, choke, Reliable()))
  }

  function Keep(pieces: seq<Option<Piece>>, p: Piece): seq<Option<Piece>> {
    if p.index < |pieces| && pieces[p.index].None? then pieces[p.index := Some(p)] else pieces
  }

  function StepA(s: Pair, act: Act, t: Torrent): Outcome<Pair> {
    match act
    case Store(p) => Ok(s.(a := s.a.(pieces := Keep(s.a.pieces, p))))
    case Receive =>
      (match Deserialize(s.ba)
       case Received(msg, rest) =>
         if msg.keepAlive then Ok(s.(ba := rest))
         else (match HandleMessage(s.a.loop, msg, t.NumPieces())
               case Ok(l) => Ok(s.(a := s.a.(loop := l), ba := rest))
               case Err => Err
               case Panic => Panic)
       case _ => Ok(s))
    case _ =>
      match LoopPart(s.a.loop, act, s.a.pieces, t)
      case Ok(l) => Ok(s.(a := s.a.(loop := l), ab := s.ab + Frames(Written(s.a.loop.log, l.log))))
      case Err => Err
      case Panic => Panic
  }

  function Swap(s: Pair): Pair {
    Pair(s.b, s.a, s.ba, s.ab)
  }

  function Step(s: Pair, move: Move, t: Torrent): Outcome<Pair> {
    match move
    case ByA(act) => StepA(s, act, t)
    case ByB(act) =>
      match StepA(Swap(s), act, t)
      case Ok(r) => Ok(Swap(r))
      case Err => Err
      case Panic => Panic
  }

  function RunPair(s: Pair, moves: seq<Move>, t: Torrent): Outcome<Pair>
    decreases moves
  {
    if moves == [] then Ok(s)
    else match Step(s, moves[0], t)
      case Ok(r) => RunPair(r, moves[1..], t)
      case Err => Err
      case Panic => Panic
  }

  /** After the handshake each side has sent its bitfield (bittorrent/peer_protocol.go:36, 55, 160-173). */
  function Opened(aId: string, bId: string, aPieces: seq<Option<Piece>>, bPieces: seq<Option<Piece>>,
                  aField: seq<bv8>, bField: seq<bv8>): Pair
  {
    Pair(Node(Connected(bId), aPieces), Node(Connected(aId), bPieces),
         Frames([Message(BITFIELD, ToWire(aField))]), Frames([Message(BITFIELD, ToWire(bField))]))
  }

  // ---------- The invariant, for one side leeching from the other ----------

  function RequestIn(m: PeerMessage): multiset<Request> {
    if m.code != REQUEST then multiset{}
    else match DeserializeRequestMsg(m)
      case Ok((index, begin, length)) => multiset{Request(index, begin, length)}
      case _ => multiset{}
  }

  function BlockIn(m: PeerMessage): multiset<Request> {
    match DeserializePieceMsg(m)
    case Ok((index, begin, block)) => multiset{Request(index, begin, |block|)}
    case _ => multiset{}
  }

  function Gather(f: PeerMessage -> multiset<Request>, msgs: seq<PeerMessage>): multiset<Request> {
    if msgs == [] then multiset{} else f(msgs[0]) + Gather(f, msgs[1..])
  }

  /** REQUEST frames under way. */
  function RequestsIn(msgs: seq<PeerMessage>): multiset<Request> {
    Gather(RequestIn, msgs)
  }

  /** PIECE frames under way, as the requests they answer. */
  function BlocksIn(msgs: seq<PeerMessage>): multiset<Request> {
    Gather(BlockIn, msgs)
  }

  ghost predicate Holds(pieces: seq<Option<Piece>>, t: Torrent) {
    && |pieces| == t.NumPieces()
    && forall i :: 0 <= i < |pieces| && pieces[i].Some? ==> |pieces[i].value.data| == t.pieceLength
  }

  predicate IsBlockOf(pieces: seq<Option<Piece>>, index: nat, begin: nat, block: seq<byte>) {
    && index < |pieces| && pieces[index].Some?
    && begin + |block| <= |pieces[index].value.data|
    && block == pieces[index].value.data[begin..begin + |block|]
  }

  ghost predicate Claims(field: seq<bv8>, pieces: seq<Option<Piece>>) {
    && |pieces| <= 8 * |field|
    && forall i :: 0 <= i < |pieces| && BitAt(field, i) ==> pieces[i].Some?
  }

  /** A message that the leech can handle. */
  ghost predicate GoodForLeech(m: PeerMessage, pieces: seq<Option<Piece>>) {
    && (m.code == HAVE ==> |m.data| >= 4)
    && (m.code == BITFIELD ==> |m.data| == BytesFor(|pieces|) && Claims(FromWire(m.data), pieces))
    && (m.code == PIECE ==>
          match DeserializePieceMsg(m)
          case Ok((index, begin, block)) => IsBlockOf(pieces, index, begin, block)
          case _ => false)
  }

  ghost predicate GoodForSeeder(m: PeerMessage) {
    m.code == REQUEST ==> DeserializeRequestMsg(m).Ok?
  }

  ghost predicate Knows(bits: Bits, pieces: seq<Option<Piece>>) {
    bits.length == 0 || (bits.length == |pieces| && Claims(bits.data, pieces))
  }

  /** The piece in progress is one that the seeder has, and holds the seeder's bytes wherever it was written. */
  ghost predicate FromSeeder(p: Progress, pieces: seq<Option<Piece>>, t: Torrent) {
    p.order.Some? ==>
      var o := p.order.value;
      && o.index < |pieces| && pieces[o.index].Some? && o.length == t.pieceLength
      && forall c :: c in p.accepted ==> IsBlockOf(pieces, o.index, c.start, c.data)
  }

  /** Conservation: every outstanding request is, exactly once, in a REQUEST frame under way, in the seeder's
      list, or answered by a PIECE frame under way. */
  ghost predicate Conserved(leech: Loop, up: seq<PeerMessage>, seeder: Loop, down: seq<PeerMessage>) {
    multiset(leech.progress.requests) == RequestsIn(up) + multiset(seeder.requested) + BlocksIn(down)
  }

  ghost predicate Leeching(leech: Loop, up: seq<PeerMessage>, seeder: Node, down: seq<PeerMessage>, t: Torrent) {
    && Inv(leech.progress)
    && Holds(seeder.pieces, t)
    && FromSeeder(leech.progress, seeder.pieces, t)
    && Knows(leech.peer.bitfield, seeder.pieces)
    && (forall m :: m in up ==> GoodForSeeder(m))
    && (forall m :: m in down ==> GoodForLeech(m, seeder.pieces))
    && Conserved(leech, up, seeder.loop, down)
  }

  /** Sizes that fit the 32-bit fields of the protocol. */
  predicate Addressable(t: Torrent) {
    0 < t.NumPieces() <= TWO_TO_THE_32 && t.pieceLength <= TWO_TO_THE_32
  }

  function Under(stream: seq<byte>): seq<PeerMessage> {
    ReadAll(stream).values
  }

  ghost predicate Joined(s: Pair, t: Torrent) {
    && ReadAll(s.ab).tail == [] && ReadAll(s.ba).tail == []
    && Leeching(s.a.loop, Under(s.ab), s.b, Under(s.ba), t)
    && Leeching(s.b.loop, Under(s.ba), s.a, Under(s.ab), t)
  }

  // ---------- Queues ----------

  lemma {:induction false} GatherAppend(f: PeerMessage -> multiset<Request>, msgs: seq<PeerMessage>, m: PeerMessage)
    ensures Gather(f, msgs + [m]) == Gather(f, msgs) + f(m)
  {
    if msgs == [] {
      assert [] + [m] == [m];
    } else {
      GatherAppend(f, msgs[1..], m);
      assert (msgs + [m])[1..] == msgs[1..] + [m];
    }
  }

  /** Writing frames puts their messages at the end of the queue. */
  lemma {:induction false} WriteEnqueues(stream: seq<byte>, msgs: seq<PeerMessage>)
    requires ReadAll(stream).tail == [] && AllFramable(msgs)
    ensures ReadAll(stream + Frames(msgs)) == Stream(Under(stream) + msgs, [])
  {
    var before := Under(stream);
    assert ReadAll(stream) == Stream(before, []);
    StreamFraming(stream, before);
    PrintAllConcat(Frame, before, msgs);
    StreamFraming(stream + Frames(msgs), before + msgs);
  }

  /** Reading takes the message at the front of the queue. */
  lemma {:induction false} ReadDequeues(stream: seq<byte>)
    requires ReadAll(stream).tail == []
    ensures Under(stream) == [] ==> !Deserialize(stream).Received?
    ensures Under(stream) != [] ==>
      && Deserialize(stream).Received?
      && Deserialize(stream).msg == Under(stream)[0]
      && ReadAll(Deserialize(stream).rest) == Stream(Under(stream)[1..], [])
  {
    if Deserialize(stream).Received? {
      FrameOfDeserialized(stream);
      ParseAllStep(ParseMessage, stream);
    }
  }

  // ---------- One side acts: what the other direction sees ----------

  /** A message that carries no request and no block, written by either side. */
  lemma {:induction false} WritingOtherKeepsLeeching(leech: Loop, up: seq<PeerMessage>, seeder: Node,
                                                     down: seq<PeerMessage>,
                                                     t: Torrent, next: Loop, m: PeerMessage)
    requires Leeching(leech, up, seeder, down, t)
    requires next.progress == leech.progress && next.peer.bitfield == leech.peer.bitfield
    requires m.code != REQUEST
    ensures Leeching(next, up + [m], seeder, down, t)
  {
    GatherAppend(RequestIn, up, m);
  }

  lemma {:induction false} SeederWritingOtherKeepsLeeching(leech: Loop, up: seq<PeerMessage>, seeder: Node,
                                                           down: seq<PeerMessage>, t: Torrent, next: Node,
                                                           m: PeerMessage)
    requires Leeching(leech, up, seeder, down, t)
    requires next.pieces == seeder.pieces && next.loop.requested == seeder.loop.requested
    requires m.code != PIECE && GoodForLeech(m, seeder.pieces)
    ensures Leeching(leech, up, next, down + [m], t)
  {
    GatherAppend(BlockIn, down, m);
  }

  lemma {:induction false} IssuingKeepsLeeching(leech: Loop, up: seq<PeerMessage>, seeder: Node, down: seq<PeerMessage>,
                                                t: Torrent, next: Loop)
    requires Leeching(leech, up, seeder, down, t) && Addressable(t)
    requires CanRequest(leech.progress) && |leech.progress.requests| < PIPELINE_LENGTH
    requires next.progress == Issue(leech.progress) && next.peer.bitfield == leech.peer.bitfield
    ensures var m := NextRequestMessage(leech.progress);
      Leeching(next, up + [m], seeder, down, t) && Framable(m)
  {
    var r := NextRequest(leech.progress);
    var m := NextRequestMessage(leech.progress);
    IssueFollowsPlan(leech.progress);
    RequestRoundTrip(r.index, r.start, r.length);
    assert RequestIn(m) == multiset{r};
    GatherAppend(RequestIn, up, m);
  }

  /** A complete piece has no request left anywhere, so dropping it abandons nothing. */
  lemma {:induction false} CompletingKeepsLeeching(leech: Loop, up: seq<PeerMessage>, seeder: Node,
                                                   down: seq<PeerMessage>,
                                                   t: Torrent, next: Loop)
    requires Leeching(leech, up, seeder, down, t)
    requires leech.progress.order.Some? && leech.progress.numDone == leech.progress.order.value.length
    requires next.progress == NO_PROGRESS && next.peer.bitfield == leech.peer.bitfield
    ensures RequestsIn(up) == BlocksIn(down) == multiset(seeder.loop.requested) == multiset{}
    ensures Leeching(next, up, seeder, down, t)
  {
    CompleteIff(leech.progress);
  }

  /** An order that is offered is taken only if the other side's field has its bit. */
  lemma {:induction false} TakingCases(l: Loop, order: PieceOrder, pieces: seq<Option<Piece>>)
    requires Inv(l.progress) && Knows(l.peer.bitfield, pieces) && order.index < |pieces| && |pieces| > 0
    ensures var r := GetPiece(l, |pieces|, Some(order));
      && r.Ok? && r.value.log == l.log && r.value.requested == l.requested && r.value.peer == l.peer
      && (r.value.progress == l.progress ||
          (l.progress == NO_PROGRESS && r.value.progress == Begin(NO_PROGRESS, order) && pieces[order.index].Some?))
  {
  }

  lemma {:induction false} TakingKeepsLeeching(leech: Loop, up: seq<PeerMessage>, seeder: Node, down: seq<PeerMessage>,
                                               t: Torrent, order: PieceOrder)
    requires Leeching(leech, up, seeder, down, t) && Addressable(t)
    requires order.index < t.NumPieces() && order.length == t.pieceLength
    ensures var r := GetPiece(leech, t.NumPieces(), Some(order));
      && r.Ok? && Leeching(r.value, up, seeder, down, t)
      && r.value.log == leech.log && r.value.requested == leech.requested
  {
    TakingCases(leech, order, seeder.pieces);
    BeginKeepsInv(order);
  }

  lemma {:induction false} SendingBlockKeepsLeeching(leech: Loop, up: seq<PeerMessage>, seeder: Node,
                                                     down: seq<PeerMessage>,
                                                     t: Torrent, m: PeerMessage, next: Node)
    requires Leeching(leech, up, seeder, down, t) && seeder.loop.requested != []
    requires GoodForLeech(m, seeder.pieces) && BlockIn(m) == multiset{seeder.loop.requested[0]}
    requires next.pieces == seeder.pieces && next.loop.requested == SwapRemove(seeder.loop.requested, 0)
    ensures Leeching(leech, up, next, down + [m], t)
  {
    GatherAppend(BlockIn, down, m);
    SwapRemoveMultiset(seeder.loop.requested, 0);
    assert seeder.loop.requested[0] in multiset(seeder.loop.requested);
  }

  /** Everything the seeder is asked for is a block of a piece that it holds. */
  lemma {:induction false} RequestedIsHeld(leech: Loop, up: seq<PeerMessage>, seeder: Node, down: seq<PeerMessage>,
                                           t: Torrent, r: Request)
    requires Leeching(leech, up, seeder, down, t) && Addressable(t) && r in seeder.loop.requested
    ensures r.index < |seeder.pieces| && seeder.pieces[r.index].Some?
    ensures r.start + r.length <= |seeder.pieces[r.index].value.data|
    ensures 1 <= r.length <= CHUNK_SIZE && FitsUint32(r.index) && FitsUint32(r.start)
  {
    assert r in multiset(seeder.loop.requested);
    assert r in multiset(leech.progress.requests);
    OutstandingIsPlanned(leech.progress, r);
  }

  lemma {:induction false} ServableChunk(l: Loop, pieces: seq<Option<Piece>>, r: Request, data: seq<byte>)
    requires !l.peer.choking && l.peer.interested && l.requested != [] && l.requested[0] == r
    requires r.index < |pieces| && pieces[r.index].Some? && pieces[r.index].value.data == data
    requires r.start + r.length <= |data| && 1 <= r.length <= CHUNK_SIZE && FitsUint32(r.index) && FitsUint32(r.start)
    ensures var m := PieceMessage(r.index, r.start, data[r.start..r.start + r.length]);
      && ChunkToSend(l, pieces) == Ok(Some(m))
      && DeserializePieceMsg(m) == Ok((r.index, r.start, data[r.start..r.start + r.length]))
  {
    var block := data[r.start..r.start + r.length];
    SerializeSucceedsIff(PieceMessage(r.index, r.start, block));
    PieceRoundTrip(r.index, r.start, block);
  }

  /** The front request names a block that the seeder has, so it is served. */
  lemma {:induction false} ServingKeepsLeeching(leech: Loop, up: seq<PeerMessage>, seeder: Node, down: seq<PeerMessage>,
                                                t: Torrent) returns (m: PeerMessage)
    requires Leeching(leech, up, seeder, down, t) && Addressable(t)
    requires !seeder.loop.peer.choking && seeder.loop.peer.interested && seeder.loop.requested != []
    ensures ChunkToSend(seeder.loop, seeder.pieces) == Ok(Some(m))
    ensures Leeching(leech, up, seeder.(loop := SendChunk(seeder.loop, m, Reliable())), down + [m], t)
  {
    var l, r := seeder.loop, seeder.loop.requested[0];
    RequestedIsHeld(leech, up, seeder, down, t, r);
    ServableChunk(l, seeder.pieces, r, seeder.pieces[r.index].value.data);
    m := ChunkToSend(l, seeder.pieces).value.value;
    SendingBlockKeepsLeeching(leech, up, seeder, down, t, m, seeder.(loop := SendChunk(l, m, Reliable())));
  }

  lemma {:induction false} UploadKeepsLeeching(leech: Loop, up: seq<PeerMessage>, seeder: Node, down: seq<PeerMessage>,
                                               t: Torrent)
    requires Leeching(leech, up, seeder, down, t) && Addressable(t)
    ensures var c := ChunkToSend(seeder.loop, seeder.pieces);
      && c.Ok?
      && (c.value.None? <==> seeder.loop.peer.choking || !seeder.loop.peer.interested || seeder.loop.requested == [])
      && (c.value.Some? ==>
            var next := seeder.(loop := SendChunk(seeder.loop, c.value.value, Reliable()));
            Leeching(leech, up, next, down + [c.value.value], t))
  {
    var l := seeder.loop;
    if !l.peer.choking && l.peer.interested && l.requested != [] {
      var m := ServingKeepsLeeching(leech, up, seeder, down, t);
    }
  }

  lemma {:induction false} StoringKeepsLeeching(leech: Loop, up: seq<PeerMessage>, seeder: Node, down: seq<PeerMessage>,
                                                t: Torrent, p: Piece)
    requires Leeching(leech, up, seeder, down, t)
    requires p.index < t.NumPieces() && |p.data| == t.pieceLength
    ensures Leeching(leech, up, seeder.(pieces := Keep(seeder.pieces, p)), down, t)
  {
    var kept := Keep(seeder.pieces, p);
    forall m | m in down
      ensures GoodForLeech(m, kept)
    {
      assert GoodForLeech(m, seeder.pieces);
    }
  }

  /** The seeder takes the message at the front of `up`. */
  lemma {:induction false} SeederReceivingKeepsLeeching(leech: Loop, up: seq<PeerMessage>, seeder: Node,
                                                        down: seq<PeerMessage>,
                                                        t: Torrent, next: Node)
    requires Leeching(leech, up, seeder, down, t) && up != []
    requires next.pieces == seeder.pieces
    requires multiset(next.loop.requested) == multiset(seeder.loop.requested) + RequestIn(up[0])
    ensures Leeching(leech, up[1..], next, down, t)
  {
  }

  /** The leech takes a message without a block from the front of `down`. */
  lemma {:induction false} LeechReceivingOtherKeepsLeeching(leech: Loop, up: seq<PeerMessage>, seeder: Node,
                                                            down: seq<PeerMessage>, t: Torrent, next: Loop)
    requires Leeching(leech, up, seeder, down, t) && down != []
    requires down[0].code != PIECE
    requires next.progress == leech.progress && Knows(next.peer.bitfield, seeder.pieces)
    ensures Leeching(next, up, seeder, down[1..], t)
  {
  }

  /** A block at the front of `down` answers an outstanding request, so it is accepted. */
  lemma {:induction false} BlockIsExpected(leech: Loop, up: seq<PeerMessage>, seeder: Node, down: seq<PeerMessage>,
                                           t: Torrent,
                                           index: nat, begin: nat, block: seq<byte>)
    requires Leeching(leech, up, seeder, down, t) && down != []
    requires DeserializePieceMsg(down[0]) == Ok((index, begin, block))
    ensures Request(index, begin, |block|) in leech.progress.requests
    ensures leech.progress.order.Some? && index == leech.progress.order.value.index
    ensures IsBlockOf(seeder.pieces, index, begin, block)
  {
    var q := Request(index, begin, |block|);
    assert BlocksIn(down) == multiset{q} + BlocksIn(down[1..]);
    assert q in multiset(leech.progress.requests);
    OutstandingIsPlanned(leech.progress, q);
    assert GoodForLeech(down[0], seeder.pieces);
  }

  lemma {:induction false} AcceptedFromSeeder(p: Progress, pieces: seq<Option<Piece>>, t: Torrent,
                                              index: nat, begin: nat, block: seq<byte>)
    requires FromSeeder(p, pieces, t) && Accept(p, index, begin, block).Ok? && IsBlockOf(pieces, index, begin, block)
    ensures FromSeeder(Accept(p, index, begin, block).value, pieces, t)
  {
    assert Accept(p, index, begin, block).value.accepted == p.accepted + [Chunk(begin, block)];
  }

  lemma {:induction false} LeechReceivingBlockKeepsLeeching(leech: Loop, up: seq<PeerMessage>, seeder: Node,
                                                            down: seq<PeerMessage>, t: Torrent,
                                                            index: nat, begin: nat, block: seq<byte>)
    requires Leeching(leech, up, seeder, down, t) && down != []
    requires DeserializePieceMsg(down[0]) == Ok((index, begin, block))
    ensures Accept(leech.progress, index, begin, block).Ok?
    ensures Leeching(leech.(progress := Accept(leech.progress, index, begin, block).value), up, seeder, down[1..], t)
  {
    BlockIsExpected(leech, up, seeder, down, t, index, begin, block);
    AcceptKeepsInv(leech.progress, index, begin, block);
    AcceptedFromSeeder(leech.progress, seeder.pieces, t, index, begin, block);
    assert BlocksIn(down) == multiset{Request(index, begin, |block|)} + BlocksIn(down[1..]);
  }

  // ---------- Both directions together ----------

  ghost predicate Both(a: Node, toB: seq<PeerMessage>, b: Node, toA: seq<PeerMessage>, t: Torrent) {
    Leeching(a.loop, toB, b, toA, t) && Leeching(b.loop, toA, a, toB, t)
  }

  predicate Plain(m: PeerMessage) {
    m.code != REQUEST && m.code != PIECE && m.code != BITFIELD && (m.code == HAVE ==> |m.data| >= 4)
  }

  /** What a part of the loop body does when it succeeds: it writes some messages, and both directions stay sound. */
  ghost predicate PartIsSound(a: Node, toB: seq<PeerMessage>, b: Node, toA: seq<PeerMessage>, t: Torrent, next: Loop) {
    var msgs := Written(a.loop.log, next.log);
    AllFramable(msgs) && Both(a.(loop := next), toB + msgs, b, toA, t)
  }

  lemma {:induction false} WrittenOne(log: seq<Action>, m: PeerMessage)
    ensures Written(log, log + [Sent(m)]) == [m]
  {
    assert (log + [Sent(m)])[|log|..] == [Sent(m)];
    assert Outgoing([Sent(m)][1..]) == [];
  }

  lemma {:induction false} WrittenNone(log: seq<Action>)
    ensures Written(log, log) == []
  {
    assert log[|log|..] == [];
  }

  lemma {:induction false} WrittenOneMore(log: seq<Action>, m: PeerMessage, after: seq<Action>)
    requires log + [Sent(m)] <= after
    ensures Written(log, after) == [m] + Written(log + [Sent(m)], after)
  {
    var rest := after[|log|..];
    assert rest[0] == Sent(m) && rest[1..] == after[|log| + 1..];
  }

  lemma {:induction false} PlainPart(a: Node, toB: seq<PeerMessage>, b: Node, toA: seq<PeerMessage>, t: Torrent,
                                     next: Loop, m: PeerMessage)
    requires Both(a, toB, b, toA, t) && Plain(m) && Framable(m)
    requires next.progress == a.loop.progress && next.peer.bitfield == a.loop.peer.bitfield
    requires next.requested == a.loop.requested && next.log == a.loop.log + [Sent(m)]
    ensures PartIsSound(a, toB, b, toA, t, next)
  {
    WrittenOne(a.loop.log, m);
    WritingOtherKeepsLeeching(a.loop, toB, b, toA, t, next, m);
    SeederWritingOtherKeepsLeeching(b.loop, toA, a, toB, t, a.(loop := next), m);
  }

  lemma {:induction false} SilentPart(a: Node, toB: seq<PeerMessage>, b: Node, toA: seq<PeerMessage>, t: Torrent,
                                      next: Loop)
    requires Both(a, toB, b, toA, t) && next.log == a.loop.log && next.requested == a.loop.requested
    requires Leeching(next, toB, b, toA, t)
    ensures PartIsSound(a, toB, b, toA, t, next)
  {
    WrittenNone(a.loop.log);
    assert toB + [] == toB;
  }

  lemma {:induction false} UploadPart(a: Node, toB: seq<PeerMessage>, b: Node, toA: seq<PeerMessage>, t: Torrent)
    requires Both(a, toB, b, toA, t) && Addressable(t)
    ensures var r := UploadChunk(a.loop, a.pieces, Reliable());
      r.Ok? && PartIsSound(a, toB, b, toA, t, r.value)
  {
    UploadKeepsLeeching(b.loop, toA, a, toB, t);
    match ChunkToSend(a.loop, a.pieces)
    case Ok(Some(m)) =>
      var next := SendChunk(a.loop, m, Reliable());
      SerializeSucceedsIff(m);
      WrittenOne(a.loop.log, m);
      WritingOtherKeepsLeeching(a.loop, toB, b, toA, t, next, m);
    case Ok(None) => SilentPart(a, toB, b, toA, t, a.loop);
  }

  lemma {:induction false} CompletePart(a: Node, toB: seq<PeerMessage>, b: Node, toA: seq<PeerMessage>, t: Torrent)
    requires Both(a, toB, b, toA, t)
    ensures PartIsSound(a, toB, b, toA, t, CompletePiece(a.loop, t.sha1, Reliable()))
  {
    var p := a.loop.progress;
    var next := CompletePiece(a.loop, t.sha1, Reliable());
    if p.order.None? || p.numDone != p.order.value.length {
      SilentPart(a, toB, b, toA, t, a.loop);
    } else {
      var reset := a.loop.(progress := NO_PROGRESS);
      CompletingKeepsLeeching(a.loop, toB, b, toA, t, reset);
      if t.sha1(p.buf) != p.order.value.hash {
        CompletingKeepsLeeching(a.loop, toB, b, toA, t, next);
        SilentPart(a, toB, b, toA, t, next);
      } else {
        var have := Message(HAVE, PutUint32(p.order.value.index));
        PlainPart(a.(loop := reset), toB, b, toA, t, next, have);
      }
    }
  }

  lemma {:induction false} TakePart(a: Node, toB: seq<PeerMessage>, b: Node, toA: seq<PeerMessage>, t: Torrent,
                                    order: PieceOrder)
    requires Both(a, toB, b, toA, t) && Addressable(t)
    requires order.index < t.NumPieces() && order.length == t.pieceLength
    ensures var r := GetPiece(a.loop, t.NumPieces(), Some(order));
      r.Ok? && PartIsSound(a, toB, b, toA, t, r.value)
  {
    TakingKeepsLeeching(a.loop, toB, b, toA, t, order);
    SilentPart(a, toB, b, toA, t, GetPiece(a.loop, t.NumPieces(), Some(order)).value);
  }

  lemma {:induction false} InterestedPart(a: Node, toB: seq<PeerMessage>, b: Node, toA: seq<PeerMessage>, t: Torrent)
    requires Both(a, toB, b, toA, t)
    ensures PartIsSound(a, toB, b, toA, t, SendInterested(a.loop, Reliable()))
  {
    var next := SendInterested(a.loop, Reliable());
    if next == a.loop {
      SilentPart(a, toB, b, toA, t, next);
    } else {
      PlainPart(a, toB, b, toA, t, next, Message(INTERESTED, []));
    }
  }

  lemma {:induction false} TickPart(a: Node, toB: seq<PeerMessage>, b: Node, toA: seq<PeerMessage>, t: Torrent,
                                    choke: bool)
    requires Both(a, toB, b, toA, t)
    ensures PartIsSound(a, toB, b, toA, t, SetChoking(a.loop, choke, Reliable()))
  {
    var next := SetChoking(a.loop, choke, Reliable());
    if choke == a.loop.peer.choking {
      SilentPart(a, toB, b, toA, t, next);
    } else {
      PlainPart(a, toB, b, toA, t, next, Message(if choke then CHOKE else UNCHOKE, []));
    }
  }

  lemma {:induction false} IssuePart(a: Node, toB: seq<PeerMessage>, b: Node, toA: seq<PeerMessage>, t: Torrent)
    requires Both(a, toB, b, toA, t) && Addressable(t)
    requires CanRequest(a.loop.progress) && |a.loop.progress.requests| < PIPELINE_LENGTH
    ensures var m := NextRequestMessage(a.loop.progress);
      Framable(m) && Both(a.(loop := SendRequest(a.loop, Reliable())), toB + [m], b, toA, t)
  {
    var m := NextRequestMessage(a.loop.progress);
    var next := SendRequest(a.loop, Reliable());
    IssuingKeepsLeeching(a.loop, toB, b, toA, t, next);
    SeederWritingOtherKeepsLeeching(b.loop, toA, a, toB, t, a.(loop := next), m);
  }

  /** A relation between the leech and its outgoing queue that one more request keeps. */
  ghost predicate KeptByRequests(rel: (Loop, seq<PeerMessage>) -> bool) {
    forall l, q :: rel(l, q) && CanRequest(l.progress) && |l.progress.requests| < PIPELINE_LENGTH ==>
      && Framable(NextRequestMessage(l.progress))
      && rel(SendRequest(l, Reliable()), q + [NextRequestMessage(l.progress)])
  }

  lemma {:induction false} RequestUpToKeeps(rel: (Loop, seq<PeerMessage>) -> bool, l: Loop, q: seq<PeerMessage>, n: nat)
    requires rel(l, q) && KeptByRequests(rel) && n + |l.progress.requests| <= PIPELINE_LENGTH
    ensures var last := RequestUpTo(l, n, Reliable());
      && l.log <= last.log
      && AllFramable(Written(l.log, last.log)) && rel(last, q + Written(l.log, last.log))
    decreases n
  {
    if n == 0 || !CanRequest(l.progress) {
      WrittenNone(l.log);
      assert q + [] == q;
    } else {
      var m := NextRequestMessage(l.progress);
      var next := SendRequest(l, Reliable());
      RequestUpToKeeps(rel, next, q + [m], n - 1);
      var last := RequestUpTo(next, n - 1, Reliable());
      WrittenOneMore(l.log, m, last.log);
      Assoc(q, [m], Written(next.log, last.log));
    }
  }

  ghost function BothAs(a: Node, b: Node, toA: seq<PeerMessage>, t: Torrent): (Loop, seq<PeerMessage>) -> bool {
    (l: Loop, q: seq<PeerMessage>) => Both(a.(loop := l), q, b, toA, t)
  }

  lemma {:induction false} RequestsKeepBoth(a: Node, b: Node, toA: seq<PeerMessage>, t: Torrent)
    requires Addressable(t)
    ensures KeptByRequests(BothAs(a, b, toA, t))
  {
    forall l, q | BothAs(a, b, toA, t)(l, q) && CanRequest(l.progress) && |l.progress.requests| < PIPELINE_LENGTH
      ensures Framable(NextRequestMessage(l.progress))
      ensures BothAs(a, b, toA, t)(SendRequest(l, Reliable()), q + [NextRequestMessage(l.progress)])
    {
      IssuePart(a.(loop := l), q, b, toA, t);
    }
  }

  lemma {:induction false} RequestUpToPart(a: Node, toB: seq<PeerMessage>, b: Node, toA: seq<PeerMessage>, t: Torrent,
                                           n: nat, last: Loop)
    requires KeptByRequests(BothAs(a, b, toA, t)) && BothAs(a, b, toA, t)(a.loop, toB)
    requires n + |a.loop.progress.requests| <= PIPELINE_LENGTH && last == RequestUpTo(a.loop, n, Reliable())
    ensures PartIsSound(a, toB, b, toA, t, last)
  {
    RequestUpToKeeps(BothAs(a, b, toA, t), a.loop, toB, n);
    assert BothAs(a, b, toA, t)(last, toB + Written(a.loop.log, last.log));
  }

  lemma {:induction false} FillPart(a: Node, toB: seq<PeerMessage>, b: Node, toA: seq<PeerMessage>, t: Torrent,
                                    next: Loop)
    requires Both(a, toB, b, toA, t) && Addressable(t)
    requires next == FillRequests(a.loop, Reliable())
    ensures PartIsSound(a, toB, b, toA, t, next)
  {
    FillCases(a.loop, Reliable());
    if next == a.loop {
      SilentPart(a, toB, b, toA, t, next);
    } else {
      RequestsKeepBoth(a, b, toA, t);
      assert BothAs(a, b, toA, t)(a.loop, toB);
      RequestUpToPart(a, toB, b, toA, t, PIPELINE_LENGTH - |a.loop.progress.requests|, next);
    }
  }

  lemma {:induction false} BlockIsHandled(l: Loop, m: PeerMessage, numPieces: nat, index: nat, begin: nat,
                                          block: seq<byte>)
    requires m.code == PIECE && DeserializePieceMsg(m) == Ok((index, begin, block))
    requires Accept(l.progress, index, begin, block).Ok?
    ensures HandleMessage(l, m, numPieces)
      == Ok(l.(log := l.log + [Got(m)], progress := Accept(l.progress, index, begin, block).value))
  {
  }

  lemma {:induction false} ReceiveBlockPart(a: Node, toB: seq<PeerMessage>, b: Node, toA: seq<PeerMessage>, t: Torrent)
    requires Both(a, toB, b, toA, t) && toA != [] && toA[0].code == PIECE
    ensures var r := HandleMessage(a.loop, toA[0], t.NumPieces());
      r.Ok? && Both(a.(loop := r.value), toB, b, toA[1..], t)
  {
    assert GoodForLeech(toA[0], b.pieces);
    var (index, begin, block) := DeserializePieceMsg(toA[0]).value;
    LeechReceivingBlockKeepsLeeching(a.loop, toB, b, toA, t, index, begin, block);
    BlockIsHandled(a.loop, toA[0], t.NumPieces(), index, begin, block);
    var p := Accept(a.loop.progress, index, begin, block).value;
    var next := HandleMessage(a.loop, toA[0], t.NumPieces()).value;
    SameProgress(a.loop.(progress := p), next, toB, b, toA[1..], t);
    SeederReceivingKeepsLeeching(b.loop, toA, a, toB, t, a.(loop := next));
  }

  lemma {:induction false} OtherMessageIsHandled(l: Loop, m: PeerMessage, pieces: seq<Option<Piece>>)
    requires m.code != PIECE && GoodForLeech(m, pieces) && GoodForSeeder(m) && Knows(l.peer.bitfield, pieces)
    ensures var r := HandleMessage(l, m, |pieces|);
      && r.Ok? && r.value.progress == l.progress && Knows(r.value.peer.bitfield, pieces)
      && multiset(r.value.requested) == multiset(l.requested) + RequestIn(m)
  {
  }

  lemma {:induction false} ReceiveOtherPart(a: Node, toB: seq<PeerMessage>, b: Node, toA: seq<PeerMessage>, t: Torrent)
    requires Both(a, toB, b, toA, t) && toA != [] && toA[0].code != PIECE
    ensures var r := HandleMessage(a.loop, toA[0], t.NumPieces());
      r.Ok? && Both(a.(loop := r.value), toB, b, toA[1..], t)
  {
    OtherMessageIsHandled(a.loop, toA[0], b.pieces);
    var next := HandleMessage(a.loop, toA[0], t.NumPieces()).value;
    LeechReceivingOtherKeepsLeeching(a.loop, toB, b, toA, t, next);
    SeederReceivingKeepsLeeching(b.loop, toA, a, toB, t, a.(loop := next));
  }

  /** No message from a bitflood client is refused, and none makes the receiver panic. */
  lemma {:induction false} ReceivePart(a: Node, toB: seq<PeerMessage>, b: Node, toA: seq<PeerMessage>, t: Torrent)
    requires Both(a, toB, b, toA, t) && toA != []
    ensures var r := HandleMessage(a.loop, toA[0], t.NumPieces());
      r.Ok? && Both(a.(loop := r.value), toB, b, toA[1..], t)
  {
    if toA[0].code == PIECE {
      ReceiveBlockPart(a, toB, b, toA, t);
    } else {
      ReceiveOtherPart(a, toB, b, toA, t);
    }
  }

  lemma {:induction false} SameProgress(l: Loop, next: Loop, up: seq<PeerMessage>, seeder: Node,
                                        down: seq<PeerMessage>, t: Torrent)
    requires Leeching(l, up, seeder, down, t)
    requires next.progress == l.progress && next.peer.bitfield == l.peer.bitfield
    ensures Leeching(next, up, seeder, down, t)
  {
  }

  /** A keep-alive carries nothing. */
  lemma {:induction false} KeepAlivePart(a: Node, toB: seq<PeerMessage>, b: Node, toA: seq<PeerMessage>, t: Torrent)
    requires Both(a, toB, b, toA, t) && toA != [] && toA[0] == KEEP_ALIVE
    ensures Both(a, toB, b, toA[1..], t)
  {
    LeechReceivingOtherKeepsLeeching(a.loop, toB, b, toA, t, a.loop);
    SeederReceivingKeepsLeeching(b.loop, toA, a, toB, t, a);
  }

  // ---------- Every run ----------

  predicate ValidAct(act: Act, t: Torrent) {
    match act
    case Take(order) => order.index < t.NumPieces() && order.length == t.pieceLength
    case Store(p) => p.index < t.NumPieces() && |p.data| == t.pieceLength
    case _ => true
  }

  predicate ValidMove(move: Move, t: Torrent) {
    ValidAct(move.act, t)
  }

  lemma {:induction false} LoopPartIsSound(s: Pair, act: Act, t: Torrent)
    requires Joined(s, t) && Addressable(t) && ValidAct(act, t) && !act.Receive? && !act.Store?
    ensures var r := LoopPart(s.a.loop, act, s.a.pieces, t);
      r.Ok? && PartIsSound(s.a, Under(s.ab), s.b, Under(s.ba), t, r.value)
  {
    match act
    case Upload => UploadPart(s.a, Under(s.ab), s.b, Under(s.ba), t);
    case Complete => CompletePart(s.a, Under(s.ab), s.b, Under(s.ba), t);
    case Take(order) => TakePart(s.a, Under(s.ab), s.b, Under(s.ba), t, order);
    case Interested => InterestedPart(s.a, Under(s.ab), s.b, Under(s.ba), t);
    case Fill => FillPart(s.a, Under(s.ab), s.b, Under(s.ba), t, FillRequests(s.a.loop, Reliable()));
    case Tick(choke) => TickPart(s.a, Under(s.ab), s.b, Under(s.ba), t, choke);
  }

  lemma {:induction false} StepAKeepsJoined(s: Pair, act: Act, t: Torrent)
    requires Joined(s, t) && Addressable(t) && ValidAct(act, t)
    ensures StepA(s, act, t).Ok? && Joined(StepA(s, act, t).value, t)
  {
    match act
    case Store(p) => StoringKeepsLeeching(s.b.loop, Under(s.ba), s.a, Under(s.ab), t, p);
    case Receive =>
      ReadDequeues(s.ba);
      if Under(s.ba) != [] {
        FrameOfDeserialized(s.ba);
        if Under(s.ba)[0].keepAlive {
          KeepAlivePart(s.a, Under(s.ab), s.b, Under(s.ba), t);
        } else {
          ReceivePart(s.a, Under(s.ab), s.b, Under(s.ba), t);
        }
      }
    case _ =>
      LoopPartIsSound(s, act, t);
      var l := LoopPart(s.a.loop, act, s.a.pieces, t).value;
      WriteEnqueues(s.ab, Written(s.a.loop.log, l.log));
  }

  lemma {:induction false} StepKeepsJoined(s: Pair, move: Move, t: Torrent)
    requires Joined(s, t) && Addressable(t) && ValidMove(move, t)
    ensures Step(s, move, t).Ok? && Joined(Step(s, move, t).value, t)
  {
    match move
    case ByA(act) => StepAKeepsJoined(s, act, t);
    case ByB(act) => StepAKeepsJoined(Swap(s), act, t);
  }

  /** Over every interleaving of what the two clients do, nothing fails, nothing panics, and requests are
      conserved in both directions. */
  lemma {:induction false} RunKeepsJoined(s: Pair, moves: seq<Move>, t: Torrent)
    requires Joined(s, t) && Addressable(t)
    requires forall m :: m in moves ==> ValidMove(m, t)
    ensures RunPair(s, moves, t).Ok? && Joined(RunPair(s, moves, t).value, t)
    decreases moves
  {
    if moves != [] {
      StepKeepsJoined(s, moves[0], t);
      RunKeepsJoined(Step(s, moves[0], t).value, moves[1..], t);
    }
  }

  // ---------- What it means for a whole connection ----------

  /** A field that `New` or `NewFull` made, with bits set only for pieces that are held. */
  ghost predicate FieldOf(field: seq<bv8>, pieces: seq<Option<Piece>>) {
    && Claims(field, pieces)
    && (|field| == |pieces| / 8 + 1 || |field| == BytesFor(|pieces|))
  }

  lemma {:induction false} OpenedStream(field: seq<bv8>, t: Torrent)
    requires Addressable(t) && (|field| == t.NumPieces() / 8 + 1 || |field| == BytesFor(t.NumPieces()))
    ensures var m := Message(BITFIELD, ToWire(field));
      Framable(m) && ReadAll(Frames([m])) == Stream([m], []) && FromWire(m.data) == field
      && RequestsIn([m]) == multiset{} && BlocksIn([m]) == multiset{}
  {
    var m := Message(BITFIELD, ToWire(field));
    StreamFraming(Frames([m]), [m]);
    FieldSurvivesTheWire(field);
    assert RequestsIn([m]) == RequestIn(m) + RequestsIn([]);
    assert BlocksIn([m]) == BlockIn(m) + BlocksIn([]);
  }

  lemma {:induction false} OpenedIsJoined(aId: string, bId: string, aPieces: seq<Option<Piece>>,
                                          bPieces: seq<Option<Piece>>,
                                          aField: seq<bv8>, bField: seq<bv8>, t: Torrent)
    requires Addressable(t) && Holds(aPieces, t) && Holds(bPieces, t)
    requires FieldOf(aField, aPieces) && FieldOf(bField, bPieces)
    requires |aField| == |bField| == BytesFor(t.NumPieces())
    ensures Joined(Opened(aId, bId, aPieces, bPieces, aField, bField), t)
  {
    OpenedStream(aField, t);
    OpenedStream(bField, t);
  }

  ghost predicate AllValid(moves: seq<Move>, t: Torrent) {
    forall m :: m in moves ==> ValidMove(m, t)
  }

  /** A field of the wrong length is the end of the connection: its receiver fails at once. */
  lemma {:induction false} WrongLengthFails(aId: string, bId: string, aPieces: seq<Option<Piece>>,
                                            bPieces: seq<Option<Piece>>,
                                              aField: seq<bv8>, bField: seq<bv8>, t: Torrent)
    returns (moves: seq<Move>)
    requires Addressable(t) && FieldOf(aField, aPieces) && FieldOf(bField, bPieces)
    requires Holds(aPieces, t) && Holds(bPieces, t)
    requires |aField| != BytesFor(t.NumPieces()) || |bField| != BytesFor(t.NumPieces())
    ensures AllValid(moves, t) && !RunPair(Opened(aId, bId, aPieces, bPieces, aField, bField), moves, t).Ok?
  {
    var s := Opened(aId, bId, aPieces, bPieces, aField, bField);
    OpenedStream(aField, t);
    OpenedStream(bField, t);
    ReadDequeues(s.ab);
    ReadDequeues(s.ba);
    var move := if |aField| != BytesFor(t.NumPieces()) then ByB(Receive) else ByA(Receive);
    moves := [move];
    assert Step(s, moves[0], t).Err?;
  }

  /** No run of the connection fails or panics if and only if both bitfields have the length that the
      receivers demand; otherwise the first message received closes the connection. */
  lemma {:induction false} ConnectionSurvivesIff(aId: string, bId: string, aPieces: seq<Option<Piece>>,
                                                 bPieces: seq<Option<Piece>>,
                                                 aField: seq<bv8>, bField: seq<bv8>, t: Torrent)
    requires Addressable(t) && Holds(aPieces, t) && Holds(bPieces, t)
    requires FieldOf(aField, aPieces) && FieldOf(bField, bPieces)
    ensures (forall moves :: AllValid(moves, t) ==>
      RunPair(Opened(aId, bId, aPieces, bPieces, aField, bField), moves, t).Ok?)
      <==> |aField| == BytesFor(t.NumPieces()) && |bField| == BytesFor(t.NumPieces())
  {
    var s := Opened(aId, bId, aPieces, bPieces, aField, bField);
    if |aField| == BytesFor(t.NumPieces()) && |bField| == BytesFor(t.NumPieces()) {
      OpenedIsJoined(aId, bId, aPieces, bPieces, aField, bField, t);
      forall moves | AllValid(moves, t)
        ensures RunPair(s, moves, t).Ok?
      {
        RunKeepsJoined(s, moves, t);
      }
    } else {
      var moves := WrongLengthFails(aId, bId, aPieces, bPieces, aField, bField, t);
    }
  }

  /** Two clients that both hold only part of the torrent (fields from `New`) can talk to each other exactly
      when 8 does not divide the number of pieces. */
  lemma {:induction false} PartialClientsSurviveIff(aId: string, bId: string, aPieces: seq<Option<Piece>>,
                                                    bPieces: seq<Option<Piece>>,
                                                    aField: seq<bv8>, bField: seq<bv8>, t: Torrent)
    requires Addressable(t) && Holds(aPieces, t) && Holds(bPieces, t)
    requires Claims(aField, aPieces) && Claims(bField, bPieces)
    requires |aField| == |bField| == t.NumPieces() / 8 + 1
    ensures (forall moves :: AllValid(moves, t) ==>
      RunPair(Opened(aId, bId, aPieces, bPieces, aField, bField), moves, t).Ok?)
      <==> t.NumPieces() % 8 != 0
  {
    ConnectionSurvivesIff(aId, bId, aPieces, bPieces, aField, bField, t);
    NewHasTheExpectedLengthIff(t.NumPieces());
  }

  lemma {:induction false} CompleteByte(p: Progress, pieces: seq<Option<Piece>>, b: nat)
    requires Inv(p) && p.order.Some? && p.numDone == p.order.value.length && b < p.order.value.length
    requires forall c :: c in p.accepted ==> IsBlockOf(pieces, p.order.value.index, c.start, c.data)
    ensures p.order.value.index < |pieces| && pieces[p.order.value.index].Some?
    ensures b < |p.buf| && b < |pieces[p.order.value.index].value.data|
      && p.buf[b] == pieces[p.order.value.index].value.data[b]
  {
    CompleteIff(p);
    Tiling(p, b);
    var i := WriterOf(p, b);
    assert p.accepted[i] in p.accepted;
  }

  /** A complete buffer holds the seeder's piece, whatever order its blocks came in. */
  lemma {:induction false} CompleteIsSeedersPiece(leech: Loop, up: seq<PeerMessage>, seeder: Node,
                                                  down: seq<PeerMessage>, t: Torrent)
    requires Leeching(leech, up, seeder, down, t)
    requires leech.progress.order.Some? && leech.progress.numDone == leech.progress.order.value.length
    ensures leech.progress.buf == seeder.pieces[leech.progress.order.value.index].value.data
  {
    var p := leech.progress;
    var data := seeder.pieces[p.order.value.index].value.data;
    forall b | 0 <= b < |p.buf|
      ensures p.buf[b] == data[b]
    {
      CompleteByte(p, seeder.pieces, b);
    }
  }

  /** A complete piece is the seeder's, with nothing left under way for it. */
  ghost predicate ExactWhenComplete(leech: Loop, up: seq<PeerMessage>, seeder: Node, down: seq<PeerMessage>) {
    var p := leech.progress;
    p.order.Some? && p.numDone == p.order.value.length ==>
      && p.order.value.index < |seeder.pieces| && seeder.pieces[p.order.value.index].Some?
      && p.buf == seeder.pieces[p.order.value.index].value.data
      && RequestsIn(up) == multiset(seeder.loop.requested) == BlocksIn(down) == multiset{}
  }

  lemma {:induction false} LeechIsExact(leech: Loop, up: seq<PeerMessage>, seeder: Node, down: seq<PeerMessage>,
                                        t: Torrent)
    requires Leeching(leech, up, seeder, down, t)
    ensures ExactWhenComplete(leech, up, seeder, down)
  {
    var p := leech.progress;
    if p.order.Some? && p.numDone == p.order.value.length {
      CompleteIsSeedersPiece(leech, up, seeder, down, t);
      CompletingKeepsLeeching(leech, up, seeder, down, t, leech.(progress := NO_PROGRESS));
    }
  }

  /** The two-party theorem, in both directions: at every point of every run nothing has failed, the outstanding
      requests are conserved, and a complete piece is that of the other side. */
  lemma {:induction false} TransferIsExact(aId: string, bId: string, aPieces: seq<Option<Piece>>,
                                           bPieces: seq<Option<Piece>>,
                                           aField: seq<bv8>, bField: seq<bv8>, t: Torrent, moves: seq<Move>)
    requires Addressable(t) && Holds(aPieces, t) && Holds(bPieces, t)
    requires FieldOf(aField, aPieces) && FieldOf(bField, bPieces)
    requires |aField| == |bField| == BytesFor(t.NumPieces()) && AllValid(moves, t)
    ensures var r := RunPair(Opened(aId, bId, aPieces, bPieces, aField, bField), moves, t);
      && r.Ok?
      && Conserved(r.value.a.loop, Under(r.value.ab), r.value.b.loop, Under(r.value.ba))
      && Conserved(r.value.b.loop, Under(r.value.ba), r.value.a.loop, Under(r.value.ab))
      && ExactWhenComplete(r.value.a.loop, Under(r.value.ab), r.value.b, Under(r.value.ba))
      && ExactWhenComplete(r.value.b.loop, Under(r.value.ba), r.value.a, Under(r.value.ab))
  {
    var s := Opened(aId, bId, aPieces, bPieces, aField, bField);
    OpenedIsJoined(aId, bId, aPieces, bPieces, aField, bField, t);
    RunKeepsJoined(s, moves, t);
    var r := RunPair(s, moves, t).value;
    LeechIsExact(r.a.loop, Under(r.ab), r.b, Under(r.ba), t);
    LeechIsExact(r.b.loop, Under(r.ba), r.a, Under(r.ab), t);
  }
}
