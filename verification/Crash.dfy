/** When the process comes down: the panics that a connection can bring about, and no others. */
module Crashes {
  import opened Types
  import opened Bitfields
  import opened PeerProtocol
  import opened Assembly
  import opened PeerLoop
  import opened Scheduler

  /** A field received from the other side can be read at every index below its length. */
  predicate Readable(b: Bits) {
    b.length <= 8 * |b.data|
  }

  ghost predicate FieldsReadable(s: System) {
    forall i :: 0 <= i < |s.slots| ==> Readable(s.slots[i].loop.peer.bitfield)
  }

  /** The 32-bit size of the buffer for a frame wraps around to less than its header. */
  predicate FrameWraps(dataLength: nat) {
    (5 + dataLength) % TWO_TO_THE_32 < 5
  }

  lemma {:induction false} SerializePanicsIff(msg: PeerMessage)
    ensures SerializeMessage(msg).Panic? <==> FrameWraps(|msg.data|)
  {
  }

  /** An upload of a piece that is not there (client/peer.go:225), or of a chunk of nearly 2^32 bytes. */
  predicate UploadIsFatal(l: Loop, pieces: seq<Option<Piece>>) {
    && !l.peer.choking && l.peer.interested && l.requested != []
    && var r := l.requested[0];
      && r.index < |pieces|
      && (pieces[r.index].None? || (r.start + r.length <= |pieces[r.index].value.data| && FrameWraps(8 + r.length)))
  }

  /** A HAVE too short for its index (line 373), or a PIECE while no order is held (line 398). */
  predicate IsFatal(l: Loop, msg: PeerMessage) {
    || (msg.code == HAVE && |msg.data| < 4)
    || (msg.code == PIECE && |msg.data| > 8 && l.progress.order.None?)
  }

  /** The moves that bring the process down. */
  predicate Crashes(s: System, move: Move) {
    match move
    case Work(i, part, _) => part == Upload && Idle(s, i) && UploadIsFatal(s.slots[i].loop, s.results.pieces)
    case Hear(i, msg) => Idle(s, i) && !msg.keepAlive && IsFatal(s.slots[i].loop, msg)
    case _ => false
  }

  lemma {:induction false} UploadFailsIff(l: Loop, pieces: seq<Option<Piece>>, net: Network)
    ensures UploadChunk(l, pieces, net).Ok? <==> !UploadIsFatal(l, pieces)
  {
    if l.requested != [] {
      var r := l.requested[0];
      if r.index < |pieces| && pieces[r.index].Some? && r.start + r.length <= |pieces[r.index].value.data| {
        SerializePanicsIff(PieceMessage(r.index, r.start, pieces[r.index].value.data[r.start..r.start + r.length]));
      }
    }
  }

  lemma {:induction false} HandlingPanicsIff(l: Loop, msg: PeerMessage, numPieces: nat)
    ensures HandleMessage(l, msg, numPieces).Panic? <==> IsFatal(l, msg)
  {
  }

  lemma {:induction false} PartKeepsReadable(l: Loop, part: Part, pieces: seq<Option<Piece>>, t: Torrent, net: Network)
    requires Readable(l.peer.bitfield) && DoPart(l, part, pieces, t, net).Ok?
    ensures Readable(DoPart(l, part, pieces, t, net).value.peer.bitfield)
  {
    if part.Fill? && |l.progress.requests| < PIPELINE_LENGTH {
      RequestingKeepsTheRest(l, PIPELINE_LENGTH - |l.progress.requests|, net);
    }
  }

  lemma {:induction false} HearingKeepsReadable(l: Loop, msg: PeerMessage, numPieces: nat)
    requires Readable(l.peer.bitfield) && HandleMessage(l, msg, numPieces).Ok?
    ensures Readable(HandleMessage(l, msg, numPieces).value.peer.bitfield)
  {
  }

  lemma {:induction false} PublishKeepsReadable(s: System, i: nat, l: Loop, alive: bool)
    requires FieldsReadable(s) && i < |s.slots| && Readable(l.peer.bitfield)
    ensures FieldsReadable(Publish(s, i, l, alive))
  {
  }

  lemma {:induction false} StepKeepsReadable(s: System, move: Move, t: Torrent)
    requires FieldsReadable(s) && Step(s, move, t).Ok?
    ensures FieldsReadable(Step(s, move, t).value)
  {
    match move
    case JudgeOrder(i) =>
      if i < |s.slots| && s.slots[i].alive && s.slots[i].inHand.Some? {
        PublishKeepsReadable(s, i, TakeOrder(s.slots[i].loop, s.slots[i].inHand.value).value, true);
      }
    case Work(i, part, net) =>
      if Idle(s, i) {
        PartKeepsReadable(s.slots[i].loop, part, s.results.pieces, t, net);
        PublishKeepsReadable(s, i, DoPart(s.slots[i].loop, part, s.results.pieces, t, net).value, true);
      }
    case Hear(i, msg) =>
      if Idle(s, i) && !msg.keepAlive && HandleMessage(s.slots[i].loop, msg, t.NumPieces()).Ok? {
        HearingKeepsReadable(s.slots[i].loop, msg, t.NumPieces());
        PublishKeepsReadable(s, i, HandleMessage(s.slots[i].loop, msg, t.NumPieces()).value, true);
      }
    case Close(i) => if Idle(s, i) { PublishKeepsReadable(s, i, Leave(s.slots[i].loop), false); }
    case Join(_) =>
    case ReceiveOrder(_) =>
    case StoreResult =>
  }

  /** A step fails if and only if it is one of those. */
  lemma {:induction false} StepFailsIff(s: System, move: Move, t: Torrent)
    requires Accounted(s, t) && FieldsReadable(s)
    ensures Step(s, move, t).Ok? <==> !Crashes(s, move)
  {
    match move
    case Work(i, part, net) => if Idle(s, i) && part.Upload? { UploadFailsIff(s.slots[i].loop, s.results.pieces, net); }
    case Hear(i, msg) => if Idle(s, i) { HandlingPanicsIff(s.slots[i].loop, msg, t.NumPieces()); }
    case StoreResult => StoreResultKeepsAccounted(s, t);
    case _ =>
  }

  /** No move of the run is fatal at the point where it is made. */
  ghost predicate Survives(s: System, moves: seq<Move>, t: Torrent)
    decreases moves
  {
    moves != [] ==> !Crashes(s, moves[0]) && (Step(s, moves[0], t).Ok? ==>
        Survives(Step(s, moves[0], t).value, moves[1..], t))
  }

  lemma {:induction false} RunFailsIff(s: System, moves: seq<Move>, t: Torrent)
    requires Accounted(s, t) && FieldsReadable(s)
    ensures RunSystem(s, moves, t).Ok? <==> Survives(s, moves, t)
    decreases moves
  {
    if moves != [] {
      StepFailsIff(s, moves[0], t);
      if Step(s, moves[0], t).Ok? {
        StepKeepsAccounted(s, moves[0], t);
        StepKeepsReadable(s, moves[0], t);
        RunFailsIff(Step(s, moves[0], t).value, moves[1..], t);
      }
    }
  }

  /** From the start, a run fails exactly by such an upload, a short HAVE, or a PIECE that nobody asked for: looking
      at the other side's field, storing a result and giving an order back never do. */
  lemma {:induction false} StartedRunFailsIff(s: System, moves: seq<Move>, t: Torrent)
    requires Started(s, t)
    ensures RunSystem(s, moves, t).Ok? <==> Survives(s, moves, t)
  {
    RunFailsIff(s, moves, t);
  }

  // ---------- Each of them happens ----------

  /** From every start, the first message of a connection can be fatal: a HAVE without an index. */
  lemma {:induction false} ShortHaveCrashes(s: System, id: string, t: Torrent)
    requires Started(s, t)
    ensures RunSystem(s, [Join(id), Hear(0, Message(HAVE, []))], t).Panic?
  {
    JoinAlone(s, id, t);
    var next := s.(slots := [Slot(Connected(id), None, true)]);
    RunFirst(next, Hear(0, Message(HAVE, [])), [], t);
    RunFirst(s, Join(id), [Hear(0, Message(HAVE, []))], t);
    assert [Join(id)] + [Hear(0, Message(HAVE, []))] == [Join(id), Hear(0, Message(HAVE, []))];
    assert [Hear(0, Message(HAVE, []))] + [] == [Hear(0, Message(HAVE, []))];
  }

  /** So can a block that nobody asked for, of any piece. */
  lemma {:induction false} UnaskedBlockCrashes(s: System, id: string, index: nat, begin: nat, block: seq<byte>,
                                               t: Torrent)
    requires Started(s, t) && block != []
    ensures RunSystem(s, [Join(id), Hear(0, PieceMessage(index, begin, block))], t).Panic?
  {
    JoinAlone(s, id, t);
    var next := s.(slots := [Slot(Connected(id), None, true)]);
    var hear := Hear(0, PieceMessage(index, begin, block));
    HandlingPanicsIff(next.slots[0].loop, hear.msg, t.NumPieces());
    RunFirst(next, hear, [], t);
    RunFirst(s, Join(id), [hear], t);
    assert [Join(id)] + [hear] == [Join(id), hear] && [hear] + [] == [hear];
  }

  lemma {:induction false} LastMove(s: System, l: Loop, net: Network, t: Torrent)
    requires s.slots == [Slot(l, None, true)] && UploadChunk(l, s.results.pieces, net).Panic?
    ensures Step(s, Work(0, Upload, net), t).Panic?
  {
  }

  /** A new connection after a tick that unchokes it, an INTERESTED, and a REQUEST. */
  lemma {:induction false} AskedFor(l: Loop, x: nat, net: Network, numPieces: nat)
    returns (l2: Loop, l3: Loop, l4: Loop)
    requires l.peer.choking && l.requested == [] && FitsUint32(x)
    ensures l2 == SetChoking(l, false, net)
    ensures HandleMessage(l2, Message(INTERESTED, []), numPieces) == Ok(l3)
    ensures HandleMessage(l3, RequestMessage(x, 0, 1), numPieces) == Ok(l4)
    ensures l.returned == l2.returned == l3.returned == l4.returned
    ensures l.finished == l2.finished == l3.finished == l4.finished
    ensures l4.requested == [Request(x, 0, 1)] && !l4.peer.choking && l4.peer.interested
  {
    RequestRoundTrip(x, 0, 1);
    l2 := SetChoking(l, false, net);
    l3 := HandleMessage(l2, Message(INTERESTED, []), numPieces).value;
    l4 := HandleMessage(l3, RequestMessage(x, 0, 1), numPieces).value;
  }

  lemma {:induction false} UploadNeverErrs(l: Loop, pieces: seq<Option<Piece>>, net: Network)
    ensures !UploadChunk(l, pieces, net).Err?
  {
  }

  /** And a request for a piece that is not there yet, once the other side is unchoked and interested. */
  lemma {:induction false} RequestForMissingPieceCrashes(s: System, id: string, x: nat, net: Network, t: Torrent)
    returns (moves: seq<Move>)
    requires Started(s, t) && x < t.NumPieces() && !Stored(s.results.pieces, x) && FitsUint32(x)
    ensures moves == [Join(id), Work(0, Tick(false), net), Hear(0, Message(INTERESTED, [])),
                      Hear(0, RequestMessage(x, 0, 1)), Work(0, Upload, net)]
    ensures RunSystem(s, moves, t).Panic?
  {
    var interest, request := Message(INTERESTED, []), RequestMessage(x, 0, 1);
    moves := [Join(id), Work(0, Tick(false), net), Hear(0, interest), Hear(0, request), Work(0, Upload, net)];
    JoinAlone(s, id, t);
    var s1 := s.(slots := [Slot(Connected(id), None, true)]);
    var l1 := s1.slots[0].loop;
    var l2, l3, l4 := AskedFor(l1, x, net, t.NumPieces());
    var s2 := s.(slots := [Slot(l2, None, true)]);
    var s3 := s.(slots := [Slot(l3, None, true)]);
    var s4 := s.(slots := [Slot(l4, None, true)]);
    TickAlone(s1, l1, false, net, t);
    HearAlone(s2, l2, interest, l3, t);
    HearAlone(s3, l3, request, l4, t);
    UploadFailsIff(l4, s.results.pieces, net);
    UploadNeverErrs(l4, s.results.pieces, net);
    LastMove(s4, l4, net, t);
    Unroll5(s, moves, t, s1, s2, s3, s4);
  }
}
