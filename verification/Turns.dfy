/** The two-party system of module Transfer against the real loops: each half of an iteration of client/peer.go:97-204
    is a run of its moves. */
module Turns {
  import opened Types
  import opened Bitfields
  import opened PeerProtocol
  import opened Assembly
  import opened PeerLoop
  import opened Transfer

  /** What a loop does between two points at which it waits: the body down to the `select`, with the order that the
      channel offers, or one event. `Stores` is the main loop storing a piece. */
  datatype Turn = Body(offer: Option<PieceOrder>) | Hear | Tick(ids: seq<string>) | Stores(piece: Piece)

  datatype Half = OfA(turn: Turn) | OfB(turn: Turn)

  function RealConfig(t: Torrent): Config {
    Config(t.NumPieces(), t.sha1, Reliable())
  }

  function BodyOf(l: Loop, pieces: seq<Option<Piece>>, offer: Option<PieceOrder>, t: Torrent): Outcome<Loop> {
    Prepare(l, Surroundings(pieces, offer, UnchokeTick([])), RealConfig(t))
  }

  /** The pair after A's loop has become `l`: what it wrote is under way. */
  function AfterLoop(s: Pair, l: Loop): Pair {
    s.(a := s.a.(loop := l), ab := s.ab + Frames(Written(s.a.loop.log, l.log)))
  }

  function TurnOfA(s: Pair, turn: Turn, t: Torrent): Outcome<Pair> {
    match turn
    case Body(offer) =>
      (match BodyOf(s.a.loop, s.a.pieces, offer, t)
       case Ok(l) => Ok(AfterLoop(s, l))
       case Err => Err
       case Panic => Panic)
    case Hear =>
      (match Deserialize(s.ba)
       case Received(msg, rest) =>
         (match HandleEvent(s.a.loop, Incoming(msg), RealConfig(t))
          case Ok(l) => Ok(AfterLoop(s, l).(ba := rest))
          case Err => Err
          case Panic => Panic)
       case _ => Ok(s))
    case Tick(ids) =>
      (match HandleEvent(s.a.loop, UnchokeTick(ids), RealConfig(t))
       case Ok(l) => Ok(AfterLoop(s, l))
       case Err => Err
       case Panic => Panic)
    case Stores(p) => Ok(s.(a := s.a.(pieces := Transfer.Keep(s.a.pieces, p))))
  }

  function TakeTurn(s: Pair, half: Half, t: Torrent): Outcome<Pair> {
    match half
    case OfA(turn) => TurnOfA(s, turn, t)
    case OfB(turn) =>
      match TurnOfA(Swap(s), turn, t)
      case Ok(r) => Ok(Swap(r))
      case Err => Err
      case Panic => Panic
  }

  function RunTurns(s: Pair, halves: seq<Half>, t: Torrent): Outcome<Pair>
    decreases halves
  {
    if halves == [] then Ok(s)
    else match TakeTurn(s, halves[0], t)
      case Ok(r) => RunTurns(r, halves[1..], t)
      case Err => Err
      case Panic => Panic
  }

  predicate ValidTurn(turn: Turn, t: Torrent) {
    match turn
    case Body(Some(order)) => order.index < t.NumPieces() && order.length == t.pieceLength
    case Stores(p) => p.index < t.NumPieces() && |p.data| == t.pieceLength
    case _ => true
  }

  // ---------- What is written over several parts ----------

  lemma {:induction false} OutgoingConcat(a: seq<Action>, b: seq<Action>)
    ensures Outgoing(a + b) == Outgoing(a) + Outgoing(b)
  {
    if a == [] {
      assert [] + b == b;
    } else {
      var head := if a[0].Sent? then [a[0].msg] else [];
      OutgoingConcat(a[1..], b);
      assert (a + b)[0] == a[0] && (a + b)[1..] == a[1..] + b;
      Codec.Assoc(head, Outgoing(a[1..]), Outgoing(b));
    }
  }

  lemma {:induction false} WrittenConcat(a: seq<Action>, b: seq<Action>, c: seq<Action>)
    requires a <= b <= c
    ensures Written(a, c) == Written(a, b) + Written(b, c)
  {
    OutgoingConcat(b[|a|..], c[|b|..]);
    assert c[|a|..] == b[|a|..] + c[|b|..];
  }

  lemma {:induction false} AfterLoopTwice(s: Pair, l1: Loop, l2: Loop)
    requires s.a.loop.log <= l1.log <= l2.log
    ensures AfterLoop(AfterLoop(s, l1), l2) == AfterLoop(s, l2)
  {
    var first, second := Written(s.a.loop.log, l1.log), Written(l1.log, l2.log);
    WrittenConcat(s.a.loop.log, l1.log, l2.log);
    Codec.PrintAllConcat(Frame, first, second);
    Codec.Assoc(s.ab, Frames(first), Frames(second));
  }

  lemma {:induction false} RequestingGrows(l: Loop, n: nat)
    ensures l.log <= RequestUpTo(l, n, Reliable()).log
    decreases n
  {
    if n > 0 && CanRequest(l.progress) {
      RequestingGrows(SendRequest(l, Reliable()), n - 1);
    }
  }

  lemma {:induction false} PartGrows(l: Loop, act: Act, pieces: seq<Option<Piece>>, t: Torrent)
    requires !act.Receive? && !act.Store? && LoopPart(l, act, pieces, t).Ok?
    ensures l.log <= LoopPart(l, act, pieces, t).value.log
  {
    if act.Fill? && |l.progress.requests| < PIPELINE_LENGTH {
      RequestingGrows(l, PIPELINE_LENGTH - |l.progress.requests|);
    }
  }

  // ---------- The body is a run ----------

  lemma {:induction false} PartStep(s: Pair, act: Act, t: Torrent)
    requires Joined(s, t) && Addressable(t) && ValidAct(act, t) && !act.Receive? && !act.Store?
    ensures var r := LoopPart(s.a.loop, act, s.a.pieces, t);
      && r.Ok? && s.a.loop.log <= r.value.log
      && Step(s, ByA(act), t) == Ok(AfterLoop(s, r.value)) && Joined(AfterLoop(s, r.value), t)
  {
    StepAKeepsJoined(s, act, t);
    PartGrows(s.a.loop, act, s.a.pieces, t);
  }

  /** One more part after those that led from `s` to `l`. */
  lemma {:induction false} NextPart(s: Pair, l: Loop, act: Act, t: Torrent) returns (next: Loop)
    requires s.a.loop.log <= l.log && Joined(AfterLoop(s, l), t) && Addressable(t)
    requires ValidAct(act, t) && !act.Receive? && !act.Store?
    ensures LoopPart(l, act, s.a.pieces, t) == Ok(next) && s.a.loop.log <= next.log
    ensures Step(AfterLoop(s, l), ByA(act), t) == Ok(AfterLoop(s, next)) && Joined(AfterLoop(s, next), t)
  {
    PartStep(AfterLoop(s, l), act, t);
    next := LoopPart(l, act, s.a.pieces, t).value;
    AfterLoopTwice(s, l, next);
  }

  lemma {:induction false} RunCons(s: Pair, move: Move, moves: seq<Move>, t: Torrent, next: Pair, last: Pair)
    requires Step(s, move, t) == Ok(next) && RunPair(next, moves, t) == Ok(last)
    ensures RunPair(s, [move] + moves, t) == Ok(last)
  {
    assert ([move] + moves)[1..] == moves;
  }

  lemma {:induction false} RunConcat(s: Pair, first: seq<Move>, second: seq<Move>, t: Torrent, next: Pair)
    requires RunPair(s, first, t) == Ok(next)
    ensures RunPair(s, first + second, t) == RunPair(next, second, t)
    decreases first
  {
    if first == [] {
      assert [] + second == second;
    } else {
      assert (first + second)[0] == first[0] && (first + second)[1..] == first[1..] + second;
      RunConcat(Step(s, first[0], t).value, first[1..], second, t, next);
    }
  }

  lemma {:induction false} RunSnoc(s: Pair, moves: seq<Move>, move: Move, t: Torrent, next: Pair, last: Pair)
    requires RunPair(s, moves, t) == Ok(next) && Step(next, move, t) == Ok(last)
    ensures RunPair(s, moves + [move], t) == Ok(last)
  {
    RunConcat(s, moves, [move], t, next);
    assert [move][1..] == [];
  }

  function TakingMoves(offer: Option<PieceOrder>): seq<Move> {
    if offer.Some? then [ByA(Take(offer.value))] else []
  }

  lemma {:induction false} BodySplits(l: Loop, pieces: seq<Option<Piece>>, offer: Option<PieceOrder>, t: Torrent,
                                      l1: Loop, l2: Loop, l3: Loop, l4: Loop, l5: Loop)
    requires UploadChunk(l, pieces, Reliable()) == Ok(l1) && CompletePiece(l1, t.sha1, Reliable()) == l2
    requires GetPiece(l2, t.NumPieces(), offer) == Ok(l3) && SendInterested(l3, Reliable()) == l4
    requires FillRequests(l4, Reliable()) == l5
    ensures BodyOf(l, pieces, offer, t) == Ok(l5)
  {
  }

  lemma {:induction false} FirstParts(s: Pair, t: Torrent) returns (l1: Loop, l2: Loop)
    requires Joined(s, t) && Addressable(t)
    ensures UploadChunk(s.a.loop, s.a.pieces, Reliable()) == Ok(l1) && CompletePiece(l1, t.sha1, Reliable()) == l2
    ensures s.a.loop.log <= l2.log && Joined(AfterLoop(s, l2), t)
    ensures RunPair(s, [ByA(Upload), ByA(Complete)], t) == Ok(AfterLoop(s, l2))
  {
    PartStep(s, Upload, t);
    l1 := LoopPart(s.a.loop, Upload, s.a.pieces, t).value;
    l2 := NextPart(s, l1, Complete, t);
    RunCons(AfterLoop(s, l1), ByA(Complete), [], t, AfterLoop(s, l2), AfterLoop(s, l2));
    RunCons(s, ByA(Upload), [ByA(Complete)], t, AfterLoop(s, l1), AfterLoop(s, l2));
    assert [ByA(Complete)] + [] == [ByA(Complete)] && [ByA(Upload)] + [ByA(Complete)] == [ByA(Upload), ByA(Complete)];
  }

  lemma {:induction false} TakingPart(s: Pair, l2: Loop, offer: Option<PieceOrder>, t: Torrent) returns (l3: Loop)
    requires s.a.loop.log <= l2.log && Joined(AfterLoop(s, l2), t) && Addressable(t) && ValidTurn(Body(offer), t)
    ensures GetPiece(l2, t.NumPieces(), offer) == Ok(l3) && s.a.loop.log <= l3.log && Joined(AfterLoop(s, l3), t)
    ensures RunPair(AfterLoop(s, l2), TakingMoves(offer), t) == Ok(AfterLoop(s, l3))
  {
    if offer.Some? {
      l3 := NextPart(s, l2, Take(offer.value), t);
      RunSnoc(AfterLoop(s, l2), [], ByA(Take(offer.value)), t, AfterLoop(s, l2), AfterLoop(s, l3));
      assert [] + [ByA(Take(offer.value))] == TakingMoves(offer);
    } else {
      l3 := l2;
    }
  }

  function BodyMoves(offer: Option<PieceOrder>): seq<Move> {
    [ByA(Upload), ByA(Complete)] + TakingMoves(offer) + [ByA(Interested)] + [ByA(Fill)]
  }

  lemma {:induction false} Assemble(s: Pair, offer: Option<PieceOrder>, t: Torrent, s2: Pair, s3: Pair, s4: Pair,
                                    s5: Pair)
    requires RunPair(s, [ByA(Upload), ByA(Complete)], t) == Ok(s2) && RunPair(s2, TakingMoves(offer), t) == Ok(s3)
    requires Step(s3, ByA(Interested), t) == Ok(s4) && Step(s4, ByA(Fill), t) == Ok(s5)
    ensures RunPair(s, BodyMoves(offer), t) == Ok(s5)
  {
    var front := [ByA(Upload), ByA(Complete)];
    RunConcat(s, front, TakingMoves(offer), t, s2);
    RunSnoc(s, front + TakingMoves(offer), ByA(Interested), t, s3, s4);
    RunSnoc(s, front + TakingMoves(offer) + [ByA(Interested)], ByA(Fill), t, s4, s5);
  }

  /** The body of the loop, whether or not an order is offered, is a run of the moves, in the source's order. */
  lemma {:induction false} BodyIsARun(s: Pair, offer: Option<PieceOrder>, t: Torrent)
    requires Joined(s, t) && Addressable(t) && ValidTurn(Body(offer), t)
    ensures TurnOfA(s, Body(offer), t).Ok? && RunPair(s, BodyMoves(offer), t) == TurnOfA(s, Body(offer), t)
  {
    var l1, l2 := FirstParts(s, t);
    var l3 := TakingPart(s, l2, offer, t);
    var l4 := NextPart(s, l3, Interested, t);
    var l5 := NextPart(s, l4, Fill, t);
    BodySplits(s.a.loop, s.a.pieces, offer, t, l1, l2, l3, l4, l5);
    Assemble(s, offer, t, AfterLoop(s, l2), AfterLoop(s, l3), AfterLoop(s, l4), AfterLoop(s, l5));
  }

  // ---------- An event is a move ----------

  lemma {:induction false} SilentLoop(s: Pair, l: Loop)
    requires Written(s.a.loop.log, l.log) == []
    ensures AfterLoop(s, l) == s.(a := s.a.(loop := l))
  {
    assert Frames([]) == [] && s.ab + [] == s.ab;
  }

  lemma {:induction false} HandlingWritesNothing(l: Loop, msg: PeerMessage, numPieces: nat)
    requires HandleMessage(l, msg, numPieces).Ok?
    ensures Written(l.log, HandleMessage(l, msg, numPieces).value.log) == []
  {
    var next := HandleMessage(l, msg, numPieces).value;
    assert next.log == l.log + [Got(msg)];
    var added := next.log[|l.log|..];
    assert added == [Got(msg)] && added[1..] == [];
    assert !added[0].Sent? && Outgoing(added) == [] + Outgoing(added[1..]);
  }

  lemma {:induction false} MessageIsAMove(s: Pair, msg: PeerMessage, rest: seq<byte>, t: Torrent)
    requires Deserialize(s.ba) == Received(msg, rest)
    ensures Step(s, ByA(Receive), t) == TurnOfA(s, Hear, t)
  {
    if msg.keepAlive {
      WrittenNone(s.a.loop.log);
      SilentLoop(s, s.a.loop);
    } else if HandleMessage(s.a.loop, msg, t.NumPieces()).Ok? {
      HandlingWritesNothing(s.a.loop, msg, t.NumPieces());
      SilentLoop(s, HandleMessage(s.a.loop, msg, t.NumPieces()).value);
    }
  }

  lemma {:induction false} HearIsAMove(s: Pair, t: Torrent)
    ensures Step(s, ByA(Receive), t) == TurnOfA(s, Hear, t)
  {
    match Deserialize(s.ba)
    case Received(msg, rest) => MessageIsAMove(s, msg, rest, t);
    case _ =>
  }

  function MovesOf(s: Pair, turn: Turn): seq<Move> {
    match turn
    case Body(offer) => BodyMoves(offer)
    case Hear => [ByA(Receive)]
    case Tick(ids) => [ByA(Transfer.Tick(s.a.loop.peer.id !in ids))]
    case Stores(p) => [ByA(Store(p))]
  }

  lemma {:induction false} OneMove(s: Pair, move: Move, t: Torrent)
    ensures RunPair(s, [move], t) == Step(s, move, t)
  {
    assert [move][1..] == [];
  }

  lemma {:induction false} TickIsAMove(s: Pair, ids: seq<string>, t: Torrent)
    ensures Step(s, ByA(Transfer.Tick(s.a.loop.peer.id !in ids)), t) == TurnOfA(s, Turn.Tick(ids), t)
  {
  }

  lemma {:induction false} MovesAreValid(s: Pair, turn: Turn, t: Torrent)
    requires ValidTurn(turn, t)
    ensures AllValid(MovesOf(s, turn), t)
  {
  }

  lemma {:induction false} TurnIsARun(s: Pair, turn: Turn, t: Torrent)
    requires Joined(s, t) && Addressable(t) && ValidTurn(turn, t)
    ensures RunPair(s, MovesOf(s, turn), t) == TurnOfA(s, turn, t)
  {
    match turn
    case Body(offer) => BodyIsARun(s, offer, t);
    case Hear =>
      HearIsAMove(s, t);
      OneMove(s, ByA(Receive), t);
    case Tick(ids) =>
      TickIsAMove(s, ids, t);
      OneMove(s, ByA(Transfer.Tick(s.a.loop.peer.id !in ids)), t);
    case Stores(p) => OneMove(s, ByA(Store(p)), t);
  }

  // ---------- Both sides ----------

  function Flip(moves: seq<Move>): (r: seq<Move>)
    ensures |r| == |moves|
    ensures forall i :: 0 <= i < |moves| ==> r[i] == if moves[i].ByA? then ByB(moves[i].act) else ByA(moves[i].act)
  {
    seq(|moves|, i requires 0 <= i < |moves| => if moves[i].ByA? then ByB(moves[i].act) else ByA(moves[i].act))
  }

  function SwapOutcome(r: Outcome<Pair>): Outcome<Pair> {
    match r
    case Ok(s) => Ok(Swap(s))
    case Err => Err
    case Panic => Panic
  }

  lemma {:induction false} FlippedRun(s: Pair, moves: seq<Move>, t: Torrent)
    ensures RunPair(Swap(s), Flip(moves), t) == SwapOutcome(RunPair(s, moves, t))
    decreases moves
  {
    if moves != [] {
      assert Flip(moves)[1..] == Flip(moves[1..]);
      if Step(s, moves[0], t).Ok? {
        FlippedRun(Step(s, moves[0], t).value, moves[1..], t);
      }
    }
  }

  lemma {:induction false} FlippedValid(moves: seq<Move>, t: Torrent)
    requires AllValid(moves, t)
    ensures AllValid(Flip(moves), t)
  {
    forall move | move in Flip(moves)
      ensures ValidMove(move, t)
    {
      var i :| 0 <= i < |moves| && Flip(moves)[i] == move;
      assert moves[i] in moves;
    }
  }

  function HalfMoves(s: Pair, half: Half): seq<Move> {
    match half
    case OfA(turn) => MovesOf(s, turn)
    case OfB(turn) => Flip(MovesOf(Swap(s), turn))
  }

  lemma {:induction false} HalfIsARun(s: Pair, half: Half, t: Torrent)
    requires Joined(s, t) && Addressable(t) && ValidTurn(half.turn, t)
    ensures AllValid(HalfMoves(s, half), t) && RunPair(s, HalfMoves(s, half), t) == TakeTurn(s, half, t)
  {
    match half
    case OfA(turn) =>
      MovesAreValid(s, turn, t);
      TurnIsARun(s, turn, t);
    case OfB(turn) =>
      MovesAreValid(Swap(s), turn, t);
      FlippedValid(MovesOf(Swap(s), turn), t);
      TurnIsARun(Swap(s), turn, t);
      FlippedRun(Swap(s), MovesOf(Swap(s), turn), t);
  }

  ghost predicate AllTurnsValid(halves: seq<Half>, t: Torrent) {
    forall h :: h in halves ==> ValidTurn(h.turn, t)
  }

  /** Any interleaving of the two real loops, waiting point by waiting point, is a run of the moves. */
  lemma {:induction false} TurnsAreARun(s: Pair, halves: seq<Half>, t: Torrent) returns (moves: seq<Move>)
    requires Joined(s, t) && Addressable(t) && AllTurnsValid(halves, t)
    ensures AllValid(moves, t) && RunTurns(s, halves, t).Ok? && RunPair(s, moves, t) == RunTurns(s, halves, t)
    decreases halves
  {
    if halves == [] {
      moves := [];
    } else {
      var first := HalfMoves(s, halves[0]);
      HalfIsARun(s, halves[0], t);
      RunKeepsJoined(s, first, t);
      var next := TakeTurn(s, halves[0], t).value;
      var later := TurnsAreARun(next, halves[1..], t);
      RunConcat(s, first, later, t, next);
      moves := first + later;
    }
  }

  /** So the two-party theorem holds of the real loops. */
  lemma {:induction false} RealTransferIsExact(aId: string, bId: string, aPieces: seq<Option<Piece>>,
                                               bPieces: seq<Option<Piece>>,
                                               aField: seq<bv8>, bField: seq<bv8>, t: Torrent, halves: seq<Half>)
    requires Addressable(t) && Holds(aPieces, t) && Holds(bPieces, t)
    requires FieldOf(aField, aPieces) && FieldOf(bField, bPieces)
    requires |aField| == |bField| == BytesFor(t.NumPieces()) && AllTurnsValid(halves, t)
    ensures var r := RunTurns(Opened(aId, bId, aPieces, bPieces, aField, bField), halves, t);
      && r.Ok?
      && Conserved(r.value.a.loop, Under(r.value.ab), r.value.b.loop, Under(r.value.ba))
      && Conserved(r.value.b.loop, Under(r.value.ba), r.value.a.loop, Under(r.value.ab))
      && ExactWhenComplete(r.value.a.loop, Under(r.value.ab), r.value.b, Under(r.value.ba))
      && ExactWhenComplete(r.value.b.loop, Under(r.value.ba), r.value.a, Under(r.value.ab))
  {
    OpenedIsJoined(aId, bId, aPieces, bPieces, aField, bField, t);
    var moves := TurnsAreARun(Opened(aId, bId, aPieces, bPieces, aField, bField), halves, t);
    TransferIsExact(aId, bId, aPieces, bPieces, aField, bField, t, moves);
  }
}
