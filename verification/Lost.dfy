/** Which messages make a connection drop the order that it holds (client/peer.go:164-173), and what that costs. */
module Losses {
  import opened Types
  import opened BigEndian
  import opened Bitfields
  import opened PeerProtocol
  import opened Sums
  import opened Assembly
  import opened PeerLoop
  import opened Scheduler

  /** The request that a block answers. */
  function AnsweredBy(msg: PeerMessage): Request
    requires |msg.data| > 8
  {
    Request(Uint32(msg.data[0..4]), Uint32(msg.data[4..8]), |msg.data| - 8)
  }

  /** A field of the wrong length, a short REQUEST, a PIECE without a block, or a block that was not asked for
      while an order is held. */
  predicate IsRefused(l: Loop, msg: PeerMessage, numPieces: nat) {
    || (msg.code == BITFIELD && |msg.data| != BytesFor(numPieces))
    || (msg.code == REQUEST && |msg.data| < 12)
    || (msg.code == PIECE && |msg.data| <= 8)
    || (msg.code == PIECE && |msg.data| > 8 && l.progress.order.Some? && AnsweredBy(msg) !in l.progress.requests)
  }

  lemma {:induction false} AcceptNeverPanics(p: Progress, index: nat, begin: nat, data: seq<byte>)
    requires p.order.Some?
    ensures !Accept(p, index, begin, data).Panic?
  {
  }

  /** Handling a message is an error for exactly these messages. */
  lemma {:induction false} HandlingFailsIff(l: Loop, msg: PeerMessage, numPieces: nat)
    requires Inv(l.progress)
    ensures HandleMessage(l, msg, numPieces).Err? <==> IsRefused(l, msg, numPieces)
  {
    if msg.code == PIECE && |msg.data| > 8 && l.progress.order.Some? {
      var r := AnsweredBy(msg);
      AcceptKeepsInv(l.progress, r.index, r.start, msg.data[8..]);
      AcceptNeverPanics(l.progress, r.index, r.start, msg.data[8..]);
    }
  }

  /** A connection with an order held hears a message that it refuses. */
  predicate LosesOrder(s: System, move: Move, t: Torrent) {
    && move.Hear? && Idle(s, move.slot) && !move.msg.keepAlive
    && s.slots[move.slot].loop.progress.order.Some?
    && IsRefused(s.slots[move.slot].loop, move.msg, t.NumPieces())
  }

  lemma {:induction false} HeldIsNotLost(s: System, i: nat, t: Torrent)
    requires Accounted(s, t) && Idle(s, i) && s.slots[i].loop.progress.order.Some?
    ensures s.slots[i].loop.progress.order.value.index !in s.lost
  {
    var x := s.slots[i].loop.progress.order.value.index;
    SumAtLeastMember(SlotHas(x), s.slots, i);
    assert Owners(s, x) <= 1;
  }

  /** A step loses an order if and only if it is such a move; then it is the order that was held. */
  lemma {:induction false} StepLosesIff(s: System, move: Move, t: Torrent)
    requires Accounted(s, t) && Step(s, move, t).Ok?
    ensures Step(s, move, t).value.lost != s.lost <==> LosesOrder(s, move, t)
    ensures LosesOrder(s, move, t) ==>
      var x := s.slots[move.slot].loop.progress.order.value.index;
      x !in s.lost && Step(s, move, t).value.lost == s.lost + {x}
  {
    if move.Hear? && Idle(s, move.slot) {
      assert GoodSlot(s.slots[move.slot], t);
      HandlingFailsIff(s.slots[move.slot].loop, move.msg, t.NumPieces());
      if s.slots[move.slot].loop.progress.order.Some? {
        HeldIsNotLost(s, move.slot, t);
      }
    }
  }

  /** No move of the run loses an order at the point where it is made. */
  ghost predicate KeepsOrders(s: System, moves: seq<Move>, t: Torrent)
    decreases moves
  {
    moves != [] ==>
      && !LosesOrder(s, moves[0], t)
      && (Step(s, moves[0], t).Ok? ==> KeepsOrders(Step(s, moves[0], t).value, moves[1..], t))
  }

  lemma {:induction false} RunLosesIff(s: System, moves: seq<Move>, t: Torrent)
    requires Accounted(s, t) && RunSystem(s, moves, t).Ok?
    ensures s.lost <= RunSystem(s, moves, t).value.lost
    ensures RunSystem(s, moves, t).value.lost == s.lost <==> KeepsOrders(s, moves, t)
    decreases moves
  {
    if moves != [] {
      var next := Step(s, moves[0], t).value;
      StepLosesIff(s, moves[0], t);
      StepKeepsAccounted(s, moves[0], t);
      RunLosesIff(next, moves[1..], t);
    }
  }

  /** A download that has come to rest is complete if and only if no connection that held an order was sent a
      message that it refuses. */
  lemma {:induction false} DownloadCompletesIff(s: System, moves: seq<Move>, t: Torrent)
    requires Started(s, t) && RunSystem(s, moves, t).Ok? && Quiet(RunSystem(s, moves, t).value)
    ensures RunSystem(s, moves, t).value.results.piecesDone == t.NumPieces() <==> KeepsOrders(s, moves, t)
  {
    RunLosesIff(s, moves, t);
    RunKeepsAccounted(s, moves, t);
    CompleteIffNothingLost(RunSystem(s, moves, t).value, t);
  }

  // ---------- It happens ----------

  /** A new connection after the field of a peer that has every piece, and the order that it then takes. */
  lemma {:induction false} FieldAndOrder(id: string, numPieces: nat, o: PieceOrder) returns (l2: Loop, l4: Loop)
    requires o.index < numPieces
    ensures HandleMessage(Connected(id), Message(BITFIELD, FullWire(numPieces)), numPieces) == Ok(l2)
    ensures WantsOrder(l2, numPieces) && TakeOrder(l2, o) == Ok(l4)
    ensures l2.returned == l4.returned == [] && l2.finished == l4.finished == []
    ensures l4.progress.order == Some(o)
  {
    FullWireHasAll(numPieces, o.index);
    l2 := HandleMessage(Connected(id), Message(BITFIELD, FullWire(numPieces)), numPieces).value;
    l4 := TakeOrder(l2, o).value;
  }

  lemma {:induction false} FailAlone(s: System, l: Loop, o: PieceOrder, t: Torrent)
    requires s.slots == [Slot(l, None, true)] && l.progress.order == Some(o)
    ensures var r := Step(s, Hear(0, Message(REQUEST, [])), t);
      r.Ok? && r.value.lost == s.lost + {o.index}
  {
  }

  /** From every start with something to download, one connection is enough to lose an order for good: it announces
      every piece, is given an order, and then sends a REQUEST without a payload. */
  lemma {:induction false} AnOrderCanBeLost(s: System, id: string, t: Torrent) returns (moves: seq<Move>)
    requires Started(s, t) && s.orders != []
    ensures moves == [Join(id), Hear(0, Message(BITFIELD, FullWire(t.NumPieces()))), ReceiveOrder(0), JudgeOrder(0),
                      Hear(0, Message(REQUEST, []))]
    ensures RunSystem(s, moves, t).Ok? && RunSystem(s, moves, t).value.lost == {s.orders[0].index}
  {
    var field, o := Message(BITFIELD, FullWire(t.NumPieces())), s.orders[0];
    moves := [Join(id), Hear(0, field), ReceiveOrder(0), JudgeOrder(0), Hear(0, Message(REQUEST, []))];
    assert GoodOrder(o, t);
    var l1 := Connected(id);
    var l2, l4 := FieldAndOrder(id, t.NumPieces(), o);
    var s1 := s.(slots := [Slot(l1, None, true)]);
    var s2 := s.(slots := [Slot(l2, None, true)]);
    var s3 := s.(orders := s.orders[1..], slots := [Slot(l2, Some(o), true)]);
    var s4 := s3.(slots := [Slot(l4, None, true)]);
    JoinAlone(s, id, t);
    HearAlone(s1, l1, field, l2, t);
    ReceiveAlone(s2, l2, t);
    JudgeAlone(s3, l2, o, l4, t);
    FailAlone(s4, l4, o, t);
    Unroll5(s, moves, t, s1, s2, s3, s4);
  }
}
