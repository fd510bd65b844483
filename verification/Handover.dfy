/** With genuine pieces at the other side, what a leech completes passes its hash check (client/peer.go:113-121,
    316-351). */
module Handover {
  import opened Types
  import opened Bitfields
  import opened PeerProtocol
  import opened Assembly
  import opened PeerLoop
  import opened Transfer
  import Requests
  import Scheduler

  /** The pieces have the torrent's hashes, each in its own place, and the order held is one of the main loop's. */
  ghost predicate Genuine(n: Node, t: Torrent) {
    && (forall i :: 0 <= i < |n.pieces| && n.pieces[i].Some? ==>
          n.pieces[i].value.index == i && Scheduler.GoodPiece(n.pieces[i].value, t))
    && (n.loop.progress.order.Some? ==> Scheduler.GoodOrder(n.loop.progress.order.value, t))
  }

  /** Orders are taken from those of the main loop, and the main loop stores pieces that have passed their check. */
  predicate GenuineAct(act: Act, t: Torrent) {
    match act
    case Take(order) => Scheduler.GoodOrder(order, t)
    case Store(p) => Scheduler.GoodPiece(p, t)
    case _ => true
  }

  ghost predicate AllGenuine(moves: seq<Move>, t: Torrent) {
    forall m :: m in moves ==> GenuineAct(m.act, t)
  }

  lemma {:induction false} GenuineIsValid(moves: seq<Move>, t: Torrent)
    requires AllGenuine(moves, t)
    ensures AllValid(moves, t)
  {
    forall m | m in moves
      ensures ValidMove(m, t)
    {
      assert GenuineAct(m.act, t);
    }
  }

  /** What the parts of the loop do with the order. */
  lemma {:induction false} PartKeepsOrder(l: Loop, act: Act, pieces: seq<Option<Piece>>, t: Torrent)
    requires !act.Receive? && !act.Store? && LoopPart(l, act, pieces, t).Ok?
    ensures var next := LoopPart(l, act, pieces, t).value;
      || next.progress.order == l.progress.order
      || next.progress.order.None?
      || (act.Take? && next.progress.order == Some(act.order))
  {
    if act.Fill? && |l.progress.requests| < PIPELINE_LENGTH {
      RequestingKeepsTheRest(l, PIPELINE_LENGTH - |l.progress.requests|, Reliable());
    }
  }

  lemma {:induction false} StepKeepsGenuine(s: Pair, act: Act, t: Torrent)
    requires Genuine(s.a, t) && GenuineAct(act, t) && StepA(s, act, t).Ok?
    ensures Genuine(StepA(s, act, t).value.a, t) && StepA(s, act, t).value.b == s.b
  {
    match act
    case Store(_) =>
    case Receive =>
      match Deserialize(s.ba) {
        case Received(msg, _) =>
          if !msg.keepAlive {
            Requests.MessageKeepsPlan(s.a.loop, msg, t.NumPieces());
          }
        case _ =>
      }
    case _ => PartKeepsOrder(s.a.loop, act, s.a.pieces, t);
  }

  lemma {:induction false} RunKeepsGenuine(s: Pair, moves: seq<Move>, t: Torrent)
    requires Genuine(s.a, t) && Genuine(s.b, t) && AllGenuine(moves, t) && RunPair(s, moves, t).Ok?
    ensures Genuine(RunPair(s, moves, t).value.a, t) && Genuine(RunPair(s, moves, t).value.b, t)
    decreases moves
  {
    if moves != [] {
      match moves[0] {
        case ByA(act) => StepKeepsGenuine(s, act, t);
        case ByB(act) => StepKeepsGenuine(Swap(s), act, t);
      }
      RunKeepsGenuine(Step(s, moves[0], t).value, moves[1..], t);
    }
  }

  /** A complete piece is handed over as the other side's, and its order does not go back. */
  ghost predicate HandsOver(leech: Loop, seeder: Node, t: Torrent) {
    var p := leech.progress;
    p.order.Some? && p.numDone == p.order.value.length ==>
      var next := CompletePiece(leech, t.sha1, Reliable());
      var x := p.order.value.index;
      && x < |seeder.pieces| && seeder.pieces[x].Some?
      && next.finished == leech.finished + [Piece(x, t.pieceLength, seeder.pieces[x].value.data, leech.peer.id)]
      && next.returned == leech.returned && next.progress == NO_PROGRESS
  }

  lemma {:induction false} CompleteIsHandedOver(leech: Node, up: seq<PeerMessage>, seeder: Node,
                                                down: seq<PeerMessage>, t: Torrent)
    requires Leeching(leech.loop, up, seeder, down, t) && Genuine(leech, t) && Genuine(seeder, t)
    ensures HandsOver(leech.loop, seeder, t)
  {
    var p := leech.loop.progress;
    if p.order.Some? && p.numDone == p.order.value.length {
      LeechIsExact(leech.loop, up, seeder, down, t);
      assert Scheduler.GoodPiece(seeder.pieces[p.order.value.index].value, t);
      assert t.sha1(p.buf) == p.order.value.hash;
    }
  }

  /** Between two clients with genuine pieces no download is ever wasted: at every point of every run, a piece that is
      complete passes its check and is handed over. */
  lemma {:induction false} NothingIsWasted(aId: string, bId: string, aPieces: seq<Option<Piece>>,
                                           bPieces: seq<Option<Piece>>,
                                           aField: seq<bv8>, bField: seq<bv8>, t: Torrent, moves: seq<Move>)
    requires Addressable(t) && Holds(aPieces, t) && Holds(bPieces, t)
    requires FieldOf(aField, aPieces) && FieldOf(bField, bPieces)
    requires |aField| == |bField| == BytesFor(t.NumPieces()) && AllGenuine(moves, t)
    requires var s := Opened(aId, bId, aPieces, bPieces, aField, bField);
      Genuine(s.a, t) && Genuine(s.b, t)
    ensures var r := RunPair(Opened(aId, bId, aPieces, bPieces, aField, bField), moves, t);
      r.Ok? && HandsOver(r.value.a.loop, r.value.b, t) && HandsOver(r.value.b.loop, r.value.a, t)
  {
    var s := Opened(aId, bId, aPieces, bPieces, aField, bField);
    GenuineIsValid(moves, t);
    OpenedIsJoined(aId, bId, aPieces, bPieces, aField, bField, t);
    RunKeepsJoined(s, moves, t);
    RunKeepsGenuine(s, moves, t);
    var r := RunPair(s, moves, t).value;
    CompleteIsHandedOver(r.a, Under(r.ab), r.b, Under(r.ba), t);
    CompleteIsHandedOver(r.b, Under(r.ba), r.a, Under(r.ab), t);
  }
}
