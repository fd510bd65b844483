/** N connections and the main loop sharing the Orders and Results channels: client/client.go and client/peer.go. */
module Scheduler {
  import opened Types
  import opened PeerProtocol
  import opened Sums
  import opened Assembly
  import opened PeerLoop

  /** types.Results: what the main loop has. The field is its sequence of bits. */
  datatype Results = Results(pieces: seq<Option<Piece>>, piecesDone: nat, field: seq<bool>)

  /** One connection: its loop, and the order that `getPiece` has taken off the channel but not yet judged. */
  datatype Slot = Slot(loop: Loop, inHand: Option<PieceOrder>, alive: bool)

  /** `lost` is history: the pieces whose order went down with a connection. */
  datatype System = System(orders: seq<PieceOrder>, slots: seq<Slot>, finished: seq<Piece>, results: Results,
                           lost: set<nat>)

  datatype Part = Upload | Complete | Interested | Fill | Tick(choke: bool)

  /** Any scheduling of the goroutines. `net` decides the writes of that step; `msg` may be anything. */
  datatype Move =
    | Join(id: string)
    | ReceiveOrder(slot: nat)
    | JudgeOrder(slot: nat)
    | Work(slot: nat, part: Part, net: Network)
    | Hear(slot: nat, msg: PeerMessage)
    | Close(slot: nat)
    | StoreResult

  function DoPart(l: Loop, part: Part, pieces: seq<Option<Piece>>, t: Torrent, net: Network): Outcome<Loop> {
    match part
    case Upload => UploadChunk(l, pieces, net)
    case Complete => Ok(CompletePiece(l, t.sha1, net))
    case Interested => Ok(SendInterested(l, net))
    case Fill => Ok(FillRequests(l, net))
    case Tick(choke) => Ok(SetChoking(l, choke, net))
  }

  function Since<T>(before: seq<T>, after: seq<T>): seq<T> {
    if |before| <= |after| then after[|before|..] else []
  }

  /** The connection's new state, with what it sent on the channels. */
  function Publish(s: System, i: nat, l: Loop, alive: bool): System
    requires i < |s.slots|
  {
    var before := s.slots[i].loop;
    s.(orders := s.orders + Since(before.returned, l.returned),
       finished := s.finished + Since(before.finished, l.finished),
       slots := s.slots[i := Slot(l, None, alive)])
  }

  /** The Results case of the main loop (client/client.go:143-151). */
  function Store(r: Results, p: Piece): Outcome<Results> {
    if p.index >= |r.pieces| then Panic
    else Ok(Results(r.pieces[p.index := Some(p)], r.piecesDone + 1,
                    if p.index < |r.field| then r.field[p.index := true] else r.field))
  }

  /** The error exit (client/peer.go:165-172): the one that does not give the order back. */
  function Fail(s: System, i: nat): System
    requires i < |s.slots|
  {
    var order := s.slots[i].loop.progress.order;
    s.(slots := s.slots[i := s.slots[i].(alive := false)],
       lost := if order.Some? then s.lost + {order.value.index} else s.lost)
  }

  predicate Idle(s: System, i: nat) {
    i < |s.slots| && s.slots[i].alive && s.slots[i].inHand.None?
  }

  /** A move that is not possible now leaves the system as it is. */
  function Step(s: System, move: Move, t: Torrent): Outcome<System> {
    match move
    case Join(id) => Ok(s.(slots := s.slots + [Slot(Connected(id), None, true)]))
    case ReceiveOrder(i) =>
      if Idle(s, i) && WantsOrder(s.slots[i].loop, t.NumPieces()) && s.orders != [] then
        Ok(s.(orders := s.orders[1..], slots := s.slots[i := s.slots[i].(inHand := Some(s.orders[0]))]))
      else Ok(s)
    case JudgeOrder(i) =>
      if i < |s.slots| && s.slots[i].alive && s.slots[i].inHand.Some? then
        (match TakeOrder(s.slots[i].loop, s.slots[i].inHand.value)
         case Ok(l) => Ok(Publish(s, i, l, true))
         case Err => Err
         case Panic => Panic)
      else Ok(s)
    case Work(i, part, net) =>
      if Idle(s, i) then
        (match DoPart(s.slots[i].loop, part, s.results.pieces, t, net)
         case Ok(l) => Ok(Publish(s, i, l, true))
         case Err => Err
         case Panic => Panic)
      else Ok(s)
    case Hear(i, msg) =>
      if Idle(s, i) && !msg.keepAlive then
        (match HandleMessage(s.slots[i].loop, msg, t.NumPieces())
         case Ok(l) => Ok(Publish(s, i, l, true))
         case Err => Ok(Fail(s, i))
         case Panic => Panic)
      else Ok(s)
    case Close(i) => if Idle(s, i) then Ok(Publish(s, i, Leave(s.slots[i].loop), false)) else Ok(s)
    case StoreResult =>
      if s.finished == [] then Ok(s)
      else match Store(s.results, s.finished[0])
        case Ok(r) => Ok(s.(results := r, finished := s.finished[1..]))
        case Err => Err
        case Panic => Panic
  }

  function RunSystem(s: System, moves: seq<Move>, t: Torrent): Outcome<System>
    decreases moves
  {
    if moves == [] then Ok(s)
    else match Step(s, moves[0], t)
      case Ok(r) => RunSystem(r, moves[1..], t)
      case Err => Err
      case Panic => Panic
  }

  // ---------- Who owns which piece ----------

  function OrderIs(x: nat): PieceOrder -> nat {
    (o: PieceOrder) => if o.index == x then 1 else 0
  }

  function PieceIs(x: nat): Piece -> nat {
    (p: Piece) => if p.index == x then 1 else 0
  }

  function OptionIs(x: nat, o: Option<PieceOrder>): nat {
    if o.Some? && o.value.index == x then 1 else 0
  }

  function SlotHas(x: nat): Slot -> nat {
    (slot: Slot) => if slot.alive then OptionIs(x, slot.inHand) + OptionIs(x, slot.loop.progress.order) else 0
  }

  predicate Stored(pieces: seq<Option<Piece>>, x: nat) {
    x < |pieces| && pieces[x].Some?
  }

  /** In how many places piece `x` is: the Orders channel, the connections, the Results channel,
      the stored pieces, and those lost. */
  function Owners(s: System, x: nat): nat {
    Sum(OrderIs(x), s.orders) + Sum(SlotHas(x), s.slots) + Sum(PieceIs(x), s.finished)
    + (if Stored(s.results.pieces, x) then 1 else 0) + (if x in s.lost then 1 else 0)
  }

  function Done(pieces: seq<Option<Piece>>): set<nat> {
    set i: nat | i < |pieces| && Stored(pieces, i)
  }

  function AllIndices(n: nat): (r: set<nat>)
    ensures |r| == n
    ensures forall i: nat :: i in r <==> i < n
  {
    if n == 0 then {} else AllIndices(n - 1) + {n - 1}
  }

  ghost predicate OwnedOnce(s: System, n: nat) {
    forall x: nat :: Owners(s, x) == if x < n then 1 else 0
  }

  predicate GoodOrder(o: PieceOrder, t: Torrent) {
    o.index < t.NumPieces() && o.length == t.pieceLength && o.hash == t.pieceHashes[o.index]
  }

  predicate GoodPiece(p: Piece, t: Torrent) {
    && p.index < t.NumPieces() && p.length == |p.data| == t.pieceLength
    && t.sha1(p.data) == t.pieceHashes[p.index]
  }

  ghost predicate GoodResults(r: Results, t: Torrent) {
    && |r.pieces| == |r.field| == t.NumPieces()
    && r.piecesDone == |Done(r.pieces)|
    && (forall i :: 0 <= i < |r.pieces| ==> r.field[i] == r.pieces[i].Some?)
    && (forall i :: 0 <= i < |r.pieces| && r.pieces[i].Some? ==>
          r.pieces[i].value.index == i && GoodPiece(r.pieces[i].value, t))
  }

  ghost predicate GoodSlot(slot: Slot, t: Torrent) {
    && Inv(slot.loop.progress)
    && (slot.inHand.Some? ==> slot.loop.progress.order.None? && GoodOrder(slot.inHand.value, t))
    && (slot.loop.progress.order.Some? ==> GoodOrder(slot.loop.progress.order.value, t))
  }

  /** Everything on the way is genuine. */
  ghost predicate Genuine(s: System, t: Torrent) {
    && (forall o :: o in s.orders ==> GoodOrder(o, t))
    && (forall p :: p in s.finished ==> GoodPiece(p, t))
    && (forall slot :: slot in s.slots ==> GoodSlot(slot, t))
  }

  /** Each piece index is in exactly one place, and what the main loop has agrees with itself. */
  ghost predicate Accounted(s: System, t: Torrent) {
    OwnedOnce(s, t.NumPieces()) && Genuine(s, t) && GoodResults(s.results, t)
  }

  // ---------- What a connection does with its order ----------

  /** What a step may do: keep the order, give it back, or hand over a genuine piece in its place. */
  ghost predicate Settles(l: Loop, next: Loop, t: Torrent) {
    var order := l.progress.order;
    var back, made := Since(l.returned, next.returned), Since(l.finished, next.finished);
    || (next.progress.order == order && back == [] && made == [])
    || (order.Some? && next.progress.order.None? && back == [order.value] && made == [])
    || (order.Some? && next.progress.order.None? && back == []
        && |made| == 1 && made[0].index == order.value.index && GoodPiece(made[0], t))
  }

  lemma {:induction false} SinceItself<T>(s: seq<T>, x: T)
    ensures Since(s, s) == []
    ensures Since(s, s + [x]) == [x]
  {
  }

  lemma {:induction false} CompleteSettles(l: Loop, t: Torrent, net: Network)
    requires Inv(l.progress) && (l.progress.order.Some? ==> GoodOrder(l.progress.order.value, t))
    ensures Settles(l, CompletePiece(l, t.sha1, net), t)
  {
    if l.progress.order.Some? {
      var o := l.progress.order.value;
      SinceItself(l.returned, o);
      SinceItself(l.finished, Piece(o.index, o.length, l.progress.buf, l.peer.id));
    }
  }

  lemma {:induction false} PartSettles(l: Loop, part: Part, pieces: seq<Option<Piece>>, t: Torrent, net: Network)
    requires Inv(l.progress) && (l.progress.order.Some? ==> GoodOrder(l.progress.order.value, t))
    requires DoPart(l, part, pieces, t, net).Ok?
    ensures var next := DoPart(l, part, pieces, t, net).value;
      Settles(l, next, t) && Inv(next.progress)
  {
    match part
    case Complete =>
      CompleteSettles(l, t, net);
      CompleteKeepsInv(l, t.sha1, net);
    case Fill =>
      if |l.progress.requests| < PIPELINE_LENGTH {
        RequestingKeepsTheRest(l, PIPELINE_LENGTH - |l.progress.requests|, net);
        RequestsKeepInv(l, PIPELINE_LENGTH - |l.progress.requests|, net);
      }
    case Upload =>
    case Interested =>
    case Tick(_) =>
  }

  lemma {:induction false} IncomingSettles(l: Loop, msg: PeerMessage, t: Torrent)
    requires Inv(l.progress) && HandleMessage(l, msg, t.NumPieces()).Ok?
    ensures var next := HandleMessage(l, msg, t.NumPieces()).value;
      Settles(l, next, t) && Inv(next.progress)
  {
    HandleMessageKeepsInv(l, msg, t.NumPieces());
  }

  // ---------- Every step keeps the account ----------

  /** The places of one piece after a connection has published its new state. */
  lemma {:induction false} OwnersAfterPublish(s: System, i: nat, next: Loop, alive: bool, x: nat)
    requires i < |s.slots|
    ensures var l := s.slots[i].loop;
      Owners(Publish(s, i, next, alive), x) + SlotHas(x)(s.slots[i])
        == Owners(s, x) + SlotHas(x)(Slot(next, None, alive))
           + Sum(OrderIs(x), Since(l.returned, next.returned)) + Sum(PieceIs(x), Since(l.finished, next.finished))
  {
    var l := s.slots[i].loop;
    SumUpdate(SlotHas(x), s.slots, i, Slot(next, None, alive));
    SumConcat(OrderIs(x), s.orders, Since(l.returned, next.returned));
    SumConcat(PieceIs(x), s.finished, Since(l.finished, next.finished));
  }

  lemma {:induction false} SumOne<T>(f: T -> nat, x: T)
    ensures Sum(f, [x]) == f(x)
  {
    assert [x][1..] == [];
  }

  lemma {:induction false} SettlingMovesOne(l: Loop, next: Loop, t: Torrent, x: nat)
    requires Settles(l, next, t)
    ensures OptionIs(x, l.progress.order) == OptionIs(x, next.progress.order)
      + Sum(OrderIs(x), Since(l.returned, next.returned)) + Sum(PieceIs(x), Since(l.finished, next.finished))
  {
    var back, made := Since(l.returned, next.returned), Since(l.finished, next.finished);
    if back != [] {
      SumOne(OrderIs(x), back[0]);
    }
    if made != [] {
      SumOne(PieceIs(x), made[0]);
      assert made == [made[0]];
    }
  }

  lemma {:induction false} PublishIsGenuine(s: System, i: nat, next: Loop, alive: bool, t: Torrent)
    requires Genuine(s, t) && i < |s.slots| && GoodSlot(Slot(next, None, alive), t)
    requires forall o :: o in Since(s.slots[i].loop.returned, next.returned) ==> GoodOrder(o, t)
    requires forall p :: p in Since(s.slots[i].loop.finished, next.finished) ==> GoodPiece(p, t)
    ensures Genuine(Publish(s, i, next, alive), t)
  {
  }

  /** A connection with nothing in hand settles its order. */
  lemma {:induction false} PublishKeepsAccounted(s: System, i: nat, next: Loop, t: Torrent)
    requires Accounted(s, t) && Idle(s, i)
    requires Settles(s.slots[i].loop, next, t) && Inv(next.progress)
    ensures Accounted(Publish(s, i, next, true), t)
  {
    assert GoodSlot(s.slots[i], t);
    PublishIsGenuine(s, i, next, true, t);
    forall x: nat
      ensures Owners(Publish(s, i, next, true), x) == Owners(s, x)
    {
      OwnersAfterPublish(s, i, next, true, x);
      SettlingMovesOne(s.slots[i].loop, next, t, x);
    }
  }

  lemma {:induction false} ReceiveOrderKeepsAccounted(s: System, i: nat, t: Torrent)
    requires Accounted(s, t)
    ensures Accounted(Step(s, ReceiveOrder(i), t).value, t)
  {
    if Idle(s, i) && WantsOrder(s.slots[i].loop, t.NumPieces()) && s.orders != [] {
      var taken := s.slots[i].(inHand := Some(s.orders[0]));
      assert GoodSlot(s.slots[i], t);
      forall x: nat
        ensures Owners(Step(s, ReceiveOrder(i), t).value, x) == Owners(s, x)
      {
        SumUpdate(SlotHas(x), s.slots, i, taken);
      }
    }
  }

  lemma {:induction false} JudgeOrderMovesOne(l: Loop, o: PieceOrder, x: nat)
    requires l.progress == NO_PROGRESS && TakeOrder(l, o).Ok?
    ensures var next := TakeOrder(l, o).value;
      && OptionIs(x, Some(o)) == OptionIs(x, next.progress.order)
           + Sum(OrderIs(x), Since(l.returned, next.returned)) + Sum(PieceIs(x), Since(l.finished, next.finished))
      && Since(l.finished, next.finished) == []
      && (Since(l.returned, next.returned) == [] || Since(l.returned, next.returned) == [o])
      && (next.progress.order == None || next.progress.order == Some(o)) && Inv(next.progress)
  {
    SinceItself(l.returned, o);
    SumOne(OrderIs(x), o);
    BeginKeepsInv(o);
  }

  lemma {:induction false} JudgeOrderKeepsAccounted(s: System, i: nat, t: Torrent)
    requires Accounted(s, t) && Step(s, JudgeOrder(i), t).Ok?
    ensures Accounted(Step(s, JudgeOrder(i), t).value, t)
  {
    if i < |s.slots| && s.slots[i].alive && s.slots[i].inHand.Some? {
      var l, o := s.slots[i].loop, s.slots[i].inHand.value;
      assert GoodSlot(s.slots[i], t);
      var next := TakeOrder(l, o).value;
      JudgeOrderMovesOne(l, o, 0);
      PublishIsGenuine(s, i, next, true, t);
      forall x: nat
        ensures Owners(Publish(s, i, next, true), x) == Owners(s, x)
      {
        OwnersAfterPublish(s, i, next, true, x);
        JudgeOrderMovesOne(l, o, x);
      }
    }
  }

  lemma {:induction false} LeavingMovesOne(l: Loop, x: nat)
    ensures var next := Leave(l);
      && OptionIs(x, l.progress.order)
           == Sum(OrderIs(x), Since(l.returned, next.returned)) + Sum(PieceIs(x), Since(l.finished, next.finished))
      && Since(l.finished, next.finished) == []
      && (forall o :: o in Since(l.returned, next.returned) ==> l.progress.order == Some(o))
  {
    if l.progress.order.Some? {
      SinceItself(l.returned, l.progress.order.value);
      SumOne(OrderIs(x), l.progress.order.value);
    }
  }

  lemma {:induction false} ClosingKeepsAccounted(s: System, i: nat, t: Torrent, next: Loop)
    requires Accounted(s, t) && Idle(s, i) && next == Leave(s.slots[i].loop)
    ensures Accounted(Publish(s, i, next, false), t)
  {
    var l := s.slots[i].loop;
    assert GoodSlot(s.slots[i], t);
    LeavingMovesOne(l, 0);
    PublishIsGenuine(s, i, next, false, t);
    forall x: nat
      ensures Owners(Publish(s, i, next, false), x) == Owners(s, x)
    {
      OwnersAfterPublish(s, i, next, false, x);
      LeavingMovesOne(l, x);
    }
  }

  /** An error while handling a message takes the held order away for good: it goes to `lost`. */
  lemma {:induction false} FailingKeepsAccounted(s: System, i: nat, t: Torrent)
    requires Accounted(s, t) && Idle(s, i)
    ensures Accounted(Fail(s, i), t)
  {
    var slot := s.slots[i];
    var dead := slot.(alive := false);
    assert GoodSlot(slot, t);
    forall x: nat
      ensures Owners(Fail(s, i), x) == Owners(s, x)
    {
      SumUpdate(SlotHas(x), s.slots, i, dead);
      SumAtLeastMember(SlotHas(x), s.slots, i);
      assert Owners(s, x) <= 1;
    }
  }

  lemma {:induction false} HearKeepsAccounted(s: System, i: nat, msg: PeerMessage, t: Torrent)
    requires Accounted(s, t) && Step(s, Hear(i, msg), t).Ok?
    ensures Accounted(Step(s, Hear(i, msg), t).value, t)
  {
    if Idle(s, i) && !msg.keepAlive {
      assert GoodSlot(s.slots[i], t);
      match HandleMessage(s.slots[i].loop, msg, t.NumPieces())
      case Ok(next) =>
        IncomingSettles(s.slots[i].loop, msg, t);
        PublishKeepsAccounted(s, i, next, t);
      case Err => FailingKeepsAccounted(s, i, t);
    }
  }

  lemma {:induction false} StoreIsGood(r: Results, p: Piece, t: Torrent)
    requires GoodResults(r, t) && GoodPiece(p, t) && r.pieces[p.index].None?
    ensures Store(r, p).Ok? && GoodResults(Store(r, p).value, t)
    ensures Done(Store(r, p).value.pieces) == Done(r.pieces) + {p.index}
  {
    var q := Store(r, p).value;
    forall i: nat
      ensures i in Done(q.pieces) <==> i in Done(r.pieces) || i == p.index
    {
      assert Stored(q.pieces, i) <==> Stored(r.pieces, i) || i == p.index;
    }
    assert Done(q.pieces) == Done(r.pieces) + {p.index};
    assert !Stored(r.pieces, p.index);
  }

  /** A finished piece goes into an empty place, so it is counted once. */
  lemma {:induction false} StoreResultKeepsAccounted(s: System, t: Torrent)
    requires Accounted(s, t)
    ensures Step(s, StoreResult, t).Ok? && Accounted(Step(s, StoreResult, t).value, t)
    ensures s.finished != [] ==>
      s.finished[0].index < t.NumPieces() && s.results.pieces[s.finished[0].index].None?
  {
    if s.finished != [] {
      var p := s.finished[0];
      assert GoodPiece(p, t);
      SumAtLeastMember(PieceIs(p.index), s.finished, 0);
      assert Owners(s, p.index) == 1;
      StoreIsGood(s.results, p, t);
      var q := Store(s.results, p).value;
      forall x: nat
        ensures Owners(Step(s, StoreResult, t).value, x) == Owners(s, x)
      {
        assert Stored(q.pieces, x) <==> Stored(s.results.pieces, x) || x == p.index;
      }
    }
  }

  lemma {:induction false} JoinKeepsAccounted(s: System, id: string, t: Torrent)
    requires Accounted(s, t)
    ensures Accounted(Step(s, Join(id), t).value, t)
  {
    var slot := Slot(Connected(id), None, true);
    forall x: nat
      ensures Owners(Step(s, Join(id), t).value, x) == Owners(s, x)
    {
      SumConcat(SlotHas(x), s.slots, [slot]);
      SumOne(SlotHas(x), slot);
    }
  }

  lemma {:induction false} StepKeepsAccounted(s: System, move: Move, t: Torrent)
    requires Accounted(s, t) && Step(s, move, t).Ok?
    ensures Accounted(Step(s, move, t).value, t)
  {
    match move
    case Join(id) => JoinKeepsAccounted(s, id, t);
    case ReceiveOrder(i) => ReceiveOrderKeepsAccounted(s, i, t);
    case JudgeOrder(i) => JudgeOrderKeepsAccounted(s, i, t);
    case Work(i, part, net) =>
      if Idle(s, i) {
        assert GoodSlot(s.slots[i], t);
        PartSettles(s.slots[i].loop, part, s.results.pieces, t, net);
        PublishKeepsAccounted(s, i, DoPart(s.slots[i].loop, part, s.results.pieces, t, net).value, t);
      }
    case Hear(i, msg) => HearKeepsAccounted(s, i, msg, t);
    case Close(i) => if Idle(s, i) { ClosingKeepsAccounted(s, i, t, Leave(s.slots[i].loop)); }
    case StoreResult => StoreResultKeepsAccounted(s, t);
  }

  // ---------- Every run ----------

  /** Before any connection: the pieces already on disk are stored, the others are ordered, once each
      (client/client.go:97-108). */
  ghost predicate Started(s: System, t: Torrent) {
    && s.slots == [] && s.finished == [] && s.lost == {} && GoodResults(s.results, t)
    && (forall o :: o in s.orders ==> GoodOrder(o, t))
    && (forall x: nat :: Sum(OrderIs(x), s.orders) ==
          if x < t.NumPieces() && !Stored(s.results.pieces, x) then 1 else 0)
  }

  lemma {:induction false} RunKeepsAccounted(s: System, moves: seq<Move>, t: Torrent)
    requires Accounted(s, t) && RunSystem(s, moves, t).Ok?
    ensures Accounted(RunSystem(s, moves, t).value, t)
    decreases moves
  {
    if moves != [] {
      StepKeepsAccounted(s, moves[0], t);
      RunKeepsAccounted(Step(s, moves[0], t).value, moves[1..], t);
    }
  }

  /** Ownership over any schedule of any number of connections, with any messages and any write failures. */
  lemma {:induction false} EveryPieceHasOneOwner(s: System, moves: seq<Move>, t: Torrent)
    requires Started(s, t) && RunSystem(s, moves, t).Ok?
    ensures var r := RunSystem(s, moves, t).value;
      && (forall x: nat :: x < t.NumPieces() ==> Owners(r, x) == 1)
      && (forall x: nat :: x >= t.NumPieces() ==> Owners(r, x) == 0)
      && GoodResults(r.results, t)
  {
    RunKeepsAccounted(s, moves, t);
  }

  lemma {:induction false} QueuesFit(s: System, t: Torrent)
    requires Accounted(s, t)
    ensures |s.orders| <= t.NumPieces() && |s.finished| <= t.NumPieces()
  {
    forall i, j | 0 <= i < j < |s.orders|
      ensures s.orders[i].index != s.orders[j].index
    {
      assert Owners(s, s.orders[i].index) <= 1;
      SumOfTwoMembers(OrderIs(s.orders[i].index), s.orders, i, j);
    }
    assert forall i :: 0 <= i < |s.orders| ==> GoodOrder(s.orders[i], t);
    Pigeonhole((o: PieceOrder) => o.index, s.orders, AllIndices(t.NumPieces()));
    forall i, j | 0 <= i < j < |s.finished|
      ensures s.finished[i].index != s.finished[j].index
    {
      assert Owners(s, s.finished[i].index) <= 1;
      SumOfTwoMembers(PieceIs(s.finished[i].index), s.finished, i, j);
    }
    assert forall i :: 0 <= i < |s.finished| ==> GoodPiece(s.finished[i], t);
    Pigeonhole((p: Piece) => p.index, s.finished, AllIndices(t.NumPieces()));
  }

  /** Both channels have room for `len(PieceHashes)` elements (client/client.go:90-91). A step that sends finds
      room: the channel was not full before it. */
  lemma {:induction false} NoSendBlocks(s: System, move: Move, t: Torrent)
    requires Accounted(s, t) && Step(s, move, t).Ok?
    ensures var r := Step(s, move, t).value;
      && (|r.orders| > |s.orders| ==> |s.orders| < t.NumPieces())
      && (|r.finished| > |s.finished| ==> |s.finished| < t.NumPieces())
  {
    StepKeepsAccounted(s, move, t);
    QueuesFit(Step(s, move, t).value, t);
  }

  /** Stored pieces are never replaced or dropped, and a lost piece stays lost. */
  lemma {:induction false} StepIsMonotone(s: System, move: Move, t: Torrent)
    requires Accounted(s, t) && Step(s, move, t).Ok?
    ensures var r := Step(s, move, t).value;
      && s.lost <= r.lost
      && |r.results.pieces| == |s.results.pieces|
      && (forall i :: 0 <= i < |s.results.pieces| && s.results.pieces[i].Some? ==>
            r.results.pieces[i] == s.results.pieces[i])
  {
    if move.StoreResult? {
      StoreResultKeepsAccounted(s, t);
    }
  }

  lemma {:induction false} RunIsMonotone(s: System, moves: seq<Move>, t: Torrent)
    requires Accounted(s, t) && RunSystem(s, moves, t).Ok?
    ensures var r := RunSystem(s, moves, t).value;
      && s.lost <= r.lost
      && |r.results.pieces| == |s.results.pieces|
      && (forall i :: 0 <= i < |s.results.pieces| && s.results.pieces[i].Some? ==>
            r.results.pieces[i] == s.results.pieces[i])
    decreases moves
  {
    if moves != [] {
      StepIsMonotone(s, moves[0], t);
      StepKeepsAccounted(s, moves[0], t);
      RunIsMonotone(Step(s, moves[0], t).value, moves[1..], t);
    }
  }

  lemma {:induction false} DoneAndLostAreApart(s: System, t: Torrent)
    requires Accounted(s, t)
    ensures Done(s.results.pieces) !! s.lost
    ensures Done(s.results.pieces) + s.lost <= AllIndices(t.NumPieces())
    ensures s.results.piecesDone + |s.lost| <= t.NumPieces()
  {
    var d := Done(s.results.pieces);
    forall x: nat | x in d || x in s.lost
      ensures x < t.NumPieces() && !(x in d && x in s.lost)
    {
      assert Owners(s, x) >= 1;
    }
    assert |d + s.lost| == |d| + |s.lost|;
    SubsetSize(d + s.lost, AllIndices(t.NumPieces()));
  }

  predicate Quiet(s: System) {
    && s.orders == [] && s.finished == []
    && forall i :: 0 <= i < |s.slots| && s.slots[i].alive ==>
         s.slots[i].inHand.None? && s.slots[i].loop.progress.order.None?
  }

  /** When nothing is on its way any more, the pieces not stored are exactly the lost ones: the download is
      complete if and only if no order was ever lost. */
  lemma {:induction false} CompleteIffNothingLost(s: System, t: Torrent)
    requires Accounted(s, t) && Quiet(s)
    ensures s.results.piecesDone + |s.lost| == t.NumPieces()
    ensures s.results.piecesDone == t.NumPieces() <==> s.lost == {}
  {
    var d := Done(s.results.pieces);
    DoneAndLostAreApart(s, t);
    forall x: nat | x < t.NumPieces()
      ensures x in d + s.lost
    {
      assert Owners(s, x) == 1;
      SumZeroIff(SlotHas(x), s.slots);
    }
    assert d + s.lost == AllIndices(t.NumPieces());
    assert |d + s.lost| == |d| + |s.lost|;
  }

  /** Once an order is lost, no continuation of the run completes the download. */
  lemma {:induction false} LostIsForever(s: System, moves: seq<Move>, t: Torrent)
    requires Accounted(s, t) && s.lost != {} && RunSystem(s, moves, t).Ok?
    ensures RunSystem(s, moves, t).value.results.piecesDone < t.NumPieces()
  {
    RunKeepsAccounted(s, moves, t);
    RunIsMonotone(s, moves, t);
    var r := RunSystem(s, moves, t).value;
    DoneAndLostAreApart(r, t);
    var x :| x in s.lost;
    assert x in r.lost;
    assert |r.lost| > 0;
  }

  lemma {:induction false} AllStored(r: Results, t: Torrent)
    requires GoodResults(r, t) && r.piecesDone == t.NumPieces()
    ensures forall i :: 0 <= i < |r.pieces| ==> r.pieces[i].Some?
  {
    SubsetSize(Done(r.pieces), AllIndices(t.NumPieces()));
    forall i | 0 <= i < |r.pieces|
      ensures r.pieces[i].Some?
    {
      assert i in Done(r.pieces);
    }
  }

  lemma {:induction false} UnderWayIsNotStored(s: System, t: Torrent)
    requires Accounted(s, t)
    ensures forall i :: 0 <= i < |s.orders| ==>
      s.orders[i].index < t.NumPieces() && !Stored(s.results.pieces, s.orders[i].index)
    ensures forall i :: 0 <= i < |s.finished| ==>
      s.finished[i].index < t.NumPieces() && !Stored(s.results.pieces, s.finished[i].index)
  {
    forall i | 0 <= i < |s.orders|
      ensures s.orders[i].index < t.NumPieces() && !Stored(s.results.pieces, s.orders[i].index)
    {
      assert GoodOrder(s.orders[i], t);
      SumAtLeastMember(OrderIs(s.orders[i].index), s.orders, i);
      assert Owners(s, s.orders[i].index) == 1;
    }
    forall i | 0 <= i < |s.finished|
      ensures s.finished[i].index < t.NumPieces() && !Stored(s.results.pieces, s.finished[i].index)
    {
      assert GoodPiece(s.finished[i], t);
      SumAtLeastMember(PieceIs(s.finished[i].index), s.finished, i);
      assert Owners(s, s.finished[i].index) == 1;
    }
  }

  /** All done means every piece is there and nothing is left anywhere else. */
  lemma {:induction false} AllDone(s: System, t: Torrent)
    requires Accounted(s, t) && s.results.piecesDone == t.NumPieces()
    ensures forall i :: 0 <= i < |s.results.pieces| ==> s.results.pieces[i].Some?
    ensures s.orders == [] && s.finished == [] && s.lost == {}
  {
    AllStored(s.results, t);
    DoneAndLostAreApart(s, t);
    UnderWayIsNotStored(s, t);
    assert forall i :: 0 <= i < |s.orders| ==> !Stored(s.results.pieces, s.orders[i].index);
    assert forall x: nat :: x < t.NumPieces() ==> Stored(s.results.pieces, x);
    assert |s.orders| > 0 ==> !Stored(s.results.pieces, s.orders[0].index);
    assert |s.finished| > 0 ==> !Stored(s.results.pieces, s.finished[0].index);
  }

  // ---------- Concrete runs ----------

  lemma {:induction false} RunFirst(s: System, move: Move, moves: seq<Move>, t: Torrent)
    ensures RunSystem(s, [move] + moves, t) ==
      match Step(s, move, t)
      case Ok(next) => RunSystem(next, moves, t)
      case Err => Err
      case Panic => Panic
  {
    assert ([move] + moves)[1..] == moves;
  }

  lemma {:induction false} Unroll5(s: System, m: seq<Move>, t: Torrent, s1: System, s2: System, s3: System, s4: System)
    requires |m| == 5
    requires Step(s, m[0], t) == Ok(s1) && Step(s1, m[1], t) == Ok(s2) && Step(s2, m[2], t) == Ok(s3)
    requires Step(s3, m[3], t) == Ok(s4)
    ensures RunSystem(s, m, t) == Step(s4, m[4], t)
  {
    RunFirst(s4, m[4], [], t);
    RunFirst(s3, m[3], [m[4]], t);
    RunFirst(s2, m[2], [m[3], m[4]], t);
    RunFirst(s1, m[1], [m[2], m[3], m[4]], t);
    RunFirst(s, m[0], [m[1], m[2], m[3], m[4]], t);
    assert [m[4]] == [m[4]] + [] && [m[3], m[4]] == [m[3]] + [m[4]];
    assert [m[2], m[3], m[4]] == [m[2]] + [m[3], m[4]];
    assert [m[1], m[2], m[3], m[4]] == [m[1]] + [m[2], m[3], m[4]];
    assert m == [m[0]] + [m[1], m[2], m[3], m[4]];
  }

  /** A connection that sends nothing on the channels changes only itself. */
  lemma {:induction false} PublishSilent(s: System, l: Loop, next: Loop, inHand: Option<PieceOrder>)
    requires s.slots == [Slot(l, inHand, true)] && next.returned == l.returned && next.finished == l.finished
    ensures Publish(s, 0, next, true) == s.(slots := [Slot(next, None, true)])
  {
    assert s.orders + [] == s.orders && s.finished + [] == s.finished;
  }

  /** The only connection hears a message and puts nothing on the channels. */
  lemma {:induction false} HearAlone(s: System, l: Loop, msg: PeerMessage, next: Loop, t: Torrent)
    requires s.slots == [Slot(l, None, true)] && !msg.keepAlive && HandleMessage(l, msg, t.NumPieces()) == Ok(next)
    requires next.returned == l.returned && next.finished == l.finished
    ensures Step(s, Hear(0, msg), t) == Ok(s.(slots := [Slot(next, None, true)]))
  {
    PublishSilent(s, l, next, None);
  }

  lemma {:induction false} TickAlone(s: System, l: Loop, choke: bool, net: Network, t: Torrent)
    requires s.slots == [Slot(l, None, true)]
    ensures Step(s, Work(0, Tick(choke), net), t) == Ok(s.(slots := [Slot(SetChoking(l, choke, net), None, true)]))
  {
    PublishSilent(s, l, SetChoking(l, choke, net), None);
  }

  lemma {:induction false} JoinAlone(s: System, id: string, t: Torrent)
    requires s.slots == []
    ensures Step(s, Join(id), t) == Ok(s.(slots := [Slot(Connected(id), None, true)]))
  {
    assert s.slots + [Slot(Connected(id), None, true)] == [Slot(Connected(id), None, true)];
  }

  lemma {:induction false} ReceiveAlone(s: System, l: Loop, t: Torrent)
    requires s.slots == [Slot(l, None, true)] && WantsOrder(l, t.NumPieces()) && s.orders != []
    ensures Step(s, ReceiveOrder(0), t) ==
      Ok(s.(orders := s.orders[1..], slots := [Slot(l, Some(s.orders[0]), true)]))
  {
    assert s.slots[0 := Slot(l, Some(s.orders[0]), true)] == [Slot(l, Some(s.orders[0]), true)];
  }

  lemma {:induction false} JudgeAlone(s: System, l: Loop, o: PieceOrder, next: Loop, t: Torrent)
    requires s.slots == [Slot(l, Some(o), true)] && TakeOrder(l, o) == Ok(next)
    requires next.returned == l.returned && next.finished == l.finished
    ensures Step(s, JudgeOrder(0), t) == Ok(s.(slots := [Slot(next, None, true)]))
  {
    PublishSilent(s, l, next, Some(o));
  }
}
