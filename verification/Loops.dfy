/** The N-connection system of module Scheduler against the real loops of client/peer.go:97-204. */
module Loops {
  import opened Types
  import opened PeerProtocol
  import opened Assembly
  import opened PeerLoop
  import opened Scheduler

  // ---------- One body is a run ----------

  /** What the Orders channel offers to a loop that asks. */
  function Offer(l: Loop, orders: seq<PieceOrder>, t: Torrent): Option<PieceOrder> {
    if WantsOrder(l, t.NumPieces()) && orders != [] then Some(orders[0]) else None
  }

  function WithoutOffer(orders: seq<PieceOrder>, offer: Option<PieceOrder>): seq<PieceOrder> {
    if offer.Some? && orders != [] then orders[1..] else orders
  }

  /** The loop of connection `i` has uploaded and completed what it could. */
  function AfterComplete(s: System, i: nat, net: Network, t: Torrent): Outcome<Loop>
    requires i < |s.slots|
  {
    match UploadChunk(s.slots[i].loop, s.results.pieces, net)
    case Ok(l1) => Ok(CompletePiece(l1, t.sha1, net))
    case Err => Err
    case Panic => Panic
  }

  /** The loop body of connection `i` down to the `select`, without interruption: the new state of its loop is that of
      `Prepare`, with the head of the Orders channel on offer, and what it sends goes on the channels. */
  function Body(s: System, i: nat, net: Network, t: Torrent): Outcome<System>
    requires i < |s.slots|
  {
    match AfterComplete(s, i, net, t)
    case Err => Err
    case Panic => Panic
    case Ok(l2) =>
      var s2 := Publish(s, i, l2, true);
      var offer := Offer(l2, s2.orders, t);
      match GetPiece(l2, t.NumPieces(), offer)
      case Err => Err
      case Panic => Panic
      case Ok(l3) => Ok(Publish(s2.(orders := WithoutOffer(s2.orders, offer)), i, Ask(l3, net), true))
  }

  lemma {:induction false} BodyIsPrepare(s: System, i: nat, event: Event, net: Network, t: Torrent)
    requires i < |s.slots| && Body(s, i, net, t).Ok?
    ensures AfterComplete(s, i, net, t).Ok?
    ensures var l2 := AfterComplete(s, i, net, t).value;
      var around := Surroundings(s.results.pieces, Offer(l2, Publish(s, i, l2, true).orders, t), event);
      Prepare(s.slots[i].loop, around, Config(t.NumPieces(), t.sha1, net)) == Ok(Body(s, i, net, t).value.slots[i].loop)
  {
  }

  function BodyMoves(i: nat, net: Network): seq<Move> {
    [Work(i, Upload, net), Work(i, Complete, net), ReceiveOrder(i), JudgeOrder(i),
     Work(i, Interested, net), Work(i, Fill, net)]
  }

  /** Putting more and more on the channels. */
  ghost predicate Grows(l: Loop, next: Loop) {
    l.returned <= next.returned && l.finished <= next.finished
  }

  lemma {:induction false} SinceTwice<T>(a: seq<T>, b: seq<T>, c: seq<T>)
    requires a <= b <= c
    ensures Since(a, b) + Since(b, c) == Since(a, c)
  {
    assert b == a + b[|a|..] && c == b + c[|b|..];
  }

  lemma {:induction false} PublishTwice(s: System, i: nat, l1: Loop, l2: Loop)
    requires i < |s.slots| && Grows(s.slots[i].loop, l1) && Grows(l1, l2)
    ensures Publish(Publish(s, i, l1, true), i, l2, true) == Publish(s, i, l2, true)
  {
    var l := s.slots[i].loop;
    SinceTwice(l.returned, l1.returned, l2.returned);
    SinceTwice(l.finished, l1.finished, l2.finished);
    Codec.Assoc(s.orders, Since(l.returned, l1.returned), Since(l1.returned, l2.returned));
    Codec.Assoc(s.finished, Since(l.finished, l1.finished), Since(l1.finished, l2.finished));
  }

  lemma {:induction false} PartGrows(l: Loop, part: Part, pieces: seq<Option<Piece>>, t: Torrent, net: Network)
    requires DoPart(l, part, pieces, t, net).Ok?
    ensures Grows(l, DoPart(l, part, pieces, t, net).value)
  {
    if part.Fill? && |l.progress.requests| < PIPELINE_LENGTH {
      RequestingKeepsTheRest(l, PIPELINE_LENGTH - |l.progress.requests|, net);
    }
  }

  lemma {:induction false} PublishItself(s: System, i: nat)
    requires Idle(s, i)
    ensures Publish(s, i, s.slots[i].loop, true) == s
  {
    var l := s.slots[i].loop;
    assert l.returned[|l.returned|..] == [] && l.finished[|l.finished|..] == [];
    assert s.orders + [] == s.orders && s.finished + [] == s.finished;
    assert s.slots[i := Slot(l, None, true)] == s.slots;
  }

  /** Receive and judge: together they are `getPiece`. */
  lemma {:induction false} TakingIsARun(s: System, i: nat, t: Torrent, l2: Loop, l3: Loop)
    requires Idle(s, i) && l2 == s.slots[i].loop
    requires GetPiece(l2, t.NumPieces(), Offer(l2, s.orders, t)) == Ok(l3)
    ensures Grows(l2, l3)
    ensures var received := Step(s, ReceiveOrder(i), t);
      var offer := Offer(l2, s.orders, t);
      && received.Ok?
      && Step(received.value, JudgeOrder(i), t) == Ok(Publish(s.(orders := WithoutOffer(s.orders, offer)), i, l3, true))
  {
    var received := Step(s, ReceiveOrder(i), t).value;
    if Offer(l2, s.orders, t).Some? {
      assert received.slots[i].loop == l2;
      assert received.slots[i := Slot(l3, None, true)] == s.slots[i := Slot(l3, None, true)];
    } else {
      assert l3 == l2 && s.(orders := s.orders) == s;
      PublishItself(s, i);
    }
  }

  lemma {:induction false} SixMoves(s: System, m: seq<Move>, t: Torrent, s1: System, s2: System, s3: System, s4: System,
                                    s5: System, s6: System)
    requires |m| == 6
    requires Step(s, m[0], t) == Ok(s1) && Step(s1, m[1], t) == Ok(s2) && Step(s2, m[2], t) == Ok(s3)
    requires Step(s3, m[3], t) == Ok(s4) && Step(s4, m[4], t) == Ok(s5) && Step(s5, m[5], t) == Ok(s6)
    ensures RunSystem(s, m, t) == Ok(s6)
  {
    Unroll5(s1, m[1..], t, s2, s3, s4, s5);
  }

  /** The body of the loop is a run of six moves, in the source's order. */
  lemma {:induction false} BodyIsARun(s: System, i: nat, net: Network, t: Torrent)
    requires Idle(s, i) && Body(s, i, net, t).Ok?
    ensures RunSystem(s, BodyMoves(i, net), t) == Body(s, i, net, t)
  {
    var l := s.slots[i].loop;
    var l1 := UploadChunk(l, s.results.pieces, net).value;
    var l2 := CompletePiece(l1, t.sha1, net);
    PartGrows(l, Upload, s.results.pieces, t, net);
    PartGrows(l1, Complete, s.results.pieces, t, net);
    var s1, s2 := Publish(s, i, l1, true), Publish(s, i, l2, true);
    PublishTwice(s, i, l1, l2);
    var offer := Offer(l2, s2.orders, t);
    var l3 := GetPiece(l2, t.NumPieces(), offer).value;
    TakingIsARun(s2, i, t, l2, l3);
    var s3 := Step(s2, ReceiveOrder(i), t).value;
    var taken := s2.(orders := WithoutOffer(s2.orders, offer));
    AskingIsTwoSteps(taken, i, l3, net, t);
    var l4 := SendInterested(l3, net);
    SixMoves(s, BodyMoves(i, net), t, s1, s2, s3, Publish(taken, i, l3, true), Publish(taken, i, l4, true),
             Publish(taken, i, Ask(l3, net), true));
  }

  lemma {:induction false} AskingIsTwoSteps(s: System, i: nat, l3: Loop, net: Network, t: Torrent)
    requires i < |s.slots| && Grows(s.slots[i].loop, l3)
    ensures var l4 := SendInterested(l3, net);
      && Step(Publish(s, i, l3, true), Work(i, Interested, net), t) == Ok(Publish(s, i, l4, true))
      && Step(Publish(s, i, l4, true), Work(i, Fill, net), t) == Ok(Publish(s, i, Ask(l3, net), true))
  {
    var l4 := SendInterested(l3, net);
    PartGrows(l3, Interested, s.results.pieces, t, net);
    PartGrows(l4, Fill, s.results.pieces, t, net);
    PublishTwice(s, i, l3, l4);
    PublishTwice(s, i, l4, Ask(l3, net));
  }

  // ---------- Whole runs of real loops ----------

  /** What happens next: a connection runs its loop body or takes one event, or something else of the system. */
  datatype Turn =
    | RunBody(slot: nat, net: Network)
    | TakeEvent(slot: nat, event: Event, net: Network)
    | Joins(id: string)
    | Closes(slot: nat)
    | StoresResult

  function TakeTurn(s: System, turn: Turn, t: Torrent): Outcome<System> {
    match turn
    case RunBody(i, net) => if Idle(s, i) then Body(s, i, net, t) else Ok(s)
    case TakeEvent(i, event, net) =>
      if Idle(s, i) then
        (match HandleEvent(s.slots[i].loop, event, Config(t.NumPieces(), t.sha1, net))
         case Ok(l) => Ok(Publish(s, i, l, true))
         case Err => Ok(Fail(s, i))
         case Panic => Panic)
      else Ok(s)
    case Joins(id) => Step(s, Join(id), t)
    case Closes(i) => Step(s, Close(i), t)
    case StoresResult => Step(s, StoreResult, t)
  }

  function RunTurns(s: System, turns: seq<Turn>, t: Torrent): Outcome<System>
    decreases turns
  {
    if turns == [] then Ok(s)
    else match TakeTurn(s, turns[0], t)
      case Ok(next) => RunTurns(next, turns[1..], t)
      case Err => Err
      case Panic => Panic
  }

  function TurnMoves(s: System, turn: Turn): seq<Move> {
    match turn
    case RunBody(i, net) => if Idle(s, i) then BodyMoves(i, net) else []
    case TakeEvent(i, Incoming(msg), _) => [Hear(i, msg)]
    case TakeEvent(i, UnchokeTick(ids), net) =>
      if Idle(s, i) then [Work(i, Tick(s.slots[i].loop.peer.id !in ids), net)] else []
    case Joins(id) => [Join(id)]
    case Closes(i) => [Close(i)]
    case StoresResult => [StoreResult]
  }

  lemma {:induction false} OneMove(s: System, move: Move, t: Torrent)
    ensures RunSystem(s, [move], t) == Step(s, move, t)
  {
    assert [move][1..] == [];
  }

  lemma {:induction false} EventIsAMove(s: System, i: nat, event: Event, net: Network, t: Torrent)
    ensures RunSystem(s, TurnMoves(s, TakeEvent(i, event, net)), t) == TakeTurn(s, TakeEvent(i, event, net), t)
  {
    match event
    case Incoming(msg) =>
      OneMove(s, Hear(i, msg), t);
      if Idle(s, i) && msg.keepAlive {
        PublishItself(s, i);
      }
    case UnchokeTick(ids) =>
      if Idle(s, i) {
        OneMove(s, Work(i, Tick(s.slots[i].loop.peer.id !in ids), net), t);
      }
  }

  lemma {:induction false} TurnIsARun(s: System, turn: Turn, t: Torrent)
    requires TakeTurn(s, turn, t).Ok?
    ensures RunSystem(s, TurnMoves(s, turn), t) == TakeTurn(s, turn, t)
  {
    match turn
    case RunBody(i, net) => if Idle(s, i) { BodyIsARun(s, i, net, t); }
    case TakeEvent(i, event, net) => EventIsAMove(s, i, event, net, t);
    case Joins(id) => OneMove(s, Join(id), t);
    case Closes(i) => OneMove(s, Close(i), t);
    case StoresResult => OneMove(s, StoreResult, t);
  }

  lemma {:induction false} RunConcat(s: System, first: seq<Move>, second: seq<Move>, next: System, t: Torrent)
    requires RunSystem(s, first, t) == Ok(next)
    ensures RunSystem(s, first + second, t) == RunSystem(next, second, t)
    decreases first
  {
    if first == [] {
      assert [] + second == second;
    } else {
      assert (first + second)[0] == first[0] && (first + second)[1..] == first[1..] + second;
      RunConcat(Step(s, first[0], t).value, first[1..], second, next, t);
    }
  }

  /** Any run of real loops is a run of the system. */
  lemma {:induction false} TurnsAreARun(s: System, turns: seq<Turn>, t: Torrent) returns (moves: seq<Move>)
    requires RunTurns(s, turns, t).Ok?
    ensures RunSystem(s, moves, t) == RunTurns(s, turns, t)
    decreases turns
  {
    if turns == [] {
      moves := [];
    } else {
      var next := TakeTurn(s, turns[0], t).value;
      TurnIsARun(s, turns[0], t);
      var later := TurnsAreARun(next, turns[1..], t);
      RunConcat(s, TurnMoves(s, turns[0]), later, next, t);
      moves := TurnMoves(s, turns[0]) + later;
    }
  }

  /** Ownership holds of any number of real loops. */
  lemma {:induction false} RealLoopsOwnOnce(s: System, turns: seq<Turn>, t: Torrent)
    requires Started(s, t) && RunTurns(s, turns, t).Ok?
    ensures var r := RunTurns(s, turns, t).value;
      && (forall x: nat :: x < t.NumPieces() ==> Owners(r, x) == 1)
      && (forall x: nat :: x >= t.NumPieces() ==> Owners(r, x) == 0)
      && GoodResults(r.results, t)
  {
    var moves := TurnsAreARun(s, turns, t);
    EveryPieceHasOneOwner(s, moves, t);
  }

  // ---------- The channels are queues ----------

  /** What a move puts on Orders: what its connection has returned in it. */
  function PutOrders(s: System, move: Move, next: System): seq<PieceOrder> {
    if move.Join? || move.StoreResult? || move.slot >= |s.slots| || move.slot >= |next.slots| then []
    else Since(s.slots[move.slot].loop.returned, next.slots[move.slot].loop.returned)
  }

  function PutPieces(s: System, move: Move, next: System): seq<Piece> {
    if move.Join? || move.StoreResult? || move.slot >= |s.slots| || move.slot >= |next.slots| then []
    else Since(s.slots[move.slot].loop.finished, next.slots[move.slot].loop.finished)
  }

  /** What a move takes off Orders: what a connection then has in hand. */
  function TakenOrders(s: System, move: Move, next: System): seq<PieceOrder> {
    if move.ReceiveOrder? && move.slot < |s.slots| && move.slot < |next.slots| && s.slots[move.slot].inHand.None?
       && next.slots[move.slot].inHand.Some? then [next.slots[move.slot].inHand.value]
    else []
  }

  /** What it takes off Results: the piece that is stored then and was not before. */
  function TakenPieces(s: System, move: Move, next: System): seq<Piece> {
    if move.StoreResult? && |next.finished| < |s.finished| then s.finished[..|s.finished| - |next.finished|] else []
  }

  function OrdersPut(s: System, moves: seq<Move>, t: Torrent): seq<PieceOrder>
    decreases moves
  {
    if moves == [] || !Step(s, moves[0], t).Ok? then []
    else
      var next := Step(s, moves[0], t).value;
      PutOrders(s, moves[0], next) + OrdersPut(next, moves[1..], t)
  }

  function OrdersTaken(s: System, moves: seq<Move>, t: Torrent): seq<PieceOrder>
    decreases moves
  {
    if moves == [] || !Step(s, moves[0], t).Ok? then []
    else
      var next := Step(s, moves[0], t).value;
      TakenOrders(s, moves[0], next) + OrdersTaken(next, moves[1..], t)
  }

  lemma {:induction false} StepQueuesOrders(s: System, move: Move, t: Torrent)
    requires Step(s, move, t).Ok?
    ensures var next := Step(s, move, t).value;
      s.orders + PutOrders(s, move, next) == TakenOrders(s, move, next) + next.orders
  {
    var next := Step(s, move, t).value;
    assert s.orders + [] == s.orders && [] + next.orders == next.orders;
    if !move.Join? && !move.StoreResult? && move.slot < |s.slots| {
      var l := s.slots[move.slot].loop;
      assert l.returned[|l.returned|..] == [];
    }
  }

  /** First in, first out: over any run, what was on Orders and what was put there came off in this order, and the rest
      is there still. */
  lemma {:induction false} OrdersAreAQueue(s: System, moves: seq<Move>, t: Torrent)
    requires RunSystem(s, moves, t).Ok?
    ensures s.orders + OrdersPut(s, moves, t) == OrdersTaken(s, moves, t) + RunSystem(s, moves, t).value.orders
    decreases moves
  {
    if moves == [] {
      assert s.orders + [] == [] + s.orders;
    } else {
      var next := Step(s, moves[0], t).value;
      StepQueuesOrders(s, moves[0], t);
      OrdersAreAQueue(next, moves[1..], t);
      Codec.Assoc(s.orders, PutOrders(s, moves[0], next), OrdersPut(next, moves[1..], t));
      Codec.Assoc(TakenOrders(s, moves[0], next), next.orders, OrdersPut(next, moves[1..], t));
      Codec.Assoc(TakenOrders(s, moves[0], next), OrdersTaken(next, moves[1..], t),
                  RunSystem(next, moves[1..], t).value.orders);
    }
  }

  /** A step takes finished pieces from the front and puts them at the end. */
  lemma {:induction false} StepQueuesPieces(s: System, move: Move, t: Torrent)
    requires Step(s, move, t).Ok?
    ensures var next := Step(s, move, t).value;
      && s.finished + PutPieces(s, move, next) == TakenPieces(s, move, next) + next.finished
      && (forall p :: p in TakenPieces(s, move, next) ==>
            p.index < |next.results.pieces| && next.results.pieces[p.index] == Some(p))
  {
    var next := Step(s, move, t).value;
    assert s.finished + [] == s.finished && [] + next.finished == next.finished;
    if !move.Join? && !move.StoreResult? && move.slot < |s.slots| {
      var l := s.slots[move.slot].loop;
      assert l.finished[|l.finished|..] == [];
    } else if move.StoreResult? && s.finished != [] {
      assert s.finished[..1] == [s.finished[0]];
    }
  }

  // ---------- One loop among the others ----------

  /** Where a loop is: at which of the parts of its body, or at the `select`. */
  datatype Point = ToUpload | ToComplete | ToReceive | ToJudge | ToInterested | ToFill | Waiting

  /** The history of a connection: the iterations it has finished, its state at the start of the current one, and what
      its surroundings have provided in it so far. */
  datatype Thread = Thread(at: Point, script: seq<Surroundings>, start: Loop, pieces: seq<Option<Piece>>,
                           offer: Option<PieceOrder>)

  function Starting(id: string): Thread {
    Thread(ToUpload, [], Connected(id), [], None)
  }

  predicate IsOf(move: Move, i: nat) {
    !move.Join? && !move.StoreResult? && move.slot == i
  }

  /** A move that the loop makes at this point. */
  ghost predicate IsNext(at: Point, move: Move, net: Network) {
    match move
    case Work(_, part, n) =>
      && n == net
      && (match part
          case Upload => at == ToUpload
          case Complete => at == ToComplete
          case Interested => at == ToInterested
          case Fill => at == ToFill
          case Tick(_) => at == Waiting)
    case ReceiveOrder(_) => at == ToReceive
    case JudgeOrder(_) => at == ToJudge
    case Hear(_, _) => at == Waiting
    case _ => false
  }

  function Next(th: Thread, event: Event, l: Loop): Thread {
    Thread(ToUpload, th.script + [Surroundings(th.pieces, th.offer, event)], l, [], None)
  }

  /** The history after a move of connection `i`, made in `s`, that led to the loop `l`. */
  function Advance(th: Thread, s: System, i: nat, move: Move, l: Loop, t: Torrent): Thread
    requires i < |s.slots|
  {
    var before := s.slots[i].loop;
    match move
    case Work(_, Upload, _) => th.(at := ToComplete, pieces := s.results.pieces)
    case Work(_, Complete, _) => th.(at := ToReceive)
    case ReceiveOrder(_) =>
      var offer := Offer(before, s.orders, t);
      th.(at := if offer.Some? then ToJudge else ToInterested, offer := offer)
    case JudgeOrder(_) => th.(at := ToInterested)
    case Work(_, Interested, _) => th.(at := ToFill)
    case Work(_, Fill, _) => th.(at := Waiting)
    case Work(_, Tick(choke), _) => Next(th, UnchokeTick(if choke then [] else [before.peer.id]), l)
    case Hear(_, msg) => Next(th, Incoming(msg), l)
    case _ => th
  }

  /** The moves of connection `i` come in program order and leave it alive; those of all others may come in between. */
  ghost predicate InProgramOrder(s: System, moves: seq<Move>, i: nat, th: Thread, net: Network, t: Torrent)
    decreases moves
  {
    moves != [] && Step(s, moves[0], t).Ok? ==>
      var next := Step(s, moves[0], t).value;
      if IsOf(moves[0], i) then
        && i < |s.slots| && IsNext(th.at, moves[0], net)
        && i < |next.slots| && next.slots[i].alive
        && InProgramOrder(next, moves[1..], i, Advance(th, s, i, moves[0], next.slots[i].loop, t), net, t)
      else InProgramOrder(next, moves[1..], i, th, net, t)
  }

  /** The history at the end of the run. */
  ghost function ThreadAfter(s: System, moves: seq<Move>, i: nat, th: Thread, t: Torrent): Thread
    decreases moves
  {
    if moves == [] || !Step(s, moves[0], t).Ok? then th
    else
      var next := Step(s, moves[0], t).value;
      if IsOf(moves[0], i) && i < |s.slots| && i < |next.slots| then
        ThreadAfter(next, moves[1..], i, Advance(th, s, i, moves[0], next.slots[i].loop, t), t)
      else ThreadAfter(next, moves[1..], i, th, t)
  }

  function Around(th: Thread): Surroundings {
    Surroundings(th.pieces, th.offer, UnchokeTick([]))
  }

  /** How far the loop is in the current iteration. */
  ghost predicate IsPartWay(th: Thread, slot: Slot, c: Config) {
    var uploaded := UploadChunk(th.start, th.pieces, c.net);
    match th.at
    case ToUpload => slot.loop == th.start && slot.inHand.None?
    case ToComplete => uploaded == Ok(slot.loop) && slot.inHand.None?
    case ToReceive => uploaded.Ok? && slot.loop == CompletePiece(uploaded.value, c.sha1, c.net) && slot.inHand.None?
    case ToJudge =>
      && uploaded.Ok? && slot.loop == CompletePiece(uploaded.value, c.sha1, c.net)
      && slot.inHand == th.offer && th.offer.Some? && WantsOrder(slot.loop, c.numPieces)
    case ToInterested => Refresh(th.start, Around(th), c) == Ok(slot.loop) && slot.inHand.None?
    case ToFill =>
      && Refresh(th.start, Around(th), c).Ok? && slot.inHand.None?
      && slot.loop == SendInterested(Refresh(th.start, Around(th), c).value, c.net)
    case Waiting => Prepare(th.start, Around(th), c) == Ok(slot.loop) && slot.inHand.None?
  }

  ghost predicate IsThread(th: Thread, slot: Slot, id: string, c: Config) {
    slot.alive && RunLoop(Connected(id), th.script, c) == Ok(th.start) && IsPartWay(th, slot, c)
  }

  lemma {:induction false} RunLoopSnoc(l: Loop, script: seq<Surroundings>, s: Surroundings, c: Config,
                                       l1: Loop, l2: Loop)
    requires RunLoop(l, script, c) == Ok(l1) && Iterate(l1, s, c) == Ok(l2)
    ensures RunLoop(l, script + [s], c) == Ok(l2)
    decreases script
  {
    if script == [] {
      assert [s][1..] == [] && script + [s] == [s];
    } else {
      assert (script + [s])[0] == script[0] && (script + [s])[1..] == script[1..] + [s];
      RunLoopSnoc(Iterate(l, script[0], c).value, script[1..], s, c, l1, l2);
    }
  }

  /** Moves of others leave a connection as it is. */
  lemma {:induction false} OthersDoNotTouch(s: System, move: Move, i: nat, t: Torrent)
    requires i < |s.slots| && Step(s, move, t).Ok? && !IsOf(move, i)
    ensures var next := Step(s, move, t).value;
      i < |next.slots| && next.slots[i] == s.slots[i]
  {
  }

  /** A part of the body brings the loop one point on. */
  lemma {:induction false} BodyStep(s: System, move: Move, i: nat, th: Thread, id: string, c: Config, t: Torrent)
    requires i < |s.slots| && s.slots[i].alive && Step(s, move, t).Ok? && IsOf(move, i) && IsNext(th.at, move, c.net)
    requires th.at != Waiting && c.numPieces == t.NumPieces() && c.sha1 == t.sha1
    requires IsThread(th, s.slots[i], id, c)
    ensures var slot := Step(s, move, t).value.slots[i];
      IsThread(Advance(th, s, i, move, slot.loop, t), slot, id, c)
  {
  }

  lemma {:induction false} IterateSplits(l: Loop, s: Surroundings, event: Event, c: Config, l1: Loop, l2: Loop)
    requires Prepare(l, s.(event := UnchokeTick([])), c) == Ok(l1) && HandleEvent(l1, event, c) == Ok(l2)
    ensures Iterate(l, s.(event := event), c) == Ok(l2)
  {
  }

  /** An event ends the iteration. */
  lemma {:induction false} EventEnds(th: Thread, slot: Slot, event: Event, next: Loop, id: string, c: Config)
    requires th.at == Waiting && IsThread(th, slot, id, c) && HandleEvent(slot.loop, event, c) == Ok(next)
    ensures IsThread(Next(th, event, next), Slot(next, None, true), id, c)
  {
    var around := Surroundings(th.pieces, th.offer, event);
    IterateSplits(th.start, around, event, c, slot.loop, next);
    RunLoopSnoc(Connected(id), th.script, around, c, th.start, next);
  }

  lemma {:induction false} EventStep(s: System, move: Move, i: nat, th: Thread, id: string, c: Config, t: Torrent)
    requires i < |s.slots| && s.slots[i].alive && Step(s, move, t).Ok? && IsOf(move, i) && IsNext(th.at, move, c.net)
    requires th.at == Waiting && c.numPieces == t.NumPieces() && c.sha1 == t.sha1
    requires IsThread(th, s.slots[i], id, c) && Step(s, move, t).value.slots[i].alive
    ensures var slot := Step(s, move, t).value.slots[i];
      IsThread(Advance(th, s, i, move, slot.loop, t), slot, id, c)
  {
    var slot := Step(s, move, t).value.slots[i];
    match move
    case Hear(_, msg) => EventEnds(th, s.slots[i], Incoming(msg), slot.loop, id, c);
    case Work(_, Tick(choke), _) =>
      var ids := if choke then [] else [s.slots[i].loop.peer.id];
      EventEnds(th, s.slots[i], UnchokeTick(ids), slot.loop, id, c);
  }

  lemma {:induction false} ThreadFollows(s: System, moves: seq<Move>, i: nat, th: Thread, id: string, c: Config,
                                         t: Torrent)
    requires RunSystem(s, moves, t).Ok? && c.numPieces == t.NumPieces() && c.sha1 == t.sha1
    requires i < |s.slots| && IsThread(th, s.slots[i], id, c) && InProgramOrder(s, moves, i, th, c.net, t)
    ensures var r := RunSystem(s, moves, t).value;
      i < |r.slots| && IsThread(ThreadAfter(s, moves, i, th, t), r.slots[i], id, c)
    decreases moves
  {
    if moves != [] {
      var next := Step(s, moves[0], t).value;
      if IsOf(moves[0], i) {
        if th.at == Waiting {
          EventStep(s, moves[0], i, th, id, c, t);
        } else {
          BodyStep(s, moves[0], i, th, id, c, t);
        }
        ThreadFollows(next, moves[1..], i, Advance(th, s, i, moves[0], next.slots[i].loop, t), id, c, t);
      } else {
        OthersDoNotTouch(s, moves[0], i, t);
        ThreadFollows(next, moves[1..], i, th, id, c, t);
      }
    }
  }

  /** One loop among any number of others, interrupted at any point: as long as it makes its moves in program order,
      its state is that of `RunLoop` on the surroundings it has met, up to the part of the iteration where it is. So
      everything proved of whole runs of one connection holds of it. */
  lemma {:induction false} EveryLoopIsRunLoop(s: System, id: string, moves: seq<Move>, c: Config, t: Torrent)
    requires c.numPieces == t.NumPieces() && c.sha1 == t.sha1
    requires var joined := Step(s, Join(id), t).value;
      RunSystem(joined, moves, t).Ok? && InProgramOrder(joined, moves, |s.slots|, Starting(id), c.net, t)
    ensures var joined := Step(s, Join(id), t).value;
      var th := ThreadAfter(joined, moves, |s.slots|, Starting(id), t);
      var slots := RunSystem(joined, moves, t).value.slots;
      && |s.slots| < |slots| && RunLoop(Connected(id), th.script, c) == Ok(th.start)
      && IsPartWay(th, slots[|s.slots|], c)
  {
    ThreadFollows(Step(s, Join(id), t).value, moves, |s.slots|, Starting(id), id, c, t);
  }
}
