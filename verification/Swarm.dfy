/** A client whose connections all lead to other bitflood clients: module Scheduler with a client and two streams, as in
    module Transfer, behind each connection. */
module Swarms {
  import opened Types
  import opened Bitfields
  import opened PeerProtocol
  import opened PeerLoop
  import opened Scheduler
  import opened Losses
  import Loops
  import Transfer
  import Turns

  /** The client at the other end, and the bytes under way to it and from it. */
  datatype Remote = Remote(node: Transfer.Node, up: seq<byte>, down: seq<byte>)

  datatype Swarm = Swarm(sys: System, remotes: seq<Remote>)

  /** What happens next, at this client or at the other end of one of its connections. No write fails. */
  datatype SwarmMove =
    | Connect(id: string, ownId: string, ownField: seq<bv8>, pieces: seq<Option<Piece>>, field: seq<bv8>)
    | Works(slot: nat, part: Part)
    | Receives(slot: nat)
    | Judges(slot: nat)
    | Hears(slot: nat)
    | Other(slot: nat, act: Transfer.Act)
    | Closes(slot: nat)
    | Stores

  predicate InRange(s: Swarm, i: nat) {
    i < |s.sys.slots| && i < |s.remotes|
  }

  /** A connection with both its ends. */
  function PairOf(s: Swarm, i: nat): Transfer.Pair
    requires InRange(s, i)
  {
    var r := s.remotes[i];
    Transfer.Pair(Transfer.Node(s.sys.slots[i].loop, s.sys.results.pieces), r.node, r.up, r.down)
  }

  /** The move of this client's connections, if it is one of theirs. */
  function OwnMoves(s: Swarm, move: SwarmMove): seq<Move> {
    match move
    case Connect(id, _, _, _, _) => [Join(id)]
    case Works(i, part) => if InRange(s, i) && Idle(s.sys, i) then [Work(i, part, Transfer.Reliable())] else []
    case Receives(i) => [ReceiveOrder(i)]
    case Judges(i) => [JudgeOrder(i)]
    case Hears(i) =>
      if InRange(s, i) && Idle(s.sys, i) && Deserialize(s.remotes[i].down).Received? then
        [Hear(i, Deserialize(s.remotes[i].down).msg)]
      else []
    case Other(_, _) => []
    case Closes(i) => [Close(i)]
    case Stores => [StoreResult]
  }

  /** The streams and the other ends after a move that made `sys` of this client's connections. */
  function RemotesAfter(s: Swarm, move: SwarmMove, sys: System): seq<Remote> {
    match move
    case Connect(id, ownId, ownField, pieces, field) =>
      var pair := Transfer.Opened(ownId, id, [], pieces, ownField, field);
      s.remotes + [Remote(pair.b, pair.ab, pair.ba)]
    case Works(i, _) =>
      if InRange(s, i) && Idle(s.sys, i) && i < |sys.slots| then
        var written := Transfer.Written(s.sys.slots[i].loop.log, sys.slots[i].loop.log);
        s.remotes[i := s.remotes[i].(up := s.remotes[i].up + Frames(written))]
      else s.remotes
    case Hears(i) =>
      if OwnMoves(s, move) != [] then s.remotes[i := s.remotes[i].(down := Deserialize(s.remotes[i].down).rest)]
      else s.remotes
    case _ => s.remotes
  }

  function SwarmStep(s: Swarm, move: SwarmMove, t: Torrent): Outcome<Swarm> {
    match move
    case Other(i, act) =>
      if InRange(s, i) && s.sys.slots[i].alive then
        match Transfer.StepA(Transfer.Swap(PairOf(s, i)), act, t)
        case Ok(r) => Ok(s.(remotes := s.remotes[i := Remote(r.a, r.ba, r.ab)]))
        case Err => Err
        case Panic => Panic
      else Ok(s)
    case _ =>
      match RunSystem(s.sys, OwnMoves(s, move), t)
      case Ok(sys) => Ok(Swarm(sys, RemotesAfter(s, move, sys)))
      case Err => Err
      case Panic => Panic
  }

  function RunSwarm(s: Swarm, moves: seq<SwarmMove>, t: Torrent): Outcome<Swarm>
    decreases moves
  {
    if moves == [] then Ok(s)
    else match SwarmStep(s, moves[0], t)
      case Ok(next) => RunSwarm(next, moves[1..], t)
      case Err => Err
      case Panic => Panic
  }

  // ---------- The invariant ----------

  ghost predicate ConnectionOk(s: Swarm, i: nat, t: Torrent)
    requires InRange(s, i)
  {
    s.sys.slots[i].alive ==>
      && Transfer.Joined(PairOf(s, i), t)
      && (s.sys.slots[i].inHand.Some? ==> WantsOrder(s.sys.slots[i].loop, t.NumPieces()))
  }

  ghost predicate SwarmOk(s: Swarm, t: Torrent) {
    && Accounted(s.sys, t) && |s.remotes| == |s.sys.slots|
    && forall i: nat :: i < |s.remotes| ==> ConnectionOk(s, i, t)
  }

  /** What the other ends bring with them: fields of the right length that claim only pieces that are there, and pieces
      of the right length. What they do then is what bitflood does. */
  ghost predicate ValidSwarmMove(s: Swarm, move: SwarmMove, t: Torrent) {
    match move
    case Connect(_, _, ownField, pieces, field) =>
      && Transfer.Holds(pieces, t) && Transfer.FieldOf(field, pieces) && |field| == BytesFor(t.NumPieces())
      && Transfer.FieldOf(ownField, s.sys.results.pieces) && |ownField| == BytesFor(t.NumPieces())
    case Other(_, act) => Transfer.ValidAct(act, t)
    case _ => true
  }

  ghost predicate ValidRun(s: Swarm, moves: seq<SwarmMove>, t: Torrent)
    decreases moves
  {
    moves != [] ==>
      && ValidSwarmMove(s, moves[0], t)
      && (SwarmStep(s, moves[0], t).Ok? ==> ValidRun(SwarmStep(s, moves[0], t).value, moves[1..], t))
  }

  // ---------- Every step ----------

  lemma {:induction false} OneMove(s: System, move: Move, t: Torrent)
    ensures RunSystem(s, [move], t) == Step(s, move, t)
  {
    assert [move][1..] == [];
  }

  function ActOf(part: Part): Transfer.Act {
    match part
    case Upload => Transfer.Upload
    case Complete => Transfer.Complete
    case Interested => Transfer.Interested
    case Fill => Transfer.Fill
    case Tick(choke) => Transfer.Tick(choke)
  }

  /** The pair after this end's loop has become `l`. */
  lemma {:induction false} PartKeepsPair(s: Swarm, i: nat, part: Part, t: Torrent) returns (l: Loop)
    requires InRange(s, i) && Transfer.Joined(PairOf(s, i), t) && Transfer.Addressable(t)
    ensures DoPart(s.sys.slots[i].loop, part, s.sys.results.pieces, t, Transfer.Reliable()) == Ok(l)
    ensures Transfer.Joined(Turns.AfterLoop(PairOf(s, i), l), t)
  {
    Turns.PartStep(PairOf(s, i), ActOf(part), t);
    l := DoPart(s.sys.slots[i].loop, part, s.sys.results.pieces, t, Transfer.Reliable()).value;
  }

  /** Only connection `i` changed, and it is still good. */
  lemma {:induction false} OneChanged(s: Swarm, next: Swarm, i: nat, t: Torrent)
    requires SwarmOk(s, t) && Accounted(next.sys, t) && InRange(s, i)
    requires |next.remotes| == |s.remotes| && |next.sys.slots| == |s.sys.slots|
    requires next.sys.results == s.sys.results
    requires forall j: nat :: j < |s.remotes| && j != i ==>
      next.sys.slots[j] == s.sys.slots[j] && next.remotes[j] == s.remotes[j]
    requires ConnectionOk(next, i, t)
    ensures SwarmOk(next, t)
  {
    forall j: nat | j < |next.remotes|
      ensures ConnectionOk(next, j, t)
    {
      if j != i {
        SameConnection(s, next, j, t);
      }
    }
  }

  lemma {:induction false} SameConnection(s: Swarm, next: Swarm, j: nat, t: Torrent)
    requires InRange(s, j) && InRange(next, j) && ConnectionOk(s, j, t)
    requires next.sys.slots[j] == s.sys.slots[j] && next.remotes[j] == s.remotes[j]
    requires next.sys.results == s.sys.results
    ensures ConnectionOk(next, j, t)
  {
    assert PairOf(next, j) == PairOf(s, j);
  }

  /** Connection `i` after its loop has become `l`, and its streams `up` and `down`. */
  function WithLoop(s: Swarm, i: nat, l: Loop, up: seq<byte>, down: seq<byte>): Swarm
    requires InRange(s, i)
  {
    Swarm(Publish(s.sys, i, l, true), s.remotes[i := Remote(s.remotes[i].node, up, down)])
  }

  lemma {:induction false} WithLoopIsOk(s: Swarm, i: nat, l: Loop, up: seq<byte>, down: seq<byte>, t: Torrent)
    requires SwarmOk(s, t) && InRange(s, i) && Accounted(Publish(s.sys, i, l, true), t)
    requires Transfer.Joined(PairOf(WithLoop(s, i, l, up, down), i), t)
    ensures SwarmOk(WithLoop(s, i, l, up, down), t)
  {
    OneChanged(s, WithLoop(s, i, l, up, down), i, t);
  }

  lemma {:induction false} WorksIsWithLoop(s: Swarm, i: nat, part: Part, l: Loop, t: Torrent)
    requires InRange(s, i) && Idle(s.sys, i)
    requires DoPart(s.sys.slots[i].loop, part, s.sys.results.pieces, t, Transfer.Reliable()) == Ok(l)
    ensures Step(s.sys, Work(i, part, Transfer.Reliable()), t) == Ok(Publish(s.sys, i, l, true))
    ensures var up := s.remotes[i].up + Frames(Transfer.Written(s.sys.slots[i].loop.log, l.log));
      SwarmStep(s, Works(i, part), t) == Ok(WithLoop(s, i, l, up, s.remotes[i].down))
  {
    OneMove(s.sys, Work(i, part, Transfer.Reliable()), t);
  }

  lemma {:induction false} WorksStep(s: Swarm, i: nat, part: Part, t: Torrent)
    requires SwarmOk(s, t) && Transfer.Addressable(t) && InRange(s, i) && Idle(s.sys, i)
    ensures SwarmStep(s, Works(i, part), t).Ok? && SwarmOk(SwarmStep(s, Works(i, part), t).value, t)
  {
    assert ConnectionOk(s, i, t);
    var l := PartKeepsPair(s, i, part, t);
    var up := s.remotes[i].up + Frames(Transfer.Written(s.sys.slots[i].loop.log, l.log));
    WorksIsWithLoop(s, i, part, l, t);
    StepKeepsAccounted(s.sys, Work(i, part, Transfer.Reliable()), t);
    assert PairOf(WithLoop(s, i, l, up, s.remotes[i].down), i) == Turns.AfterLoop(PairOf(s, i), l);
    WithLoopIsOk(s, i, l, up, s.remotes[i].down, t);
  }

  /** What hearing the message at the front of the stream makes of the loop. */
  function Heard(l: Loop, msg: PeerMessage, t: Torrent): Outcome<Loop> {
    if msg.keepAlive then Ok(l) else HandleMessage(l, msg, t.NumPieces())
  }

  lemma {:induction false} HearsIsWithLoop(s: Swarm, i: nat, l: Loop, t: Torrent)
    requires InRange(s, i) && Idle(s.sys, i) && Deserialize(s.remotes[i].down).Received?
    requires Heard(s.sys.slots[i].loop, Deserialize(s.remotes[i].down).msg, t) == Ok(l)
    ensures var r := Deserialize(s.remotes[i].down);
      && Step(s.sys, Hear(i, r.msg), t) == Ok(Publish(s.sys, i, l, true))
      && SwarmStep(s, Hears(i), t) == Ok(WithLoop(s, i, l, s.remotes[i].up, r.rest))
  {
    var r := Deserialize(s.remotes[i].down);
    OneMove(s.sys, Hear(i, r.msg), t);
    if r.msg.keepAlive {
      Loops.PublishItself(s.sys, i);
    }
  }

  /** Receiving is what `Heard` says. */
  lemma {:induction false} ReceivingIsHearing(pair: Transfer.Pair, t: Torrent)
    requires Deserialize(pair.ba).Received? && Transfer.StepA(pair, Transfer.Receive, t).Ok?
    ensures var r := Deserialize(pair.ba);
      && Heard(pair.a.loop, r.msg, t).Ok?
      && Transfer.StepA(pair, Transfer.Receive, t).value ==
           pair.(a := pair.a.(loop := Heard(pair.a.loop, r.msg, t).value), ba := r.rest)
  {
  }

  /** The message at the front of the stream is handled without error, and the pair stays good. */
  lemma {:induction false} HearingKeepsPair(pair: Transfer.Pair, t: Torrent) returns (l: Loop)
    requires Transfer.Joined(pair, t) && Transfer.Addressable(t) && Deserialize(pair.ba).Received?
    ensures Heard(pair.a.loop, Deserialize(pair.ba).msg, t) == Ok(l)
    ensures Transfer.Joined(pair.(a := pair.a.(loop := l), ba := Deserialize(pair.ba).rest), t)
  {
    Transfer.StepAKeepsJoined(pair, Transfer.Receive, t);
    ReceivingIsHearing(pair, t);
    l := Heard(pair.a.loop, Deserialize(pair.ba).msg, t).value;
  }

  lemma {:induction false} HearsStep(s: Swarm, i: nat, t: Torrent)
    requires SwarmOk(s, t) && Transfer.Addressable(t) && InRange(s, i) && Idle(s.sys, i)
    requires Deserialize(s.remotes[i].down).Received?
    ensures SwarmStep(s, Hears(i), t).Ok? && SwarmOk(SwarmStep(s, Hears(i), t).value, t)
    ensures !LosesOrder(s.sys, Hear(i, Deserialize(s.remotes[i].down).msg), t)
  {
    var r := Deserialize(s.remotes[i].down);
    assert ConnectionOk(s, i, t) && GoodSlot(s.sys.slots[i], t);
    var l := HearingKeepsPair(PairOf(s, i), t);
    HearsIsWithLoop(s, i, l, t);
    StepKeepsAccounted(s.sys, Hear(i, r.msg), t);
    WithLoopIsOk(s, i, l, s.remotes[i].up, r.rest, t);
    HandlingFailsIff(s.sys.slots[i].loop, r.msg, t.NumPieces());
  }

  // ---------- Orders ----------

  lemma {:induction false} ReceivesStep(s: Swarm, i: nat, t: Torrent)
    requires SwarmOk(s, t)
    ensures SwarmStep(s, Receives(i), t).Ok? && SwarmOk(SwarmStep(s, Receives(i), t).value, t)
  {
    OneMove(s.sys, ReceiveOrder(i), t);
    StepKeepsAccounted(s.sys, ReceiveOrder(i), t);
    var next := SwarmStep(s, Receives(i), t).value;
    if i < |s.remotes| {
      assert ConnectionOk(s, i, t);
      assert PairOf(next, i) == PairOf(s, i);
      OneChanged(s, next, i, t);
    }
  }

  /** A connection that asked for an order and got one judges it. */
  lemma {:induction false} JudgingKeepsPair(pair: Transfer.Pair, o: PieceOrder, t: Torrent) returns (l: Loop)
    requires Transfer.Joined(pair, t) && Transfer.Addressable(t) && WantsOrder(pair.a.loop, t.NumPieces())
    requires o.index < t.NumPieces() && o.length == t.pieceLength
    ensures TakeOrder(pair.a.loop, o) == Ok(l)
    ensures Transfer.Joined(pair.(a := pair.a.(loop := l)), t)
  {
    Turns.PartStep(pair, Transfer.Take(o), t);
    l := TakeOrder(pair.a.loop, o).value;
    Transfer.TakingKeepsLeeching(pair.a.loop, Transfer.Under(pair.ab), pair.b, Transfer.Under(pair.ba), t, o);
    Transfer.WrittenNone(l.log);
    Turns.SilentLoop(pair, l);
  }

  lemma {:induction false} JudgesIsWithLoop(s: Swarm, i: nat, l: Loop, t: Torrent)
    requires InRange(s, i) && s.sys.slots[i].alive && s.sys.slots[i].inHand.Some?
    requires TakeOrder(s.sys.slots[i].loop, s.sys.slots[i].inHand.value) == Ok(l)
    ensures Step(s.sys, JudgeOrder(i), t) == Ok(Publish(s.sys, i, l, true))
    ensures SwarmStep(s, Judges(i), t) == Ok(WithLoop(s, i, l, s.remotes[i].up, s.remotes[i].down))
  {
    OneMove(s.sys, JudgeOrder(i), t);
    assert s.remotes[i := Remote(s.remotes[i].node, s.remotes[i].up, s.remotes[i].down)] == s.remotes;
  }

  lemma {:induction false} JudgesStep(s: Swarm, i: nat, t: Torrent)
    requires SwarmOk(s, t) && Transfer.Addressable(t)
    ensures SwarmStep(s, Judges(i), t).Ok? && SwarmOk(SwarmStep(s, Judges(i), t).value, t)
  {
    if i < |s.sys.slots| && s.sys.slots[i].alive && s.sys.slots[i].inHand.Some? {
      var o := s.sys.slots[i].inHand.value;
      assert ConnectionOk(s, i, t) && GoodSlot(s.sys.slots[i], t);
      var l := JudgingKeepsPair(PairOf(s, i), o, t);
      JudgesIsWithLoop(s, i, l, t);
      StepKeepsAccounted(s.sys, JudgeOrder(i), t);
      WithLoopIsOk(s, i, l, s.remotes[i].up, s.remotes[i].down, t);
    } else {
      OneMove(s.sys, JudgeOrder(i), t);
    }
  }

  // ---------- The others ----------

  lemma {:induction false} OtherStep(s: Swarm, i: nat, act: Transfer.Act, t: Torrent)
    requires SwarmOk(s, t) && Transfer.Addressable(t) && Transfer.ValidAct(act, t)
    ensures SwarmStep(s, Other(i, act), t).Ok? && SwarmOk(SwarmStep(s, Other(i, act), t).value, t)
  {
    if InRange(s, i) && s.sys.slots[i].alive {
      assert ConnectionOk(s, i, t);
      Transfer.StepAKeepsJoined(Transfer.Swap(PairOf(s, i)), act, t);
      var r := Transfer.StepA(Transfer.Swap(PairOf(s, i)), act, t).value;
      OtherEndStays(Transfer.Swap(PairOf(s, i)), act, t);
      var next := SwarmStep(s, Other(i, act), t).value;
      assert PairOf(next, i) == Transfer.Swap(r);
      OneChanged(s, next, i, t);
    }
  }

  lemma {:induction false} OtherEndStays(pair: Transfer.Pair, act: Transfer.Act, t: Torrent)
    requires Transfer.StepA(pair, act, t).Ok?
    ensures Transfer.StepA(pair, act, t).value.b == pair.b
  {
  }

  lemma {:induction false} ClosesStep(s: Swarm, i: nat, t: Torrent)
    requires SwarmOk(s, t)
    ensures SwarmStep(s, Closes(i), t).Ok? && SwarmOk(SwarmStep(s, Closes(i), t).value, t)
  {
    OneMove(s.sys, Close(i), t);
    StepKeepsAccounted(s.sys, Close(i), t);
    if Idle(s.sys, i) {
      OneChanged(s, SwarmStep(s, Closes(i), t).value, i, t);
    }
  }

  lemma {:induction false} StoringKeepsPair(pair: Transfer.Pair, p: Piece, t: Torrent)
    requires Transfer.Joined(pair, t) && Transfer.Addressable(t) && GoodPiece(p, t) && p.index < |pair.a.pieces|
    requires pair.a.pieces[p.index].None?
    ensures Transfer.Joined(pair.(a := pair.a.(pieces := pair.a.pieces[p.index := Some(p)])), t)
  {
    Transfer.StepAKeepsJoined(pair, Transfer.Store(p), t);
  }

  lemma {:induction false} StoresStep(s: Swarm, t: Torrent)
    requires SwarmOk(s, t) && Transfer.Addressable(t)
    ensures SwarmStep(s, Stores, t).Ok? && SwarmOk(SwarmStep(s, Stores, t).value, t)
  {
    OneMove(s.sys, StoreResult, t);
    StoreResultKeepsAccounted(s.sys, t);
    if s.sys.finished != [] {
      var p := s.sys.finished[0];
      assert GoodPiece(p, t);
      var next := SwarmStep(s, Stores, t).value;
      forall j: nat | j < |next.remotes|
        ensures ConnectionOk(next, j, t)
      {
        StoredConnection(s, next, j, p, t);
      }
    }
  }

  lemma {:induction false} StoredConnection(s: Swarm, next: Swarm, j: nat, p: Piece, t: Torrent)
    requires InRange(s, j) && InRange(next, j) && ConnectionOk(s, j, t) && Transfer.Addressable(t)
    requires next.sys.slots[j] == s.sys.slots[j] && next.remotes[j] == s.remotes[j]
    requires GoodPiece(p, t) && p.index < |s.sys.results.pieces| && s.sys.results.pieces[p.index].None?
    requires next.sys.results.pieces == s.sys.results.pieces[p.index := Some(p)]
    ensures ConnectionOk(next, j, t)
  {
    if s.sys.slots[j].alive {
      StoringKeepsPair(PairOf(s, j), p, t);
    }
  }

  /** A new connection is that of `Opened`, whatever pieces this client has by then. */
  lemma {:induction false} ConnectStep(s: Swarm, move: SwarmMove, t: Torrent)
    requires SwarmOk(s, t) && Transfer.Addressable(t) && move.Connect? && ValidSwarmMove(s, move, t)
    ensures SwarmStep(s, move, t).Ok? && SwarmOk(SwarmStep(s, move, t).value, t)
  {
    OneMove(s.sys, Join(move.id), t);
    StepKeepsAccounted(s.sys, Join(move.id), t);
    var next := SwarmStep(s, move, t).value;
    Transfer.OpenedIsJoined(move.ownId, move.id, s.sys.results.pieces, move.pieces, move.ownField, move.field, t);
    forall j: nat | j < |next.remotes|
      ensures ConnectionOk(next, j, t)
    {
      if j < |s.remotes| {
        SameConnection(s, next, j, t);
      } else {
        assert PairOf(next, j) ==
          Transfer.Opened(move.ownId, move.id, s.sys.results.pieces, move.pieces, move.ownField, move.field);
      }
    }
  }

  // ---------- Every run ----------

  lemma {:induction false} SwarmStepIsOk(s: Swarm, move: SwarmMove, t: Torrent)
    requires SwarmOk(s, t) && Transfer.Addressable(t) && ValidSwarmMove(s, move, t)
    ensures SwarmStep(s, move, t).Ok? && SwarmOk(SwarmStep(s, move, t).value, t)
    ensures RunSystem(s.sys, OwnMoves(s, move), t) == Ok(SwarmStep(s, move, t).value.sys)
    ensures KeepsOrders(s.sys, OwnMoves(s, move), t)
  {
    match move
    case Connect(_, _, _, _, _) => ConnectStep(s, move, t);
    case Works(i, part) => if InRange(s, i) && Idle(s.sys, i) { WorksStep(s, i, part, t); }
    case Receives(i) => ReceivesStep(s, i, t);
    case Judges(i) => JudgesStep(s, i, t);
    case Hears(i) => if OwnMoves(s, move) != [] { HearsStep(s, i, t); }
    case Other(i, act) => OtherStep(s, i, act, t);
    case Closes(i) => ClosesStep(s, i, t);
    case Stores => StoresStep(s, t);
  }

  lemma {:induction false} KeepsOrdersConcat(s: System, first: seq<Move>, second: seq<Move>, next: System, t: Torrent)
    requires RunSystem(s, first, t) == Ok(next) && KeepsOrders(s, first, t) && KeepsOrders(next, second, t)
    ensures KeepsOrders(s, first + second, t) && RunSystem(s, first + second, t) == RunSystem(next, second, t)
    decreases first
  {
    if first == [] {
      assert [] + second == second;
    } else {
      assert (first + second)[0] == first[0] && (first + second)[1..] == first[1..] + second;
      KeepsOrdersConcat(Step(s, first[0], t).value, first[1..], second, next, t);
    }
  }

  /** Whatever order of events: nothing fails, and no connection is sent a message that it refuses. */
  lemma {:induction false} SwarmRunIsOk(s: Swarm, moves: seq<SwarmMove>, t: Torrent) returns (own: seq<Move>)
    requires SwarmOk(s, t) && Transfer.Addressable(t) && ValidRun(s, moves, t)
    ensures RunSwarm(s, moves, t).Ok? && SwarmOk(RunSwarm(s, moves, t).value, t)
    ensures RunSystem(s.sys, own, t) == Ok(RunSwarm(s, moves, t).value.sys) && KeepsOrders(s.sys, own, t)
    decreases moves
  {
    if moves == [] {
      own := [];
    } else {
      SwarmStepIsOk(s, moves[0], t);
      var next := SwarmStep(s, moves[0], t).value;
      var later := SwarmRunIsOk(next, moves[1..], t);
      KeepsOrdersConcat(s.sys, OwnMoves(s, moves[0]), later, next.sys, t);
      own := OwnMoves(s, moves[0]) + later;
    }
  }

  /** Among bitflood clients with fields of the right length, over any interleaving of everything that all of them do:
      no client comes down, no order is lost, and a download that has come to rest is complete. */
  lemma {:induction false} AmongOurselvesNothingIsLost(sys: System, moves: seq<SwarmMove>, t: Torrent)
    requires Started(sys, t) && Transfer.Addressable(t) && ValidRun(Swarm(sys, []), moves, t)
    ensures var r := RunSwarm(Swarm(sys, []), moves, t);
      && r.Ok? && r.value.sys.lost == {}
      && (Quiet(r.value.sys) ==> r.value.sys.results.piecesDone == t.NumPieces())
  {
    var own := SwarmRunIsOk(Swarm(sys, []), moves, t);
    RunLosesIff(sys, own, t);
    if Quiet(RunSystem(sys, own, t).value) {
      DownloadCompletesIff(sys, own, t);
    }
  }
}
