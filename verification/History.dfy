/** What a connection has done, read off its history and what it put on the channels (client/peer.go:97-204). */
module History {
  import opened Types
  import opened BigEndian
  import opened Bitfields
  import opened PeerProtocol
  import opened Assembly
  import opened PeerLoop
  import Discipline
  import Acquaintance
  import Losses

  // ---------- What the history says ----------

  /** The payloads of the HAVEs that were written, in order. */
  function HavePayloads(log: seq<Action>): seq<seq<byte>> {
    if log == [] then []
    else
      var last := log[|log| - 1];
      HavePayloads(log[..|log| - 1]) + (if Discipline.IsSent(last, HAVE) then [last.msg.data] else [])
  }

  /** The indices of the pieces handed over, as a HAVE carries them. */
  function FinishedPayloads(finished: seq<Piece>): (r: seq<seq<byte>>)
    ensures |r| == |finished|
    ensures forall k :: 0 <= k < |finished| ==> r[k] == PutUint32(finished[k].index)
  {
    seq(|finished|, k requires 0 <= k < |finished| => PutUint32(finished[k].index))
  }

  /** The requests that wait: each one received goes to the end, and for each block written the last takes the place of
      the first. A write that failed serves nothing. */
  function Waiting(log: seq<Action>): seq<Request> {
    if log == [] then []
    else
      var last, before := log[|log| - 1], Waiting(log[..|log| - 1]);
      if Discipline.IsGot(last, REQUEST) then
        match DeserializeRequestMsg(last.msg)
        case Ok((index, begin, length)) => before + [Request(index, begin, length)]
        case _ => before
      else if Discipline.IsSent(last, PIECE) && before != [] then SwapRemove(before, 0)
      else before
  }

  /** The bitfield of the last BITFIELD received; none at first. */
  function LastField(log: seq<Action>, numPieces: nat): Bits {
    if log == [] then Bits(0, [])
    else
      var last := log[|log| - 1];
      if Discipline.IsGot(last, BITFIELD) then Bits(numPieces, FromWire(last.msg.data))
      else LastField(log[..|log| - 1], numPieces)
  }

  /** A block that was written answers the request in front, with as many bytes as it asks for. */
  predicate Answers(before: seq<Action>, a: Action) {
    Discipline.IsAttempt(a, PIECE) ==>
      && Waiting(before) != []
      && var r := Waiting(before)[0];
        && |a.msg.data| == 8 + r.length
        && a.msg.data[..4] == PutUint32(r.index) && a.msg.data[4..8] == PutUint32(r.start)
  }

  ghost predicate AllAnswer(log: seq<Action>) {
    forall i :: 0 <= i < |log| ==> Answers(log[..i], log[i])
  }

  /** The state of the loop is what its history says. */
  ghost predicate Recorded(l: Loop, numPieces: nat) {
    && HavePayloads(l.log) == FinishedPayloads(l.finished)
    && Waiting(l.log) == l.requested && AllAnswer(l.log)
    && LastField(l.log, numPieces) == l.peer.bitfield
  }

  // ---------- Every step ----------

  lemma {:induction false} RecordedAfter(l: Loop, a: Action, next: Loop, numPieces: nat)
    requires Recorded(l, numPieces) && next.log == l.log + [a] && Answers(l.log, a)
    requires FinishedPayloads(next.finished) ==
      FinishedPayloads(l.finished) + (if Discipline.IsSent(a, HAVE) then [a.msg.data] else [])
    requires next.requested == (
      if Discipline.IsGot(a, REQUEST) then
        match DeserializeRequestMsg(a.msg)
        case Ok((index, begin, length)) => l.requested + [Request(index, begin, length)]
        case _ => l.requested
      else if Discipline.IsSent(a, PIECE) && l.requested != [] then SwapRemove(l.requested, 0)
      else l.requested)
    requires next.peer.bitfield ==
      if Discipline.IsGot(a, BITFIELD) then Bits(numPieces, FromWire(a.msg.data)) else l.peer.bitfield
    ensures Recorded(next, numPieces)
  {
    assert (l.log + [a])[..|l.log|] == l.log;
    forall i | 0 <= i < |next.log|
      ensures Answers(next.log[..i], next.log[i])
    {
      if i < |l.log| {
        assert next.log[..i] == l.log[..i];
      } else {
        assert next.log[..i] == l.log;
      }
    }
  }

  /** A write of another message, or one that changes nothing here. */
  lemma {:induction false} OtherWrite(l: Loop, msg: PeerMessage, net: Network, next: Loop, numPieces: nat)
    requires Recorded(l, numPieces) && msg.code != PIECE && (msg.code == HAVE ==> !net(l.log))
    requires next.log == Send(l, msg, net).log && next.finished == l.finished && next.requested == l.requested
    requires next.peer.bitfield == l.peer.bitfield
    ensures Recorded(next, numPieces)
  {
    var a := if net(l.log) then Sent(msg) else SendFailed(msg);
    assert FinishedPayloads(l.finished) + [] == FinishedPayloads(l.finished);
    RecordedAfter(l, a, next, numPieces);
  }

  /** The chunk to send is the one in front. */
  lemma {:induction false} ChunkAnswers(l: Loop, pieces: seq<Option<Piece>>, msg: PeerMessage, a: Action)
    requires ChunkToSend(l, pieces) == Ok(Some(msg)) && Waiting(l.log) == l.requested
    requires a == Sent(msg) || a == SendFailed(msg)
    ensures Answers(l.log, a)
  {
    var r := l.requested[0];
    var block := pieces[r.index].value.data[r.start..r.start + r.length];
    assert msg.data == PutUint32(r.index) + PutUint32(r.start) + block;
  }

  lemma {:induction false} UploadRecorded(l: Loop, pieces: seq<Option<Piece>>, net: Network, numPieces: nat)
    requires Recorded(l, numPieces) && UploadChunk(l, pieces, net).Ok?
    ensures Recorded(UploadChunk(l, pieces, net).value, numPieces)
  {
    match ChunkToSend(l, pieces)
    case Ok(Some(msg)) =>
      var a := if net(l.log) then Sent(msg) else SendFailed(msg);
      ChunkAnswers(l, pieces, msg, a);
      assert FinishedPayloads(l.finished) + [] == FinishedPayloads(l.finished);
      RecordedAfter(l, a, SendChunk(l, msg, net), numPieces);
    case _ =>
  }

  lemma {:induction false} CompleteRecorded(l: Loop, sha1: HashFunction, net: Network, numPieces: nat)
    requires Recorded(l, numPieces)
    ensures Recorded(CompletePiece(l, sha1, net), numPieces)
  {
    var p, next := l.progress, CompletePiece(l, sha1, net);
    if p.order.Some? && p.numDone == p.order.value.length && sha1(p.buf) == p.order.value.hash {
      var have := Message(HAVE, PutUint32(p.order.value.index));
      if net(l.log) {
        assert FinishedPayloads(next.finished) == FinishedPayloads(l.finished) + [have.data];
        RecordedAfter(l, Sent(have), next, numPieces);
      } else {
        OtherWrite(l, have, net, next, numPieces);
      }
    }
  }

  lemma {:induction false} GetPieceRecorded(l: Loop, offer: Option<PieceOrder>, numPieces: nat)
    requires Recorded(l, numPieces) && GetPiece(l, numPieces, offer).Ok?
    ensures Recorded(GetPiece(l, numPieces, offer).value, numPieces)
  {
  }

  lemma {:induction false} RequestsRecorded(l: Loop, n: nat, net: Network, numPieces: nat)
    requires Recorded(l, numPieces)
    ensures Recorded(RequestUpTo(l, n, net), numPieces)
    decreases n
  {
    if n > 0 && CanRequest(l.progress) {
      var m := NextRequestMessage(l.progress);
      if net(l.log) {
        OtherWrite(l, m, net, SendRequest(l, net), numPieces);
        RequestsRecorded(SendRequest(l, net), n - 1, net, numPieces);
      } else {
        OtherWrite(l, m, net, Send(l, m, net), numPieces);
      }
    }
  }

  lemma {:induction false} AskRecorded(l: Loop, net: Network, numPieces: nat)
    requires Recorded(l, numPieces)
    ensures Recorded(Ask(l, net), numPieces)
  {
    var l1 := SendInterested(l, net);
    if l1 != l {
      OtherWrite(l, Message(INTERESTED, []), net, l1, numPieces);
    }
    FillCases(l1, net);
    if FillRequests(l1, net) != l1 {
      RequestsRecorded(l1, PIPELINE_LENGTH - |l1.progress.requests|, net, numPieces);
    }
  }

  lemma {:induction false} RefreshRecorded(l: Loop, s: Surroundings, c: Config)
    requires Recorded(l, c.numPieces) && Refresh(l, s, c).Ok?
    ensures Recorded(Refresh(l, s, c).value, c.numPieces)
  {
    UploadRecorded(l, s.pieces, c.net, c.numPieces);
    var l1 := UploadChunk(l, s.pieces, c.net).value;
    CompleteRecorded(l1, c.sha1, c.net, c.numPieces);
    GetPieceRecorded(CompletePiece(l1, c.sha1, c.net), s.offer, c.numPieces);
  }

  lemma {:induction false} MessageRecorded(l: Loop, msg: PeerMessage, numPieces: nat)
    requires Recorded(l, numPieces) && HandleMessage(l, msg, numPieces).Ok?
    ensures Recorded(HandleMessage(l, msg, numPieces).value, numPieces)
  {
    assert FinishedPayloads(l.finished) + [] == FinishedPayloads(l.finished);
    RecordedAfter(l, Got(msg), HandleMessage(l, msg, numPieces).value, numPieces);
  }

  lemma {:induction false} EventRecorded(l: Loop, event: Event, c: Config)
    requires Recorded(l, c.numPieces) && HandleEvent(l, event, c).Ok?
    ensures Recorded(HandleEvent(l, event, c).value, c.numPieces)
  {
    match event
    case Incoming(msg) => if !msg.keepAlive { MessageRecorded(l, msg, c.numPieces); }
    case UnchokeTick(ids) =>
      var choke := l.peer.id !in ids;
      if choke != l.peer.choking {
        OtherWrite(l, Message(if choke then CHOKE else UNCHOKE, []), c.net, SetChoking(l, choke, c.net), c.numPieces);
      }
  }

  lemma {:induction false} RunKeepsRecorded(l: Loop, script: seq<Surroundings>, c: Config)
    requires Recorded(l, c.numPieces) && RunLoop(l, script, c).Ok?
    ensures Recorded(RunLoop(l, script, c).value, c.numPieces)
    decreases script
  {
    if script != [] {
      RefreshRecorded(l, script[0], c);
      AskRecorded(Refresh(l, script[0], c).value, c.net, c.numPieces);
      EventRecorded(Prepare(l, script[0], c).value, script[0].event, c);
      RunKeepsRecorded(Iterate(l, script[0], c).value, script[1..], c);
    }
  }

  /** Over any run of a connection, whichever writes fail: the HAVEs written announce, in order, exactly the pieces
      handed over; the requests that wait are those received and not answered, a failed write answering nothing, and
      each block answers the one in front; and the field known is that of the last BITFIELD. */
  lemma {:induction false} RunIsRecorded(id: string, script: seq<Surroundings>, c: Config)
    requires RunLoop(Connected(id), script, c).Ok?
    ensures var l := RunLoop(Connected(id), script, c).value;
      && |HavePayloads(l.log)| == |l.finished|
      && (forall k :: 0 <= k < |l.finished| ==>
            && HavePayloads(l.log)[k] == PutUint32(l.finished[k].index)
            && (FitsUint32(l.finished[k].index) ==> HasValue(HavePayloads(l.log)[k], l.finished[k].index)))
      && l.requested == Waiting(l.log) && AllAnswer(l.log)
      && l.peer.bitfield == LastField(l.log, c.numPieces)
  {
    RunKeepsRecorded(Connected(id), script, c);
    var l := RunLoop(Connected(id), script, c).value;
    forall k | 0 <= k < |l.finished| && FitsUint32(l.finished[k].index)
      ensures HasValue(HavePayloads(l.log)[k], l.finished[k].index)
    {
      FieldHasValue(HavePayloads(l.log)[k], l.finished[k].index);
    }
  }

  // ---------- The account of orders ----------

  /** The order that the loop takes off the channel in an iteration, to keep it or to put it back. */
  function TakenIn(l: Loop, s: Surroundings, c: Config): seq<nat> {
    match UploadChunk(l, s.pieces, c.net)
    case Ok(l1) =>
      var l2 := CompletePiece(l1, c.sha1, c.net);
      var asks := l2.progress.order.None? && l2.peer.bitfield.length == c.numPieces;
      if asks && s.offer.Some? then [s.offer.value.index] else []
    case _ => []
  }

  /** The indices of all the orders that it takes over a life. */
  function TakenBy(l: Loop, script: seq<Surroundings>, c: Config): seq<nat>
    decreases script
  {
    if script == [] then []
    else TakenIn(l, script[0], c) + match Iterate(l, script[0], c)
      case Ok(next) => TakenBy(next, script[1..], c)
      case _ => []
  }

  function OrderIndices(orders: seq<PieceOrder>): (r: seq<nat>)
    ensures |r| == |orders| && forall k :: 0 <= k < |orders| ==> r[k] == orders[k].index
  {
    seq(|orders|, k requires 0 <= k < |orders| => orders[k].index)
  }

  function PieceIndices(pieces: seq<Piece>): (r: seq<nat>)
    ensures |r| == |pieces| && forall k :: 0 <= k < |pieces| ==> r[k] == pieces[k].index
  {
    seq(|pieces|, k requires 0 <= k < |pieces| => pieces[k].index)
  }

  function HeldIndex(o: Option<PieceOrder>): multiset<nat> {
    if o.Some? then multiset{o.value.index} else multiset{}
  }

  /** What became of the orders: put back, handed over as pieces, or held. */
  function Accounts(returned: seq<PieceOrder>, finished: seq<Piece>, held: Option<PieceOrder>): multiset<nat> {
    multiset(OrderIndices(returned)) + multiset(PieceIndices(finished)) + HeldIndex(held)
  }

  function AccountOf(l: Loop): multiset<nat> {
    Accounts(l.returned, l.finished, l.progress.order)
  }

  lemma {:induction false} OneMoreReturned(orders: seq<PieceOrder>, o: PieceOrder)
    ensures multiset(OrderIndices(orders + [o])) == multiset(OrderIndices(orders)) + multiset{o.index}
  {
    assert OrderIndices(orders + [o]) == OrderIndices(orders) + [o.index];
  }

  lemma {:induction false} OneMoreFinished(pieces: seq<Piece>, p: Piece)
    ensures multiset(PieceIndices(pieces + [p])) == multiset(PieceIndices(pieces)) + multiset{p.index}
  {
    assert PieceIndices(pieces + [p]) == PieceIndices(pieces) + [p.index];
  }

  lemma {:induction false} CompleteKeepsAccount(l: Loop, sha1: HashFunction, net: Network)
    ensures AccountOf(CompletePiece(l, sha1, net)) == AccountOf(l)
  {
    if l.progress.order.Some? {
      var o := l.progress.order.value;
      OneMoreReturned(l.returned, o);
      OneMoreFinished(l.finished, Piece(o.index, o.length, l.progress.buf, l.peer.id));
    }
  }

  lemma {:induction false} UploadKeepsAccount(l: Loop, pieces: seq<Option<Piece>>, net: Network)
    requires UploadChunk(l, pieces, net).Ok?
    ensures AccountOf(UploadChunk(l, pieces, net).value) == AccountOf(l)
  {
  }

  lemma {:induction false} TakingAdds(l: Loop, order: PieceOrder)
    requires l.progress.order.None? && TakeOrder(l, order).Ok?
    ensures AccountOf(TakeOrder(l, order).value) == AccountOf(l) + multiset{order.index}
  {
    OneMoreReturned(l.returned, order);
  }

  lemma {:induction false} AskKeepsOrders(l: Loop, net: Network)
    ensures var next := Ask(l, net);
      next.returned == l.returned && next.finished == l.finished && next.progress.order == l.progress.order
  {
    var l1 := SendInterested(l, net);
    FillCases(l1, net);
    if FillRequests(l1, net) != l1 {
      RequestingKeepsTheRest(l1, PIPELINE_LENGTH - |l1.progress.requests|, net);
    }
  }

  lemma {:induction false} PrepareTakes(l: Loop, s: Surroundings, c: Config)
    requires Prepare(l, s, c).Ok?
    ensures AccountOf(Prepare(l, s, c).value) == AccountOf(l) + multiset(TakenIn(l, s, c))
  {
    UploadKeepsAccount(l, s.pieces, c.net);
    var l1 := UploadChunk(l, s.pieces, c.net).value;
    CompleteKeepsAccount(l1, c.sha1, c.net);
    var l2 := CompletePiece(l1, c.sha1, c.net);
    if l2.progress.order.None? && l2.peer.bitfield.length == c.numPieces && s.offer.Some? {
      TakingAdds(l2, s.offer.value);
    }
    AskKeepsOrders(Refresh(l, s, c).value, c.net);
  }

  lemma {:induction false} EventKeepsAccount(l: Loop, event: Event, c: Config)
    requires HandleEvent(l, event, c).Ok?
    ensures AccountOf(HandleEvent(l, event, c).value) == AccountOf(l)
  {
    match event
    case Incoming(msg) => if !msg.keepAlive { MessageKeepsAccount(l, msg, c.numPieces); }
    case UnchokeTick(_) =>
  }

  lemma {:induction false} MessageKeepsAccount(l: Loop, msg: PeerMessage, numPieces: nat)
    requires HandleMessage(l, msg, numPieces).Ok?
    ensures var next := HandleMessage(l, msg, numPieces).value;
      next.returned == l.returned && next.finished == l.finished && next.progress.order == l.progress.order
  {
  }

  lemma {:induction false} EndAccounts(l: Loop)
    ensures Accounts(RegularEnd(l).returned, RegularEnd(l).finished, RegularEnd(l).dropped) == AccountOf(l)
  {
    if l.progress.order.Some? {
      OneMoreReturned(l.returned, l.progress.order.value);
    }
  }

  /** The account of orders over a whole life, however it ends: those taken off the channel are those put back, those
      handed over as pieces, and the one that is dropped. */
  lemma {:induction false} LifeAccounts(l: Loop, script: seq<Surroundings>, c: Config)
    requires Life(l, script, c).Ok?
    ensures var end := Life(l, script, c).value;
      Accounts(end.returned, end.finished, end.dropped) == AccountOf(l) + multiset(TakenBy(l, script, c))
    decreases script
  {
    if script == [] {
      EndAccounts(l);
    } else {
      PrepareTakes(l, script[0], c);
      var l1 := Prepare(l, script[0], c).value;
      if HandleEvent(l1, script[0].event, c).Ok? {
        EventKeepsAccount(l1, script[0].event, c);
        LifeAccounts(HandleEvent(l1, script[0].event, c).value, script[1..], c);
      } else {
        assert TakenBy(l, script, c) == TakenIn(l, script[0], c) + [];
      }
    }
  }

  // ---------- How a connection ends ----------

  /** The message of iteration `n` is refused in the state `l1` that it meets. */
  ghost predicate RefusedAt(l: Loop, script: seq<Surroundings>, n: nat, c: Config, l1: Loop, msg: PeerMessage) {
    && n < |script| && script[n].event == Incoming(msg) && !msg.keepAlive
    && RunLoop(l, script[..n], c).Ok? && Prepare(RunLoop(l, script[..n], c).value, script[n], c) == Ok(l1)
    && Losses.IsRefused(l1, msg, c.numPieces)
  }

  lemma {:induction false} LifeAfter(l: Loop, first: seq<Surroundings>, rest: seq<Surroundings>, c: Config)
    requires RunLoop(l, first, c).Ok?
    ensures Life(l, first + rest, c) == Life(RunLoop(l, first, c).value, rest, c)
    decreases first
  {
    if first == [] {
      assert [] + rest == rest;
    } else {
      assert (first + rest)[0] == first[0] && (first + rest)[1..] == first[1..] + rest;
      LifeAfter(Iterate(l, first[0], c).value, first[1..], rest, c);
    }
  }

  lemma {:induction false} PrepareKeepsInv(l: Loop, s: Surroundings, c: Config)
    requires Inv(l.progress) && Prepare(l, s, c).Ok?
    ensures Inv(Prepare(l, s, c).value.progress)
  {
    RefreshKeepsInv(l, s, c);
    AskKeepsInv(Refresh(l, s, c).value, c.net);
  }

  /** An iteration whose message is refused is the last one. */
  lemma {:induction false} RefusedNow(l: Loop, s: Surroundings, more: seq<Surroundings>, c: Config, l1: Loop,
                                      msg: PeerMessage)
    requires Inv(l.progress) && Prepare(l, s, c) == Ok(l1) && s.event == Incoming(msg) && !msg.keepAlive
    requires Losses.IsRefused(l1, msg, c.numPieces)
    ensures Life(l, [s] + more, c) ==
      Ok(End(l1.returned, l1.finished, l1.notices + [Ended(l1.peer.id)], l1.log + [Got(msg)], l1.progress.order))
  {
    PrepareKeepsInv(l, s, c);
    Losses.HandlingFailsIff(l1, msg, c.numPieces);
    assert ([s] + more)[0] == s;
  }

  /** What a refused message leaves. */
  function Refusal(l1: Loop, msg: PeerMessage): End {
    End(l1.returned, l1.finished, l1.notices + [Ended(l1.peer.id)], l1.log + [Got(msg)], l1.progress.order)
  }

  lemma {:induction false} RefusedAfter(l: Loop, before: seq<Surroundings>, l0: Loop, s: Surroundings,
                                        more: seq<Surroundings>, c: Config, l1: Loop, msg: PeerMessage)
    requires Inv(l.progress) && RunLoop(l, before, c) == Ok(l0) && Prepare(l0, s, c) == Ok(l1)
    requires s.event == Incoming(msg) && !msg.keepAlive && Losses.IsRefused(l1, msg, c.numPieces)
    ensures Life(l, before + ([s] + more), c) == Ok(Refusal(l1, msg))
  {
    RunKeepsProgressInv(l, before, c);
    RefusedNow(l0, s, more, c, l1, msg);
    LifeAfter(l, before, [s] + more, c);
  }

  lemma {:induction false} SplitAt(script: seq<Surroundings>, n: nat)
    returns (before: seq<Surroundings>, more: seq<Surroundings>)
    requires n < |script|
    ensures before == script[..n] && script == before + ([script[n]] + more)
  {
    before, more := script[..n], script[n + 1..];
  }

  /** A message that is refused ends the connection there and then, whatever would have come: nothing goes back to
      Orders, and the order held is dropped. */
  lemma {:induction false} RefusedEnds(l: Loop, script: seq<Surroundings>, n: nat, c: Config, l1: Loop,
                                       msg: PeerMessage)
    requires Inv(l.progress) && RefusedAt(l, script, n, c, l1, msg)
    ensures Life(l, script, c) ==
      Ok(End(l1.returned, l1.finished, l1.notices + [Ended(l1.peer.id)], l1.log + [Got(msg)], l1.progress.order))
  {
    var before, more := SplitAt(script, n);
    var l0 := RunLoop(l, before, c).value;
    RefusedAfter(l, before, l0, script[n], more, c, l1, msg);
    assert Life(l, script, c) == Ok(Refusal(l1, msg));
  }

  lemma {:induction false} RunLoopStep(l: Loop, script: seq<Surroundings>, c: Config, next: Loop)
    requires script != [] && Iterate(l, script[0], c) == Ok(next)
    ensures RunLoop(l, script, c) == RunLoop(next, script[1..], c)
  {
  }

  /** Handling the event of an iteration fails only for a message that is refused. */
  lemma {:induction false} ErrorIsRefusal(l: Loop, s: Surroundings, c: Config, l1: Loop) returns (msg: PeerMessage)
    requires Inv(l.progress) && Prepare(l, s, c) == Ok(l1) && HandleEvent(l1, s.event, c).Err?
    ensures s.event == Incoming(msg) && !msg.keepAlive && Losses.IsRefused(l1, msg, c.numPieces)
  {
    msg := s.event.msg;
    PrepareKeepsInv(l, s, c);
    Losses.HandlingFailsIff(l1, msg, c.numPieces);
  }

  lemma {:induction false} OneEarlier(l: Loop, next: Loop, script: seq<Surroundings>, m: nat, c: Config, l1: Loop,
                                      msg: PeerMessage)
    requires script != [] && Iterate(l, script[0], c) == Ok(next) && RefusedAt(next, script[1..], m, c, l1, msg)
    ensures RefusedAt(l, script, m + 1, c, l1, msg)
  {
    assert script[..m + 1][0] == script[0] && script[..m + 1][1..] == script[1..][..m];
    RunLoopStep(l, script[..m + 1], c, next);
  }

  lemma {:induction false} IterateKeepsInv(l: Loop, s: Surroundings, c: Config)
    requires Inv(l.progress) && Iterate(l, s, c).Ok?
    ensures Inv(Iterate(l, s, c).value.progress)
  {
    PrepareKeepsInv(l, s, c);
    if s.event.Incoming? && !s.event.msg.keepAlive {
      HandleMessageKeepsInv(Prepare(l, s, c).value, s.event.msg, c.numPieces);
    }
  }

  /** An order is dropped only so: some message of the script is refused while an order is held. */
  lemma {:induction false} DroppedOnlyIfRefused(l: Loop, script: seq<Surroundings>, c: Config)
    returns (n: nat, l1: Loop, msg: PeerMessage)
    requires Inv(l.progress) && Life(l, script, c).Ok? && Life(l, script, c).value.dropped.Some?
    ensures RefusedAt(l, script, n, c, l1, msg)
    ensures l1.progress.order == Life(l, script, c).value.dropped
    decreases script
  {
    if Iterate(l, script[0], c).Ok? {
      var next := Iterate(l, script[0], c).value;
      IterateKeepsInv(l, script[0], c);
      n, l1, msg := DroppedOnlyIfRefused(next, script[1..], c);
      OneEarlier(l, next, script, n, c, l1, msg);
      n := n + 1;
    } else {
      l1 := Prepare(l, script[0], c).value;
      msg := ErrorIsRefusal(l, script[0], c, l1);
      n := 0;
      assert script[..0] == [];
    }
  }

  // ---------- What the main loop is told at the end ----------

  lemma {:induction false} RefusedTellsNothing(l: Loop, s: Surroundings, c: Config, l1: Loop, id: string)
    requires Inv(l.progress) && Prepare(l, s, c) == Ok(l1) && HandleEvent(l1, s.event, c).Err?
    requires Acquaintance.Told(l1, id)
    ensures var end := ErrorEnd(l1, s.event);
      end.notices == Acquaintance.NoticesOf(id, end.log) + [Ended(id)]
  {
    var msg := ErrorIsRefusal(l, s, c, l1);
    Acquaintance.NoticesAppend(id, l1.log, Got(msg));
    assert l1.notices + [] == l1.notices;
  }

  /** However a connection ends, the main loop has been told what its messages said, and then that it ended. */
  lemma {:induction false} LifeTells(l: Loop, script: seq<Surroundings>, c: Config, id: string)
    requires Inv(l.progress) && Acquaintance.Told(l, id) && Life(l, script, c).Ok?
    ensures var end := Life(l, script, c).value;
      end.notices == Acquaintance.NoticesOf(id, end.log) + [Ended(id)]
    decreases script
  {
    if script != [] {
      Acquaintance.RefreshKeepsTold(l, script[0], c, id);
      Acquaintance.AskKeepsTold(Refresh(l, script[0], c).value, c.net, id);
      var l1 := Prepare(l, script[0], c).value;
      if Iterate(l, script[0], c).Ok? {
        Acquaintance.EventIsTold(l1, script[0].event, c, id);
        IterateKeepsInv(l, script[0], c);
        LifeTells(Iterate(l, script[0], c).value, script[1..], c, id);
      } else {
        RefusedTellsNothing(l, script[0], c, l1, id);
      }
    }
  }

  /** A message of the script is refused while the loop holds this order. */
  ghost predicate RefusesHolding(l: Loop, script: seq<Surroundings>, c: Config, order: Option<PieceOrder>) {
    exists n: nat, l1, msg :: RefusedAt(l, script, n, c, l1, msg) && l1.progress.order == order
  }

  lemma {:induction false} DroppedIff(l: Loop, script: seq<Surroundings>, c: Config, order: Option<PieceOrder>)
    requires Inv(l.progress) && Life(l, script, c).Ok? && order.Some?
    ensures Life(l, script, c).value.dropped == order <==> RefusesHolding(l, script, c, order)
  {
    if Life(l, script, c).value.dropped == order {
      var n, l1, msg := DroppedOnlyIfRefused(l, script, c);
      assert RefusedAt(l, script, n, c, l1, msg) && l1.progress.order == order;
    }
    if RefusesHolding(l, script, c, order) {
      var n: nat, l1, msg :| RefusedAt(l, script, n, c, l1, msg) && l1.progress.order == order;
      RefusedEnds(l, script, n, c, l1, msg);
    }
  }

  /** A whole connection, from the handshake to its end: the orders it took are those it put back, those it handed over
      as pieces, and the one that it dropped; one is dropped exactly when a message is refused while it is held; and the
      main loop is told all that the messages said, and the end. */
  lemma {:induction false} EveryLife(id: string, script: seq<Surroundings>, c: Config, order: PieceOrder)
    requires Life(Connected(id), script, c).Ok?
    ensures var end := Life(Connected(id), script, c).value;
      && multiset(TakenBy(Connected(id), script, c)) == Accounts(end.returned, end.finished, end.dropped)
      && end.notices == Acquaintance.NoticesOf(id, end.log) + [Ended(id)]
      && (end.dropped == Some(order) <==> RefusesHolding(Connected(id), script, c, Some(order)))
  {
    NothingYet(id);
    LifeAccounts(Connected(id), script, c);
    LifeTells(Connected(id), script, c, id);
    DroppedIff(Connected(id), script, c, Some(order));
  }

  lemma {:induction false} NothingYet(id: string)
    ensures AccountOf(Connected(id)) == multiset{} && Acquaintance.Told(Connected(id), id)
    ensures Inv(Connected(id).progress)
  {
  }
}
