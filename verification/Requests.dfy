/** The requests of a whole connection: one static plan after the other (client/peer.go:97-140, 283-314). */
module Requests {
  import opened Types
  import opened BigEndian
  import opened Codec
  import opened PeerProtocol
  import opened Assembly
  import opened PeerLoop
  import Discipline

  /** The REQUESTs that were written, in order. A write that failed asked for nothing. */
  function Asked(log: seq<Action>): seq<PeerMessage> {
    if log == [] then []
    else
      var last := log[|log| - 1];
      Asked(log[..|log| - 1]) + (if Discipline.IsSent(last, REQUEST) then [last.msg] else [])
  }

  function AsMessage(r: Request): PeerMessage {
    RequestMessage(r.index, r.start, r.length)
  }

  /** The first `k` requests of an order's plan, as messages. */
  function PlanMessages(o: PieceOrder, k: nat): (msgs: seq<PeerMessage>)
    requires k <= NumChunks(o.length)
    ensures |msgs| == k
  {
    seq(k, i requires 0 <= i < k => AsMessage(Planned(o, i)))
  }

  function WholePlan(o: PieceOrder): seq<PeerMessage> {
    PlanMessages(o, NumChunks(o.length))
  }

  function WholePlans(done: seq<PieceOrder>): seq<PeerMessage> {
    if done == [] then [] else WholePlans(done[..|done| - 1]) + WholePlan(done[|done| - 1])
  }

  function CurrentPlan(p: Progress): seq<PeerMessage> {
    if p.order.None? then []
    else
      var o := p.order.value;
      PlanMessages(o, Min(p.nextToRequest / CHUNK_SIZE, NumChunks(o.length)))
  }

  /** What was asked for: every chunk of each order in `done`, and then the beginning of the plan of the order held. */
  ghost predicate FollowsPlans(l: Loop, done: seq<PieceOrder>) {
    Asked(l.log) == WholePlans(done) + CurrentPlan(l.progress)
  }

  // ---------- Every step ----------

  lemma {:induction false} AskedAppend(log: seq<Action>, a: Action)
    ensures Asked(log + [a]) == Asked(log) + (if Discipline.IsSent(a, REQUEST) then [a.msg] else [])
  {
    assert (log + [a])[..|log|] == log;
  }

  /** A step that asks for nothing and keeps the plan. */
  lemma {:induction false} OtherWriteFollows(l: Loop, msg: PeerMessage, net: Network, next: Loop, done: seq<PieceOrder>)
    requires FollowsPlans(l, done) && msg.code != REQUEST
    requires next.log == Send(l, msg, net).log && next.progress == l.progress
    ensures FollowsPlans(next, done)
  {
    AskedAppend(l.log, if net(l.log) then Sent(msg) else SendFailed(msg));
    assert Asked(l.log) + [] == Asked(l.log);
  }

  lemma {:induction false} NextOfPlan(p: Progress)
    requires Inv(p) && CanRequest(p)
    ensures CurrentPlan(Issue(p)) == CurrentPlan(p) + [NextRequestMessage(p)]
  {
    var o, k := p.order.value, p.nextToRequest / CHUNK_SIZE;
    IssueFollowsPlan(p);
    assert PlanMessages(o, k + 1) == PlanMessages(o, k) + [NextRequestMessage(p)];
  }

  lemma {:induction false} RequestFollows(l: Loop, net: Network, done: seq<PieceOrder>)
    requires FollowsPlans(l, done) && Inv(l.progress) && CanRequest(l.progress) && net(l.log)
    ensures FollowsPlans(SendRequest(l, net), done)
  {
    NextOfPlan(l.progress);
    AskedAppend(l.log, Sent(NextRequestMessage(l.progress)));
    Assoc(WholePlans(done), CurrentPlan(l.progress), [NextRequestMessage(l.progress)]);
  }

  lemma {:induction false} FailedRequestFollows(l: Loop, net: Network, done: seq<PieceOrder>)
    requires FollowsPlans(l, done) && CanRequest(l.progress) && !net(l.log)
    ensures FollowsPlans(Send(l, NextRequestMessage(l.progress), net), done)
  {
    AskedAppend(l.log, SendFailed(NextRequestMessage(l.progress)));
    assert Asked(l.log) + [] == Asked(l.log);
  }

  /** A number of requests, with the two cases of `RequestUpTo` apart from the plans. */
  lemma {:induction false} RequestUpToCases(l: Loop, n: nat, net: Network)
    ensures RequestUpTo(l, n, net) ==
      if n == 0 || !CanRequest(l.progress) then l
      else if net(l.log) then RequestUpTo(SendRequest(l, net), n - 1, net)
      else Send(l, NextRequestMessage(l.progress), net)
  {
  }

  lemma {:induction false} OneRequest(l: Loop, net: Network, done: seq<PieceOrder>)
    requires FollowsPlans(l, done) && Inv(l.progress) && CanRequest(l.progress) && net(l.log)
    requires |l.progress.requests| < PIPELINE_LENGTH
    ensures FollowsPlans(SendRequest(l, net), done) && Inv(SendRequest(l, net).progress)
    ensures |SendRequest(l, net).progress.requests| == |l.progress.requests| + 1
  {
    RequestFollows(l, net, done);
    RequestKeepsInv(l, net);
  }

  lemma {:induction false} RequestsFollow(l: Loop, n: nat, net: Network, done: seq<PieceOrder>)
    requires FollowsPlans(l, done) && Inv(l.progress) && n + |l.progress.requests| <= PIPELINE_LENGTH
    ensures FollowsPlans(RequestUpTo(l, n, net), done)
    decreases n
  {
    RequestUpToCases(l, n, net);
    if n > 0 && CanRequest(l.progress) {
      if net(l.log) {
        OneRequest(l, net, done);
        RequestsFollow(SendRequest(l, net), n - 1, net, done);
      } else {
        FailedRequestFollows(l, net, done);
      }
    }
  }

  lemma {:induction false} InterestedFollows(l: Loop, net: Network, done: seq<PieceOrder>)
    requires FollowsPlans(l, done)
    ensures FollowsPlans(SendInterested(l, net), done)
  {
    if SendInterested(l, net) != l {
      OtherWriteFollows(l, Message(INTERESTED, []), net, SendInterested(l, net), done);
    }
  }

  lemma {:induction false} RequestingFills(l: Loop, n: nat, net: Network)
    requires Inv(l.progress) && l.progress.order.Some? && n + |l.progress.requests| <= PIPELINE_LENGTH
    ensures var next := RequestUpTo(l, n, net);
      || |next.progress.requests| == |l.progress.requests| + n
      || next.progress.nextToRequest >= l.progress.order.value.length
      || (|l.log| < |next.log| && next.log[|next.log| - 1].SendFailed?)
    decreases n
  {
    if n > 0 && CanRequest(l.progress) && net(l.log) {
      RequestKeepsInv(l, net);
      RequestingFills(SendRequest(l, net), n - 1, net);
    }
  }

  /** While unchoked, asking stops only with five requests outstanding, with all of the piece asked for, or at a write
      that failed. */
  lemma {:induction false} PipelineIsFull(l: Loop, net: Network)
    requires Inv(l.progress) && l.progress.order.Some? && !l.peer.chokedBy
    ensures var next := FillRequests(l, net);
      || |next.progress.requests| == 5
      || next.progress.nextToRequest >= l.progress.order.value.length
      || (|l.log| < |next.log| && next.log[|next.log| - 1].SendFailed?)
  {
    if |l.progress.requests| < PIPELINE_LENGTH {
      RequestingFills(l, PIPELINE_LENGTH - |l.progress.requests|, net);
    }
  }

  lemma {:induction false} FillFollows(l: Loop, net: Network, done: seq<PieceOrder>)
    requires FollowsPlans(l, done) && Inv(l.progress)
    ensures FollowsPlans(FillRequests(l, net), done)
  {
    FillCases(l, net);
    if FillRequests(l, net) != l {
      RequestsFollow(l, PIPELINE_LENGTH - |l.progress.requests|, net, done);
    }
  }

  lemma {:induction false} AskFollows(l: Loop, net: Network, done: seq<PieceOrder>)
    requires FollowsPlans(l, done) && Inv(l.progress)
    ensures FollowsPlans(Ask(l, net), done)
  {
    InterestedFollows(l, net, done);
    assert SendInterested(l, net).progress == l.progress;
    FillFollows(SendInterested(l, net), net, done);
  }

  lemma {:induction false} UploadFollows(l: Loop, pieces: seq<Option<Piece>>, net: Network, done: seq<PieceOrder>)
    requires FollowsPlans(l, done) && UploadChunk(l, pieces, net).Ok?
    ensures FollowsPlans(UploadChunk(l, pieces, net).value, done)
  {
    var chunk := ChunkToSend(l, pieces).value;
    if chunk.Some? {
      OtherWriteFollows(l, chunk.value, net, SendChunk(l, chunk.value, net), done);
    }
  }

  /** A complete piece was asked for in full. */
  lemma {:induction false} ResetFollows(l: Loop, next: Loop, done: seq<PieceOrder>)
    requires FollowsPlans(l, done) && Inv(l.progress)
    requires l.progress.order.Some? && l.progress.numDone == l.progress.order.value.length
    requires next.log == l.log && next.progress == NO_PROGRESS
    ensures FollowsPlans(next, done + [l.progress.order.value])
  {
    var o := l.progress.order.value;
    CompleteBuffer(l.progress, 0);
    assert (done + [o])[..|done|] == done;
    assert WholePlans(done + [o]) + [] == WholePlans(done) + WholePlan(o);
  }

  /** The order that is completed here, whether its piece was good or its order went back. */
  function Completed(l: Loop, sha1: HashFunction, net: Network): seq<PieceOrder> {
    var completes := l.progress.order.Some? && CompletePiece(l, sha1, net).progress == NO_PROGRESS;
    if completes then [l.progress.order.value] else []
  }

  lemma {:induction false} CompleteFollows(l: Loop, sha1: HashFunction, net: Network, done: seq<PieceOrder>)
    requires FollowsPlans(l, done) && Inv(l.progress)
    ensures FollowsPlans(CompletePiece(l, sha1, net), done + Completed(l, sha1, net))
  {
    var p := l.progress;
    var next := CompletePiece(l, sha1, net);
    assert done + [] == done;
    if p.order.Some? && p.numDone == p.order.value.length {
      var l1 := l;
      if sha1(p.buf) == p.order.value.hash {
        var have := Message(HAVE, PutUint32(p.order.value.index));
        l1 := Send(l, have, net);
        OtherWriteFollows(l, have, net, l1, done);
      }
      if next.progress == NO_PROGRESS {
        ResetFollows(l1, next, done);
      }
    }
  }

  lemma {:induction false} BeginFollows(l: Loop, next: Loop, order: PieceOrder, done: seq<PieceOrder>)
    requires FollowsPlans(l, done) && l.progress == NO_PROGRESS
    requires next.log == l.log && next.progress == Begin(NO_PROGRESS, order)
    ensures FollowsPlans(next, done)
  {
    assert PlanMessages(order, 0) == [];
  }

  lemma {:induction false} GetPieceCases(l: Loop, numPieces: nat, offer: Option<PieceOrder>)
    requires GetPiece(l, numPieces, offer).Ok?
    ensures var next := GetPiece(l, numPieces, offer).value;
      && next.log == l.log
      && (next.progress == l.progress
          || (l.progress.order.None? && offer.Some? && next.progress == Begin(l.progress, offer.value)))
  {
  }

  lemma {:induction false} GetPieceFollows(l: Loop, numPieces: nat, offer: Option<PieceOrder>, done: seq<PieceOrder>)
    requires FollowsPlans(l, done) && Inv(l.progress) && GetPiece(l, numPieces, offer).Ok?
    ensures FollowsPlans(GetPiece(l, numPieces, offer).value, done)
  {
    GetPieceCases(l, numPieces, offer);
    var next := GetPiece(l, numPieces, offer).value;
    if next.progress != l.progress {
      BeginFollows(l, next, offer.value, done);
    }
  }

  function CompletedIn(l: Loop, s: Surroundings, c: Config): seq<PieceOrder> {
    match UploadChunk(l, s.pieces, c.net)
    case Ok(l1) => Completed(l1, c.sha1, c.net)
    case _ => []
  }

  lemma {:induction false} RefreshFollows(l: Loop, s: Surroundings, c: Config, done: seq<PieceOrder>)
    requires FollowsPlans(l, done) && Inv(l.progress) && Refresh(l, s, c).Ok?
    ensures FollowsPlans(Refresh(l, s, c).value, done + CompletedIn(l, s, c))
  {
    UploadFollows(l, s.pieces, c.net, done);
    var l1 := UploadChunk(l, s.pieces, c.net).value;
    CompleteFollows(l1, c.sha1, c.net, done);
    CompleteKeepsInv(l1, c.sha1, c.net);
    GetPieceFollows(CompletePiece(l1, c.sha1, c.net), c.numPieces, s.offer, done + CompletedIn(l, s, c));
  }

  lemma {:induction false} AcceptKeepsPlan(p: Progress, index: nat, begin: nat, data: seq<byte>)
    requires Accept(p, index, begin, data).Ok?
    ensures var q := Accept(p, index, begin, data).value;
      q.order == p.order && q.nextToRequest == p.nextToRequest
  {
  }

  lemma {:induction false} MessageKeepsPlan(l: Loop, msg: PeerMessage, numPieces: nat)
    requires HandleMessage(l, msg, numPieces).Ok?
    ensures var next := HandleMessage(l, msg, numPieces).value;
      && next.log == l.log + [Got(msg)]
      && next.progress.order == l.progress.order && next.progress.nextToRequest == l.progress.nextToRequest
  {
    if msg.code == PIECE {
      var (index, begin, block) := DeserializePieceMsg(msg).value;
      AcceptKeepsPlan(l.progress, index, begin, block);
    }
  }

  lemma {:induction false} MessageFollows(l: Loop, msg: PeerMessage, numPieces: nat, done: seq<PieceOrder>)
    requires FollowsPlans(l, done) && HandleMessage(l, msg, numPieces).Ok?
    ensures FollowsPlans(HandleMessage(l, msg, numPieces).value, done)
  {
    MessageKeepsPlan(l, msg, numPieces);
    AskedAppend(l.log, Got(msg));
    assert Asked(l.log) + [] == Asked(l.log);
  }

  lemma {:induction false} EventFollows(l: Loop, event: Event, c: Config, done: seq<PieceOrder>)
    requires FollowsPlans(l, done) && HandleEvent(l, event, c).Ok?
    ensures FollowsPlans(HandleEvent(l, event, c).value, done)
  {
    match event
    case Incoming(msg) => if !msg.keepAlive { MessageFollows(l, msg, c.numPieces, done); }
    case UnchokeTick(ids) =>
      var choke := l.peer.id !in ids;
      if choke != l.peer.choking {
        OtherWriteFollows(l, Message(if choke then CHOKE else UNCHOKE, []), c.net, SetChoking(l, choke, c.net), done);
      }
  }

  // ---------- Whole runs ----------

  /** The orders that a connection completes over a run. */
  function CompletedBy(l: Loop, script: seq<Surroundings>, c: Config): seq<PieceOrder>
    decreases script
  {
    if script == [] || !Iterate(l, script[0], c).Ok? then []
    else CompletedIn(l, script[0], c) + CompletedBy(Iterate(l, script[0], c).value, script[1..], c)
  }

  lemma {:induction false} IterationFollows(l: Loop, s: Surroundings, c: Config, done: seq<PieceOrder>)
    requires FollowsPlans(l, done) && Inv(l.progress) && Iterate(l, s, c).Ok?
    ensures FollowsPlans(Iterate(l, s, c).value, done + CompletedIn(l, s, c))
  {
    RefreshFollows(l, s, c, done);
    RefreshKeepsInv(l, s, c);
    AskFollows(Refresh(l, s, c).value, c.net, done + CompletedIn(l, s, c));
    EventFollows(Prepare(l, s, c).value, s.event, c, done + CompletedIn(l, s, c));
  }

  lemma {:induction false} RunFollowsPlans(l: Loop, script: seq<Surroundings>, c: Config, done: seq<PieceOrder>)
    requires FollowsPlans(l, done) && Inv(l.progress) && RunLoop(l, script, c).Ok?
    ensures FollowsPlans(RunLoop(l, script, c).value, done + CompletedBy(l, script, c))
    decreases script
  {
    if script == [] {
      assert done + [] == done;
    } else {
      var next := Iterate(l, script[0], c).value;
      IterationFollows(l, script[0], c, done);
      RunKeepsProgressInv(l, script[..1], c);
      assert RunLoop(l, script[..1], c) == Ok(next);
      RunFollowsPlans(next, script[1..], c, done + CompletedIn(l, script[0], c));
      Assoc(done, CompletedIn(l, script[0], c), CompletedBy(next, script[1..], c));
    }
  }

  /** Over any run of a connection, whichever writes fail: the REQUESTs written are the whole plans of the orders that
      it completed, one after the other, and then the beginning of the plan of the order it holds. */
  lemma {:induction false} ConnectionFollowsPlans(id: string, script: seq<Surroundings>, c: Config)
    requires RunLoop(Connected(id), script, c).Ok?
    ensures var l := RunLoop(Connected(id), script, c).value;
      && Asked(l.log) == WholePlans(CompletedBy(Connected(id), script, c)) + CurrentPlan(l.progress)
      && |l.progress.requests| <= 5
  {
    var done := CompletedBy(Connected(id), script, c);
    RunFollowsPlans(Connected(id), script, c, []);
    RunKeepsProgressInv(Connected(id), script, c);
    assert [] + done == done;
  }
}
