/** From every state of the two real loops, an order that is held can be completed: a bitflood client keeps the requests
    it was sent over a choke (client/peer.go:101-110, 357-363), so it is enough to let it choke, unchoke and serve. */
module Completion {
  import opened Types
  import opened PeerProtocol
  import opened Assembly
  import opened PeerLoop
  import opened Discipline
  import opened Transfer
  import opened Turns
  import Requests

  // ---------- Runs of turns ----------

  lemma {:induction false} TurnsConcat(s: Pair, first: seq<Half>, second: seq<Half>, next: Pair, t: Torrent)
    requires RunTurns(s, first, t) == Ok(next)
    ensures RunTurns(s, first + second, t) == RunTurns(next, second, t)
    decreases first
  {
    if first == [] {
      assert [] + second == second;
    } else {
      assert (first + second)[0] == first[0] && (first + second)[1..] == first[1..] + second;
      TurnsConcat(TakeTurn(s, first[0], t).value, first[1..], second, next, t);
    }
  }

  /** `r` can be reached from `s` by these turns, and is as good. */
  ghost predicate Reaches(s: Pair, halves: seq<Half>, r: Pair, t: Torrent) {
    AllTurnsValid(halves, t) && RunTurns(s, halves, t) == Ok(r) && Joined(r, t)
  }

  lemma {:induction false} ReachesThen(s: Pair, first: seq<Half>, mid: Pair, second: seq<Half>, r: Pair, t: Torrent)
    requires Reaches(s, first, mid, t) && Reaches(mid, second, r, t)
    ensures Reaches(s, first + second, r, t)
  {
    TurnsConcat(s, first, second, mid, t);
  }

  lemma {:induction false} OneTurn(s: Pair, half: Half, t: Torrent)
    requires Joined(s, t) && Addressable(t) && ValidTurn(half.turn, t)
    ensures TakeTurn(s, half, t).Ok? && Reaches(s, [half], TakeTurn(s, half, t).value, t)
  {
    var moves := TurnsAreARun(s, [half], t);
    RunKeepsJoined(s, moves, t);
    assert [half][1..] == [];
  }

  function FlipHalf(h: Half): Half {
    match h
    case OfA(turn) => OfB(turn)
    case OfB(turn) => OfA(turn)
  }

  function FlipHalves(halves: seq<Half>): (r: seq<Half>)
    ensures |r| == |halves|
    ensures forall i :: 0 <= i < |halves| ==> r[i] == FlipHalf(halves[i])
  {
    seq(|halves|, i requires 0 <= i < |halves| => FlipHalf(halves[i]))
  }

  lemma {:induction false} FlippedTurns(s: Pair, halves: seq<Half>, t: Torrent)
    ensures RunTurns(Swap(s), FlipHalves(halves), t) == SwapOutcome(RunTurns(s, halves, t))
    decreases halves
  {
    if halves != [] {
      assert FlipHalves(halves)[1..] == FlipHalves(halves[1..]);
      if TakeTurn(s, halves[0], t).Ok? {
        FlippedTurns(TakeTurn(s, halves[0], t).value, halves[1..], t);
      }
    }
  }

  /** The same seen from the other side. */
  lemma {:induction false} ReachesFlipped(s: Pair, halves: seq<Half>, r: Pair, t: Torrent)
    requires Reaches(s, halves, r, t)
    ensures Reaches(Swap(s), FlipHalves(halves), Swap(r), t)
  {
    FlippedTurns(s, halves, t);
    forall h | h in FlipHalves(halves)
      ensures ValidTurn(h.turn, t)
    {
      var i :| 0 <= i < |halves| && FlipHalves(halves)[i] == h;
      assert halves[i] in halves;
    }
  }

  // ---------- Hearing all that is under way ----------

  /** The flags after hearing these messages. */
  function FlagsHearing(p: Peer, msgs: seq<PeerMessage>): Peer
    decreases msgs
  {
    if msgs == [] then p
    else FlagsHearing(if msgs[0].keepAlive then p else FlagsAfter(p, Got(msgs[0])), msgs[1..])
  }

  lemma {:induction false} FlagsOfSame(p: Peer, q: Peer, msgs: seq<PeerMessage>)
    requires SameFlags(p, q)
    ensures SameFlags(FlagsHearing(p, msgs), FlagsHearing(q, msgs))
    decreases msgs
  {
    if msgs != [] && !msgs[0].keepAlive {
      FlagsOfSame(FlagsAfter(p, Got(msgs[0])), FlagsAfter(q, Got(msgs[0])), msgs[1..]);
    } else if msgs != [] {
      FlagsOfSame(p, q, msgs[1..]);
    }
  }

  /** The order and what has been asked for are the same. */
  predicate SameOrder(l: Loop, next: Loop) {
    next.progress.order == l.progress.order && next.progress.nextToRequest == l.progress.nextToRequest
  }

  lemma {:induction false} HandlingKeepsFlags(l: Loop, msg: PeerMessage, numPieces: nat)
    requires HandleMessage(l, msg, numPieces).Ok?
    ensures var next := HandleMessage(l, msg, numPieces).value;
      SameFlags(FlagsAfter(l.peer, Got(msg)), next.peer) && next.peer.id == l.peer.id && SameOrder(l, next)
  {
    Requests.MessageKeepsPlan(l, msg, numPieces);
  }

  /** A has heard some of what was under way to it, and did nothing else. */
  ghost predicate HasHeard(s: Pair, r: Pair, msgs: seq<PeerMessage>) {
    && r.b == s.b && r.ab == s.ab && r.a.pieces == s.a.pieces
    && SameOrder(s.a.loop, r.a.loop) && r.a.loop.peer.id == s.a.loop.peer.id
    && SameFlags(FlagsHearing(s.a.loop.peer, msgs), r.a.loop.peer)
  }

  lemma {:induction false} HearFront(s: Pair, t: Torrent)
    requires Joined(s, t) && Under(s.ba) != [] && TurnOfA(s, Hear, t).Ok?
    ensures HasHeard(s, TurnOfA(s, Hear, t).value, [Under(s.ba)[0]])
    ensures Under(TurnOfA(s, Hear, t).value.ba) == Under(s.ba)[1..]
  {
    ReadDequeues(s.ba);
    HearIsAMove(s, t);
    var msg := Under(s.ba)[0];
    assert [msg][1..] == [];
    if !msg.keepAlive {
      HandlingKeepsFlags(s.a.loop, msg, t.NumPieces());
    }
  }

  lemma {:induction false} HearOne(s: Pair, t: Torrent) returns (r: Pair)
    requires Joined(s, t) && Addressable(t) && Under(s.ba) != []
    ensures Reaches(s, [OfA(Hear)], r, t)
    ensures HasHeard(s, r, [Under(s.ba)[0]]) && Under(r.ba) == Under(s.ba)[1..]
  {
    OneTurn(s, OfA(Hear), t);
    r := TakeTurn(s, OfA(Hear), t).value;
    HearFront(s, t);
  }

  lemma {:induction false} HeardThen(s: Pair, mid: Pair, r: Pair, first: PeerMessage, msgs: seq<PeerMessage>)
    requires HasHeard(s, mid, [first]) && HasHeard(mid, r, msgs)
    ensures HasHeard(s, r, [first] + msgs)
  {
    var p := s.a.loop.peer;
    assert ([first] + msgs)[1..] == msgs && [first][1..] == [];
    assert FlagsHearing(p, [first] + msgs) == FlagsHearing(FlagsHearing(p, [first]), msgs);
    FlagsOfSame(FlagsHearing(p, [first]), mid.a.loop.peer, msgs);
  }

  lemma {:induction false} HearAll(s: Pair, t: Torrent) returns (halves: seq<Half>, r: Pair)
    requires Joined(s, t) && Addressable(t)
    ensures Reaches(s, halves, r, t) && HasHeard(s, r, Under(s.ba)) && Under(r.ba) == []
    decreases |Under(s.ba)|
  {
    var msgs := Under(s.ba);
    if msgs == [] {
      halves, r := [], s;
    } else {
      var mid := HearOne(s, t);
      var later;
      later, r := HearAll(mid, t);
      ReachesThen(s, [OfA(Hear)], mid, later, r, t);
      HeardThen(s, mid, r, msgs[0], msgs[1..]);
      assert [msgs[0]] + msgs[1..] == msgs;
      halves := [OfA(Hear)] + later;
    }
  }

  /** B has heard all that was under way to it. */
  ghost predicate OtherHasHeard(s: Pair, r: Pair) {
    && r.a == s.a && r.ba == s.ba && Under(r.ab) == []
    && SameFlags(FlagsHearing(s.b.loop.peer, Under(s.ab)), r.b.loop.peer)
  }

  lemma {:induction false} OtherHearsAll(s: Pair, t: Torrent) returns (halves: seq<Half>, r: Pair)
    requires Joined(s, t) && Addressable(t)
    ensures Reaches(s, halves, r, t) && OtherHasHeard(s, r)
  {
    var flipped, heard := HearAll(Swap(s), t);
    ReachesFlipped(Swap(s), flipped, heard, t);
    halves, r := FlipHalves(flipped), Swap(heard);
  }

  // ---------- What a loop body writes and changes ----------

  /** Messages that the body writes: they change no choke, and withdraw no interest. */
  predicate IsBodyMessage(m: PeerMessage) {
    !m.keepAlive && (m.code == PIECE || m.code == HAVE || m.code == INTERESTED || m.code == REQUEST) && Framable(m)
  }

  ghost predicate AllBody(msgs: seq<PeerMessage>) {
    forall m :: m in msgs ==> IsBodyMessage(m)
  }

  /** What a part or the whole of the body leaves as it is. */
  ghost predicate IsBodyStep(l: Loop, next: Loop) {
    && l.log <= next.log && AllBody(Written(l.log, next.log))
    && next.peer.id == l.peer.id && next.peer.chokedBy == l.peer.chokedBy && next.peer.choking == l.peer.choking
    && next.peer.interested == l.peer.interested
  }

  lemma {:induction false} BodyStepsChain(l: Loop, mid: Loop, next: Loop)
    requires IsBodyStep(l, mid) && IsBodyStep(mid, next)
    ensures IsBodyStep(l, next)
  {
    WrittenConcat(l.log, mid.log, next.log);
  }

  lemma {:induction false} OneWritten(l: Loop, m: PeerMessage, next: Loop)
    requires next.log == l.log + [Sent(m)] && IsBodyMessage(m)
    requires next.peer.id == l.peer.id && next.peer.chokedBy == l.peer.chokedBy && next.peer.choking == l.peer.choking
    requires next.peer.interested == l.peer.interested
    ensures IsBodyStep(l, next)
  {
    WrittenOne(l.log, m);
  }

  lemma {:induction false} UploadStep(l: Loop, pieces: seq<Option<Piece>>, next: Loop)
    requires UploadChunk(l, pieces, Reliable()) == Ok(next)
    ensures IsBodyStep(l, next) && next.progress == l.progress && next.peer == l.peer
  {
    match ChunkToSend(l, pieces)
    case Ok(Some(m)) =>
      SerializeSucceedsIff(m);
      OneWritten(l, m, next);
    case _ => WrittenNone(l.log);
  }

  lemma {:induction false} CompleteStep(l: Loop, t: Torrent, next: Loop)
    requires CompletePiece(l, t.sha1, Reliable()) == next
    ensures IsBodyStep(l, next) && next.requested == l.requested
  {
    WrittenNone(l.log);
    if next.log != l.log {
      OneWritten(l, Message(HAVE, PutHave(l)), next);
    }
  }

  function PutHave(l: Loop): seq<byte> {
    if l.progress.order.Some? then BigEndian.PutUint32(l.progress.order.value.index) else []
  }

  lemma {:induction false} RequestingStep(l: Loop, n: nat)
    ensures var next := RequestUpTo(l, n, Reliable());
      && IsBodyStep(l, next) && next.requested == l.requested
      && next.progress.order == l.progress.order && next.progress.nextToRequest >= l.progress.nextToRequest
      && (n > 0 && CanRequest(l.progress) ==> next.progress.nextToRequest > l.progress.nextToRequest)
    decreases n
  {
    WrittenNone(l.log);
    if n > 0 && CanRequest(l.progress) {
      var mid := SendRequest(l, Reliable());
      OneWritten(l, NextRequestMessage(l.progress), mid);
      RequestingStep(mid, n - 1);
      BodyStepsChain(l, mid, RequestUpTo(mid, n - 1, Reliable()));
    }
  }

  lemma {:induction false} FillStep(l: Loop)
    ensures var next := FillRequests(l, Reliable());
      && IsBodyStep(l, next) && next.requested == l.requested
      && next.progress.order == l.progress.order && next.progress.nextToRequest >= l.progress.nextToRequest
      && (!l.peer.chokedBy && CanRequest(l.progress) && |l.progress.requests| < PIPELINE_LENGTH ==>
            next.progress.nextToRequest > l.progress.nextToRequest)
      && (l.peer.chokedBy ==> next == l)
  {
    WrittenNone(l.log);
    FillCases(l, Reliable());
    if |l.progress.requests| < PIPELINE_LENGTH {
      RequestingStep(l, PIPELINE_LENGTH - |l.progress.requests|);
    }
  }

  lemma {:induction false} InterestedStep(l: Loop)
    ensures var next := SendInterested(l, Reliable());
      && IsBodyStep(l, next) && next.requested == l.requested && next.progress == l.progress
      && (l.progress.order.Some? && l.peer.chokedBy && !l.peer.interestedSent ==>
            Written(l.log, next.log) == [Message(INTERESTED, [])])
  {
    WrittenNone(l.log);
    if SendInterested(l, Reliable()).log != l.log {
      OneWritten(l, Message(INTERESTED, []), SendInterested(l, Reliable()));
      WrittenOne(l.log, Message(INTERESTED, []));
    }
  }

  /** An order is held and its piece is not complete. */
  predicate InProgress(l: Loop) {
    l.progress.order.Some? && l.progress.numDone != l.progress.order.value.length
  }

  /** What the body does to a loop whose piece is in progress. */
  ghost predicate BodyAsks(l: Loop, next: Loop) {
    && next.progress.order == l.progress.order && next.progress.nextToRequest >= l.progress.nextToRequest
    && (!l.peer.chokedBy && CanRequest(l.progress) && |l.progress.requests| < PIPELINE_LENGTH ==>
          next.progress.nextToRequest > l.progress.nextToRequest)
  }

  lemma {:induction false} BodyFacts(l: Loop, pieces: seq<Option<Piece>>, t: Torrent, next: Loop) returns (l1: Loop)
    requires BodyOf(l, pieces, None, t) == Ok(next)
    ensures IsBodyStep(l, next)
    ensures UploadChunk(l, pieces, Reliable()) == Ok(l1) && next.requested == l1.requested
    ensures InProgress(l) ==> BodyAsks(l, next)
  {
    l1 := UploadChunk(l, pieces, Reliable()).value;
    var l2 := CompletePiece(l1, t.sha1, Reliable());
    var l4 := SendInterested(l2, Reliable());
    UploadStep(l, pieces, l1);
    CompleteStep(l1, t, l2);
    InterestedStep(l2);
    FillStep(l4);
    BodyStepsChain(l, l1, l2);
    BodyStepsChain(l, l2, l4);
    BodyStepsChain(l, l4, next);
  }

  /** A choked loop whose piece is in progress says that it is interested, last of all. */
  lemma {:induction false} BodyTellsInterest(l: Loop, pieces: seq<Option<Piece>>, t: Torrent, next: Loop)
    returns (before: seq<PeerMessage>)
    requires BodyOf(l, pieces, None, t) == Ok(next)
    requires InProgress(l) && l.peer.chokedBy && !l.peer.interestedSent
    ensures Written(l.log, next.log) == before + [Message(INTERESTED, [])]
    ensures next.progress == l.progress
  {
    var l1 := UploadChunk(l, pieces, Reliable()).value;
    UploadStep(l, pieces, l1);
    InterestedStep(l1);
    FillStep(SendInterested(l1, Reliable()));
    before := Written(l.log, l1.log);
    WrittenConcat(l.log, l1.log, next.log);
  }

  // ---------- Turns of either side ----------

  /** A has run its loop to `l`, and what it wrote is under way. */
  ghost predicate HasRun(s: Pair, r: Pair, l: Loop) {
    && r.a.loop == l && r.a.pieces == s.a.pieces && r.b == s.b && r.ba == s.ba
    && Under(r.ab) == Under(s.ab) + Written(s.a.loop.log, l.log)
  }

  lemma {:induction false} BodyTurn(s: Pair, t: Torrent) returns (r: Pair)
    requires Joined(s, t) && Addressable(t)
    ensures BodyOf(s.a.loop, s.a.pieces, None, t).Ok?
    ensures Reaches(s, [OfA(Body(None))], r, t)
    ensures HasRun(s, r, BodyOf(s.a.loop, s.a.pieces, None, t).value)
  {
    OneTurn(s, OfA(Body(None)), t);
    r := TakeTurn(s, OfA(Body(None)), t).value;
    var l := BodyOf(s.a.loop, s.a.pieces, None, t).value;
    var _ := BodyFacts(s.a.loop, s.a.pieces, t, l);
    WriteEnqueues(s.ab, Written(s.a.loop.log, l.log));
  }

  function ChokeTurn(l: Loop, choke: bool): Turn {
    Turn.Tick(if choke then [] else [l.peer.id])
  }

  function ChokeMessages(l: Loop, choke: bool): seq<PeerMessage> {
    if choke == l.peer.choking then [] else [Message(if choke then CHOKE else UNCHOKE, [])]
  }

  lemma {:induction false} TickTurn(s: Pair, choke: bool, t: Torrent) returns (r: Pair)
    requires Joined(s, t) && Addressable(t)
    ensures Reaches(s, [OfA(ChokeTurn(s.a.loop, choke))], r, t)
    ensures var l := SetChoking(s.a.loop, choke, Reliable());
      HasRun(s, r, l) && Written(s.a.loop.log, l.log) == ChokeMessages(s.a.loop, choke) && l.peer.choking == choke
  {
    var turn := OfA(ChokeTurn(s.a.loop, choke));
    OneTurn(s, turn, t);
    r := TakeTurn(s, turn, t).value;
    var l := SetChoking(s.a.loop, choke, Reliable());
    if choke == s.a.loop.peer.choking {
      WrittenNone(l.log);
    } else {
      WrittenOne(s.a.loop.log, Message(if choke then CHOKE else UNCHOKE, []));
    }
    WriteEnqueues(s.ab, Written(s.a.loop.log, l.log));
  }

  /** B chokes or unchokes A. */
  lemma {:induction false} OtherTicks(s: Pair, choke: bool, t: Torrent) returns (half: Half, r: Pair)
    requires Joined(s, t) && Addressable(t)
    ensures Reaches(s, [half], r, t) && r.a == s.a && r.ab == s.ab
    ensures Under(r.ba) == Under(s.ba) + ChokeMessages(s.b.loop, choke) && r.b.loop.peer.choking == choke
    ensures r.b.loop.peer.interested == s.b.loop.peer.interested
  {
    var ticked := TickTurn(Swap(s), choke, t);
    var turn := OfA(ChokeTurn(s.b.loop, choke));
    ReachesFlipped(Swap(s), [turn], ticked, t);
    half, r := FlipHalf(turn), Swap(ticked);
    assert FlipHalves([turn]) == [half];
  }

  // ---------- What the flags are after hearing ----------

  lemma {:induction false} FlagsOfConcat(p: Peer, a: seq<PeerMessage>, b: seq<PeerMessage>)
    ensures FlagsHearing(p, a + b) == FlagsHearing(FlagsHearing(p, a), b)
    decreases a
  {
    if a == [] {
      assert a + b == b;
    } else {
      assert (a + b)[0] == a[0] && (a + b)[1..] == a[1..] + b;
      FlagsOfConcat(if a[0].keepAlive then p else FlagsAfter(p, Got(a[0])), a[1..], b);
    }
  }

  lemma {:induction false} HearingKeepsChoking(p: Peer, msgs: seq<PeerMessage>)
    ensures FlagsHearing(p, msgs).choking == p.choking
    decreases msgs
  {
    if msgs != [] {
      HearingKeepsChoking(if msgs[0].keepAlive then p else FlagsAfter(p, Got(msgs[0])), msgs[1..]);
    }
  }

  lemma {:induction false} HearingBodyMessages(p: Peer, msgs: seq<PeerMessage>)
    requires AllBody(msgs)
    ensures var q := FlagsHearing(p, msgs);
      q.chokedBy == p.chokedBy && (p.interested ==> q.interested)
    decreases msgs
  {
    if msgs != [] {
      assert msgs[0] in msgs;
      HearingBodyMessages(FlagsAfter(p, Got(msgs[0])), msgs[1..]);
    }
  }

  lemma {:induction false} HearingLast(p: Peer, msgs: seq<PeerMessage>, last: PeerMessage)
    requires !last.keepAlive
    ensures FlagsHearing(p, msgs + [last]) == FlagsAfter(FlagsHearing(p, msgs), Got(last))
  {
    FlagsOfConcat(p, msgs, [last]);
    assert [last][1..] == [];
  }

  // ---------- Making the other side serve ----------

  /** B unchokes and then chokes A: the last message under way to A is a CHOKE. */
  lemma {:induction false} SendChoke(s: Pair, t: Torrent) returns (halves: seq<Half>, r: Pair, before: seq<PeerMessage>)
    requires Joined(s, t) && Addressable(t)
    ensures Reaches(s, halves, r, t) && r.a == s.a
    ensures Under(r.ba) == before + [Message(CHOKE, [])] && r.b.loop.peer.choking
  {
    var first, mid := OtherTicks(s, false, t);
    var second;
    second, r := OtherTicks(mid, true, t);
    before := Under(mid.ba);
    halves := [first] + [second];
    ReachesThen(s, [first], mid, [second], r, t);
  }

  /** B tells A that it is choked, after which A may say again that it is interested. */
  lemma {:induction false} MakeChoked(s: Pair, t: Torrent) returns (halves: seq<Half>, r: Pair)
    requires Joined(s, t) && Addressable(t)
    ensures Reaches(s, halves, r, t) && SameOrder(s.a.loop, r.a.loop) && Under(r.ba) == []
    ensures r.a.loop.peer.chokedBy && !r.a.loop.peer.interestedSent && r.b.loop.peer.choking
  {
    var first, mid, before := SendChoke(s, t);
    var later;
    later, r := HearAll(mid, t);
    HearingLast(mid.a.loop.peer, before, Message(CHOKE, []));
    halves := first + later;
    ReachesThen(s, first, mid, later, r, t);
  }

  /** A, choked, says that it is interested, last of all that is under way. */
  lemma {:induction false} TellInterest(s: Pair, t: Torrent) returns (r: Pair, before: seq<PeerMessage>)
    requires Joined(s, t) && Addressable(t) && InProgress(s.a.loop)
    requires s.a.loop.peer.chokedBy && !s.a.loop.peer.interestedSent
    ensures Reaches(s, [OfA(Body(None))], r, t) && r.a.loop.progress == s.a.loop.progress
    ensures r.b == s.b && r.ba == s.ba && Under(r.ab) == before + [Message(INTERESTED, [])]
  {
    r := BodyTurn(s, t);
    var told := BodyTellsInterest(s.a.loop, s.a.pieces, t, r.a.loop);
    before := Under(s.ab) + told;
    Codec.Assoc(Under(s.ab), told, [Message(INTERESTED, [])]);
  }

  lemma {:induction false} InterestHeard(s: Pair, r: Pair, before: seq<PeerMessage>)
    requires OtherHasHeard(s, r) && Under(s.ab) == before + [Message(INTERESTED, [])]
    ensures r.b.loop.peer.interested && r.b.loop.peer.choking == s.b.loop.peer.choking
  {
    HearingLast(s.b.loop.peer, before, Message(INTERESTED, []));
    HearingKeepsChoking(s.b.loop.peer, Under(s.ab));
  }

  /** B hears it. */
  lemma {:induction false} MakeInterested(s: Pair, t: Torrent) returns (halves: seq<Half>, r: Pair)
    requires Joined(s, t) && Addressable(t) && InProgress(s.a.loop)
    requires s.a.loop.peer.chokedBy && !s.a.loop.peer.interestedSent && s.b.loop.peer.choking && Under(s.ba) == []
    ensures Reaches(s, halves, r, t) && r.a.loop.progress == s.a.loop.progress && Under(r.ab) == Under(r.ba) == []
    ensures r.b.loop.peer.choking && r.b.loop.peer.interested
  {
    var mid, before := TellInterest(s, t);
    var later;
    later, r := OtherHearsAll(mid, t);
    InterestHeard(mid, r, before);
    halves := [OfA(Body(None))] + later;
    ReachesThen(s, [OfA(Body(None))], mid, later, r, t);
  }

  /** B serves A, and nothing is under way. */
  ghost predicate Serving(s: Pair) {
    && !s.a.loop.peer.chokedBy && !s.b.loop.peer.choking && s.b.loop.peer.interested
    && Under(s.ab) == [] && Under(s.ba) == []
  }

  lemma {:induction false} MakeServing(s: Pair, t: Torrent) returns (halves: seq<Half>, r: Pair)
    requires Joined(s, t) && Addressable(t)
    requires s.b.loop.peer.choking && s.b.loop.peer.interested && Under(s.ab) == [] && Under(s.ba) == []
    ensures Reaches(s, halves, r, t) && Serving(r) && SameOrder(s.a.loop, r.a.loop)
  {
    var first, mid := OtherTicks(s, false, t);
    assert Under(mid.ba) == [] + [Message(UNCHOKE, [])];
    var later;
    later, r := HearAll(mid, t);
    HearingLast(mid.a.loop.peer, [], Message(UNCHOKE, []));
    halves := [first] + later;
    ReachesThen(s, [first], mid, later, r, t);
  }

  // ---------- Asking and serving, round by round ----------

  lemma {:induction false} BodyServes(s: Pair, next: Loop, t: Torrent)
    requires Joined(s, t) && Addressable(t) && BodyOf(s.a.loop, s.a.pieces, None, t) == Ok(next)
    requires !s.a.loop.peer.choking && s.a.loop.peer.interested && s.a.loop.requested != []
    ensures |next.requested| < |s.a.loop.requested|
  {
    UploadKeepsLeeching(s.b.loop, Under(s.ba), s.a, Under(s.ab), t);
    var _ := BodyFacts(s.a.loop, s.a.pieces, t, next);
  }

  /** A serves until nobody waits. */
  ghost predicate HasServed(s: Pair, r: Pair, msgs: seq<PeerMessage>) {
    && r.b == s.b && r.ba == s.ba && Under(r.ab) == Under(s.ab) + msgs && AllBody(msgs)
    && r.a.loop.peer.choking == s.a.loop.peer.choking && r.a.loop.peer.interested == s.a.loop.peer.interested
  }

  lemma {:induction false} ServeAll(s: Pair, t: Torrent) returns (halves: seq<Half>, r: Pair, msgs: seq<PeerMessage>)
    requires Joined(s, t) && Addressable(t) && !s.a.loop.peer.choking && s.a.loop.peer.interested
    ensures Reaches(s, halves, r, t) && HasServed(s, r, msgs) && r.a.loop.requested == []
    decreases |s.a.loop.requested|
  {
    if s.a.loop.requested == [] {
      halves, r, msgs := [], s, [];
      assert Under(s.ab) + [] == Under(s.ab);
    } else {
      var next := BodyTurn(s, t);
      var _ := BodyFacts(s.a.loop, s.a.pieces, t, next.a.loop);
      BodyServes(s, next.a.loop, t);
      var first := Written(s.a.loop.log, next.a.loop.log);
      var later, rest;
      later, r, rest := ServeAll(next, t);
      ReachesThen(s, [OfA(Body(None))], next, later, r, t);
      Codec.Assoc(Under(s.ab), first, rest);
      halves, msgs := [OfA(Body(None))] + later, first + rest;
    }
  }

  lemma {:induction false} NothingOutstanding(s: Pair, t: Torrent)
    requires Joined(s, t) && Under(s.ab) == [] && Under(s.ba) == [] && s.b.loop.requested == []
    ensures s.a.loop.progress.requests == []
  {
    assert |multiset(s.a.loop.progress.requests)| == |s.a.loop.progress.requests|;
  }

  /** A asks, and B hears it. */
  lemma {:induction false} AskRound(s: Pair, t: Torrent) returns (halves: seq<Half>, r: Pair)
    requires Joined(s, t) && Addressable(t) && Serving(s) && InProgress(s.a.loop)
    ensures Reaches(s, halves, r, t) && Serving(r) && BodyAsks(s.a.loop, r.a.loop)
  {
    var asked := BodyTurn(s, t);
    var _ := BodyFacts(s.a.loop, s.a.pieces, t, asked.a.loop);
    var msgs := Written(s.a.loop.log, asked.a.loop.log);
    assert Under(asked.ab) == msgs;
    var later;
    later, r := OtherHearsAll(asked, t);
    HearingBodyMessages(asked.b.loop.peer, msgs);
    HearingKeepsChoking(asked.b.loop.peer, msgs);
    halves := [OfA(Body(None))] + later;
    ReachesThen(s, [OfA(Body(None))], asked, later, r, t);
  }

  /** B serves all that was asked, and A hears it. */
  lemma {:induction false} ServeRound(s: Pair, t: Torrent) returns (halves: seq<Half>, r: Pair)
    requires Joined(s, t) && Addressable(t) && Serving(s)
    ensures Reaches(s, halves, r, t) && Serving(r) && SameOrder(s.a.loop, r.a.loop)
    ensures r.a.loop.progress.requests == []
  {
    var first, served, msgs := ServeAll(Swap(s), t);
    ReachesFlipped(Swap(s), first, served, t);
    var mid := Swap(served);
    assert Under(mid.ba) == [] + msgs == msgs;
    var later;
    later, r := HearAll(mid, t);
    HearingBodyMessages(mid.a.loop.peer, msgs);
    NothingOutstanding(r, t);
    halves := FlipHalves(first) + later;
    ReachesThen(s, FlipHalves(first), mid, later, r, t);
  }

  lemma {:induction false} Round(s: Pair, t: Torrent) returns (halves: seq<Half>, r: Pair)
    requires Joined(s, t) && Addressable(t) && Serving(s) && InProgress(s.a.loop)
    ensures Reaches(s, halves, r, t) && Serving(r) && r.a.loop.progress.requests == []
    ensures BodyAsks(s.a.loop, r.a.loop)
  {
    var first, mid := AskRound(s, t);
    var second;
    second, r := ServeRound(mid, t);
    ReachesThen(s, first, mid, second, r, t);
    halves := first + second;
  }

  /** With nothing outstanding, a piece in progress has something left to ask for. */
  lemma {:induction false} SomethingToAsk(p: Progress)
    requires Inv(p) && p.order.Some? && p.requests == [] && p.numDone != p.order.value.length
    ensures CanRequest(p)
  {
    CompleteIff(p);
  }

  /** The piece that was in progress is complete. */
  ghost predicate Completes(s: Pair, r: Pair) {
    && r.a.loop.progress.order == s.a.loop.progress.order && r.a.loop.progress.order.Some?
    && r.a.loop.progress.numDone == r.a.loop.progress.order.value.length
  }

  lemma {:induction false} Rounds(s: Pair, t: Torrent) returns (halves: seq<Half>, r: Pair)
    requires Joined(s, t) && Addressable(t) && Serving(s) && s.a.loop.progress.order.Some?
    requires s.a.loop.progress.requests == []
    ensures Reaches(s, halves, r, t) && Completes(s, r)
    decreases s.a.loop.progress.order.value.length - s.a.loop.progress.nextToRequest
  {
    if !InProgress(s.a.loop) {
      halves, r := [], s;
    } else {
      SomethingToAsk(s.a.loop.progress);
      var first, mid := Round(s, t);
      var later;
      later, r := Rounds(mid, t);
      ReachesThen(s, first, mid, later, r, t);
      halves := first + later;
    }
  }

  lemma {:induction false} CompleteIfServing(s: Pair, t: Torrent) returns (halves: seq<Half>, r: Pair)
    requires Joined(s, t) && Addressable(t) && Serving(s) && s.a.loop.progress.order.Some?
    ensures Reaches(s, halves, r, t) && Completes(s, r)
  {
    if !InProgress(s.a.loop) {
      halves, r := [], s;
    } else {
      var first, mid := Round(s, t);
      var later;
      later, r := Rounds(mid, t);
      ReachesThen(s, first, mid, later, r, t);
      halves := first + later;
    }
  }

  /** From every state of two bitflood clients in which one holds an order, the two real loops and their choke ticks
      have a continuation that completes it; its buffer is then the other side's piece. */
  lemma {:induction false} EveryOrderCanBeCompleted(s: Pair, t: Torrent) returns (halves: seq<Half>, r: Pair)
    requires Joined(s, t) && Addressable(t) && s.a.loop.progress.order.Some?
    ensures Reaches(s, halves, r, t) && Completes(s, r)
    ensures ExactWhenComplete(r.a.loop, Under(r.ab), r.b, Under(r.ba))
  {
    var h1, s1 := MakeChoked(s, t);
    if !InProgress(s1.a.loop) {
      halves, r := h1, s1;
    } else {
      var h2, s2 := MakeInterested(s1, t);
      var h3, s3 := MakeServing(s2, t);
      var h4;
      h4, r := CompleteIfServing(s3, t);
      ReachesThen(s, h1, s1, h2, s2, t);
      ReachesThen(s, h1 + h2, s2, h3, s3, t);
      ReachesThen(s, h1 + h2 + h3, s3, h4, r, t);
      halves := h1 + h2 + h3 + h4;
    }
    LeechIsExact(r.a.loop, Under(r.ab), r.b, Under(r.ba), t);
  }
}
