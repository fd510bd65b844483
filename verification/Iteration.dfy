/** One pass of the loop, stated by the states before and after it and by what was written: client/peer.go:97-140. */
module Iterations {
  import opened Types
  import opened PeerProtocol
  import opened Assembly
  import opened PeerLoop
  import Discipline

  /** What one pass writes, in this order; writes that fail are among them. */
  datatype Written = Written(block: seq<Action>, have: seq<Action>, interest: seq<Action>, requests: seq<Action>)

  predicate AtMost(n: nat, actions: seq<Action>, code: byte) {
    |actions| <= n && forall a :: a in actions ==> Discipline.IsAttempt(a, code)
  }

  predicate Succeeded(actions: seq<Action>) {
    actions != [] && actions[0].Sent?
  }

  /** The request in front can be served: the peer may be uploaded to, the range is inside a piece that is there, and
      the frame fits its length field. */
  predicate Serves(l: Loop, pieces: seq<Option<Piece>>) {
    && !l.peer.choking && l.peer.interested && l.requested != []
    && var r := l.requested[0];
      && r.index < |pieces| && pieces[r.index].Some?
      && r.start + r.length <= |pieces[r.index].value.data| && r.length + 13 < 0x1_0000_0000
  }

  predicate IsFull(p: Progress) {
    p.order.Some? && p.numDone == p.order.value.length
  }

  predicate IsGood(p: Progress, sha1: HashFunction) {
    IsFull(p) && sha1(p.buf) == p.order.value.hash
  }

  /** What happens to the piece in progress before an order is looked for, `announced` being whether a HAVE went out. */
  predicate Settled(l: Loop, sha1: HashFunction, announced: bool, next: Loop) {
    && (announced ==> IsGood(l.progress, sha1))
    && next.finished == l.finished + (
      if announced then [Piece(l.progress.order.value.index, l.progress.order.value.length, l.progress.buf, l.peer.id)]
      else [])
    && next.returned == l.returned + (
      if IsFull(l.progress) && !IsGood(l.progress, sha1) then [l.progress.order.value] else [])
    && next.progress == (
      if announced || (IsFull(l.progress) && !IsGood(l.progress, sha1)) then NO_PROGRESS else l.progress)
  }

  /** Whether an order is taken off the channel, the loop being without one and knowing the other side's field. */
  predicate Takes(l: Loop, numPieces: nat, offer: Option<PieceOrder>) {
    offer.Some? && l.progress.order.None? && l.peer.bitfield.length == numPieces
  }

  predicate Has(l: Loop, order: PieceOrder) {
    l.peer.bitfield.Get(order.index) == Ok(true)
  }

  /** An order that is taken is kept if the other side has the piece, and goes back otherwise. */
  predicate Obtained(l: Loop, numPieces: nat, offer: Option<PieceOrder>, next: Loop) {
    && next.finished == l.finished
    && next.returned == l.returned + (
      if Takes(l, numPieces, offer) && !Has(l, offer.value) then [offer.value] else [])
    && next.progress.order == (
      if Takes(l, numPieces, offer) && Has(l, offer.value) then offer else l.progress.order)
  }

  // ---------- The parts of a pass ----------

  lemma {:induction false} BlockWritten(l: Loop, pieces: seq<Option<Piece>>, net: Network, next: Loop)
    returns (block: seq<Action>)
    requires UploadChunk(l, pieces, net) == Ok(next)
    ensures next.log == l.log + block && AtMost(1, block, PIECE)
    ensures block != [] <==> Serves(l, pieces)
    ensures next == l.(log := next.log, requested := next.requested)
  {
    block := next.log[|l.log|..];
    if !l.peer.choking && l.peer.interested && l.requested != [] {
      var r := l.requested[0];
      if r.index < |pieces| && pieces[r.index].Some? && r.start + r.length <= |pieces[r.index].value.data| {
        var msg := PieceMessage(r.index, r.start, pieces[r.index].value.data[r.start..r.start + r.length]);
        SerializeSucceedsIff(msg);
        assert |msg.data| == 8 + r.length;
      }
    }
  }

  lemma {:induction false} HaveWritten(l: Loop, sha1: HashFunction, net: Network) returns (have: seq<Action>)
    ensures var next := CompletePiece(l, sha1, net);
      && next.log == l.log + have && AtMost(1, have, HAVE)
      && (have != [] <==> IsGood(l.progress, sha1))
      && Settled(l, sha1, Succeeded(have), next)
      && next.peer == l.peer.(downloaded := next.peer.downloaded)
  {
    have := CompletePiece(l, sha1, net).log[|l.log|..];
  }

  lemma {:induction false} OrderObtained(l: Loop, numPieces: nat, offer: Option<PieceOrder>, next: Loop)
    requires GetPiece(l, numPieces, offer) == Ok(next)
    ensures Obtained(l, numPieces, offer, next) && next.log == l.log && next.peer == l.peer
  {
  }

  lemma {:induction false} InterestWritten(l: Loop, net: Network) returns (interest: seq<Action>)
    ensures var next := SendInterested(l, net);
      && next.log == l.log + interest && AtMost(1, interest, INTERESTED)
      && (interest != [] <==> l.progress.order.Some? && l.peer.chokedBy && !l.peer.interestedSent)
      && next == l.(log := next.log, peer := l.peer.(interestedSent := next.peer.interestedSent))
  {
    interest := SendInterested(l, net).log[|l.log|..];
  }

  lemma {:induction false} RequestsWritten(l: Loop, n: nat, net: Network) returns (requests: seq<Action>)
    ensures var next := RequestUpTo(l, n, net);
      next.log == l.log + requests && AtMost(n, requests, REQUEST)
    decreases n
  {
    requests := [];
    if n > 0 && CanRequest(l.progress) {
      var msg := NextRequestMessage(l.progress);
      if net(l.log) {
        var more := RequestsWritten(SendRequest(l, net), n - 1, net);
        requests := [Sent(msg)] + more;
      } else {
        requests := [SendFailed(msg)];
      }
    }
  }

  lemma {:induction false} FillWritten(l: Loop, net: Network) returns (requests: seq<Action>)
    ensures var next := FillRequests(l, net);
      && next.log == l.log + requests && AtMost(5, requests, REQUEST)
      && (requests != [] ==> l.progress.order.Some? && !l.peer.chokedBy)
      && next.progress.order == l.progress.order && next.returned == l.returned && next.finished == l.finished
  {
    requests := [];
    if l.progress.order.Some? && !l.peer.chokedBy && |l.progress.requests| < PIPELINE_LENGTH {
      var n := PIPELINE_LENGTH - |l.progress.requests|;
      requests := RequestsWritten(l, n, net);
      RequestingKeepsTheRest(l, n, net);
    }
  }

  // ---------- A whole pass ----------

  /** What a pass writes before it waits: a block exactly when the request in front can be served; then a HAVE exactly
      when the buffer is full and has its hash; then INTERESTED exactly when an order is held after all that, the other
      side chokes us and has not been told; then requests, while an order is held and we are not choked. */
  predicate Writes(l: Loop, s: Surroundings, c: Config, w: Written, l1: Loop) {
    && l1.log == l.log + w.block + w.have + w.interest + w.requests
    && AtMost(1, w.block, PIECE) && AtMost(1, w.have, HAVE)
    && AtMost(1, w.interest, INTERESTED) && AtMost(5, w.requests, REQUEST)
    && (w.block != [] <==> Serves(l, s.pieces))
    && (w.have != [] <==> IsGood(l.progress, c.sha1))
    && (w.interest != [] <==> l1.progress.order.Some? && l.peer.chokedBy && !l.peer.interestedSent)
    && (w.requests != [] ==> l1.progress.order.Some? && !l.peer.chokedBy)
  }

  /** A pass writes that, and settles the piece in progress before it looks for an order: a full buffer is handed over
      if and only if its hash is right and the HAVE was written, its order goes back if and only if the hash is wrong,
      and otherwise it is kept; and an order is taken in the same pass in which the last one was settled. */
  lemma {:induction false} PassInOrder(l: Loop, s: Surroundings, c: Config, l1: Loop)
    returns (w: Written, settled: Loop)
    requires Prepare(l, s, c) == Ok(l1)
    ensures Writes(l, s, c, w, l1)
    ensures Settled(l, c.sha1, Succeeded(w.have), settled) && settled.peer.bitfield == l.peer.bitfield
    ensures Obtained(settled, c.numPieces, s.offer, l1)
  {
    var a := UploadChunk(l, s.pieces, c.net).value;
    var block := BlockWritten(l, s.pieces, c.net, a);
    var have := HaveWritten(a, c.sha1, c.net);
    settled := CompletePiece(a, c.sha1, c.net);
    var b := Refresh(l, s, c).value;
    OrderObtained(settled, c.numPieces, s.offer, b);
    var interest := InterestWritten(b, c.net);
    var d := SendInterested(b, c.net);
    var requests := FillWritten(d, c.net);
    w := Written(block, have, interest, requests);
  }
}
