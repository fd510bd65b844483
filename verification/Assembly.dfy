/** Assembling one piece from chunks: `pieceProgress` of client/types.go and the parts of
    client/peer.go that issue requests and accept PIECE messages. */
module Assembly {
  import opened Types
  import opened Sums

  const PIPELINE_LENGTH := 5
  const CHUNK_SIZE := 0x4000

  datatype Request = Request(index: nat, start: nat, length: nat)

  /** A block that was accepted into the buffer. */
  datatype Chunk = Chunk(start: nat, data: seq<byte>)

  /** The value of a `pieceProgress`. `accepted` is history that the source does not store:
      the blocks taken for the current order, oldest first. */
  datatype Progress = Progress(order: Option<PieceOrder>, buf: seq<byte>, numDone: nat, requests: seq<Request>,
                               nextToRequest: nat, accepted: seq<Chunk>)

  const NO_PROGRESS := Progress(None, [], 0, [], 0, [])

  function Begin(p: Progress, order: PieceOrder): Progress {
    p.(order := Some(order), buf := Zeros(order.length))
  }

  // ---------- Issuing requests ----------

  predicate CanRequest(p: Progress) {
    p.order.Some? && p.nextToRequest < p.order.value.length
  }

  function NextRequest(p: Progress): Request
    requires CanRequest(p)
  {
    var o := p.order.value;
    Request(o.index, p.nextToRequest, Min(CHUNK_SIZE, o.length - p.nextToRequest))
  }

  function Issue(p: Progress): Progress
    requires CanRequest(p)
  {
    var r := NextRequest(p);
    p.(requests := p.requests + [r], nextToRequest := r.start + CHUNK_SIZE)
  }

  // ---------- Accepting blocks ----------

  function FindRequest(requests: seq<Request>, start: nat, length: nat): (i: nat)
    ensures i <= |requests|
    ensures i < |requests| ==> requests[i].start == start && requests[i].length == length
    ensures forall k :: 0 <= k < i ==> requests[k].start != start || requests[k].length != length
  {
    if requests == [] || (requests[0].start == start && requests[0].length == length) then 0
    else 1 + FindRequest(requests[1..], start, length)
  }

  /** Removal as the source does it: the last element takes the place of the removed one. */
  function SwapRemove<T>(s: seq<T>, i: nat): seq<T>
    requires i < |s|
  {
    s[i := s[|s| - 1]][..|s| - 1]
  }

  function Overwrite(buf: seq<byte>, start: nat, data: seq<byte>): (r: seq<byte>)
    requires start + |data| <= |buf|
    ensures |r| == |buf|
  {
    buf[..start] + data + buf[start + |data|..]
  }

  /** Taking a block for the request at `i` out of the outstanding list into the buffer. */
  function Take(p: Progress, i: nat, data: seq<byte>): Progress
    requires i < |p.requests| && p.requests[i].start + |data| <= |p.buf|
  {
    var start := p.requests[i].start;
    p.(requests := SwapRemove(p.requests, i),
       numDone := p.numDone + |data|,
       buf := Overwrite(p.buf, start, data),
       accepted := p.accepted + [Chunk(start, data)])
  }

  /** The PIECE case of `handleMessage`. Without an order the source dereferences nil. */
  function Accept(p: Progress, index: nat, begin: nat, data: seq<byte>): Outcome<Progress> {
    if p.order.None? then Panic
    else if index != p.order.value.index then Err
    else
      var i := FindRequest(p.requests, begin, |data|);
      if i == |p.requests| then Err
      else if begin + |data| > |p.buf| then Err
      else Ok(Take(p, i, data))
  }

  // ---------- The static plan ----------

  function NumChunks(length: nat): nat {
    (length + CHUNK_SIZE - 1) / CHUNK_SIZE
  }

  function Planned(o: PieceOrder, i: nat): Request
    requires i < NumChunks(o.length)
  {
    Request(o.index, i * CHUNK_SIZE, Min(CHUNK_SIZE, o.length - i * CHUNK_SIZE))
  }

  function Plan(o: PieceOrder, k: nat): (plan: seq<Request>)
    requires k <= NumChunks(o.length)
    ensures |plan| == k
    ensures forall i :: 0 <= i < k ==> plan[i] == Planned(o, i)
  {
    seq(k, i requires 0 <= i < k => Planned(o, i))
  }

  /** The plan in numbers: chunks of 2^14 bytes, the last one what is left. */
  lemma {:induction false} PlanInNumbers(o: PieceOrder, i: nat)
    requires i < NumChunks(o.length)
    ensures NumChunks(o.length) == (o.length + 16383) / 16384
    ensures Planned(o, i) == Request(o.index, 16384 * i, Min(16384, o.length - 16384 * i))
  {
  }

  function Bytes(): Request -> nat {
    (r: Request) => r.length
  }

  /** 1 for a request that covers offset `b`, 0 for any other. */
  function Covers(b: int): Request -> nat {
    (r: Request) => if r.start <= b < r.start + r.length then 1 else 0
  }

  function One(): Request -> nat {
    (r: Request) => 1
  }

  lemma {:induction false} PlanTiles(o: PieceOrder, k: nat, b: int)
    requires k <= NumChunks(o.length)
    ensures Sum(Bytes(), Plan(o, k)) == Min(k * CHUNK_SIZE, o.length)
    ensures Sum(Covers(b), Plan(o, k)) == if 0 <= b < Min(k * CHUNK_SIZE, o.length) then 1 else 0
    ensures Sum(One(), Plan(o, k)) == k
  {
    if k > 0 {
      PlanTiles(o, k - 1, b);
      var last := Planned(o, k - 1);
      assert Plan(o, k) == Plan(o, k - 1) + [last];
      SumConcat(Bytes(), Plan(o, k - 1), [last]);
      SumConcat(Covers(b), Plan(o, k - 1), [last]);
      SumConcat(One(), Plan(o, k - 1), [last]);
    }
  }

  // ---------- The invariant ----------

  function Taken(p: Progress): (rs: seq<Request>)
    requires p.order.Some?
    ensures |rs| == |p.accepted|
  {
    seq(|p.accepted|, i requires 0 <= i < |p.accepted| =>
      Request(p.order.value.index, p.accepted[i].start, |p.accepted[i].data|))
  }

  ghost predicate Placed(buf: seq<byte>, c: Chunk) {
    && c.start + |c.data| <= |buf|
    && buf[c.start..c.start + |c.data|] == c.data
  }

  ghost predicate Inv(p: Progress) {
    match p.order
    case None => p == NO_PROGRESS
    case Some(o) =>
      var k := p.nextToRequest / CHUNK_SIZE;
      && |p.buf| == o.length
      && p.nextToRequest == k * CHUNK_SIZE && k <= NumChunks(o.length)
      && multiset(p.requests) + multiset(Taken(p)) == multiset(Plan(o, k))
      && p.numDone == Sum(Bytes(), Taken(p))
      && |p.requests| <= PIPELINE_LENGTH
      && (forall c :: c in p.accepted ==> Placed(p.buf, c))
      && (forall b :: 0 <= b < o.length && Sum(Covers(b), Taken(p)) == 0 ==> p.buf[b] == 0)
  }

  /** Tiling: every offset below `min(nextToRequest, Length)` lies in exactly one outstanding or accepted
      chunk, no other offset lies in any, and the byte counts add up. */
  lemma Tiling(p: Progress, b: int)
    requires Inv(p) && p.order.Some?
    ensures var issued := Min(p.nextToRequest, p.order.value.length);
      && Sum(Covers(b), p.requests) + Sum(Covers(b), Taken(p)) == (if 0 <= b < issued then 1 else 0)
      && Sum(Bytes(), p.requests) + p.numDone == issued
    ensures |p.requests| + |p.accepted| == p.nextToRequest / CHUNK_SIZE
  {
    var o, k := p.order.value, p.nextToRequest / CHUNK_SIZE;
    PlanTiles(o, k, b);
    SumOfParts(Covers(b), p.requests, Taken(p), Plan(o, k));
    SumOfParts(Bytes(), p.requests, Taken(p), Plan(o, k));
    assert |multiset(p.requests) + multiset(Taken(p))| == k;
  }

  /** Every outstanding request is one of the plan. */
  lemma OutstandingIsPlanned(p: Progress, r: Request)
    requires Inv(p) && p.order.Some? && r in p.requests
    ensures var o := p.order.value;
      && r.index == o.index && 1 <= r.length <= CHUNK_SIZE && r.start + r.length <= o.length
  {
    var o, k := p.order.value, p.nextToRequest / CHUNK_SIZE;
    assert r in multiset(p.requests) + multiset(Taken(p));
    assert r in Plan(o, k);
  }

  /** Completion is exact: the byte counter reaches the length exactly when everything has been requested
      and nothing is outstanding. */
  lemma CompleteIff(p: Progress)
    requires Inv(p) && p.order.Some?
    ensures p.numDone == p.order.value.length <==> p.requests == [] && p.nextToRequest >= p.order.value.length
  {
    Tiling(p, 0);
    SumZeroIff(Bytes(), p.requests);
    if p.requests != [] {
      OutstandingIsPlanned(p, p.requests[0]);
      SumAtLeastMember(Bytes(), p.requests, 0);
    }
  }

  /** A request of the list that covers `b`. */
  lemma {:induction false} CoveredBySome(rs: seq<Request>, b: int) returns (i: nat)
    requires Sum(Covers(b), rs) > 0
    ensures i < |rs| && rs[i].start <= b < rs[i].start + rs[i].length
  {
    if Covers(b)(rs[0]) > 0 {
      i := 0;
    } else {
      i := CoveredBySome(rs[1..], b);
      i := i + 1;
    }
  }

  lemma {:induction false} PlacedByte(buf: seq<byte>, c: Chunk, b: nat)
    requires Placed(buf, c) && c.start <= b < c.start + |c.data|
    ensures b < |buf| && buf[b] == c.data[b - c.start]
  {
    assert buf[c.start..c.start + |c.data|][b - c.start] == buf[b];
  }

  /** The block that wrote the byte at `b`. */
  lemma {:induction false} WriterOf(p: Progress, b: nat) returns (i: nat)
    requires Inv(p) && p.order.Some? && Sum(Covers(b), Taken(p)) > 0
    ensures i < |p.accepted| && var c := p.accepted[i];
      c.start <= b < c.start + |c.data| && b < |p.buf| && p.buf[b] == c.data[b - c.start]
  {
    i := CoveredBySome(Taken(p), b);
    assert p.accepted[i] in p.accepted;
    PlacedByte(p.buf, p.accepted[i], b);
  }

  /** When the counter reaches the length, exactly `ceil(Length / 2^14)` requests were issued and answered,
      and every byte of the buffer was written by exactly one block, whose byte it still holds. */
  lemma CompleteBuffer(p: Progress, b: nat)
    requires Inv(p) && p.order.Some? && p.numDone == p.order.value.length
    ensures p.nextToRequest / CHUNK_SIZE == |p.accepted| == NumChunks(p.order.value.length)
    ensures b < p.order.value.length ==>
      && Sum(Covers(b), Taken(p)) == 1
      && exists i: nat :: i < |p.accepted| && var c := p.accepted[i];
           c.start <= b < c.start + |c.data| && p.buf[b] == c.data[b - c.start]
  {
    CompleteIff(p);
    Tiling(p, b);
    if b < p.order.value.length {
      var i := WriterOf(p, b);
    }
  }

  // ---------- Every step keeps the invariant ----------

  lemma BeginKeepsInv(order: PieceOrder)
    ensures Inv(Begin(NO_PROGRESS, order))
  {
    assert Taken(Begin(NO_PROGRESS, order)) == [];
    assert Plan(order, 0) == [];
  }

  /** The next request is the next entry of the plan. */
  lemma IssueFollowsPlan(p: Progress)
    requires Inv(p) && CanRequest(p)
    ensures p.nextToRequest / CHUNK_SIZE < NumChunks(p.order.value.length)
    ensures NextRequest(p) == Planned(p.order.value, p.nextToRequest / CHUNK_SIZE)
    ensures Issue(p).nextToRequest / CHUNK_SIZE == p.nextToRequest / CHUNK_SIZE + 1
    ensures |p.requests| < PIPELINE_LENGTH ==> Inv(Issue(p))
  {
    var o, k := p.order.value, p.nextToRequest / CHUNK_SIZE;
    var q := Issue(p);
    assert Plan(o, k + 1) == Plan(o, k) + [NextRequest(p)];
    assert q.nextToRequest / CHUNK_SIZE == k + 1;
    assert Taken(q) == Taken(p);
  }

  lemma SwapRemoveMultiset<T>(s: seq<T>, i: nat)
    requires i < |s|
    ensures multiset(SwapRemove(s, i)) == multiset(s) - multiset{s[i]}
  {
    var last := s[|s| - 1];
    assert s == s[..|s| - 1] + [last];
    assert s[i := last] == SwapRemove(s, i) + [last];
  }

  lemma {:induction false} AllAsSecond<T>(s: seq<T>, i: nat)
    requires 1 <= i < |s| && SwapRemove(s, 0) == s[1..]
    ensures s[i] == s[1]
    decreases i
  {
    if i > 1 {
      AllAsSecond(s, i - 1);
      assert SwapRemove(s, 0)[i - 1] == s[i - 1] && s[1..][i - 1] == s[i];
    }
  }

  /** The order in which a list is served: the first, again and again, until nothing is left. */
  function Served<T>(s: seq<T>): seq<T>
    decreases |s|
  {
    if s == [] then [] else [s[0]] + Served(SwapRemove(s, 0))
  }

  function Reverse<T>(s: seq<T>): seq<T> {
    if s == [] then [] else [s[|s| - 1]] + Reverse(s[..|s| - 1])
  }

  /** Requests are served last in, first out, except that the very first comes first. */
  lemma {:induction false} ServedBackwards<T>(s: seq<T>)
    requires s != []
    ensures Served(s) == [s[0]] + Reverse(s[1..])
    decreases |s|
  {
    var rest := SwapRemove(s, 0);
    if |s| > 1 {
      ServedBackwards(rest);
      assert rest[0] == s[|s| - 1] && rest[1..] == s[1..][..|s| - 2];
    }
  }

  /** Taking the first element out keeps the others in order only if they are all the same: requests are
      not served first in, first out. */
  lemma {:induction false} RemovalKeepsOrderIff<T>(s: seq<T>)
    requires s != []
    ensures SwapRemove(s, 0) == s[1..] <==> forall i :: 1 <= i < |s| ==> s[i] == s[1]
  {
    if SwapRemove(s, 0) == s[1..] {
      forall i | 1 <= i < |s|
        ensures s[i] == s[1]
      {
        AllAsSecond(s, i);
      }
    }
  }

  /** Of three different requests the last is served before the second. */
  lemma {:induction false} ServedOutOfOrder()
    ensures var a, b, c := Request(0, 0, 1), Request(0, 1, 1), Request(0, 2, 1);
      SwapRemove([a, b, c], 0) == [c, b]
  {
  }

  /** A chunk that is still outstanding does not touch any accepted one. */
  lemma OutstandingIsFree(p: Progress, i: nat, b: int)
    requires Inv(p) && p.order.Some? && i < |p.requests|
    requires p.requests[i].start <= b < p.requests[i].start + p.requests[i].length
    ensures Sum(Covers(b), Taken(p)) == 0
  {
    Tiling(p, b);
    SumAtLeastMember(Covers(b), p.requests, i);
  }

  lemma OverwriteKeepsPlaced(p: Progress, i: nat, data: seq<byte>, c: Chunk)
    requires Inv(p) && p.order.Some? && i < |p.requests| && c in p.accepted
    requires p.requests[i].length == |data| && p.requests[i].start + |data| <= |p.buf|
    ensures Placed(Overwrite(p.buf, p.requests[i].start, data), c)
  {
    var begin := p.requests[i].start;
    var r := Overwrite(p.buf, begin, data);
    var j :| 0 <= j < |p.accepted| && p.accepted[j] == c;
    forall b | c.start <= b < c.start + |c.data|
      ensures r[b] == c.data[b - c.start]
    {
      assert p.buf[c.start..c.start + |c.data|][b - c.start] == p.buf[b];
      if begin <= b < begin + |data| {
        OutstandingIsFree(p, i, b);
        SumAtLeastMember(Covers(b), Taken(p), j);
      }
    }
  }

  lemma TakeKeepsInv(p: Progress, i: nat, data: seq<byte>)
    requires Inv(p) && p.order.Some? && i < |p.requests| && p.requests[i].length == |data|
    requires p.requests[i].start + |data| <= |p.buf|
    requires p.requests[i].index == p.order.value.index
    ensures Inv(Take(p, i, data))
    ensures multiset(Take(p, i, data).requests) == multiset(p.requests) - multiset{p.requests[i]}
  {
    var q, r := Take(p, i, data), p.requests[i];
    SwapRemoveMultiset(p.requests, i);
    assert Taken(q) == Taken(p) + [r];
    SumConcat(Bytes(), Taken(p), [r]);
    forall c | c in q.accepted
      ensures Placed(q.buf, c)
    {
      if c in p.accepted {
        OverwriteKeepsPlaced(p, i, data, c);
      }
    }
    forall b | 0 <= b < |p.buf| && Sum(Covers(b), Taken(q)) == 0
      ensures q.buf[b] == 0
    {
      SumConcat(Covers(b), Taken(p), [r]);
    }
  }

  /** A PIECE is refused exactly when it is for another piece or answers no outstanding request:
      the "data is too long" branch is never taken. An accepted one keeps the invariant. */
  lemma AcceptKeepsInv(p: Progress, index: nat, begin: nat, data: seq<byte>)
    requires Inv(p) && p.order.Some?
    ensures Accept(p, index, begin, data).Ok? <==> Request(index, begin, |data|) in p.requests
    ensures Accept(p, index, begin, data).Ok? ==>
      var q := Accept(p, index, begin, data).value;
      && Inv(q)
      && multiset(q.requests) == multiset(p.requests) - multiset{Request(index, begin, |data|)}
  {
    var i := FindRequest(p.requests, begin, |data|);
    if i < |p.requests| {
      OutstandingIsPlanned(p, p.requests[i]);
      TakeKeepsInv(p, i, data);
    }
    if Request(index, begin, |data|) in p.requests {
      OutstandingIsPlanned(p, Request(index, begin, |data|));
    }
  }

  // ---------- Whole runs ----------

  datatype ChunkEvent = IssueNext | Deliver(index: nat, begin: nat, data: seq<byte>)

  /** Any interleaving of requests issued and PIECE messages received, from any sender. */
  function Run(p: Progress, events: seq<ChunkEvent>): Outcome<Progress>
    decreases events
  {
    if events == [] then Ok(p)
    else match events[0]
      case IssueNext =>
        if CanRequest(p) && |p.requests| < PIPELINE_LENGTH then Run(Issue(p), events[1..]) else Run(p, events[1..])
      case Deliver(index, begin, data) =>
        match Accept(p, index, begin, data)
        case Ok(q) => Run(q, events[1..])
        case Err => Err
        case Panic => Panic
  }

  function Issued(p: Progress, events: seq<ChunkEvent>): seq<Request>
    decreases events
  {
    if events == [] then []
    else match events[0]
      case IssueNext =>
        if CanRequest(p) && |p.requests| < PIPELINE_LENGTH then [NextRequest(p)] + Issued(Issue(p), events[1..])
        else Issued(p, events[1..])
      case Deliver(index, begin, data) =>
        match Accept(p, index, begin, data)
        case Ok(q) => Issued(q, events[1..])
        case _ => []
  }

  lemma {:induction false} RunKeepsInv(p: Progress, events: seq<ChunkEvent>)
    requires Inv(p) && p.order.Some?
    ensures !Run(p, events).Panic?
    ensures Run(p, events).Ok? ==> Inv(Run(p, events).value) && Run(p, events).value.order == p.order
    decreases events
  {
    if events != [] {
      match events[0]
      case IssueNext =>
        if CanRequest(p) && |p.requests| < PIPELINE_LENGTH {
          IssueFollowsPlan(p);
          RunKeepsInv(Issue(p), events[1..]);
        } else {
          RunKeepsInv(p, events[1..]);
        }
      case Deliver(index, begin, data) =>
        AcceptKeepsInv(p, index, begin, data);
        match Accept(p, index, begin, data)
        case Ok(q) => RunKeepsInv(q, events[1..]);
        case _ =>
    }
  }

  predicate IsPlanBetween(o: PieceOrder, from: nat, to: nat, issued: seq<Request>) {
    from <= to <= NumChunks(o.length) && issued == Plan(o, to)[from..]
  }

  lemma {:induction false} IssuedIsPlan(p: Progress, events: seq<ChunkEvent>)
    requires Inv(p) && p.order.Some? && Run(p, events).Ok?
    ensures IsPlanBetween(p.order.value, p.nextToRequest / CHUNK_SIZE,
              Run(p, events).value.nextToRequest / CHUNK_SIZE, Issued(p, events))
    decreases events
  {
    if events != [] {
      match events[0]
      case IssueNext =>
        if CanRequest(p) && |p.requests| < PIPELINE_LENGTH {
          IssueFollowsPlan(p);
          IssuedIsPlan(Issue(p), events[1..]);
        } else {
          IssuedIsPlan(p, events[1..]);
        }
      case Deliver(index, begin, data) =>
        AcceptKeepsInv(p, index, begin, data);
        IssuedIsPlan(Accept(p, index, begin, data).value, events[1..]);
    }
  }

  /** Over a whole run for one order, whatever the sender does: the requests issued are a prefix of the
      static plan, at most five are outstanding, and the invariant (so tiling and exact completion) holds. */
  lemma RunFollowsPlan(order: PieceOrder, events: seq<ChunkEvent>)
    requires Run(Begin(NO_PROGRESS, order), events).Ok?
    ensures var p := Run(Begin(NO_PROGRESS, order), events).value;
      && Inv(p) && |p.requests| <= 5
      && var issued := Issued(Begin(NO_PROGRESS, order), events);
         issued <= Plan(order, NumChunks(order.length))
         && (p.numDone == order.length ==> issued == Plan(order, NumChunks(order.length)))
  {
    var p0 := Begin(NO_PROGRESS, order);
    BeginKeepsInv(order);
    RunKeepsInv(p0, events);
    IssuedIsPlan(p0, events);
    var p := Run(p0, events).value;
    assert Plan(order, p.nextToRequest / CHUNK_SIZE)[0..] == Plan(order, p.nextToRequest / CHUNK_SIZE);
    if p.numDone == order.length {
      CompleteBuffer(p, 0);
    }
  }
}
