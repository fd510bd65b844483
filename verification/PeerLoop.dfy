/** One connection: the steps of `communicationLoop` (client/peer.go) as functions on its state. */
module PeerLoop {
  import opened Types
  import opened BigEndian
  import opened Bitfields
  import opened PeerProtocol
  import opened Assembly

  /** types.Peer: what is known about the other side. */
  datatype Peer = Peer(id: string, downloaded: nat, chokedBy: bool, choking: bool, interested: bool,
                       interestedSent: bool, bitfield: Bits)

  /** What happened on the connection: writes that succeeded or failed, and messages handled. */
  datatype Action = Sent(msg: PeerMessage) | SendFailed(msg: PeerMessage) | Got(msg: PeerMessage)

  /** Whether the next `conn.Write` succeeds may depend on everything that happened before. */
  type Network = seq<Action> -> bool

  /** What the main loop is told: on PeerInterested, on Uploaded, and on ConnectionEnded. */
  datatype Notice = Interest(id: string, isInterested: bool) | Uploaded(index: nat) | Ended(id: string)

  /** The variables of the loop, the history of its connection, and what it has put on the shared channels:
      Orders, Results, and those of the notices. */
  datatype Loop = Loop(peer: Peer, progress: Progress, requested: seq<Request>, log: seq<Action>,
                       returned: seq<PieceOrder>, finished: seq<Piece>, notices: seq<Notice>)

  /** The state after the handshake (bittorrent/peer_protocol.go:73-81). */
  function Connected(id: string): Loop {
    Loop(Peer(id, 0, true, true, false, false, Bits(0, [])), NO_PROGRESS, [], [], [], [], [])
  }

  function Send(l: Loop, msg: PeerMessage, net: Network): Loop {
    l.(log := l.log + [if net(l.log) then Sent(msg) else SendFailed(msg)])
  }

  // ---------- The first half of an iteration ----------

  /** The chunk to upload, if the other side is unchoked and interested and its first request can be served
      (lines 101, 207-237). A request out of range is an error that is only logged, and the request stays at
      the front; a piece that is not there is dereferenced. */
  function ChunkToSend(l: Loop, pieces: seq<Option<Piece>>): (r: Outcome<Option<PeerMessage>>)
    ensures r.Ok? && r.value.Some? ==>
      && !l.peer.choking && l.peer.interested && l.requested != []
      && r.value.value.code == PIECE && Sendable(r.value.value)
  {
    if l.peer.choking || !l.peer.interested || l.requested == [] then Ok(None)
    else
      var r := l.requested[0];
      if r.index >= |pieces| then Ok(None)
      else if pieces[r.index].None? then Panic
      else
        var data := pieces[r.index].value.data;
        if r.start + r.length > |data| then Ok(None)
        else
          var msg := PieceMessage(r.index, r.start, data[r.start..r.start + r.length]);
          SerializeSucceedsIff(msg);
          match SerializeMessage(msg)
          case Ok(_) => Ok(Some(msg))
          case Err => Ok(None)
          case Panic => Panic
  }

  /** Lines 101-110: the request is dropped once its chunk is written; the last one takes its place. */
  function UploadChunk(l: Loop, pieces: seq<Option<Piece>>, net: Network): Outcome<Loop> {
    match ChunkToSend(l, pieces)
    case Ok(None) => Ok(l)
    case Ok(Some(msg)) => Ok(SendChunk(l, msg, net))
    case Err => Err
    case Panic => Panic
  }

  function SendChunk(l: Loop, msg: PeerMessage, net: Network): Loop
    requires l.requested != []
  {
    Send(l, msg, net).(requested := if net(l.log) then SwapRemove(l.requested, 0) else l.requested)
  }

  /** Check a full buffer against its hash; announce and hand over a good piece, give a bad one's order back
      (lines 112-121, 316-351). When the announcement cannot be written, nothing changes. */
  function CompletePiece(l: Loop, sha1: HashFunction, net: Network): Loop {
    var p := l.progress;
    if p.order.None? || p.numDone != p.order.value.length then l
    else
      var o := p.order.value;
      if sha1(p.buf) != o.hash then
        l.(progress := NO_PROGRESS, returned := l.returned + [o])
      else
        var sent := Send(l, Message(HAVE, PutUint32(o.index)), net);
        if !net(l.log) then sent
        else sent.(progress := NO_PROGRESS,
                   finished := l.finished + [Piece(o.index, o.length, p.buf, l.peer.id)],
                   peer := l.peer.(downloaded := (l.peer.downloaded + p.numDone) % TWO_TO_THE_32))
  }

  /** The loop asks for an order when it has none and the other side's bitfield is known (line 124). */
  predicate WantsOrder(l: Loop, numPieces: nat) {
    l.progress.order.None? && l.peer.bitfield.length == numPieces
  }

  /** `getPiece` with the order it took from the channel: kept if the other side has the piece,
      put back otherwise (lines 124-129, 246-266). */
  function TakeOrder(l: Loop, order: PieceOrder): Outcome<Loop> {
    match l.peer.bitfield.Get(order.index)
    case Ok(got) =>
      if got then Ok(l.(progress := Begin(l.progress, order)))
      else Ok(l.(returned := l.returned + [order]))
    case Err => Ok(l.(returned := l.returned + [order]))
    case Panic => Panic
  }

  function GetPiece(l: Loop, numPieces: nat, offer: Option<PieceOrder>): Outcome<Loop> {
    if WantsOrder(l, numPieces) && offer.Some? then TakeOrder(l, offer.value) else Ok(l)
  }

  /** Lines 131-135 and 268-281. */
  function SendInterested(l: Loop, net: Network): Loop {
    if l.progress.order.Some? && l.peer.chokedBy && !l.peer.interestedSent then
      Send(l, Message(INTERESTED, []), net).(peer := l.peer.(interestedSent := net(l.log)))
    else l
  }

  function NextRequestMessage(p: Progress): PeerMessage
    requires CanRequest(p)
  {
    var r := NextRequest(p);
    RequestMessage(r.index, r.start, r.length)
  }

  /** One more request, written and noted. */
  function SendRequest(l: Loop, net: Network): Loop
    requires CanRequest(l.progress)
  {
    Send(l, NextRequestMessage(l.progress), net).(progress := Issue(l.progress))
  }

  /** Up to `n` further requests, until one cannot be written (lines 283-314). */
  function RequestUpTo(l: Loop, n: nat, net: Network): Loop
    decreases n
  {
    if n == 0 || !CanRequest(l.progress) then l
    else if net(l.log) then RequestUpTo(SendRequest(l, net), n - 1, net)
    else Send(l, NextRequestMessage(l.progress), net)
  }

  function FillRequests(l: Loop, net: Network): Loop {
    if l.progress.order.Some? && !l.peer.chokedBy && |l.progress.requests| < PIPELINE_LENGTH then
      RequestUpTo(l, PIPELINE_LENGTH - |l.progress.requests|, net)
    else l
  }

  // ---------- The second half: one event ----------

  function HandleMessage(l0: Loop, msg: PeerMessage, numPieces: nat): Outcome<Loop> {
    var l := l0.(log := l0.log + [Got(msg)]);
    if msg.code == CHOKE then Ok(l.(peer := l.peer.(chokedBy := true, interestedSent := false)))
    else if msg.code == UNCHOKE then Ok(l.(peer := l.peer.(chokedBy := false)))
    else if msg.code == INTERESTED then
      Ok(l.(peer := l.peer.(interested := true), notices := l.notices + [Interest(l.peer.id, true)]))
    else if msg.code == NOT_INTERESTED then
      Ok(l.(peer := l.peer.(interested := false), notices := l.notices + [Interest(l.peer.id, false)]))
    else if msg.code == HAVE then
      if |msg.data| < 4 then Panic else Ok(l.(notices := l.notices + [Uploaded(Uint32(msg.data))]))
    else if msg.code == BITFIELD then
      if |msg.data| != BytesFor(numPieces) then Err
      else Ok(l.(peer := l.peer.(bitfield := Bits(numPieces, FromWire(msg.data)))))
    else if msg.code == REQUEST then
      match DeserializeRequestMsg(msg)
      case Ok((index, begin, length)) => Ok(l.(requested := l.requested + [Request(index, begin, length)]))
      case _ => Err
    else if msg.code == PIECE then
      match DeserializePieceMsg(msg) {
        case Ok((index, begin, block)) =>
          match Accept(l.progress, index, begin, block) {
            case Ok(p) => Ok(l.(progress := p))
            case Err => Err
            case Panic => Panic
          }
        case _ => Err
      }
    else Ok(l)
  }

  /** A tick of the choke algorithm (lines 183-202). A failed write does not undo the change of state. */
  function SetChoking(l: Loop, choke: bool, net: Network): Loop {
    if choke == l.peer.choking then l
    else Send(l, Message(if choke then CHOKE else UNCHOKE, []), net).(peer := l.peer.(choking := choke))
  }

  datatype Event = Incoming(msg: PeerMessage) | UnchokeTick(ids: seq<string>)

  /** What the surroundings provide in one iteration: the pieces held, the order that can be taken, the event. */
  datatype Surroundings = Surroundings(pieces: seq<Option<Piece>>, offer: Option<PieceOrder>, event: Event)

  datatype Config = Config(numPieces: nat, sha1: HashFunction, net: Network)

  /** Upload, complete, and take an order: the loop body down to line 129. */
  function Refresh(l: Loop, s: Surroundings, c: Config): Outcome<Loop> {
    match UploadChunk(l, s.pieces, c.net)
    case Ok(l1) => GetPiece(CompletePiece(l1, c.sha1, c.net), c.numPieces, s.offer)
    case Err => Err
    case Panic => Panic
  }

  function Ask(l: Loop, net: Network): Loop {
    FillRequests(SendInterested(l, net), net)
  }

  function Prepare(l: Loop, s: Surroundings, c: Config): Outcome<Loop> {
    match Refresh(l, s, c)
    case Ok(l1) => Ok(Ask(l1, c.net))
    case Err => Err
    case Panic => Panic
  }

  function HandleEvent(l: Loop, event: Event, c: Config): Outcome<Loop> {
    match event
    case Incoming(msg) => if msg.keepAlive then Ok(l) else HandleMessage(l, msg, c.numPieces)
    case UnchokeTick(ids) => Ok(SetChoking(l, l.peer.id !in ids, c.net))
  }

  function Iterate(l: Loop, s: Surroundings, c: Config): Outcome<Loop> {
    match Prepare(l, s, c)
    case Ok(l1) => HandleEvent(l1, s.event, c)
    case Err => Err
    case Panic => Panic
  }

  function RunLoop(l: Loop, script: seq<Surroundings>, c: Config): Outcome<Loop>
    decreases script
  {
    if script == [] then Ok(l)
    else match Iterate(l, script[0], c)
      case Ok(l1) => RunLoop(l1, script[1..], c)
      case Err => Err
      case Panic => Panic
  }

  // ---------- The piece in progress ----------

  lemma {:induction false} CompleteKeepsInv(l: Loop, sha1: HashFunction, net: Network)
    requires Inv(l.progress)
    ensures Inv(CompletePiece(l, sha1, net).progress)
  {
  }

  lemma {:induction false} GetPieceKeepsInv(l: Loop, numPieces: nat, offer: Option<PieceOrder>)
    requires Inv(l.progress)
    ensures GetPiece(l, numPieces, offer).Ok? ==> Inv(GetPiece(l, numPieces, offer).value.progress)
  {
    if offer.Some? {
      BeginKeepsInv(offer.value);
    }
  }

  lemma {:induction false} RequestKeepsInv(l: Loop, net: Network)
    requires Inv(l.progress) && CanRequest(l.progress) && |l.progress.requests| < PIPELINE_LENGTH
    ensures Inv(SendRequest(l, net).progress)
    ensures |SendRequest(l, net).progress.requests| == |l.progress.requests| + 1
  {
    IssueFollowsPlan(l.progress);
  }

  lemma {:induction false} RequestsKeepInv(l: Loop, n: nat, net: Network)
    requires Inv(l.progress) && n + |l.progress.requests| <= PIPELINE_LENGTH
    ensures Inv(RequestUpTo(l, n, net).progress)
    decreases n
  {
    if n > 0 && CanRequest(l.progress) && net(l.log) {
      RequestKeepsInv(l, net);
      RequestsKeepInv(SendRequest(l, net), n - 1, net);
    }
  }

  lemma {:induction false} FillCases(l: Loop, net: Network)
    ensures var next := FillRequests(l, net);
      next == l || (|l.progress.requests| < PIPELINE_LENGTH
                    && next == RequestUpTo(l, PIPELINE_LENGTH - |l.progress.requests|, net))
  {
  }

  /** Requesting touches only the piece in progress and the history. */
  lemma {:induction false} RequestingKeepsTheRest(l: Loop, n: nat, net: Network)
    ensures var next := RequestUpTo(l, n, net);
      && next.progress.order == l.progress.order && next.peer == l.peer
      && next.returned == l.returned && next.finished == l.finished && next.notices == l.notices
    decreases n
  {
    if n > 0 && CanRequest(l.progress) && net(l.log) {
      RequestingKeepsTheRest(SendRequest(l, net), n - 1, net);
    }
  }

  lemma {:induction false} HandleMessageKeepsInv(l: Loop, msg: PeerMessage, numPieces: nat)
    requires Inv(l.progress)
    ensures HandleMessage(l, msg, numPieces).Ok? ==> Inv(HandleMessage(l, msg, numPieces).value.progress)
  {
    if msg.code == PIECE && HandleMessage(l, msg, numPieces).Ok? {
      var (index, begin, block) := DeserializePieceMsg(msg).value;
      AcceptKeepsInv(l.progress, index, begin, block);
    }
  }

  lemma {:induction false} AskKeepsInv(l: Loop, net: Network)
    requires Inv(l.progress)
    ensures Inv(Ask(l, net).progress)
  {
    var l1 := SendInterested(l, net);
    if |l1.progress.requests| < PIPELINE_LENGTH {
      RequestsKeepInv(l1, PIPELINE_LENGTH - |l1.progress.requests|, net);
    }
  }

  lemma {:induction false} RefreshKeepsInv(l: Loop, s: Surroundings, c: Config)
    requires Inv(l.progress)
    ensures Refresh(l, s, c).Ok? ==> Inv(Refresh(l, s, c).value.progress)
  {
    if Refresh(l, s, c).Ok? {
      var l1 := UploadChunk(l, s.pieces, c.net).value;
      CompleteKeepsInv(l1, c.sha1, c.net);
      GetPieceKeepsInv(CompletePiece(l1, c.sha1, c.net), c.numPieces, s.offer);
    }
  }

  /** Whatever the other side sends, whichever writes fail: the piece in progress stays tiled. */
  lemma {:induction false} RunKeepsProgressInv(l: Loop, script: seq<Surroundings>, c: Config)
    requires Inv(l.progress)
    ensures RunLoop(l, script, c).Ok? ==> Inv(RunLoop(l, script, c).value.progress)
    decreases script
  {
    if script != [] && Iterate(l, script[0], c).Ok? {
      RefreshKeepsInv(l, script[0], c);
      AskKeepsInv(Refresh(l, script[0], c).value, c.net);
      var l1 := Prepare(l, script[0], c).value;
      match script[0].event {
        case Incoming(msg) => HandleMessageKeepsInv(l1, msg, c.numPieces);
        case UnchokeTick(_) =>
      }
      RunKeepsProgressInv(Iterate(l, script[0], c).value, script[1..], c);
    }
  }

  /** The three regular exits put the held order back (lines 144-158, 175-181). */
  function Leave(l: Loop): Loop {
    l.(returned := if l.progress.order.Some? then l.returned + [l.progress.order.value] else l.returned,
       notices := l.notices + [Ended(l.peer.id)])
  }

  /** What is left of a connection that has ended: what it put on the channels, its history, and the order that it did
      not give back. */
  datatype End = End(returned: seq<PieceOrder>, finished: seq<Piece>, notices: seq<Notice>, log: seq<Action>,
                     dropped: Option<PieceOrder>)

  function RegularEnd(l: Loop): End {
    var left := Leave(l);
    End(left.returned, left.finished, left.notices, left.log, None)
  }

  /** The exit after an error (lines 165-172), in a state before the message that caused it. */
  function ErrorEnd(l: Loop, event: Event): End {
    End(l.returned, l.finished, l.notices + [Ended(l.peer.id)],
        if event.Incoming? then l.log + [Got(event.msg)] else l.log, l.progress.order)
  }

  /** A whole connection: it ends regularly when the script does. */
  function Life(l: Loop, script: seq<Surroundings>, c: Config): Outcome<End>
    decreases script
  {
    if script == [] then Ok(RegularEnd(l))
    else match Prepare(l, script[0], c)
      case Err => Err
      case Panic => Panic
      case Ok(l1) =>
        match HandleEvent(l1, script[0].event, c)
        case Ok(l2) => Life(l2, script[1..], c)
        case Err => Ok(ErrorEnd(l1, script[0].event))
        case Panic => Panic
  }

  /** An order that a connection held at its end went back, unless the connection ended by an error. */
  lemma {:induction false} LifeOfRun(l: Loop, script: seq<Surroundings>, c: Config)
    ensures RunLoop(l, script, c).Ok? ==> Life(l, script, c) == Ok(RegularEnd(RunLoop(l, script, c).value))
    ensures RunLoop(l, script, c).Panic? <==> Life(l, script, c).Panic?
    ensures !Life(l, script, c).Err?
    decreases script
  {
    if script != [] {
      PrepareNeverErrs(l, script[0], c);
      if Iterate(l, script[0], c).Ok? {
        LifeOfRun(Iterate(l, script[0], c).value, script[1..], c);
      }
    }
  }

  lemma {:induction false} PrepareNeverErrs(l: Loop, s: Surroundings, c: Config)
    ensures !Prepare(l, s, c).Err?
  {
  }
}

/** What a connection may put on the wire, read off its history alone. */
module Discipline {
  import opened Types
  import opened BigEndian
  import opened Bitfields
  import opened PeerProtocol
  import opened Assembly
  import opened PeerLoop

  /** Choked by the other side: the last CHOKE or UNCHOKE received decides; choked at the start. */
  function ChokedByRemote(log: seq<Action>): bool {
    if log == [] then true
    else match log[|log| - 1]
      case Got(m) =>
        if m.code == CHOKE then true else if m.code == UNCHOKE then false else ChokedByRemote(log[..|log| - 1])
      case _ => ChokedByRemote(log[..|log| - 1])
  }

  /** An INTERESTED went out and no CHOKE has come since. */
  function InterestStands(log: seq<Action>): bool {
    if log == [] then false
    else match log[|log| - 1]
      case Got(m) => if m.code == CHOKE then false else InterestStands(log[..|log| - 1])
      case Sent(m) => m.code == INTERESTED || InterestStands(log[..|log| - 1])
      case SendFailed(_) => InterestStands(log[..|log| - 1])
  }

  function RemoteInterested(log: seq<Action>): bool {
    if log == [] then false
    else match log[|log| - 1]
      case Got(m) =>
        if m.code == INTERESTED then true
        else if m.code == NOT_INTERESTED then false
        else RemoteInterested(log[..|log| - 1])
      case _ => RemoteInterested(log[..|log| - 1])
  }

  predicate IsAttempt(a: Action, code: byte) {
    !a.Got? && a.msg.code == code
  }

  /** The choke changes attempted, whether or not the write succeeded. */
  function ChokeChanges(log: seq<Action>): seq<byte> {
    if log == [] then []
    else
      var a := log[|log| - 1];
      var earlier := ChokeChanges(log[..|log| - 1]);
      if IsAttempt(a, CHOKE) || IsAttempt(a, UNCHOKE) then earlier + [a.msg.code] else earlier
  }

  /** Choking the other side, by the attempted changes; choking at the start. */
  function ChokingRemote(log: seq<Action>): bool {
    var changes := ChokeChanges(log);
    changes == [] || changes[|changes| - 1] == CHOKE
  }

  predicate Allowed(log: seq<Action>, a: Action) {
    && (IsAttempt(a, UNCHOKE) ==> ChokingRemote(log))
    && (IsAttempt(a, CHOKE) ==> !ChokingRemote(log))
    && (IsAttempt(a, REQUEST) ==> !ChokedByRemote(log))
    && (IsAttempt(a, INTERESTED) ==> ChokedByRemote(log) && !InterestStands(log))
    && (IsAttempt(a, PIECE) ==> !ChokingRemote(log) && RemoteInterested(log))
  }

  ghost predicate Disciplined(log: seq<Action>) {
    forall i :: 0 <= i < |log| ==> Allowed(log[..i], log[i])
  }

  /** The flags of the peer record are what the history says, and the history is disciplined. */
  ghost predicate Follows(peer: Peer, log: seq<Action>) {
    && peer.chokedBy == ChokedByRemote(log)
    && peer.interestedSent == InterestStands(log)
    && peer.interested == RemoteInterested(log)
    && peer.choking == ChokingRemote(log)
    && Disciplined(log)
  }

  ghost predicate Agrees(l: Loop) {
    Follows(l.peer, l.log)
  }

  predicate SameFlags(p: Peer, q: Peer) {
    && p.chokedBy == q.chokedBy && p.choking == q.choking
    && p.interested == q.interested && p.interestedSent == q.interestedSent
  }

  /** The flags after one more action. */
  function FlagsAfter(p: Peer, a: Action): Peer {
    match a
    case Got(m) =>
      if m.code == CHOKE then p.(chokedBy := true, interestedSent := false)
      else if m.code == UNCHOKE then p.(chokedBy := false)
      else if m.code == INTERESTED then p.(interested := true)
      else if m.code == NOT_INTERESTED then p.(interested := false)
      else p
    case Sent(m) =>
      if m.code == CHOKE then p.(choking := true)
      else if m.code == UNCHOKE then p.(choking := false)
      else if m.code == INTERESTED then p.(interestedSent := true)
      else p
    case SendFailed(m) =>
      if m.code == CHOKE then p.(choking := true)
      else if m.code == UNCHOKE then p.(choking := false)
      else p
  }

  lemma {:induction false} FollowsAppend(p: Peer, log: seq<Action>, a: Action, q: Peer)
    requires Follows(p, log) && Allowed(log, a) && SameFlags(FlagsAfter(p, a), q)
    ensures Follows(q, log + [a])
  {
    var longer := log + [a];
    assert longer[..|longer| - 1] == log;
    forall i | 0 <= i < |longer|
      ensures Allowed(longer[..i], longer[i])
    {
      if i < |log| {
        assert longer[..i] == log[..i];
      }
    }
  }

  /** A step that writes one message, or none. */
  lemma {:induction false} WriteFollows(l: Loop, msg: PeerMessage, net: Network, q: Peer)
    requires Follows(l.peer, l.log)
    requires Allowed(l.log, Sent(msg)) && (net(l.log) || Allowed(l.log, SendFailed(msg)))
    requires SameFlags(FlagsAfter(l.peer, if net(l.log) then Sent(msg) else SendFailed(msg)), q)
    ensures Follows(q, Send(l, msg, net).log)
  {
    FollowsAppend(l.peer, l.log, if net(l.log) then Sent(msg) else SendFailed(msg), q);
  }

  lemma {:induction false} SendChunkAgrees(l: Loop, msg: PeerMessage, net: Network)
    requires Agrees(l) && l.requested != [] && msg.code == PIECE && !l.peer.choking && l.peer.interested
    ensures Agrees(SendChunk(l, msg, net))
  {
    WriteFollows(l, msg, net, l.peer);
  }

  lemma {:induction false} UploadAgrees(l: Loop, pieces: seq<Option<Piece>>, net: Network)
    requires Agrees(l)
    ensures UploadChunk(l, pieces, net).Ok? ==> Agrees(UploadChunk(l, pieces, net).value)
  {
    match ChunkToSend(l, pieces)
    case Ok(Some(msg)) => SendChunkAgrees(l, msg, net);
    case _ =>
  }

  lemma {:induction false} CompleteAgrees(l: Loop, sha1: HashFunction, net: Network)
    requires Agrees(l)
    ensures Agrees(CompletePiece(l, sha1, net))
  {
    var p := l.progress;
    if p.order.Some? && p.numDone == p.order.value.length && sha1(p.buf) == p.order.value.hash {
      WriteFollows(l, Message(HAVE, PutUint32(p.order.value.index)), net, CompletePiece(l, sha1, net).peer);
    }
  }

  lemma {:induction false} GetPieceAgrees(l: Loop, numPieces: nat, offer: Option<PieceOrder>)
    requires Agrees(l)
    ensures GetPiece(l, numPieces, offer).Ok? ==> Agrees(GetPiece(l, numPieces, offer).value)
  {
  }

  lemma {:induction false} InterestedAgrees(l: Loop, net: Network)
    requires Agrees(l)
    ensures Agrees(SendInterested(l, net))
  {
    if l.progress.order.Some? && l.peer.chokedBy && !l.peer.interestedSent {
      WriteFollows(l, Message(INTERESTED, []), net, SendInterested(l, net).peer);
    }
  }

  lemma {:induction false} RequestsAgree(l: Loop, n: nat, net: Network)
    requires Agrees(l) && !l.peer.chokedBy
    ensures Agrees(RequestUpTo(l, n, net))
    decreases n
  {
    if n > 0 && CanRequest(l.progress) {
      WriteFollows(l, NextRequestMessage(l.progress), net, l.peer);
      if net(l.log) {
        RequestsAgree(SendRequest(l, net), n - 1, net);
      }
    }
  }

  lemma {:induction false} HandleMessageAgrees(l: Loop, msg: PeerMessage, numPieces: nat)
    requires Agrees(l)
    ensures HandleMessage(l, msg, numPieces).Ok? ==> Agrees(HandleMessage(l, msg, numPieces).value)
  {
    var r := HandleMessage(l, msg, numPieces);
    if r.Ok? {
      FollowsAppend(l.peer, l.log, Got(msg), r.value.peer);
    }
  }

  lemma {:induction false} FillAgrees(l: Loop, net: Network)
    requires Agrees(l)
    ensures Agrees(FillRequests(l, net))
  {
    if l.progress.order.Some? && !l.peer.chokedBy && |l.progress.requests| < PIPELINE_LENGTH {
      RequestsAgree(l, PIPELINE_LENGTH - |l.progress.requests|, net);
    }
  }

  lemma {:induction false} SetChokingAgrees(l: Loop, choke: bool, net: Network)
    requires Agrees(l)
    ensures Agrees(SetChoking(l, choke, net))
  {
    if choke && !l.peer.choking {
      WriteFollows(l, Message(CHOKE, []), net, l.peer.(choking := true));
    } else if !choke && l.peer.choking {
      WriteFollows(l, Message(UNCHOKE, []), net, l.peer.(choking := false));
    }
  }

  lemma {:induction false} RefreshAgrees(l: Loop, s: Surroundings, c: Config)
    requires Agrees(l)
    ensures Refresh(l, s, c).Ok? ==> Agrees(Refresh(l, s, c).value)
  {
    UploadAgrees(l, s.pieces, c.net);
    if Refresh(l, s, c).Ok? {
      var l1 := UploadChunk(l, s.pieces, c.net).value;
      var l2 := CompletePiece(l1, c.sha1, c.net);
      CompleteAgrees(l1, c.sha1, c.net);
      GetPieceAgrees(l2, c.numPieces, s.offer);
    }
  }

  lemma {:induction false} AskAgrees(l: Loop, net: Network)
    requires Agrees(l)
    ensures Agrees(Ask(l, net))
  {
    InterestedAgrees(l, net);
    FillAgrees(SendInterested(l, net), net);
  }

  lemma {:induction false} HandleEventAgrees(l: Loop, event: Event, c: Config)
    requires Agrees(l)
    ensures HandleEvent(l, event, c).Ok? ==> Agrees(HandleEvent(l, event, c).value)
  {
    match event
    case Incoming(msg) => HandleMessageAgrees(l, msg, c.numPieces);
    case UnchokeTick(ids) => SetChokingAgrees(l, l.peer.id !in ids, c.net);
  }

  lemma {:induction false} RunAgrees(l: Loop, script: seq<Surroundings>, c: Config)
    requires Agrees(l)
    ensures RunLoop(l, script, c).Ok? ==> Agrees(RunLoop(l, script, c).value)
    decreases script
  {
    if script != [] {
      RefreshAgrees(l, script[0], c);
      if Iterate(l, script[0], c).Ok? {
        AskAgrees(Refresh(l, script[0], c).value, c.net);
        HandleEventAgrees(Prepare(l, script[0], c).value, script[0].event, c);
        RunAgrees(Iterate(l, script[0], c).value, script[1..], c);
      }
    }
  }

  lemma {:induction false} PrefixIsDisciplined(log: seq<Action>, a: Action)
    requires Disciplined(log) && a.Got?
    ensures Disciplined(log + [a])
  {
    forall i | 0 <= i <= |log|
      ensures Allowed((log + [a])[..i], (log + [a])[i])
    {
      if i < |log| {
        assert (log + [a])[..i] == log[..i];
      }
    }
  }

  /** Also a connection that ends by an error leaves a disciplined history. */
  lemma {:induction false} LifeIsDisciplined(l: Loop, script: seq<Surroundings>, c: Config)
    requires Agrees(l) && Life(l, script, c).Ok?
    ensures Disciplined(Life(l, script, c).value.log)
    decreases script
  {
    if script != [] {
      RefreshAgrees(l, script[0], c);
      AskAgrees(Refresh(l, script[0], c).value, c.net);
      var l1 := Prepare(l, script[0], c).value;
      match HandleEvent(l1, script[0].event, c)
      case Ok(l2) =>
        HandleEventAgrees(l1, script[0].event, c);
        LifeIsDisciplined(l2, script[1..], c);
      case Err =>
        if script[0].event.Incoming? {
          PrefixIsDisciplined(l1.log, Got(script[0].event.msg));
        }
    }
  }

  // ---------- What the discipline says about whole histories ----------

  /** Attempted choke changes alternate, starting with UNCHOKE. */
  lemma {:induction false} ChokeChangesAlternate(log: seq<Action>)
    requires Disciplined(log)
    ensures forall k :: 0 <= k < |ChokeChanges(log)| ==>
      ChokeChanges(log)[k] == if k % 2 == 0 then UNCHOKE else CHOKE
  {
    if log != [] {
      var earlier := log[..|log| - 1];
      forall i | 0 <= i < |earlier|
        ensures Allowed(earlier[..i], earlier[i])
      {
        assert earlier[..i] == log[..i];
      }
      ChokeChangesAlternate(earlier);
      assert Allowed(log[..|log| - 1], log[|log| - 1]);
    }
  }

  predicate IsSent(a: Action, code: byte) {
    a.Sent? && a.msg.code == code
  }

  predicate IsGot(a: Action, code: byte) {
    a.Got? && a.msg.code == code
  }

  lemma {:induction false} InterestStandsOrChoked(log: seq<Action>, i: nat, j: nat)
    requires i < j <= |log| && IsSent(log[i], INTERESTED)
    ensures InterestStands(log[..j]) || exists k :: i < k < j && IsGot(log[k], CHOKE)
    decreases j
  {
    assert log[..j][..j - 1] == log[..j - 1];
    if j - 1 > i {
      InterestStandsOrChoked(log, i, j - 1);
    }
  }

  /** Between an INTERESTED that was sent and the next one, a CHOKE was received. */
  lemma {:induction false} InterestedIsSeparatedByChoke(log: seq<Action>, i: nat, j: nat)
    requires Disciplined(log) && i < j < |log|
    requires IsSent(log[i], INTERESTED) && IsSent(log[j], INTERESTED)
    ensures exists k :: i < k < j && IsGot(log[k], CHOKE)
  {
    InterestStandsOrChoked(log, i, j);
    assert Allowed(log[..j], log[j]);
  }

  /** Whether an INTERESTED stood when the other side last stopped choking. */
  function InterestAtUnchoke(log: seq<Action>): bool {
    if log == [] then false
    else
      var last, before := log[|log| - 1], log[..|log| - 1];
      if IsGot(last, UNCHOKE) && ChokedByRemote(before) then InterestStands(before) else InterestAtUnchoke(before)
  }

  /** INTERESTED goes out only while choked: unchoked, nothing changes about it. */
  lemma {:induction false} InterestSettledAtUnchoke(log: seq<Action>)
    requires Disciplined(log) && !ChokedByRemote(log)
    ensures InterestStands(log) == InterestAtUnchoke(log)
  {
    var last, before := log[|log| - 1], log[..|log| - 1];
    assert Allowed(log[..|log| - 1], log[|log| - 1]);
    if !ChokedByRemote(before) {
      forall i | 0 <= i < |before|
        ensures Allowed(before[..i], before[i])
      {
        assert before[..i] == log[..i] && before[i] == log[i];
      }
      InterestSettledAtUnchoke(before);
    }
  }

  /** A REQUEST goes out without a standing INTERESTED exactly when none stood at the UNCHOKE that allows it: the peer
      unchoked us before an order made us interested. */
  lemma {:induction false} RequestWithoutInterestIff(log: seq<Action>, i: nat)
    requires Disciplined(log) && i < |log| && IsAttempt(log[i], REQUEST)
    ensures InterestStands(log[..i]) <==> InterestAtUnchoke(log[..i])
  {
    assert Allowed(log[..i], log[i]);
    forall j | 0 <= j < i
      ensures Allowed(log[..i][..j], log[..i][j])
    {
      assert log[..i][..j] == log[..j];
    }
    InterestSettledAtUnchoke(log[..i]);
  }

  /** Discipline of a connection over any run: any messages from the other side, any write failures, any
      choke ticks, orders and pieces. */
  lemma {:induction false} EveryRunIsDisciplined(id: string, script: seq<Surroundings>, c: Config)
    requires RunLoop(Connected(id), script, c).Ok?
    ensures var log := RunLoop(Connected(id), script, c).value.log;
      && Disciplined(log)
      && (forall k :: 0 <= k < |ChokeChanges(log)| ==> ChokeChanges(log)[k] == if k % 2 == 0 then UNCHOKE else CHOKE)
      && (forall i :: 0 <= i < |log| && IsAttempt(log[i], REQUEST) ==> !ChokedByRemote(log[..i]))
      && (forall i, j :: 0 <= i < j < |log| && IsSent(log[i], INTERESTED) && IsSent(log[j], INTERESTED) ==>
            exists k :: i < k < j && IsGot(log[k], CHOKE))
  {
    RunAgrees(Connected(id), script, c);
    var log := RunLoop(Connected(id), script, c).value.log;
    ChokeChangesAlternate(log);
    forall i, j | 0 <= i < j < |log| && IsSent(log[i], INTERESTED) && IsSent(log[j], INTERESTED)
      ensures exists k :: i < k < j && IsGot(log[k], CHOKE)
    {
      InterestedIsSeparatedByChoke(log, i, j);
    }
  }

  // ---------- Requests without interest ----------

  /** Requests only are written, and at least one if there is one to write. */
  lemma {:induction false} RequestingWritesRequests(l: Loop, n: nat, net: Network)
    ensures var next := RequestUpTo(l, n, net).log;
      && l.log <= next
      && (forall i :: |l.log| <= i < |next| ==> IsAttempt(next[i], REQUEST))
      && (n > 0 && CanRequest(l.progress) ==> |l.log| < |next|)
    decreases n
  {
    if n > 0 && CanRequest(l.progress) && net(l.log) {
      RequestingWritesRequests(SendRequest(l, net), n - 1, net);
    }
  }

  /** A seeder's field, then an UNCHOKE, and only then an order. */
  function EarlyUnchoke(order: PieceOrder, numPieces: nat): seq<Surroundings> {
    [Surroundings([], None, Incoming(Message(BITFIELD, FullWire(numPieces)))),
     Surroundings([], None, Incoming(Message(UNCHOKE, []))),
     Surroundings([], Some(order), Incoming(KEEP_ALIVE))]
  }

  lemma {:induction false} RunOfThree(l: Loop, s: seq<Surroundings>, c: Config, l1: Loop, l2: Loop, l3: Loop)
    requires |s| == 3 && Iterate(l, s[0], c) == Ok(l1)
    requires Iterate(l1, s[1], c) == Ok(l2) && Iterate(l2, s[2], c) == Ok(l3)
    ensures RunLoop(l, s, c) == Ok(l3)
  {
    assert RunLoop(l3, s[3..], c) == Ok(l3);
    assert s[2..][1..] == s[3..] && RunLoop(l2, s[2..], c) == Ok(l3);
    assert s[1..][1..] == s[2..] && RunLoop(l1, s[1..], c) == Ok(l3);
  }

  lemma {:induction false} TakesTheOrder(l: Loop, order: PieceOrder, c: Config, l3: Loop)
    requires l.progress == NO_PROGRESS && l.peer.choking && !l.peer.chokedBy
    requires l.peer.bitfield.length == c.numPieces && l.peer.bitfield.Get(order.index) == Ok(true)
    requires l3 == FillRequests(l.(progress := Begin(NO_PROGRESS, order)), c.net)
    ensures Iterate(l, Surroundings([], Some(order), Incoming(KEEP_ALIVE)), c) == Ok(l3)
  {
    var s := Surroundings([], Some(order), Incoming(KEEP_ALIVE));
    assert Refresh(l, s, c) == Ok(l.(progress := Begin(NO_PROGRESS, order)));
    assert Prepare(l, s, c) == Ok(l3);
  }

  /** It happens: a peer that unchokes us before we have an order for it is asked for blocks, and never told that we
      are interested. */
  lemma {:induction false} RequestsWithoutInterest(id: string, order: PieceOrder, c: Config)
    requires order.index < c.numPieces && order.length > 0
    ensures var r := RunLoop(Connected(id), EarlyUnchoke(order, c.numPieces), c);
      && r.Ok? && (exists i :: 0 <= i < |r.value.log| && IsAttempt(r.value.log[i], REQUEST))
      && (forall i :: 0 <= i < |r.value.log| ==> !IsAttempt(r.value.log[i], INTERESTED))
  {
    var field, n := Message(BITFIELD, FullWire(c.numPieces)), c.numPieces;
    var script := EarlyUnchoke(order, n);
    FullWireHasAll(n, order.index);
    var l := Connected(id);
    var l1 := l.(peer := l.peer.(bitfield := Bits(n, FromWire(FullWire(n)))), log := l.log + [Got(field)]);
    var l2 := l1.(peer := l1.peer.(chokedBy := false), log := l1.log + [Got(Message(UNCHOKE, []))]);
    var taken := l2.(progress := Begin(NO_PROGRESS, order));
    var l3 := FillRequests(taken, c.net);
    assert Iterate(l, script[0], c) == Ok(l1);
    assert Iterate(l1, script[1], c) == Ok(l2);
    TakesTheOrder(l2, order, c, l3);
    RunOfThree(l, script, c, l1, l2, l3);
    RequestingWritesRequests(taken, PIPELINE_LENGTH, c.net);
    assert IsAttempt(l3.log[2], REQUEST);
  }
}

/** What is known of the other side adds up with what it sent. */
module Acquaintance {
  import opened Types
  import opened BigEndian
  import opened Sums
  import opened Bitfields
  import opened PeerProtocol
  import opened Assembly
  import opened PeerLoop
  import Discipline

  /** BITFIELD exchange: a field is taken exactly when it has `ceil(n / 8)` bytes, and then every index reads as it
      does at the sender, and orders can be taken. */
  lemma {:induction false} BitfieldExchange(l: Loop, field: seq<bv8>, numPieces: nat)
    ensures var r := HandleMessage(l, Message(BITFIELD, ToWire(field)), numPieces);
      && (r.Ok? <==> |field| == BytesFor(numPieces)) && !r.Panic?
      && (r.Ok? ==>
            && (forall i: nat :: r.value.peer.bitfield.Get(i) == Bits(numPieces, field).Get(i))
            && (forall i: nat :: i < numPieces ==> r.value.peer.bitfield.Get(i).Ok?)
            && (WantsOrder(r.value, numPieces) <==> l.progress.order.None?))
  {
    FieldSurvivesTheWire(field);
  }

  /** The counter of a peer is the number of bytes of the pieces it gave us, modulo 2^32. */
  ghost predicate Counted(l: Loop) {
    Inv(l.progress) && l.peer.downloaded == Sum(Lengths(), l.finished) % TWO_TO_THE_32
  }

  lemma {:induction false} AddingWraps(total: nat, more: nat)
    ensures (total % TWO_TO_THE_32 + more) % TWO_TO_THE_32 == (total + more) % TWO_TO_THE_32
  {
  }

  lemma {:induction false} CompleteKeepsCounted(l: Loop, sha1: HashFunction, net: Network)
    requires Counted(l)
    ensures Counted(CompletePiece(l, sha1, net))
  {
    CompleteKeepsInv(l, sha1, net);
    var p := l.progress;
    if p.order.Some? && p.numDone == p.order.value.length {
      var piece := Piece(p.order.value.index, p.order.value.length, p.buf, l.peer.id);
      SumConcat(Lengths(), l.finished, [piece]);
      assert [piece][1..] == [];
      AddingWraps(Sum(Lengths(), l.finished), p.numDone);
    }
  }

  lemma {:induction false} AskKeepsCount(l: Loop, net: Network)
    ensures Ask(l, net).finished == l.finished && Ask(l, net).peer.downloaded == l.peer.downloaded
  {
    var l1 := SendInterested(l, net);
    if |l1.progress.requests| < PIPELINE_LENGTH {
      RequestingKeepsTheRest(l1, PIPELINE_LENGTH - |l1.progress.requests|, net);
    }
  }

  lemma {:induction false} AskKeepsCounted(l: Loop, net: Network)
    requires Counted(l)
    ensures Counted(Ask(l, net))
  {
    AskKeepsInv(l, net);
    AskKeepsCount(l, net);
  }

  lemma {:induction false} RefreshKeepsCounted(l: Loop, s: Surroundings, c: Config)
    requires Counted(l) && Refresh(l, s, c).Ok?
    ensures Counted(Refresh(l, s, c).value)
  {
    RefreshKeepsInv(l, s, c);
    CompleteKeepsCounted(UploadChunk(l, s.pieces, c.net).value, c.sha1, c.net);
  }

  lemma {:induction false} MessageKeepsCount(l: Loop, msg: PeerMessage, numPieces: nat)
    requires HandleMessage(l, msg, numPieces).Ok?
    ensures var next := HandleMessage(l, msg, numPieces).value;
      next.finished == l.finished && next.peer.downloaded == l.peer.downloaded
  {
  }

  lemma {:induction false} EventKeepsCounted(l: Loop, event: Event, c: Config)
    requires Counted(l) && HandleEvent(l, event, c).Ok?
    ensures Counted(HandleEvent(l, event, c).value)
  {
    match event
    case Incoming(msg) =>
      if !msg.keepAlive {
        HandleMessageKeepsInv(l, msg, c.numPieces);
        MessageKeepsCount(l, msg, c.numPieces);
      }
    case UnchokeTick(_) =>
  }

  /** Over any run the counter is the sum of the lengths of the pieces handed over, modulo 2^32. */
  lemma {:induction false} RunKeepsCounted(l: Loop, script: seq<Surroundings>, c: Config)
    requires Counted(l) && RunLoop(l, script, c).Ok?
    ensures Counted(RunLoop(l, script, c).value)
    decreases script
  {
    if script != [] {
      RefreshKeepsCounted(l, script[0], c);
      AskKeepsCounted(Refresh(l, script[0], c).value, c.net);
      EventKeepsCounted(Prepare(l, script[0], c).value, script[0].event, c);
      RunKeepsCounted(Iterate(l, script[0], c).value, script[1..], c);
    }
  }

  // ---------- What the main loop is told ----------

  function NoticeOf(id: string, msg: PeerMessage): seq<Notice> {
    if msg.code == INTERESTED then [Interest(id, true)]
    else if msg.code == NOT_INTERESTED then [Interest(id, false)]
    else if msg.code == HAVE && |msg.data| >= 4 then [Uploaded(Uint32(msg.data))]
    else []
  }

  function NoticesOf(id: string, log: seq<Action>): seq<Notice> {
    if log == [] then []
    else
      var last := log[|log| - 1];
      NoticesOf(id, log[..|log| - 1]) + (if last.Got? then NoticeOf(id, last.msg) else [])
  }

  ghost predicate Told(l: Loop, id: string) {
    l.peer.id == id && l.notices == NoticesOf(id, l.log)
  }

  lemma {:induction false} NoticesAppend(id: string, log: seq<Action>, a: Action)
    ensures NoticesOf(id, log + [a]) == NoticesOf(id, log) + (if a.Got? then NoticeOf(id, a.msg) else [])
  {
    assert (log + [a])[..|log|] == log;
  }

  lemma {:induction false} SendKeepsTold(l: Loop, msg: PeerMessage, net: Network, next: Loop, id: string)
    requires Told(l, id) && next.peer.id == id && next.notices == l.notices && next.log == Send(l, msg, net).log
    ensures Told(next, id)
  {
    NoticesAppend(id, l.log, if net(l.log) then Sent(msg) else SendFailed(msg));
  }

  lemma {:induction false} RequestsKeepTold(l: Loop, n: nat, net: Network, id: string)
    requires Told(l, id)
    ensures Told(RequestUpTo(l, n, net), id)
    decreases n
  {
    if n > 0 && CanRequest(l.progress) {
      SendKeepsTold(l, NextRequestMessage(l.progress), net, Send(l, NextRequestMessage(l.progress), net), id);
      if net(l.log) {
        SendKeepsTold(l, NextRequestMessage(l.progress), net, SendRequest(l, net), id);
        RequestsKeepTold(SendRequest(l, net), n - 1, net, id);
      }
    }
  }

  lemma {:induction false} AskKeepsTold(l: Loop, net: Network, id: string)
    requires Told(l, id)
    ensures Told(Ask(l, net), id)
  {
    var l1 := SendInterested(l, net);
    if l1 != l {
      SendKeepsTold(l, Message(INTERESTED, []), net, l1, id);
    }
    if |l1.progress.requests| < PIPELINE_LENGTH {
      RequestsKeepTold(l1, PIPELINE_LENGTH - |l1.progress.requests|, net, id);
    }
  }

  lemma {:induction false} UploadKeepsTold(l: Loop, pieces: seq<Option<Piece>>, net: Network, id: string)
    requires Told(l, id) && UploadChunk(l, pieces, net).Ok?
    ensures Told(UploadChunk(l, pieces, net).value, id)
  {
    var chunk := ChunkToSend(l, pieces).value;
    if chunk.Some? {
      SendKeepsTold(l, chunk.value, net, SendChunk(l, chunk.value, net), id);
    }
  }

  lemma {:induction false} CompleteKeepsTold(l: Loop, sha1: HashFunction, net: Network, id: string)
    requires Told(l, id)
    ensures Told(CompletePiece(l, sha1, net), id)
  {
    var p := l.progress;
    if p.order.Some? && p.numDone == p.order.value.length && sha1(p.buf) == p.order.value.hash {
      SendKeepsTold(l, Message(HAVE, PutUint32(p.order.value.index)), net, CompletePiece(l, sha1, net), id);
    }
  }

  lemma {:induction false} GetPieceKeepsTold(l: Loop, numPieces: nat, offer: Option<PieceOrder>, id: string)
    requires Told(l, id) && GetPiece(l, numPieces, offer).Ok?
    ensures Told(GetPiece(l, numPieces, offer).value, id)
  {
  }

  lemma {:induction false} RefreshKeepsTold(l: Loop, s: Surroundings, c: Config, id: string)
    requires Told(l, id) && Refresh(l, s, c).Ok?
    ensures Told(Refresh(l, s, c).value, id)
  {
    UploadKeepsTold(l, s.pieces, c.net, id);
    var l1 := UploadChunk(l, s.pieces, c.net).value;
    CompleteKeepsTold(l1, c.sha1, c.net, id);
    GetPieceKeepsTold(CompletePiece(l1, c.sha1, c.net), c.numPieces, s.offer, id);
  }

  lemma {:induction false} HandlingTells(l: Loop, msg: PeerMessage, numPieces: nat)
    requires HandleMessage(l, msg, numPieces).Ok?
    ensures var next := HandleMessage(l, msg, numPieces).value;
      && next.notices == l.notices + NoticeOf(l.peer.id, msg)
      && next.peer.id == l.peer.id && next.log == l.log + [Got(msg)]
  {
    assert l.notices + [] == l.notices;
  }

  lemma {:induction false} MessageIsTold(l: Loop, msg: PeerMessage, numPieces: nat, id: string)
    requires Told(l, id) && HandleMessage(l, msg, numPieces).Ok?
    ensures Told(HandleMessage(l, msg, numPieces).value, id)
  {
    HandlingTells(l, msg, numPieces);
    NoticesAppend(id, l.log, Got(msg));
  }

  lemma {:induction false} EventIsTold(l: Loop, event: Event, c: Config, id: string)
    requires Told(l, id) && HandleEvent(l, event, c).Ok?
    ensures Told(HandleEvent(l, event, c).value, id)
  {
    match event
    case Incoming(msg) => if !msg.keepAlive { MessageIsTold(l, msg, c.numPieces, id); }
    case UnchokeTick(ids) =>
      var choke := l.peer.id !in ids;
      if choke != l.peer.choking {
        SendKeepsTold(l, Message(if choke then CHOKE else UNCHOKE, []), c.net, SetChoking(l, choke, c.net), id);
      }
  }

  lemma {:induction false} RunKeepsTold(l: Loop, script: seq<Surroundings>, c: Config, id: string)
    requires Told(l, id) && RunLoop(l, script, c).Ok?
    ensures Told(RunLoop(l, script, c).value, id)
    decreases script
  {
    if script != [] {
      RefreshKeepsTold(l, script[0], c, id);
      AskKeepsTold(Refresh(l, script[0], c).value, c.net, id);
      EventIsTold(Prepare(l, script[0], c).value, script[0].event, c, id);
      RunKeepsTold(Iterate(l, script[0], c).value, script[1..], c, id);
    }
  }

  /** Whether the last notice of interest says that the peer is interested: what the main loop has in its map
      (client/client.go:184-185). */
  function LastInterest(notices: seq<Notice>): bool {
    if notices == [] then false
    else
      var last := notices[|notices| - 1];
      if last.Interest? then last.isInterested else LastInterest(notices[..|notices| - 1])
  }

  lemma {:induction false} LastInterestAppend(notices: seq<Notice>, n: Notice)
    ensures LastInterest(notices + [n]) == if n.Interest? then n.isInterested else LastInterest(notices)
  {
    assert (notices + [n])[..|notices|] == notices;
  }

  lemma {:induction false} LastInterestOf(notices: seq<Notice>, id: string, msg: PeerMessage)
    ensures LastInterest(notices + NoticeOf(id, msg)) ==
      if msg.code == INTERESTED then true else if msg.code == NOT_INTERESTED then false else LastInterest(notices)
  {
    if NoticeOf(id, msg) == [] {
      assert notices + [] == notices;
    } else {
      LastInterestAppend(notices, NoticeOf(id, msg)[0]);
    }
  }

  lemma {:induction false} InterestIsTold(id: string, log: seq<Action>)
    ensures LastInterest(NoticesOf(id, log)) == Discipline.RemoteInterested(log)
  {
    if log != [] {
      var last, before := log[|log| - 1], NoticesOf(id, log[..|log| - 1]);
      InterestIsTold(id, log[..|log| - 1]);
      match last
      case Got(msg) => LastInterestOf(before, id, msg);
      case _ => assert before + [] == before;
    }
  }

  /** Over any run the main loop is told exactly what the messages received say, in order; the interest it was last
      told of is the flag of the peer record. */
  lemma {:induction false} MainLoopIsTold(id: string, script: seq<Surroundings>, c: Config)
    requires RunLoop(Connected(id), script, c).Ok?
    ensures var l := RunLoop(Connected(id), script, c).value;
      l.notices == NoticesOf(id, l.log) && LastInterest(l.notices) == l.peer.interested
  {
    RunKeepsTold(Connected(id), script, c, id);
    Discipline.RunAgrees(Connected(id), script, c);
    InterestIsTold(id, RunLoop(Connected(id), script, c).value.log);
  }
}
