/** The variables of one connection, changed in place as client/peer.go and client/types.go change them. Every method
    is the corresponding function of module PeerLoop or Assembly. */
module Connections {
  import opened Types
  import opened BigEndian
  import opened Bitfields
  import opened PeerProtocol
  import opened Assembly
  import PeerLoop
  import Discipline

  lemma {:induction false} RequestUpToStep(l: PeerLoop.Loop, n: nat, net: PeerLoop.Network)
    requires n > 0
    ensures PeerLoop.RequestUpTo(l, n, net) ==
      if !CanRequest(l.progress) then l
      else if net(l.log) then PeerLoop.RequestUpTo(PeerLoop.SendRequest(l, net), n - 1, net)
      else PeerLoop.Send(l, PeerLoop.NextRequestMessage(l.progress), net)
  {
  }

  class PieceProgress {
    var order: Option<PieceOrder>
    var buf: array<byte>
    var numDone: nat
    var requests: seq<Request>
    var nextToRequest: nat
    ghost var accepted: seq<Chunk>

    ghost function Value(): Progress
      reads this, buf
    {
      Progress(order, buf[..], numDone, requests, nextToRequest, accepted)
    }

    constructor ()
      ensures Value() == NO_PROGRESS && fresh(buf)
    {
      order, buf, numDone, requests, nextToRequest := None, new byte[0], 0, [], 0;
      accepted := [];
    }

    /** `progress = pieceProgress{}` */
    method Reset()
      modifies this
      ensures Value() == NO_PROGRESS && fresh(buf)
    {
      order, buf, numDone, requests, nextToRequest := None, new byte[0], 0, [], 0;
      accepted := [];
    }

    method Begin(o: PieceOrder)
      modifies this
      ensures Value() == Assembly.Begin(old(Value()), o) && fresh(buf)
    {
      order := Some(o);
      buf := new byte[o.length](_ => 0);
      assert buf[..] == Zeros(o.length);
    }

    /** The request that was written is noted. */
    method Issue(r: Request)
      requires CanRequest(Value()) && r == NextRequest(Value())
      modifies this`requests, this`nextToRequest
      ensures Value() == Assembly.Issue(old(Value()))
    {
      requests := requests + [r];
      nextToRequest := r.start + CHUNK_SIZE;
    }

    method DeleteRequest(start: nat, length: nat) returns (ok: bool)
      modifies this`requests
      ensures var i := FindRequest(old(requests), start, length);
        && ok == (i < |old(requests)|)
        && requests == if ok then SwapRemove(old(requests), i) else old(requests)
    {
      for i := 0 to |requests|
        invariant requests == old(requests)
        invariant FindRequest(requests, start, length) == i + FindRequest(requests[i..], start, length)
      {
        var r := requests[i];
        if r.start == start && r.length == length {
          var last := requests[|requests| - 1];
          requests := requests[i := last];
          requests := requests[..|requests| - 1];
          return true;
        }
        assert requests[i..][1..] == requests[i + 1..];
      }
      return false;
    }

    /** The PIECE case of `handleMessage` (client/peer.go:398-409). */
    method AcceptBlock(index: nat, begin: nat, block: seq<byte>) returns (r: Outcome<()>)
      modifies this`requests, this`numDone, this`accepted, buf
      ensures match Accept(old(Value()), index, begin, block)
        case Ok(p) => r == Ok(()) && Value() == p
        case Err => r == Err
        case Panic => r == Panic
    {
      if order.None? {
        return Panic;
      }
      if index != order.value.index {
        return Err;
      }
      var found := DeleteRequest(begin, |block|);
      if !found {
        return Err;
      }
      numDone := numDone + |block|;
      if begin + |block| > buf.Length {
        return Err;
      }
      forall k | 0 <= k < |block| {
        buf[begin + k] := block[k];
      }
      accepted := accepted + [Chunk(begin, block)];
      assert buf[..] == Overwrite(old(buf[..]), begin, block);
      return Ok(());
    }
  }

  class Connection {
    var peer: PeerLoop.Peer
    const progress: PieceProgress
    var requested: seq<Request>
    var log: seq<PeerLoop.Action>
    var returned: seq<PieceOrder>
    var finished: seq<Piece>
    var notices: seq<PeerLoop.Notice>

    ghost function Value(): PeerLoop.Loop
      reads this, progress, progress.buf
    {
      PeerLoop.Loop(peer, progress.Value(), requested, log, returned, finished, notices)
    }

    constructor (id: string)
      ensures Value() == PeerLoop.Connected(id) && fresh(progress) && fresh(progress.buf)
    {
      peer := PeerLoop.Peer(id, 0, true, true, false, false, Bits(0, []));
      progress := new PieceProgress();
      requested, log, returned, finished, notices := [], [], [], [], [];
    }

    /** `conn.Write` of a serialized message. */
    method Write(msg: PeerMessage, net: PeerLoop.Network) returns (ok: bool)
      modifies this`log
      ensures ok == net(old(log))
      ensures Value() == PeerLoop.Send(old(Value()), msg, net)
    {
      ok := net(log);
      log := log + [if ok then PeerLoop.Sent(msg) else PeerLoop.SendFailed(msg)];
    }

    method UploadChunk(pieces: seq<Option<Piece>>, net: PeerLoop.Network) returns (r: Outcome<()>)
      modifies this`requested, this`log
      ensures match PeerLoop.UploadChunk(old(Value()), pieces, net)
        case Ok(l) => r == Ok(()) && Value() == l
        case Err => r == Err
        case Panic => r == Panic
    {
      if peer.choking || !peer.interested || |requested| == 0 {
        return Ok(());
      }
      var first := requested[0];
      if first.index >= |pieces| {
        return Ok(());
      }
      if pieces[first.index].None? {
        return Panic;
      }
      var data := pieces[first.index].value.data;
      if first.start + first.length > |data| {
        return Ok(());
      }
      var msg := PieceMessage(first.index, first.start, data[first.start..first.start + first.length]);
      var frame := SerializeMessage(msg);
      match frame
      case Panic => return Panic;
      case Err => return Ok(());
      case Ok(_) =>
        var sent := Write(msg, net);
        if sent {
          requested := requested[0 := requested[|requested| - 1]];
          requested := requested[..|requested| - 1];
        }
        return Ok(());
    }

    method CompletePiece(sha1: HashFunction, net: PeerLoop.Network)
      modifies this, progress
      ensures Value() == PeerLoop.CompletePiece(old(Value()), sha1, net)
      ensures progress.buf == old(progress.buf) || fresh(progress.buf)
    {
      if progress.order.None? || progress.numDone != progress.order.value.length {
        return;
      }
      var order := progress.order.value;
      if sha1(progress.buf[..]) != order.hash {
        returned := returned + [order];
        progress.Reset();
        return;
      }
      var sent := Write(Message(HAVE, PutUint32(order.index)), net);
      if !sent {
        return;
      }
      finished := finished + [Piece(order.index, order.length, progress.buf[..], peer.id)];
      peer := peer.(downloaded := (peer.downloaded + progress.numDone) % TWO_TO_THE_32);
      progress.Reset();
    }

    method GetPiece(numPieces: nat, offer: Option<PieceOrder>) returns (r: Outcome<()>)
      modifies this`returned, progress
      ensures match PeerLoop.GetPiece(old(Value()), numPieces, offer)
        case Ok(l) => r == Ok(()) && Value() == l
        case Err => r == Err
        case Panic => r == Panic
      ensures progress.buf == old(progress.buf) || fresh(progress.buf)
    {
      if progress.order.Some? || peer.bitfield.length != numPieces || offer.None? {
        return Ok(());
      }
      var got := peer.bitfield.Get(offer.value.index);
      match got
      case Panic => return Panic;
      case Err =>
        returned := returned + [offer.value];
        return Ok(());
      case Ok(has) =>
        if has {
          progress.Begin(offer.value);
        } else {
          returned := returned + [offer.value];
        }
        return Ok(());
    }

    method SendInterested(net: PeerLoop.Network)
      modifies this`peer, this`log
      ensures Value() == PeerLoop.SendInterested(old(Value()), net)
    {
      if progress.order.Some? && peer.chokedBy && !peer.interestedSent {
        var sent := Write(Message(INTERESTED, []), net);
        if sent {
          peer := peer.(interestedSent := true);
        }
      }
    }

    method FillRequests(net: PeerLoop.Network)
      modifies this`log, progress`requests, progress`nextToRequest
      ensures Value() == PeerLoop.FillRequests(old(Value()), net)
    {
      if progress.order.None? || peer.chokedBy || |progress.requests| >= PIPELINE_LENGTH {
        return;
      }
      var numberToSend := PIPELINE_LENGTH - |progress.requests|;
      ghost var goal := PeerLoop.RequestUpTo(Value(), numberToSend, net);
      for i := 0 to numberToSend
        invariant progress.order == old(progress.order) && progress.order.Some?
        invariant PeerLoop.RequestUpTo(Value(), numberToSend - i, net) == goal
      {
        RequestUpToStep(Value(), numberToSend - i, net);
        var more := RequestNext(net);
        if !more {
          return;
        }
      }
    }

    /** The body of the request loop: false when the piece is all requested or the write fails. */
    method RequestNext(net: PeerLoop.Network) returns (more: bool)
      requires progress.order.Some?
      modifies this`log, progress`requests, progress`nextToRequest
      ensures more == (CanRequest(old(progress.Value())) && net(old(log)))
      ensures Value() == (
        if more then PeerLoop.SendRequest(old(Value()), net)
        else if CanRequest(old(progress.Value())) then
          PeerLoop.Send(old(Value()), PeerLoop.NextRequestMessage(old(progress.Value())), net)
        else old(Value()))
    {
      if progress.nextToRequest >= progress.order.value.length {
        return false;
      }
      var length := Min(CHUNK_SIZE, progress.order.value.length - progress.nextToRequest);
      var next := Request(progress.order.value.index, progress.nextToRequest, length);
      more := Write(RequestMessage(next.index, next.start, next.length), net);
      if more {
        progress.Issue(next);
      }
    }

    method HandleMessage(msg: PeerMessage, numPieces: nat) returns (r: Outcome<()>)
      modifies this`peer, this`requested, this`log, this`notices, progress, progress.buf
      ensures match PeerLoop.HandleMessage(old(Value()), msg, numPieces)
        case Ok(l) => r == Ok(()) && Value() == l
        case Err => r == Err
        case Panic => r == Panic
      ensures log == old(log) + [PeerLoop.Got(msg)]
      ensures r.Err? ==> peer.id == old(peer.id) && notices == old(notices) && progress.order == old(progress.order)
      ensures progress.buf == old(progress.buf)
    {
      log := log + [PeerLoop.Got(msg)];
      if msg.code == CHOKE {
        peer := peer.(chokedBy := true, interestedSent := false);
      } else if msg.code == UNCHOKE {
        peer := peer.(chokedBy := false);
      } else if msg.code == INTERESTED {
        peer := peer.(interested := true);
        notices := notices + [PeerLoop.Interest(peer.id, true)];
      } else if msg.code == NOT_INTERESTED {
        peer := peer.(interested := false);
        notices := notices + [PeerLoop.Interest(peer.id, false)];
      } else if msg.code == HAVE {
        if |msg.data| < 4 {
          return Panic;
        }
        notices := notices + [PeerLoop.Uploaded(Uint32(msg.data))];
      } else if msg.code == BITFIELD {
        var expectedLength := numPieces / 8;
        if numPieces % 8 > 0 {
          expectedLength := expectedLength + 1;
        }
        if |msg.data| != expectedLength {
          return Err;
        }
        peer := peer.(bitfield := Bits(numPieces, FromWire(msg.data)));
      } else if msg.code == REQUEST {
        var parsed := DeserializeRequestMsg(msg);
        if !parsed.Ok? {
          return Err;
        }
        var (index, begin, length) := parsed.value;
        requested := requested + [Request(index, begin, length)];
      } else if msg.code == PIECE {
        var parsed := DeserializePieceMsg(msg);
        if !parsed.Ok? {
          return Err;
        }
        var (index, begin, block) := parsed.value;
        r := progress.AcceptBlock(index, begin, block);
        return;
      }
      return Ok(());
    }

    method SetChoking(choke: bool, net: PeerLoop.Network)
      modifies this`peer, this`log
      ensures Value() == PeerLoop.SetChoking(old(Value()), choke, net)
    {
      if choke != peer.choking {
        var _ := Write(Message(if choke then CHOKE else UNCHOKE, []), net);
      }
      peer := peer.(choking := choke);
    }

    /** The loop body down to line 140. */
    method Prepare(s: PeerLoop.Surroundings, c: PeerLoop.Config) returns (r: Outcome<()>)
      modifies this, progress
      ensures match PeerLoop.Prepare(old(Value()), s, c)
        case Ok(l) => r == Ok(()) && Value() == l
        case Err => r == Err
        case Panic => r == Panic
      ensures progress.buf == old(progress.buf) || fresh(progress.buf)
    {
      r := UploadChunk(s.pieces, c.net);
      if !r.Ok? {
        return;
      }
      CompletePiece(c.sha1, c.net);
      r := GetPiece(c.numPieces, s.offer);
      if !r.Ok? {
        return;
      }
      assert PeerLoop.Refresh(old(Value()), s, c) == Ok(Value());
      SendInterested(c.net);
      FillRequests(c.net);
    }

    method IsIncluded(ids: seq<string>) returns (peerIncluded: bool)
      ensures peerIncluded <==> peer.id in ids
    {
      for i := 0 to |ids|
        invariant peer.id !in ids[..i]
      {
        if ids[i] == peer.id {
          return true;
        }
      }
      return false;
    }

    method HandleEvent(event: PeerLoop.Event, c: PeerLoop.Config) returns (r: Outcome<()>)
      modifies this`peer, this`requested, this`log, this`notices, progress, progress.buf
      ensures match PeerLoop.HandleEvent(old(Value()), event, c)
        case Ok(l) => r == Ok(()) && Value() == l
        case Err => r == Err
        case Panic => r == Panic
      ensures r.Err? ==>
        && event.Incoming? && log == old(log) + [PeerLoop.Got(event.msg)]
        && peer.id == old(peer.id) && notices == old(notices) && progress.order == old(progress.order)
      ensures progress.buf == old(progress.buf)
    {
      match event
      case Incoming(msg) =>
        if msg.keepAlive {
          return Ok(());
        }
        r := HandleMessage(msg, c.numPieces);
      case UnchokeTick(ids) =>
        var peerIncluded := IsIncluded(ids);
        SetChoking(!peerIncluded, c.net);
        return Ok(());
    }

    /** What is left of `l` when an event has been refused: the connection is closed then, and only the history, the
        channels and the order still matter. */
    ghost predicate IsRefusal(l: PeerLoop.Loop, event: PeerLoop.Event)
      reads this, progress
    {
      && event.Incoming? && log == l.log + [PeerLoop.Got(event.msg)] && peer.id == l.peer.id
      && returned == l.returned && finished == l.finished && notices == l.notices && progress.order == l.progress.order
    }

    /** One pass of the loop: the five parts in order, then one event. */
    method Iterate(s: PeerLoop.Surroundings, c: PeerLoop.Config) returns (r: Outcome<()>)
      modifies this, progress, progress.buf
      ensures match PeerLoop.Iterate(old(Value()), s, c)
        case Ok(l) => r == Ok(()) && Value() == l
        case Err => r == Err
        case Panic => r == Panic
      ensures r.Err? ==>
        PeerLoop.Prepare(old(Value()), s, c).Ok? && IsRefusal(PeerLoop.Prepare(old(Value()), s, c).value, s.event)
      ensures progress.buf == old(progress.buf) || fresh(progress.buf)
    {
      PeerLoop.PrepareNeverErrs(Value(), s, c);
      r := Prepare(s, c);
      if r.Ok? {
        r := HandleEvent(s.event, c);
      }
    }

    /** What a connection that has ended leaves. */
    ghost function EndValue(regular: bool): PeerLoop.End
      reads this, progress
    {
      PeerLoop.End(returned, finished, notices, log, if regular then None else progress.order)
    }

    /** `communicationLoop` with its exits: regular when its surroundings end it, by an error after a message that it
        refuses. The loop does in place what `Life` and `RunLoop` say. A connection that started well leaves a
        disciplined history, and until a regular end its piece stays tiled. */
    method CommunicationLoop(script: seq<PeerLoop.Surroundings>, c: PeerLoop.Config)
      returns (r: Outcome<()>, regular: bool)
      modifies this, progress, progress.buf
      ensures match PeerLoop.Life(old(Value()), script, c)
        case Ok(end) => r.Ok? && EndValue(regular) == end
        case Err => false
        case Panic => r.Panic?
      ensures regular <==> PeerLoop.RunLoop(old(Value()), script, c).Ok?
      ensures regular ==> Value() == PeerLoop.Leave(PeerLoop.RunLoop(old(Value()), script, c).value)
      ensures regular && Inv(old(progress.Value())) ==> Inv(progress.Value())
      ensures r.Ok? && Discipline.Agrees(old(Value())) ==> Discipline.Disciplined(log)
    {
      r, regular := Ok(()), false;
      ghost var before := Value();
      ghost var goal := PeerLoop.RunLoop(before, script, c);
      ghost var life := PeerLoop.Life(before, script, c);
      if Inv(before.progress) {
        PeerLoop.RunKeepsProgressInv(before, script, c);
      }
      PeerLoop.LifeOfRun(before, script, c);
      if Discipline.Agrees(before) && life.Ok? {
        Discipline.LifeIsDisciplined(before, script, c);
      }
      assert script[0..] == script;
      for i := 0 to |script|
        invariant r == Ok(()) && PeerLoop.RunLoop(Value(), script[i..], c) == goal
        invariant PeerLoop.Life(Value(), script[i..], c) == life
        invariant progress.buf == old(progress.buf) || fresh(progress.buf)
      {
        assert script[i..][0] == script[i] && script[i..][1..] == script[i + 1..];
        PeerLoop.PrepareNeverErrs(Value(), script[i], c);
        r := Iterate(script[i], c);
        if r.Panic? {
          return;
        }
        if r.Err? {
          notices := notices + [PeerLoop.Ended(peer.id)];
          r := Ok(());
          return;
        }
      }
      regular := true;
      Leave();
    }

    /** The regular exits. */
    method Leave()
      modifies this`returned, this`notices
      ensures Value() == PeerLoop.Leave(old(Value()))
    {
      if progress.order.Some? {
        returned := returned + [progress.order.value];
      }
      notices := notices + [PeerLoop.Ended(peer.id)];
    }
  }
}
