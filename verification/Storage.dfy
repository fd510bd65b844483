/** Pieces on disk: the record format of types/types.go, the part files of file/partial_file.go and the
    finished file of file/file.go. */
module Storage {
  import opened Types
  import opened BigEndian
  import opened Codec
  import opened Bitfields
  import PeerProtocol

  // ---------- Records ----------

  function Serialize(p: Piece): seq<byte> {
    PutUint32(p.index) + PutUint32(p.length) + p.data
  }

  datatype PieceRead = Found(piece: Piece, rest: seq<byte>) | AtEnd | Bad

  /** `Deserialize`: the header must be complete, but the data is what one `Read` gives, and the rest of the
      buffer stays zero. An end of file right after the header is an error. */
  function Deserialize(bytes: seq<byte>): PieceRead {
    if bytes == [] then AtEnd
    else if |bytes| < 8 then Bad
    else
      var index, length := Uint32(bytes[0..4]), Uint32(bytes[4..8]);
      var rest := bytes[8..];
      if length > 0 && rest == [] then Bad
      else
        var n := Min(length, |rest|);
        Found(Piece(index, length, rest[..n] + Zeros(length - n), ""), rest[n..])
  }

  function ParsePiece(bytes: seq<byte>): Parsed<Piece> {
    match Deserialize(bytes)
    case Found(p, rest) => Parsed(p, rest)
    case _ => NoParse
  }

  /** The pieces that come back from a record as they went in. Where a piece came from is not recorded. */
  predicate Storable(p: Piece) {
    FitsUint32(p.index) && FitsUint32(p.length) && p.length == |p.data| && p.downloadedFrom == ""
  }

  function Anonymous(p: Piece): Piece {
    p.(downloadedFrom := "")
  }

  lemma {:induction false} DeserializeRecord(p: Piece, more: seq<byte>)
    requires Storable(p)
    ensures Deserialize(Serialize(p) + more) == Found(p, more)
  {
    var bytes := Serialize(p) + more;
    PutThenGet(p.index);
    PutThenGet(p.length);
    assert bytes[0..4] == PutUint32(p.index) && bytes[4..8] == PutUint32(p.length);
    var rest := bytes[8..];
    assert rest == p.data + more;
    assert rest[..p.length] + Zeros(0) == p.data && rest[p.length..] == more;
  }

  lemma {:induction false} RecordsParse()
    ensures ParsesPrinted(Serialize, ParsePiece, Storable)
  {
    forall p, more | Storable(p)
      ensures ParsePiece(Serialize(p) + more) == Parsed(p, more)
    {
      DeserializeRecord(p, more);
    }
  }

  /** Exactly which bytes begin with this record, all of its data included. */
  lemma {:induction false} RecordIff(bytes: seq<byte>, p: Piece)
    requires Storable(p)
    ensures Serialize(p) <= bytes <==>
      && |bytes| >= 8 + |p.data| && HasValue(bytes[0..4], p.index) && HasValue(bytes[4..8], |p.data|)
      && bytes[8..8 + |p.data|] == p.data
  {
    var record, n := Serialize(p), 8 + |p.data|;
    assert record[0..4] == PutUint32(p.index) && record[4..8] == PutUint32(p.length) && record[8..n] == p.data;
    FieldHasValue(record[0..4], p.index);
    FieldHasValue(record[4..8], p.length);
    if |bytes| >= n {
      FieldHasValue(bytes[0..4], p.index);
      FieldHasValue(bytes[4..8], p.length);
      assert bytes[..n] == bytes[0..4] + bytes[4..8] + bytes[8..n];
      if Serialize(p) <= bytes {
        assert bytes[..n] == record;
        assert bytes[0..4] == record[0..4] && bytes[4..8] == record[4..8] && bytes[8..n] == record[8..n];
      }
    }
  }

  /** A record, byte by byte. */
  lemma {:induction false} RecordOnDisk()
    ensures Serialize(Piece(1, 2, [8, 9], "")) == [0, 0, 0, 1, 0, 0, 0, 2, 8, 9]
  {
    PutValue(1, [0, 0, 0, 1]);
    PutValue(2, [0, 0, 0, 2]);
  }

  // ---------- The part file ----------

  function Log(pieces: seq<Piece>): seq<byte> {
    PrintAll(Serialize, pieces)
  }

  /** `ReadPartialFile`: all the records, or an error if the file does not end where a record ends. */
  function ReadLog(bytes: seq<byte>): Outcome<seq<Piece>> {
    var s := ParseAll(ParsePiece, bytes);
    if s.tail == [] then Ok(s.values) else Err
  }

  predicate AllStorable(pieces: seq<Piece>) {
    forall p :: p in pieces ==> Storable(p)
  }

  /** Appending records to a readable log appends their pieces. */
  lemma {:induction false} LogRoundTrip(pieces: seq<Piece>)
    requires AllStorable(pieces)
    ensures ReadLog(Log(pieces)) == Ok(pieces)
  {
    RecordsParse();
    ParsePrintedPrefix(Serialize, ParsePiece, Storable, pieces, []);
    assert Log(pieces) + [] == Log(pieces);
    assert pieces + [] == pieces;
  }

  lemma {:induction false} LogAppend(pieces: seq<Piece>, p: Piece)
    ensures Log(pieces + [p]) == Log(pieces) + Serialize(p)
  {
    PrintAllConcat(Serialize, pieces, [p]);
    assert PrintAll(Serialize, [p][1..]) == [];
    assert Serialize(p) + [] == Serialize(p);
  }

  lemma {:induction false} HeaderOfRead(bytes: seq<byte>)
    requires |bytes| >= 8
    ensures PutUint32(Uint32(bytes[0..4])) + PutUint32(Uint32(bytes[4..8])) == bytes[..8]
    ensures FitsUint32(Uint32(bytes[0..4])) && FitsUint32(Uint32(bytes[4..8]))
  {
    GetThenPut(bytes[0..4]);
    GetThenPut(bytes[4..8]);
    assert bytes[..8] == bytes[0..4] + bytes[4..8];
  }

  /** One record, read back and written again: only a record cut short gains bytes, all of them zero. */
  lemma {:induction false} RecordOfRead(bytes: seq<byte>) returns (missing: nat)
    requires Deserialize(bytes).Found?
    ensures var r := Deserialize(bytes);
      && Storable(r.piece) && |r.rest| < |bytes|
      && Serialize(r.piece) + r.rest == bytes + Zeros(missing)
      && (missing > 0 ==> r.rest == [] && missing < r.piece.length)
  {
    var r := Deserialize(bytes);
    HeaderOfRead(bytes);
    var header, rest := bytes[..8], bytes[8..];
    var n := Min(r.piece.length, |rest|);
    missing := r.piece.length - n;
    assert bytes == header + rest;
    assert Serialize(r.piece) == header + (rest[..n] + Zeros(missing));
    if missing > 0 {
      assert rest[..n] == rest && r.rest == [];
      Assoc(header, rest, Zeros(missing));
    } else {
      assert rest[..n] + Zeros(0) + rest[n..] == rest;
      Assoc(header, rest[..n] + Zeros(0), rest[n..]);
    }
  }

  /** Whatever `ReadPartialFile` accepts is a log of the pieces it returns, except that the data of the very last
      record may be cut short, in which case the missing bytes were read as zeros. */
  lemma {:induction false} AcceptedIsLog(bytes: seq<byte>) returns (missing: nat)
    requires ReadLog(bytes).Ok?
    ensures var pieces := ReadLog(bytes).value;
      && AllStorable(pieces)
      && Log(pieces) == bytes + Zeros(missing)
      && (missing > 0 ==> pieces != [] && missing < pieces[|pieces| - 1].length)
    decreases |bytes|
  {
    if !Deserialize(bytes).Found? {
      missing := 0;
      assert bytes + Zeros(0) == bytes;
    } else {
      var r := Deserialize(bytes);
      var short := RecordOfRead(bytes);
      ParseAllStep(ParsePiece, bytes);
      var later := ReadLog(r.rest).value;
      assert ReadLog(bytes).value == [r.piece] + later && ([r.piece] + later)[1..] == later;
      missing := AcceptedIsLog(r.rest);
      Assoc(Serialize(r.piece), r.rest, Zeros(missing));
      if short > 0 {
        missing := short;
        assert ParseAll(ParsePiece, []).values == [];
        assert Serialize(r.piece) + [] == Serialize(r.piece);
      } else {
        assert bytes + Zeros(0) == bytes;
      }
    }
  }

  /** A record whose last `missing` bytes of data are cut off. */
  function CutRecord(p: Piece, missing: nat): seq<byte>
    requires missing <= |p.data|
  {
    PutUint32(p.index) + PutUint32(p.length) + p.data[..|p.data| - missing]
  }

  function WithZeros(p: Piece, missing: nat): Piece
    requires missing <= |p.data|
  {
    p.(data := p.data[..|p.data| - missing] + Zeros(missing))
  }

  /** As long as one byte of its data is there, a record cut short is read as a piece that ends in zeros. */
  lemma {:induction false} CutRecordReadsAsZeros(p: Piece, missing: nat)
    requires Storable(p) && 0 < missing < p.length
    ensures Deserialize(CutRecord(p, missing)) == Found(WithZeros(p, missing), [])
    ensures ReadLog(CutRecord(p, missing)) == Ok([WithZeros(p, missing)])
  {
    var bytes := CutRecord(p, missing);
    PutThenGet(p.index);
    PutThenGet(p.length);
    assert bytes[0..4] == PutUint32(p.index) && bytes[4..8] == PutUint32(p.length);
    var rest := bytes[8..];
    var n := |p.data| - missing;
    assert rest == p.data[..n] && rest[..n] == rest && rest[n..] == [];
    assert Deserialize(bytes) == Found(WithZeros(p, missing), []);
    ParseAllStep(ParsePiece, bytes);
    assert ParseAll(ParsePiece, []) == Stream([], []);
    assert [WithZeros(p, missing)] + [] == [WithZeros(p, missing)];
  }

  /** A part file whose last record is cut short by two zero bytes is accepted as if it were whole, and one whose
      last record is cut short by other bytes is accepted as another piece. */
  lemma {:induction false} CutFilesAreAccepted()
    ensures var p := Piece(0, 3, [7, 0, 0], "");
      && ReadLog(Log([p])[..9]) == Ok([p])
      && ReadLog(Log([p.(data := [7, 8, 9])])[..9]) == Ok([p])
  {
    var p := Piece(0, 3, [7, 0, 0], "");
    var q := p.(data := [7, 8, 9]);
    CutRecordReadsAsZeros(p, 2);
    CutRecordReadsAsZeros(q, 2);
    assert [p][1..] == [] && [q][1..] == [];
    assert Log([p])[..9] == CutRecord(p, 2) && WithZeros(p, 2) == p;
    assert Log([q])[..9] == CutRecord(q, 2) && WithZeros(q, 2) == p;
  }

  /** Nine bytes that promise three bytes of data and hold one. */
  lemma {:induction false} CutFileOnDisk()
    ensures ReadLog([0, 0, 0, 0, 0, 0, 0, 3, 7]) == Ok([Piece(0, 3, [7, 0, 0], "")])
  {
    var p := Piece(0, 3, [7, 0, 0], "");
    CutRecordReadsAsZeros(p, 2);
    PutValue(0, [0, 0, 0, 0]);
    PutValue(3, [0, 0, 0, 3]);
    assert CutRecord(p, 2) == [0, 0, 0, 0, 0, 0, 0, 3, 7] && WithZeros(p, 2) == p;
  }

  /** The bytes are the log of the pieces, or that log without some zeros at its very end, but with at least one byte
      of the last piece's data. */
  ghost predicate IsLogOrCut(bytes: seq<byte>, pieces: seq<Piece>, missing: nat) {
    && Log(pieces) == bytes + Zeros(missing)
    && (missing > 0 ==> pieces != [] && missing < pieces[|pieces| - 1].length)
  }

  lemma {:induction false} CutLast(bytes: seq<byte>, before: seq<byte>, last: Piece, missing: nat)
    requires before + Serialize(last) == bytes + Zeros(missing) && missing <= |last.data|
    ensures bytes == before + CutRecord(last, missing)
    ensures WithZeros(last, missing) == last
  {
    var whole := before + Serialize(last);
    var n := |last.data| - missing;
    assert whole[|bytes|..] == Zeros(missing);
    assert whole[|bytes|..] == last.data[n..];
    assert last.data == last.data[..n] + last.data[n..];
    assert whole[..|bytes|] == bytes;
    assert whole[..|bytes|] == before + CutRecord(last, missing);
  }

  lemma {:induction false} LogThenCut(before: seq<Piece>, last: Piece, missing: nat)
    requires AllStorable(before) && Storable(last) && 0 < missing < last.length
    ensures ReadLog(Log(before) + CutRecord(last, missing)) == Ok(before + [WithZeros(last, missing)])
  {
    CutRecordReadsAsZeros(last, missing);
    RecordsParse();
    ParsePrintedPrefix(Serialize, ParsePiece, Storable, before, CutRecord(last, missing));
  }

  lemma {:induction false} LogOfLast(pieces: seq<Piece>)
    requires pieces != []
    ensures Log(pieces) == Log(pieces[..|pieces| - 1]) + Serialize(pieces[|pieces| - 1])
  {
    assert pieces == pieces[..|pieces| - 1] + [pieces[|pieces| - 1]];
    LogAppend(pieces[..|pieces| - 1], pieces[|pieces| - 1]);
  }

  lemma {:induction false} CutLogReads(bytes: seq<byte>, pieces: seq<Piece>, missing: nat)
    requires AllStorable(pieces) && 0 < missing && IsLogOrCut(bytes, pieces, missing)
    ensures ReadLog(bytes) == Ok(pieces)
  {
    var before, last := pieces[..|pieces| - 1], pieces[|pieces| - 1];
    assert last in pieces && pieces == before + [last];
    LogOfLast(pieces);
    CutLast(bytes, Log(before), last, missing);
    LogThenCut(before, last, missing);
  }

  /** Exactly which part files are accepted, and as which pieces. */
  lemma {:induction false} ReadsAsIff(bytes: seq<byte>, pieces: seq<Piece>)
    ensures ReadLog(bytes) == Ok(pieces) <==>
      AllStorable(pieces) && exists missing :: IsLogOrCut(bytes, pieces, missing)
  {
    if ReadLog(bytes) == Ok(pieces) {
      var missing := AcceptedIsLog(bytes);
      assert IsLogOrCut(bytes, pieces, missing);
    }
    if AllStorable(pieces) && exists missing :: IsLogOrCut(bytes, pieces, missing) {
      var missing :| IsLogOrCut(bytes, pieces, missing);
      if missing == 0 {
        assert bytes + Zeros(0) == bytes;
        LogRoundTrip(pieces);
      } else {
        CutLogReads(bytes, pieces, missing);
      }
    }
  }

  // ---------- Writing part files ----------

  const PIECES_PER_PART := 1000

  /** `WritePartialFiles`: every piece that is not yet saved goes to the end of part `index / 1000`. */
  function WriteParts(parts: seq<seq<byte>>, pieces: seq<Option<Piece>>, saved: seq<bool>): (r: Outcome<seq<seq<byte>>>)
    ensures r.Ok? ==> |r.value| == |parts|
    decreases pieces
  {
    if pieces == [] then Ok(parts)
    else match pieces[0]
      case None => WriteParts(parts, pieces[1..], saved)
      case Some(p) =>
        if p.index >= |saved| then Err
        else if saved[p.index] then WriteParts(parts, pieces[1..], saved)
        else if p.index / PIECES_PER_PART >= |parts| then Err
        else
          var j := p.index / PIECES_PER_PART;
          WriteParts(parts[j := parts[j] + Serialize(p)], pieces[1..], saved)
  }

  // ---------- The finished file ----------

  /** `Save` panics on a missing piece and on one that is not in its own place. */
  function SaveFrom(pieces: seq<Option<Piece>>, i: nat): Outcome<seq<byte>>
    decreases |pieces| - i
  {
    if i >= |pieces| then Ok([])
    else if pieces[i].None? || pieces[i].value.index != i then Panic
    else match SaveFrom(pieces, i + 1)
      case Ok(later) => Ok(pieces[i].value.data + later)
      case Err => Err
      case Panic => Panic
  }

  /** `Read`: all pieces but the last have the given length, the last one takes the rest. */
  function ReadFrom(bytes: seq<byte>, i: nat, number: nat, pieceLength: nat): Outcome<seq<Piece>>
    requires i < number
    decreases number - i
  {
    if i == number - 1 then Ok([Piece(i, |bytes|, bytes, "local")])
    else if |bytes| < pieceLength then Err
    else match ReadFrom(bytes[pieceLength..], i + 1, number, pieceLength)
      case Ok(later) => Ok([Piece(i, pieceLength, bytes[..pieceLength], "local")] + later)
      case Err => Err
      case Panic => Panic
  }

  predicate IsPieceAt(p: Option<Piece>, i: nat, pieceLength: nat) {
    p.Some? && p.value.index == i && p.value.length == |p.value.data| == pieceLength
  }

  /** A saved file reads back as the pieces it was saved from. */
  lemma {:induction false} SaveThenRead(pieces: seq<Option<Piece>>, i: nat, pieceLength: nat)
    requires i < |pieces|
    requires forall k :: i <= k < |pieces| ==> IsPieceAt(pieces[k], k, pieceLength)
    ensures SaveFrom(pieces, i).Ok?
    ensures var r := ReadFrom(SaveFrom(pieces, i).value, i, |pieces|, pieceLength);
      && r.Ok? && |r.value| == |pieces| - i
      && forall k :: i <= k < |pieces| ==>
          pieces[k].Some? && r.value[k - i] == pieces[k].value.(downloadedFrom := "local")
    decreases |pieces| - i
  {
    if i == |pieces| - 1 {
      assert SaveFrom(pieces, i + 1) == Ok([]);
      assert pieces[i].value.data + [] == pieces[i].value.data;
    } else {
      SaveThenRead(pieces, i + 1, pieceLength);
      var later := SaveFrom(pieces, i + 1).value;
      var bytes := pieces[i].value.data + later;
      assert bytes[..pieceLength] == pieces[i].value.data && bytes[pieceLength..] == later;
    }
  }

  // ---------- Writes that fail ----------

  /** How many bytes the k-th write accepts of those offered; a write that accepts fewer is an error. */
  type Writer = (nat, nat) -> nat

  ghost predicate Reliable(w: Writer) {
    forall k, n :: w(k, n) >= n
  }

  datatype Saved = Saved(outcome: Outcome<()>, written: seq<byte>)

  function Prefixed(front: seq<byte>, r: Saved): Saved {
    Saved(r.outcome, front + r.written)
  }

  /** `Save` to a writer that may fail: what is written of the file. */
  function SaveTo(pieces: seq<Option<Piece>>, i: nat, w: Writer): Saved
    decreases |pieces| - i
  {
    if i >= |pieces| then Saved(Ok(()), [])
    else if pieces[i].None? || pieces[i].value.index != i then Saved(Panic, [])
    else
      var data := pieces[i].value.data;
      var n := w(i, |data|);
      if n < |data| then Saved(Err, data[..n]) else Prefixed(data, SaveTo(pieces, i + 1, w))
  }

  lemma {:induction false} SaveToReliable(pieces: seq<Option<Piece>>, i: nat, w: Writer)
    requires Reliable(w)
    ensures SaveFrom(pieces, i).Ok? ==> SaveTo(pieces, i, w) == Saved(Ok(()), SaveFrom(pieces, i).value)
    ensures !SaveFrom(pieces, i).Ok? ==> SaveTo(pieces, i, w).outcome.Panic? && SaveFrom(pieces, i).Panic?
    decreases |pieces| - i
  {
    if i < |pieces| {
      SaveToReliable(pieces, i + 1, w);
    }
  }

  /** The write of piece `k` is accepted whole. */
  predicate Accepts(pieces: seq<Option<Piece>>, k: nat, w: Writer)
    requires k < |pieces|
  {
    pieces[k].Some? ==> w(k, |pieces[k].value.data|) >= |pieces[k].value.data|
  }

  /** What is written is the beginning of the file: nothing follows a write that failed. It is all of it exactly when
      the outcome says so, and otherwise it ends inside the piece whose write failed. */
  lemma {:induction false} SaveToIsPrefix(pieces: seq<Option<Piece>>, i: nat, w: Writer)
    requires SaveFrom(pieces, i).Ok?
    ensures var s := SaveTo(pieces, i, w);
      && s.written <= SaveFrom(pieces, i).value && !s.outcome.Panic?
      && (s.outcome.Ok? <==> forall k :: i <= k < |pieces| ==> Accepts(pieces, k, w))
      && (s.outcome.Ok? ==> s.written == SaveFrom(pieces, i).value)
      && (s.outcome.Err? ==> |s.written| < |SaveFrom(pieces, i).value|)
    decreases |pieces| - i
  {
    if i < |pieces| {
      SaveToIsPrefix(pieces, i + 1, w);
      var data, later := pieces[i].value.data, SaveFrom(pieces, i + 1).value;
      assert data <= data + later;
      assert Accepts(pieces, i, w) <==> w(i, |data|) >= |data|;
      var n := w(i, |data|);
      if n < |data| {
        assert data[..n] <= data + later;
      } else {
        assert data + SaveTo(pieces, i + 1, w).written <= data + later;
      }
    }
  }

  /** Which part files there are after `WritePartialFiles`, and whether it succeeded; `k` counts the writes. */
  datatype PartsWritten = PartsWritten(ok: bool, parts: seq<seq<byte>>)

  function WritePartsTo(parts: seq<seq<byte>>, pieces: seq<Option<Piece>>, saved: seq<bool>, w: Writer,
                        k: nat): PartsWritten
    decreases pieces
  {
    if pieces == [] then PartsWritten(true, parts)
    else match pieces[0]
      case None => WritePartsTo(parts, pieces[1..], saved, w, k)
      case Some(p) =>
        if p.index >= |saved| then PartsWritten(false, parts)
        else if saved[p.index] then WritePartsTo(parts, pieces[1..], saved, w, k)
        else if p.index / PIECES_PER_PART >= |parts| then PartsWritten(false, parts)
        else
          var j, record := p.index / PIECES_PER_PART, Serialize(p);
          var n := w(k, |record|);
          if n < |record| then PartsWritten(false, parts[j := parts[j] + record[..n]])
          else WritePartsTo(parts[j := parts[j] + record], pieces[1..], saved, w, k + 1)
  }

  lemma {:induction false} WritePartsToReliable(parts: seq<seq<byte>>, pieces: seq<Option<Piece>>,
                                                saved: seq<bool>, w: Writer, k: nat)
    requires Reliable(w)
    ensures WritePartsTo(parts, pieces, saved, w, k).ok <==> WriteParts(parts, pieces, saved).Ok?
    ensures WriteParts(parts, pieces, saved).Ok? ==>
      WritePartsTo(parts, pieces, saved, w, k).parts == WriteParts(parts, pieces, saved).value
    decreases pieces
  {
    if pieces != [] {
      match pieces[0]
      case None => WritePartsToReliable(parts, pieces[1..], saved, w, k);
      case Some(p) =>
        if p.index < |saved| && saved[p.index] {
          WritePartsToReliable(parts, pieces[1..], saved, w, k);
        } else if p.index < |saved| && p.index / PIECES_PER_PART < |parts| {
          var j := p.index / PIECES_PER_PART;
          WritePartsToReliable(parts[j := parts[j] + Serialize(p)], pieces[1..], saved, w, k + 1);
        }
    }
  }

  /** One append to a part file. */
  datatype Append = Append(part: nat, record: seq<byte>)

  /** The appends that saving asks for: a record for each piece that is there and not saved yet, in order. */
  function Appends(pieces: seq<Option<Piece>>, saved: seq<bool>): seq<Append>
    requires forall p :: p in pieces && p.Some? ==> p.value.index < |saved|
    decreases pieces
  {
    if pieces == [] then []
    else
      var later := Appends(pieces[1..], saved);
      if pieces[0].None? || saved[pieces[0].value.index] then later
      else [Append(pieces[0].value.index / 1000, Serialize(pieces[0].value))] + later
  }

  /** The part files after appends that are all accepted. */
  function Appended(parts: seq<seq<byte>>, appends: seq<Append>): (r: seq<seq<byte>>)
    requires forall a :: a in appends ==> a.part < |parts|
    ensures |r| == |parts|
    decreases appends
  {
    if appends == [] then parts
    else Appended(parts[appends[0].part := parts[appends[0].part] + appends[0].record], appends[1..])
  }

  /** The first `m` appends, and as much of the next as is accepted. */
  ghost predicate StopsAfter(parts: seq<seq<byte>>, appends: seq<Append>, w: Writer, k: nat, m: nat, r: PartsWritten)
    requires forall a :: a in appends ==> a.part < |parts|
  {
    && m <= |appends|
    && (forall i :: 0 <= i < m ==> w(k + i, |appends[i].record|) >= |appends[i].record|)
    && var done := Appended(parts, appends[..m]);
      if m == |appends| then r == PartsWritten(true, done)
      else
        var a := appends[m];
        var n := w(k + m, |a.record|);
        n < |a.record| && a.part < |done| && r == PartsWritten(false, done[a.part := done[a.part] + a.record[..n]])
  }

  ghost predicate AllFit(pieces: seq<Option<Piece>>, saved: seq<bool>, parts: seq<seq<byte>>) {
    forall p :: p in pieces && p.Some? ==> p.value.index < |saved| && p.value.index / 1000 < |parts|
  }

  lemma {:induction false} AppendsFit(pieces: seq<Option<Piece>>, saved: seq<bool>, parts: seq<seq<byte>>)
    requires AllFit(pieces, saved, parts)
    ensures forall a :: a in Appends(pieces, saved) ==> a.part < |parts|
    decreases pieces
  {
    if pieces != [] {
      AppendsFit(pieces[1..], saved, parts);
    }
  }

  lemma {:induction false} StopsLater(parts: seq<seq<byte>>, first: Append, later: seq<Append>, w: Writer, k: nat,
                                      m: nat, r: PartsWritten)
    requires first.part < |parts| && forall a :: a in later ==> a.part < |parts|
    requires w(k, |first.record|) >= |first.record|
    requires StopsAfter(parts[first.part := parts[first.part] + first.record], later, w, k + 1, m, r)
    ensures StopsAfter(parts, [first] + later, w, k, m + 1, r)
  {
    var all := [first] + later;
    assert all[..m + 1] == [first] + later[..m];
    assert all[..m + 1][1..] == later[..m];
    forall i | 0 <= i < m + 1
      ensures w(k + i, |all[i].record|) >= |all[i].record|
    {
      if i > 0 {
        assert all[i] == later[i - 1] && w(k + 1 + (i - 1), |later[i - 1].record|) >= |later[i - 1].record|;
      }
    }
  }

  /** Saving to part files makes the appends in order, up to the first that is not accepted whole, and nothing after
      it. */
  lemma {:induction false} SavingStops(parts: seq<seq<byte>>, pieces: seq<Option<Piece>>, saved: seq<bool>, w: Writer,
                                       k: nat) returns (m: nat)
    requires AllFit(pieces, saved, parts)
    ensures forall a :: a in Appends(pieces, saved) ==> a.part < |parts|
    ensures StopsAfter(parts, Appends(pieces, saved), w, k, m, WritePartsTo(parts, pieces, saved, w, k))
    decreases pieces
  {
    AppendsFit(pieces, saved, parts);
    if pieces == [] {
      m := 0;
    } else if pieces[0].None? || saved[pieces[0].value.index] {
      m := SavingStops(parts, pieces[1..], saved, w, k);
    } else {
      var p := pieces[0].value;
      assert pieces[0] in pieces;
      var j, record := p.index / PIECES_PER_PART, Serialize(p);
      if w(k, |record|) < |record| {
        m := 0;
      } else {
        AppendsFit(pieces[1..], saved, parts);
        m := SavingStops(parts[j := parts[j] + record], pieces[1..], saved, w, k + 1);
        StopsLater(parts, Append(j, record), Appends(pieces[1..], saved), w, k, m,
                   WritePartsTo(parts, pieces, saved, w, k));
        m := m + 1;
      }
    }
  }

  // ---------- The same in place ----------

  /** `p.Deserialize(reader)`: the piece found, or which of the two ends. */
  method DeserializePiece(reader: PeerProtocol.Reader) returns (r: PieceRead)
    modifies reader
    ensures r == Deserialize(old(reader.rest))
    ensures r.Found? ==> reader.rest == r.rest
  {
    ghost var bytes := reader.rest;
    var buf, err := reader.ReadFull(8);
    if err == PeerProtocol.EOF {
      return AtEnd;
    } else if err != PeerProtocol.NoError {
      return Bad;
    }
    var index, length := Uint32(buf[0..4]), Uint32(buf[4..8]);
    assert buf[0..4] == bytes[0..4] && buf[4..8] == bytes[4..8];
    var data;
    data, err := reader.Read(length);
    if err != PeerProtocol.NoError {
      return Bad;
    }
    r := Found(Piece(index, length, data + Zeros(length - |data|), ""), reader.rest);
  }

  /** The bits of a field with those of some pieces set; indices past its end are ignored. */
  function Mark(field: seq<bool>, pieces: seq<Piece>): (r: seq<bool>)
    ensures |r| == |field|
    decreases pieces
  {
    if pieces == [] then field
    else Mark(if pieces[0].index < |field| then field[pieces[0].index := true] else field, pieces[1..])
  }

  lemma {:induction false} MarkSets(field: seq<bool>, pieces: seq<Piece>, i: nat)
    requires i < |field|
    ensures Mark(field, pieces)[i] <==> field[i] || exists p :: p in pieces && p.index == i
    decreases pieces
  {
    if pieces != [] {
      MarkSets(if pieces[0].index < |field| then field[pieces[0].index := true] else field, pieces[1..], i);
      assert forall p :: p in pieces <==> p == pieces[0] || p in pieces[1..];
    }
  }

  lemma {:induction false} MarkAppend(field: seq<bool>, pieces: seq<Piece>, p: Piece)
    ensures Mark(field, pieces + [p])
      == if p.index < |field| then Mark(field, pieces)[p.index := true] else Mark(field, pieces)
    decreases pieces
  {
    if pieces == [] {
      assert [p][1..] == [];
    } else {
      MarkAppend(if pieces[0].index < |field| then field[pieces[0].index := true] else field, pieces[1..], p);
      assert (pieces + [p])[1..] == pieces[1..] + [p];
    }
  }

  method ReadPartialFile(reader: PeerProtocol.Reader, bitfield: Bitfield) returns (r: Outcome<seq<Piece>>)
    requires bitfield.Valid()
    modifies reader, bitfield.data
    ensures r == ReadLog(old(reader.rest))
    ensures r.Ok? ==> bitfield.Field() == Mark(old(bitfield.Field()), r.value)
  {
    ghost var all, field := ParseAll(ParsePiece, reader.rest), bitfield.Field();
    var result: seq<Piece> := [];
    while true
      invariant all.values == result + ParseAll(ParsePiece, reader.rest).values
      invariant all.tail == ParseAll(ParsePiece, reader.rest).tail
      invariant bitfield.Field() == Mark(field, result)
      decreases |reader.rest|
    {
      ghost var before := reader.rest;
      var found := DeserializePiece(reader);
      if found.AtEnd? {
        assert result + [] == result;
        return Ok(result);
      } else if found.Bad? {
        return Err;
      }
      NextRecord(before, result);
      MarkAppend(field, result, found.piece);
      result := result + [found.piece];
      var _ := bitfield.Set(found.piece.index, true);
    }
  }

  lemma {:induction false} NextRecord(bytes: seq<byte>, result: seq<Piece>)
    requires Deserialize(bytes).Found?
    ensures var r := Deserialize(bytes);
      && |r.rest| < |bytes|
      && result + ParseAll(ParsePiece, bytes).values == (result + [r.piece]) + ParseAll(ParsePiece, r.rest).values
      && ParseAll(ParsePiece, bytes).tail == ParseAll(ParsePiece, r.rest).tail
  {
    var _ := RecordOfRead(bytes);
    ParseAllStep(ParsePiece, bytes);
  }

  lemma {:induction false} WritePartsNext(parts: seq<seq<byte>>, data: seq<Option<Piece>>, i: nat, saved: seq<bool>)
    requires i < |data|
    ensures WriteParts(parts, data[i..], saved) ==
      if data[i].None? || (data[i].value.index < |saved| && saved[data[i].value.index]) then
        WriteParts(parts, data[i + 1..], saved)
      else if data[i].value.index >= |saved| then Err
      else
        var j := data[i].value.index / PIECES_PER_PART;
        if j >= |parts| then Err
        else WriteParts(parts[j := parts[j] + Serialize(data[i].value)], data[i + 1..], saved)
  {
    assert data[i..][0] == data[i] && data[i..][1..] == data[i + 1..];
  }

  /** The part files, opened for appending. */
  class PartFiles {
    var contents: seq<seq<byte>>
    var writes: nat

    constructor (contents: seq<seq<byte>>)
      ensures this.contents == contents && writes == 0
    {
      this.contents, writes := contents, 0;
    }

    /** Appends as much of the data as is accepted. */
    method Write(part: nat, data: seq<byte>, w: Writer) returns (ok: bool)
      requires part < |contents|
      modifies this
      ensures var n := Min(w(old(writes), |data|), |data|);
        && ok == (n == |data|) && writes == old(writes) + 1
        && contents == old(contents)[part := old(contents)[part] + data[..n]]
    {
      var n := Min(w(writes, |data|), |data|);
      contents := contents[part := contents[part] + data[..n]];
      writes := writes + 1;
      return n == |data|;
    }
  }

  method WritePartialFiles(writers: PartFiles, data: seq<Option<Piece>>, savedPieces: Bitfield,
                           w: Writer)
    returns (ok: bool)
    requires savedPieces.Valid()
    modifies writers
    ensures PartsWritten(ok, writers.contents)
      == WritePartsTo(old(writers.contents), data, savedPieces.Field(), w, old(writers.writes))
  {
    ghost var saved := savedPieces.Field();
    ghost var goal := WritePartsTo(writers.contents, data, saved, w, writers.writes);
    assert data[0..] == data;
    for i := 0 to |data|
      invariant savedPieces.Field() == saved
      invariant WritePartsTo(writers.contents, data[i..], saved, w, writers.writes) == goal
    {
      assert data[i..][0] == data[i] && data[i..][1..] == data[i + 1..];
      if data[i].Some? {
        var piece := data[i].value;
        var alreadySaved := savedPieces.Get(piece.index);
        if !alreadySaved.Ok? {
          return false;
        }
        if !alreadySaved.value {
          var fileIndex := piece.index / PIECES_PER_PART;
          if fileIndex >= |writers.contents| {
            return false;
          }
          var record := Serialize(piece);
          assert record[..|record|] == record;
          var written := writers.Write(fileIndex, record, w);
          if !written {
            return false;
          }
        }
      }
    }
    assert data[|data|..] == [];
    return true;
  }

  /** An outcome with `front` put before its value. */
  function PutBefore<T>(front: seq<T>, r: Outcome<seq<T>>): Outcome<seq<T>> {
    match r
    case Ok(later) => Ok(front + later)
    case Err => Err
    case Panic => Panic
  }

  method Save(data: seq<Option<Piece>>, w: Writer) returns (r: Outcome<()>, written: seq<byte>)
    ensures Saved(r, written) == SaveTo(data, 0, w)
  {
    written := [];
    ghost var goal := SaveTo(data, 0, w);
    for i := 0 to |data|
      invariant goal == Prefixed(written, SaveTo(data, i, w))
    {
      if data[i].None? || data[i].value.index != i {
        return Panic, written;
      }
      var bytes := data[i].value.data;
      var n := w(i, |bytes|);
      if n < |bytes| {
        return Err, written + bytes[..n];
      }
      Assoc(written, bytes, SaveTo(data, i + 1, w).written);
      written := written + bytes;
    }
    return Ok(()), written;
  }

  /** What `Read` returns; when no pieces are expected, the whole file is one piece of index -1. */
  datatype FileRead = InPlace(pieces: seq<Piece>) | AtMinusOne(data: seq<byte>) | Failed

  method Read(reader: PeerProtocol.Reader, number: nat, pieceLength: nat) returns (r: FileRead)
    modifies reader
    ensures number == 0 ==> r == AtMinusOne(old(reader.rest))
    ensures number > 0 ==>
      match ReadFrom(old(reader.rest), 0, number, pieceLength)
      case Ok(pieces) => r == InPlace(pieces)
      case Err => r == Failed
      case Panic => false
  {
    var result: seq<Piece> := [];
    ghost var goal := if number > 0 then ReadFrom(reader.rest, 0, number, pieceLength) else Ok([]);
    assert goal == PutBefore(result, goal) by {
      if goal.Ok? {
        assert result + goal.value == goal.value;
      }
    }
    var i := 0;
    while i < number - 1
      invariant number > 0 ==> i < number && goal == PutBefore(result, ReadFrom(reader.rest, i, number, pieceLength))
      invariant number == 0 ==> i == 0 && reader.rest == old(reader.rest)
    {
      ghost var before := reader.rest;
      var data, err := reader.ReadFull(pieceLength);
      if err != PeerProtocol.NoError {
        return Failed;
      }
      var piece := Piece(i, pieceLength, data, "local");
      ghost var later := ReadFrom(reader.rest, i + 1, number, pieceLength);
      if later.Ok? {
        assert result + ([piece] + later.value) == (result + [piece]) + later.value;
      }
      result := result + [piece];
      i := i + 1;
    }
    var last := reader.rest;
    if number == 0 {
      return AtMinusOne(last);
    }
    return InPlace(result + [Piece(number - 1, |last|, last, "local")]);
  }
}
