/** Sessions of the client: load what is on disk, download, save. client/client.go:56-75, 206-232, 309-434. */
module Sessions {
  import opened Types
  import opened Sums
  import opened Storage
  import opened Scheduler

  /** The part files (a missing one is empty) and the finished file. */
  datatype Disk = Disk(parts: seq<seq<byte>>, full: Option<seq<byte>>)

  function NumParts(t: Torrent): nat {
    t.NumPieces() / PIECES_PER_PART + 1
  }

  function NoParts(t: Torrent): seq<seq<byte>> {
    seq(NumParts(t), _ => [])
  }

  function NoResults(t: Torrent): Results {
    Results(seq(t.NumPieces(), _ => None), 0, seq(t.NumPieces(), _ => false))
  }

  // ---------- Loading ----------

  /** One piece from a part file (lines 415-429): an index without a hash panics, a wrong hash is an error. */
  function LoadPiece(r: Results, p: Piece, t: Torrent): Outcome<Results> {
    if p.index >= t.NumPieces() then Panic
    else if t.sha1(p.data) != t.pieceHashes[p.index] then Err
    else Store(r, p)
  }

  function LoadPieces(r: Results, pieces: seq<Piece>, t: Torrent): Outcome<Results>
    decreases pieces
  {
    if pieces == [] then Ok(r)
    else match LoadPiece(r, pieces[0], t)
      case Ok(next) => LoadPieces(next, pieces[1..], t)
      case Err => Err
      case Panic => Panic
  }

  /** `loadPiecesFromPartialFiles`, from part `j` on. */
  function LoadParts(r: Results, parts: seq<seq<byte>>, j: nat, t: Torrent): Outcome<Results>
    decreases |parts| - j
  {
    if j >= |parts| then Ok(r)
    else if !t.NamesParts() then Panic
    else match ReadLog(parts[j])
      case Ok(pieces) =>
        (match LoadPieces(r, pieces, t)
         case Ok(next) => LoadParts(next, parts, j + 1, t)
         case Err => Err
         case Panic => Panic)
      case Err => Err
      case Panic => Panic
  }

  predicate HashesMatch(pieces: seq<Piece>, t: Torrent) {
    forall i :: 0 <= i < |pieces| ==>
      pieces[i].index < t.NumPieces() && t.sha1(pieces[i].data) == t.pieceHashes[pieces[i].index]
  }

  /** `loadPiecesFromCompleteFile`. */
  function LoadComplete(bytes: seq<byte>, t: Torrent): Outcome<Results>
    requires t.NumPieces() > 0
  {
    match ReadFrom(bytes, 0, t.NumPieces(), t.pieceLength)
    case Ok(pieces) =>
      if !HashesMatch(pieces, t) || Sum(Lengths(), pieces) != t.NumPieces() * t.pieceLength then Err
      else Ok(Results(seq(|pieces|, i requires 0 <= i < |pieces| => Some(pieces[i])), t.NumPieces(),
                      seq(t.NumPieces(), _ => true)))
    case Err => Err
    case Panic => Panic
  }

  datatype Loaded = Loaded(results: Results, complete: bool)

  /** `loadFromFile`: a finished file that is there but wrong is an error. */
  function Load(d: Disk, t: Torrent): Outcome<Loaded>
    requires t.NumPieces() > 0
  {
    if d.full.Some? then
      match LoadComplete(d.full.value, t)
      case Ok(r) => Ok(Loaded(r, true))
      case Err => Err
      case Panic => Panic
    else
      match LoadParts(NoResults(t), d.parts, 0, t)
      case Ok(r) => Ok(Loaded(r, false))
      case Err => Err
      case Panic => Panic
  }

  // ---------- A session ----------

  /** `deletePartialFiles`. */
  function DeleteParts(d: Disk, t: Torrent): Outcome<Disk> {
    if t.NamesParts() then Ok(Disk(NoParts(t), d.full)) else Panic
  }

  /** `Exit` is the regular end. `Killed` is any other at which no file is being written: no tracker at the start, a
      panic of a connection that is not among the moves, the kill signal. */
  datatype Ending = Exit | Killed

  datatype Session = Session(orders: seq<PieceOrder>, moves: seq<Move>, ending: Ending)

  function Start(session: Session, r: Results): System {
    System(session.orders, [], [], r, {})
  }

  /** The last state of a run, or the one before the move that brings the process down. */
  function LastState(s: System, moves: seq<Move>, t: Torrent): System
    decreases moves
  {
    if moves == [] || !Step(s, moves[0], t).Ok? then s else LastState(Step(s, moves[0], t).value, moves[1..], t)
  }

  /** What is on disk while the main loop runs. Part files go when the finished file is there, which is written as soon
      as the last piece is stored. */
  function Meanwhile(d: Disk, loaded: Loaded, now: Results, t: Torrent): Outcome<Disk> {
    if loaded.complete then DeleteParts(d, t)
    else if now.piecesDone == t.NumPieces() then
      match SaveFrom(now.pieces, 0)
      case Ok(bytes) => DeleteParts(Disk(d.parts, Some(bytes)), t)
      case Err => Err
      case Panic => Panic
    else Ok(d)
  }

  /** What the regular end leaves on disk: pieces of an unfinished file that are new are appended to the part files. */
  function Finish(d: Disk, loaded: Loaded, final: Results, t: Torrent): Outcome<Disk> {
    if loaded.complete || final.piecesDone == t.NumPieces() || loaded.results.piecesDone >= t.NumPieces() then
      Meanwhile(d, loaded, final, t)
    else if !t.NamesParts() then Panic
    else match WriteParts(d.parts, final.pieces, loaded.results.field)
      case Ok(parts) => Ok(Disk(parts, None))
      case Err => Err
      case Panic => Panic
  }

  predicate EndsRegularly(session: Session, r: Results, t: Torrent) {
    session.ending == Exit && RunSystem(Start(session, r), session.moves, t).Ok?
  }

  /** The disk that a session leaves, also one that is killed or brought down by a connection. It fails when loading or
      saving does. */
  function RunSession(d: Disk, session: Session, t: Torrent): Outcome<Disk>
    requires t.NumPieces() > 0
  {
    match Load(d, t)
    case Ok(loaded) =>
      var last := LastState(Start(session, loaded.results), session.moves, t).results;
      if EndsRegularly(session, loaded.results, t) then Finish(d, loaded, last, t) else Meanwhile(d, loaded, last, t)
    case Err => Err
    case Panic => Panic
  }

  function RunSessions(d: Disk, sessions: seq<Session>, t: Torrent): Outcome<Disk>
    requires t.NumPieces() > 0
    decreases sessions
  {
    if sessions == [] then Ok(d)
    else match RunSession(d, sessions[0], t)
      case Ok(next) => RunSessions(next, sessions[1..], t)
      case Err => Err
      case Panic => Panic
  }

  /** The orders are those of `Main`; what happens then is up to the connections. */
  ghost predicate ValidSession(d: Disk, session: Session, t: Torrent)
    requires t.NumPieces() > 0
  {
    Load(d, t).Ok? ==> Started(Start(session, Load(d, t).value.results), t)
  }

  ghost predicate ValidSessions(d: Disk, sessions: seq<Session>, t: Torrent)
    requires t.NumPieces() > 0
    decreases sessions
  {
    sessions != [] ==>
      && ValidSession(d, sessions[0], t)
      && (RunSession(d, sessions[0], t).Ok? ==> ValidSessions(RunSession(d, sessions[0], t).value, sessions[1..], t))
  }

  // ---------- What is on disk ----------

  /** The first piece of a list with a given index. */
  function PieceIn(pieces: seq<Piece>, x: nat): (r: Option<Piece>)
    ensures r.Some? ==> r.value in pieces && r.value.index == x
  {
    if pieces == [] then None
    else if pieces[0].index == x then Some(pieces[0])
    else PieceIn(pieces[1..], x)
  }

  ghost predicate DistinctIndices(pieces: seq<Piece>) {
    forall i, j :: 0 <= i < j < |pieces| ==> pieces[i].index != pieces[j].index
  }

  /** A part file: a clean log of genuine pieces, each of this part and there once. */
  ghost predicate PartOk(bytes: seq<byte>, j: nat, t: Torrent) {
    && ReadLog(bytes).Ok?
    && var pieces := ReadLog(bytes).value;
      && bytes == Log(pieces) && DistinctIndices(pieces)
      && forall p :: p in pieces ==> GoodPiece(p, t) && p.index / PIECES_PER_PART == j
  }

  ghost predicate PartsOk(parts: seq<seq<byte>>, t: Torrent) {
    |parts| == NumParts(t) && forall j :: 0 <= j < |parts| ==> PartOk(parts[j], j, t)
  }

  function Pieces(bytes: seq<byte>): seq<Piece> {
    match ReadLog(bytes)
    case Ok(pieces) => pieces
    case _ => []
  }

  /** The piece that the part files hold at an index. */
  function Logged(parts: seq<seq<byte>>, x: nat): Option<Piece> {
    var j := x / PIECES_PER_PART;
    if j < |parts| then PieceIn(Pieces(parts[j]), x) else None
  }

  predicate AsStored(logged: Option<Piece>, stored: Option<Piece>) {
    match stored
    case Some(p) => logged == Some(Anonymous(p))
    case None => logged == None
  }

  ghost predicate DiskOk(d: Disk, t: Torrent)
    requires t.NumPieces() > 0
  {
    if d.full.Some? then d.parts == NoParts(t) && LoadComplete(d.full.value, t).Ok?
    else PartsOk(d.parts, t) && exists x: nat :: x < t.NumPieces() && Logged(d.parts, x) == None
  }

  /** Lengths and indices that the record format can hold. */
  predicate FitsRecords(t: Torrent) {
    0 < t.NumPieces() <= TWO_TO_THE_32 && t.pieceLength < TWO_TO_THE_32
  }

  predicate Recordable(t: Torrent) {
    FitsRecords(t) && t.NamesParts()
  }

  // ---------- Loading gives back what was logged ----------

  lemma {:induction false} LoadPiecesRestores(r: Results, pieces: seq<Piece>, t: Torrent)
    requires GoodResults(r, t) && DistinctIndices(pieces)
    requires forall p :: p in pieces ==> GoodPiece(p, t) && r.pieces[p.index] == None
    ensures LoadPieces(r, pieces, t).Ok?
    ensures var next := LoadPieces(r, pieces, t).value;
      && GoodResults(next, t)
      && forall i :: 0 <= i < t.NumPieces() ==>
           next.pieces[i] == if PieceIn(pieces, i).Some? then PieceIn(pieces, i) else r.pieces[i]
    decreases pieces
  {
    if pieces != [] {
      var p := pieces[0];
      assert GoodPiece(p, t);
      StoreIsGood(r, p, t);
      var next := Store(r, p).value;
      forall q | q in pieces[1..]
        ensures GoodPiece(q, t) && next.pieces[q.index] == None
      {
        var k :| 0 <= k < |pieces[1..]| && pieces[1..][k] == q;
        assert pieces[k + 1] == q;
      }
      LoadPiecesRestores(next, pieces[1..], t);
      AbsentAfterFirst(pieces);
    }
  }

  lemma {:induction false} AbsentAfterFirst(pieces: seq<Piece>)
    requires pieces != [] && DistinctIndices(pieces)
    ensures PieceIn(pieces[1..], pieces[0].index) == None
  {
    forall p | p in pieces[1..]
      ensures p.index != pieces[0].index
    {
      var k :| 0 <= k < |pieces[1..]| && pieces[1..][k] == p;
      assert pieces[k + 1] == p;
    }
  }

  /** Parts before `j` are loaded, the others not yet. */
  ghost predicate LoadedUpTo(r: Results, parts: seq<seq<byte>>, j: nat, t: Torrent) {
    && GoodResults(r, t)
    && forall x :: 0 <= x < t.NumPieces() ==>
         r.pieces[x] == if x / PIECES_PER_PART < j then Logged(parts, x) else None
  }

  lemma {:induction false} LoadOnePart(r: Results, parts: seq<seq<byte>>, j: nat, t: Torrent)
    requires PartsOk(parts, t) && j < |parts| && LoadedUpTo(r, parts, j, t)
    ensures ReadLog(parts[j]).Ok? && LoadPieces(r, ReadLog(parts[j]).value, t).Ok?
    ensures LoadedUpTo(LoadPieces(r, ReadLog(parts[j]).value, t).value, parts, j + 1, t)
  {
    assert PartOk(parts[j], j, t);
    var pieces := ReadLog(parts[j]).value;
    LoadPiecesRestores(r, pieces, t);
    forall x | 0 <= x < t.NumPieces() && x / PIECES_PER_PART != j
      ensures PieceIn(pieces, x) == None
    {
    }
  }

  lemma {:induction false} LoadPartsRestores(r: Results, parts: seq<seq<byte>>, j: nat, t: Torrent)
    requires t.NamesParts() && PartsOk(parts, t) && j <= |parts| && LoadedUpTo(r, parts, j, t)
    ensures LoadParts(r, parts, j, t).Ok? && LoadedUpTo(LoadParts(r, parts, j, t).value, parts, |parts|, t)
    decreases |parts| - j
  {
    if j < |parts| {
      LoadOnePart(r, parts, j, t);
      LoadPartsRestores(LoadPieces(r, ReadLog(parts[j]).value, t).value, parts, j + 1, t);
    }
  }

  lemma {:induction false} NoResultsAreGood(t: Torrent)
    ensures GoodResults(NoResults(t), t)
  {
    assert Done(NoResults(t).pieces) == {};
  }

  /** Loading good part files never fails and gives exactly the logged pieces. */
  lemma {:induction false} LoadRestoresParts(parts: seq<seq<byte>>, t: Torrent)
    requires t.NamesParts() && PartsOk(parts, t)
    ensures LoadParts(NoResults(t), parts, 0, t).Ok?
    ensures var r := LoadParts(NoResults(t), parts, 0, t).value;
      GoodResults(r, t) && forall x :: 0 <= x < t.NumPieces() ==> r.pieces[x] == Logged(parts, x)
  {
    NoResultsAreGood(t);
    LoadPartsRestores(NoResults(t), parts, 0, t);
  }

  // ---------- Loading from any disk ----------

  /** One part file. */
  function LoadLog(r: Results, bytes: seq<byte>, t: Torrent): Outcome<Results> {
    match ReadLog(bytes)
    case Ok(pieces) => LoadPieces(r, pieces, t)
    case Err => Err
    case Panic => Panic
  }

  /** Part `j`, then the parts after it. */
  lemma {:induction false} LoadPartsNext(r: Results, files: seq<seq<byte>>, j: nat, t: Torrent)
    requires j < |files|
    ensures LoadParts(r, files, j, t) ==
      if !t.NamesParts() then Panic
      else match LoadLog(r, files[j], t)
        case Ok(next) => LoadParts(next, files, j + 1, t)
        case Err => Err
        case Panic => Panic
  {
  }

  /** A piece that the torrent knows, with the contents that its hash promises. */
  predicate IsExpected(p: Piece, t: Torrent) {
    p.index < |t.pieceHashes| && t.sha1(p.data) == t.pieceHashes[p.index]
  }

  /** Storing the pieces of a part file succeeds if and only if every one of them has a place and its own hash. */
  lemma {:induction false} LoadPiecesIff(r: Results, pieces: seq<Piece>, t: Torrent)
    requires |r.pieces| == t.NumPieces()
    ensures LoadPieces(r, pieces, t).Ok? <==> forall p :: p in pieces ==> IsExpected(p, t)
    ensures LoadPieces(r, pieces, t).Ok? ==>
      var next := LoadPieces(r, pieces, t).value;
      && |next.pieces| == t.NumPieces() && |next.field| == |r.field|
      && forall i :: 0 <= i < |next.pieces| ==> next.pieces[i] == r.pieces[i] || IsFrom(next.pieces[i], i, pieces)
    decreases pieces
  {
    if pieces != [] {
      assert pieces[0] in pieces;
      assert forall p :: p in pieces <==> p == pieces[0] || p in pieces[1..];
      if LoadPiece(r, pieces[0], t).Ok? {
        LoadPiecesIff(LoadPiece(r, pieces[0], t).value, pieces[1..], t);
      }
    }
  }

  ghost predicate IsFrom(held: Option<Piece>, i: nat, pieces: seq<Piece>) {
    held.Some? && held.value.index == i && held.value in pieces
  }

  /** A part file that reads as expected pieces. */
  ghost predicate ReadsAsExpected(bytes: seq<byte>, t: Torrent) {
    ReadLog(bytes).Ok? && forall p :: p in ReadLog(bytes).value ==> IsExpected(p, t)
  }

  /** In its place and with its hash. */
  ghost predicate HasItsHash(held: Option<Piece>, i: nat, t: Torrent) {
    held.Some? ==> held.value.index == i && IsExpected(held.value, t)
  }

  ghost predicate AllHaveHashes(r: Results, t: Torrent) {
    |r.pieces| == t.NumPieces() && forall i :: 0 <= i < |r.pieces| ==> HasItsHash(r.pieces[i], i, t)
  }

  lemma {:induction false} LoadPiecesHaveHashes(r: Results, pieces: seq<Piece>, t: Torrent)
    requires AllHaveHashes(r, t) && LoadPieces(r, pieces, t).Ok?
    ensures AllHaveHashes(LoadPieces(r, pieces, t).value, t)
  {
    LoadPiecesIff(r, pieces, t);
    var next := LoadPieces(r, pieces, t).value;
    forall i | 0 <= i < |next.pieces|
      ensures HasItsHash(next.pieces[i], i, t)
    {
      assert HasItsHash(r.pieces[i], i, t);
    }
  }

  lemma {:induction false} LoadLogIff(r: Results, bytes: seq<byte>, t: Torrent)
    requires AllHaveHashes(r, t)
    ensures LoadLog(r, bytes, t).Ok? <==> ReadsAsExpected(bytes, t)
    ensures LoadLog(r, bytes, t).Ok? ==> AllHaveHashes(LoadLog(r, bytes, t).value, t)
  {
    if ReadLog(bytes).Ok? {
      LoadPiecesIff(r, ReadLog(bytes).value, t);
      if LoadLog(r, bytes, t).Ok? {
        LoadPiecesHaveHashes(r, ReadLog(bytes).value, t);
      }
    }
  }

  /** Loading any part files succeeds if and only if the name is long enough and each of them reads as expected pieces;
      then everything that is loaded has its hash. */
  lemma {:induction false} LoadPartsIff(r: Results, parts: seq<seq<byte>>, j: nat, t: Torrent)
    requires AllHaveHashes(r, t) && j <= |parts|
    ensures LoadParts(r, parts, j, t).Ok? <==>
      (j < |parts| ==> t.NamesParts()) && forall k :: j <= k < |parts| ==> ReadsAsExpected(parts[k], t)
    ensures LoadParts(r, parts, j, t).Ok? ==> AllHaveHashes(LoadParts(r, parts, j, t).value, t)
    decreases |parts| - j
  {
    if j < |parts| {
      LoadPartsNext(r, parts, j, t);
      LoadLogIff(r, parts[j], t);
      if LoadLog(r, parts[j], t).Ok? {
        LoadPartsIff(LoadLog(r, parts[j], t).value, parts, j + 1, t);
      }
    }
  }

  // ---------- Saving to the part files ----------

  lemma {:induction false} PieceInAppend(pieces: seq<Piece>, p: Piece, x: nat)
    ensures PieceIn(pieces + [p], x) ==
      if PieceIn(pieces, x).Some? then PieceIn(pieces, x) else if p.index == x then Some(p) else None
  {
    if pieces == [] {
      assert PieceIn([p][1..], x) == None;
    } else {
      PieceInAppend(pieces[1..], p, x);
      assert (pieces + [p])[1..] == pieces[1..] + [p];
    }
  }

  lemma {:induction false} PieceInFinds(pieces: seq<Piece>, k: nat)
    requires k < |pieces|
    ensures PieceIn(pieces, pieces[k].index).Some?
  {
    if k > 0 && pieces[0].index != pieces[k].index {
      PieceInFinds(pieces[1..], k - 1);
    }
  }

  lemma {:induction false} DistinctAppend(pieces: seq<Piece>, p: Piece)
    requires DistinctIndices(pieces) && PieceIn(pieces, p.index) == None
    ensures DistinctIndices(pieces + [p])
  {
    forall i | 0 <= i < |pieces|
      ensures pieces[i].index != p.index
    {
      PieceInFinds(pieces, i);
    }
  }

  lemma {:induction false} AppendToLog(bytes: seq<byte>, p: Piece)
    requires ReadLog(bytes).Ok? && bytes == Log(Pieces(bytes)) && Storable(p)
    ensures bytes + Serialize(p) == Log(Pieces(bytes) + [p])
    ensures ReadLog(bytes + Serialize(p)) == Ok(Pieces(bytes) + [p])
  {
    LogAppend(Pieces(bytes), p);
    var _ := AcceptedIsLog(bytes);
    assert AllStorable(Pieces(bytes) + [p]);
    LogRoundTrip(Pieces(bytes) + [p]);
  }

  /** A record appended to a good part keeps it good, and adds that piece only. */
  lemma {:induction false} AppendKeepsPartOk(bytes: seq<byte>, j: nat, p: Piece, t: Torrent)
    requires Recordable(t) && PartOk(bytes, j, t)
    requires GoodPiece(p, t) && p.index / PIECES_PER_PART == j && PieceIn(Pieces(bytes), p.index) == None
    ensures PartOk(bytes + Serialize(p), j, t)
    ensures Pieces(bytes + Serialize(p)) == Pieces(bytes) + [Anonymous(p)]
  {
    assert Serialize(p) == Serialize(Anonymous(p));
    AppendToLog(bytes, Anonymous(p));
    DistinctAppend(Pieces(bytes), Anonymous(p));
  }

  /** Index `x` is on disk if it is among the first `i` or was saved before, and otherwise it is not. */
  predicate WrittenAt(logged: Option<Piece>, stored: Option<Piece>, saved: bool, x: nat, i: nat) {
    if saved || x < i then AsStored(logged, stored) else logged == None
  }

  /** Indices up to `i` are written or were saved before. */
  ghost predicate WrittenUpTo(parts: seq<seq<byte>>, pieces: seq<Option<Piece>>, saved: seq<bool>, i: nat, t: Torrent) {
    && PartsOk(parts, t) && |pieces| == |saved| == t.NumPieces()
    && forall x :: 0 <= x < t.NumPieces() ==> WrittenAt(Logged(parts, x), pieces[x], saved[x], x, i)
  }

  function WriteOne(parts: seq<seq<byte>>, p: Piece): seq<seq<byte>>
    requires p.index / PIECES_PER_PART < |parts|
  {
    var j := p.index / PIECES_PER_PART;
    parts[j := parts[j] + Serialize(p)]
  }

  lemma {:induction false} WriteOneKeepsParts(parts: seq<seq<byte>>, p: Piece, t: Torrent)
    requires Recordable(t) && PartsOk(parts, t) && GoodPiece(p, t) && Logged(parts, p.index) == None
    ensures p.index / PIECES_PER_PART < |parts| && PartsOk(WriteOne(parts, p), t)
    ensures var j := p.index / PIECES_PER_PART;
      Pieces(WriteOne(parts, p)[j]) == Pieces(parts[j]) + [Anonymous(p)]
  {
    var j := p.index / PIECES_PER_PART;
    assert PartOk(parts[j], j, t);
    AppendKeepsPartOk(parts[j], j, p, t);
  }

  lemma {:induction false} WriteOneLogs(parts: seq<seq<byte>>, p: Piece, x: nat)
    requires p.index / PIECES_PER_PART < |parts| && Logged(parts, p.index) == None
    requires var j := p.index / PIECES_PER_PART;
      Pieces(WriteOne(parts, p)[j]) == Pieces(parts[j]) + [Anonymous(p)]
    ensures Logged(WriteOne(parts, p), x) == if x == p.index then Some(Anonymous(p)) else Logged(parts, x)
  {
    if x / PIECES_PER_PART == p.index / PIECES_PER_PART {
      PieceInAppend(Pieces(parts[p.index / PIECES_PER_PART]), Anonymous(p), x);
    }
  }

  lemma {:induction false} WriteOneAdds(parts: seq<seq<byte>>, p: Piece, t: Torrent)
    requires Recordable(t) && PartsOk(parts, t) && GoodPiece(p, t) && Logged(parts, p.index) == None
    ensures p.index / PIECES_PER_PART < |parts| && PartsOk(WriteOne(parts, p), t)
    ensures forall x: nat ::
      Logged(WriteOne(parts, p), x) == if x == p.index then Some(Anonymous(p)) else Logged(parts, x)
  {
    WriteOneKeepsParts(parts, p, t);
    forall x: nat
      ensures Logged(WriteOne(parts, p), x) == if x == p.index then Some(Anonymous(p)) else Logged(parts, x)
    {
      WriteOneLogs(parts, p, x);
    }
  }

  lemma {:induction false} WriteOneOfMany(parts: seq<seq<byte>>, pieces: seq<Option<Piece>>, saved: seq<bool>,
                                          i: nat, t: Torrent)
    requires Recordable(t) && WrittenUpTo(parts, pieces, saved, i, t) && i < t.NumPieces()
    requires !saved[i] && pieces[i].Some? && pieces[i].value.index == i && GoodPiece(pieces[i].value, t)
    ensures i / PIECES_PER_PART < |parts| && WrittenUpTo(WriteOne(parts, pieces[i].value), pieces, saved, i + 1, t)
  {
    assert Logged(parts, i) == None;
    WriteOneAdds(parts, pieces[i].value, t);
  }

  lemma {:induction false} NothingToWrite(logged: Option<Piece>, stored: Option<Piece>, saved: bool, x: nat, i: nat)
    requires WrittenAt(logged, stored, saved, x, i) && (x == i ==> saved || stored.None?)
    ensures WrittenAt(logged, stored, saved, x, i + 1)
  {
  }

  /** What the loop does at `i`. */
  function WriteAt(parts: seq<seq<byte>>, pieces: seq<Option<Piece>>, saved: seq<bool>, i: nat): seq<seq<byte>>
    requires i < |pieces| == |saved|
    requires pieces[i].Some? ==> pieces[i].value.index == i && i / PIECES_PER_PART < |parts|
  {
    if pieces[i].Some? && !saved[i] then WriteOne(parts, pieces[i].value) else parts
  }

  lemma {:induction false} WriteAtNext(parts: seq<seq<byte>>, pieces: seq<Option<Piece>>, saved: seq<bool>, i: nat)
    requires i < |pieces| == |saved|
    requires pieces[i].Some? ==> pieces[i].value.index == i && i / PIECES_PER_PART < |parts|
    ensures WriteParts(parts, pieces[i..], saved) ==
      WriteParts(WriteAt(parts, pieces, saved, i), pieces[i + 1..], saved)
  {
    WritePartsNext(parts, pieces, i, saved);
  }

  /** The piece at `i` is written, was saved before, or is not there. */
  lemma {:induction false} WriteNext(parts: seq<seq<byte>>, pieces: seq<Option<Piece>>, saved: seq<bool>, i: nat,
                                     t: Torrent)
    requires Recordable(t) && WrittenUpTo(parts, pieces, saved, i, t) && i < t.NumPieces()
    requires pieces[i].Some? ==> pieces[i].value.index == i && GoodPiece(pieces[i].value, t)
    ensures i / PIECES_PER_PART < |parts| && WrittenUpTo(WriteAt(parts, pieces, saved, i), pieces, saved, i + 1, t)
  {
    if pieces[i].Some? && !saved[i] {
      WriteOneOfMany(parts, pieces, saved, i, t);
    } else {
      forall x | 0 <= x < t.NumPieces()
        ensures WrittenAt(Logged(parts, x), pieces[x], saved[x], x, i + 1)
      {
        NothingToWrite(Logged(parts, x), pieces[x], saved[x], x, i);
      }
    }
  }

  lemma {:induction false} WritePartsKeeps(parts: seq<seq<byte>>, pieces: seq<Option<Piece>>, saved: seq<bool>,
                                           i: nat, t: Torrent)
    requires Recordable(t) && WrittenUpTo(parts, pieces, saved, i, t) && i <= t.NumPieces()
    requires forall k :: 0 <= k < |pieces| && pieces[k].Some? ==>
      pieces[k].value.index == k && GoodPiece(pieces[k].value, t)
    ensures var r := WriteParts(parts, pieces[i..], saved);
      r.Ok? && WrittenUpTo(r.value, pieces, saved, t.NumPieces(), t)
    decreases t.NumPieces() - i
  {
    if i < t.NumPieces() {
      WriteNext(parts, pieces, saved, i, t);
      WriteAtNext(parts, pieces, saved, i);
      WritePartsKeeps(WriteAt(parts, pieces, saved, i), pieces, saved, i + 1, t);
    }
  }

  // ---------- The finished file ----------

  lemma {:induction false} ReadKeepsLength(bytes: seq<byte>, i: nat, number: nat, pieceLength: nat)
    requires i < number && ReadFrom(bytes, i, number, pieceLength).Ok?
    ensures var pieces := ReadFrom(bytes, i, number, pieceLength).value;
      && |pieces| == number - i
      && Sum(Lengths(), pieces) == |bytes|
      && forall k :: 0 <= k < |pieces| ==> pieces[k].index == i + k && pieces[k].length == |pieces[k].data|
    decreases number - i
  {
    var pieces := ReadFrom(bytes, i, number, pieceLength).value;
    if i < number - 1 {
      ReadKeepsLength(bytes[pieceLength..], i + 1, number, pieceLength);
      var later := ReadFrom(bytes[pieceLength..], i + 1, number, pieceLength).value;
      assert pieces[1..] == later;
      forall k | 0 <= k < |pieces|
        ensures pieces[k].index == i + k && pieces[k].length == |pieces[k].data|
      {
        if k > 0 {
          assert pieces[k] == later[k - 1];
        }
      }
    } else {
      assert pieces[1..] == [];
    }
  }

  lemma {:induction false} SavedLength(pieces: seq<Option<Piece>>, i: nat, pieceLength: nat)
    requires i <= |pieces| && forall k :: i <= k < |pieces| ==> IsPieceAt(pieces[k], k, pieceLength)
    ensures SaveFrom(pieces, i).Ok? && |SaveFrom(pieces, i).value| == (|pieces| - i) * pieceLength
    decreases |pieces| - i
  {
    if i < |pieces| {
      SavedLength(pieces, i + 1, pieceLength);
      var n := |pieces| - i - 1;
      assert (n + 1) * pieceLength == n * pieceLength + pieceLength;
    }
  }

  function Local(p: Piece): Piece {
    p.(downloadedFrom := "local")
  }

  lemma {:induction false} StoredAreInPlace(r: Results, t: Torrent)
    requires GoodResults(r, t) && r.piecesDone == t.NumPieces()
    ensures forall k :: 0 <= k < |r.pieces| ==>
      IsPieceAt(r.pieces[k], k, t.pieceLength) && t.sha1(r.pieces[k].value.data) == t.pieceHashes[k]
  {
    AllStored(r, t);
  }

  /** When every piece is stored, saving cannot panic, and the file loads back as the same, complete, results. */
  lemma {:induction false} SavedFileLoads(r: Results, t: Torrent)
    requires t.NumPieces() > 0 && GoodResults(r, t) && r.piecesDone == t.NumPieces()
    ensures SaveFrom(r.pieces, 0).Ok?
    ensures var again := LoadComplete(SaveFrom(r.pieces, 0).value, t);
      && again.Ok? && again.value.piecesDone == t.NumPieces() && again.value.field == seq(t.NumPieces(), _ => true)
      && |again.value.pieces| == |r.pieces|
      && forall i :: 0 <= i < |r.pieces| ==>
           r.pieces[i].Some? && again.value.pieces[i] == Some(Local(r.pieces[i].value))
  {
    var n := t.NumPieces();
    StoredAreInPlace(r, t);
    SaveThenRead(r.pieces, 0, t.pieceLength);
    SavedLength(r.pieces, 0, t.pieceLength);
    var bytes := SaveFrom(r.pieces, 0).value;
    ReadKeepsLength(bytes, 0, n, t.pieceLength);
    var pieces := ReadFrom(bytes, 0, n, t.pieceLength).value;
    forall i | 0 <= i < |pieces|
      ensures pieces[i] == Local(r.pieces[i].value)
    {
      assert pieces[i - 0] == r.pieces[i].value.(downloadedFrom := "local");
    }
    assert HashesMatch(pieces, t);
  }

  /** A finished file is accepted exactly when it splits into pieces of the right lengths with the right hashes. */
  lemma {:induction false} CompleteFileIff(bytes: seq<byte>, t: Torrent)
    requires t.NumPieces() > 0
    ensures LoadComplete(bytes, t).Ok? <==>
      && |bytes| == t.NumPieces() * t.pieceLength
      && var r := ReadFrom(bytes, 0, t.NumPieces(), t.pieceLength); r.Ok? && HashesMatch(r.value, t)
  {
    if ReadFrom(bytes, 0, t.NumPieces(), t.pieceLength).Ok? {
      ReadKeepsLength(bytes, 0, t.NumPieces(), t.pieceLength);
    }
  }

  /** Bytes `k * pieceLength` to `(k + 1) * pieceLength` of a file. */
  function Slice(bytes: seq<byte>, k: nat, pieceLength: nat): seq<byte> {
    var from := k * pieceLength;
    if 0 <= from && from + pieceLength <= |bytes| then bytes[from..from + pieceLength] else []
  }

  lemma {:induction false} SliceLater(bytes: seq<byte>, k: nat, pieceLength: nat)
    requires pieceLength <= |bytes| && (k + 2) * pieceLength <= |bytes|
    ensures Slice(bytes[pieceLength..], k, pieceLength) == Slice(bytes, k + 1, pieceLength)
  {
    assert (k + 1) * pieceLength == k * pieceLength + pieceLength;
    assert (k + 2) * pieceLength == (k + 1) * pieceLength + pieceLength;
    assert k * pieceLength >= 0;
  }

  lemma {:induction false} Room(k: nat, n: nat, pieceLength: nat)
    requires k <= n
    ensures k * pieceLength <= n * pieceLength
  {
  }

  /** A file of the right length is cut into its slices. */
  lemma {:induction false} ReadSlices(bytes: seq<byte>, i: nat, number: nat, pieceLength: nat)
    requires i < number && |bytes| == (number - i) * pieceLength
    ensures ReadFrom(bytes, i, number, pieceLength).Ok?
    ensures var pieces := ReadFrom(bytes, i, number, pieceLength).value;
      && |pieces| == number - i
      && forall k: nat :: k < number - i ==> pieces[k].index == i + k && pieces[k].data == Slice(bytes, k, pieceLength)
    decreases number - i
  {
    var n := number - i;
    Room(1, n, pieceLength);
    if i < number - 1 {
      assert n * pieceLength == (n - 1) * pieceLength + pieceLength;
      ReadSlices(bytes[pieceLength..], i + 1, number, pieceLength);
      var later := ReadFrom(bytes[pieceLength..], i + 1, number, pieceLength).value;
      var pieces := ReadFrom(bytes, i, number, pieceLength).value;
      forall k: nat | k < n
        ensures pieces[k].index == i + k && pieces[k].data == Slice(bytes, k, pieceLength)
      {
        if k > 0 {
          assert pieces[k] == later[k - 1];
          Room(k + 1, n, pieceLength);
          SliceLater(bytes, k - 1, pieceLength);
        }
      }
    }
  }

  /** A finished file is accepted if and only if it has the right length and each slice has the hash of its piece. */
  lemma {:induction false} CompleteFileInBytes(bytes: seq<byte>, t: Torrent)
    requires t.NumPieces() > 0
    ensures LoadComplete(bytes, t).Ok? <==>
      && |bytes| == |t.pieceHashes| * t.pieceLength
      && forall k: nat :: k < |t.pieceHashes| ==> t.sha1(Slice(bytes, k, t.pieceLength)) == t.pieceHashes[k]
  {
    CompleteFileIff(bytes, t);
    if |bytes| == t.NumPieces() * t.pieceLength {
      ReadSlices(bytes, 0, t.NumPieces(), t.pieceLength);
      var pieces := ReadFrom(bytes, 0, t.NumPieces(), t.pieceLength).value;
      forall k: nat | k < t.NumPieces()
        ensures t.sha1(pieces[k].data) == t.sha1(Slice(bytes, k, t.pieceLength)) && pieces[k].index == k
      {
      }
    }
  }

  /** Exactly which disks load: with a finished file that file must be right, whatever else there is; without one all
      part files must read as expected pieces. Everything that is loaded has its hash. */
  lemma {:induction false} LoadIff(d: Disk, t: Torrent)
    requires t.NumPieces() > 0
    ensures Load(d, t).Ok? <==>
      if d.full.Some? then
        && |d.full.value| == |t.pieceHashes| * t.pieceLength
        && forall k: nat :: k < |t.pieceHashes| ==>
             t.sha1(Slice(d.full.value, k, t.pieceLength)) == t.pieceHashes[k]
      else (d.parts != [] ==> t.NamesParts()) && forall k :: 0 <= k < |d.parts| ==> ReadsAsExpected(d.parts[k], t)
    ensures Load(d, t).Ok? ==>
      Load(d, t).value.complete == d.full.Some? && AllHaveHashes(Load(d, t).value.results, t)
  {
    if d.full.Some? {
      CompleteFileInBytes(d.full.value, t);
      if Load(d, t).Ok? {
        ReadKeepsLength(d.full.value, 0, t.NumPieces(), t.pieceLength);
      }
    } else {
      LoadPartsIff(NoResults(t), d.parts, 0, t);
    }
  }

  /** Every piece is accepted whole. */
  ghost predicate AllAccepted(from: nat, n: nat, pieceLength: nat, w: Writer) {
    forall k :: from <= k < n ==> w(k, pieceLength) >= pieceLength
  }

  lemma {:induction false} WrittenLength(pieces: seq<Option<Piece>>, i: nat, pieceLength: nat, w: Writer)
    requires i <= |pieces| && forall k :: i <= k < |pieces| ==> IsPieceAt(pieces[k], k, pieceLength)
    ensures |SaveTo(pieces, i, w).written| <= (|pieces| - i) * pieceLength
    ensures |SaveTo(pieces, i, w).written| == (|pieces| - i) * pieceLength <==> AllAccepted(i, |pieces|, pieceLength, w)
    ensures AllAccepted(i, |pieces|, pieceLength, w) ==>
      SaveFrom(pieces, i).Ok? && SaveTo(pieces, i, w) == Saved(Ok(()), SaveFrom(pieces, i).value)
    decreases |pieces| - i
  {
    if i < |pieces| {
      WrittenLength(pieces, i + 1, pieceLength, w);
      var n := |pieces| - i - 1;
      assert (n + 1) * pieceLength == n * pieceLength + pieceLength && n * pieceLength >= 0;
      assert AllAccepted(i, |pieces|, pieceLength, w) <==>
        w(i, pieceLength) >= pieceLength && AllAccepted(i + 1, |pieces|, pieceLength, w);
    }
  }

  /** The error of `Save` is ignored and the part files are deleted all the same (client/client.go:212-218): what was
      downloaded survives if and only if every write was accepted whole. */
  lemma {:induction false} SaveSurvivesIff(r: Results, w: Writer, t: Torrent)
    requires t.NumPieces() > 0 && GoodResults(r, t) && r.piecesDone == t.NumPieces()
    ensures LoadComplete(SaveTo(r.pieces, 0, w).written, t).Ok? <==> AllAccepted(0, t.NumPieces(), t.pieceLength, w)
  {
    StoredAreInPlace(r, t);
    WrittenLength(r.pieces, 0, t.pieceLength, w);
    SavedFileLoads(r, t);
    CompleteFileIff(SaveTo(r.pieces, 0, w).written, t);
  }

  // ---------- The length that is loaded ----------

  function PartsLength(parts: seq<seq<byte>>, j: nat): nat
    decreases |parts| - j
  {
    if j >= |parts| then 0 else Sum(Lengths(), Pieces(parts[j])) + PartsLength(parts, j + 1)
  }

  lemma {:induction false} PartsLengthNext(parts: seq<seq<byte>>, j: nat)
    requires j < |parts|
    ensures PartsLength(parts, j) == Sum(Lengths(), Pieces(parts[j])) + PartsLength(parts, j + 1)
  {
  }

  /** `TotalLength` after loading: of a finished file the torrent's, of part files the sum over their pieces. */
  function TotalLength(d: Disk, t: Torrent): nat {
    if d.full.Some? then t.NumPieces() * t.pieceLength else PartsLength(d.parts, 0)
  }

  lemma {:induction false} LoadPiecesCounts(r: Results, pieces: seq<Piece>, t: Torrent)
    requires LoadPieces(r, pieces, t).Ok?
    ensures LoadPieces(r, pieces, t).value.piecesDone == r.piecesDone + |pieces|
    decreases pieces
  {
    if pieces != [] {
      LoadPiecesCounts(Store(r, pieces[0]).value, pieces[1..], t);
    }
  }

  lemma {:induction false} SumOfEqual(pieces: seq<Piece>, t: Torrent)
    requires forall p :: p in pieces ==> GoodPiece(p, t)
    ensures Sum(Lengths(), pieces) == |pieces| * t.pieceLength
    decreases pieces
  {
    if pieces != [] {
      assert pieces[0] in pieces;
      SumOfEqual(pieces[1..], t);
      var n := |pieces| - 1;
      assert (n + 1) * t.pieceLength == n * t.pieceLength + t.pieceLength;
    }
  }

  function PartsCount(parts: seq<seq<byte>>, j: nat): nat
    decreases |parts| - j
  {
    if j >= |parts| then 0 else |Pieces(parts[j])| + PartsCount(parts, j + 1)
  }

  lemma {:induction false} LoadPartsCounts(r: Results, parts: seq<seq<byte>>, j: nat, t: Torrent)
    requires LoadParts(r, parts, j, t).Ok?
    ensures LoadParts(r, parts, j, t).value.piecesDone == r.piecesDone + PartsCount(parts, j)
    decreases |parts| - j
  {
    if j < |parts| {
      LoadPiecesCounts(r, Pieces(parts[j]), t);
      LoadPartsCounts(LoadPieces(r, Pieces(parts[j]), t).value, parts, j + 1, t);
    }
  }

  /** The pieces of all parts from `j` on. */
  function AllPieces(parts: seq<seq<byte>>, j: nat): seq<Piece>
    decreases |parts| - j
  {
    if j >= |parts| then [] else Pieces(parts[j]) + AllPieces(parts, j + 1)
  }

  lemma {:induction false} AllPiecesCount(parts: seq<seq<byte>>, j: nat)
    ensures PartsLength(parts, j) == Sum(Lengths(), AllPieces(parts, j))
    ensures PartsCount(parts, j) == |AllPieces(parts, j)|
    decreases |parts| - j
  {
    if j < |parts| {
      AllPiecesCount(parts, j + 1);
      SumConcat(Lengths(), Pieces(parts[j]), AllPieces(parts, j + 1));
    }
  }

  ghost predicate AllGood(bytes: seq<byte>, t: Torrent) {
    forall p :: p in Pieces(bytes) ==> GoodPiece(p, t)
  }

  lemma {:induction false} AllPiecesAreGood(parts: seq<seq<byte>>, j: nat, t: Torrent)
    requires forall i :: 0 <= i < |parts| ==> AllGood(parts[i], t)
    ensures forall p :: p in AllPieces(parts, j) ==> GoodPiece(p, t)
    decreases |parts| - j
  {
    if j < |parts| {
      AllPiecesAreGood(parts, j + 1, t);
      assert AllGood(parts[j], t);
    }
  }

  /** The length told to the tracker as already there is that of the pieces loaded. */
  lemma {:induction false} TotalLengthIsExact(d: Disk, t: Torrent)
    requires Recordable(t) && DiskOk(d, t)
    ensures Load(d, t).Ok? && TotalLength(d, t) == Load(d, t).value.results.piecesDone * t.pieceLength
  {
    LoadSucceeds(d, t);
    if d.full.None? {
      LoadPartsCounts(NoResults(t), d.parts, 0, t);
      AllPiecesCount(d.parts, 0);
      forall i | 0 <= i < |d.parts|
        ensures AllGood(d.parts[i], t)
      {
        assert PartOk(d.parts[i], i, t);
      }
      AllPiecesAreGood(d.parts, 0, t);
      SumOfEqual(AllPieces(d.parts, 0), t);
    }
  }

  // ---------- Whole sessions ----------

  /** Loaded results agree with those of the end of the session, except for where pieces came from. */
  ghost predicate Restores(loaded: Results, final: Results) {
    && |loaded.pieces| == |final.pieces|
    && loaded.piecesDone == final.piecesDone && loaded.field == final.field
    && forall i :: 0 <= i < |final.pieces| ==>
         match final.pieces[i]
         case Some(p) => loaded.pieces[i].Some? && loaded.pieces[i].value.(downloadedFrom := "") == Anonymous(p)
         case None => loaded.pieces[i] == None
  }

  lemma {:induction false} SameShape(a: Results, b: Results, t: Torrent)
    requires GoodResults(a, t) && GoodResults(b, t)
    requires forall i :: 0 <= i < t.NumPieces() ==> (a.pieces[i].Some? <==> b.pieces[i].Some?)
    ensures a.field == b.field && a.piecesDone == b.piecesDone
  {
    assert Done(a.pieces) == Done(b.pieces) by {
      forall x: nat
        ensures x in Done(a.pieces) <==> x in Done(b.pieces)
      {
        assert Stored(a.pieces, x) <==> Stored(b.pieces, x);
      }
    }
  }

  lemma {:induction false} ProperSubset<T>(a: set<T>, b: set<T>)
    requires a <= b && |a| != |b|
    ensures exists x :: x in b && x !in a
  {
    assert b == a + (b - a);
    var x :| x in b - a;
  }

  lemma {:induction false} SomethingMissing(r: Results, t: Torrent) returns (x: nat)
    requires GoodResults(r, t) && r.piecesDone != t.NumPieces()
    ensures x < t.NumPieces() && r.pieces[x] == None
  {
    ProperSubset(Done(r.pieces), AllIndices(t.NumPieces()));
    x :| x in AllIndices(t.NumPieces()) && x !in Done(r.pieces);
    assert !Stored(r.pieces, x);
  }

  /** Before anything is written: what was loaded is there, and nothing else. */
  lemma {:induction false} BeforeWriting(parts: seq<seq<byte>>, loaded: Results, final: Results, t: Torrent)
    requires Recordable(t) && PartsOk(parts, t) && LoadParts(NoResults(t), parts, 0, t) == Ok(loaded)
    requires GoodResults(final, t) && |loaded.pieces| == t.NumPieces()
    requires forall i :: 0 <= i < t.NumPieces() && loaded.pieces[i].Some? ==> final.pieces[i] == loaded.pieces[i]
    ensures WrittenUpTo(parts, final.pieces, loaded.field, 0, t)
  {
    LoadRestoresParts(parts, t);
    forall x | 0 <= x < t.NumPieces()
      ensures WrittenAt(Logged(parts, x), final.pieces[x], loaded.field[x], x, 0)
    {
      if loaded.field[x] {
        LoggedIsAnonymous(parts, x, t);
      }
    }
  }

  lemma {:induction false} NewPartsAreWritten(parts: seq<seq<byte>>, loaded: Results, final: Results, t: Torrent)
    requires Recordable(t) && PartsOk(parts, t) && LoadParts(NoResults(t), parts, 0, t) == Ok(loaded)
    requires GoodResults(final, t) && |loaded.pieces| == t.NumPieces()
    requires forall i :: 0 <= i < t.NumPieces() && loaded.pieces[i].Some? ==> final.pieces[i] == loaded.pieces[i]
    ensures var r := WriteParts(parts, final.pieces, loaded.field);
      r.Ok? && WrittenUpTo(r.value, final.pieces, loaded.field, t.NumPieces(), t)
  {
    BeforeWriting(parts, loaded, final, t);
    WritePartsKeeps(parts, final.pieces, loaded.field, 0, t);
    assert final.pieces[0..] == final.pieces;
  }

  lemma {:induction false} WrittenPartsLoad(written: seq<seq<byte>>, saved: seq<bool>, final: Results, t: Torrent)
    requires GoodResults(final, t) && final.piecesDone != t.NumPieces() && t.NumPieces() > 0 && t.NamesParts()
    requires WrittenUpTo(written, final.pieces, saved, t.NumPieces(), t)
    ensures DiskOk(Disk(written, None), t)
    ensures LoadParts(NoResults(t), written, 0, t).Ok? && Restores(LoadParts(NoResults(t), written, 0, t).value, final)
  {
    LoadRestoresParts(written, t);
    var again := LoadParts(NoResults(t), written, 0, t).value;
    assert forall x :: 0 <= x < t.NumPieces() ==> AsStored(Logged(written, x), final.pieces[x]);
    SameShape(again, final, t);
    var x := SomethingMissing(final, t);
    assert Logged(written, x) == None;
  }

  /** A session that does not finish: the new pieces join those on disk, and the next load has them all. */
  lemma {:induction false} SavingPartsRestores(parts: seq<seq<byte>>, loaded: Results, final: Results, t: Torrent)
    requires Recordable(t) && PartsOk(parts, t) && LoadParts(NoResults(t), parts, 0, t) == Ok(loaded)
    requires GoodResults(final, t) && final.piecesDone != t.NumPieces() && |loaded.pieces| == t.NumPieces()
    requires forall i :: 0 <= i < t.NumPieces() && loaded.pieces[i].Some? ==> final.pieces[i] == loaded.pieces[i]
    ensures var r := WriteParts(parts, final.pieces, loaded.field);
      && r.Ok? && DiskOk(Disk(r.value, None), t)
      && LoadParts(NoResults(t), r.value, 0, t).Ok?
      && Restores(LoadParts(NoResults(t), r.value, 0, t).value, final)
  {
    NewPartsAreWritten(parts, loaded, final, t);
    WrittenPartsLoad(WriteParts(parts, final.pieces, loaded.field).value, loaded.field, final, t);
  }

  lemma {:induction false} LoggedIsAnonymous(parts: seq<seq<byte>>, x: nat, t: Torrent)
    requires PartsOk(parts, t) && x < t.NumPieces() && Logged(parts, x).Some?
    ensures Anonymous(Logged(parts, x).value) == Logged(parts, x).value
  {
    var j := x / PIECES_PER_PART;
    assert PartOk(parts[j], j, t);
    var _ := AcceptedIsLog(parts[j]);
  }

  lemma {:induction false} LoadSucceeds(d: Disk, t: Torrent)
    requires Recordable(t) && DiskOk(d, t)
    ensures Load(d, t).Ok?
    ensures !Load(d, t).value.complete ==> PartsOk(d.parts, t) && Load(d, t).value.results.piecesDone < t.NumPieces()
  {
    if d.full.None? {
      LoadRestoresParts(d.parts, t);
      var r := LoadParts(NoResults(t), d.parts, 0, t).value;
      var x: nat :| x < t.NumPieces() && Logged(d.parts, x) == None;
      assert r.pieces[x] == None;
      if r.piecesDone >= t.NumPieces() {
        DoneIsBounded(r, t);
        AllStored(r, t);
      }
    }
  }

  lemma {:induction false} DoneIsBounded(r: Results, t: Torrent)
    requires GoodResults(r, t)
    ensures r.piecesDone <= t.NumPieces()
  {
    SubsetSize(Done(r.pieces), AllIndices(t.NumPieces()));
  }

  lemma {:induction false} CompleteStaysComplete(loaded: Results, final: Results, t: Torrent)
    requires GoodResults(final, t) && |loaded.pieces| == t.NumPieces()
    requires forall i :: 0 <= i < t.NumPieces() ==> loaded.pieces[i].Some? && final.pieces[i] == loaded.pieces[i]
    requires loaded.piecesDone == t.NumPieces() && loaded.field == seq(t.NumPieces(), _ => true)
    ensures Restores(loaded, final)
  {
    assert Done(final.pieces) == AllIndices(t.NumPieces()) by {
      assert forall x: nat :: x < t.NumPieces() ==> Stored(final.pieces, x);
    }
  }

  lemma {:induction false} SavedFileRestores(final: Results, t: Torrent)
    requires t.NumPieces() > 0 && GoodResults(final, t) && final.piecesDone == t.NumPieces()
    ensures SaveFrom(final.pieces, 0).Ok?
    ensures var again := LoadComplete(SaveFrom(final.pieces, 0).value, t);
      again.Ok? && Restores(again.value, final)
  {
    SavedFileLoads(final, t);
    assert final.field == seq(t.NumPieces(), _ => true);
  }

  /** What a session leaves, and that the next load gives these results back. */
  ghost predicate Kept(next: Outcome<Disk>, results: Results, t: Torrent)
    requires t.NumPieces() > 0
  {
    && next.Ok? && DiskOk(next.value, t)
    && Load(next.value, t).Ok? && Restores(Load(next.value, t).value.results, results)
  }

  /** The pieces held now contain those that were loaded. */
  ghost predicate Extends(now: Results, loaded: Results, t: Torrent) {
    && GoodResults(now, t) && |loaded.pieces| == t.NumPieces()
    && forall i :: 0 <= i < t.NumPieces() && loaded.pieces[i].Some? ==> now.pieces[i] == loaded.pieces[i]
  }

  lemma {:induction false} RestoresItself(r: Results)
    ensures Restores(r, r)
  {
  }

  /** A session that started with the finished file leaves it as it is. */
  lemma {:induction false} CompleteKeeps(d: Disk, loaded: Loaded, now: Results, t: Torrent)
    requires Recordable(t) && DiskOk(d, t) && Load(d, t) == Ok(loaded) && loaded.complete
    requires Extends(now, loaded.results, t)
    ensures now.piecesDone == t.NumPieces() && Meanwhile(d, loaded, now, t) == Ok(d) && Kept(Ok(d), now, t)
  {
    ReadKeepsLength(d.full.value, 0, t.NumPieces(), t.pieceLength);
    CompleteStaysComplete(loaded.results, now, t);
  }

  lemma {:induction false} LoadedIsKept(d: Disk, loaded: Loaded, t: Torrent)
    requires t.NumPieces() > 0 && DiskOk(d, t) && Load(d, t) == Ok(loaded)
    ensures Kept(Ok(d), loaded.results, t)
  {
    RestoresItself(loaded.results);
  }

  lemma {:induction false} SavedFileIsKept(parts: seq<seq<byte>>, now: Results, t: Torrent)
    requires Recordable(t) && GoodResults(now, t) && now.piecesDone == t.NumPieces()
    ensures SaveFrom(now.pieces, 0).Ok?
    ensures Kept(DeleteParts(Disk(parts, Some(SaveFrom(now.pieces, 0).value)), t), now, t)
  {
    SavedFileRestores(now, t);
  }

  /** While the loop runs, the disk is good: a session that is stopped here has lost what it downloaded, unless it was
      everything, and nothing else. */
  lemma {:induction false} MeanwhileKeeps(d: Disk, loaded: Loaded, now: Results, t: Torrent)
    requires Recordable(t) && DiskOk(d, t) && Load(d, t) == Ok(loaded) && Extends(now, loaded.results, t)
    ensures Kept(Meanwhile(d, loaded, now, t), if now.piecesDone == t.NumPieces() then now else loaded.results, t)
  {
    if loaded.complete {
      CompleteKeeps(d, loaded, now, t);
    } else if now.piecesDone == t.NumPieces() {
      SavedFileIsKept(d.parts, now, t);
    } else {
      LoadedIsKept(d, loaded, t);
    }
  }

  lemma {:induction false} FinishKeeps(d: Disk, loaded: Loaded, final: Results, t: Torrent)
    requires Recordable(t) && DiskOk(d, t) && Load(d, t) == Ok(loaded) && Extends(final, loaded.results, t)
    ensures Kept(Finish(d, loaded, final, t), final, t)
  {
    if loaded.complete {
      CompleteKeeps(d, loaded, final, t);
    } else if final.piecesDone == t.NumPieces() {
      SavedFileIsKept(d.parts, final, t);
    } else {
      LoadSucceeds(d, t);
      SavingPartsRestores(d.parts, loaded.results, final, t);
    }
  }

  lemma {:induction false} LastStateIsAccounted(s: System, moves: seq<Move>, t: Torrent)
    requires Accounted(s, t)
    ensures Accounted(LastState(s, moves, t), t)
    ensures RunSystem(s, moves, t).Ok? ==> LastState(s, moves, t) == RunSystem(s, moves, t).value
    ensures forall i :: 0 <= i < |s.results.pieces| && s.results.pieces[i].Some? ==>
      LastState(s, moves, t).results.pieces[i] == s.results.pieces[i]
    decreases moves
  {
    if moves != [] && Step(s, moves[0], t).Ok? {
      StepIsMonotone(s, moves[0], t);
      StepKeepsAccounted(s, moves[0], t);
      LastStateIsAccounted(Step(s, moves[0], t).value, moves[1..], t);
    }
  }

  /** What survives a session: all that it had if it ends regularly or had everything, and otherwise what it loaded. */
  function Surviving(loaded: Loaded, session: Session, t: Torrent): Results {
    var last := LastState(Start(session, loaded.results), session.moves, t).results;
    if EndsRegularly(session, loaded.results, t) || last.piecesDone == t.NumPieces() then last else loaded.results
  }

  /** One session, whatever its connections do and however it ends: loading and saving succeed, the disk stays good,
      and the next load gives back every piece, the field and the count of what survives it. */
  lemma {:induction false} SessionKeepsDisk(d: Disk, session: Session, t: Torrent)
    requires Recordable(t) && DiskOk(d, t) && ValidSession(d, session, t)
    ensures Load(d, t).Ok? && Kept(RunSession(d, session, t), Surviving(Load(d, t).value, session, t), t)
  {
    LoadSucceeds(d, t);
    var loaded := Load(d, t).value;
    var s0 := Start(session, loaded.results);
    var last := LastState(s0, session.moves, t).results;
    LastStateIsAccounted(s0, session.moves, t);
    assert Extends(last, loaded.results, t);
    if EndsRegularly(session, loaded.results, t) {
      FinishKeeps(d, loaded, last, t);
    } else {
      MeanwhileKeeps(d, loaded, last, t);
    }
  }

  /** Sessions by induction, from any good disk: no load and no save ever fails, each index is in the part files
      at most once and in part `index / 1000`. */
  lemma {:induction false} SessionsKeepDisk(d: Disk, sessions: seq<Session>, t: Torrent)
    requires Recordable(t) && DiskOk(d, t) && ValidSessions(d, sessions, t)
    ensures RunSessions(d, sessions, t).Ok? && DiskOk(RunSessions(d, sessions, t).value, t)
    decreases sessions
  {
    if sessions != [] {
      SessionKeepsDisk(d, sessions[0], t);
      SessionsKeepDisk(RunSession(d, sessions[0], t).value, sessions[1..], t);
    }
  }

  /** Every piece that was there is there still, with the same contents. */
  ghost predicate Remembers(later: Results, earlier: Results) {
    && |later.pieces| == |earlier.pieces|
    && forall i :: 0 <= i < |earlier.pieces| && earlier.pieces[i].Some? ==>
         SamePiece(later.pieces[i], earlier.pieces[i].value)
  }

  predicate SamePiece(held: Option<Piece>, p: Piece) {
    held.Some? && held.value.index == p.index && held.value.length == p.length && held.value.data == p.data
  }

  lemma {:induction false} SessionForgetsNothing(d: Disk, session: Session, t: Torrent)
    requires Recordable(t) && DiskOk(d, t) && ValidSession(d, session, t)
    ensures var next := RunSession(d, session, t);
      && Load(d, t).Ok? && next.Ok? && DiskOk(next.value, t) && Load(next.value, t).Ok?
      && Remembers(Load(next.value, t).value.results, Load(d, t).value.results)
  {
    SessionKeepsDisk(d, session, t);
    var loaded := Load(d, t).value;
    LastStateIsAccounted(Start(session, loaded.results), session.moves, t);
    var again := Load(RunSession(d, session, t).value, t).value.results;
    SurvivingRestored(again, Surviving(loaded, session, t), loaded.results);
  }

  lemma {:induction false} SurvivingRestored(again: Results, surviving: Results, loaded: Results)
    requires Restores(again, surviving) && |surviving.pieces| == |loaded.pieces|
    requires forall i :: 0 <= i < |loaded.pieces| && loaded.pieces[i].Some? ==> surviving.pieces[i] == loaded.pieces[i]
    ensures Remembers(again, loaded)
  {
    forall i | 0 <= i < |loaded.pieces| && loaded.pieces[i].Some?
      ensures SamePiece(again.pieces[i], loaded.pieces[i].value)
    {
      assert surviving.pieces[i] == loaded.pieces[i];
    }
  }

  lemma {:induction false} RemembersChain(a: Results, b: Results, c: Results)
    requires Remembers(b, a) && Remembers(c, b)
    ensures Remembers(c, a)
  {
    forall i | 0 <= i < |a.pieces| && a.pieces[i].Some?
      ensures SamePiece(c.pieces[i], a.pieces[i].value)
    {
      assert SamePiece(b.pieces[i], a.pieces[i].value);
    }
  }

  /** However many sessions follow, and however they end: no piece on a good disk is ever forgotten. */
  lemma {:induction false} SessionsForgetNothing(d: Disk, sessions: seq<Session>, t: Torrent)
    requires Recordable(t) && DiskOk(d, t) && ValidSessions(d, sessions, t)
    ensures var end := RunSessions(d, sessions, t);
      && Load(d, t).Ok? && end.Ok? && Load(end.value, t).Ok?
      && Remembers(Load(end.value, t).value.results, Load(d, t).value.results)
    decreases sessions
  {
    LoadSucceeds(d, t);
    if sessions != [] {
      SessionForgetsNothing(d, sessions[0], t);
      var next := RunSession(d, sessions[0], t).value;
      SessionsForgetNothing(next, sessions[1..], t);
      RemembersChain(Load(d, t).value.results, Load(next, t).value.results,
                     Load(RunSessions(d, sessions, t).value, t).value.results);
    }
  }

  lemma {:induction false} EmptyDiskIsOk(t: Torrent)
    requires Recordable(t)
    ensures DiskOk(Disk(NoParts(t), None), t)
  {
    LogRoundTrip([]);
    assert Logged(NoParts(t), 0) == None;
  }

  /** An order for each of the first `n` pieces that is missing. */
  function MissingOrders(r: Results, t: Torrent, n: nat): seq<PieceOrder>
    requires n <= t.NumPieces() == |r.pieces|
  {
    if n == 0 then []
    else
      var last := PieceOrder(n - 1, t.pieceLength, t.pieceHashes[n - 1]);
      MissingOrders(r, t, n - 1) + (if r.pieces[n - 1].None? then [last] else [])
  }

  lemma {:induction false} EachMissingOnce(r: Results, t: Torrent, n: nat, x: nat)
    requires n <= t.NumPieces() == |r.pieces|
    ensures forall o :: o in MissingOrders(r, t, n) ==> GoodOrder(o, t)
    ensures Sum(OrderIs(x), MissingOrders(r, t, n)) == if x < n && r.pieces[x].None? then 1 else 0
  {
    if n > 0 {
      EachMissingOnce(r, t, n - 1, x);
      var o := PieceOrder(n - 1, t.pieceLength, t.pieceHashes[n - 1]);
      SumConcat(OrderIs(x), MissingOrders(r, t, n - 1), if r.pieces[n - 1].None? then [o] else []);
      SumOne(OrderIs(x), o);
    }
  }

  /** On every good disk a session can start, with an order for each missing piece. */
  lemma {:induction false} SessionCanStart(d: Disk, t: Torrent) returns (session: Session)
    requires Recordable(t) && DiskOk(d, t)
    ensures Load(d, t).Ok? && ValidSession(d, session, t)
    ensures Started(Start(session, Load(d, t).value.results), t)
  {
    LoadIsGood(d, t);
    var r := Load(d, t).value.results;
    session := Session(MissingOrders(r, t, t.NumPieces()), [], Exit);
    EachMissingOnce(r, t, t.NumPieces(), 0);
    forall x: nat
      ensures Sum(OrderIs(x), session.orders) == if x < t.NumPieces() && !Stored(r.pieces, x) then 1 else 0
    {
      EachMissingOnce(r, t, t.NumPieces(), x);
    }
  }

  lemma {:induction false} LoadIsGood(d: Disk, t: Torrent)
    requires Recordable(t) && DiskOk(d, t)
    ensures Load(d, t).Ok? && GoodResults(Load(d, t).value.results, t)
  {
    LoadSucceeds(d, t);
    if d.full.None? {
      LoadRestoresParts(d.parts, t);
    } else {
      CompleteIsGood(d.full.value, t);
    }
  }

  /** What is loaded from a finished file are genuine pieces, each in its own place. */
  lemma {:induction false} CompleteIsGood(bytes: seq<byte>, t: Torrent)
    requires t.NumPieces() > 0 && LoadComplete(bytes, t).Ok?
    ensures GoodResults(LoadComplete(bytes, t).value, t)
  {
    var n := t.NumPieces();
    ReadKeepsLength(bytes, 0, n, t.pieceLength);
    ReadGivesPieceLength(bytes, 0, n, t.pieceLength);
    var r := LoadComplete(bytes, t).value;
    assert Done(r.pieces) == AllIndices(n) by {
      assert forall x: nat :: x < n ==> Stored(r.pieces, x);
    }
  }

  lemma {:induction false} ReadGivesPieceLength(bytes: seq<byte>, i: nat, number: nat, pieceLength: nat)
    requires i < number && ReadFrom(bytes, i, number, pieceLength).Ok? && |bytes| == (number - i) * pieceLength
    ensures forall p :: p in ReadFrom(bytes, i, number, pieceLength).value ==> p.length == |p.data| == pieceLength
    decreases number - i
  {
    if i < number - 1 {
      var n := number - i - 1;
      assert (n + 1) * pieceLength == n * pieceLength + pieceLength;
      ReadGivesPieceLength(bytes[pieceLength..], i + 1, number, pieceLength);
    }
  }

  /** A part file read as a list of pieces: the log of just these, genuine, of this part, and each there once. */
  ghost predicate HoldsOnce(bytes: seq<byte>, pieces: seq<Piece>, j: nat, t: Torrent) {
    && bytes == Log(pieces) && ReadLog(bytes) == Ok(pieces)
    && (forall i, k :: 0 <= i < k < |pieces| ==> pieces[i].index != pieces[k].index)
    && (forall p :: p in pieces ==> GoodPiece(p, t) && p.index / 1000 == j)
  }

  ghost predicate IsPartFile(bytes: seq<byte>, j: nat, t: Torrent) {
    exists pieces :: HoldsOnce(bytes, pieces, j, t)
  }

  /** Any number of sessions from an empty disk: no load and no save fails, and in the end either the finished file
      is there and loads, or part `j` holds genuine pieces with index / 1000 == j, no index twice. */
  lemma {:induction false} SessionsFromEmptyDisk(sessions: seq<Session>, t: Torrent)
    requires Recordable(t) && ValidSessions(Disk(NoParts(t), None), sessions, t)
    ensures var r := RunSessions(Disk(NoParts(t), None), sessions, t);
      && r.Ok? && Load(r.value, t).Ok?
      && (r.value.full.None? ==> |r.value.parts| == t.NumPieces() / 1000 + 1)
      && (r.value.full.None? ==> forall j :: 0 <= j < |r.value.parts| ==> IsPartFile(r.value.parts[j], j, t))
  {
    EmptyDiskIsOk(t);
    SessionsKeepDisk(Disk(NoParts(t), None), sessions, t);
    var d := RunSessions(Disk(NoParts(t), None), sessions, t).value;
    LoadSucceeds(d, t);
    forall j | d.full.None? && 0 <= j < |d.parts|
      ensures IsPartFile(d.parts[j], j, t)
    {
      assert PartOk(d.parts[j], j, t);
      assert HoldsOnce(d.parts[j], ReadLog(d.parts[j]).value, j, t);
    }
  }

  /** From an empty disk sessions run if and only if the torrent's name has at least 20 bytes: with a shorter one the
      very first load panics. */
  lemma {:induction false} SessionsRunIff(sessions: seq<Session>, t: Torrent)
    requires FitsRecords(t) && sessions != [] && ValidSessions(Disk(NoParts(t), None), sessions, t)
    ensures RunSessions(Disk(NoParts(t), None), sessions, t).Ok? <==> t.NamesParts()
    ensures !t.NamesParts() ==> RunSession(Disk(NoParts(t), None), sessions[0], t).Panic?
  {
    if t.NamesParts() {
      SessionsFromEmptyDisk(sessions, t);
    } else {
      assert LoadParts(NoResults(t), NoParts(t), 0, t).Panic?;
    }
  }

  /** With such a name a finished file does not help: its part files cannot be deleted. */
  lemma {:induction false} ShortNameNeverRuns(d: Disk, session: Session, t: Torrent)
    requires FitsRecords(t) && !t.NamesParts() && |d.parts| == NumParts(t)
    ensures !RunSession(d, session, t).Ok?
  {
    if d.full.None? {
      assert LoadParts(NoResults(t), d.parts, 0, t).Panic?;
    }
  }
}
