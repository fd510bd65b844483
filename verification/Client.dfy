/** The main loop of client/client.go with its variables changed in place: what is loaded, ordered, stored and saved. */
module Clients {
  import opened Types
  import opened Bitfields
  import opened Sums
  import opened Storage
  import opened Scheduler
  import opened Sessions

  // ---------- Results, one after the other ----------

  /** The Results case of the main loop for each of a list of pieces. */
  function StoreAll(r: Results, pieces: seq<Piece>): Outcome<Results>
    decreases pieces
  {
    if pieces == [] then Ok(r)
    else match Store(r, pieces[0])
      case Ok(next) => StoreAll(next, pieces[1..])
      case Err => Err
      case Panic => Panic
  }

  /** The pieces that a run takes from the Results channel, up to its end or the move that brings the process down. */
  function TakenPieces(s: System, moves: seq<Move>, t: Torrent): seq<Piece>
    decreases moves
  {
    if moves == [] || !Step(s, moves[0], t).Ok? then []
    else
      var later := TakenPieces(Step(s, moves[0], t).value, moves[1..], t);
      if moves[0].StoreResult? && s.finished != [] then [s.finished[0]] + later else later
  }

  /** Only the main loop changes the results, and it does so one taken piece at a time. */
  lemma {:induction false} RunStoresWhatItTakes(s: System, moves: seq<Move>, t: Torrent)
    ensures StoreAll(s.results, TakenPieces(s, moves, t)) == Ok(LastState(s, moves, t).results)
    decreases moves
  {
    if moves != [] && Step(s, moves[0], t).Ok? {
      var next := Step(s, moves[0], t).value;
      RunStoresWhatItTakes(next, moves[1..], t);
      if moves[0].StoreResult? && s.finished != [] {
        assert ([s.finished[0]] + TakenPieces(next, moves[1..], t))[1..] == TakenPieces(next, moves[1..], t);
      }
    }
  }

  // ---------- Marking first and storing afterwards ----------

  lemma {:induction false} MarkIsMonotone(field: seq<bool>, pieces: seq<Piece>)
    ensures forall i :: 0 <= i < |field| && field[i] ==> Mark(field, pieces)[i]
    decreases pieces
  {
    forall i | 0 <= i < |field| && field[i]
      ensures Mark(field, pieces)[i]
    {
      MarkSets(field, pieces, i);
    }
  }

  function SameField(r: Outcome<Results>, field: seq<bool>): Outcome<Results> {
    match r
    case Ok(next) => Ok(next.(field := field))
    case Err => Err
    case Panic => Panic
  }

  /** `ReadPartialFile` marks all its pieces before the first is checked; storing them then marks nothing new. */
  lemma {:induction false} LoadMarkedPieces(r: Results, pieces: seq<Piece>, t: Torrent)
    ensures LoadPieces(r.(field := Mark(r.field, pieces)), pieces, t) ==
      SameField(LoadPieces(r, pieces, t), Mark(r.field, pieces))
    ensures LoadPieces(r, pieces, t).Ok? ==> LoadPieces(r, pieces, t).value.field == Mark(r.field, pieces)
    decreases pieces
  {
    if pieces != [] {
      var p := pieces[0];
      var marked := Mark(r.field, pieces);
      if LoadPiece(r, p, t).Ok? {
        var next := Store(r, p).value;
        assert marked == Mark(next.field, pieces[1..]);
        MarkIsMonotone(next.field, pieces[1..]);
        assert p.index < |marked| ==> marked[p.index := true] == marked;
        assert Store(r.(field := marked), p).value == next.(field := marked);
        LoadMarkedPieces(next, pieces[1..], t);
      }
    }
  }

  // ---------- Orders ----------

  ghost predicate IsPermutation(perm: seq<nat>, n: nat) {
    && (forall x :: x in perm <==> 0 <= x < n)
    && (forall i, j :: 0 <= i < j < |perm| ==> perm[i] != perm[j])
  }

  /** One order for each index in `perm[..i]` that is not there yet. */
  ghost predicate OrderedUpTo(orders: seq<PieceOrder>, perm: seq<nat>, i: nat, field: seq<bool>)
    requires i <= |perm|
  {
    forall x: nat :: Sum(OrderIs(x), orders) == if x in perm[..i] && x < |field| && !field[x] then 1 else 0
  }

  lemma {:induction false} OrderNext(orders: seq<PieceOrder>, perm: seq<nat>, i: nat, field: seq<bool>, o: PieceOrder)
    requires i < |perm| && IsPermutation(perm, |field|) && OrderedUpTo(orders, perm, i, field)
    requires o.index == perm[i] < |field|
    ensures OrderedUpTo(if field[perm[i]] then orders else orders + [o], perm, i + 1, field)
  {
    assert perm[..i + 1] == perm[..i] + [perm[i]];
    assert perm[i] !in perm[..i];
    forall x: nat
      ensures Sum(OrderIs(x), orders + [o]) == Sum(OrderIs(x), orders) + if x == perm[i] then 1 else 0
    {
      SumConcat(OrderIs(x), orders, [o]);
      SumOne(OrderIs(x), o);
    }
  }

  lemma {:induction false} OrderedIsStarted(orders: seq<PieceOrder>, perm: seq<nat>, r: Results, t: Torrent)
    requires IsPermutation(perm, t.NumPieces()) && GoodResults(r, t)
    requires OrderedUpTo(orders, perm, |perm|, r.field)
    requires forall o :: o in orders ==> GoodOrder(o, t)
    ensures Started(System(orders, [], [], r, {}), t)
  {
    assert perm[..|perm|] == perm;
    forall x: nat
      ensures Sum(OrderIs(x), orders) == if x < t.NumPieces() && !Stored(r.pieces, x) then 1 else 0
    {
      assert x < t.NumPieces() ==> (r.field[x] <==> Stored(r.pieces, x));
      assert x in perm <==> x < t.NumPieces();
    }
  }

  // ---------- The main loop ----------

  /** What wakes the main loop; only results matter here. The list ends where the loop is told to exit. */
  datatype MainEvent = Result(piece: Piece) | Other

  function ResultsOf(events: seq<MainEvent>): seq<Piece> {
    if events == [] then []
    else (if events[0].Result? then [events[0].piece] else []) + ResultsOf(events[1..])
  }

  /** In the middle of the main loop: the results, the disk, and whether the finished file is written. */
  datatype MainState = MainState(results: Results, disk: Disk, saved: bool)

  /** How the writes to the finished file and to the part files go. */
  datatype Writes = Writes(file: Writer, parts: Writer)

  /** Lines 206-222: an error of `Save` is ignored, and the part files are deleted whatever it was. */
  function SaveWhenDone(m: MainState, w: Writes, t: Torrent): Outcome<MainState> {
    if m.results.piecesDone != t.NumPieces() || m.saved then Ok(m)
    else
      var s := SaveTo(m.results.pieces, 0, w.file);
      if s.outcome.Panic? then Panic
      else match DeleteParts(Disk(m.disk.parts, Some(s.written)), t)
        case Ok(disk) => Ok(MainState(m.results, disk, true))
        case Err => Err
        case Panic => Panic
  }

  /** One iteration (lines 128-223). */
  function OnEvent(m: MainState, event: MainEvent, w: Writes, t: Torrent): Outcome<MainState> {
    match event
    case Other => SaveWhenDone(m, w, t)
    case Result(p) =>
      match Store(m.results, p)
      case Ok(r) => SaveWhenDone(m.(results := r), w, t)
      case Err => Err
      case Panic => Panic
  }

  function OnEvents(m: MainState, events: seq<MainEvent>, w: Writes, t: Torrent): Outcome<MainState>
    decreases events
  {
    if events == [] then Ok(m)
    else match OnEvent(m, events[0], w, t)
      case Ok(next) => OnEvents(next, events[1..], w, t)
      case Err => Err
      case Panic => Panic
  }

  /** After the loop (lines 225-232): an error of `savePartialFiles` is only logged. */
  function AtExit(m: MainState, loaded: Loaded, w: Writes, t: Torrent): Outcome<Disk> {
    if m.saved || loaded.results.piecesDone >= t.NumPieces() then Ok(m.disk)
    else if !t.NamesParts() then Panic
    else Ok(m.disk.(parts := WritePartsTo(m.disk.parts, m.results.pieces, loaded.results.field, w.parts, 0).parts))
  }

  /** Before the loop (lines 69-75). */
  function AfterLoad(d: Disk, loaded: Loaded, t: Torrent): Outcome<MainState> {
    match if loaded.complete then DeleteParts(d, t) else Ok(d)
    case Ok(disk) => Ok(MainState(loaded.results, disk, loaded.complete))
    case Err => Err
    case Panic => Panic
  }

  /** What one life of the process leaves on disk. Without a tracker it exits before the loop (lines 81-85). */
  function Process(d: Disk, tracker: bool, events: seq<MainEvent>, w: Writes, t: Torrent): Outcome<Disk>
    requires t.NumPieces() > 0
  {
    match Load(d, t)
    case Err => Err
    case Panic => Panic
    case Ok(loaded) =>
      match AfterLoad(d, loaded, t)
      case Err => Err
      case Panic => Panic
      case Ok(m0) =>
        if !tracker then Ok(m0.disk)
        else match OnEvents(m0, events, w, t)
          case Ok(m) => AtExit(m, loaded, w, t)
          case Err => Err
          case Panic => Panic
  }

  lemma {:induction false} StoreAllCounts(r: Results, pieces: seq<Piece>)
    requires StoreAll(r, pieces).Ok?
    ensures StoreAll(r, pieces).value.piecesDone == r.piecesDone + |pieces|
    decreases pieces
  {
    if pieces != [] {
      StoreAllCounts(Store(r, pieces[0]).value, pieces[1..]);
    }
  }

  lemma {:induction false} SumNext(f: Piece -> nat, pieces: seq<Piece>, i: nat)
    requires i < |pieces|
    ensures Sum(f, pieces[..i + 1]) == Sum(f, pieces[..i]) + f(pieces[i])
  {
    assert pieces[..i + 1] == pieces[..i] + [pieces[i]];
    SumConcat(f, pieces[..i], [pieces[i]]);
    SumOne(f, pieces[i]);
  }

  lemma {:induction false} ReadNeverPanics(bytes: seq<byte>, i: nat, number: nat, pieceLength: nat)
    requires i < number
    ensures !ReadFrom(bytes, i, number, pieceLength).Panic?
    decreases number - i
  {
    if i < number - 1 && |bytes| >= pieceLength {
      ReadNeverPanics(bytes[pieceLength..], i + 1, number, pieceLength);
    }
  }

  ghost predicate AllReliable(w: Writes) {
    Reliable(w.file) && Reliable(w.parts)
  }

  /** Until more pieces are counted than there are, the disk is what a session leaves if it is stopped here. */
  ghost predicate SavedSoFar(d: Disk, loaded: Loaded, m: MainState, t: Torrent) {
    && m.saved == (loaded.complete || m.results.piecesDone >= t.NumPieces())
    && (m.results.piecesDone <= t.NumPieces() ==> Meanwhile(d, loaded, m.results, t) == Ok(m.disk))
  }

  lemma {:induction false} EventKeepsSaved(d: Disk, loaded: Loaded, m: MainState, event: MainEvent, w: Writes,
                                           t: Torrent)
    requires Reliable(w.file) && SavedSoFar(d, loaded, m, t)
    requires event.Result? ==> Store(m.results, event.piece).Ok?
    ensures var r := OnEvent(m, event, w, t);
      var now := if event.Result? then Store(m.results, event.piece).value else m.results;
      && (r.Ok? ==> SavedSoFar(d, loaded, r.value, t) && r.value.results == now)
      && (!r.Ok? ==>
            r.Panic? && now.piecesDone == t.NumPieces() && !loaded.complete && Meanwhile(d, loaded, now, t).Panic?)
  {
    var now := if event.Result? then Store(m.results, event.piece).value else m.results;
    SaveToReliable(now.pieces, 0, w.file);
  }

  /** What `Finish` says, from the state in which the loop ends. */
  lemma {:induction false} ExitIsFinish(d: Disk, loaded: Loaded, m: MainState, w: Writes, t: Torrent)
    requires AllReliable(w) && SavedSoFar(d, loaded, m, t) && d.full.Some? == loaded.complete
    requires m.results.piecesDone <= t.NumPieces() && (loaded.complete || loaded.results.piecesDone < t.NumPieces())
    requires !Finish(d, loaded, m.results, t).Err?
    ensures AtExit(m, loaded, w, t) == Finish(d, loaded, m.results, t)
  {
    WritePartsToReliable(m.disk.parts, m.results.pieces, loaded.results.field, w.parts, 0);
    WritePartsNeverPanics(m.disk.parts, m.results.pieces, loaded.results.field);
  }

  /** From any point of the loop: where it is stopped, the disk is what `Meanwhile` says. */
  lemma {:induction false} LoopLeaves(d: Disk, loaded: Loaded, m: MainState, events: seq<MainEvent>, w: Writes,
                                      t: Torrent)
    requires Reliable(w.file) && SavedSoFar(d, loaded, m, t)
    requires StoreAll(m.results, ResultsOf(events)).Ok?
    requires StoreAll(m.results, ResultsOf(events)).value.piecesDone <= t.NumPieces()
    ensures var final := StoreAll(m.results, ResultsOf(events)).value;
      match OnEvents(m, events, w, t)
      case Ok(end) => SavedSoFar(d, loaded, end, t) && end.results == final
      case Err => false
      case Panic => !loaded.complete && Meanwhile(d, loaded, final, t).Panic?
    decreases events
  {
    if events != [] {
      var later := ResultsOf(events[1..]);
      if events[0].Result? {
        assert ResultsOf(events) == [events[0].piece] + later;
        assert ResultsOf(events)[1..] == later;
      } else {
        assert ResultsOf(events) == later;
      }
      var now := if events[0].Result? then Store(m.results, events[0].piece).value else m.results;
      assert StoreAll(now, later) == StoreAll(m.results, ResultsOf(events));
      StoreAllCounts(now, later);
      EventKeepsSaved(d, loaded, m, events[0], w, t);
      var next := OnEvent(m, events[0], w, t);
      if next.Ok? {
        LoopLeaves(d, loaded, next.value, events[1..], w, t);
      } else {
        assert later == [];
      }
    }
  }

  /** The loop's events are those of the session. */
  ghost predicate Hears(d: Disk, session: Session, events: seq<MainEvent>, t: Torrent)
    requires t.NumPieces() > 0
  {
    Load(d, t).Ok? ==> ResultsOf(events) == TakenPieces(Start(session, Load(d, t).value.results), session.moves, t)
  }

  lemma {:induction false} SessionResults(d: Disk, session: Session, t: Torrent)
    requires Recordable(t) && DiskOk(d, t) && ValidSession(d, session, t)
    ensures Load(d, t).Ok?
    ensures var loaded := Load(d, t).value.results;
      var s0 := Start(session, loaded);
      var last := LastState(s0, session.moves, t).results;
      && StoreAll(loaded, TakenPieces(s0, session.moves, t)) == Ok(last)
      && Extends(last, loaded, t) && last.piecesDone <= t.NumPieces()
  {
    LoadSucceeds(d, t);
    var s0 := Start(session, Load(d, t).value.results);
    RunStoresWhatItTakes(s0, session.moves, t);
    LastStateIsAccounted(s0, session.moves, t);
    DoneIsBounded(LastState(s0, session.moves, t).results, t);
  }

  lemma {:induction false} LoadedIsSaved(d: Disk, t: Torrent)
    requires Recordable(t) && DiskOk(d, t)
    ensures Load(d, t).Ok? && AfterLoad(d, Load(d, t).value, t).Ok?
    ensures var loaded := Load(d, t).value;
      && SavedSoFar(d, loaded, AfterLoad(d, loaded, t).value, t)
      && d.full.Some? == loaded.complete && (loaded.complete || loaded.results.piecesDone < t.NumPieces())
  {
    LoadSucceeds(d, t);
  }

  lemma {:induction false} LoopOfSession(d: Disk, session: Session, events: seq<MainEvent>, w: Writes, t: Torrent)
    returns (m0: MainState, m: MainState)
    requires Recordable(t) && DiskOk(d, t) && ValidSession(d, session, t) && Hears(d, session, events, t)
    requires Reliable(w.file)
    ensures Load(d, t).Ok? && AfterLoad(d, Load(d, t).value, t) == Ok(m0) && OnEvents(m0, events, w, t) == Ok(m)
    ensures SavedSoFar(d, Load(d, t).value, m, t) && m.results.piecesDone <= t.NumPieces()
    ensures m.results == LastState(Start(session, Load(d, t).value.results), session.moves, t).results
  {
    SessionResults(d, session, t);
    LoadedIsSaved(d, t);
    var loaded := Load(d, t).value;
    m0 := AfterLoad(d, loaded, t).value;
    LoopLeaves(d, loaded, m0, events, w, t);
    MeanwhileKeeps(d, loaded, LastState(Start(session, loaded.results), session.moves, t).results, t);
    m := OnEvents(m0, events, w, t).value;
  }

  /** A regular session: whatever the connections do, if the loop hears of the pieces they finish and every write is
      accepted, the process leaves what `RunSession` says. */
  lemma {:induction false} ProcessIsASession(d: Disk, session: Session, events: seq<MainEvent>, w: Writes, t: Torrent)
    requires Recordable(t) && DiskOk(d, t) && ValidSession(d, session, t) && Hears(d, session, events, t)
    requires Load(d, t).Ok? ==> EndsRegularly(session, Load(d, t).value.results, t)
    requires AllReliable(w)
    ensures Process(d, true, events, w, t) == RunSession(d, session, t)
  {
    var m0, m := LoopOfSession(d, session, events, w, t);
    SessionResults(d, session, t);
    LoadedIsSaved(d, t);
    FinishKeeps(d, Load(d, t).value, m.results, t);
    ExitIsFinish(d, Load(d, t).value, m, w, t);
  }

  /** A session that is killed or brought down: the disk is that of the loop at this point. */
  lemma {:induction false} StoppedIsASession(d: Disk, session: Session, events: seq<MainEvent>, w: Writes, t: Torrent)
    returns (m0: MainState, m: MainState)
    requires Recordable(t) && DiskOk(d, t) && ValidSession(d, session, t) && Hears(d, session, events, t)
    requires Load(d, t).Ok? ==> !EndsRegularly(session, Load(d, t).value.results, t)
    requires Reliable(w.file)
    ensures Load(d, t).Ok? && AfterLoad(d, Load(d, t).value, t) == Ok(m0) && OnEvents(m0, events, w, t) == Ok(m)
    ensures RunSession(d, session, t) == Ok(m.disk)
  {
    m0, m := LoopOfSession(d, session, events, w, t);
  }

  /** Without a tracker the process leaves the disk as a session killed at its start. */
  lemma {:induction false} NoTrackerIsASession(d: Disk, orders: seq<PieceOrder>, events: seq<MainEvent>, w: Writes,
                                               t: Torrent)
    requires Recordable(t) && DiskOk(d, t)
    ensures Process(d, false, events, w, t) == RunSession(d, Session(orders, [], Killed), t)
  {
    LoadSucceeds(d, t);
  }

  // ---------- Whatever the writes do ----------

  /** Once the finished file is there, no part file is: also if writing it failed, or if part files were left beside
      it. */
  lemma {:induction false} SavedMeansDeleted(m: MainState, events: seq<MainEvent>, w: Writes, t: Torrent)
    requires OnEvents(m, events, w, t).Ok? && (m.saved ==> m.disk.parts == NoParts(t))
    ensures var end := OnEvents(m, events, w, t).value;
      && (end.saved ==> end.disk.parts == NoParts(t))
      && (m.saved ==> end.saved && end.disk == m.disk)
      && (!end.saved ==> end.disk == m.disk)
    decreases events
  {
    if events != [] {
      SavedMeansDeleted(OnEvent(m, events[0], w, t).value, events[1..], w, t);
    }
  }

  /** A process that finds the finished file deletes the part files, whatever disk it started from, and changes nothing
      else. */
  lemma {:induction false} FinishedFileAlone(d: Disk, tracker: bool, events: seq<MainEvent>, w: Writes, t: Torrent)
    requires t.NumPieces() > 0 && d.full.Some? && Process(d, tracker, events, w, t).Ok?
    ensures Process(d, tracker, events, w, t) == Ok(Disk(seq(t.NumPieces() / 1000 + 1, _ => []), d.full))
  {
    var m0 := AfterLoad(d, Load(d, t).value, t).value;
    if tracker {
      SavedMeansDeleted(m0, events, w, t);
    }
  }

  lemma {:induction false} NothingMoreToSave(m: MainState, events: seq<MainEvent>, w: Writes, t: Torrent)
    requires m.saved && ResultsOf(events) == []
    ensures OnEvents(m, events, w, t) == Ok(m)
    decreases events
  {
    if events != [] {
      NothingMoreToSave(m, events[1..], w, t);
    }
  }

  /** The loop that stores the last piece writes what the disk accepts of the file, and deletes the part files. */
  lemma {:induction false} LastPieceIsSaved(m: MainState, events: seq<MainEvent>, final: Results, w: Writes, t: Torrent)
    requires !m.saved && m.results.piecesDone < t.NumPieces() && final.piecesDone == t.NumPieces() && t.NamesParts()
    requires StoreAll(m.results, ResultsOf(events)) == Ok(final) && SaveFrom(final.pieces, 0).Ok?
    ensures OnEvents(m, events, w, t) ==
      Ok(MainState(final, Disk(NoParts(t), Some(SaveTo(final.pieces, 0, w.file).written)), true))
    decreases events
  {
    if events != [] {
      var later := ResultsOf(events[1..]);
      if events[0].Result? {
        assert ResultsOf(events) == [events[0].piece] + later;
        assert ResultsOf(events)[1..] == later;
        var now := Store(m.results, events[0].piece).value;
        StoreAllCounts(now, later);
        if now.piecesDone == t.NumPieces() {
          assert later == [];
          SaveToIsPrefix(final.pieces, 0, w.file);
          NothingMoreToSave(OnEvent(m, events[0], w, t).value, events[1..], w, t);
        } else {
          LastPieceIsSaved(OnEvent(m, events[0], w, t).value, events[1..], final, w, t);
        }
      } else {
        assert ResultsOf(events) == later;
        LastPieceIsSaved(m, events[1..], final, w, t);
      }
    }
  }

  /** A session that stores the last piece: its download survives if and only if every write to the finished file was
      accepted whole. An error of `Save` changes nothing else: the part files are gone. */
  lemma {:induction false} DownloadSurvivesIff(d: Disk, session: Session, events: seq<MainEvent>, w: Writes, t: Torrent)
    requires Recordable(t) && DiskOk(d, t) && d.full.None?
    requires ValidSession(d, session, t) && Hears(d, session, events, t)
    requires Load(d, t).Ok? ==>
      LastState(Start(session, Load(d, t).value.results), session.moves, t).results.piecesDone == t.NumPieces()
    ensures var r := Process(d, true, events, w, t);
      && r.Ok? && r.value.full.Some? && r.value.parts == NoParts(t)
      && (Load(r.value, t).Ok? <==> AllAccepted(0, t.NumPieces(), t.pieceLength, w.file))
  {
    SessionResults(d, session, t);
    LoadedIsSaved(d, t);
    var loaded := Load(d, t).value;
    var final := LastState(Start(session, loaded.results), session.moves, t).results;
    StoredAreInPlace(final, t);
    SavedLength(final.pieces, 0, t.pieceLength);
    LastPieceIsSaved(AfterLoad(d, loaded, t).value, events, final, w, t);
    SaveSurvivesIff(final, w.file, t);
  }

  lemma {:induction false} WritePartsNeverPanics(parts: seq<seq<byte>>, pieces: seq<Option<Piece>>, saved: seq<bool>)
    ensures !WriteParts(parts, pieces, saved).Panic?
    decreases pieces
  {
    if pieces != [] {
      match pieces[0]
      case None => WritePartsNeverPanics(parts, pieces[1..], saved);
      case Some(p) =>
        if p.index < |saved| && saved[p.index] {
          WritePartsNeverPanics(parts, pieces[1..], saved);
        } else if p.index < |saved| && p.index / PIECES_PER_PART < |parts| {
          var j := p.index / PIECES_PER_PART;
          WritePartsNeverPanics(parts[j := parts[j] + Serialize(p)], pieces[1..], saved);
        }
    }
  }

  /** Every hash, then the sum of the lengths (lines 373-387). */
  method PiecesMatch(pieces: seq<Piece>, t: Torrent) returns (ok: bool)
    requires |pieces| == t.NumPieces() && forall k :: 0 <= k < |pieces| ==> pieces[k].index == k
    ensures ok <==> HashesMatch(pieces, t) && Sum(Lengths(), pieces) == t.NumPieces() * t.pieceLength
  {
    var totalLength := 0;
    for i := 0 to |pieces|
      invariant totalLength == Sum(Lengths(), pieces[..i])
      invariant forall k :: 0 <= k < i ==> t.sha1(pieces[k].data) == t.pieceHashes[k]
    {
      if t.sha1(pieces[i].data) != t.pieceHashes[i] {
        return false;
      }
      SumNext(Lengths(), pieces, i);
      totalLength := totalLength + pieces[i].length;
    }
    assert pieces[..|pieces|] == pieces;
    return totalLength == t.NumPieces() * t.pieceLength;
  }

  class Client {
    var pieces: seq<Option<Piece>>
    var piecesDone: nat
    var totalLength: nat
    var bitfield: Bitfield

    ghost predicate Valid(t: Torrent)
      reads this, bitfield
    {
      bitfield.Valid() && |pieces| == bitfield.Length == t.NumPieces()
    }

    ghost function Value(): Results
      requires bitfield.Valid()
      reads this, bitfield, bitfield.data
    {
      Results(pieces, piecesDone, bitfield.Field())
    }

    constructor (t: Torrent)
      ensures Valid(t) && Value() == NoResults(t) && totalLength == 0 && fresh(bitfield) && fresh(bitfield.data)
    {
      pieces, piecesDone, totalLength := seq(t.NumPieces(), _ => None), 0, 0;
      bitfield := new Bitfield.New(t.NumPieces());
      new;
      ZeroBits(bitfield.data.Length);
      assert bitfield.Field() == NoResults(t).field;
    }

    /** The Results case (lines 143-151). An index out of range panics before anything is changed. */
    method StoreResult(piece: Piece) returns (ok: bool)
      requires bitfield.Valid()
      modifies this`pieces, this`piecesDone, bitfield.data
      ensures ok == Store(old(Value()), piece).Ok?
      ensures ok ==> Store(old(Value()), piece) == Ok(Value())
      ensures !ok ==> Value() == old(Value()) && Store(old(Value()), piece) == Panic
      ensures |pieces| == |old(pieces)|
    {
      if piece.index >= |pieces| {
        return false;
      }
      pieces := pieces[piece.index := Some(piece)];
      piecesDone := piecesDone + 1;
      var _ := bitfield.Set(piece.index, true);
      return true;
    }

    /** The pieces of one part file, whose bits are marked already (lines 415-429). */
    method LoadPieces(read: seq<Piece>, t: Torrent) returns (r: Outcome<()>)
      requires Valid(t)
      modifies this`pieces, this`piecesDone, this`totalLength, bitfield.data
      ensures Valid(t)
      ensures r.Ok? ==> totalLength == old(totalLength) + Sum(Lengths(), read)
      ensures match Sessions.LoadPieces(old(Value()), read, t)
        case Ok(next) => r.Ok? && Value() == next
        case Err => r.Err?
        case Panic => r.Panic?
    {
      ghost var goal := Sessions.LoadPieces(Value(), read, t);
      assert read[0..] == read;
      for k := 0 to |read|
        invariant Valid(t) && Sessions.LoadPieces(Value(), read[k..], t) == goal
        invariant totalLength == old(totalLength) + Sum(Lengths(), read[..k])
      {
        assert read[k..][0] == read[k] && read[k..][1..] == read[k + 1..];
        if read[k].index >= t.NumPieces() {
          return Panic;
        }
        if t.sha1(read[k].data) != t.pieceHashes[read[k].index] {
          return Err;
        }
        var stored := StoreResult(read[k]);
        SumNext(Lengths(), read, k);
        totalLength := totalLength + read[k].length;
      }
      assert read[|read|..] == [] && read[..|read|] == read;
      return Ok(());
    }

    /** One part file: its bits are marked as it is read, then its pieces are checked and stored. */
    method LoadPartFile(file: seq<byte>, t: Torrent) returns (r: Outcome<()>)
      requires Valid(t)
      modifies this`pieces, this`piecesDone, this`totalLength, bitfield.data
      ensures Valid(t)
      ensures r.Ok? ==> totalLength == old(totalLength) + Sum(Lengths(), Pieces(file))
      ensures match LoadLog(old(Value()), file, t)
        case Ok(next) => r.Ok? && Value() == next
        case Err => r.Err?
        case Panic => r.Panic?
    {
      ghost var before := Value();
      var reader := new PeerProtocol.Reader(file);
      var read := ReadPartialFile(reader, bitfield);
      if !read.Ok? {
        return Err;
      }
      LoadMarkedPieces(before, read.value, t);
      r := LoadPieces(read.value, t);
    }

    /** All the part files, in order (lines 395-432). */
    method LoadPiecesFromPartialFiles(files: seq<seq<byte>>, t: Torrent) returns (r: Outcome<()>)
      requires Valid(t)
      modifies this`pieces, this`piecesDone, this`totalLength, bitfield.data
      ensures Valid(t)
      ensures r.Ok? ==> totalLength == old(totalLength) + PartsLength(files, 0)
      ensures match LoadParts(old(Value()), files, 0, t)
        case Ok(next) => r.Ok? && Value() == next
        case Err => r.Err?
        case Panic => r.Panic?
    {
      ghost var goal := LoadParts(Value(), files, 0, t);
      for j := 0 to |files|
        invariant Valid(t) && LoadParts(Value(), files, j, t) == goal
        invariant totalLength + PartsLength(files, j) == old(totalLength) + PartsLength(files, 0)
      {
        LoadPartsNext(Value(), files, j, t);
        PartsLengthNext(files, j);
        if |t.name| < 20 {
          return Panic;
        }
        r := LoadPartFile(files[j], t);
        if !r.Ok? {
          return;
        }
      }
      return Ok(());
    }

    /** The finished file: its pieces replace what is there, and then they are checked (lines 364-389). */
    method LoadPiecesFromCompleteFile(file: seq<byte>, t: Torrent) returns (ok: bool)
      requires t.NumPieces() > 0
      modifies this
      ensures bitfield == old(bitfield) || (fresh(bitfield) && fresh(bitfield.data))
      ensures ok == LoadComplete(file, t).Ok? && (!ok ==> LoadComplete(file, t).Err?)
      ensures ok ==> Valid(t) && LoadComplete(file, t) == Ok(Value()) && fresh(bitfield) && fresh(bitfield.data)
      ensures ok ==> totalLength == t.NumPieces() * t.pieceLength
    {
      var reader := new PeerProtocol.Reader(file);
      var read := Read(reader, t.NumPieces(), t.pieceLength);
      ReadNeverPanics(file, 0, t.NumPieces(), t.pieceLength);
      if !read.InPlace? {
        return false;
      }
      ReadKeepsLength(file, 0, t.NumPieces(), t.pieceLength);
      var n := t.NumPieces();
      pieces := seq(n, i requires 0 <= i < n => Some(read.pieces[i]));
      piecesDone := n;
      bitfield := new Bitfield.NewFull(n);
      assert bitfield.Field() == seq(n, _ => true);
      ok := PiecesMatch(read.pieces, t);
      if ok {
        totalLength := n * t.pieceLength;
      }
    }

    /** One order on the channel for each piece that is missing, in a random order (lines 97-108). */
    method SeedOrders(perm: seq<nat>, t: Torrent) returns (orders: seq<PieceOrder>)
      requires Valid(t) && IsPermutation(perm, t.NumPieces())
      ensures forall o :: o in orders ==> GoodOrder(o, t)
      ensures forall x: nat :: Sum(OrderIs(x), orders) == if x < t.NumPieces() && !bitfield.Field()[x] then 1 else 0
      ensures GoodResults(Value(), t) ==> Started(System(orders, [], [], Value(), {}), t)
    {
      orders := [];
      ghost var field := bitfield.Field();
      for i := 0 to |perm|
        invariant forall o :: o in orders ==> GoodOrder(o, t)
        invariant OrderedUpTo(orders, perm, i, field)
      {
        var r := perm[i];
        assert r in perm;
        var have := bitfield.Get(r);
        var p := PieceOrder(r, t.pieceLength, t.pieceHashes[r]);
        OrderNext(orders, perm, i, field, p);
        if !have.value {
          orders := orders + [p];
        }
      }
      assert perm[..|perm|] == perm;
      assert forall x: nat :: x in perm <==> x < t.NumPieces();
      if GoodResults(Value(), t) {
        OrderedIsStarted(orders, perm, Value(), t);
      }
    }

    /** `loadFromFile`: says whether the finished file was there. */
    method LoadFromFile(d: Disk, t: Torrent) returns (r: Outcome<bool>)
      requires t.NumPieces() > 0 && Valid(t) && Value() == NoResults(t) && totalLength == 0
      modifies this, bitfield.data
      ensures r.Ok? ==> totalLength == TotalLength(d, t)
      ensures match Load(d, t)
        case Ok(loaded) => r == Ok(loaded.complete) && Valid(t) && Value() == loaded.results
        case Err => r.Err?
        case Panic => r.Panic?
      ensures bitfield == old(bitfield) || (fresh(bitfield) && fresh(bitfield.data))
    {
      if d.full.Some? {
        var ok := LoadPiecesFromCompleteFile(d.full.value, t);
        return if ok then Ok(true) else Err;
      }
      var loading := LoadPiecesFromPartialFiles(d.parts, t);
      return if loading.Ok? then Ok(false) else if loading.Err? then Err else Panic;
    }

    /** The loop, from the first event to the exit: the disk it leaves and whether the finished file is there. */
    method Loop(disk0: Disk, saved0: bool, events: seq<MainEvent>, w: Writes, t: Torrent)
      returns (r: Outcome<Disk>, saved: bool)
      requires Valid(t)
      modifies this`pieces, this`piecesDone, bitfield.data
      ensures Valid(t)
      ensures match OnEvents(MainState(old(Value()), disk0, saved0), events, w, t)
        case Ok(m) => r.Ok? && m == MainState(Value(), r.value, saved)
        case Err => r.Err?
        case Panic => r.Panic?
    {
      var disk := disk0;
      saved := saved0;
      ghost var goal := OnEvents(MainState(Value(), disk, saved), events, w, t);
      assert events[0..] == events;
      for i := 0 to |events|
        invariant Valid(t)
        invariant OnEvents(MainState(Value(), disk, saved), events[i..], w, t) == goal
      {
        assert events[i..][0] == events[i] && events[i..][1..] == events[i + 1..];
        if events[i].Result? {
          var stored := StoreResult(events[i].piece);
          if !stored {
            return Panic, saved;
          }
        }
        if piecesDone == t.NumPieces() && !saved {
          var result, written := Save(pieces, w.file);
          if result.Panic? || |t.name| < 20 {
            return Panic, saved;
          }
          disk, saved := Disk(NoParts(t), Some(written)), true;
        }
      }
      assert events[|events|..] == [];
      return Ok(disk), saved;
    }

    /** Appends the pieces that were not saved before (lines 309-327); `ok` is false if a write failed. */
    method SavePartialFiles(parts: seq<seq<byte>>, savedPieces: Bitfield, w: Writer, t: Torrent)
      returns (r: Outcome<seq<seq<byte>>>, ok: bool)
      requires savedPieces.Valid()
      ensures r.Panic? <==> !t.NamesParts()
      ensures !r.Panic? ==> r.Ok? && PartsWritten(ok, r.value) == WritePartsTo(parts, pieces, savedPieces.Field(), w, 0)
    {
      if |t.name| < 20 {
        return Panic, false;
      }
      var writers := new PartFiles(parts);
      ok := WritePartialFiles(writers, pieces, savedPieces, w);
      return Ok(writers.contents), ok;
    }
  }

  // ---------- A whole session ----------

  /** The process: it loads, asks for a tracker, seeds the orders, stores what comes in until it is told to exit, and
      saves. The snapshot of what was on disk is taken before the loop; the loop then changes the field it was copied
      from. */
  method RunClient(d: Disk, perm: seq<nat>, tracker: bool, events: seq<MainEvent>, w: Writes, t: Torrent)
    returns (r: Outcome<Disk>, orders: seq<PieceOrder>)
    requires t.NumPieces() > 0 && IsPermutation(perm, t.NumPieces())
    ensures r == Process(d, tracker, events, w, t)
    ensures r.Ok? && tracker && GoodResults(Load(d, t).value.results, t) ==>
      Started(System(orders, [], [], Load(d, t).value.results, {}), t)
  {
    orders := [];
    var client := new Client(t);
    var loading := client.LoadFromFile(d, t);
    if !loading.Ok? {
      return if loading.Err? then Err else Panic, orders;
    }
    var alreadySavedFinalFile := loading.value;
    ghost var loaded := Load(d, t).value;
    var alreadySavedNumber := client.piecesDone;
    var alreadySavedPieces := new Bitfield.Copy(client.bitfield);
    assert alreadySavedPieces.Field() == loaded.results.field;
    var disk := d;
    if alreadySavedFinalFile {
      if |t.name| < 20 {
        return Panic, orders;
      }
      disk := Disk(NoParts(t), d.full);
    }
    assert AfterLoad(d, loaded, t) == Ok(MainState(client.Value(), disk, alreadySavedFinalFile));
    if !tracker {
      return Ok(disk), orders;
    }
    orders := client.SeedOrders(perm, t);
    var saved;
    r, saved := client.Loop(disk, alreadySavedFinalFile, events, w, t);
    if r.Ok? && !saved && alreadySavedNumber < t.NumPieces() {
      var parts, ok := client.SavePartialFiles(r.value.parts, alreadySavedPieces, w.parts, t);
      r := if parts.Ok? then Ok(r.value.(parts := parts.value)) else Panic;
    }
  }
}
