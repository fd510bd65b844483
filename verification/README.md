# bitflood, verified model

bitflood is a BitTorrent v1 client (BEP 3, with the tracker tiers of BEP 12). This project models what it does between
the network and the disk: the messages of the peer protocol, the loop that runs one connection, two clients talking to
each other, any number of connections sharing the Orders and Results channels with the main loop, what a session loads
and saves, the choke algorithm and the failover between trackers.

Values and their functions come first, one module for each part of the program. Where the source changes variables in
place there is a class or a method with loops, and its `ensures` ties the new state to those functions. The properties
are proved about the functions, over all inputs and all runs, and so hold of the methods. What a byte, a bit or a
message means is stated in numbers (`Wire`, `BigEndian`, the `...InNumbers` lemmas), and what a connection does is also
stated from the list of its reads and writes alone (`Discipline`, `History`, `Iterations`).

| file | what it holds |
|---|---|
| `Types.dfy` | bytes, pieces, orders, torrents, outcomes; big-endian 32-bit fields with their truncation |
| `Codec.dfy`, `Sums.dfy` | streams of self-delimiting items; sums and counts over sequences |
| `Bitfield.dfy` | the packed field, its class, and the sequence of bits it stands for |
| `PeerProtocol.dfy` | messages, frames, streams of frames, the PIECE and REQUEST payloads |
| `Wire.dfy` | frames, codes and payloads byte by byte |
| `Assembly.dfy` | one piece in progress: requests issued, blocks accepted, the tiling invariant |
| `PeerLoop.dfy` | one connection as functions on its state; what it may put on the wire; what it knows of the other side |
| `Connection.dfy` | the same connection with its variables changed in place |
| `Iteration.dfy` | one pass of the loop: what it writes, in which order, and what becomes of the orders |
| `Requests.dfy` | all the requests of one connection, against the plans of its orders |
| `History.dfy` | what a connection announces, serves, is told and leaves behind, read off its history and its channels |
| `Transfer.dfy`, `Turns.dfy`, `Handover.dfy`, `Completion.dfy` | two clients joined by two byte streams; that the real loops are its runs; that what they complete is handed over; that every order can be completed |
| `Scheduler.dfy`, `Loops.dfy` | N connections and the main loop; who owns each piece; that the real loops are its runs |
| `Lost.dfy`, `Crash.dfy` | which messages lose an order; what brings the process down |
| `Swarm.dfy` | N connections, each with a bitflood client and two streams behind it |
| `Storage.dfy`, `Sessions.dfy` | part files and the finished file; sessions of load, download, save |
| `Client.dfy` | `Main` and its helpers in place, and that it does what a session is said to do |
| `Choke.dfy`, `Tracker.dfy` | choke selection; tracker failover |

SHA-1 is a parameter: every statement holds for any function from bytes to digests. Whether a write succeeds, which
messages arrive, how goroutines are scheduled, the order of map iteration, random draws, and which trackers answer are
parameters too. `Panic` is an outcome, so a nil dereference or an index out of range is a result of the model, not a
precondition. Three histories are kept that the source does not store: the blocks accepted for the piece in progress
(`accepted`), the pieces whose order went down with a connection (`lost`), and what happened on a connection (`log`).

## Where the code and its promises differ

The model does what the code does; each of these is a lemma.

- A failure in `handleMessage` closes the connection without giving the held order back (client/peer.go:165-172); the
  other three exits give it back. `Losses.HandlingFailsIff` says which messages fail, `Losses.StepLosesIff` which steps
  lose an order, and `History.RefusedEnds` what the connection leaves then. `Losses.DownloadCompletesIff` says that a
  download that has come to rest is complete exactly when no connection holding an order was sent such a message.
  `Losses.AnOrderCanBeLost` does it in five moves.
- A PIECE while no order is held, a HAVE of fewer than four bytes, and a request for a piece that is not there bring
  the process down: `Crashes.ShortHaveCrashes`, `Crashes.UnaskedBlockCrashes`, `Crashes.RequestForMissingPieceCrashes`.
  `Crashes.StartedRunFailsIff` says that, with frames of nearly 2^32 bytes, nothing else in a connection's loop or in
  storing results does.
- `New` makes `n/8+1` bytes, the receiver of a BITFIELD demands `ceil(n/8)`. Two clients that are both incomplete can
  therefore talk exactly when 8 does not divide the number of pieces: `Transfer.PartialClientsSurviveIff`.
- A comment calls the serving of requests FIFO (client/peer.go:217), but removal puts the last request first
  (client/peer.go:107-108). The order is kept exactly when the waiting requests are all the same:
  `Assembly.RemovalKeepsOrderIff`, with a witness in `Assembly.ServedOutOfOrder`. A whole list is served first the
  first, then from the last to the second: `Assembly.ServedBackwards`.
- INTERESTED is sent only while choked (client/peer.go:132). A peer that unchokes us before we have an order for it is
  asked for blocks and never told that we are interested, and a bitflood seeder then serves none of them (line 101):
  `Discipline.RequestWithoutInterestIff`, `Discipline.RequestsWithoutInterest`.
- From five interested peers on, only those that have uploaded to us are unchoked (client/client.go:564-573). Five
  interested peers none of whom has are all left choked: `Choke.SomebodyIsPickedIff`.
- After a tracker fails, the position moves on by its index plus one instead of to its index (bittorrent/tracker.go:37),
  and it is carried into the next tier, so trackers can be passed over. `Trackers.TriesAllIff` says when all are tried;
  `Trackers.SkipsATracker` and `Trackers.SkipsAcrossTiers` are lists for which they are not.
- Without an announce list the single URL is retried at a position that never moves: the loop ends exactly when there
  is a list, the URL does not parse, or some attempt is answered (`Trackers.RetryEndsIff`, `Trackers.FallbackStays`).
- `Deserialize` of a piece uses one `Read` (types/types.go:108), so the last record of a part file may be cut short and
  its missing bytes read as zeros. `Storage.ReadsAsIff` says exactly which part files are accepted, and as which
  pieces; `Storage.CutFilesAreAccepted` shows two cut ones. The hash check then refuses the piece unless its hash
  matches: `Sessions.LoadPiecesIff`, and for any disk `Sessions.LoadIff`.
- The error of `Save` is ignored and the part files are deleted all the same (client/client.go:212-218): what was
  downloaded survives exactly when every write was accepted whole (`Sessions.SaveSurvivesIff`, and for the whole
  process `Clients.DownloadSurvivesIff`).
- `torrent.Name[0:20]` (client/client.go:313, 332, 398) panics for a name of fewer than 20 bytes: from an empty disk
  sessions run exactly when the name is long enough (`Sessions.SessionsRunIff`, `Sessions.ShortNameNeverRuns`).
- A stream that ends right after a length, or right after a message code, counts as a clean end:
  `PeerProtocol.CleanEndIff`.

## Model

| member | source | states |
|---|---|---|
| Transfer.TransferIsExact | client/peer.go:97-204 | two clients on reliable streams: after any run nothing has failed; the outstanding requests of each are, as a multiset, the REQUEST frames under way plus the other's list plus the PIECE frames under way; a complete buffer is the other side's piece and nothing is left under way for it |
| Transfer.RunKeepsJoined | client/peer.go:97-204 | the invariant behind it, over every interleaving of the parts of both loops, with stores, chokes and unchokes |
| Transfer.LeechIsExact | client/peer.go:113-121 | when the counter equals the length, resetting the progress abandons no request anywhere |
| Transfer.CompleteIsSeedersPiece | client/peer.go:393-409 | a complete buffer equals the seeder's data, whatever order the blocks came in |
| Transfer.ConnectionSurvivesIff | client/peer.go:376-384 | no run of the connection fails if and only if both bitfields have the length the receivers demand |
| Transfer.PartialClientsSurviveIff | bitfield/bitfield.go:13-16 | two clients with fields from `New` can talk if and only if 8 does not divide the number of pieces |
| Turns.BodyIsARun | client/peer.go:101-140 | the body of the real loop, with or without an order on offer, is a run of the two-party moves, in the source's order |
| Turns.TurnsAreARun | client/peer.go:97-204 | any interleaving of the two real loops, from one point of waiting to the next, is a run of the two-party system |
| Turns.RealTransferIsExact | client/peer.go:97-204 | so the two-party theorem holds of the real loops: nothing fails, requests are conserved, complete pieces are the other side's |
| Handover.NothingIsWasted | client/peer.go:316-351 | with genuine pieces on both sides, a piece that is complete passes its hash check and is handed over; its order never goes back |
| Completion.EveryOrderCanBeCompleted | client/peer.go:101-140 | from every state of two bitflood clients in which one holds an order, their loops and choke ticks have a continuation that completes it, with the other side's bytes |
| Assembly.Tiling | client/peer.go:283-314 | every offset below `min(nextToRequest, Length)` lies in exactly one outstanding or accepted chunk, no other in any; `numDone` plus the outstanding lengths is that minimum |
| Assembly.CompleteIff | client/peer.go:113 | the counter equals the length if and only if all is requested and nothing is outstanding |
| Assembly.CompleteBuffer | client/peer.go:113-121 | then `ceil(Length / 2^14)` requests were issued, and every byte of the buffer was written by exactly one block |
| Assembly.AcceptKeepsInv | client/peer.go:393-409 | with an order held, a block is accepted if and only if it answers an outstanding request (so "data is too long" never happens), and takes exactly that one out |
| Assembly.IssueFollowsPlan | client/peer.go:286-312 | the next request is the next entry of the static plan |
| Assembly.PlanInNumbers | client/peer.go:286-300 | the plan has `(Length + 16383) / 16384` entries; entry i starts at `16384 * i` and has 16384 bytes or what is left |
| Assembly.RunFollowsPlan | client/peer.go:283-314 | for any sequence of requests issued and blocks delivered for one order: the requests are a prefix of the plan `(i*2^14, min(2^14, Length - i*2^14))`, all of it on completion, and at most five are outstanding |
| Requests.ConnectionFollowsPlans | client/peer.go:97-140 | over any run of a connection, failed writes included: the REQUESTs written are the whole plans of the orders it completed, one after the other, then the beginning of the plan of the order held; at most five are outstanding |
| Requests.PipelineIsFull | client/peer.go:284 | while unchoked, asking stops only with five requests outstanding, with all of the piece asked for, or at a failed write |
| Assembly.RunKeepsInv | client/peer.go:283-314 | any interleaving of requests and blocks, from any sender, keeps the tiling invariant and never panics |
| Assembly.SwapRemoveMultiset | client/types.go:26-36 | removal takes out exactly the one element |
| Assembly.RemovalKeepsOrderIff | client/peer.go:107-108 | serving the first request keeps the others in order if and only if they are all the same |
| Assembly.ServedOutOfOrder | client/peer.go:217 | of three requests the last is served before the second |
| Assembly.ServedBackwards | client/peer.go:107-108 | a list of requests is served first the first, then from the last to the second |
| PeerLoop.RunKeepsProgressInv | client/peer.go:97-204 | whatever the other side sends and whichever writes fail, the piece in progress stays tiled |
| Discipline.EveryRunIsDisciplined | client/peer.go:131-202 | over any run: choke changes alternate starting with UNCHOKE, requests go out only while not choked, INTERESTED only while choked, between two INTERESTEDs sent a CHOKE came, blocks go out only to an interested and unchoked peer |
| Discipline.ChokeChangesAlternate | client/peer.go:190-202 | a disciplined history has strictly alternating choke changes |
| Discipline.InterestedIsSeparatedByChoke | client/peer.go:268-281 | and a CHOKE received between any two INTERESTEDs sent |
| Discipline.RunAgrees | client/peer.go:132-140 | the four flags of the peer record are what the history alone says |
| Discipline.LifeIsDisciplined | client/peer.go:164-173 | the discipline also holds of a connection that an error ends |
| Iterations.PassInOrder | client/peer.go:97-140 | what one pass of the loop writes, in this order: a block if and only if the request in front can be served; a HAVE if and only if the buffer is full and has its hash; INTERESTED if and only if an order is then held, we are choked and it does not stand; at most five requests. A full buffer is handed over if and only if its hash is right and the HAVE was written, its order goes back if and only if the hash is wrong; an order on offer is taken in the same pass, kept if and only if the other side has the piece, and otherwise goes back |
| History.RunIsRecorded | client/peer.go:97-204 | over any run, whichever writes fail: the payloads of the HAVEs written are, in order, the big-endian indices of the pieces handed over; the list of requests is, in order, those received and not served; each block written or attempted has the index, offset and length of the request in front; the field known is that of the last BITFIELD received (a HAVE changes nothing in it) |
| History.LifeAccounts | client/peer.go:97-173 | however a connection ends, the orders it took off the channel are, as a multiset, those it put back, those it handed over as pieces, and the one dropped |
| History.RefusedEnds | client/peer.go:164-173 | a refused message ends the connection there and then: nothing goes back to Orders, nothing more is handed over, the order held is dropped, and the end is told |
| History.DroppedIff | client/peer.go:164-173 | an order is dropped if and only if some message is refused while it is held |
| History.LifeTells | client/peer.go:144-173 | however a connection ends, the main loop has been told what the messages said, in order, and last that the connection ended |
| History.EveryLife | client/peer.go:97-204 | all of this for whole connections, from the handshake to their end |
| Discipline.RequestWithoutInterestIff | client/peer.go:132-138 | a REQUEST goes out without a standing INTERESTED if and only if none stood at the UNCHOKE that allows it |
| Discipline.RequestsWithoutInterest | client/peer.go:132-138 | a run from the handshake in which blocks are asked for and no INTERESTED is ever attempted |
| Acquaintance.BitfieldExchange | client/peer.go:376-384 | a field is taken if and only if it has `ceil(n/8)` bytes, and then every index reads as it does at the sender |
| Acquaintance.RunKeepsCounted | client/peer.go:342-348 | over any run, `Downloaded` is the sum of the lengths of the pieces handed over, modulo 2^32 |
| Acquaintance.MainLoopIsTold | client/peer.go:363-375 | what is sent on PeerInterested and Uploaded is exactly what the messages received say, in order; the interest last told is the flag of the peer record |
| Scheduler.EveryPieceHasOneOwner | client/client.go:97-108 | at every point of every run each piece index is in exactly one of Orders, one connection, Results, the stored pieces, the lost ones; and the results agree with themselves |
| Scheduler.StepKeepsAccounted | client/peer.go:97-204 | every move of any connection and of the main loop keeps that account |
| Scheduler.NoSendBlocks | client/client.go:90-91 | a step that sends on Orders or Results finds room |
| Scheduler.QueuesFit | client/client.go:90-91 | neither channel ever holds more than its capacity |
| Scheduler.StoreResultKeepsAccounted | client/client.go:143-148 | a finished piece goes into an empty place, so it is counted once; the index is in range |
| Scheduler.StoreIsGood | client/client.go:143-148 | after a store, `PiecesDone`, the bits and the pieces agree again, each piece in its own place with its own hash |
| Scheduler.ClosingKeepsAccounted | client/peer.go:144-158 | the regular exits give the order back |
| Scheduler.CompleteSettles | client/peer.go:316-351 | a finished piece is handed over with the right hash and length, or its order is given back, or nothing changes |
| Scheduler.DoneAndLostAreApart | client/client.go:143-148 | stored and lost pieces are disjoint and together at most all |
| Scheduler.CompleteIffNothingLost | client/client.go:206 | when nothing is under way, the download is complete if and only if no order was lost |
| Scheduler.LostIsForever | client/peer.go:165-172 | once an order is lost, no continuation completes the download |
| Losses.HandlingFailsIff | client/peer.go:353-411 | handling a message is an error exactly for a BITFIELD of the wrong length, a REQUEST under 12 bytes, a PIECE without a block, and a block that was not asked for while an order is held |
| Losses.StepLosesIff | client/peer.go:164-173 | a step loses an order if and only if a connection holding one hears such a message; it is that order, and it was not lost before |
| Losses.RunLosesIff | client/peer.go:164-173 | over a run nothing is lost if and only if no move is of that kind |
| Losses.DownloadCompletesIff | client/client.go:206 | a download that has come to rest is complete if and only if no move of its run was of that kind |
| Losses.AnOrderCanBeLost | client/peer.go:164-173 | from every start with something to download, five moves of one connection lose an order |
| Scheduler.RunIsMonotone | client/client.go:145 | stored pieces are never replaced or dropped |
| Scheduler.AllDone | client/client.go:206 | all pieces done means each is there and nothing is left in any channel |
| Loops.BodyIsPrepare | client/peer.go:101-140 | an uninterrupted loop body among N connections is `Prepare`, with the head of the Orders channel on offer |
| Loops.BodyIsARun | client/peer.go:101-140 | and it is a run of six moves of the system, in the source's order |
| Loops.TurnsAreARun | client/peer.go:97-204 | any run of N real loops, their events, joins, exits and the main loop's stores is a run of the system |
| Loops.RealLoopsOwnOnce | client/peer.go:97-204 | so each piece index has exactly one owner among N real loops |
| Loops.EveryLoopIsRunLoop | client/peer.go:97-204 | one loop, interrupted by the others at any point: its state is that of `RunLoop` on what it has met, up to the part of the iteration where it is |
| Loops.OrdersAreAQueue | client/client.go:90 | over any run, what was on Orders followed by what was put there is what was taken, in this order, followed by what is left |
| Loops.StepQueuesPieces | client/client.go:91 | Results is first in, first out too, and a piece taken from it is stored at its index |
| Swarms.SwarmRunIsOk | client/peer.go:97-204 | with a bitflood client and two streams behind each connection, over any interleaving nothing fails and no order is lost |
| Swarms.AmongOurselvesNothingIsLost | client/client.go:206 | so a download among bitflood clients that has come to rest is complete |
| Crashes.StepFailsIff | client/peer.go:225-230 | a step brings the process down if and only if it is one of the fatal moves |
| Crashes.HandlingPanicsIff | client/peer.go:371-409 | handling a message panics exactly for a short HAVE and for a block while no order is held |
| Crashes.UploadFailsIff | client/peer.go:217-237 | uploading panics exactly for a missing piece or a frame whose 32-bit size wraps |
| Crashes.StartedRunFailsIff | client/peer.go:97-204 | a whole run comes down if and only if it makes a fatal move |
| Crashes.ShortHaveCrashes | client/peer.go:373 | from every start, a HAVE without an index brings the process down |
| Crashes.UnaskedBlockCrashes | client/peer.go:398 | so does a block of any piece as the first message |
| Crashes.RequestForMissingPieceCrashes | client/peer.go:225 | so does a request for a piece that is not there, once the peer is unchoked and interested |
| PeerProtocol.StreamFraming | bittorrent/peer_protocol.go:217-268 | the receive loop gets exactly these messages, keep-alives included, and a clean end, if and only if the stream is their frames |
| PeerProtocol.SerializeSucceedsIff | bittorrent/peer_protocol.go:217-227 | with the 32-bit wrap-around, serializing succeeds if and only if the frame is shorter than 2^32 bytes |
| PeerProtocol.CleanEndIff | bittorrent/peer_protocol.go:229-268 | exactly which truncated streams are reported as a clean end |
| PeerProtocol.PieceRoundTrip | bittorrent/peer_protocol.go:270-291 | a block comes back as sent if and only if it is not empty and its position fits 32 bits |
| PeerProtocol.RequestRoundTrip | bittorrent/peer_protocol.go:293-309 | a request comes back as sent if and only if its fields fit 32 bits |
| Wire.FrameIff | bittorrent/peer_protocol.go:217-227 | the bytes of a frame: a big-endian length of one more than the payload, the code, the payload, and no others |
| Wire.KeepAliveIff | bittorrent/peer_protocol.go:239-242 | a keep-alive is four zero bytes and nothing else is |
| Wire.PieceIff | bittorrent/peer_protocol.go:280-291 | exactly the messages that carry a given block: code 7, the index in bytes 0-3, the offset in bytes 4-7, then the block |
| Wire.RequestIff | bittorrent/peer_protocol.go:299-309 | exactly the payloads that are a given request: index, offset and length in bytes 0-3, 4-7 and 8-11 |
| Wire.CodesOnTheWire | bittorrent/peer_protocol.go:175-227 | six messages as literal bytes, with the codes of BEP 3 |
| Wire.RequestsOnTheWire | bittorrent/peer_protocol.go:270-309 | a request and the block that answers it as literal bytes |
| Wire.FieldInNumbers | client/peer.go:376-384 | index i of a BITFIELD's payload is set if and only if byte `i / 8`, divided by 2^(7 - i % 8), is odd |
| Wire.FieldOnTheWire | bitfield/bitfield.go:63-73 | the byte 128 says that the first of eight pieces is there and no other |
| PeerProtocol.DeserializeMessage | bittorrent/peer_protocol.go:229-268 | the reads from the stream find the message that `Deserialize` defines, and leave the rest |
| PeerProtocol.ReceiveLoop | client/peer.go:79-92 | the goroutine delivers the messages of the stream, in order |
| BigEndian.PutThenGet | bittorrent/peer_protocol.go:272-273 | a 32-bit field holds the value modulo 2^32, so the value itself if and only if it fits |
| BigEndian.GetInNumbers | bittorrent/peer_protocol.go:285-286 | the value of four bytes, the most significant first |
| BigEndian.PutInNumbers | bittorrent/peer_protocol.go:272-273 | the four bytes of a value |
| Sessions.SessionsFromEmptyDisk | client/client.go:309-434 | any number of sessions from an empty disk, however they end, and with any behaviour of the connections: no load or save fails; in the end the finished file loads, or each part holds genuine pieces with index / 1000 its number, no index twice |
| Sessions.SessionsKeepDisk | client/client.go:56-75 | the same from any good disk |
| Sessions.SessionKeepsDisk | client/client.go:225-232 | the next load gives back the pieces, the field and the count with which a session ended; of one that was killed or brought down, what it had loaded, or everything if it had everything |
| Sessions.SessionsForgetNothing | client/client.go:309-434 | every piece on a good disk is still there, with the same contents, after any number of sessions, however they end |
| Sessions.SessionsRunIff | client/client.go:398 | from an empty disk sessions run if and only if the torrent's name has at least 20 bytes; otherwise the first load panics |
| Sessions.ShortNameNeverRuns | client/client.go:332 | with a shorter name no session runs from any disk, a finished file included |
| Sessions.MeanwhileKeeps | client/client.go:206-222 | at every point of the main loop the disk is good and loads as what was loaded, or as everything |
| Sessions.FinishKeeps | client/client.go:206-232 | whichever way a session ends regularly, what it leaves on disk loads back as its results |
| Sessions.SaveSurvivesIff | client/client.go:212-218 | with the error of `Save` ignored, the download survives if and only if every write was accepted whole |
| Sessions.TotalLengthIsExact | client/client.go:423 | `TotalLength` after loading is the number of pieces loaded times the piece length |
| Sessions.SessionCanStart | client/client.go:56-108 | on every good disk the load succeeds and a session can start, with one order for each missing piece |
| Sessions.CompleteIsGood | client/client.go:364-389 | an accepted finished file gives genuine pieces, each in its own place, all bits set and all counted |
| Sessions.LoadRestoresParts | client/client.go:391-434 | loading good part files never fails and gives exactly the logged pieces |
| Sessions.SavingPartsRestores | client/client.go:309-327 | the pieces that the snapshot lacks join those on disk, and the next load has them all |
| Sessions.AppendKeepsPartOk | file/partial_file.go:38-52 | a record appended to a good part keeps it good and adds that piece only |
| Sessions.SavedFileLoads | client/client.go:206-213 | with every piece stored, saving cannot panic and the file loads back complete, every hash right |
| Sessions.CompleteFileIff | client/client.go:364-389 | a finished file is accepted if and only if it has the torrent's length and every piece's hash matches |
| Sessions.CompleteFileInBytes | client/client.go:364-389 | the same in bytes: the file's length is the number of hashes times the piece length, and each slice of it has the hash of its place |
| Sessions.LoadPiecesIff | client/client.go:415-429 | storing the pieces of a part file succeeds if and only if each has an index below n and `sha1(data)` equals the hash of that index; then only places named by a piece change, to one of those pieces |
| Sessions.LoadPartsIff | client/client.go:391-434 | any part files load if and only if the name is long enough and each reads as such pieces; then everything loaded has its hash |
| Sessions.LoadIff | client/client.go:341-434 | exactly which disks load, whatever is on them: with a finished file that file must be right, otherwise all part files; everything loaded has its hash |
| Storage.LogRoundTrip | file/partial_file.go:11-27 | a log of records reads back as its pieces |
| Storage.RecordIff | types/types.go:78-114 | exactly which bytes begin with a record: the index, the number of data bytes, the data |
| Storage.RecordOnDisk | types/types.go:78-93 | a record as literal bytes |
| Storage.CutFileOnDisk | types/types.go:104-111 | nine bytes that promise three bytes of data and hold one, and what they are read as |
| Storage.ReadsAsIff | file/partial_file.go:11-27 | a part file is accepted as certain pieces if and only if it is their log, or their log without some zeros of the last piece but with at least one of its bytes |
| Storage.AcceptedIsLog | file/partial_file.go:11-27 | the pieces of an accepted part file, and how many zeros were added |
| Storage.CutRecordReadsAsZeros | types/types.go:104-111 | a record cut short reads as a piece ending in zeros |
| Storage.CutFilesAreAccepted | types/types.go:108 | two part files cut inside their last record and accepted, one as the piece that was saved and one as another |
| Storage.RecordOfRead | types/types.go:95-114 | one record read and written again is the same, or was cut short at the end of the file |
| Storage.MarkSets | file/partial_file.go:23 | reading a part file sets exactly the bits of its pieces |
| Storage.SaveThenRead | file/file.go:10-56 | a saved file reads back as the pieces it was saved from |
| Storage.DeserializePiece | types/types.go:95-114 | the reads find the record that `Deserialize` defines, and leave the rest |
| Storage.ReadPartialFile | file/partial_file.go:11-27 | the loop returns the pieces of the log and marks their bits in the field passed in |
| Storage.WritePartialFiles | file/partial_file.go:29-56 | the loop appends each piece not yet saved to part `index / 1000`, as far as the writes accept it, and stops at the first error |
| Storage.WritePartsToReliable | file/partial_file.go:49-52 | when no write fails that is what `WriteParts` says |
| Storage.SavingStops | file/partial_file.go:29-56 | what is on disk after saving is the part files with the first so many of the appends, all accepted whole, and what was accepted of the next; success exactly when no append was cut |
| Storage.Save | file/file.go:44-56 | the loop writes the pieces in order, stops at the first write that fails, and panics at a missing or misplaced piece |
| Storage.SaveToReliable | file/file.go:50-53 | when no write fails that is what `SaveFrom` says |
| Storage.SaveToIsPrefix | file/file.go:44-56 | what is written is a prefix of the file, all of it if and only if every write was accepted whole; nothing follows a write that failed |
| Storage.Read | file/file.go:10-42 | the loop cuts the file into pieces, the last one taking the rest; for no pieces the whole file is one of index -1 |
| Clients.RunStoresWhatItTakes | client/client.go:143-148 | the results change only by the pieces taken from the channel, one at a time |
| Clients.ProcessIsASession | client/client.go:128-232 | when a session ends regularly and no write fails, the process leaves on disk what the session says |
| Clients.StoppedIsASession | client/client.go:128-223 | when it is killed or brought down, the disk is that of the main loop at this point |
| Clients.NoTrackerIsASession | client/client.go:81-85 | without a tracker the disk is as the load left it |
| Clients.LoopLeaves | client/client.go:206-222 | saving inside the loop, in the iteration of the last piece, leaves at every point what `Meanwhile` says |
| Clients.ExitIsFinish | client/client.go:225-232 | saving after the loop leaves what `Finish` says |
| Clients.LastPieceIsSaved | client/client.go:206-222 | the iteration that stores the last piece writes what the disk accepts of the finished file and deletes the part files, whatever the outcome of the writes |
| Clients.SavedMeansDeleted | client/client.go:206-222 | once the finished file is written no part file is there, and the disk does not change again |
| Clients.FinishedFileAlone | client/client.go:70-75 | a process that finds the finished file deletes all part files, from any disk, and changes nothing else |
| Clients.DownloadSurvivesIff | client/client.go:206-223 | of a process that stores the last piece: it leaves the finished file and no part file, and that file loads if and only if every write was accepted whole |
| Clients.LoadMarkedPieces | client/client.go:410-429 | bits marked before the hash check are the same as bits set piece by piece |
| Clients.OrderedIsStarted | client/client.go:97-108 | going through any permutation orders each missing piece exactly once |
| Clients.Client.constructor | client/client.go:59 | nothing held, no bit set |
| Clients.Client.StoreResult | client/client.go:143-148 | in place, what `Store` says; a panic changes nothing |
| Clients.Client.LoadPieces | client/client.go:415-429 | in place, what `LoadPieces` says, so a piece without its hash is refused (`Sessions.LoadPiecesIff`); `TotalLength` grows by the lengths of the pieces |
| Clients.Client.LoadPartFile | client/client.go:410-429 | one part file: its bits marked as it is read, then its pieces checked and stored, as `LoadPieces` says |
| Clients.Client.LoadPiecesFromPartialFiles | client/client.go:391-434 | in place, what `LoadParts` says, although bits are marked first; `TotalLength` is that of all parts; a short name panics |
| Clients.Client.LoadPiecesFromCompleteFile | client/client.go:364-389 | accepts what `LoadComplete` accepts, with every bit set and the torrent's length |
| Clients.Client.LoadFromFile | client/client.go:341-362 | the finished file if there is one, otherwise the part files |
| Clients.Client.Loop | client/client.go:128-223 | in place, the iterations of the main loop, with the finished file written when the last piece is stored |
| Clients.Client.SavePartialFiles | client/client.go:309-327 | what `WritePartsTo` says of the snapshot's bits, or the panic for a short name |
| Clients.Client.SeedOrders | client/client.go:97-108 | one order for each missing piece and none for any other, which starts the account of owners |
| Clients.PiecesMatch | client/client.go:373-387 | every hash, and the sum of the lengths |
| Clients.RunClient | client/client.go:56-232 | the whole process, with its exit when no tracker answers and the snapshot of the field taken before the loop changes it |
| Connections.PieceProgress.DeleteRequest | client/types.go:26-36 | the first request that matches is replaced by the last, or nothing changes |
| Connections.PieceProgress.AcceptBlock | client/peer.go:398-409 | copies the block into the buffer, in place, as `Accept` says |
| Connections.PieceProgress.Begin | client/peer.go:125-128 | a new order and a zeroed buffer |
| Connections.PieceProgress.Reset | client/peer.go:119 | back to no progress |
| Connections.PieceProgress.Issue | client/peer.go:310-312 | the request written is noted and the next offset moves on |
| Connections.Connection.constructor | bittorrent/peer_protocol.go:73-81 | the state after the handshake |
| Connections.Connection.UploadChunk | client/peer.go:101-110 | sends the block of the first request and takes it out of the list if the write succeeded |
| Connections.Connection.CompletePiece | client/peer.go:316-351 | hash check, HAVE, result; or the order given back; or nothing when the write fails; which piece the HAVE announces is in `History.RunIsRecorded` |
| Connections.Connection.GetPiece | client/peer.go:246-266 | keeps an order only for a piece that the other side has |
| Connections.Connection.SendInterested | client/peer.go:268-281 | noted only if the write succeeded |
| Connections.Connection.FillRequests | client/peer.go:283-314 | up to five outstanding, stopping at the first failed write |
| Connections.Connection.RequestNext | client/peer.go:286-312 | one request of the loop |
| Connections.Connection.HandleMessage | client/peer.go:353-415 | every message code, with its errors, panics and sends to the main loop |
| Connections.Connection.SetChoking | client/peer.go:190-202 | a choke change is written only when it is one, and holds even if the write fails |
| Connections.Connection.IsIncluded | client/peer.go:183-189 | the scan finds whether the peer is to be unchoked |
| Connections.Connection.Prepare | client/peer.go:101-140 | the five parts, in order |
| Connections.Connection.HandleEvent | client/peer.go:143-203 | one message or one tick |
| Connections.Connection.Iterate | client/peer.go:97-204 | one pass of the loop |
| Connections.Connection.CommunicationLoop | client/peer.go:97-204 | the loop with its regular and its error exit, in place, as `Life` and `RunLoop` say, so an error drops the order held (`History.EveryLife`); the piece in progress stays tiled and the history disciplined |
| Connections.Connection.Leave | client/peer.go:144-158 | a held order goes back to Orders, and the end of the connection is told |
| Bitfields.BitInNumbers | bitfield/bitfield.go:68-72 | index i is set if and only if byte `i / 8`, divided by 2^(7 - i % 8), is odd |
| Bitfields.SetInNumbers | bitfield/bitfield.go:80-91 | setting or clearing changes the byte's value by 2^(7 - i % 8), or not at all if the bit was so already |
| Bitfields.TrailingInNumbers | bitfield/bitfield.go:29-37 | the last byte of a full field is 256 - 2^(8 - n % 8), and 255 when 8 divides n |
| Bitfields.FullInNumbers | bitfield/bitfield.go:18-43 | all the bytes of a full field, as numbers |
| Bitfields.SetBitSetsOneBit | bitfield/bitfield.go:75-92 | setting a bit of the packed bytes changes that bit and no other |
| Bitfields.SetManyRefinesWriteMany | bitfield/bitfield.go:75-92 | any sequence of sets does to the bytes what it does to a sequence of booleans |
| Bitfields.SetEveryIndexIsFull | bitfield/bitfield.go:18-43 | `New(n)` with every index set has the bytes of `NewFull(n)`, padding zero, and one more byte exactly when 8 divides n |
| Bitfields.NewHasTheExpectedLengthIff | client/peer.go:377-383 | a field from `New` has the length the receiver demands if and only if 8 does not divide n |
| Bitfields.FieldSurvivesTheWire | bittorrent/peer_protocol.go:160-173 | what `Bytes` sends, `FromBytes` rebuilds |
| Bitfields.Bitfield.New | bitfield/bitfield.go:13-16 | `n/8+1` zero bytes |
| Bitfields.Bitfield.NewFull | bitfield/bitfield.go:18-43 | exactly the first n bits are set; the bytes are 255 but for the last |
| Bitfields.TrailingByte | bitfield/bitfield.go:29-40 | the bits of the last byte, whose value is in `Bitfields.TrailingInNumbers` |
| Bitfields.Bitfield.FromBytes | bitfield/bitfield.go:51-53 | shares the caller's bytes |
| Bitfields.Bitfield.Copy | bitfield/bitfield.go:55-61 | the same field in fresh memory |
| Bitfields.Bitfield.Bytes | bitfield/bitfield.go:45-49 | the same bytes in fresh memory |
| Bitfields.Bitfield.Get | bitfield/bitfield.go:63-73 | the bit at an index, which is digit `7 - i % 8` of byte `i / 8`; an error past the length |
| Bitfields.Bitfield.Set | bitfield/bitfield.go:75-92 | exactly that bit of the whole storage changes, and the byte by the value of that digit; nothing past the length |
| Choke.ChokeAlgorithm | client/client.go:547-595 | below five interested peers exactly those; otherwise the places are filled fairly from a ranking of the eligible, for any order of iteration, the fifth by the draw |
| Choke.SomebodyIsPickedIff | client/client.go:555-573 | somebody interested is picked if and only if somebody is interested and they are fewer than five or one of them has uploaded here |
| Choke.PickedFairly | client/client.go:579-589 | the first four are distinct, eligible, and nobody left out is more generous than any of them; the fifth is another eligible peer, exactly when there are five |
| Choke.DrawnOnce | client/client.go:586-587 | an eligible peer outside the best four is the fifth picked for exactly one value of the draw: its distance from the fifth place of the ranking |
| Choke.TickUnchokesThePicked | client/peer.go:183-202 | of the connections that take the tick exactly the picked ones are unchoked afterwards, so at most five |
| Choke.CollectCandidates | client/client.go:559-573 | every interested peer with a count of its own, once |
| Choke.CollectInterested | client/client.go:548-553 | exactly the interested peers, once each |
| Choke.Rank | client/client.go:575-577 | a permutation, most generous first |
| Choke.Pick | client/client.go:579-589 | the first four of the ranking, and with five or more the one that stands `draw` places after the fifth place |
| Trackers.TriedIsIncreasing | bittorrent/tracker.go:22-47 | trackers are tried in strictly increasing (tier, index) order, so each at most once |
| Trackers.TriesAllIff | bittorrent/tracker.go:36-37 | every remaining tracker is tried before giving up if and only if each tracker that follows another in its tier has an index beyond the start position plus (index + 1) of all before it |
| Trackers.RetryEndsIff | bittorrent/tracker.go:25-46 | the retry loop ends if and only if there is an announce list, or the single URL does not parse, or some attempt is answered |
| Trackers.FallbackStays | bittorrent/tracker.go:69-76 | without a list, a failure leaves the position where it is |
| Trackers.SkipsATracker | bittorrent/tracker.go:37 | of four supported trackers in one tier the third is never tried |
| Trackers.SkipsAcrossTiers | bittorrent/tracker.go:36-37 | with `[["a"], ["b", "c"]]` the third is never tried, because of the first tier |
| Trackers.RemainingIsExact | bittorrent/tracker.go:68-98 | what remains after a position is exactly the later supported trackers, in order |
| Trackers.FirstSupported | bittorrent/tracker.go:68-98 | the single URL without a list; otherwise the nested loops find the first supported tracker after the position, or there is none |
| Trackers.GetTracker | bittorrent/tracker.go:22-47 | whenever the retry loop ends: it tries the plan in order, up to the first that answers or to its end; without a list the single URL until it answers |
| Trackers.RetryLoop | bittorrent/tracker.go:25-46 | the loop itself, measured by the trackers that remain or the attempts until an answer |

## Left out

- Trackers.GetTracker: is about the inputs for which the loop ends; `Trackers.RetryEndsIff` says that there is no other for which it does.
- Bitfields.Bitfield.NewFull: the length is positive; for 0 the source writes to byte -1 and panics.
- Bitfields.Bitfield.Get: indices are natural numbers; the callers never pass a negative one, which would panic.
- Scheduler.EveryPieceHasOneOwner: is about runs that do not bring the process down; `Crashes.StartedRunFailsIff` says which do.
- Sessions.SessionKeepsDisk: every write to disk is accepted, and no session is stopped while a file is being written. Failing writes are in `Storage.SaveTo`, `Storage.WritePartsTo` and `Sessions.SaveSurvivesIff`; what a load makes of a part file cut inside a record is in `Storage.ReadsAsIff`.
- Sessions.SavedFileLoads: the torrent's length is the number of hashes times the piece length, and there is at least one piece. `GetNumberOfPieces` (types/types.go:29-34) panics unless the piece length divides the length, and the model takes the quotient to be the number of hashes.
- Transfer.TransferIsExact: both sides are bitflood, no write fails, and sizes fit the 32-bit fields of the protocol; the same holds of `Completion` and `Swarms`. Failing writes and arbitrary peers are in `PeerLoop`, `Discipline`, `Requests`, `Scheduler` and `Loops`.
- Clients.RunClient: tracker updates, timers, connection launching and choke ticks are events of the loop that do not touch the results; whether a tracker answers at the start is a parameter. A failed `os.Create` of the finished file, whose nil result is used at client/client.go:215, is not modelled.
- Connections.Connection.HandleMessage: a send on PeerInterested, Uploaded or ConnectionEnded always finds room. Their capacities (client/client.go:92-94) bound the notices that wait, not those that a peer can cause.
- A send on a channel and the reset of the progress that follows it are one step of the scheduler; the memory shared by a finished piece's data and the old buffer is not modelled, since the source makes a new buffer for each order.
- Messages are values: `SerializePieceMsg` and `SerializeRequestMsg` build the payload instead of assigning the field `Data`.
- The counting of generosity, and the upload and download totals reported to the tracker: bookkeeping without a promise of its own.
- The handshake: a fixed layout that adds nothing to message framing.
- The listener, with its use of a connection before the error of `Accept` is checked (client/client.go:243-245); the connection pool and the blacklist, which depend on wall-clock time and whose addresses are unique only sequentially, because the lock is dropped between check and append (client/types.go:92-107).
- TCP, HTTP, signals, logging, the command line tools, SHA-1 and the bencode decoder.
- Liveness: a peer may drop requests when it chokes, and choke ticks may never favour us, so a download may wait for ever. Safety and the termination of loops are stated, and between two bitflood clients that an order can always be completed (`Completion.EveryOrderCanBeCompleted`), not that it will be.
