# FastTransfer: verified transfer protocols

FastTransfer moves one file over many parallel, unreliable streams. This project models the four places where
that is hard to get right and proves them correct for every file, every number of streams and every interleaving:

1. **The browser engine** (`web/static/js/transfer.js`). Many sender pumps share one chunk counter and one retry
   queue and may die at any point; the receiver drops duplicates, holds back chunks that arrive early and writes
   the file strictly in order. `PumpProtocol`, `ReceiverProtocol` and `EndToEnd` are transition systems whose
   theorems hold in every reachable state of every run. `SenderEngine` and `ReceiverEngine` are classes with the
   program's fields and loops, proved to do nothing but steps of those systems.
2. **Two buffers whose consumer may come late**: the streaming-download service worker (`ServiceWorker`) and the
   ICE candidate buffers (`IceProtocol`, `IceEngine`).
3. **The native client** (`cli/src`): framing with its integer casts (`CliProtocol`), striping over eight streams
   (`CliTransfer`), and eight receiver tasks over one shared file (`CliReceiver`, `CliProcess`).
4. **The Go server's rendezvous**: timed pairing of TCP connections (`TcpRelay`) and the ready-channel handshake
   of the WebSocket relay (`WsRelay`, `WsHub`).

`Bytes`, `Chunking` and `Frames` hold the shared vocabulary: octets, big-endian integers, cutting a file into
chunks, and the browser's frame.

## Reading the model

- One event of a transition system is a piece of a program that runs without interruption: between two awaits, or
  one critical section. `Legal` and `Exec` give meaning to whole runs, and "in every reachable state" means after
  any legal run from the initial state.
- A method named `Await` (or `Pause`) stands for a suspension point. Its own body does nothing. Its contract is
  what callers may rely on afterwards: everyone else has taken any steps the protocol allows, and the caller's own
  place is as it was. Everything proved of the loops therefore holds under every interleaving.
- Ghost fields (`st`, `trace`, `links`, `traces`, `written`, `finishes`, `skipped`, `atInfo`, `ended`) record history. They
  exist only to state what the real fields mean.
- What sockets do is a parameter: a list of polls for a browser socket, a script of reads and writes for a
  WebSocket. `env` or `script` running out is the model's way of stopping in the middle.
- JavaScript numbers are modelled as integers. `Math.ceil(size / 65532)` is exact for every size below 2^53.
  `setUint32`, the `as u32` casts and `u64` arithmetic wrap as they do in the program.

## What does not hold, and exactly when

- A zero-byte browser file is never announced as complete, and nothing is ever sent for it: `CompletionAccounting`
  says completion fires iff the file has a chunk and each has been sent once; `EmptyFileNeverCompletes` is the
  failing case.
- A transfer can stall with chunks unsent, in two ways. A pump leaves for want of work while another still holds a
  chunk, and that one then fails (`StallExample`). Or a pump is parked on the low-buffer callback of a data channel
  that dies: nothing calls it back, nothing requeues its batch, and the others leave with the counters showing no work
  (`ParkedExample`). Everywhere, all is sent iff the work test is false and no pump holds anything (`Standstill`).
  When the last pump leaves, with none parked, all is sent iff it left at the work test, or after a whole batch over a
  channel that had closed when no other work was left (`LastLeaver`). Every failure-free run of one new stream sends
  all that the other pumps do not hold, which is everything in the first case and not in the second
  (`NewStreamCompletes`).
- Chunks written before the download has its destination are lost. A finished download is the file iff none had
  been (`DownloadExactly`), that is iff chunk 0 had not arrived before the event that settled the destination
  (`WholeIffDecidedFirst`). `LostChunkExample` is a run that ends with a file short of its head, and the stream then
  falls short of its declared Content-Length too (`StreamedDownload`).
- If all chunks arrive before the first file info does, the download is never finished, and that is the only way for
  it not to be once all have arrived and an info has come (`FinishesExactly`, with `LateInfoExample`).
- A fetch that reaches the service worker before the registration gets a 404, and the chunks posted afterwards wait
  for ever (`EarlyFetchLosesDownload`).
- On the sending side nothing ever drains the global candidate buffer, so every candidate is handed over iff none
  came before `createOffer` made the connection (`AnswerSideBuffering`, with `StrayExample`).
- The chunk index of the browser frame survives its 32-bit field iff the file has at most 2^32 * 65532 bytes
  (`IndexRoundTrip`); the native length prefixes are exact iff the lengths fit (`MessageRoundTrip`,
  `ChunkRoundTrip`); the native chunk count is exact iff its sum fits 64 bits (`TotalChunksExact`).
- The comment at `internal/handlers/relay.go:24-26` says that data is piped once a sender and a receiver have both
  connected. The code never looks at the role, and two senders are paired with each other (`TwoSendersPair`). The
  model follows the code; every pair is complementary iff no arrival found a waiter of its own role
  (`ComplementaryPairs`).

`web/static/js/transfer.js:16` promises no stalls when a stream dies in mid-batch; `StallExample` is one. Other
comments disagree with the constants without changing behaviour: `web/static/js/transfer.js:11` and `:15` speak of
256-chunk batches and 16 MB buffers where the code has 64 and 8 MB, and `internal/handlers/relay_ws.go:15` of
connection indices 0-3 where the browser opens eight. The model uses the code's values.

## Hypotheses

- Browser theorems about reception assume the file has at most 2^32 * 65532 bytes, and that received frames come
  from the sender; the receiver itself does not check that an index is below the total.
- "Sent" means that `send()` returned, not that anything arrived: a frame may then be lost, repeated or reordered.
- File reads succeed, `createOffer` runs once per engine, and a data channel once seen closed stays closed.
- Native theorems assume `size + CHUNK_SIZE - 1 < 2^64`. Stream 0 of the sender is stream 0 of the receiver; the
  other streams may be paired in any order, because tasks are named by the sender stream they read.
- One offer and one answer per connection index, one fetch per download, and one sender and one receiver per
  WebSocket relay key.

## Model

| member | source | states |
|---|---|---|
| Chunking.InRange | web/static/js/transfer.js:270 | the chunk count is exactly the number of non-empty chunks: index i is in range iff chunk i starts inside the file iff it holds a byte |
| Chunking.Reassembly | web/static/js/transfer.js:619-645 | the first n chunks, concatenated, are the file up to where chunk n starts |
| Chunking.WholeFile | web/static/js/transfer.js:270 | cutting a file into ceil(size / c) chunks and concatenating them is the identity |
| Bytes.BigEndianAt | web/static/js/transfer.js:624 | a serialised integer has its most significant octet first: octet k from the left is the k-th base-256 digit from the left |
| Bytes.BigEndianOnto | web/static/js/transfer.js:703 | every string of octets is the serialisation of the number it is read as |
| Frames.IndexRoundTrip | web/static/js/transfer.js:624 | the 32-bit index field returns every chunk's index iff the file has at most 2^32 chunks' worth of bytes |
| Frames.Decodes | web/static/js/transfer.js:702-709 | what the receiver takes out of a frame is the index and the bytes that were framed |
| Frames.FrameLayout | web/static/js/transfer.js:619-645 | a frame octet by octet: the four digits of the index, most significant first, then the file's bytes from 65532 * i on |
| Frames.FrameFits | internal/handlers/relay_ws.go:86 | every frame has 5 to 65536 bytes, and all but the last exactly 65536: the default message limit of section 6.1 of RFC 8841 and below the relay's read limit |
| PumpProtocol.StepInv | web/static/js/transfer.js:483-650 | every step of every pump keeps conservation, accounting and the shape of each pump's batch |
| PumpProtocol.Conservation | web/static/js/transfer.js:483-650 | in every reachable state an index below the counter is exactly once among sent, queued for retry and held unsent by one pump, and no other index is anywhere |
| PumpProtocol.MoveClaim | web/static/js/transfer.js:601-614 | a pump that sees work claims at least one and at most 64 indices, and claiming moves indices from queue and counter to the pump without loss or repetition |
| PumpProtocol.ClaimIs | web/static/js/transfer.js:603-614 | a claim is the first 64 of everything queued or unclaimed, the retries first, and all of it if there is less |
| PumpProtocol.HeldDistinct | web/static/js/transfer.js:597-599 | the indices in one pump's hands are distinct |
| PumpProtocol.CompletionAccounting | web/static/js/transfer.js:652-656 | completion fires at most once, iff the file has chunks and each has been sent exactly once; bytes counted are the sent chunks' lengths, and the file size at completion |
| PumpProtocol.EmptyFileNeverCompletes | web/static/js/transfer.js:652-656 | no run over a zero-byte file ever sends or completes |
| PumpProtocol.StepDecreases | web/static/js/transfer.js:483-586 | every step that is not a yield, also a failure with its requeue, uses up a non-negative potential |
| PumpProtocol.EveryRunIsShort | web/static/js/transfer.js:483-586 | a run has at most 204 steps a pump plus 4 a chunk, however pumps fail |
| PumpProtocol.GoneForGood | web/static/js/transfer.js:488-575 | a pump that has left, for want of work or because its socket failed or closed, takes no further step |
| PumpProtocol.AtRest | web/static/js/transfer.js:579-581 | when every pump has left or not started, everything is sent iff the work test is false |
| PumpProtocol.Standstill | web/static/js/transfer.js:544-546 | in every reachable state, all is sent iff the work test is false and no pump, running or parked, holds a chunk |
| PumpProtocol.LastLeaver | web/static/js/transfer.js:488-575 | when the step that lets the last pump leave is over, all is sent iff it left at the work test, or after a whole batch over a closed channel with no other work left |
| PumpProtocol.LastQuitCompletes | web/static/js/transfer.js:488 | if the last pump to leave leaves for want of work, everything has been sent, whatever failed before |
| PumpProtocol.FailureFreeCompletes | web/static/js/transfer.js:483-576 | a run without failures that has come to rest has sent every chunk |
| PumpProtocol.StallExample | web/static/js/transfer.js:488-496 | a concrete run, in an order the event loop produces, after which both pumps have left and a chunk is unsent |
| PumpProtocol.ParkedExample | web/static/js/transfer.js:540-565 | a concrete run after which a parked data-channel pump holds a chunk, the work test is false, and no other pump has a step left |
| PumpProtocol.Recovery | web/static/js/transfer.js:442-586 | whatever the other pumps hold, every failure-free run of one pump is finite, can go on until the pump leaves, and has then sent all that the others do not hold: everything, if they are at rest |
| PumpProtocol.CompletingRun | web/static/js/transfer.js:442-586 | such a run to the end exists |
| PumpProtocol.NewStreamCompletes | web/static/js/transfer.js:442-472 | in every reachable state, every failure-free run of a new stream is finite, can go on until its pump leaves, and has then sent all that the other pumps do not hold: the whole file, if they had come to rest |
| SenderEngine.BulkSlice | web/static/js/transfer.js:631-645 | a chunk cut out of one large read is the chunk read on its own |
| SenderEngine.TransferEngine.constructor | web/static/js/transfer.js:268-270 | a new engine has the ceiling chunk count and stands at the protocol's initial state |
| SenderEngine.TransferEngine.TryStart | web/static/js/transfer.js:442-472 | every ready stream without a pump gets one, all other pumps are left alone, and a repeated call resets nothing |
| SenderEngine.TransferEngine.Requeue | web/static/js/transfer.js:583-586 | the given indices go to the end of the retry queue in order |
| SenderEngine.TransferEngine.ShiftRetries | web/static/js/transfer.js:603-606 | up to 64 indices leave the front of the retry queue, in order, and the rest stays |
| SenderEngine.TransferEngine.ClaimIndices | web/static/js/transfer.js:601-614 | the synchronous part takes the first 64 of everything queued or unclaimed, as one claim step of the protocol, and nothing when there is no work |
| SenderEngine.TransferEngine.ReadBatch | web/static/js/transfer.js:601-650 | the batch is empty iff there was no work; otherwise its indices are the first 64 of everything queued or unclaimed, distinct, each with exactly its own frame, although other pumps ran during the reads |
| SenderEngine.TransferEngine.ReadRetries | web/static/js/transfer.js:618-628 | the per-chunk path yields the frames of the given indices in order |
| SenderEngine.TransferEngine.CutUp | web/static/js/transfer.js:632-646 | the bulk path yields the frames of consecutive indices in order |
| SenderEngine.TransferEngine.CheckDone | web/static/js/transfer.js:652-656 | asked after any send, completion fires iff by then every chunk of the file has been sent exactly once and it had not fired before; the flag then equals the protocol's |
| SenderEngine.TransferEngine.HandOver | web/static/js/transfer.js:511-519 | one send is the protocol's send step, with the frame of that index put on the wire and counted |
| SenderEngine.TransferEngine.GiveUp | web/static/js/transfer.js:495-499 | a relay pump whose socket fails puts exactly its unsent rest at the end of the queue and has then left |
| SenderEngine.TransferEngine.RelayPump | web/static/js/transfer.js:483-525 | the loop only takes protocol steps, sends once at every poll that found room, and returns for want of work or at exactly the first poll that stops it: closed when looked at, or send throws; then it holds nothing |
| SenderEngine.TransferEngine.HandBackRest | web/static/js/transfer.js:568-575 | after a broken blast and one await the unsent rest is at the end of the queue and the pump has left |
| SenderEngine.TransferEngine.P2PBlast | web/static/js/transfer.js:540-565 | sends once at every poll that found room, and stops short of the batch at exactly the first poll where the channel is closed, or open with room and send throws |
| SenderEngine.TransferEngine.P2PPump | web/static/js/transfer.js:531-576 | as the relay pump, over a data channel that parks on the low-buffer callback |
| SenderEngine.TransferEngine.CompletionCoversFile | web/static/js/transfer.js:652-656 | when completion has fired, every frame of the file has been accepted by some socket, as many frames as chunks have gone out, and the byte count is the file size |
| ReceiverProtocol.OfferSnapshot | web/static/js/transfer.js:695-735 | handling a chunk takes the state for a set of received chunks to the state for that set with the chunk added; it is dropped iff it was there |
| ReceiverProtocol.SnapshotUnique | web/static/js/transfer.js:695-735 | the set of received chunks determines the whole reordering state |
| ReceiverProtocol.Balance | web/static/js/transfer.js:706-734 | received = next write index + pending; pending lies strictly between it and the total; all received iff all written and none pending |
| ReceiverProtocol.Confluence | web/static/js/transfer.js:695-735 | two delivery sequences with the same set of frames leave the same write log, pending map, write index, count and byte total, whatever the order and repetition |
| ReceiverProtocol.StepInv | web/static/js/transfer.js:364-380 | arrivals, file infos and the end of prepare keep the receiver's invariant, in any order |
| ReceiverProtocol.WrittenIsPrefix | web/static/js/transfer.js:715-729 | in every reachable state the bytes written are the file's prefix up to the write index |
| ReceiverProtocol.FinishesExactly | web/static/js/transfer.js:731-734 | the download is finished at most once, iff every chunk has arrived and the run's first file info came before some chunk had; then what was written is the file |
| ReceiverProtocol.DownloadExactly | web/static/js/transfer.js:108-137 | a finished download is the file without the chunks written before its destination existed: the file iff there were none |
| ReceiverProtocol.NothingSkippedIff | web/static/js/transfer.js:737-741 | none had been written when the destination came into being iff chunk 0 had not arrived |
| ReceiverProtocol.WholeIffDecidedFirst | web/static/js/transfer.js:364-375 | over whole runs: a finished download is the file iff chunk 0 had not arrived before the last event that gave the download its destination (the first file info, or the switch to the service worker) |
| ReceiverProtocol.DeliverCounts | web/static/js/transfer.js:702-734 | for any message: it counts, with all its octets but four, iff it has four and its index is new; otherwise nothing changes; the one that makes the count the total finishes the download and clears the map |
| ReceiverProtocol.FirstInfoCounts | web/static/js/transfer.js:364-368 | the first file info fixes the total and makes one empty download, and any later one changes nothing |
| ReceiverProtocol.PreparedMode | web/static/js/transfer.js:91-105 | the download takes the mode that prepare settled on and keeps it in every later state of every run |
| ReceiverProtocol.PrepareMovesNothing | web/static/js/transfer.js:91-105 | settling the mode changes nothing else of the download and no chunk |
| ReceiverProtocol.FinishedBy | web/static/js/transfer.js:108-137 | a download finished after prepare: with the service worker, its chunks were posted in order and then the close, and there is no blob; otherwise there is one blob and no message |
| ReceiverProtocol.StreamedExample | web/static/js/transfer.js:108-121 | for every one-chunk file: the info, the service worker, the chunk gives exactly that chunk and the close as messages |
| ReceiverProtocol.LostChunkExample | web/static/js/transfer.js:737-741 | for every two-chunk file: chunk 0, the file info, chunk 1 gives a finished download that is not the file |
| ReceiverProtocol.LateInfoExample | web/static/js/transfer.js:731-734 | for every one-chunk file: the chunk, then the file info leaves everything received and nothing finished |
| ReceiverEngine.StreamingDownloader.Write | web/static/js/transfer.js:108-116 | a chunk becomes a message to the service worker or joins the fallback list, by mode |
| ReceiverEngine.StreamingDownloader.Close | web/static/js/transfer.js:118-137 | closing posts the close message, or assembles the fallback list into one blob and empties it |
| ReceiverEngine.Engine.WriteAndDrain | web/static/js/transfer.js:714-724 | the loop writes the chunk and all that follow on in the map, exactly as the recursive specification does |
| ReceiverEngine.Engine.HandleChunk | web/static/js/transfer.js:695-735 | the handler does to the fields exactly what the receiver protocol's delivery does, including the too-short message and the finish |
| ReceiverEngine.Engine.FinishDownload | web/static/js/transfer.js:743-758 | closes the download if there is one and clears the map |
| ReceiverEngine.Engine.OnFileInfo | web/static/js/transfer.js:364-368 | only the first file info creates the download and sets the total |
| ReceiverEngine.Engine.OnPrepareDone | web/static/js/transfer.js:91-105 | from here the download has a mode, and a service-worker download starts from the chunks not yet written |
| EndToEnd.StepInv | web/static/js/transfer.js:442-758 | every step of sender, network and receiver keeps both ends' invariants, and only sent chunks have arrived |
| EndToEnd.PrefixSafety | web/static/js/transfer.js:695-735 | over every interleaving with loss, duplication, reordering, failure and late start: the bytes written are file[0..min(next*65532, size)], and no more chunks are received than sent |
| EndToEnd.FinishAgrees | web/static/js/transfer.js:731-758 | when the receiver finishes, it has written the whole file, the sender has announced completion, and both byte counts are the file size |
| EndToEnd.CompleteAndDelivered | web/static/js/transfer.js:652-734 | once all that a completed sender sent has arrived, the receiver has finished iff the info came before the last chunk |
| EndToEnd.StreamedDownload | web/static/js/transfer.js:108-121 | composed with the service worker, for every position of the fetch: the stream is closed once and holds the file from the first chunk on that was not skipped, so as many bytes as its declared Content-Length iff none was skipped |
| EndToEnd.StreamedFromEndToEnd | web/static/js/transfer.js:442-758 | for every one-chunk file, a whole run from the pump to the closed stream, which holds the file |
| ServiceWorker.StepLocal | web/static/js/sw.js:35-83 | an event of one download does not change what the worker knows of another |
| ServiceWorker.RunLocal | web/static/js/sw.js:35-114 | a download's outcome depends on its own events only |
| ServiceWorker.FetchTimeIndependence | web/static/js/sw.js:35-114 | wherever the one fetch falls among a registered download's chunks and close, with other downloads interleaved, the stream gets every chunk in posting order, is closed once, and the entry is gone |
| ServiceWorker.EarlyFetchLosesDownload | web/static/js/sw.js:85-96 | a fetch before the registration leaves all chunks waiting in an entry that is never streamed |
| ServiceWorker.UnknownIgnored | web/static/js/sw.js:59-60 | for an id the worker does not know, only a registration makes a difference |
| ServiceWorker.CancelAndAbort | web/static/js/sw.js:77-82 | a cancel removes the entry as it is; an abort removes it too, and a live stream is then failed, not closed, and has what it had |
| ServiceWorker.SettledStream | web/static/js/sw.js:62-82 | a stream that is closed or failed takes nothing more |
| ServiceWorker.TableUsable | web/static/js/sw.js:35-114 | over every sequence of events, the table holds only entries that wait for their fetch or have an open, never closed stream with nothing left over |
| ServiceWorker.StreamEntry.OnFetch | web/static/js/sw.js:98-110 | the flush loop enqueues the buffered chunks in order, closes at once if the page has, and says whether the entry must go |
| ServiceWorker.Handlers.OnRegister | web/static/js/sw.js:39-57 | the table gains (or replaces) one open entry and nothing else changes |
| ServiceWorker.Handlers.OnChunk | web/static/js/sw.js:62-70 | the whole table is as after the protocol's chunk step: enqueued if live, buffered if not, ignored if unknown |
| ServiceWorker.Handlers.OnClose | web/static/js/sw.js:71-76 | the whole table is as after the protocol's close step: a live stream is closed and its entry removed |
| ServiceWorker.Handlers.OnAbort | web/static/js/sw.js:77-82 | the whole table is as after the protocol's abort step: a live stream fails and the entry is removed |
| ServiceWorker.Handlers.OnFetch | web/static/js/sw.js:85-110 | the whole table is as after the protocol's fetch step; unknown ids are refused |
| ServiceWorker.Handlers.OnCancel | web/static/js/sw.js:111-113 | the entry is removed and nothing else changes |
| IceProtocol.StepInv | web/static/js/transfer.js:382-438 | every arrival and every await keeps: nothing handed over early, and each received candidate is handed over or waiting exactly once |
| IceProtocol.OfferSideBuffering | web/static/js/transfer.js:382-416 | over all interleavings, no candidate is handed over before the remote description, none twice, and when the handler ends each received one has been and no buffer holds any |
| IceProtocol.AnswerSideBuffering | web/static/js/transfer.js:328-338 | when the answer handler ends, all received candidates have been handed over iff none arrived before the connection was made |
| IceProtocol.StrayExample | web/static/js/transfer.js:430-434 | one candidate before the connection, then the answer to its end: the candidate has been received and never handed over |
| IceProtocol.GlobalStays | web/static/js/transfer.js:328-338 | once a sender-side connection exists, the global buffer is never touched again |
| IceProtocol.ReceivedIs | web/static/js/transfer.js:426-438 | the log of received candidates is that of the run's arrivals, in order, whatever other steps the run has |
| IceProtocol.LogsGrow | web/static/js/transfer.js:382-438 | as a run goes on, nothing leaves the logs of received and handed-over candidates |
| IceProtocol.HandedInOrder | web/static/js/transfer.js:405-414 | when a handler has ended, the candidates that came before the remote description was set have been handed over in order of arrival, and so have the later ones |
| IceEngine.Engine.AddIceCandidate | web/static/js/transfer.js:426-438 | an arrival is recorded as one arrival at its index and nothing else: buffered globally, buffered at its connection or handed over, as the state of its index says; a null candidate changes nothing |
| IceEngine.Engine.InstallConnection | web/static/js/transfer.js:382-386 | the list grows to hold the index, that index gets a fresh connection, and every other index keeps what it had |
| IceEngine.Engine.DrainGlobal | web/static/js/transfer.js:405-410 | despite arrivals during each await, the loop empties and deletes the global buffer of its index; no candidate leaves the logs, and each one that has arrived is handed over or waiting exactly once |
| IceEngine.Engine.DrainOwn | web/static/js/transfer.js:411-414 | the loop empties the connection's own buffer; no candidate leaves the logs, and each one that has arrived is handed over or still in the global buffer exactly once |
| IceEngine.Engine.HandleOffer | web/static/js/transfer.js:382-424 | at its end the peer connection has been given exactly the candidates of the index's history, before the call and during it, each once, none early, and in the order above; both buffers are empty, and no history has lost an event |
| IceEngine.Engine.HandleAnswer | web/static/js/transfer.js:328-338 | an answer without a connection changes nothing; otherwise what has been handed over, in the order above, and what the global buffer held are together exactly the candidates of the index's history, each once, and no history has lost an event |
| CliProtocol.MessageRoundTrip | cli/src/protocol.rs:45-62 | a message is read back intact, consuming exactly its bytes, iff its length is below 2^32 |
| CliProtocol.ChunkRoundTrip | cli/src/protocol.rs:65-93 | a chunk frame is read back intact, consuming exactly its bytes, iff index and length fit their fields |
| CliProtocol.MessageLayout | cli/src/protocol.rs:45-51 | a message octet by octet: its length, most significant octet first, then the message |
| CliProtocol.ChunkLayout | cli/src/protocol.rs:65-76 | a chunk frame octet by octet: 8 plus the data's length, the index, both most significant octet first, then the data |
| CliProtocol.EndMarkerBytes | cli/src/sender.rs:167-168 | the end marker is 0 0 0 8 and eight octets of 255 |
| CliProtocol.CutChunk | cli/src/protocol.rs:79-93 | a frame cut off at any point by the end of the stream is an error |
| CliProtocol.CutMessage | cli/src/protocol.rs:54-62 | a message cut off at any point by the end of the stream is an error |
| CliProtocol.ShortLength | cli/src/protocol.rs:88 | a length below 8 is a panic, whatever follows |
| CliProtocol.StreamRoundTrip | cli/src/sender.rs:150-168 | decoding any list of frames and the end marker, with anything after it, gives that list and leaves what follows |
| CliProtocol.WholeStream | cli/src/receiver.rs:94-101 | decoding a whole stream gives the list and consumes every byte |
| CliProtocol.HeaderThenChunks | cli/src/receiver.rs:71-101 | on stream 0 the header comes out first and the chunks follow as on any stream |
| CliProtocol.TcpStream.SendMessage | cli/src/protocol.rs:45-51 | the bytes written are the length prefix and the message |
| CliProtocol.TcpStream.RecvMessage | cli/src/protocol.rs:54-62 | reading does exactly what the decoding function says, also at the end of the stream |
| CliProtocol.TcpStream.SendChunk | cli/src/protocol.rs:65-76 | the bytes written are the frame of that index and data |
| CliProtocol.TcpStream.RecvChunk | cli/src/protocol.rs:79-93 | reading does exactly what the decoding function says, also for a short stream and a length below 8 |
| CliTransfer.TotalChunksExact | cli/src/sender.rs:25 | the u64 expression is the true chunk count iff its sum does not overflow |
| CliTransfer.StripingPartition | cli/src/sender.rs:150-165 | each chunk index is visited once, by the loop of its residue; the eight loops make as many visits as there are chunks; no offset or index overflows and none is the end marker |
| CliTransfer.StripeAt | cli/src/sender.rs:150-165 | the k-th turn of a loop is at its start plus 8 * k |
| CliTransfer.FullChunks | cli/src/sender.rs:153-155 | chunk i starts at i MiB and every chunk but the last has 1 MiB |
| CliTransfer.RangesPartition | cli/src/receiver.rs:98-112 | byte ranges of different chunks are disjoint, and every byte of the file lies in exactly the range of its quotient |
| CliTransfer.TailFrames | cli/src/sender.rs:147-168 | the bytes a loop still has to write are the framing of its stripe with the end marker |
| CliTransfer.TailDecodes | cli/src/receiver.rs:94-101 | reading a sender loop's stream yields exactly the chunks of its stripe |
| CliTransfer.SendOne | cli/src/sender.rs:153-162 | one turn of the loop writes the frame of its chunk and reads exactly the chunk's length, without overflow |
| CliTransfer.SendStripe | cli/src/sender.rs:147-169 | the loop, in u64 arithmetic, writes the stripe of its residue and the marker, and counts the stripe's bytes |
| CliTransfer.ReadsSumToFile | cli/src/sender.rs:150-165 | what the eight loops read adds up to the file size |
| CliReceiver.StepInv | cli/src/receiver.rs:87-122 | every step of any task keeps the image of the output, the byte count and every task's place in its stream |
| CliReceiver.CliEndToEnd | cli/src/receiver.rs:77-166 | for every file, also empty, and every interleaving: the output is the source on the chunks written so far and zero elsewhere, no task fails, all are done after exactly 3 steps a chunk plus 8, and then output, count and any hash agree with the source |
| CliProcess.Process.constructor | cli/src/receiver.rs:71-84 | reads the header off stream 0; if it does not parse, no file is created; otherwise the file is created zero-filled at the length the header gives, which for the sender's own header is the transfer's initial state |
| CliProcess.Process.WriteChunk | cli/src/receiver.rs:103-110 | seek and write under the lock are the protocol's write step on the shared file |
| CliProcess.Process.ReceiveTask | cli/src/receiver.rs:94-119 | the loop ends, has only taken its own protocol steps whatever the other tasks did, and stops at the end marker, never on an error, for files within range |
| TcpRelay.StepInv | internal/handlers/relay.go:44-84 | every arrival and timer keeps: each connection waits, is paired or has timed out, and pairs are disjoint and mutual |
| TcpRelay.Rendezvous | internal/handlers/relay.go:58-84 | over every interleaving, a connection waits iff it is its room's pending entry, with its timer set; partners name each other, share the room and are in one pair only |
| TcpRelay.StaleTimer | internal/handlers/relay.go:74-82 | a timer fires once, closes its connection iff that still waits, and never touches another connection or a later waiter |
| TcpRelay.RoomBalance | internal/handlers/relay.go:44-84 | arrivals in a room = 2 * pairs + timeouts + whether one waits |
| TcpRelay.TwoSendersPair | internal/handlers/relay.go:52-67 | two connections with the sender's role byte are paired with each other |
| TcpRelay.ComplementaryPairs | internal/handlers/relay.go:24-26 | every pair has two different roles iff every arrival that found a waiter found one of another role |
| TcpRelay.RelayHub.HandleRelayConn | internal/handlers/relay.go:44-72 | 13 bytes are accepted, the first 12 being the room and the last the role, and fewer change nothing; the hub then takes the protocol's arrival step and returns the partner iff there is one |
| TcpRelay.RelayHub.OnTimer | internal/handlers/relay.go:74-82 | the identity-checked callback is the protocol's timer step, and closes iff the connection still waits |
| WsRelay.StepInv | internal/handlers/relay_ws.go:50-125 | every critical section, channel and socket operation of either handler keeps the rendezvous invariant |
| WsRelay.Rendezvous | internal/handlers/relay_ws.go:61-147 | in every interleaving there is one pair, its channel is closed at most once, whoever relays reads its own connection and writes the other's, what is forwarded is a prefix of what is read, at most one message behind, and once a handler has ended the hub has no entry for the key |
| WsRelay.OneCloser | internal/handlers/relay_ws.go:103-107 | at most one handler ever closes the channel, and exactly one has when anyone is past it |
| WsRelay.NoLostWakeup | internal/handlers/relay_ws.go:103-107 | once both sides are set, every handler short of relaying can move or is about to be released |
| WsRelay.DeadlockFree | internal/handlers/relay_ws.go:88-112 | in every reachable state, if neither handler can take a step towards the meeting, both are past it |
| WsHub.Hub.GetOrCreatePair | internal/handlers/relay_ws.go:50-59 | the lookup is the protocol's look step and returns the pair the handler will use |
| WsHub.Hub.SetSide | internal/handlers/relay_ws.go:92-99 | sets this side; the handler becomes the closer iff it finds both set |
| WsHub.Hub.CloseReady | internal/handlers/relay_ws.go:104 | the channel had not been closed before and now has been once |
| WsHub.Hub.PeekSides | internal/handlers/relay_ws.go:109-118 | both connections are set when read, source and destination are this handler's and the other's |
| WsHub.Hub.Pipe | internal/handlers/relay_ws.go:129-148 | the loop reads messages up to the first failure and passes on, in order and unchanged, all but one whose write failed |
| WsHub.Hub.HandleRelayWS | internal/handlers/relay_ws.go:68-125 | a whole handler, interleaved with the other in any way: it relays iff the channel was closed, exactly once, then forwards as the loop does, and leaves no entry for the key in the hub; otherwise it still waits |

## Left out

- WebRTC, SDP rewriting, STUN and TURN: only whether the remote description has been set is kept.
- The pages' own scripts (`web/static/js/send.js`, `web/static/js/receive.js`), signalling rooms, the HTTP server, argument parsing, progress bars and statistics.
- Buffer thresholds, `_waitForDrain` and the MessageChannel yield: waiting is a step that changes nothing, or an `Await`.
- `StreamingDownloader.prepare` beyond its outcome (service worker or blob), and `abort` on the page's side; the worker's abort handler is modelled.
- JSON and SHA-256: the header is any byte string, the hash any function.
- Malformed native frames beyond ending their loop, partial arrival of bytes (a read step takes a whole frame), file-system errors, and progress reporting.
- What a receiver does after a header that names another size or chunk size than the sender's own; the sender always puts its own there.
- Closing the WebSocket itself when its handler ends; the byte pipes of the TCP relay, and the instant between releasing the lock and setting the timer: the timer is set with the pending entry.
- Reuse of a WebSocket relay key by a third handler, which could close the channel twice; repeated offers for an index; repeated fetches of one download; requests refused with status 400.
- ICE connection records and WebSocket relay pairs are values in a list or table, so aliasing between references to one record is not modelled.
- Fairness and liveness of the event loop, the scheduler and the network: nothing says that a parked pump is called back.
- PumpProtocol.FailureFreeCompletes: needs a run that has come to rest; a parked data channel may keep it from doing so.
- SenderEngine.TransferEngine.Await: says what other pumps may do, not that they do anything.
