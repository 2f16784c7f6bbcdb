# AnyTLS session layer, proved

A Dafny model of the AnyTLS session layer of anytls-rs and of the bookkeeping around it, with proofs over every
input, every run and every interleaving. `dafny verify dfyconfig.toml` checks all of it.

## What is modelled

**The wire.** `Frames` is the seven-byte header codec with its 16-bit length cast. `Writer` and `WriterRuns` are
`write_conn`: the held-back buffer, the packet counter, the records cut to drawn sizes, and the padding frames.
`Padding` is the drawing of sizes, `Schemes` what a scheme's text says, `StringMaps` the settings text, and `Receiver`
the reassembly loop. `Pipes` is the per-stream pipe; each of its lock sections is one step.

**A session.** `Sessions` is one machine for both ends. Every lock section or atomic operation of a session, a stream
or the receive loop is one step. What an operation still has to do between two of its steps is a pending `Task`, so
opens, closes, writes, terminations, peer frames and chunk arrivals interleave freely. `Engine` is the protocol engine
behind it. `SessionObjects` is the session as an object whose methods are those sections. The `Session…` modules each
prove one family of facts about every run; `SessionLogs` ties the calls on a stream, what they returned and what they
were given, to the state, so that the results between two ends are about bytes that callers wrote and read.

**Both ends.** `EndToEnd` joins a client's queue, the writer, an arbitrary prefix of the wire and a server session.
`BothWays` runs the two ends together to prove the way back, where the order in time of opening and replying matters.
`Scenarios` holds concrete runs: a whole conversation, and runs that show where a promise ends.

**Bookkeeping.** `Users`, `UserRuns` and `UserSpecs` are the user registry with its shared entries and guards.
`IdlePool` is the client's pool of idle sessions. `PanelSync` is user synchronisation and traffic reporting.

Hashes, digests, clocks and random sizes are parameters: every result holds for all of them. Sizes are any the scheme
can draw. Chunk boundaries, map iteration orders, buffer sizes and schedules are universally quantified.

## Conditions the code really has

- A frame survives the wire exactly when its data is at most 65535 bytes and its command is not an `Unknown` that
  stands for a known byte (`DecodeEncode`). `Stream::write` does not
  split, so the end-to-end results ask it of every frame that was written.
- A padding frame of `n` bytes stays on a frame boundary exactly when `n / 65536` is a multiple of 7 (`WasteParse`,
  `AlignedExactly`). Schemes with numbers up to 65535 only emit such frames (`FairRunsAlign`), which is what the
  end-to-end results ask for. Beyond that, a size is safe behind every first frame exactly when it is at most 65549 or
  exceeds it by a multiple of 458752 (`SafeSizesExactly`).
- A scheme number is cast to 32 bits, and exactly those congruent to 2^32 - 1 turn into the check mark
  (`LargeNumberBecomesCheckMark`).
- End of file is a promise about the peer only while the session is not terminated (`EofMeansFin`, `ReadBackEof`).
  `terminate` ends open streams as cleanly as a FIN does, and nothing can be concluded then
  (`SessionEndTellsNothing`).
- A stream is lost exactly when a step takes it out of the map while it is open (`LostExactlyWhen`): a client whose
  identifiers wrapped around may do that, and a server whose peer reuses an identifier (`LostToReuse`).
- The idle flag may be up while a stream is open. `IdleFlagMayBeStale` gives the run and `StaleExactlyWhen` the only
  step that causes it.
- A user list may name an email twice only if at most one of its entries wins (`Replace`).
- The generation of a user is a 64-bit counter, so a guard overlooks a number of password changes that is a multiple
  of 2^64 (`GuardRevokedExactly`). It also overlooks a change between its lookup and its snapshot
  (`SupersededGuard`, `RekeyedUnderTheGuard`).
- A quota reset loads before it stores, so bytes recorded between the two count against the quota although they came
  before the reset was stored (`CleanResetExactly`, `RacingResets`).
- Client stream identifiers repeat after 2^32 draws. Results that need distinct ones ask for fewer draws.

Where the documentation and the code disagree the model follows the code. The README and `docs/protocol.md` say that
multiplexing is gone, and it is there. `docs/code.md` describes a half-close, and `close` ends the read side at once.
`docs/protocol.md` promises reuse of the largest sequence number, and swap-remove reorders the pool. It also promises
an updated scheme for later sessions, and only the session's own state changes.

## Model

| member | source | states |
|---|---|---|
| `Frames.CommandOf` | src/core/frame.rs:22-58 | every byte is some command and converts back to the same byte |
| `Frames.Layout` | src/core/frame.rs:118-125 | a frame is the number of its command, the identifier and the length with the highest byte first, and the data |
| `Frames.DecodeEncode` | src/core/frame.rs:118-165 | a frame in front of any bytes decodes to itself if it fits, and an encoded frame decodes to itself if and only if it fits: at most 65535 bytes of data, and no `Unknown` command that stands for a known byte |
| `Frames.EncodeDecode` | src/core/frame.rs:118-165 | decoding consumes exactly the encoding of the frame it returns |
| `Frames.DecodeStable` | src/core/frame.rs:127-165 | bytes that arrive later never change a frame that was already complete |
| `Frames.ParsedAndTail` | src/core/frame.rs:127-165 | the frames of a byte string and its unparsed tail are the byte string again, and the tail holds no frame |
| `Frames.ParseSplit` | src/proxy/session/inner.rs:225-231 | parsing what has arrived and going on with the tail equals parsing everything at once, at every split point |
| `Frames.ParsePrefix` | src/proxy/session/inner.rs:225-231 | a shorter prefix of the wire yields a prefix of the frames |
| `Frames.ParseEncodeAll` | src/core/frame.rs:118-165 | any list of fitting frames, followed by anything, parses back to the list followed by the rest |
| `StringMaps.FromBytes` | src/core/string_map.rs:16-27 | the parsing loop computes the map of the last entry for each key |
| `StringMaps.ReadPrint` | src/core/string_map.rs:11-27 | printed entries read back as the same list of entries |
| `StringMaps.PrintIsLines` | src/core/string_map.rs:11-14 | the printed text is the lines `key=value` with a line feed between two of them |
| `StringMaps.LinesTolerated` | src/core/string_map.rs:20-24 | a line without `=` says nothing, and a carriage return before the line feed is no part of the value |
| `StringMaps.SettingsRoundTrip` | src/core/string_map.rs:11-27 | a map with printable keys and values survives printing and parsing in every iteration order |
| `Padding.AsI32` | src/core/padding.rs:62-67 | the cast to 32 bits: in range and congruent modulo 2^32 |
| `Padding.GenerateRecordPayloadSizes` | src/core/padding.rs:48-75 | whatever is drawn, the loop returns one check mark or one number of the range, cast, per item in order |
| `Padding.DrawnSizes` | src/core/padding.rs:48-75 | with scheme numbers up to a bound below 2^31, every drawn size is the check mark or between 1 and the bound |
| `Padding.LargeNumberBecomesCheckMark` | src/core/padding.rs:62-67 | exactly the numbers congruent to 2^32 - 1 are taken for the check mark |
| `Texts.ParseExactly` | src/core/padding.rs:37 | `parse` accepts exactly the spellings of numbers in range: decimal digits, perhaps with zeros and a plus sign in front |
| `Texts.DecimalNotation` | src/core/padding.rs:51 | `to_string` writes the digits whose places add up to the number, without a leading zero |
| `Schemes.FactoryOfEntries` | src/core/padding.rs:31-46 | a list of entries is a scheme if and only if its last `stop` entry spells a 32-bit number, which then is the stop, and each packet has the items of its last entry |
| `Schemes.ItemExactly` | src/core/padding.rs:54-62 | an item is a check mark if and only if it is `c`, a range if and only if it spells two positive 64-bit numbers in either order, and says nothing otherwise |
| `Schemes.SchemeMeans` | src/core/padding.rs:31-75 | a scheme printed as text is accepted with its own stop, and what may be drawn for a packet is exactly one size for each entry of its size list |
| `Schemes.DefaultMeans` | src/core/padding.rs:6-14 | the default text stops at packet 8, draws each packet from its own line, and its numbers are small enough for every result that asks for that |
| `Writer.WriterRuntimeState.constructor` | src/runtime/mod.rs:55-62 | a fresh writer pads only on a client, and its counter has room |
| `Writer.WriterRuntimeState.Write` | src/runtime/mod.rs:182-252 | one call takes the state and the bytes to the state and records of the reference function, whose runs `WriterRuns` describes, with sizes drawn from the scheme in force, and the counter never overflows |
| `Writer.WriteSizes` | src/runtime/mod.rs:210-241 | the in-place loop over the sizes leaves exactly the records and the rest of the recursive reference |
| `WriterRuns.WasteParse` | src/runtime/mod.rs:225-239 | a padding frame of any length carries no meaning, and leaves the stream on a frame boundary if and only if it is aligned |
| `WriterRuns.BurstBytes` | src/runtime/mod.rs:205-251 | the records of a call are its payload, unchanged and in order, followed by padding frames only |
| `WriterRuns.CallBytes` | src/runtime/mod.rs:188-251 | a call keeps all bytes back while buffering, and otherwise puts the held-back bytes and the new ones on the wire, adding nothing but padding frames |
| `WriterRuns.AlignedExactly` | src/runtime/mod.rs:225-239 | the wire is on a frame boundary after each padding frame of a call if and only if all of them are aligned |
| `WriterRuns.SmallSizesAlign` | src/runtime/mod.rs:210-241 | sizes up to 65535 only produce aligned padding frames |
| `WriterRuns.FairRunsAlign` | src/runtime/mod.rs:182-252 | over every run whose schemes list no number above 65535, whatever is drawn from them, every padding frame is aligned |
| `WriterRuns.PaddingIsTransparent` | src/runtime/mod.rs:182-252 | over any run of fitting frames, buffering switches and scheme changes, with schemes up to 65535 and any sizes drawn from them, the wire parses completely, and its frames without padding followed by the held-back ones are the frames submitted |
| `WriterRuns.AlignedIsTransparent` | src/runtime/mod.rs:182-252 | the same for any schemes whose padding frames come out aligned |
| `WriterRuns.OnePaddedCall` | src/runtime/mod.rs:221-233 | while a scheme pads the first packet, a first call under the size list `[size]` keeps the meaning if and only if there is nothing to pad or the padding is aligned |
| `WriterRuns.SafeSizesExactly` | src/runtime/mod.rs:221-233 | while a scheme pads the first packet, a one-entry size list is safe behind every first frame if and only if the size is at most 65549 or exceeds it by a multiple of 458752 |
| `WriterRuns.LongPaddingBreaks` | src/runtime/mod.rs:229 | 65536 bytes of padding behind any frame break the wire |
| `WriterRuns.PaddingNeverReturns` | src/runtime/mod.rs:205-247 | once padding is off, no later call pads again |
| `WriterRuns.PacketsCounted` | src/runtime/mod.rs:89-93 | over every run, padding is on if and only if this is a client and every packet came before the stop of the scheme it was sent under, and while it is on the counter is the number of packets |
| `WriterRuns.FixedStop` | src/runtime/mod.rs:206-247 | under one stop, padding is on exactly while fewer packets than that were sent |
| `WriterRuns.PacketsDrawn` | src/runtime/mod.rs:205-210 | the sizes of a run are drawn as they must be if and only if each packet before the stop draws from the list of its own number |
| `WriterRuns.PacketWritten` | src/runtime/mod.rs:182-252 | in any run one more frame writes nothing while frames are held back; otherwise all held-back frames and the new one, in records that follow the sizes for a client before the stop, and in one record for anyone else |
| `WriterRuns.RecordSizes` | src/runtime/mod.rs:210-241 | each size that is reached makes one record: exactly the size while more payload remains, exactly the size when the payload ends with room for padding, between 7 less and the size otherwise, and the size plus 7 when it is padding only |
| `WriterRuns.RecordCount` | src/runtime/mod.rs:210-241 | there is one record per size up to the first check mark that finds no payload, and none after it |
| `Receiver.RecvLoop` | src/proxy/session/inner.rs:205-233 | for every split into reads, the frames handled are those of the whole byte string up to the first failure, and while the loop goes on what stays pending is its tail |
| `Receiver.HandlePending` | src/proxy/session/inner.rs:227-231 | the inner loop handles exactly the complete frames and ends, because each takes at least its header |
| `Pipes.Preserved` | src/proxy/pipe/io_pipe.rs:32-180 | every step keeps that bytes delivered, left over and queued are the bytes accepted, that the end marker is unique and last, and that a pipe ended without a local close is drained |
| `Pipes.RunKeeps` | src/proxy/pipe/io_pipe.rs:32-180 | the same over every run, in which delivery is always a prefix of what was accepted, also after a local close |
| `Pipes.ReadReturns` | src/proxy/pipe/io_pipe.rs:36-119 | what a step returns to the reader is exactly what it counts as delivered, never more than the buffer holds, and less only if nothing of the piece is left over |
| `Pipes.ReadsReturn` | src/proxy/pipe/io_pipe.rs:32-119 | over every run the bytes the reads returned are what was delivered meanwhile |
| `Pipes.EndIsTold` | src/proxy/pipe/io_pipe.rs:84-117 | over every run without a local close, the reads return the error of the end marker once, if it has one, after every byte accepted, and no error before it is read |
| `Pipes.ReadToTheEnd` | src/proxy/pipe/io_pipe.rs:32-119 | a reader that goes on with any non-empty buffer reaches the end that is queued |
| `Pipes.LocalCloseTold` | src/proxy/pipe/io_pipe.rs:36-64 | after a local close the reads return what was left over and the error of the close once, and never time out |
| `Pipes.EofIsEnd` | src/proxy/pipe/io_pipe.rs:32-119 | without a local close, and unless an empty piece of data was written (which no session does), end of file comes only after the end marker and after every accepted byte |
| `Pipes.ErrorIsEnd` | src/proxy/pipe/io_pipe.rs:32-119 | without a local close, an error is the one of the end marker and comes after every accepted byte |
| `Pipes.EndedForever` | src/proxy/pipe/io_pipe.rs:32-119 | after the end every read reports end of file and nothing more is accepted or delivered |
| `Pipes.EofForever` | src/proxy/pipe/io_pipe.rs:32-180 | over every later run, every read reports end of file |
| `Pipes.TimeoutLosesNothing` | src/proxy/pipe/io_pipe.rs:68-119 | a read that times out leaves everything as it was |
| `Pipes.PipeInner.constructor` | src/proxy/pipe/io_pipe.rs:189-207 | a fresh pipe satisfies the invariant |
| `Pipes.PipeInner.Write` | src/proxy/pipe/io_pipe.rs:162-180 | data is accepted exactly while the pipe is open and no end is queued; the new state is the machine's and keeps the invariant |
| `Pipes.PipeInner.FinishStream` | src/proxy/pipe/io_pipe.rs:133-152 | the end marker is queued at most once; the new state is the machine's and keeps the invariant |
| `Pipes.PipeInner.CloseWithError` | src/proxy/pipe/io_pipe.rs:121-131 | a local close; the new state is the machine's and keeps the invariant |
| `Pipes.PipeInner.ReadCheck` | src/proxy/pipe/io_pipe.rs:32-64 | the first section of a read: left-over bytes, the end, or on to the channel; the bytes returned are appended to what was delivered |
| `Pipes.PipeInner.ReadReceive` | src/proxy/pipe/io_pipe.rs:76-82 | the next event, or none when the deadline passed or the sender is gone |
| `Pipes.PipeInner.ReadRestore` | src/proxy/pipe/io_pipe.rs:84-117 | the last section of a read: what is returned and what is left over; the bytes returned are appended to what was delivered |
| `Engine.ServerSettingsRead` | src/core/engine.rs:62-96 | the server's answer reads back as the version it declares |
| `Engine.ServerAnswers` | src/core/engine.rs:62-96 | to a client's settings the server records version 2 and answers with its settings, preceded by its scheme exactly if the digests differ |
| `Engine.AnyVersionAnswered` | src/core/engine.rs:62-96 | to any settings that declare a version, the server sends its scheme unless the digest is the same, and records and echoes the version if it is at least 2 |
| `Engine.SettingsTexts` | src/core/engine.rs:26-34 | the settings are the texts `v=2`, `client=` and `padding-md5=` with their values, one per line |
| `Engine.ClientAdopts` | src/core/engine.rs:97-110 | after the answers the client has the server's version, and the server's whole scheme unless the digests were the same |
| `Engine.NegotiationAgrees` | src/core/engine.rs:12-126 | for all pairs of schemes and every iteration order, after the opening exchange over the wire both ends record version 2 and schemes with the same digest, and a client whose digest differed has the server's whole scheme |
| `SessionSafety.ClosedPipeClosedStream` | src/proxy/session/stream.rs:74-104 | a pipe that refuses data belongs to a stream already marked closed |
| `SessionSafety.StepKeeps` | src/proxy/session/inner.rs:90-337 | every step of a session keeps it sound: streams are never renamed, reopened or forgotten, pending work fits the streams it is about, and a pipe ends only after its stream was closed |
| `SessionSafety.RunsSound` | src/proxy/session/inner.rs:83-337 | the same over every run |
| `SessionObjects.SessionInner.constructor` | src/proxy/session/inner.rs:34-62 | a fresh session object is the machine's initial state and sound |
| `SessionObjects.SessionInner.OpenSection` | src/proxy/session/inner.rs:95-114 | the lock section of an open is the machine's step: a stream under the next identifier, or nothing when closed, full or out of identifiers |
| `SessionObjects.SessionInner.RemoveSection` | src/proxy/session/inner.rs:239-249 | the lock section of a removal takes exactly that identifier out and owes a notification exactly if the map is empty |
| `SessionObjects.SessionInner.MarkClosed` | src/proxy/session/stream.rs:114-118 | exactly the first close wins, and a later one changes nothing |
| `SessionObjects.SessionInner.CreateSection` | src/proxy/session/inner.rs:256-265 | an incoming stream is created exactly if its identifier is free |
| `SessionObjects.SessionInner.CloseFromSession` | src/proxy/session/stream.rs:100-104 | one stream is ended unless it was closed already, and no other stream changes |
| `SessionObjects.SessionInner.Terminate` | src/proxy/session/inner.rs:146-164 | the first call empties the map, raises the idle flag and ends exactly the streams that were in it; a later call changes nothing |
| `SessionObjects.SessionInner.PushStreamData` | src/proxy/session/inner.rs:296-313 | data reaches the open stream of its identifier and no other, and in a sound session never fails it |
| `SessionIdle.NoLostWakeUp` | src/proxy/session/inner.rs:90-184 | under every interleaving, a session without streams that nobody still has to announce is marked idle |
| `SessionIdle.StaleExactlyWhen` | src/proxy/session/inner.rs:239-249 | from a truthful flag, a step makes it stale if and only if it is a notification that runs while a stream is open |
| `SessionIdle.IdleFlagMayBeStale` | src/proxy/session/client.rs:249-262 | a run of a fresh client after which a stream is open and the flag is up, which is why the waiter looks again |
| `SessionLifecycle.ClientRuns` | src/proxy/session/inner.rs:90-164 | in every client run the open streams never exceed the cap, the first 2^32 - 1 identifiers are distinct and not zero, and a drained map stays empty |
| `SessionTermination.LostExactlyWhen` | src/proxy/session/inner.rs:90-337 | a step leaves a stream neither closed, nor in the map, nor about to be closed, if and only if it takes an open stream out of the map: a new stream under its identifier, or a removal owed by another stream of that identifier |
| `SessionTermination.RunAccounts` | src/proxy/session/inner.rs:90-337 | along a run every stream stays accounted for if and only if no step takes an open one out of the map |
| `SessionTermination.DistinctRuns` | src/proxy/session/inner.rs:90-337 | as long as no identifier is used twice, no step does that |
| `SessionTermination.IdsLoseNobody` | src/proxy/session/inner.rs:104-107 | nor does any step of a client that drew fewer than 2^32 identifiers |
| `SessionTermination.TerminateIsFinal` | src/proxy/session/inner.rs:146-164 | in every client run, once a termination has drained the map it is empty for good, and if no step took an open stream out of the map, every stream ever opened is closed or has its close pending |
| `SessionTermination.PendingCloses` | src/proxy/session/stream.rs:94-104 | a pending close can always go on, and two steps of its own close the stream |
| `SessionFins.FinRuns` | src/proxy/session/stream.rs:81-118 | in every run each stream queues at most one FIN, and none if the peer's close or the session's end came first |
| `SessionEnds.FinExactly` | src/proxy/session/stream.rs:81-92 | in every run, while the writer lives, a stream has exactly one FIN queued or on its way if its own side closed it, and none otherwise |
| `SessionReceive.StreamIsolation` | src/proxy/session/inner.rs:296-337 | in a sound state, no step for a PSH, FIN or SYNACK frame touches another stream, sends anything or stops the session |
| `SessionDelivery.IsolationInRuns` | src/proxy/session/inner.rs:296-337 | the same in every reachable state of either end |
| `SessionGate.FrameGate` | src/core/engine.rs:50-96 | only a non-empty Settings frame opens the gate; a SYN before it asks for an alert and nothing else; a recorded version is at least 2 |
| `SessionGate.SettingsGateHolds` | src/core/engine.rs:50-96 | on a fresh server fed any frames, no stream exists before a non-empty Settings frame, a SYN before that ends the run with an alert and no stream ever, and SYNACK is sent only at version 2 or above |
| `SessionAnswers.AnswersQueued` | src/runtime/mod.rs:155-175 | over every run the SYNACK frames of a stream on the queue are exactly the answers given to its opening at version 2 or above while the writer lived, in order and word for word |
| `SessionAnswers.AnsweringRuns` | src/core/engine.rs:39-126 | over every run of either end the protocol state is that of the conversation over the frames handled, and the replies queued are those it calls for, in order, with none missing when the loop is at rest and the writer lives |
| `SessionAnswers.HeartbeatsAnswered` | src/core/engine.rs:102-104 | every heartbeat is answered once, in order, under its own identifier |
| `SessionAnswers.SchemeInForce` | src/core/engine.rs:97-101 | a client's scheme is that of the last update that is one, and a server's never changes |
| `SessionAnswers.VersionInForce` | src/core/engine.rs:77-110 | the version on record is the last one declared to this end, on a server only from 2 on |
| `SessionAnswers.AlertIsLast` | src/runtime/mod.rs:349-355 | an alert is the last frame a session handles |
| `SessionDelivery.DeliveryRuns` | src/proxy/session/inner.rs:205-337 | in every run, with any chunking, the frames handled are those of the bytes received, and each stream's pipe has accepted exactly the data addressed to it, in order, up to what is in flight |
| `SessionOutbox.OutboxRuns` | src/proxy/session/inner.rs:90-131 | in every client run the queue opens each stream with its SYN, carries exactly the bytes written to it, and holds as many FINs as it logged |
| `SessionServer.BornRuns` | src/proxy/session/inner.rs:251-275 | every stream of a server was born by a SYN with its identifier |
| `SessionServer.OrderRuns` | src/proxy/session/inner.rs:251-275 | server streams are born one after another, each by a frame of its own |
| `SessionEnds.AnnouncedRuns` | src/proxy/session/stream.rs:94-98 | at either end, a stream closed by its peer has its end queued or is just getting it, and the end says what the first frame that ended the stream says |
| `SessionEnds.EndingRuns` | src/proxy/session/stream.rs:81-104 | at either end, the pipe of a stream that its session or its own side closed has been ended or is about to be |
| `SessionEnds.WindingRuns` | src/proxy/session/stream.rs:100-104 | at either end, a stream ended by the session means that the session is terminated |
| `SessionEnds.OnlyTheHolderCloses` | src/proxy/session/stream.rs:81-92 | a stream becomes closed locally only by a call of `close` on it |
| `SessionReplies.RepliesStep` | src/proxy/session/stream.rs:61-92 | every step of a server whose streams have distinct identifiers keeps that it queues frames only for streams it has, and that its data frames carry exactly what was written to each |
| `SessionLogs.LogsAgree` | src/proxy/session/stream.rs:57-72 | over every run of either end, what was delivered on a stream is what its read calls returned, its end was told to the reader exactly if the pipe is closed, and what it has sent is what its writes queued |
| `SessionLogs.WritesAccounted` | src/proxy/session/stream.rs:61-72 | over every run, while the writer lives, the pieces queued for a stream and those about to be are exactly the pieces of the write calls it has taken |
| `EndToEnd.WirePrefix` | src/runtime/mod.rs:302-332 | through the writer, schemes up to 65535, any prefix of the wire and any chunking, the frames handled are the first frames queued, and all of them once everything has arrived |
| `EndToEnd.DeliveredIsPrefix` | src/runtime/mod.rs:182-332 | for every interleaving, every scheme up to 65535 and every size drawn from it, every chunking and read size, the bytes that read calls on a server stream returned are a prefix of the bytes written to the client stream of its identifier |
| `EndToEnd.SettledIsComplete` | src/proxy/session/inner.rs:205-313 | once everything queued has arrived, the bytes that reads on an open server stream returned, the left-over ones and the queued ones are exactly the bytes written |
| `EndToEnd.EofCases` | src/proxy/pipe/io_pipe.rs:32-119 | end of file means a closed stream and a prefix read: closed by the peer, a FIN was queued and everything before it has been read; closed by the session, it is terminated; else closed by its own side |
| `EndToEnd.EofMeansFin` | src/proxy/session/inner.rs:166-168 | so on a stream its own side has not closed, in a session that is not terminated, end of file means a FIN with everything before it read |
| `EndToEnd.FinMeansEof` | src/proxy/session/inner.rs:323-328 | once everything queued has arrived, a FIN for the stream among it, the stream is closed or its close is pending, and if the peer closed it first, its reader still gets exactly the data before the FIN and then an end without error |
| `BothWays.JointRuns` | src/proxy/session/inner.rs:90-275 | when both ends run together, no frame a client has handled names a stream before the client opened it, and the server's replies stay within the streams it has |
| `BothWays.ReadBackIsPrefix` | src/proxy/session/inner.rs:205-313 | in every joint run the bytes that read calls on a client stream returned are a prefix of the bytes written to the server stream of its identifier |
| `BothWays.ReadBackIsComplete` | src/proxy/session/inner.rs:205-313 | once everything the server queued has arrived, an open client stream holds exactly the bytes written to its counterpart |
| `BothWays.ReadBackEofCases` | src/proxy/pipe/io_pipe.rs:32-119 | the same three cases of end of file for a client stream |
| `BothWays.ReadBackEof` | src/proxy/session/inner.rs:166-168 | on a client stream its own side has not closed, in a session that is not terminated, end of file means the server ended it and everything queued before that has been read |
| `BothWays.EndBackMeansEof` | src/proxy/session/inner.rs:323-337 | once everything the server queued has arrived, its end of the stream among it, the client stream is closed or its close is pending, and if the peer closed it first, its reader gets exactly the data before the end, then the end, with the error of a refusal if that is what ended the stream |
| `BothWays.RefusalIsRead` | src/runtime/mod.rs:155-163 | once everything the server queued has arrived, a stream it refused before closing it is closed or its close is pending, and if the peer closed it first, its reader gets the data and then, once, an error made of the reason the server gave first |
| `BothWays.ErrorMeansRefusal` | src/core/engine.rs:111-121 | in every joint run an error read on a client stream that neither its side nor the session ended is made of the reason with which the server refused it |
| `Scenarios.Conversation` | src/proxy/session/inner.rs:90-337 | a run of both ends and the writer in which a client's bytes are all read by the server, followed by end of file |
| `Scenarios.SessionEndTellsNothing` | src/proxy/session/stream.rs:100-104 | one terminated server whose reader got end of file fits both a client that closed with everything read and a client that queued more data and no FIN |
| `Scenarios.LostToReuse` | src/proxy/session/stream.rs:120-134 | a run of a server whose peer reuses an identifier, after which a termination has missed an open stream |
| `Users.UserEntry.constructor` | src/node_api/users.rs:89-101 | a new user starts with zero counters, generation zero and the limits of its spec |
| `Users.UserEntry.ResetQuota` | src/node_api/users.rs:147-150 | nothing of the quota is used afterwards and no total is rewound |
| `Users.UserEntry.Renew` | src/node_api/users.rs:293-302 | new limits, and a new generation exactly when the password changed |
| `Users.UserEntry.DenyReasonAt` | src/node_api/users.rs:162-175 | revoked before expired before quota exceeded, as `UserRuns` proves it from the changes alone |
| `Users.AuthedUser.constructor` | src/node_api/users.rs:202-206 | a guard remembers the generation it saw and counts as one connection |
| `Users.AuthedUser.DenyReason` | src/node_api/users.rs:222-227 | a guard reports a password change since its snapshot, and otherwise what its user's limits say |
| `Users.UserRegistry.constructor` | src/node_api/users.rs:249-251 | an empty registry is consistent |
| `Users.UserRegistry.Authenticate` | src/node_api/users.rs:261-270 | a guard is given if and only if the hash is let in; nothing changes otherwise, and only the connection count does if so |
| `Users.UserRegistry.Replace` | src/node_api/users.rs:278-318 | for every list, the registry stays consistent if and only if no two winners share an email, and then the two loops over shared entries do exactly one replacement: admitted users keep or get their entry, everyone else of the old set is revoked, no other entry changes |
| `Users.UserRegistry.EntryFor` | src/node_api/users.rs:293-305 | a winner keeps its own entry, renewed, or gets a fresh one, and no other entry changes |
| `Users.UserRegistry.Collect` | src/node_api/users.rs:283-308 | the first loop builds indexes that agree with the admitted users, or lead two hashes to one user exactly if a user wins twice |
| `Users.UserRegistry.RevokeMissing` | src/node_api/users.rs:310-314 | the second loop revokes exactly the old users that are not admitted again |
| `Users.AdmittedAreWinners` | src/node_api/users.rs:283-308 | if no two winners share an email, the admitted users are exactly the usable specs that no usable spec in front of them shares the hash with |
| `Users.ReplacedConsistent` | src/node_api/users.rs:278-318 | a replacement leaves both indexes holding the same entries in bijection, and exactly those are not revoked |
| `UserRuns.IndexesRefineMap` | src/node_api/users.rs:278-318 | after any run of replacements and counter changes, the two indexes are the simple map of the last replacement's winners |
| `UserRuns.ReplaceLive` | src/node_api/users.rs:283-308 | an admitted user keeps its entry under its new hash, with the generation raised exactly when the hash changed |
| `UserRuns.GuardRevokedExactly` | src/node_api/users.rs:202-227 | a guard reports Revoked if and only if some replacement since its lookup did not admit its user, or its hash changed since its snapshot a number of times that is not a multiple of 2^64 |
| `UserRuns.GuardDeniedExactly` | src/node_api/users.rs:162-227 | over every run while totals stay below 2^64, a guard that is not revoked reports Expired if and only if the last replacement's spec sets a time that has come, and else QuotaExceeded if and only if that spec sets a quota and the bytes recorded since the last reset's loads reach it |
| `UserRuns.LetsInExactly` | src/node_api/users.rs:261-270 | over every run, an admitted user's hash is let in if and only if it has 32 bytes, its time has not come and its quota is not used up by the bytes recorded |
| `UserRuns.NobodyElse` | src/node_api/users.rs:263 | a hash that is let in is that of a user the last replacement admitted |
| `UserRuns.SupersededGuard` | src/node_api/users.rs:72-76 | a guard whose lookup hash is no longer current escapes revocation if and only if its user was never dropped and no change of hash, up to multiples of 2^64, came after its snapshot |
| `UserRuns.RekeyedUnderTheGuard` | src/node_api/users.rs:263-268 | a run in which a password change between lookup and snapshot leaves a session of the old password alive |
| `UserRuns.ReplaceKeepsAccounts` | src/node_api/users.rs:278-318 | a replacement moves no counter of any entry |
| `UserRuns.AccountsBalance` | src/node_api/users.rs:111-234 | over every run with any number of racing resets, while totals stay below 2^64: counters are what was recorded, the quota base never exceeds the total, the quota used is what was recorded since the loads of the reset whose store came last, and the connection count is the number of live guards |
| `UserRuns.CountersNeverFall` | src/node_api/users.rs:111-125 | counters never decrease while totals stay below 2^64, through any replacements and re-keys |
| `UserRuns.CleanResetExactly` | src/node_api/users.rs:147-150 | the quota used is what was recorded since the last store if and only if nothing was recorded between that reset's loads and its store |
| `UserRuns.RacingResets` | src/node_api/users.rs:147-150 | two racing resets after which bytes recorded before both stores count against the quota again |
| `UserSpecs.IntoSpecs` | src/node_api/api.rs:82-95 | whatever order the map is iterated in, the list is sorted by email and holds exactly the body's entries |
| `UserSpecs.PutAdmitsLeast` | src/node_api/api.rs:82-95 | after a PUT exactly the least email of each password hash is admitted, with its own limits |
| `IdlePool.StaleIndicesExact` | src/proxy/session/client.rs:78-85 | the scan lists exactly the positions of timed-out entries, in order |
| `IdlePool.VictimsExactly` | src/proxy/session/client.rs:69-105 | the entries to go have waited for at least the timeout, are the first of those, and are as many as leave the floor |
| `IdlePool.RemoveAll` | src/proxy/session/client.rs:91-98 | swap-removing from the last position down takes out exactly the entries that were at those positions, although others move meanwhile |
| `IdlePool.IdleSessionPool.CleanupStale` | src/proxy/session/client.rs:69-105 | exactly the first min(len - min_idle, number timed out) timed-out entries are removed and terminated, everything else is kept, and the pool never falls below the floor |
| `IdlePool.IdleSessionPool.TakeReusable` | src/proxy/session/client.rs:27-56 | the last entry that is alive, and fresh or protected by the floor, is returned; everything behind it is gone and its live sessions are terminated |
| `IdlePool.IdleSessionPool.ReturnSession` | src/proxy/session/client.rs:58-67 | a session is added unless its number is there already |
| `IdlePool.KeysStayDistinct` | src/proxy/session/client.rs:69-105 | the entries that remain keep distinct numbers |
| `PanelSync.StepSound` | src/panel_sync/core.rs:87-170 | the ledger covers known clients only and never exceeds their counters, and counters read by a report lie in between, after every step |
| `PanelSync.ReportsConserve` | src/panel_sync/core.rs:116-170 | over any run of traffic, synchronisations and successful or failed reports, what the panel acknowledged since a client was last added is its ledger entry, and with the next delta it is the counter |
| `PanelSync.TrafficCounted` | src/panel_sync/traffic_audit.rs:89-99 | over any run the known clients are those added and not removed since, enabled as last listed, and their counters are the sums of their own traffic in each direction since they were added, capped at 64 bits |
| `PanelSync.AllTrafficReported` | src/panel_sync/core.rs:116-170 | while the sums stay below 2^64, what the panel acknowledged and what the next report would send make up a client's traffic |
| `PanelSync.TrafficAudit.AddTrafficOf` | src/panel_sync/traffic_audit.rs:89-99 | traffic of a known client is added, saturating; that of an unknown one is ignored |
| `PanelSync.PanelSyncClient.SyncOnce` | src/panel_sync/core.rs:87-114 | a failed fetch changes nothing; otherwise the loops are the machine's run of additions and one removal, and the known clients are exactly those listed |
| `PanelSync.PanelSyncClient.ReportTrafficOnce` | src/panel_sync/core.rs:116-170 | a report reads every client once, sends exactly the non-zero deltas, is a run of the machine, and moves the ledger exactly when acknowledged |

## Left out

- WriterRuns.AlignedIsTransparent: one way only; misaligned padding frames can meet a frame boundary again by chance, so the exact conditions are stated per frame boundary and per call.
- Writer.WriterRuntimeState.Write: a connection whose writes succeed; a failed write leaves a prefix of the records on the wire, which the end-to-end results cover, but the state after it is not stated.
- EndToEnd.DeliveredIsPrefix: which error a caller of `write` sees when the connection breaks is not stated.
- SessionOutbox.OutboxRuns: asks for fewer than 2^32 drawn identifiers, as identifiers name streams in the queue.
- BothWays.RefusalIsRead: for a refusal that was queued before a FIN of its stream; after a FIN the stream has ended cleanly already, which `EndBackMeansEof` states.
- UserRuns.GuardDeniedExactly: while the bytes recorded on an entry stay below 2^64; beyond that the 64-bit counters wrap around and the quota starts again.
- SessionReplies.RepliesStep: asks for distinct identifiers, which a client that opens each stream once guarantees.
- SessionObjects.SessionInner.Terminate: one call without interference; every interleaving of its sections is in `Sessions`.
- SessionObjects.SessionInner.PushStreamData: one call without interference; every interleaving of its sections is in `Sessions`.
- Users.UserEntry.ResetQuota: one call without interference; `UserRuns` has the loads and the store apart.
- Users.UserRegistry.Authenticate: one call without interference; `UserRuns` has lookup and snapshot at different moments.
- IdlePool.IdleSessionPool.TakeReusable: an uninterrupted scan with one reading of the clock; the source releases the lock between two pops, so entries may come and go meanwhile.
- PanelSync.PanelSyncClient.SyncOnce: no traffic between its sections; the machine of `PanelSync` has it.
- PanelSync.PanelSyncClient.ReportTrafficOnce: no traffic between its sections; the machine of `PanelSync` has it.
- Pipes.EofIsEnd: says nothing once an empty piece of data was written, which reads as end of file; no session writes one.
- Pipes.PipeInner.ReadReceive: one reader per pipe, not cancelled while it holds the receiver, with non-empty buffers for end-of-file results.
- Streams are named by their position in a list, in `Sessions` and `SessionObjects` alike; heap aliasing of stream objects is not modelled.
- The setters of `src/core/state.rs` are fields of the engine state; memory ordering of atomics is one step per operation.
- Lossy UTF-8 decoding of settings and messages is the identity on bytes.
- Waking of waiters (`Notify`, watch channels, deadlines) is a step that may happen, without timing.
- `Client::create_stream` with its retries, session dialling and the background clean-up loop.
- `src/uot/mod.rs`: the UDP-over-TCP codec rests on the SOCKS address codec of another crate.
- `collect_stats`, HTTP routing, bearer tokens, JSON, panel URLs and requests; a report or a fetch is a success or a failure.
- TLS, sockets, SOCKS5 and HTTP listeners, relay loops, probe fallback, certificates and command lines.
- `src/util/parse_url.rs`: it rests on URL and percent-encoding crates.
