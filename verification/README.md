# Guacamole data diode: the stream filter and the approval protocol

A Dafny model of the bridge that carries Apache Guacamole sessions across a data
diode: the incremental parser that every component shares, the guard built on
it, the small stream transducers that have to agree with the guard, and the
protocol by which a connection is approved before any Guacamole crosses.

## The system in the model's terms

- **Framing** (`Framing`, `NeutralFraming`, `OpcodeParserModule`, `Excision`,
  `Chunking`). A byte drives one step of a state machine that survives across datagrams; a policy is
  called at every delimiter; refused instructions are recorded as byte ranges and
  later compacted out of the buffer in place. `Framing.Feed` is the fold of that
  step. The class `OpcodeParser` has the fields and control flow of the original
  and is proved against the fold. A subclass of the original is a `Hooks` record:
  its overridden hooks as functions of its own fields.
- **A second parser** (`GuacClient`, `Instructions`, `Encoding`, `Decoding`, `AnyLength`). The test
  client's parser works on whole buffers and was written independently. It is the
  reference for what an instruction is: the framer agrees with it on every ASCII
  buffer, and a call of the framer deletes exactly the refused instructions.
  `AnyLength` has the elements beyond the cap, which only tolerant framers take.
- **The guard** (`GuardPolicyModule`, `GuardModule`, `GuardRuns`,
  `ChannelIndependence`, `GlobalDeny`). `GuardStep` is one event of the receive
  loop; the class `Guard` keeps a map of parser objects and is proved against it;
  the rest are statements over all runs, and over all interleavings with the
  control thread.
- **The transducers** (`Observer`, `SyncFakerModule`, `ClipboardAckFakerModule`,
  `KeepaliveFilterModule`, `ReturnFilterModule`, `HandshakeForgerModule`), each a
  class over the same parser and a theorem about its effect on whole streams.
- **What is slipped into a stream** (`Insertion`, `AckPath`, `GuacdLink`). Faked acks
  and sync echoes share a queue with traffic whose datagrams may end anywhere;
  `Insertion` says exactly when inserted instructions are read as what they are.
- **The approval protocol** (`MultiplexerModule`, `ApprovalRegistryModule`,
  `GuacamoleReaderModule`, `GuacamoleSendHandlerModule`, `GuacdSendHandlerModule`,
  `ApprovalProtocol`, `Connections`, `GuacdLink`, `GuacdReads`). The handlers of
  both brokers are classes proved against step functions; `ApprovalProtocol` lets
  connections, guard, both brokers and a losing, duplicating, reordering network
  run together; `Connections` follows one browser's stream through reader and
  guard, `GuacdReads` the guard's frames to guacd.
- **Two shared structures** (`ChannelMailboxModule`, `ChannelTableModule`).

Bytes are `char`. Sockets, the order of delivery, random ids and the moment an
operator decides are inputs of the steps.

## Where the code differs from its documentation, or surprises

The model follows the code.

- `proxies/gmguard/include/approver.h:43` says that the approval switch defaults
  to deny; line 77 initialises it to approve (`GuardModule.INITIAL`).
- `proxies/gmlbroker/include/handshake_forger.h:71-75` says that the handshake is
  kept up to and including `connect`. The code keeps every chunk it is fed whole,
  so bytes behind `connect` in the same chunk are replayed too. When those end in
  the middle of an instruction, the keepalive filter starts out of step with the
  guard: `GuacamoleReaderModule.PipingStartsInStep` has the exact condition,
  `Connections.FilterOutOfStep` and `Connections.FakerOutOfStep` handshakes that
  miss it. Where it is met, `Connections.GuardBehindReader` follows the connection.
- `proxies/gmlbroker/src/nethandlers/guacamole_accept_handler.cpp:48` says that the
  lowest free channel is allocated; the table hands channels out round-robin.
- The guard's `default` case treats an inbound APPROVAL frame as payload, judges
  it as part of the stream and may pass it on. gcdbroker takes it for a verdict:
  it dials nothing by it (`ApprovalProtocol.DialedOnlyAfterApproval`), but does not
  write it to guacd either, so guard and guacd then read different streams, and
  guacd can read an instruction that the guard refuses
  (`GuacdReads.StrayVerdictMisleads`). The same happens when the guard approves a
  channel again whose connection gcdbroker still has
  (`GuacdReads.ResumedMisleads`). `GuacdReads.GuacdReadsWhatPassed` shows that
  the guard's own frames have no third way to it on a link that keeps their order.
- "No channel is approved once a deny is through" does not hold while the main
  loop is between taking the flag and clearing the set
  (`GlobalDeny.ApprovedWhileTearing`), and holds everywhere else
  (`GlobalDeny.QuietAlways`). One payload may still cross after the deny, and no
  more (`GlobalDeny.OneMayCross`, `GlobalDeny.DenyIsPrompt`).
- Faked acks are queued on the path of guacd's traffic, between its datagrams,
  which may end anywhere, and sync echoes on the path of the bridge's traffic to
  guacd. They are read as what they are exactly when that traffic stands between
  two instructions or in the leading zeros of an opcode's length prefix
  (`Insertion.InsertedIff`). Elsewhere they are swallowed by a value, taken for
  arguments of another instruction without any framing error
  (`AckPath.AckFalsifies`, `GuacdLink.SyncFalsifies`), or corrupt the stream. While
  guacd's handshake is still being swallowed, the acks are swallowed with it unless
  one of them completes it (`AckPath.AcksMeetHandshake`), and one behind a pending
  delimiter silences the return path for good (`AckPath.AckSilencesFilter`).
- The return filter is armed by the approval. Before it, payload for the channel
  goes to the browser as it is, so late traffic of an earlier occupant of a reused
  channel reaches the new browser
  (`GuacamoleSendHandlerModule.EarlyTrafficUnfiltered`).
- Browser input that arrives before the approval is dropped chunk by chunk, which
  can cut an instruction in two. Piping begins at an instruction boundary exactly
  when the dropped bytes end at one (`Connections.PipingBegins`); then nothing but
  the dropped part is missing (`Connections.DroppedPartRemoved`). Otherwise the
  guard may give up on the channel (`Connections.GuardGivesUp`), by the condition of
  `Connections.GuardBehindReader`.

## Model

| member | source | states |
|---|---|---|
| `OpcodeParserModule.OpcodeParser.constructor` | proxies/shared/include/parser/opcode_parser.h:151-176 | a new parser rests at an instruction boundary with nothing denied |
| `OpcodeParserModule.OpcodeParser.Parse` | proxies/shared/src/parser/opcode_parser.cpp:25-192 | one call, whatever the buffer and however earlier calls ended, is the byte fold `Call` from the live state: same state after it, same returned status (corrupted also when a denied instruction is left open), same denied ranges, and `currentIndex` at the byte that corrupted or the last one |
| `OpcodeParserModule.OpcodeParser.Scan` | proxies/shared/src/parser/opcode_parser.cpp:39-175 | the byte loop of Parse, left early by the byte that corrupts the stream |
| `OpcodeParserModule.OpcodeParser.LengthByte` | proxies/shared/src/parser/opcode_parser.cpp:44-86 | the length-prefix case: digits accumulate, the first digit of an opcode marks where the instruction starts, the dot picks the next state, anything else and a prefix over the cap corrupt |
| `OpcodeParserModule.OpcodeParser.DataByte` | proxies/shared/src/parser/opcode_parser.cpp:88-111 | the value case: bytes are buffered and checked for ASCII only up to the cap, the element completes at its declared length |
| `OpcodeParserModule.OpcodeParser.JudgeElement` | proxies/shared/src/parser/opcode_parser.cpp:124-149 | the hook call on the clamped element, and what a refusal does: deny from the opcode on, or corrupt if the head of the instruction came in an earlier call |
| `OpcodeParserModule.OpcodeParser.CloseElement` | proxies/shared/src/parser/opcode_parser.cpp:151-167 | the delimiter: a denied instruction is recorded as a range, an allowed one ends with its hook |
| `OpcodeParserModule.OpcodeParser.Excise` | proxies/shared/src/parser/opcode_parser.cpp:194-214 | in place: the first `newLen` bytes become exactly the bytes outside the denied ranges, in order; the rest of the buffer is untouched; a no-op when nothing was denied |
| `OpcodeParserModule.Compact` | proxies/shared/src/parser/opcode_parser.cpp:198-213 | the single compaction pass over the buffer leaves what `Remaining` describes |
| `OpcodeParserModule.OpcodeParser.Reset` | proxies/shared/src/parser/opcode_parser.cpp:216-224 | back to a clean boundary; the fields of the subclass survive |
| `Framing.FeedCorrupted` | proxies/shared/src/parser/opcode_parser.cpp:170-173 | a corrupted parser ignores whatever follows |
| `Framing.FeedInCall` | proxies/shared/include/parser/opcode_parser.h:150-175 | the class invariant of a call in progress, kept by every byte: read below declared length, buffered bytes ASCII and as many as read or the cap, an open denial started in this call |
| `Chunking.ChunkedIffUncut` | proxies/shared/src/parser/opcode_parser.cpp:25-192 | cutting a stream into calls is exactly as strict as this: the chunked run survives if and only if the one call over the whole stream is clean and no cut falls inside an instruction it denied; a surviving run forwards the same bytes, denies alike and rests in the same state |
| `Chunking.CutOnce` | proxies/shared/src/parser/opcode_parser.cpp:25-192 | the same for one cut, from any live state |
| `Chunking.AllowedPassesUnderEveryCut` | proxies/shared/src/parser/opcode_parser.cpp:140-143 | a clean stream in which nothing is denied passes byte for byte under every cut |
| `Chunking.NothingDenied` | proxies/shared/src/parser/opcode_parser.cpp:177-192 | a clean call that records no range forwards its buffer verbatim |
| `Excision.DeniedRangesAreInstructions` | proxies/shared/src/parser/opcode_parser.cpp:132-162 | after a clean call the recorded ranges are ascending, disjoint and inside the buffer; each runs from a digit at which the call stood at an instruction boundary to the `;` with which it next did; what the caller forwards is the buffer without exactly those bytes |
| `Excision.RemainingIsOutside` | proxies/shared/src/parser/opcode_parser.cpp:198-213 | the slices a compaction keeps are, byte by byte, the bytes that lie in no range |
| `Instructions.CallFilters` | proxies/shared/src/parser/opcode_parser.cpp:25-214 | a clean call over a stream that begins at a boundary forwards the stream without the instructions its hooks refuse, an unfinished tail included; instructions are those of the independent client parser |
| `GuacClient.ParseInstructionLoop` | proxies/nettest/guacclient.py:222-269 | the loop over `pos` and `elems` computes `ParseInstruction` on every buffer: elements and rest, need more, or a protocol error |
| `GuacClient.ElementFrom` | proxies/nettest/guacclient.py:247-264 | one round of that loop: the element at `pos`, or why there is none yet |
| `GuacClient.FindDot` | proxies/nettest/guacclient.py:250-250 | `find`: the first dot, or -1 if there is none |
| `GuacClient.ParseRest` | proxies/nettest/guacclient.py:246-269 | on success the rest is the unread suffix of the buffer and at least one element was read |
| `Instructions.SameFirstInstruction` | proxies/nettest/guacclient.py:222-269 | on any ASCII buffer the Python parser returns `(elems, rest)` if and only if the C++ framer, neutral and not tolerant, completes its first instruction exactly where `rest` begins, having handed the same elements to its hooks |
| `Instructions.ClientImpliesFramer` | proxies/shared/src/parser/opcode_parser.cpp:43-168 | where the client parser needs more or raises, the framer has completed no instruction either |
| `Instructions.Walk` | proxies/shared/src/parser/opcode_parser.cpp:43-168 | both parsers through one buffer from any element of an instruction: same elements, same end, and the framer pends or corrupts where the client finds none |
| `Encoding.InstrLoop` | proxies/gmlbroker/src/handshake_forger.cpp:29-38 | the printing loop computes `Instr` |
| `Encoding.PrintersAgree` | proxies/nettest/guacclient.py:39-52 | the C++ printer and the Python encoder print the same text if and only if there is at least one element |
| `Encoding.ParsePrinted` | proxies/nettest/guacclient.py:222-269 | parsing a printed instruction gives back its elements and leaves what follows untouched, for all elements within the cap |
| `Encoding.RunPrinted` | proxies/gmlbroker/src/handshake_forger.cpp:29-38 | the C++ framer hands a printed ASCII instruction to any hooks element by element, from any point inside an instruction, and ends at a boundary |
| `Encoding.RunAnyLength` | proxies/shared/src/parser/opcode_parser.cpp:44-149 | the same for elements of any length, where the hooks tolerate them: they are handed the first 8192 bytes of each, and the framer ends at a boundary |
| `AnyLength.SurplusGoesBy` | proxies/shared/src/parser/opcode_parser.cpp:88-111 | for tolerant hooks, every length n and any n bytes of which the first 8192 are ASCII: length prefix and value lead to the pending delimiter, with the first 8192 bytes kept, and do not corrupt |
| `AnyLength.ReadsClamped` | proxies/shared/src/parser/opcode_parser.cpp:44-149 | from a boundary, the tolerant framer reads a stream of instructions with elements of any length as these instructions with each element cut at 8192 bytes, and no other |
| `Encoding.PrefixNeedsMore` | proxies/nettest/guacclient.py:251-263 | a proper prefix of a printed instruction is never an error, it only needs more |
| `Encoding.InstructionStream.ParseOne` | proxies/nettest/guacclient.py:209-219 | consumes one complete instruction, or leaves the buffer untouched |
| `Encoding.InstructionStream.ParseAvailable` | proxies/nettest/guacclient.py:168-194 | repeated parsing between two chunks yields what `Drain` describes |
| `Encoding.CutsYieldExactly` | proxies/nettest/guacclient.py:126-219 | for any cut of any prefix of a concatenation of printed instructions the client yields exactly the instructions that have arrived in full, in order, keeps the rest buffered and never raises; all of them once all has arrived |
| `Decimal.Numeral` | proxies/gmlbroker/src/handshake_forger.cpp:32-32 | the decimal prefix is digits only, never empty, and denotes the number |
| `Decimal.NumeralWidth` | proxies/nettest/guacclient.py:252-254 | the prefix of an element within the cap has at most four digits, the bound of the client |
| `Decoding.DecodeOneLoop` | proxies/nettest/guacclient.py:55-82 | the unguarded decoder's loop computes `DecodeOne` on every text whose lengths are written with plain digits, exceptions included |
| `Decoding.DecodeInvertsEncode` | proxies/nettest/guacclient.py:39-82 | the decoder inverts the encoder on every instruction with at least one element, whatever the element lengths |
| `Decoding.DecodeAgrees` | proxies/nettest/guacclient.py:55-82 | wherever the parser finds a complete instruction the decoder returns the same elements |
| `GuardPolicyModule.GuardMeans` | proxies/gmguard/src/guard_opcode_parser.cpp:40-122 | for a whole instruction: allowed if and only if its opcode is on the list and, for a blob with arguments, the first names the non-negative open clipboard stream and the second is at most 66 bytes; an allowed instruction has its effect on the tracked stream, a denied one has none |
| `GuardPolicyModule.GuardForwardsConforming` | proxies/gmguard/src/guard_opcode_parser.cpp:83-122 | what the guard forwards of a stream it does not give up on is the stream without the instructions that do not conform, each judged against the clipboard stream open at that point |
| `GuardPolicyModule.ForwardedReparses` | proxies/gmguard/src/guard_opcode_parser.cpp:83-122 | what the guard forwards, parsed again in one go by a fresh guard, is neither corrupted nor denied and ends in the same live framing state with the same tracked stream |
| `GuardPolicyModule.ForwardedObeys` | proxies/gmguard/src/guard_opcode_parser.cpp:95-122 | in forwarded traffic every completed blob with arguments names the stream of the latest `clipboard` not closed by a matching `end`, its payload is within the cap, and at a boundary the guard tracks exactly that stream |
| `Observer.FeedResync` | proxies/gcdbroker/src/sync_faker.cpp:31-37 | the fail-open loop terminates on every chunk, garbage included, and leaves the parser where the byte-wise observer is, never corrupted |
| `Observer.Attempt` | proxies/gcdbroker/src/sync_faker.cpp:33-36 | one Parse of that loop takes everything, or the bytes up to and including the one that tripped it and a reset |
| `Observer.ObserveChunks` | proxies/gcdbroker/src/sync_faker.cpp:24-39 | an observer ends in the same state under every cut of a stream |
| `Observer.CallObserves` | proxies/gcdbroker/src/sync_faker.cpp:33-33 | one Parse follows the observed stream up to the byte that corrupts it |
| `SyncFakerModule.SyncFaker.Feed` | proxies/gcdbroker/src/sync_faker.cpp:24-39 | the object computes `SyncFeed`: the echoes completed by this chunk, and a state that is never corrupted |
| `SyncFakerModule.RepliesIgnoreCuts` | proxies/gcdbroker/src/sync_faker.cpp:24-62 | on every byte stream, garbage included, the concatenated echoes do not depend on how the input is cut |
| `SyncFakerModule.RepliesAnswerSyncs` | proxies/gcdbroker/src/sync_faker.cpp:41-62 | the echoes are, in order, the canonical encodings of the non-empty first argument of each completed `sync` |
| `SyncFakerModule.RepliesAreStable` | proxies/gcdbroker/src/sync_faker.cpp:56-62 | a fresh faker that is fed the echoes reproduces them exactly |
| `AnyLength.SyncsAmongAnything` | proxies/gcdbroker/include/sync_faker.h:36-40 | however the stream is cut: among instructions with elements of any length every sync is answered, once and in order, and nothing else |
| `AnyLength.SyncBehindBlob` | proxies/gcdbroker/include/sync_faker.h:36-40 | a sync behind a blob of any length, whatever bytes it holds beyond the cap, is answered once, and nothing inside the blob is |
| `AnyLength.ResyncsBehind` | proxies/gcdbroker/src/sync_faker.cpp:31-37 | an instruction printed right behind the byte that trips the framer is read, and none before it is lost |
| `AnyLength.SyncBehindGarbage` | proxies/gcdbroker/src/sync_faker.cpp:31-37 | so a sync there is answered |
| `ClipboardAckFakerModule.ClipboardAckFaker.Feed` | proxies/gmlbroker/src/clipboard_ack_faker.cpp:43-55 | the object computes `AckFeed` |
| `ClipboardAckFakerModule.FakerPredictsGuard` | proxies/gmlbroker/src/clipboard_ack_faker.cpp:57-87 | over any chunks the guard survives, the faker emits in order one ack with the right index for each denial at a clipboard payload and no other, and both track the same stream throughout |
| `ClipboardAckFakerModule.DeniedAtPayload` | proxies/gmguard/src/guard_opcode_parser.cpp:98-103 | a denied instruction was denied at its payload if and only if it is a blob on the open clipboard stream whose second argument exceeds the cap |
| `ClipboardAckFakerModule.FakerAcksOversized` | proxies/gmlbroker/src/clipboard_ack_faker.cpp:77-84 | from a fresh start the acks are exactly those due, instruction by instruction, for the oversized clipboard blobs of the stream |
| `KeepaliveFilterModule.ForwardKeepaliveFilter.Filter` | proxies/gmlbroker/src/forward_keepalive_filter.cpp:24-34 | the object rewrites the buffer and its length in place as `FilterChunk` says, resets on a chunk it cannot analyse and then leaves the buffer alone |
| `KeepaliveFilterModule.FilterCommutesWithGuard` | proxies/gmlbroker/src/forward_keepalive_filter.cpp:24-42 | on any chunks the guard alone survives, the filter never fails open, and the guard behind the filter forwards the same bytes and ends in the same policy state as the guard on the raw chunks |
| `KeepaliveFilterModule.ChunkCommutes` | proxies/gmlbroker/src/forward_keepalive_filter.cpp:24-42 | the same for one chunk |
| `KeepaliveFilterModule.FilterIsExact` | proxies/gmlbroker/src/forward_keepalive_filter.cpp:24-42 | on chunks no longer than an element may be (a read is shorter): the guard behind the filter survives if and only if it survives alone |
| `KeepaliveFilterModule.FilterRemovesKeepalives` | proxies/gmlbroker/include/forward_keepalive_filter.h:27-34 | a clean chunk from a boundary, with elements within the cap, leaves the filter without exactly its complete instructions whose opcode, by the client's parser, is `sync` or `nop`; an unfinished tail stays |
| `KeepaliveFilterModule.FilteredStream` | proxies/gmlbroker/src/forward_keepalive_filter.cpp:24-42 | the same for a stream in any cuts on which the filter never fails open |
| `KeepaliveFilterModule.FilterKeepsTheRest` | proxies/gmlbroker/src/forward_keepalive_filter.cpp:24-42 | printed instructions with elements of any length: the keepalives go, the others stay, and the filter ends at a boundary |
| `KeepaliveFilterModule.FilterFailsOpen` | proxies/gmlbroker/src/forward_keepalive_filter.cpp:27-32 | a chunk the filter cannot analyse passes whole, and the next is taken as beginning at a boundary |
| `ReturnFilterModule.ReturnFilter.Feed` | proxies/gmlbroker/src/return_filter.cpp:24-33 | the object computes `ReturnFeed`; the offset it slices at is inside the chunk |
| `ReturnFilterModule.PipesAfterReady` | proxies/gmlbroker/src/return_filter.cpp:24-46 | for every chunking: the filter pipes if and only if some ASCII prefix of the stream is a run of complete instructions of which the last one, and no other, is `ready`; what it has passed on is exactly the suffix behind that prefix whatever follows, and nothing before |
| `ReturnFilterModule.ReadsHead` | proxies/gmlbroker/src/return_filter.cpp:40-46 | from any boundary, the filter begins to pipe right behind a text if and only if that text ends with the first `ready` |
| `HandshakeForgerModule.HandshakeForger.Feed` | proxies/gmlbroker/src/handshake_forger.cpp:110-119 | the object computes `ForgerFeed` and appends the chunk verbatim to the handshake it keeps |
| `HandshakeForgerModule.ForgerConverses` | proxies/gmlbroker/src/handshake_forger.cpp:110-150 | however the handshake is cut: the bytes kept for replay are the stream itself, the replies are those of the conversation over the instructions completed in it, the state is the conversation's or invalid once the stream is corrupted, and at a boundary so are the stored protocol, connect values and size arguments |
| `HandshakeForgerModule.InstructionsAnswered` | proxies/gmlbroker/src/handshake_forger.cpp:125-176 | in terms of what the client has sent: a `select` is answered with the canned arguments of the protocol asked for, a `connect` with `ready` under the next id and a screen in the width and height of the first two size arguments, 1024 by 768 where missing, and nothing else is answered |
| `HandshakeForgerModule.WaitingScreenReparses` | proxies/gmlbroker/src/handshake_forger.cpp:162-176 | whatever the client has sent, the waiting screen built from the stored size arguments reads back as its four instructions and takes any parser from a boundary to a boundary |
| `HandshakeForgerModule.DeniedScreenReparses` | proxies/gmlbroker/src/handshake_forger.cpp:178-188 | the same for the five instructions of the denied screen |
| `HandshakeForgerModule.RepliesReadBack` | proxies/gmlbroker/src/handshake_forger.cpp:137-150 | everything the forger ever replies reads back as exactly the conversation's replies and ends at a boundary |
| `MultiplexerModule.CastSerialized` | proxies/shared/src/network/multiplexer.cpp:24-76 | a serialized message casts back to itself if and only if its payload is at most 1200 bytes, and is refused otherwise |
| `MultiplexerModule.SerializedCast` | proxies/shared/src/network/multiplexer.cpp:35-76 | a datagram casts to a message if and only if it is that message's serialization and the payload fits |
| `MultiplexerModule.WireLayout` | proxies/shared/src/network/multiplexer.cpp:24-76 | the bytes: channel big-endian, the action in the top two bits of the third, then the payload |
| `GuardModule.IsValidRequestId` | proxies/gmguard/src/main.cpp:59-68 | true if and only if the id is twelve characters, each a lower-case hex digit |
| `GuardModule.Guard.constructor` | proxies/gmguard/src/main.cpp:142-154 | no channels, no flag, and the switch in approve |
| `GuardModule.Guard.Control` | proxies/gmguard/src/main.cpp:166-187 | a toggle sets the switch; a deny also raises the flag |
| `GuardModule.Guard.CheckDeny` | proxies/gmguard/src/main.cpp:192-204 | the loop over the approved set visits each once in some order, sends its SHUTDOWN and drops its parser, then clears the set; nothing happens without the flag |
| `GuardModule.Guard.HandleCreate` | proxies/gmguard/src/main.cpp:220-268 | a malformed id changes nothing; otherwise the channel starts over, the request is forwarded byte for byte, the verdict follows, and a denial adds a SHUTDOWN and drops the parser |
| `GuardModule.Guard.HandleShutdown` | proxies/gmguard/src/main.cpp:271-279 | the channel is forgotten in all three sets and the datagram forwarded byte for byte |
| `GuardModule.Guard.HandlePayload` | proxies/gmguard/src/main.cpp:281-348 | payload and inbound verdicts alike: dropped on a poisoned or unapproved channel, otherwise parsed by the channel's own parser; no other channel's parser changes |
| `GuardModule.Guard.Conclude` | proxies/gmguard/src/main.cpp:306-347 | the three outcomes of a parse: poison and SHUTDOWN, trimmed remainder, or the datagram verbatim |
| `GuardModule.Guard.ForwardTrimmed` | proxies/gmguard/src/main.cpp:323-342 | what is sent after a denial is the payload without the denied instructions, and nothing if none is left |
| `GuardModule.Guard.Poison` | proxies/gmguard/src/main.cpp:306-319 | one SHUTDOWN, parser and approval gone, channel poisoned |
| `GuardModule.Guard.ParseOn` | proxies/gmguard/src/main.cpp:299-301 | one Parse on one channel of the parser map; the parser objects of all other channels stay as they are |
| `GuardModule.Guard.Receive` | proxies/gmguard/src/main.cpp:206-349 | one datagram through the object, with its map of parser objects, is one step `GuardStep` of the state machine: same sets, same parser states, same wire frames |
| `GuardRuns.Serve` | proxies/gmguard/src/main.cpp:191-350 | the whole loop on any inputs makes a run of the state machine over the events behind them and has sent exactly the run's frames |
| `GuardRuns.RunSound` | proxies/gmguard/src/main.cpp:142-149 | in every reachable state the parser map has exactly the approved channels, no approved channel is poisoned, and no kept parser is corrupted |
| `GuardRuns.PayloadNeedsApproval` | proxies/gmguard/src/main.cpp:291-347 | in every run each payload frame has an earlier approval issued by the guard for its channel, with no SHUTDOWN and no denial of the guard's in between |
| `GuardRuns.RunGated` | proxies/gmguard/src/main.cpp:191-350 | after every run exactly the approved channels are open according to the frames sent |
| `GuardRuns.OpenMeans` | proxies/gmguard/src/main.cpp:220-279 | open means: an approval was issued and nothing has closed the channel since |
| `GuardRuns.PoisonedUntilApproved` | proxies/gmguard/src/main.cpp:283-289 | once a channel is poisoned, a payload sent on it later has an approval issued after the poisoning |
| `GuardRuns.VerdictsAnswerRequests` | proxies/gmguard/src/main.cpp:225-251 | every verdict of the guard's directly follows the request it answers, on the same channel, with that request's well-formed id behind the verdict character |
| `GuardRuns.RequestAnswered` | proxies/gmguard/src/main.cpp:220-268 | at any point of any run a request with twelve lower-case hex digits is answered at once and as the operator has chosen last: `A` with its id, or `D` with its id and a SHUTDOWN; any other request changes nothing |
| `GuardRuns.SwitchFollows` | proxies/gmguard/src/main.cpp:166-204 | the switch is the last toggle, and the flag is up if and only if a deny was chosen that no loop top has seen |
| `GuardRuns.DenyTearsDown` | proxies/gmguard/src/main.cpp:179-204 | at the loop top after a deny no channel is approved any more, and what goes out is exactly one SHUTDOWN for each channel that was |
| `GuardRuns.NoneApprovedUnderDeny` | proxies/gmguard/src/main.cpp:166-204 | once a loop top has seen the deny, no channel is approved until the next approve, whatever arrives |
| `GuardRuns.TeardownPasses` | proxies/gmguard/src/main.cpp:271-279 | a SHUTDOWN closes its channel and crosses as it is |
| `GuardRuns.CarryOutcome` | proxies/gmguard/src/main.cpp:281-348 | a payload on an approved channel: what its parser lets through is passed on, or the channel is poisoned and exactly one SHUTDOWN sent |
| `GuardRuns.SentFramesCast` | proxies/gmguard/src/main.cpp:240-347 | whatever arrives, every datagram the guard sends casts back to the message it stands for |
| `GuardRuns.ForwardedIsClean` | proxies/gmguard/src/main.cpp:299-346 | for every channel after any run: what was passed on since the guard last approved it, parsed in one go by a fresh guard, is neither corrupted nor denied and obeys the clipboard rules, also if the channel has been closed or poisoned since; while it is approved the fresh guard ends in the live state and tracked stream of the channel's parser |
| `GuardRuns.ForwardsExactly` | proxies/gmguard/src/main.cpp:299-346 | on every approved channel after any run the guard has passed on exactly what has arrived since the request, in order and however cut, without the instructions that do not conform |
| `ChannelIndependence.ChannelsAreIndependent` | proxies/gmguard/src/main.cpp:191-350 | for every run and channel, the guard's state on the channel and its frames on it are those of the run on that channel's datagrams, the toggles and the loop tops alone |
| `GlobalDeny.QuietAlways` | proxies/gmguard/src/main.cpp:166-204 | under every interleaving of the control thread's two stores with the main loop: with the switch on deny, the flag clear and the control thread not between its stores, no approving verdict is pending, and no channel is approved if and only if the main loop is not in the middle of tearing down a non-empty set |
| `GlobalDeny.ApprovedWhileTearing` | proxies/gmguard/src/main.cpp:194-203 | a concrete run that shows the exception: approved channels while the flag is already clear |
| `GlobalDeny.DenyIsPrompt` | proxies/gmguard/src/main.cpp:179-204 | once a deny has made both stores, at most one more payload is sent before the next approve, and none once the flag is clear again |
| `GlobalDeny.OneMayCross` | proxies/gmguard/src/main.cpp:179-204 | a concrete run in which one payload does cross after both stores of the deny: the bound is attained |
| `GlobalDeny.StepsMakeCreate` | proxies/gmguard/src/main.cpp:234-266 | without interleaving, the fine steps of a request are the guard's handling of it |
| `GlobalDeny.StepsMakeDeny` | proxies/gmguard/src/main.cpp:194-203 | without interleaving, the fine steps of a deny are the loop top |
| `GlobalDeny.StepsMakeToggle` | proxies/gmguard/src/main.cpp:179-187 | without interleaving, the control thread's stores are the guard's toggles |
| `ApprovalRegistryModule.ApprovalRegistry.Create` | proxies/gmlbroker/src/approval_registry.cpp:29-32 | a new registration with a fresh, unset flag and no request; a flag someone still holds is left alone |
| `ApprovalRegistryModule.ApprovalRegistry.GetFlag` | proxies/gmlbroker/src/approval_registry.cpp:34-38 | the flag object shared with the reader, if the channel is registered |
| `ApprovalRegistryModule.ApprovalRegistry.SetRequestId` | proxies/gmlbroker/src/approval_registry.cpp:40-45 | only the request id of a registered channel changes |
| `ApprovalRegistryModule.ApprovalRegistry.Approve` | proxies/gmlbroker/src/approval_registry.cpp:47-54 | true if and only if the id is the outstanding one of a registered channel; then that flag is set, and no other |
| `ApprovalRegistryModule.ApprovalRegistry.Matches` | proxies/gmlbroker/src/approval_registry.cpp:56-60 | true if and only if the id is the outstanding one of a registered channel |
| `ApprovalRegistryModule.ApprovalRegistry.Remove` | proxies/gmlbroker/src/approval_registry.cpp:62-65 | the registration is gone, the others stay |
| `GuacamoleReaderModule.GuacamoleReader.Receive` | proxies/gmlbroker/src/nethandlers/guacamole_read_handler.cpp:213-273 | one chunk from the browser: answered by the forger, a request when the handshake completes, else replay once, acks and filtered input if approved; dropped if not |
| `GuacamoleReaderModule.GuacamoleReader.TryReplay` | proxies/gmlbroker/src/nethandlers/guacamole_read_handler.cpp:132-139 | the kept handshake is queued once, when the handshake is complete and the flag reads set |
| `GuacamoleReaderModule.ReplayHandshake` | proxies/gmlbroker/src/nethandlers/guacamole_read_handler.cpp:78-91 | the chunking loop computes `Replay` |
| `GuacamoleReaderModule.ReplayCarriesHandshake` | proxies/gmlbroker/src/nethandlers/guacamole_read_handler.cpp:78-91 | the replayed payloads are non-empty, on the channel, all but the last exactly as long as a datagram carries, and concatenate to the handshake |
| `GuacamoleReaderModule.ReaderQueues` | proxies/gmlbroker/src/nethandlers/guacamole_read_handler.cpp:113-274 | in every connection the bridge is given, in this order: nothing, one request, the whole handshake verbatim, what the keepalive filter leaves of every later chunk |
| `GuacamoleReaderModule.PayloadOnlyAfterApproval` | proxies/gmlbroker/src/nethandlers/guacamole_read_handler.cpp:132-139 | nothing but the request is queued unless the flag was read set before |
| `GuacamoleReaderModule.PipingStartsInStep` | proxies/gmlbroker/src/nethandlers/guacamole_read_handler.cpp:247-273 | behind a replay the guard survives, a fresh keepalive filter is in step with the guard if and only if the kept handshake ends at an instruction boundary; the ack faker also needs that it left no clipboard stream open |
| `GuacamoleReaderModule.BrowserAccounted` | proxies/gmlbroker/src/nethandlers/guacamole_read_handler.cpp:213-273 | in every connection the chunks received are, in order, those kept as the handshake, those dropped while the approval was awaited, and those piped, none twice and none missing |
| `Connections.GuardBehindReader` | proxies/gmlbroker/src/nethandlers/guacamole_read_handler.cpp:132-273 | whole connections whose kept handshake ends at a boundary: the guard survives what the reader queues (replay, then filtered chunks) if and only if it alone survives handshake and raw chunks, that is if and only if the two in one call are clean and no datagram cuts an instruction it denies; it then forwards the same bytes in the same final state, and these are the stream without the non-conforming instructions |
| `Connections.PipingBegins` | proxies/gmlbroker/src/nethandlers/guacamole_read_handler.cpp:247-265 | for a browser stream that frames cleanly, with the handshake ending at a boundary: piping begins at an instruction boundary of that stream, or in leading zeros of an opcode's length prefix, if and only if the dropped bytes end at one, or there; if so, and a digit follows zeros, the stream without the dropped part frames cleanly too and has the handshake's instructions and those behind the dropped part |
| `Connections.DroppedPartRemoved` | proxies/gmlbroker/src/nethandlers/guacamole_read_handler.cpp:247-273 | under that condition the guard behind the reader survives if and only if, of the browser's stream with the dropped part removed, no instruction it denies is left open or cut by a datagram; and it forwards that stream without the non-conforming instructions |
| `Connections.GuardGivesUp` | proxies/gmlbroker/src/nethandlers/guacamole_read_handler.cpp:247-265 | a concrete connection that misses it: the browser's stream frames cleanly, the approval comes inside a `key` instruction, and the guard gives up on the channel |
| `Connections.FilterOutOfStep` | proxies/gmlbroker/src/handshake_forger.cpp:110-119 | a concrete handshake, `7.connect;3.k`, that ends inside an instruction: the forger is done, the guard survives the replay, and the keepalive filter starts out of step |
| `Connections.FakerOutOfStep` | proxies/gmlbroker/src/handshake_forger.cpp:110-119 | a concrete handshake that leaves a clipboard stream open: the filter starts in step and the ack faker does not |
| `Connections.ConnectionReplies` | proxies/gmlbroker/src/nethandlers/guacamole_read_handler.cpp:213-240 | in every connection the browser is answered, while the handshake is forged and never after, with exactly the conversation's replies; the reader gives up on a chunk if and only if the handshake is not complete and with that chunk no longer frames |
| `Connections.ConnectionAcks` | proxies/gmlbroker/src/nethandlers/guacamole_read_handler.cpp:252-260 | whole connections with the handshake ending at a boundary and no clipboard stream open: where the guard alone survives, the acks sent to the browser are, in order, one for each clipboard payload the guard refuses in the piped input |
| `GuacamoleSendHandlerModule.GuacamoleSendHandler.Handle` | proxies/gmlbroker/src/nethandlers/guacamole_send_handler.cpp:45-131 | one message from the bridge through the object with its registry, filters and mailboxes is `Route` |
| `GuacamoleSendHandlerModule.GuacamoleSendHandler.HandleVerdict` | proxies/gmlbroker/src/nethandlers/guacamole_send_handler.cpp:67-103 | a verdict counts only if it matches: approval arms the return filter, denial paints the denied screen and asks for a teardown |
| `GuacamoleSendHandlerModule.OnlyGrantsApprove` | proxies/gmlbroker/src/nethandlers/guacamole_send_handler.cpp:67-86 | a message approves a channel if and only if it is an APPROVAL on it whose payload is `A` and the outstanding request id; exactly then the channel's return filter starts afresh; no message registers, removes or renames a request |
| `GuacamoleSendHandlerModule.TeardownsTold` | proxies/gmlbroker/src/nethandlers/guacamole_send_handler.cpp:87-103 | a refusal of the outstanding request shows the denied screen and asks the reader to close and announce it, a SHUTDOWN asks it to close silently, nothing else does; and whatever is new for the reader has its counter up |
| `GuacamoleSendHandlerModule.LastTeardownDecides` | proxies/gmlbroker/src/nethandlers/guacamole_send_handler.cpp:50-103 | after any messages the close is announced if and only if the last teardown was a refusal |
| `GuacamoleSendHandlerModule.DeniedScreenLeaves` | proxies/gmlbroker/src/handshake_forger.cpp:178-188 | the denied screen reads as its picture and, last, the order to disconnect |
| `GuacamoleSendHandlerModule.BrowserSeesWhatFollowsReady` | proxies/gmlbroker/src/nethandlers/guacamole_send_handler.cpp:104-128 | from an approval on, for guacd's traffic and faked acks in any order and cut, and however often the mailbox is drained: behind what the mailbox held already, the browser is handed nothing until a handshake ending with its first `ready` has gone by, and then exactly what follows it |
| `GuacamoleSendHandlerModule.EarlyTrafficUnfiltered` | proxies/gmlbroker/src/nethandlers/guacamole_send_handler.cpp:104-128 | whatever arrives on the channel before the approval reaches the browser as it is, in front of what follows `ready`: the filter is armed by the approval only |
| `GuacdSendHandlerModule.GuacdSendHandler.Handle` | proxies/gcdbroker/src/nethandlers/guacd_send_handler.cpp:43-138 | one message through the object with its channel table is `Relay` |
| `GuacdSendHandlerModule.GuacdSendHandler.HandleVerdict` | proxies/gcdbroker/src/nethandlers/guacd_send_handler.cpp:57-94 | dial and insert on an approval, downgrade the relayed verdict if either fails, relay in any case |
| `ApprovalProtocol.DialedOnlyAfterApproval` | proxies/gcdbroker/src/nethandlers/guacd_send_handler.cpp:57-135 | whatever the low side sends, over a network that loses, duplicates and reorders: a channel is dialed, and guacd is sent payload on it, only if the guard has issued an approval for it |
| `ApprovalProtocol.VerdictGoesBack` | proxies/gcdbroker/src/nethandlers/guacd_send_handler.cpp:57-94 | every verdict that reaches gcdbroker goes back as one message on its channel with its id bytes, as an approval if and only if it was one and has bound the channel just now |
| `ApprovalProtocol.ApprovedMeansDialed` | proxies/gcdbroker/src/nethandlers/guacd_send_handler.cpp:63-92 | with an honest low side: a registration is approved only if gcdbroker has dialed guacd on its channel, with success, for that registration's own request |
| `ApprovalProtocol.TeardownGoesBack` | proxies/gcdbroker/src/nethandlers/guacd_send_handler.cpp:96-113 | a SHUTDOWN is echoed once and shuts down whatever connection its channel had |
| `ApprovalProtocol.RegistryFollows` | proxies/gmlbroker/src/approval_registry.cpp:29-65 | each move of such a run does to the registry what the registry's own operations and the handler's routing do |
| `ApprovalProtocol.ApprovedMeansGranted` | proxies/gmlbroker/src/nethandlers/guacamole_send_handler.cpp:67-106 | with an honest low side: a reader sees its flag set only if the registry has its channel approved and the guard issued an approval carrying the request id registered there; and payload on its way to the guard is on a channel the guard has approved |
| `ApprovalProtocol.QueuedPayloadIsGranted` | proxies/gmlbroker/src/nethandlers/guacamole_read_handler.cpp:132-139 | with an honest low side, every payload a connection ever queues is queued while that connection's own flag is set and after the guard issued an approval carrying that connection's own request id, also on a reused channel |
| `ApprovalProtocol.OnlyReadersQueuePayload` | proxies/gmlbroker/src/nethandlers/guacamole_read_handler.cpp:247-273 | no other step of the system puts payload on the way to the guard |
| `ApprovalProtocol.NoStaleApproval` | proxies/gmlbroker/src/approval_registry.cpp:47-54 | a connection whose request id was not yet in use on the channel owes its approval to one issued since, so a stale verdict cannot approve a reused channel |
| `AckPath.AckIsInstruction` | proxies/gmlbroker/src/clipboard_ack_faker.cpp:36-40 | a faked ack is exactly one printed `ack` instruction with the stream index, `OK` and `0` |
| `AckPath.IndexRoundTrip` | proxies/gmguard/src/guard_opcode_parser.cpp:30-36 | every 32-bit index is read back from the text the faker writes of it |
| `AckPath.BlobLimit` | proxies/gmguard/src/guard_opcode_parser.cpp:95-103 | a clipboard blob on the open stream is allowed if and only if it has at most 66 bytes |
| `AckPath.FakerSendsAcks` | proxies/gmlbroker/src/clipboard_ack_faker.cpp:43-87 | on every chunk, garbage included, what the faker emits is a message of acks, each for a 32-bit index |
| `Insertion.InsertedIff` | proxies/shared/src/parser/opcode_parser.cpp:39-175 | behind any stream whatever, complete printed instructions are read as just these further instructions, leaving a boundary, if and only if the stream ends between two instructions or in the leading zeros of the next one's length prefix; for strict readers and, with elements below the cap, for tolerant ones |
| `Insertion.Unread` | proxies/shared/src/parser/opcode_parser.cpp:39-175 | reading backwards: if printed elements were read as themselves, the framer had stood at the start of an element (but for leading zeros), in exactly the state the result calls for |
| `AckPath.AcksInsertedIff` | proxies/gmlbroker/src/nethandlers/guacamole_read_handler.cpp:252-260 | that condition for a message of faked acks behind any stream, for strict and tolerant readers |
| `AckPath.AckFalsifies` | proxies/gmlbroker/src/nethandlers/guacamole_read_handler.cpp:252-260 | an input that misses the condition without a framing error: behind `4.size,` the ack is lost and becomes the arguments of `size` |
| `AckPath.AckReachesBrowser` | proxies/gmlbroker/src/nethandlers/guacamole_send_handler.cpp:104-128 | along the ack's own path, from the approval through any arrivals and drains: once the return filter pipes, the acks are appended to what the browser is given, and are read there as just these instructions if and only if that ends at such a point |
| `AckPath.AcksMeetHandshake` | proxies/gmlbroker/src/return_filter.cpp:24-46 | while the return filter still swallows, of a message of acks the browser is given those behind the ack with which guacd's handshake becomes complete, if there is one, and else nothing; the handshake keeps its instructions, the acks between them, if and only if the filter stands at such a point |
| `AckPath.AckSilencesFilter` | proxies/gmlbroker/src/return_filter.cpp:24-46 | an ack that arrives behind a value whose delimiter is outstanding corrupts the filter: the browser is given nothing more, whatever follows |
| `GuacdLink.FakerSendsEchoes` | proxies/gcdbroker/src/sync_faker.cpp:24-62 | on every chunk, garbage included, what the sync faker emits is a message of printed `sync` instructions |
| `GuacdLink.SyncsReachGuacd` | proxies/gcdbroker/src/nethandlers/guacd_read_handler.cpp:84-93 | along the echo's own path, through gcdbroker's forward handler: the echoes are appended to what guacd has been sent on the connection, and are read there as just these syncs if and only if that ends at such a point |
| `GuacdLink.SyncFalsifies` | proxies/gcdbroker/src/nethandlers/guacd_read_handler.cpp:84-93 | an input that misses it without a framing error: behind `4.size,` the echo becomes the arguments of `size` |
| `GuacdLink.ConnectionEnds` | proxies/gcdbroker/src/nethandlers/guacd_send_handler.cpp:96-135 | a connection to guacd ends only by a SHUTDOWN or a failed send, which shut it down, or by guacd's hanging up; nothing else unbinds its channel or rebinds it |
| `GuacdReads.GuacdReadsWhatPassed` | proxies/gmguard/src/main.cpp:281-348 | for every run of the guard, its frames delivered in order: guacd reads, behind what its connection had carried at the last approval, the payloads passed on since; they are all that the guard passed on and judged if and only if no inbound verdict with a payload was among it; on a connection that had carried nothing they are then clean, conforming traffic |
| `GuacdReads.StrayVerdictMisleads` | proxies/gmguard/src/main.cpp:281-348 | a concrete run, one inbound verdict between two payloads: what the guard passed on is clean, and guacd reads a `nop`, which the guard refuses |
| `GuacdReads.ResumedMisleads` | proxies/gmguard/src/main.cpp:220-268 | a concrete run, approved again without a SHUTDOWN between: the guard starts over, guacd's connection does not, and guacd reads a `nop` |
| `ChannelMailboxModule.ChannelMailbox.Signal` | proxies/gmlbroker/src/channel_mailbox.cpp:43-50 | the counter goes up by one, or stays if saturated |
| `ChannelMailboxModule.ChannelMailbox.Post` | proxies/gmlbroker/src/channel_mailbox.cpp:52-58 | the bytes are queued last, then the counter signalled |
| `ChannelMailboxModule.ChannelMailbox.RequestTeardown` | proxies/gmlbroker/src/channel_mailbox.cpp:60-67 | the request and its announcement are stored, then the counter signalled |
| `ChannelMailboxModule.ChannelMailbox.Drain` | proxies/gmlbroker/src/channel_mailbox.cpp:69-84 | the counter is cleared and the whole queue moved out, with the teardown state |
| `ChannelMailboxModule.NothingLost` | proxies/gmlbroker/src/channel_mailbox.cpp:43-84 | under every interleaving of push, signal, clear and take: drained chunks followed by the queue are all posts in lock order, and whenever something is left to give the counter is positive, a poster is about to signal, or the reader is on its way |
| `ChannelMailboxModule.QuietMeansDelivered` | proxies/gmlbroker/src/channel_mailbox.cpp:71-84 | where nothing is signalled and the reader polls, everything was delivered and the last teardown request seen |
| `ChannelMailboxModule.WokenReaderTakesAll` | proxies/gmlbroker/src/channel_mailbox.cpp:71-84 | a reader that is woken and left alone takes everything there is |
| `ChannelTableModule.ChannelTable.Allocate` | proxies/shared/include/network/channeltable.h:54-67 | the probing loop with 16-bit wrap computes `Scan`, binds the result and moves the cursor behind it |
| `ChannelTableModule.Scan` | proxies/shared/include/network/channeltable.h:56-66 | the channel found is free and every channel probed before it is bound; none is found only if every probe is bound |
| `ChannelTableModule.AllocatesWhileFree` | proxies/shared/include/network/channeltable.h:54-67 | nothing is returned if and only if all 65536 channels are bound, and never a bound one |
| `ChannelTableModule.ReuseDistance` | proxies/shared/include/network/channeltable.h:40-67 | between two allocations of the same channel every other channel was handed out or found bound, whatever was inserted and removed meanwhile |
| `ChannelTableModule.BoundToLast` | proxies/shared/include/network/channeltable.h:54-102 | after any operations a channel is bound if and only if one of them bound it and none has removed it since, and then to that one's descriptor |
| `ChannelTableModule.ChannelTable.Insert` | proxies/shared/include/network/channeltable.h:73-76 | binds the channel unless it is bound already |
| `ChannelTableModule.ChannelTable.Get` | proxies/shared/include/network/channeltable.h:81-87 | the bound descriptor, if any |
| `ChannelTableModule.ChannelTable.Remove` | proxies/shared/include/network/channeltable.h:94-102 | the mapping is gone and its descriptor returned |

## Left out

- Virtual dispatch: a subclass of the parser is a record of hook functions over its own fields, so a hook that touches the parser's private fields could not be expressed; none in the repository does.
- Sockets, TLS, poll, UDP, eventfd creation failure, logging, signals and shutdown of the processes: they appear only as inputs or nondeterministic steps.
- A receive takes at most 1203 bytes of a datagram (`proxies/shared/src/network/udpreceiver.cpp:79-80` with a buffer of 1204), and the system drops the rest of a longer one; the model begins with what was received.
- Heartbeats and the time-based keepalive: timers are not part of this model; a late keepalive is one more payload on the high side.
- Weak memory: the atomics are relaxed in the code; `GlobalDeny` and `ChannelMailboxModule` assume sequential consistency.
- 64-bit overflow of the length prefix in a tolerant parser: lengths are mathematical integers.
- Multi-byte UTF-8: the framer rejects bytes above 127 and the client counts code points, so the two are compared on ASCII.
- The texts of the canned `args` instructions and the drawing of random ids: both are parameters of the forger (`Environment`); that they can be printed is a stated premise where it is needed.
- The client's socket loop with its timeouts and end of file.
- Decoding.DecodeOneLoop: Python's `int` also accepts signs, blanks and underscores, on which the model raises; the decoder is documented for well-formed constants only, and with a negative length its loop need not end.
- The final SHUTDOWNs the guard sends when it stops, and the process-wide stop flag.
- File descriptor ownership in gcdbroker: the table and the connections told to shut down are modelled, who closes which descriptor is not.
- The readers and handlers of the brokers hold their transducers and mailboxes by value (the live state and the functions the transducer classes are proved against), so aliasing between a handler and a transducer object is not captured there; the guard's map of parser objects is modelled with objects.
- ApprovalProtocol.ApprovedMeansGranted: assumes that the low side sends only what gmlbroker queues; for a low side that sends anything, only the claims about dialing are made.
- ApprovalProtocol.NoStaleApproval: distinctness of request ids is a premise, because ids are drawn at random.
- GuardRuns.Serve: the control thread's two stores are taken together there; `GlobalDeny` separates them.
- GuacdReads.GuacdReadsWhatPassed: the link between guard and gcdbroker keeps the order and loses nothing there, and dials and sends succeed; over a link that does not, only the claims about dialing are made. The sync echoes are not among what it counts; `GuacdLink.SyncsReachGuacd` is about them.
- Toggle parsing, port parsing, queues, reader counting, the load generator, web server, dashboard, and the Docker and shell scripts: easy or unrelated to the filter.
