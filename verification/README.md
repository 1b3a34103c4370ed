# RTMP sessions, proved

A Dafny model of the rtmpx library: the RTMP chunk codec (section 5.3 of the Adobe RTMP 1.0
specification), the AMF0 and AMF3 document codecs with graph expansion, the client and server
session state machines, the incremental handshake, and the FLV tag parser over segmented payloads.

`dafny verify dfyconfig.toml` checks everything.

How the files fit together:

- Chunk layer. `ChunkMachine` is a parser that takes one byte at a time, `ChunkMachineProofs` its
  invariant. `ChunkParser` is the real parser, with its scratch array and its loop, proved against
  the machine. `MessageMachine` adds message bodies and the control messages a session applies.
  `MessageDecoder` (owned and borrowed input) and `ContiguousDecoder` are proved against it, and
  `Parsing` and `Receiving` drive them over streams cut anywhere.
- Sending. `ChunkEncoder` says what is on the wire, `Packet` is the resumable cursor over it,
  `Encoding` the stateful encoder. `RoundTrip` holds the simulation between encoder and parser,
  `SentLog` the consequences for dropped packets, `Connection` the whole path through the classes.
- AMF. `Amf3` and `Amf0` are writer and reader on values, `Amf3Writer` and `Amf3Reader` the
  imperative code proved equal to them. `Amf3Graph` and `Amf0` define first-visit renumbering;
  `Amf3Places` and `Amf0Places` say that it preserves the graph (over `Places` of values), `Amf3Same`
  and `Amf0Same` that it follows shapes and references, `Amf3Rewrite` and `Amf0Rewrite` that it
  preserves the bytes, `Amf3Moved` what moving an arena preserves, `Amf3Demand` what a document needs
  of a reader's tables, `Amf3Closed` and `Amf0Closed` what it reaches, and `Amf3Exact` and `Amf0Exact`
  which documents come back. `Graph` and
  `Expansion` are the conversion of a graph, with its embedded arena, into trees; `Amf3Tree` and
  `Amf0Tree` say that documents and what comes back of them have the same trees.
- Sessions. `Streams` is the generational arena, `Acks` the acknowledgement arithmetic, `Outputs`
  the queue of packets and events. A session is first a transition system over journals of steps,
  in `ClientState` and `ClientProtocol` for the client and in `ServerProtocol` for the server, with
  the laws of every run there and in `ServerRuns`. `Negotiation`, `Client` and `Server` are the
  sessions as classes whose journals are such runs.
- Order. `Overtaking` says exactly when a packet that arrives out of encoding order is still
  received, `AfterPlay` what is received after the answer to a play request, `ServerPeer` and
  `ServerPlayed` what this means for the packets of a server run, and `PlayRun` has a run in which
  the answer is lost.
- `Handshake`, `PayloadView`, `Flv` and `FlvCursor` are the remaining components.

Some things turn out differently from what one might expect. They are results of the model:

- Packets leave the client in the order in which they were encoded, and header compression relies on
  that. The server does not keep this order in two places. The connect preamble is encoded when a
  session is made but leaves with the decision on the connection, so that an acknowledgement made
  before ends the connection (`ServerPeer.AcknowledgedTooSoon`). The reset status of an accepted play
  is encoded last and emitted first; `ServerPeer.PlayAnswered` gives the exact condition under which
  a client receives the five packets. A client that plays the stream it was just given does not
  (`ServerPeer.NewStreamLost`), and every server has such a run (`PlayRun.PlayLost`). In both places the order of encoding would be received
  (`Overtaking.PreambleInOrder`, `Overtaking.PlayInOrder`).
- An encoded AMF3 document does not come back if it reaches a member without a name, because the
  empty name ends a member list, and likewise an AMF0 property. The exact conditions are
  `Amf3Exact.RoundTripExactly` and `Amf0Exact.RoundTripExactly`.
- An AMF0 document of more than 65536 complex values may be written and read, but what was read
  cannot be written again (`Amf0Exact.ReencodeExactly`, `Amf0Exact.ReencodeLost`).
- A full window can go unnoticed when the 32-bit byte counter wraps; `Acks.NoticedUnlessWrapped`
  gives the exact condition.

Random bytes, HMAC, the clock, the encoding of message bodies and their parsing are parameters or
arbitrary values.

## Model

| member | source | states |
|---|---|---|
| Connection.EndToEnd | src/chunk_io/serializer.rs:284-378 | whole path, classes on both sides: any run of sends and chunk-size changes (any header mode, droppable packets sent or withheld), cut anywhere into pieces that are each owned or borrowed as one likes, is decoded to exactly the transmitted messages, in order |
| RoundTrip.RunRoundTrip | src/chunk_io/serializer.rs:284-378 | two-machine simulation over whole runs: from any pair in step, the peer decodes the transmitted messages and the two histories are in step again, with the same limits |
| RoundTrip.ConnectionRoundTrip | src/chunk_io/streaming.rs:201-299 | the same from the start of a connection, for any limits that admit five chunk streams |
| Amf3Exact.RoundTripExactly | src/amf/amf3.rs:460-495 | for every encodable AMF3 document, shared and cyclic ones included: decoding gives its first-visit renumbering if and only if every reachable member is named and the distinct strings and traits it reaches, and its roots, are within the reader limits |
| Amf3Exact.ReencodeIdentical | src/amf/amf3.rs:460-495 | re-encoding what was decoded gives byte-identical output, for every document that comes back |
| Amf0Exact.RoundTripExactly | src/amf/amf0.rs:196-314 | for every encodable AMF0 document with embedded AMF3 values: it comes back renumbered if and only if every reachable property has a name of its own, no string reaches 2^32 bytes, arenas and roots are within the reader limits, and so are the distinct strings and traits of every embedded value reached |
| Amf0Exact.ReencodeExactly | src/amf/amf0.rs:196-314 | re-encoding what came back succeeds if and only if there are at most 65536 complex values, and is then byte-identical |
| Amf0Exact.ReencodeLost | src/amf/amf0.rs:340-365 | a document of 65537 empty arrays is written and read, and what came back cannot be written |
| Amf0Tree.DecodedExpands | src/amf/amf0.rs:799-899 | a decoded AMF0 document expands within a budget exactly if the original does, to the same trees in normal form, embedded AMF3 values included |
| ClientModule.Run | src/sessions/client/mod.rs:187-296 | every client run: each request has its protocol effect or is refused for a stated reason; the messages handled are those in the bytes; what leaves is the outputs of the steps in order and decodes at the server to exactly the messages encoded, for every choice of dropped droppable packets; every state obeys the lifecycle laws; every play or publish command starts a stream not removed before |
| ServerModule.Run | src/sessions/server/mod.rs:277-489 | every server run, of any length: each step has its protocol effect or is refused for a stated reason; media is reported exactly on streams whose accepted publish nothing has ended; IDs and handles are never given twice; no acceptance finds its stream gone; what leaves decodes at the client as long as the steps are orderly |
| ServerRuns.ReportedExactly | src/sessions/server/mod.rs:1388-1428 | media on a message stream is reported if and only if a publish on it was accepted before and nothing has ended it since, and then under the handle of the stream and the key of that publish |
| Overtaking.OutOfOrderExactly | src/chunk_io/serializer.rs:308-378 | a packet that reaches a client out of encoding order is received as sent if and only if its header is full or the client record equals the one it was compressed against |
| ServerPeer.PlayAnswered | src/sessions/server/mod.rs:1637-1728 | in any server run, the five packets of an accepted play, which leave in another order than they were encoded in, are received as sent if and only if a condition on the client record of chunk stream 6 holds |
| Expansion.Expand | src/amf/graph.rs:159-181 | returns the unique reference-free unfolding of all roots, through both arenas, within one node, byte and depth budget if there is one; otherwise an error that is justified, and then no affordable unfolding exists |
| FlvCursor.DemuxView | src/flv.rs:424-523 | demuxing a tag from any segmented view equals demuxing its contiguous bytes: same structure, same payload bytes, same error |
| HandshakeModule.Feed | src/handshake/mod.rs:200-251 | any cutting of the peer bytes gives the same concatenated response, the same leftover after 1 + 1536 + 1536 bytes, and the error for a wrong version if and only if the first byte is not 3 |
| ChunkMachineProofs.RunConcat | src/chunk_io/streaming.rs:114-162 | feeding `a` then `b` to the byte machine is feeding `a + b`: events, final state and error position do not depend on the cut |
| ChunkMachineProofs.StoppedInside | src/chunk_io/streaming.rs:114-162 | a run that fails fails at a position inside its input |
| ChunkMachineProofs.BeginChunkOpens | src/chunk_io/streaming.rs:201-299 | an accepted header opens one stream record that meets every limit and leaves all other records alone |
| ChunkMachineProofs.StepValid | src/chunk_io/streaming.rs:177-299 | every accepted byte keeps: at most 18 scratch bytes, received <= length <= maximum, tracked streams within the limit, partial messages within the limit between chunks |
| ChunkMachineProofs.RunValid | src/chunk_io/streaming.rs:177-299 | those bounds after every run |
| ChunkMachineProofs.ResizedValid | src/chunk_io/streaming.rs:93-99 | a chunk-size change between any two bytes keeps the bounds |
| ChunkMachineProofs.AbortedValid | src/chunk_io/streaming.rs:100-109 | an abort between any two bytes keeps the bounds |
| ChunkParserModule.ChunkParser.constructor | src/chunk_io/streaming.rs:79-89 | a new parser is the initial state of the byte machine |
| ChunkParserModule.ChunkParser.SetChunkSize | src/chunk_io/streaming.rs:93-99 | accepted if and only if 1 to 2^31-1 and within the limit; otherwise the state is unchanged |
| ChunkParserModule.ChunkParser.AbortChunkStream | src/chunk_io/streaming.rs:100-109 | drops the partial message of that chunk stream and leaves an open chunk of it |
| ChunkParserModule.ChunkParser.OpenChunk | src/chunk_io/streaming.rs:201-299 | the in-place header interpretation computes the machine transition, errors included |
| ChunkParserModule.ChunkParser.FillScratch | src/chunk_io/streaming.rs:114-135 | copies as many header bytes as are needed or available |
| ChunkParserModule.ChunkParser.TakeFragment | src/chunk_io/streaming.rs:136-161 | hands out the next payload bytes with their offset and advances the record |
| ChunkParserModule.ChunkParser.Consume | src/chunk_io/streaming.rs:114-162 | refines the byte machine: the consumed prefix reaches the same state with the same events; no fragment means all input was consumed, a fragment means at least one byte was, and an error is the one the machine stops with |
| Parsing.ParsePieces | src/chunk_io/streaming.rs:114-162 | draining any cutting of a byte stream terminates and yields the events and error of the machine on the whole stream; an error is reported in the piece that holds its position |
| MessageMachine.RunMirrors | src/chunk_io/streaming.rs:440-553 | over every run, a body is held exactly for the active streams with bytes received, and its length is the number received |
| MessageMachine.RunIdentity | src/chunk_io/streaming.rs:201-299 | an open message keeps its timestamp, type, stream and length until it ends |
| MessageMachine.ReceiveConcat | src/chunk_io/streaming.rs:418-439 | what is received, with SetChunkSize and Abort applied as they complete, does not depend on where the input is cut |
| MessageDecoderModule.BufferedWithinReserved | src/chunk_io/streaming.rs:440-553 | exact sums over partials give buffered <= reserved <= maximum |
| MessageDecoderModule.NoLimitFires | src/chunk_io/streaming.rs:455-536 | with limits that cover the tracked streams, no buffering check can fail |
| MessageDecoderModule.BufferedBound | src/chunk_io/streaming.rs:440-553 | all bodies together hold at most the number of tracked streams times the largest message |
| MessageDecoderModule.MessageDecoder.constructor | src/chunk_io/streaming.rs:387-398 | an empty decoder on a new parser |
| MessageDecoderModule.MessageDecoder.OpenBody | src/chunk_io/streaming.rs:483-509 | reserves a body, keeping the sums exact, or reports the limit that is exceeded |
| MessageDecoderModule.MessageDecoder.ExtendBody | src/chunk_io/streaming.rs:510-536 | appends a fragment to one body and touches no other, keeping the sums exact |
| MessageDecoderModule.MessageDecoder.CloseBody | src/chunk_io/streaming.rs:537-545 | removes a finished body without underflow and keeps the sums exact |
| MessageDecoderModule.MessageDecoder.Accept | src/chunk_io/streaming.rs:440-553 | one fragment is absorbed as the message machine says, or a limit that is really tight is reported |
| MessageDecoderModule.MessageDecoder.SetChunkSize | src/chunk_io/streaming.rs:402-404 | the parser rule; partial bodies stay |
| MessageDecoderModule.MessageDecoder.AbortChunkStream | src/chunk_io/streaming.rs:411-417 | drops exactly that body and keeps the sums exact |
| MessageDecoderModule.MessageDecoder.DecodeInput | src/chunk_io/streaming.rs:440-553 | owned and borrowed input alike: the consumed bytes are decoded as the message machine says; no message means the input is used up; an error is the stream error, or names a limit that is really exceeded and then the limits do not cover the tracked streams |
| ContiguousDecoderModule.ContiguousDecoder.constructor | src/chunk_io/deserializer.rs:58-67 | an empty decoder |
| ContiguousDecoderModule.ContiguousDecoder.SetChunkSize | src/chunk_io/deserializer.rs:71-73 | the parser rule |
| ContiguousDecoderModule.ContiguousDecoder.AbortChunkStream | src/chunk_io/deserializer.rs:74-81 | drops exactly that body and keeps the sums exact |
| ContiguousDecoderModule.ContiguousDecoder.Assemble | src/chunk_io/deserializer.rs:106-147 | a fragment is copied into its allocation as the message machine says |
| ContiguousDecoderModule.ContiguousDecoder.GetNextMessage | src/chunk_io/deserializer.rs:85-159 | pending and new bytes together are decoded as the message machine says; what is not consumed stays pending, in order |
| Receiving.MessageReceives | src/chunk_io/streaming.rs:418-439 | a completed message is received with the last byte taken |
| Receiving.FailureReceives | src/chunk_io/streaming.rs:418-439 | a decoder failure is the failure of the receiver |
| Receiving.ReceivePieces | src/chunk_io/streaming.rs:418-439 | any mixture of owned and borrowed pieces yields the messages and error of the uncut stream; if a limit fires instead, it is really exceeded, the limits were not ample, and the messages are a prefix of those of the uncut stream |
| Receiving.ReceivePiecesContiguous | src/chunk_io/deserializer.rs:85-159 | the same for the contiguous decoder, where limits that leave room for the pieces handed over rule out every limit error |
| Receiving.Pull | src/chunk_io/deserializer.rs:85-159 | one call returns the next message of the uncut stream, or nothing when all bytes are used, or its error, or a limit that is exceeded |
| ChunkEncoderModule.InlineHeader.Push | src/chunk_io/serializer.rs:72-75 | appends bytes to the fixed array, within its 18 bytes |
| ChunkEncoderModule.EncodeHeader | src/chunk_io/serializer.rs:40-71 | writes exactly the wire header of the format, extended timestamp included |
| RoundTrip.ReadsBack | src/chunk_io/serializer.rs:40-71 | a header of any format, read against the record it was compressed with, gives back its time field and message attributes |
| RoundTrip.RunImage | src/chunk_io/serializer.rs:178-262 | header, pieces and continuation headers with repeated extended timestamps are parsed to the payload, whatever the chunk size |
| RoundTrip.PacketCrosses | src/chunk_io/serializer.rs:308-378 | one packet in step delivers its message; wrapping 32-bit deltas are undone |
| RoundTrip.DroppedSynced | src/chunk_io/serializer.rs:308-378 | a droppable packet that is never sent leaves the two histories in step |
| RoundTrip.ActionSynced | src/chunk_io/serializer.rs:284-378 | one transmitted action delivers its message and keeps the simulation relation |
| RoundTrip.ConnectionDecodes | src/chunk_io/streaming.rs:418-553 | the decoder class, on any cutting into owned and borrowed pieces, returns exactly the transmitted messages |
| Encoding.ChunkEncoder.constructor | src/chunk_io/serializer.rs:277-283 | a new encoder has no history and chunk size 128 |
| Encoding.ChunkEncoder.EncodeMessage | src/chunk_io/serializer.rs:308-378 | updates one slot of the history as the specification says and returns a packet whose remaining bytes are its wire image; on error nothing changes |
| Encoding.ChunkEncoder.SetChunkSize | src/chunk_io/serializer.rs:284-305 | announces the size with the old one in force, then adopts it; on error nothing changes |
| SentLog.MadeAppend | src/chunk_io/serializer.rs:284-378 | one more action makes one more packet from the encoder state reached |
| SentLog.ChosenTransmits | src/chunk_io/serializer.rs:308-378 | withholding packets changes neither the packets made nor the messages of the kept ones |
| SentLog.PeerDecodes | src/chunk_io/serializer.rs:308-378 | for every choice of withheld droppable packets, the peer decodes exactly the kept messages and is in step with the encoder; SetChunkSize and Abort sent as data are allowed where the peer would accept them |
| SentLog.ReleasedDecodes | src/chunk_io/serializer.rs:308-378 | the same for the packets that have left so far |
| SentLog.MakesConcat | src/chunk_io/serializer.rs:308-378 | packets made by two runs of one encoder are the packets of the joined run |
| Connection.TransmitAll | src/chunk_io/serializer.rs:284-378 | the encoder class with its packet cursors emits the transmitted byte stream of the specification |
| Connection.Cut | src/chunk_io/streaming.rs:418-439 | cutting a byte sequence at any sizes, each piece owned or borrowed, loses nothing |
| Overtaking.UnseenStops | src/chunk_io/streaming.rs:201-299 | a compressed header on a chunk stream never seen stops the parser before any event |
| Overtaking.UnseenDies | src/chunk_io/streaming.rs:201-299 | such a packet ends the connection with the error for a missing previous chunk |
| Overtaking.WrapExactly | src/chunk_io/streaming.rs:201-299 | a 32-bit delta gives back the time if and only if it is added to the time it was taken from |
| Overtaking.RecordReads | src/chunk_io/streaming.rs:201-299 | what a client reads when the header leaves out length and type: the record supplies them, and the data are cut or extended to its length |
| Overtaking.RecordExactly | src/chunk_io/streaming.rs:201-299 | such a packet is received as sent if and only if the record agrees with the encoder in length, type, stream and time |
| Overtaking.PreambleOvertaken | src/sessions/server/mod.rs:215-263 | the real preamble (chunk size, window, stream begin, bandwidth, optional onBWDone) is encoded before anything else but leaves on accept or reject: a message of at most a chunk that overtakes it is received if and only if it is on another message stream or on a chunk stream the preamble did not use |
| Overtaking.AcknowledgementDies | src/sessions/server/mod.rs:296-323 | an acknowledgement made before the connect is answered always ends the connection of a new client |
| Overtaking.PreambleInOrder | src/sessions/server/mod.rs:215-263 | if the preamble leaves first, it and what follows are received |
| Overtaking.ResetRead | src/sessions/server/mod.rs:1714-1728 | the reset status, encoded last and sent first: it kills a client that never saw chunk stream 6, and otherwise is read on the stream of the client record, as sent if and only if that record has its stream and the time of the start status |
| Overtaking.EmittedExactly | src/sessions/server/mod.rs:1697-1728 | the five packets in the order in which they leave are received as sent if and only if the client record is undisturbed |
| Overtaking.PlayInOrder | src/sessions/server/mod.rs:1697-1728 | encoded in the order in which they leave, the five are received by every client in step |
| ServerPeer.OpeningIsPreamble | src/sessions/server/mod.rs:215-263 | what a session is created with is that preamble |
| ServerPeer.AcknowledgedTooSoon | src/sessions/server/mod.rs:289-341 | in every server run, an acknowledgement made while nothing has been decided is the first packet out and ends the connection of the client |
| ServerPeer.PlayEmits | src/sessions/server/mod.rs:1637-1728 | in every server run, an accepted play emits those five packets, from the encoder state then reached |
| ServerPeer.NewStreamLost | src/sessions/server/mod.rs:1637-1728 | in every server run, a client that plays the stream it was just given, with nothing sent in between, does not receive the answer |
| PlayRun.PlayLost | src/sessions/server/mod.rs:1637-1728 | whatever its settings, a server has such a run: connect, accept, createStream, play, accept |
| AfterPlay.AnswerTaken | src/sessions/server/mod.rs:1697-1728 | a client that receives the answer is then in step with the server everywhere but on the chunk stream of commands, where it has the start status or the last data message on record and the encoder has the reset status |
| AfterPlay.NextCommand | src/chunk_io/serializer.rs:308-378 | from there, the next message on that chunk stream is received if and only if its header is full, or leaves out the stream only and the answer was stamped all alike |
| AfterPlay.BackInStep | src/chunk_io/serializer.rs:308-378 | with such a message the two sides are in step again |
| AfterPlay.OthersReceived | src/chunk_io/serializer.rs:308-378 | whatever is sent on other chunk streams is received, and changes nothing for the commands |
| ServerPlayed.AnswerReceived | src/sessions/server/mod.rs:1637-1728 | the same for an accepted play in a server run |
| ServerPlayed.OthersDecoded | src/sessions/server/mod.rs:277-489 | in every server run after a received answer, the packets on other chunk streams, less some droppable ones, are decoded to exactly the messages encoded |
| ServerPlayed.CommandDecoded | src/sessions/server/mod.rs:277-489 | and the next command is received if and only if its header is full, or leaves out the stream only and the answer was stamped all alike |
| PacketModule.ImageLength | src/chunk_io/serializer.rs:105-108 | the wire image is payload plus first header plus one continuation header per further chunk |
| PacketModule.PieceIsNext | src/chunk_io/serializer.rs:179-200 | the piece at the cursor is nonempty and comes next in the image |
| PacketModule.MoveStands | src/chunk_io/serializer.rs:236-262 | moving over part of a piece, across segment and chunk ends, leaves the cursor at the matching place of the image |
| PacketModule.PacketCursor.Current | src/chunk_io/serializer.rs:179-200 | nonempty, and a prefix of what is left; none exactly at the end |
| PacketModule.PacketCursor.Advance | src/chunk_io/serializer.rs:236-262 | any short write drops exactly that many bytes from what is left |
| PacketModule.PacketCursor.IoSlices | src/chunk_io/serializer.rs:201-235 | nonempty slices that are a prefix of what is left, and all of it if slots remain |
| PacketModule.Packet.constructor | src/chunk_io/serializer.rs:308-378 | a new packet has its whole image left |
| PacketModule.Packet.WireLen | src/chunk_io/serializer.rs:105-108 | the length of the image |
| PacketModule.Packet.CanDrop | src/chunk_io/serializer.rs:126-129 | true exactly for a droppable packet of which nothing was delivered |
| PacketModule.Packet.Advance | src/chunk_io/serializer.rs:130-138 | delivered plus remaining bytes stay the image |
| PacketModule.Packet.IoSlices | src/chunk_io/serializer.rs:139-142 | a prefix of what remains |
| PacketModule.Packet.CopyTo | src/chunk_io/serializer.rs:143-152 | appends what remains and moves nothing |
| Amf3Proofs.U29RoundTrip | src/amf/amf3.rs:399-431 | every 29-bit number is read back, with the bytes behind it untouched |
| Amf3Proofs.IntegerRoundTrip | src/amf/amf3.rs:433-438 | every 29-bit signed integer survives its bit pattern |
| Amf3Proofs.StringReads | src/amf/amf3.rs:1066-1087 | a written string is read back and both string tables number it alike; the reader fails exactly when the distinct strings exceed its table |
| Amf3Proofs.TraitReads | src/amf/amf3.rs:842-898 | the same for traits |
| Amf3RoundTrip.ValueReads | src/amf/amf3.rs:679-841 | at any point of a document, with tables in step, a written value is read as its numbered form and the tables are in step after it |
| Amf3RoundTrip.ObjectReads | src/amf/amf3.rs:842-898 | the same for objects with sealed and dynamic members |
| Amf3RoundTrip.ArrayReads | src/amf/amf3.rs:1258-1297 | the same for arrays, dense and associative |
| Amf3RoundTrip.VectorReads | src/amf/amf3.rs:1546-1573 | the same for object vectors |
| Amf3RoundTrip.DocumentRoundTrip | src/amf/amf3.rs:460-495 | documents whose members are all named come back renumbered if and only if the tables suffice, and decoding errs otherwise |
| Amf3RoundTrip.SingleRoundTrip | src/amf/amf3.rs:496-504 | one value behind others: it is read back and the bytes behind it are left |
| Amf3Places.RenumberSame | src/amf/amf3.rs:460-495 | renumbering is an isomorphism on what is reachable: the slots stand one to one for the complex values reached, inline ones and objects alike, hold the same labels with children that stand for the children, and are all reached from the roots |
| Amf3Places.SharedExactly | src/amf/amf3.rs:460-495 | two values of a document share a slot after renumbering if and only if they were one and the same value before |
| Amf3Same.RenumberTracked | src/amf/amf3.rs:460-495 | references follow one injective renaming of the objects, and every value keeps its shape |
| Amf3Rewrite.RenumberRewrites | src/amf/amf3.rs:460-477 | a document and its renumbering encode to the same bytes and the same table demand |
| Amf3Exact.DecodedWellFormed | src/amf/amf3.rs:479-495 | whatever the bytes, every associative and dynamic member of a decoded document is named |
| Amf3Exact.RenumberSettles | src/amf/amf3.rs:460-495 | renumbering an encodable document twice is renumbering it once |
| Amf3Exact.NamelessLost | src/amf/amf3.rs:679-841 | a concrete encodable array with a nameless member that does not come back |
| Amf3Exact.SingleExactly | src/amf/amf3.rs:496-504 | one value on its own comes back if what it reaches is well formed and the tables suffice, and is an error if they do not |
| Amf3Demand.CountsNeeds | src/amf/amf3.rs:606-622 | the string and trait tables of the writer meet exactly the distinct strings and traits that the reachable values hold |
| Amf3Closed.WrittenClosed | src/amf/amf3.rs:679-841 | values that can be written reach no dangling reference |
| Amf3Moved.ValueMoves | src/amf/amf0.rs:625-642 | an AMF3 value written from an arena in which its objects have been moved gives the same bytes and the same numbering |
| Amf3WriterModule.Writer.PutU29 | src/amf/amf3.rs:399-416 | appends the bytes of the number |
| Amf3WriterModule.Writer.InternString | src/amf/amf3.rs:606-612 | enters the string under the next index, or not at all when the table is full |
| Amf3WriterModule.Writer.PutString | src/amf/amf3.rs:1066-1087 | output and tables are those of the writer specification |
| Amf3WriterModule.Writer.PutTrait | src/amf/amf3.rs:842-898 | the same for the object header |
| Amf3WriterModule.Writer.PutValue | src/amf/amf3.rs:679-841 | the same for any value: on success the output grows by the specified bytes and the tables agree, on error the error is the specified one |
| Amf3WriterModule.Writer.PutObject | src/amf/amf3.rs:842-898 | the same for objects |
| Amf3WriterModule.EncodeInto | src/amf/amf3.rs:460-477 | appends the encoded document, or leaves the output as it was and reports the error |
| Amf3ReaderModule.Reader.GetU29 | src/amf/amf3.rs:417-431 | reads at most four bytes, the fourth carrying eight bits |
| Amf3ReaderModule.Reader.GetString | src/amf/amf3.rs:1127-1151 | value, rest and table are those of the reader specification |
| Amf3ReaderModule.Reader.GetTrait | src/amf/amf3.rs:1390-1418 | the same for traits |
| Amf3ReaderModule.Reader.GetValue | src/amf/amf3.rs:1152-1191 | the same for any value |
| Amf3ReaderModule.Reader.GetArray | src/amf/amf3.rs:1258-1297 | the same for arrays, the slot reserved before the members |
| Amf3ReaderModule.Reader.GetObject | src/amf/amf3.rs:1381-1475 | the same for objects |
| Amf3ReaderModule.Reader.GetVector | src/amf/amf3.rs:1546-1573 | the same for object vectors |
| Amf3ReaderModule.Decode | src/amf/amf3.rs:479-495 | the loop over roots computes the specified document or error |
| Graph.UnfoldingUnique | src/amf/graph.rs:113-181 | a value has at most one unfolding, whichever arena its references are in |
| Graph.UnfoldingReferenceFree | src/amf/graph.rs:148-157 | an unfolding holds no reference |
| Graph.ReachingCycleNeverUnfolds | src/amf/graph.rs:113-146 | a value that leads to an object on a cycle has no unfolding |
| Expansion.Validation.Validate | src/amf/graph.rs:113-146 | passes exactly if the value has an unfolding through both arenas within what is left of the budget, and then pays exactly for it; the path is restored; a reported cycle is a real one |
| Expansion.Validation.ValidateChildren | src/amf/graph.rs:113-146 | the same for the children of a node, in order, against one budget |
| Expansion.ValidateAll | src/amf/graph.rs:166-181 | all roots against one budget |
| Expansion.Install | src/amf/graph.rs:148-157 | terminates on a value that has an unfolding and yields it, without checking anything again |
| Expansion.CyclicNeverExpands | src/amf/graph.rs:113-146 | roots that lead to a cycle have no expansion, whatever the limits |
| Amf3Tree.RelocateShifts | src/amf/amf3.rs:1619-1656 | relocation shifts every reference of a value and nothing else |
| Amf3Tree.ShiftUnfolds | src/amf/amf3.rs:1619-1656 | appended to another arena and shifted, a graph unfolds to exactly what it did |
| Amf3Tree.EmbeddingKeepsTrees | src/amf/amf0.rs:275-289 | embedding an AMF3 document in an arena keeps what every reference unfolds to, both ways |
| Amf3Tree.DecodedKeepsTrees | src/amf/amf3.rs:1658-1778 | expanding a decoded document gives what expanding the encoded one gives, in both directions, for every document that comes back |
| Amf3Tree.RenumberKeepsTrees | src/amf/amf3.rs:1658-1778 | renumbering keeps the unfolding of every root up to normal form, in both directions |
| Amf3Tree.NormalCosts | src/amf/amf3.rs:1666-1700 | the decoded form costs the same nodes, bytes and depth, so the same budgets admit it |
| Amf0RoundTrip.GoodRoundTrip | src/amf/amf0.rs:196-314 | documents whose reachable values can be told apart from their bytes come back renumbered if the reader has room, and decoding errs otherwise |
| Amf0RoundTrip.ValueReads | src/amf/amf0.rs:330-415 | a written value is read as its numbered form; both sides number complex values in preorder |
| Amf0RoundTrip.SlotReads | src/amf/amf0.rs:529-581 | a complex value takes the same slot on both sides, before its children |
| Amf0RoundTrip.EmbeddedReads | src/amf/amf0.rs:625-642 | an embedded AMF3 value is read back and relocated to the end of the arena |
| Amf0RoundTrip.PropertiesRead | src/amf/amf0.rs:442-460 | properties are read back in order, up to the end marker |
| Amf0RoundTrip.ItemsRead | src/amf/amf0.rs:462-476 | array items are read back in order |
| Amf0Exact.DecodedWellFormed | src/amf/amf0.rs:677-737 | whatever the bytes, every property of a decoded document has a name of its own |
| Amf0Exact.NamelessLost | src/amf/amf0.rs:442-460 | a concrete encodable object with a nameless property that does not come back |
| Amf0Places.RenumberSame | src/amf/amf0.rs:196-314 | AMF0 renumbering is an isomorphism on what is reachable: slots stand one to one for the complex values reached, and the embedded arena consists of one block for each embedded AMF3 value reached, laid out in order, each with the isomorphic graph of that value |
| Amf0Places.SharedExactly | src/amf/amf0.rs:196-314 | two values share a slot after renumbering if and only if they were one and the same value before |
| Amf0Same.RenumberTracked | src/amf/amf0.rs:196-314 | references follow one injective renaming of the objects, values keep their shape, and embedded graphs are found whole in the arena they were moved to |
| Amf0Closed.TablesExactly | src/amf/amf0.rs:625-642 | the tables of a reader suffice if and only if they do for every embedded value that the document reaches |
| Amf0Closed.EncodedClosed | src/amf/amf0.rs:330-415 | a document that can be written reaches no dangling reference, in either arena |
| Amf0Rewrite.RenumberSettles | src/amf/amf0.rs:196-314 | renumbering an encodable document twice is renumbering it once |
| Amf0Rewrite.RenumberRewrites | src/amf/amf0.rs:330-415 | the renumbered document is written if and only if 16-bit references can address its complex values, and then to the same bytes |
| Amf0Tree.RenumberKeepsTrees | src/amf/amf0.rs:799-899 | renumbering keeps the unfolding of every root up to normal form, embedded values included, in both directions |
| Amf0Tree.DecodedKeepsTrees | src/amf/amf0.rs:799-899 | so do a document and what comes back of it |
| Amf0Tree.ExpandDocument | src/amf/amf0.rs:799-899 | expanding a document with its embedded arena succeeds exactly if it unfolds within the limits, and yields the reference-free unfoldings |
| StreamsModule.LiveCount | src/sessions/streams.rs:119-132 | the number of occupied slots is the number of handles that resolve |
| StreamsModule.Streams.constructor | src/sessions/streams.rs:55-65 | an empty arena |
| StreamsModule.Streams.Insert | src/sessions/streams.rs:66-90 | gives out a handle never given out before; nothing else changes; the wire index stays the inverse if the ID is fresh |
| StreamsModule.Streams.Get | src/sessions/streams.rs:91-100 | resolves exactly the live handles |
| StreamsModule.Streams.SetState | src/sessions/streams.rs:101-110 | changes the state of one live stream |
| StreamsModule.Streams.Remove | src/sessions/streams.rs:111-118 | the handle is gone for good and its wire ID is free |
| StreamsModule.Streams.Bind | src/sessions/streams.rs:133-136 | binds a live stream; the index stays the inverse if the stream had no ID and the ID is fresh |
| StreamsModule.Streams.Find | src/sessions/streams.rs:137-139 | returns a handle exactly if it is the live stream with that wire ID |
| StreamsModule.Streams.Count | src/sessions/streams.rs:119-132 | the number of live streams |
| StreamsModule.Replay | src/sessions/streams.rs:66-139 | over any sequence of operations and after each of them: exactly the streams that were made and not removed resolve, with the state and wire ID given to them; handles are pairwise distinct; a wire ID finds the stream that has it |
| StreamsModule.GoneExactly | src/sessions/streams.rs:111-118 | a stream is gone exactly if an operation after its making removed it, and then for good |
| StreamsModule.Perform | src/sessions/streams.rs:66-139 | one operation with the checks of the sessions: all handles given out stand for the streams made |
| Acks.RunTallies | src/sessions/client/mod.rs:207-230 | over every run: the byte count is the total modulo 2^64, and the 32-bit counter since the last acknowledgement is below the window |
| Acks.SequenceNumberIsTotal | src/sessions/client/mod.rs:207-230 | the acknowledged number is the total of bytes received modulo 2^32 |
| Acks.FixedWindow | src/sessions/server/mod.rs:296-323 | with a fixed window and no overflow, the unacknowledged count is the total modulo the window |
| Acks.AcknowledgesMultiples | src/sessions/server/mod.rs:296-323 | an acknowledgement is made exactly when the total crosses a multiple of the window |
| Acks.NoticedUnlessWrapped | src/sessions/client/mod.rs:207-230 | a full window is noticed if and only if the 32-bit counter does not wrap to below the window |
| Acks.WrapLosesAcknowledgement | src/sessions/client/mod.rs:207-230 | a counter that a session reaches after one step, and a second step whose full window is not noticed |
| ClientState.BeginsConnecting | src/sessions/client/mod.rs:404-446 | issuing a connect keeps the lifecycle law |
| ClientState.BeginsStream | src/sessions/client/mod.rs:466-497 | issuing a createStream keeps it: live streams are creating iff without wire ID iff named by exactly one open createStream |
| ClientState.LosesStream | src/sessions/client/mod.rs:502-518 | removing a stream keeps it |
| ClientState.ConnectEnds | src/sessions/client/mod.rs:757-807 | the answer to a connect keeps it |
| ClientState.CreateEnds | src/sessions/client/mod.rs:808-909 | the answer to a createStream keeps it |
| ClientState.CreateRefused | src/sessions/client/mod.rs:681-733 | a refusal keeps it, and takes its stream along |
| ClientProtocol.RunLawful | src/sessions/client/mod.rs:187-296 | in every state of every run: connecting iff one connect is open; a live stream is creating iff it has no wire ID iff exactly one open createStream names it; wire IDs are distinct; the limits hold |
| ClientProtocol.NeverStartedAfterRemoval | src/sessions/client/mod.rs:808-909 | no answer to a createStream starts a stream that was removed, whatever became of its slot |
| ClientProtocol.CommandStarts | src/sessions/client/mod.rs:827-909 | every play or publish command of a run starts a live stream that was not removed before, on the wire ID it then has |
| ClientProtocol.RunDecodes | src/sessions/client/mod.rs:187-296 | what has left in a run, less some droppable packets, is decoded by the server to exactly the messages encoded, in order |
| ClientProtocol.AcknowledgesTotal | src/sessions/client/mod.rs:207-230 | every acknowledgement of a run carries the total of the bytes taken in, modulo 2^32 |
| Negotiation.Negotiator.constructor | src/sessions/client/mod.rs:97-133 | a new session obeys all laws |
| Negotiation.Negotiator.Connect | src/sessions/client/mod.rs:404-446 | only when disconnected and within the request limit: one connect command and one open transaction are added to the run; otherwise nothing changes and the error is justified |
| Negotiation.Negotiator.Create | src/sessions/client/mod.rs:466-497 | only when connected and within both limits: a new handle, its open createStream and one command are added to the run; otherwise nothing changes and the error is justified |
| Negotiation.Negotiator.Delete | src/sessions/client/mod.rs:502-530 | the handle is dead at once; a deleteStream leaves only if there is a wire ID |
| Negotiation.Negotiator.OnSuccess | src/sessions/client/mod.rs:734-909 | an answer closes its transaction: a connect leads to window size, event and chunk size in that order; a createStream binds and commands its stream only if that is still live |
| Negotiation.Negotiator.OnCreated | src/sessions/client/mod.rs:808-909 | a repeated wire ID is an error; a deleted stream gets a deleteStream and no command |
| Negotiation.Negotiator.OnRefusal | src/sessions/client/mod.rs:681-733 | a refusal closes its transaction and takes a stream along; nobody is told of a stream that is gone |
| Negotiation.Negotiator.OnStatus | src/sessions/client/mod.rs:911-1003 | a status starts or ends exactly the stream with that wire ID, or is passed on |
| Negotiation.Negotiator.OnInbound | src/sessions/client/mod.rs:298-372 | every message adds the step of the protocol to the run, with its packets and outputs in order, or fails for a stated fault |
| Negotiation.Negotiator.OnMedia | src/sessions/client/mod.rs:616-645 | an event exactly for a stream that plays or is about to |
| Negotiation.Negotiator.Pop | src/sessions/client/mod.rs:200-206 | hands out the first output; what left so far and what waits are all packets made, in order |
| Negotiation.Negotiator.SendMessage | src/sessions/client/mod.rs:1076-1155 | only with nothing waiting and on a publishing stream: the message is encoded and leaves |
| Negotiation.Negotiator.SendPing | src/sessions/client/mod.rs:531-548 | only with nothing waiting |
| Negotiation.Negotiator.Fail | src/sessions/client/mod.rs:191-197 | what left is still a prefix of what was made |
| ClientModule.Open | src/sessions/client/mod.rs:97-133 | refused exactly for a zero window or chunk size |
| ClientModule.ClientSession.constructor | src/sessions/client/mod.rs:97-133 | a new session has heard nothing and sent nothing |
| ClientModule.ClientSession.Process | src/sessions/client/mod.rs:249-296 | a message reaches the chunk layer or its handler; the state laws hold afterwards |
| ClientModule.ClientSession.Turn | src/sessions/client/mod.rs:207-247 | if an acknowledgement is due it is made and queued before all outputs of the message that triggered it |
| ClientModule.ClientSession.ReceiveInner | src/sessions/client/mod.rs:200-248 | returns the first output, with the bytes taken and the packets released accounted for |
| ClientModule.ClientSession.Receive | src/sessions/client/mod.rs:187-199 | waiting outputs leave first and take no input; the messages handled are exactly those in the bytes taken, however cut; an error ends the session and is justified by the bytes, the message or the very packet that could not be sent |
| ServerRuns.PublishingExactly | src/sessions/server/mod.rs:491-542 | in every run a stream is publishing if and only if its publish was accepted and nothing has ended it since, and its key and mode are those accepted |
| ServerRuns.AskedBefore | src/sessions/server/mod.rs:900-963 | every open request was put to the application by an earlier step |
| ServerRuns.NeverInactive | src/sessions/server/mod.rs:491-542 | no accepted request is about a stream that has gone |
| ServerRuns.NeverGivenTwice | src/sessions/server/mod.rs:1030-1057 | stream IDs grow, and no ID and no handle is ever given to two streams |
| ServerRuns.AcknowledgesTotal | src/sessions/server/mod.rs:289-341 | every acknowledgement of a run carries the total of the bytes taken in, modulo 2^32 |
| ServerRuns.RunMakes | src/sessions/server/mod.rs:172-340 | the packets of the preamble and of all steps are those of one encoder, in encoding order |
| ServerRuns.StepStraight | src/sessions/server/mod.rs:277-489 | every step but the decision on a connection and the acceptance of a play sends its packets in encoding order |
| ServerRuns.InOrder | src/sessions/server/mod.rs:277-489 | over a run whose connection is decided before other packets are made and that accepts no play, packets leave in encoding order |
| ServerRuns.RunDecodes | src/sessions/server/mod.rs:277-489 | what has left in such a run, less some droppable packets, is decoded by the client to exactly the messages encoded |
| ServerProtocol.RunLawful | src/sessions/server/mod.rs:172-489 | in every state of every run: active streams, handles and wire index are one set; every request is about an active stream; a publishing stream needs a connected session; the limits hold |
| ServerModule.Open | src/sessions/server/mod.rs:172-268 | a session is made unless the window is zero, the chunk size is out of range or the preamble cannot be written |
| ServerModule.Prepare | src/sessions/server/mod.rs:215-263 | encodes the preamble in its order and holds it back |
| ServerModule.ServerSession.constructor | src/sessions/server/mod.rs:172-268 | a new session has no streams and no requests, and its preamble waits |
| ServerModule.ServerSession.AcceptRequest | src/sessions/server/mod.rs:491-542 | an open request is closed and answered by its kind; never refused because its stream is gone; a failed answer still has the state change |
| ServerModule.ServerSession.AcceptConnection | src/sessions/server/mod.rs:1535-1577 | the preamble leaves before the acceptance |
| ServerModule.ServerSession.AcceptPublish | src/sessions/server/mod.rs:1578-1636 | reports an inactive stream if and only if the stream is gone; otherwise begin and start leave and the stream publishes; if one cannot be written, what was encoded before it is lost |
| ServerModule.ServerSession.AcceptPlay | src/sessions/server/mod.rs:1637-1728 | the same for a play, whose five packets leave with the reset first |
| ServerModule.ServerSession.EncodePlay | src/sessions/server/mod.rs:1697-1728 | begin, start, access, data start and reset are encoded in this order; a failure leaves the encoder where the packets so far led |
| ServerModule.ServerSession.RejectRequest | src/sessions/server/mod.rs:630-710 | the request is closed; a refused connection also gets the preamble |
| ServerModule.ServerSession.CompletePlayback | src/sessions/server/mod.rs:800-850 | only with nothing waiting, when connected and on a playing stream; each refusal is justified |
| ServerModule.ServerSession.SendMessage | src/sessions/server/mod.rs:1806-1887 | only with nothing waiting and on a playing stream: the message is encoded and leaves |
| ServerModule.ServerSession.SendPing | src/sessions/server/mod.rs:782-799 | only with nothing waiting |
| ServerModule.ServerSession.Count | src/sessions/server/mod.rs:296-323 | an acknowledgement of the running total is made exactly when one is due |
| ServerModule.ServerSession.Ask | src/sessions/server/mod.rs:900-963 | a request gets the next number, modulo 2^32, within the limit |
| ServerModule.ServerSession.OnConnect | src/sessions/server/mod.rs:900-963 | a connect is put to the application; a missing name is an error |
| ServerModule.ServerSession.OnCreateStream | src/sessions/server/mod.rs:1030-1057 | the client is told an ID that was never given; stream map, handles and wire index stay one set |
| ServerModule.ServerSession.OnCloseStream | src/sessions/server/mod.rs:964-1028 | a known stream returns to created and the application is told what ended |
| ServerModule.ServerSession.OnDeleteStream | src/sessions/server/mod.rs:1060-1133 | stream, handle and all its requests go together |
| ServerModule.ServerSession.OnPublish | src/sessions/server/mod.rs:1135-1253 | refused unless connected, known and well formed; otherwise a request naming a live stream |
| ServerModule.ServerSession.OnPlay | src/sessions/server/mod.rs:1255-1386 | the same for play |
| ServerModule.ServerSession.OnMedia | src/sessions/server/mod.rs:1388-1428 | an event exactly for a publishing stream, with its handle and key |
| ServerModule.ServerSession.Heed | src/sessions/server/mod.rs:342-489 | every message adds its step of the protocol to the run, or fails for a stated fault |
| ServerModule.ServerSession.Receive | src/sessions/server/mod.rs:277-340 | waiting outputs leave first; otherwise bytes are counted, acknowledged when due, and the message is handled; an error ends the session and is justified |
| ServerModule.Perform | src/sessions/server/mod.rs:277-489 | every step of a run has its protocol effect, or is refused for a stated reason |
| HandshakeModule.OffsetStable | src/handshake/mod.rs:410-422 | the digest fits and never overwrites the bytes that locate it |
| HandshakeModule.DigestRecognised | src/handshake/mod.rs:152-199 | a packet 1 of one role is always recognised by the other, for any random bytes and any digest function |
| HandshakeModule.Handshake.constructor | src/handshake/mod.rs:136-151 | nothing sent, nothing read |
| HandshakeModule.Handshake.GenerateOutbound | src/handshake/mod.rs:152-199 | version byte and stamped packet 1 |
| HandshakeModule.Handshake.ParseP0 | src/handshake/mod.rs:253-270 | waits for a byte; accepts version 3 only |
| HandshakeModule.Handshake.ParseP1 | src/handshake/mod.rs:271-342 | waits for 1536 bytes, then answers an echo or a signed packet |
| HandshakeModule.Handshake.ParseP2 | src/handshake/mod.rs:343-385 | waits for 1536 bytes, then hands back the rest |
| HandshakeModule.Handshake.ProcessBytes | src/handshake/mod.rs:200-251 | response, completion, leftover and error depend only on all bytes so far |
| HandshakeModule.Finality | src/handshake/mod.rs:200-251 | bytes behind a finished handshake only add to the leftover |
| HandshakeModule.BothComplete | src/handshake/mod.rs:136-385 | client and server with the same keys complete against each other with nothing left over, each recognising the other |
| PayloadViews.Payload.Push | src/payload.rs:80-93 | appends bytes; no empty segment is ever held |
| PayloadViews.PayloadReader.Read | src/payload.rs:201-215 | delivers the payload in order; nothing only at the end or without room |
| PayloadViews.Whole | src/payload.rs:346-362 | the view of a payload denotes all its bytes |
| PayloadViews.Seek | src/payload.rs:363-398 | finds the segment and offset of a position |
| PayloadViews.SeekEnd | src/payload.rs:363-398 | finds the last segment of a range and the end in it |
| PayloadViews.Slice | src/payload.rs:363-398 | slicing a view, nested to any depth, is slicing its bytes |
| PayloadViews.SegmentsDenote | src/payload.rs:399-421 | the segments of a view are nonempty and together are its bytes |
| FlvCursor.Cursor.Commit | src/flv.rs:78-83 | rebasing the cursor changes nothing that is left |
| FlvCursor.Cursor.ReadU8 | src/flv.rs:67-77 | reads across segment ends as on contiguous bytes |
| FlvCursor.Cursor.TakePart | src/flv.rs:103-111 | a payload is the subrange of the bytes |
| FlvCursor.Cursor.TakeRest | src/flv.rs:112-118 | all that is left |
| FlvCursor.Cursor.ReadModex | src/flv.rs:529-566 | the extension chain terminates and reads as on contiguous bytes |
| FlvCursor.Cursor.ReadHeader | src/flv.rs:568-655 | the same for the enhanced headers |
| FlvCursor.Cursor.ReadAudioPacket | src/flv.rs:702-739 | the same for audio packets |
| FlvCursor.Cursor.ReadVideoPacket | src/flv.rs:782-838 | the same for video packets |
| FlvCursor.Cursor.ReadTracks | src/flv.rs:664-700 | the track loop terminates and reads as on contiguous bytes |
| FlvCursor.ReadBody | src/flv.rs:741-780 | the same for single-track and multitrack bodies |
| FlvCursor.ReadLegacy | src/flv.rs:424-523 | the same for legacy tags |

## Left out

- MessageDecoderModule.MessageDecoder.DecodeInput: allows a limit error only if the limit it names is exceeded, but not only if the uncut stream would exceed it, because the partial-message check depends on how input is cut; likewise Receiving.ReceivePieces and Receiving.ReceivePiecesContiguous.
- RoundTrip.RunRoundTrip: a SetChunkSize message sent as ordinary data must name the size in use, and such a message or an Abort must be well formed, since the peer applies it; likewise SentLog.PeerDecodes and SentLog.ReleasedDecodes.
- Overtaking.OutOfOrderExactly: the client must find the end of the header, that is, a header that leaves out everything must be read with the same extended time or without one on both sides, and the record it borrows its length from must be one the client admits.
- Overtaking.EmittedExactly: leaves out a start status whose header leaves out everything, against a record of the right time, while the stamps of the five messages are more than 2^24 - 2 milliseconds apart or run backwards; likewise ServerPeer.PlayAnswered. Bodies fit the client's limits, and the start status is longer than the reset, as its text is.
- Overtaking.PreambleOvertaken: the message is at most a chunk long for both sides, or they have the same chunk size; a longer one is cut differently by the two, and what the client then reads depends on the payload.
- AfterPlay.NextCommand: the client must find the end of the header, as in Overtaking.OutOfOrderExactly; likewise ServerPlayed.CommandDecoded.
- ServerRuns.InOrder: needs the steps to be orderly, because the server does not keep the order otherwise; a step that fails half-way has encoded packets that never leave, which is why it is not orderly; likewise ServerRuns.RunDecodes. What is decoded after an accepted play is in ServerPlayed.
- ServerModule.ServerSession.Receive: the server takes the result of a decode step as given, the decoder being the one of the client, where ClientModule.ClientSession.Receive has it in place.
- Negotiation.Negotiator.Connect: the transaction number drawn is not that of an open transaction, which the source would overwrite after 2^32 numbers; likewise Negotiation.Negotiator.Create. ClientModule.Run has fewer than 2^32 - 1 requests, so that this and the 2^32 slots after which the source panics stay out of reach.
- StreamsModule.Streams.Insert: fewer than 2^32 slots, beyond which the source panics; generations wrap no slot, as a slot at the last generation is retired; likewise StreamsModule.Replay.
- Encoding.ChunkEncoder.EncodeMessage: payload segments are nonempty, as payloads and views keep them; the history array is compared with a map from chunk stream to header.
- AMF0 writer and reader are modelled on values; the buffer they append to and the cursor they advance are not.
- AMF3 numeric vectors, dictionaries and externalizable objects; UTF-8 validation; conversions between AMF0 and AMF3 values.
- Expansion.Install: builds the tree instead of overwriting values in place.
- Expansion.Expand: heap bytes are unbounded integers, where the source saturates; the path of open objects is one sequence for both arenas, where the source has one for each, which no reference can tell as the embedded arena never refers back.
- Negotiation.Negotiator.Pop: the session is split into a part that negotiates and a part that reads; outputs are queued behind the acknowledgement instead of being put in front of the queue again; the encoder is held as a value, which Encoding.ChunkEncoder is proved equal to.
- HandshakeModule.Handshake.GenerateOutbound: is called once, to open the handshake; a second call would stamp a new packet 1 over the old one.
- HandshakeModule.Handshake.ParseP2: the contents of packet 2 are not checked, as in the source.
- Capacities of buffers and the payload pool: a reservation is what was asked for.
- FLV metadata tables, codec mappings, decoder configuration contents beyond their checks, error texts.
- Session configuration builders, metadata messages, property maps of connect and of accepted connections, the negotiated object encoding, stream key contents.
- Network examples and the tokio adapter.
