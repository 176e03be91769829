# Verified model of serialrpc

serialrpc is a small remote procedure call runtime for ordered byte streams such as serial ports: a self-delimiting message
codec, a client that many threads share, a server that answers one request at a time while services emit events, and a code
generator that numbers endpoints and lists types for discovery. This project models that behaviour in Dafny and proves what
the protocol rests on. `dafny verify dfyconfig.toml` checks everything.

## The parts

**Codec** (`Wire`, `Schemas`, `Items`, `Encoder`, `Decoder`, `Reader`). Messages are schema-parametric, as the generator
emits one marshal/unmarshal pair per schema. The encoder is the runtime's streaming one: start tags of enclosing messages
wait on a mutable stack and reach the output only when a non-default scalar is written. Its specification is a recursive
*prune, then print*, and `WireFormat` gives the same bytes, and those of requests, server messages and the hello, without
either, down to single bytes; it also says what readers make of bytes that no writer sends. `RoundTrip`, `Evolution`,
`Fidelity`, `FieldOrder` and `Relay` prove decoding, skipping, schema evolution, exact round trips, the prefix property,
independence of field order, and relaying.

**Messages on the connection** (`Chunks`, `Frames`, `MessageIO`, `InputLoop`, `Hello`). A reply carries no id, no type and
no length: its extent follows from the oldest pending call, that of an event from the registered callback, that of a request
from the dispatch table. The readers take those as parameters. A parse result is `Done`, `Short` (more bytes are needed) or
`Bad`; every reader is shown never to change a `Done` or `Bad` when more bytes arrive.

**Session** (`Channels`, `Session`, `Streams`, `Lockstep`, `LockstepSteps`, `Subscriptions`, `Deliveries`, `Safety`,
`Guarantees`, `Progress`, `Emitters`, `Uses`). Callers, the input worker, the server and its emitters as a step relation
over two byte channels. Bytes move one step at a time from writer to buffer to peer. The invariant ties the byte streams to
the pending queue; the main results hold in every state of every run, and `Uses` shows, from every such state, what can
still be done: any call answered in any way, any endpoint subscribed, events received, and unsubscribed again.

**Life cycle with errors** (`Control`, `Lifecycle`, `Alone`, `Signals`, `Returns`, `Stranded`). `start`, `close`, `wait`,
calls, `fail` and the worker's parking error handler, interleaved at every access to shared state; `Alone` says what each of
them does when nothing comes in between. In `Control` any thread asleep on the condition variable may wake at any time; in
`Signals` and `Returns` a signal wakes one of them and a broadcast all. `Stranded` adds the list of pending calls. **Pending
calls** (`PendingQueue`, `Handoff`): the intrusive linked queue as a class, and who may touch a call record until when.

**Generator and tool** (`Endpoints`, `TypeTable`, `Discovery`, `Catalog`, `CatalogReading`, `ToolCalls`, `ToolCodec`,
`SizeBound`, `Uuid`). Endpoint numbers, the closure of types a service needs, discovery, its transport and what the tool
makes of it, the tool's own message codec, the message size bound, and UUID text.

`hide F;` at the head of a proof keeps the body of `F` out of that proof; it only removes facts.

## Where the code and its promises differ

- README.md:401-402 promises booleans without a payload; the code writes a byte 1 (encoding_impl.cc:282-293). The model
  follows the code.
- README.md:264-265 promises raw lines that begin with any ASCII whitespace; a form feed is refused (internal.cc:6-12;
  `Frames.FirstByteDecides`).
- Field numbers from 2^28 on do not survive `write_tag`/`read_tag` (`Wire.TagRoundTrip`, `Wire.TagLosesLargeFieldNumbers`).
- A round trip turns negative floating-point zeros into zero and drops repeated elements with nothing in them; it is exact
  for all other messages and no others (`Fidelity.RoundTripExact`, `Fidelity.NegativeZeroIsLost`,
  `Fidelity.EmptyElementIsLost`).
- An empty piece handed to `write_chunked` ends the text early for the reader and leaves the rest of it behind as if it were
  the next message (`Chunks.ChunksRoundTrip`, `Chunks.EmptyPieceEndsTheText`).
- `wait` (client.cc:69) and a late `start` (client.cc:264) dereference the error pointer without the test that
  `check_running` makes (client.cc:173). It is nil when `fail` made the state Failing. `Lifecycle.WaitAfterFailedRequest`
  and `Lifecycle.StartAfterEarlyCall` give runs; `Lifecycle.WaitCrashesExactlyWhen` and `Lifecycle.StartCrashesExactlyWhen`
  say of every call when.
- `close` may never return. `fail` makes the state Failing without waking anybody (client.cc:194-210), so that the worker
  may park while a thread is still asleep in `wait`; the one signal of `close` (client.cc:98) may wake that thread instead
  of the worker it then joins (`Signals.CloseMayHang`). `Returns.CloseMayHangExactlyWhen` says which calls of `close` may
  hang: those that find the state Failed with the worker asleep, or Failing with a thread asleep in `wait` and a live
  worker. None may where no thread calls `wait` (`Returns.NobodyWaitingCloseReturns`).
- `start` may sleep on after a good hello. The worker's one signal (client.cc:600) may wake a thread in `wait`, which goes
  back to sleep without passing it on (`Signals.StartMaySleepOn`). `Returns.StartReturnsExactlyUnlessForgotten` says exactly
  when; it never happens while nobody waits (`Returns.NobodyWaitingStartWakes`).
- A call may sleep for ever. The worker's error handler empties the list of pending calls before it makes the state Failing
  (client.cc:296-307), and a caller that had passed its check by then pushes its record afterwards (client.cc:126-145); only
  the `fail` of a later call finds it (`Stranded.ToldExactlyBeforeTheSweep`, `Stranded.CallMayBeLeft`). A caller whose own
  reply cannot be read is not in the list any more and sleeps until `close`, `wait` or `start` takes the error
  (`Stranded.TornCallerSleepsOn`); it is then told without an error (`InputLoop.HandleReply`).
- The tool's decoder merges a submessage that occurs twice where generated code overwrites it, and skips unknown fields one
  level deeper (cmd/serialrpc/call.cc:179, 244-247; `ToolCodec.ToolReadsTheSame`, `ToolCodec.DuplicatedSubmessageIsMerged`).
- `maxMessageSize` counts fixed-width integer fields as 4 or 8 bytes, but they are sent as varints and keep to that exactly
  below 2^28 and 2^56, or within 2^27 and 2^55 when signed (`SizeBound.FixedFieldsAreUndercounted`). A message may exceed
  the bound (`SizeBound.LargestFixed32ExceedsTheBound`); one whose fixed-width fields are narrow and whose arrays have at
  most their declared size does not (`SizeBound.MessageFits`).
- The server sends the names of methods, fields and types whatever their length (server_impl.cc:52-113), and nothing limits
  them in the generator, but the tool reads them into 64 or 128 bytes. One longer name makes `list_services`, and with it
  every call of the tool, fail (`Catalog.CatalogArrives`, `Catalog.LongNameStopsTheTool`).

## Model

| member | source | states |
|---|---|---|
| Wire.ReadUint32RoundTrip | README.md:412-416 | a 32-bit varint followed by anything is read back as itself and leaves what follows |
| Wire.ReadUint64RoundTrip | README.md:429-434 | the same for 64 bits |
| Wire.ReadUint32Settled | encoding_impl.cc:15-19 | more input never changes a varint already read or refused |
| Wire.SplitTagValue | encoding_impl.cc:21-28 | the shifts of `write_tag` and `read_tag` are inverse exactly for field numbers that fit 29 signed bits |
| Wire.TagRoundTrip | encoding_impl.cc:15-29 | a tag survives the wire exactly for those field numbers |
| Wire.TagLosesLargeFieldNumbers | encoding_impl.cc:15-29 | the largest protobuf field number is read back as -1 |
| WireFormat.VarintSpelledOut | README.md:429-437 | a varint is its number in base 128, lowest digit first, with no digits to spare |
| WireFormat.ReadersAcceptExactly | README.md:429-437 | readers accept exactly the varints of at most 5 or 10 bytes whose value fits 32 or 64 bits |
| RoundTrip.ZigZagRoundTrip | README.md:403-405 | the signed encoding is inverted by the signed decoding and fits the unsigned range |
| Encoder.Stack.Push | encoding.cc:42-47 | pushes unless 128 tags are pending |
| Encoder.Stack.Pop | encoding.cc:49-54 | removes the last pending tag |
| Encoder.Stack.Clear | encoding.cc:56-58 | nothing is pending |
| Encoder.WriteTags | encoding_impl.cc:186-196 | writes a start tag for every pending field number in order, then the field's own tag, and nothing is pending any more |
| Encoder.MarshalScalar | encoding_impl.cc:198-336 | zero, false, an empty string and either floating-point zero change nothing at all; any other scalar flushes the pending tags and writes its tag and payload |
| Schemas.DefaultExactlyWhenHollow | encoding_impl.cc:198-336 | what the encoder leaves out are the values all of whose scalars are these |
| WireFormat.EncodingSpelledOut | README.md:412-444 | the encoding of a message, byte by byte: tags, payloads of every kind, submessages and end tags, without the two steps of pruning and printing |
| Encoder.MarshalField | encoding.cc:77-92 | the streaming encoder's effect on output and stack is that of printing the pruned field: all or nothing; it fails exactly when the stack runs out |
| Encoder.MarshalAll | encoding.cc:111-121 | the same for every element of a repeated field |
| Encoder.MarshalColumns | cmd/serialrpcgen/protoc_serialrpc_plugin.cc:1436-1466 | the same for the fields of a message |
| Encoder.Marshal | encoding.cc:123-131 | a top-level message: the pruned tree printed, and an end tag |
| Encoder.NestingBound | encoding.cc:36-47 | submessages at most 128 deep never overflow the stack, and an empty message overflows it exactly beyond that |
| Encoder.NestRank | cmd/serialrpcgen/serialrpc_objects.cc:928-935 | as messages refer only to earlier ones, depth is bounded by the number of types |
| Items.PrunedAwayExactlyWhenDefault | encoding.cc:77-92 | a message leaves bytes exactly when some scalar in it is not blank |
| Decoder.SkipFieldSettled | encoding_impl.cc:31-85 | skipping never changes its mind when more bytes arrive |
| Decoder.DecodeSettled | encoding.cc:133-140 | neither does decoding, whatever the bytes |
| Reader.Input.ReadTag | encoding_impl.cc:15-24 | consumes exactly the tag |
| Reader.Input.Skip | encoding_impl.cc:31-85 | the recursive, looping `skip` terminates on any bytes and consumes exactly one field's payload, nested groups included |
| Reader.Input.UnmarshalValue | encoding.cc:133-140 | one value, refusing submessages beyond the nesting bound |
| Reader.Input.UnmarshalFields | cmd/serialrpcgen/protoc_serialrpc_plugin.cc:1468-1525 | the generated field loop computes the decoding function and leaves its rest unread |
| Reader.Input.Unmarshal | encoding.cc:133-140 | a top-level message |
| WireFormat.EmptyMessage | cmd/serialrpcgen/protoc_serialrpc_plugin.cc:1468-1525 | an end tag of any number ends a message, and fields that were not sent hold zero, false, an empty string, nothing, or an empty submessage |
| WireFormat.AnyWireType | cmd/serialrpcgen/protoc_serialrpc_plugin.cc:1487-1510 | a known scalar is read whatever the wire type in its tag |
| WireFormat.UnknownFieldsSkipped | encoding_impl.cc:31-85 | how much is skipped for each wire type; the two without a meaning are refused |
| WireFormat.TooDeep | encoding_impl.cc:51-71 | 128 groups within each other are passed over and 129 refused where no field of them is known |
| WireFormat.ScalarsRefused | encoding_impl.cc:391-404 | a string longer than its field and a bool other than 0 and 1 are refused |
| RoundTrip.SkipBody | encoding_impl.cc:31-85 | skipping a printed field stops right behind it, for every wire type |
| RoundTrip.SkipPrinted | encoding_impl.cc:51-71 | skipping a printed group stops right behind its end tag, and fails exactly when groups nest too deeply |
| RoundTrip.DecodePrinted | cmd/serialrpcgen/protoc_serialrpc_plugin.cc:1468-1525 | decoding printed fields stores them in order and stops behind the end tag, and fails exactly when groups nest too deeply or a string is longer than the reader's field for it |
| RoundTrip.DecodeScalarRoundTrip | encoding_impl.cc:391-404 | a scalar is read back as itself, and a string exactly when the reader has the room for it |
| Evolution.DecodeEncoded | encoding.cc:123-140 | a reader under any compatible schema, string capacities aside, recovers exactly the projection of the message, in any field order, at any depth, and leaves what follows; it fails exactly beyond depth 128 or when it has no room for a string |
| Fidelity.ConvertTyped | cmd/serialrpcgen/protoc_serialrpc_plugin.cc:1468-1525 | what a reader with the room recovers fits its own schema |
| Fidelity.RoundTripExact | encoding.cc:111-140 | with one schema on both sides decoding succeeds, and gives back the message itself exactly when no float holds the pattern of negative zero and no repeated element has blank scalars only |
| Fidelity.NegativeZeroIsLost | encoding_impl.cc:198-336 | a message holding negative zero comes back with zero |
| Fidelity.EmptyElementIsLost | encoding.cc:111-121 | a message with one empty string in a repeated field comes back without it |
| Fidelity.AnotherVersion | README.md:441-444 | a reader that has lost one field, gained another and moved a third reads the one it shares |
| Fidelity.ProperPrefixWaits | README.md:256-260 | encodings form a prefix code: a reader of a proper prefix waits, and never stops or fails |
| FieldOrder.OrderIndependence | cmd/serialrpcgen/protoc_serialrpc_plugin.cc:1487-1510 | two interleavings of the same fields, at every level, decode to the same message or both fail |
| Relay.SameColumns | cmd/serialrpc/call.cc:44-149 | what a peer that knows the message's fields writes is a reordering of what it read |
| Relay.ConvertTwice | cmd/serialrpc/call.cc:129-149 | reading and writing a message anew with all its fields changes nothing for any later reader |
| Relay.RelayedReadsTheSame | cmd/serialrpc/call.cc:44-149 | the bytes of a peer that knows the message's fields, in its own order such as that of the field numbers, are read as the original bytes are |
| ToolCodec.UnmarshalFields | cmd/serialrpc/call.cc:161-255 | the tool's field loop computes its reading function and leaves its rest unread |
| ToolCodec.ReadPrinted | cmd/serialrpc/call.cc:161-255 | the tool stores printed fields in order, merging submessages, and stops behind the end tag |
| ToolCodec.ToolReadsTheSame | cmd/serialrpc/call.cc:161-255 | the tool reads an encoding as generated code does, save exactly one that goes to depth 129 only in fields it does not know |
| ToolCodec.SkipsOneDeeper | cmd/serialrpc/call.cc:161-190 | the tool passes over 129 such groups and refuses 130 |
| ToolCodec.DuplicatedSubmessageIsMerged | cmd/serialrpc/call.cc:242-248 | bytes that the two decoders read differently |
| ToolCodec.ToolRelays | cmd/serialrpc/call.cc:129-149 | what the tool has read it never refuses to write, and every reader gets the same from it |
| Chunks.ReadChunkBytes | encoding_impl.cc:339-389 | what reading chunks gives, with an empty chunk, too long a text, or neither |
| Chunks.ChunksRoundTrip | encoding_impl.cc:339-389 | an error text survives exactly when no chunk is empty and the total is at most 16384 bytes |
| Chunks.EmptyPieceEndsTheText | encoding_impl.cc:339-389 | of a text with an empty piece the reader gets the part before it and takes the rest for what follows |
| Chunks.WriteChunked | encoding_impl.cc:339-361 | every piece becomes one chunk |
| Chunks.ReadChunked | encoding_impl.cc:363-389 | computes the chunk reading function in place |
| WireFormat.RequestsTypedExactly | client.h:250-377 | what callers may send: a body of the request type at most 128 submessages deep, or none |
| WireFormat.RequestSpelledOut | README.md:306-334 | a request byte by byte: endpoint id, enable flag, and a body unless it is void or an unsubscribe request |
| WireFormat.RequestsDecided | server_impl.cc:352-372 | id 0 is a goodbye, one beyond the table unknown, and any flag but 0 subscribes |
| WireFormat.FrameSpelledOut | README.md:338-387 | a server message byte by byte: its marker and what belongs to it |
| WireFormat.RepliesByKind | cmd/serialrpcgen/protoc_serialrpc_plugin.cc:2553-2594 | a unary reply has the endpoint's response type, the reply to a streaming request is its marker alone |
| Frames.ReadBodyBytes | encoding.cc:123-140 | a body is read back whole, whatever follows, exactly when the reader has the room for its strings |
| Frames.ReadRequestBytes | server_impl.cc:352-367 | the server reads a caller's request back whole, body included, whatever follows, or refuses it exactly when it has no room for a string |
| Frames.ReadRequestSettled | server_impl.cc:352-367 | more bytes never change a request already read or refused |
| Frames.ReadFrameBytes | client.cc:324-404 | a server message the client expects is read back whole, whatever follows, or refused exactly when the client has no room for a string |
| Frames.ReadFrameSettled | client.cc:324-404 | more bytes never change a server message already read or refused |
| Frames.FirstByteDecides | internal.cc:6-12 | 32 to 126, 9, 10, 11 and 13 begin a raw line, which is waited for up to its newline; five markers begin messages; every other byte is refused |
| Frames.HelloByteDecides | client.cc:560-584 | before the hello everything but raw lines, log records of up to 16384 bytes and the hello byte is refused |
| Frames.TextIsTransparent | client.cc:397-400 | any raw text lines before a server message leave what is read unchanged, errors and waiting included |
| Frames.TextBeforeHello | client.cc:560-578 | raw lines and log records before the server's hello change nothing |
| InputLoop.HandleReply | client.cc:466-483 | pops the oldest call, reads the body of its type, and notifies it even when reading fails |
| InputLoop.HandleErrorReply | client.cc:528-547 | pops the oldest call and hands it the error text |
| InputLoop.HandleEvent | client.cc:212-227 | reads the body of the registered callback's type; an unknown id is an error |
| InputLoop.HandleLog | client.cc:408-430 | reads a log record of at most 16384 bytes |
| InputLoop.PrintLine | client.cc:20-34 | reads to the next newline |
| InputLoop.ReadMessage | client.cc:324-405 | one iteration of the input loop reads exactly one message of the specification, gives an answer to the oldest call only, and leaves every other record alone |
| MessageIO.WriteRequest | client.h:250-285 | endpoint id, enable flag and body; the encoder never runs out of stack |
| MessageIO.ReadOneRequest | server_impl.cc:352-367 | computes the request reading function in place |
| MessageIO.WriteMessage | server.cc:254-296 | marker, event id and body of a server message |
| MessageIO.SendEvent | server_impl.cc:278-285 | an event goes out under the kept dispatch index plus one |
| Channels.FlushKeepsBytes | client.cc:189-192 | flushing any part of the buffer keeps the stream's bytes in order |
| Streams.HeadRequest | server_impl.cc:352-367 | on any part of the stream that has arrived, the server waits or gets the first request in flight whole |
| Streams.HeadFrame | client.cc:324-404 | on any part of the stream that has arrived, the worker waits or gets the first message in flight whole |
| LockstepSteps.DispatchReads | server_impl.cc:352-367 | the server reads the first unread request, or the close byte once there is none |
| LockstepSteps.HeldBack | client.cc:131-146 | until a call record is pushed the server has nothing of its request to read |
| Deliveries.AnswerDown | server.cc:254-272 | an answer joins the stream behind all messages in flight, in the order of the calls |
| Subscriptions.BeginSubs | cmd/serialrpcgen/protoc_serialrpc_plugin.cc:3018-3053 | subscribing and unsubscribing keep endpoint, callback, service and messages in flight in agreement |
| Subscriptions.NotifySubs | cmd/serialrpcgen/protoc_serialrpc_plugin.cc:3048-3053 | once the answer that ends a stream is read, no event of that stream is left |
| Safety.HeadExpected | client.cc:212-221 | the worker always expects the message that comes: the reply of the oldest call, or an event with a registered callback |
| Safety.BeginInv | client.h:125-142 | taking the lock and beginning a request keeps the whole invariant |
| Safety.PushInv | client.cc:137-145 | so does pushing the record between the endpoint id and the body |
| Safety.DispatchInv | server_impl.cc:352-372 | so does reading a request or the close byte |
| Safety.AnswerInv | server.cc:254-272 | so does answering |
| Safety.EmitInv | server.cc:274-296 | so does emitting an event between any two other messages |
| Safety.ReceiveInv | client.cc:324-405 | so does reading a server message, which never fails |
| Guarantees.StepInv | client.cc:123-146 | every action of every thread keeps it |
| Guarantees.CallsStayInLockstep | client.cc:439-483 | in every run no reader reports an error, the server reads what callers sent in the order they took the lock, the queue is exactly the unanswered calls, and each caller gets the answer to its own request |
| Guarantees.EventsReachTheirSubscription | client.cc:212-227 | in every run callbacks run for a prefix of the events emitted, in order, each for the subscription that produced it |
| Guarantees.CloseDrains | client.cc:112-116 | `close` returns only after the worker, and when the worker returns at the goodbye, every call was answered and notified, and the queue is empty |
| Progress.InternalGetsCloser | client.cc:75-146 | every step that finishes something begun leaves less to do, in a well-founded order |
| Progress.NeverStuck | client.cc:75-121 | on a connection without errors, in every reachable state with anything left to do some such step is possible, `close` joining the worker under the call lock included |
| Progress.EverythingSettles | client.h:111-149 | after any run, every call made so far can be answered, with whatever answers of the right types services choose, and its caller notified, and a close that was begun can return |
| Emitters.EmitExactly | cmd/serialrpcgen/protoc_serialrpc_plugin.cc:2553-2594 | in every run a service may emit exactly while it has read a subscribe request it did not refuse and has answered no unsubscribe request since |
| Emitters.SubscribedMayEmit | server.cc:274-296 | while a caller is subscribed the service may emit any event between any two messages, for that subscription |
| Uses.MayBeginExactly | client.h:111-149 | when log records, raw lines, calls, closes and subscriptions may begin |
| Uses.AnyCallAnyAnswer | client.h:111-149 | from every state with a free call lock any request can be made, reaches the server as it was made, and can be answered in any way its type allows, to its own caller |
| Uses.EventReachesItsCallback | client.cc:212-227 | from every state in which a caller is subscribed any event can be emitted and runs the callback of that subscription, behind the events already on their way and no others |
| Uses.SubscriptionsWork | cmd/serialrpcgen/protoc_serialrpc_plugin.cc:3018-3060 | from every state with a free call lock a streaming endpoint not in use can be subscribed, an event received from it, and it can be unsubscribed and its callback removed |
| PendingQueue.Queue.Push | client.cc:137-145 | the linked list refines a sequence: appends at the end and changes nothing else |
| PendingQueue.Queue.Pop | client.cc:439-451 | removes the oldest, or reports that there is none |
| PendingQueue.Queue.FailPendingCalls | client.cc:453-464 | the sweep empties the queue, and every call in it is marked with the error and notified |
| Handoff.PoppedOnceInOrder | client.cc:439-464 | in every run each pushed record is either still queued or was popped exactly once, oldest first |
| Handoff.NeverTouchedAfterReturn | client.cc:690-709 | in every run no step touches the record of a caller whose wait has returned |
| Handoff.ReturnMeansFinished | client.cc:690-709 | a wait returns only after its record was popped and its popper's last store |
| Handoff.AccessedExactly | client.cc:137-145 | which records a step touches: the new and the last one for a push, the oldest for a pop |
| Handoff.WaitCanReturn | client.cc:690-709 | from every reachable state every pushed record's wait can return |
| Control.StepInv | client.cc:48-317 | every step of a caller, a waiter or the worker keeps the life-cycle invariant: one owner of the condition mutex, the error pointer set exactly in the handler, one worker, the output's shape |
| Lifecycle.StateMoves | client.h:80-89 | the only moves the state ever makes |
| Lifecycle.PhasesOnlyAdvance | client.cc:229-288 | in every run phases only advance, at most one worker starts, and the branch waiting for another `start` is never taken |
| Lifecycle.OutputKeepsItsShape | client.cc:108-121 | in every run the bytes written are one hello, whole requests, then at most one goodbye or truncated request, and nothing after |
| Lifecycle.BorrowedErrorIsAlive | client.cc:278-317 | in every run the error pointer refers to a live error or is nil; under the mutex it is set exactly when the worker is parked, and after the handshake always |
| Lifecycle.CrashesExactlyWhenNotParked | client.cc:56-73 | a step dereferences nil exactly when it is the read in `wait` or a late `start` and the worker is not parked |
| Lifecycle.WaitCrashesExactlyWhen | client.cc:56-73 | from any reachable state a call to `wait` may dereference nil exactly when the state is Failing and the worker is not parked |
| Lifecycle.StartCrashesExactlyWhen | client.cc:258-268 | from any reachable state with the condition mutex free a call to `start` may dereference nil exactly when the state is Failing and the worker is not parked |
| Lifecycle.StartAfterEarlyCall | client.cc:258-268 | a run in which `start` dereferences nil after a call made too early |
| Lifecycle.NoCrashUnlessForced | client.cc:194-210 | without a `fail` that sets Failing there is no such step |
| Lifecycle.WaitAfterFailedRequest | client.cc:56-73 | a run in which `wait` dereferences nil after a request could not be written |
| Alone.CallAlone | client.cc:123-210 | a call alone writes one request on a running client and nothing on any other, which it makes Failing unless it has failed |
| Alone.FailedWrite | client.cc:148-192 | a write that fails leaves a truncated or a whole request and makes the call give up; a goodbye that fails is left out |
| Alone.GiveUpAlone | client.cc:194-210 | `fail` alone makes the client Failing unless it has failed |
| Alone.CloseAlone | client.cc:75-121 | `close` alone leaves the client Closed, with a goodbye written if it was running, and joins |
| Alone.JoinReturnsExactly | client.cc:112-121 | it returns exactly when there is no worker or it has finished |
| Alone.StartAlone | client.cc:229-276 | the first `start` spawns the worker; a later one takes the error of a client that is Failing and changes no other |
| Alone.HelloAlone | client.cc:278-288 | after the hello `start` returns, or takes the error if the hello failed |
| Alone.WaitAlone | client.cc:56-73 | `wait` alone takes the error of a client that is Failing and changes no other |
| Alone.ErrorAlone | client.cc:290-317 | the worker's error handler makes the client Failing and parks with the error, or drops it when the client is Closed or has failed |
| Alone.WokenAlone | client.cc:309-317 | a woken worker parks again until the error is taken or the client is closed, and then finishes |
| Alone.GoodbyeAlone | client.cc:384-389 | a goodbye ends the worker exactly when the client is Closed |
| Alone.WholeLife | client.cc:75-146 | a run from a new client that writes a hello, one request and a goodbye and leaves nothing behind |
| Signals.RunsAreRuns | client.cc:56-121 | runs with exact signals are among the runs of the life cycle, so its guarantees hold for them |
| Signals.ReturnsExactlyUnlessDoomed | client.cc:75-121 | in every reachable state the thread holding the call lock, in `start`, `close` or a call, can return or dereference nil exactly unless it is in a `close` that has no signal left to send and the worker is asleep |
| Signals.CloseMayHang | client.cc:75-121 | a run after which no continuation lets `close` return |
| Signals.StartMaySleepOn | client.cc:278-282 | a run after which `start` sleeps for as long as nothing goes wrong on the connection |
| Returns.StartReturnsExactlyUnlessForgotten | client.cc:278-288 | in every reachable state of the handshake `start` can return on a sound connection exactly unless it is asleep with the hello over |
| Returns.NobodyWaitingStartWakes | client.cc:278-288 | a `start` begun with nobody in `wait` is never left asleep while nobody calls `wait` |
| Returns.CloseMayHangExactlyWhen | client.cc:75-121 | of every call of `close`: it may hang exactly when it finds the state Failed with the worker asleep, or Failing with a thread asleep in `wait` and a worker that is asleep or may park |
| Returns.NobodyWaitingCloseReturns | client.cc:75-121 | without threads in `wait` no call of `close` can hang |
| Stranded.OnlyLatecomersAreLeft | client.cc:290-317 | in every run, once the worker has emptied the list for its error, the callers in it are those that pushed since, and a `fail` leaves nobody |
| Stranded.CallsAndReplies | client.cc:123-146 | with nothing in between a caller pushes its record and its request is written, and the worker takes the oldest record for a reply and is done with it |
| Stranded.ToldExactlyBeforeTheSweep | client.cc:290-317 | a caller in the list may still be told without a further call exactly while the worker reads or is about to empty the list |
| Stranded.LaterCallTellsEverybody | client.cc:148-183 | a call that finds the client not running has told everybody when it returns |
| Stranded.CallMayBeLeft | client.cc:123-146 | a run after which a caller that wrote its request without an error is never told unless another call is made |
| Stranded.TornCallerSleepsOn | client.cc:466-483 | the caller of a reply that could not be read is not told by any number of calls |
| Stranded.CallerMayBeTorn | client.cc:466-483 | a run that leads there |
| Endpoints.PlaceIsCount | cmd/serialrpc/call.cc:469-476 | a method's place in the sorted list is the number of methods with smaller ids in any order |
| Endpoints.ConcatenateArrays | server.cc:83-95 | the array filled with a running offset is the services' tables one after the other |
| Endpoints.CallEndpoint | cmd/serialrpc/call.cc:452-486 | the tool's scan computes its endpoint function, giving up at a service without the method |
| Endpoints.ThreeWayAgreement | cmd/serialrpcgen/protoc_serialrpc_plugin.cc:2318-2333 | the server's table entry, the stub's number and the tool's number of a method agree |
| Hello.DefNotDefault | server.cc:57-65 | no ServiceDef is ever left out by the encoder |
| Hello.SendServiceDescription | server.cc:200-206 | writes the service as a field of the hello through an encoder with an empty stack |
| Hello.SendHello | server_impl.cc:310-325 | version, services in order, and an end tag |
| WireFormat.ServiceSpelledOut | server.cc:57-65 | a service in the hello byte by byte: UUID, versions and number of endpoints in fields 1 to 4 |
| WireFormat.HelloSpelledOut | server_impl.cc:310-345 | the hello byte by byte: protocol version 1, the services and an end tag |
| Hello.HandleServiceDef | client.cc:652-685 | the first stub of the service learns the offset and no other stub changes; it is refused exactly for another major version or a later minor one |
| Hello.ReadServicesDef | client.cc:603-650 | the loop with its running offset computes the reading function, on any bytes |
| Hello.ReadHelloBytes | client.cc:603-650 | on the server's bytes the stubs learn exactly what the service list says |
| Hello.VersionsDecide | client.cc:652-685 | of all service lists and stubs: the hello's bytes are refused exactly when some service's first stub has another major version or a later minor one |
| Hello.LearnMeaning | client.cc:652-685 | otherwise each stub knows where its service's endpoints begin |
| Hello.StubsReachTheirMethods | client.cc:607-627 | from the hello's bytes on, the call a stub makes for a method reaches that method's entry in the dispatch table |
| Hello.EventsReachTheirStubs | server_impl.cc:278-285 | an event's id is the id under which a stub registers a method's callback exactly for the method whose dispatch index the emitter keeps |
| TypeTable.Collector.Collect | cmd/serialrpcgen/protoc_serialrpc_plugin.cc:94-116 | terminates on cyclic graphs, keeps what was listed, lists nothing twice, and covers the fields of every message it adds |
| TypeTable.CollectServiceTypes | cmd/serialrpcgen/protoc_serialrpc_plugin.cc:118-131 | lists exactly the messages reachable from the methods and the enums these mention, without repetition |
| Discovery.TypeId | server_impl.cc:41-48 | the one-based place of a type, 0 if it is not listed |
| Discovery.IdAt | server_impl.cc:41-48 | listed types have distinct, non-zero ids |
| Discovery.BuildMethodDescriptor | cmd/serialrpc/call.cc:276-410 | accepts a description exactly when ids, kinds, codes and references are right, and builds it entry by entry, streaming flags included |
| Discovery.BuildableExactly | cmd/serialrpc/call.cc:276-410 | that condition written out: ids, type codes 11 and 14, field codes 1 to 18 without 10, references and the method's types |
| Discovery.DescriptionNames | server_impl.cc:102-143 | what is sent for a type: its place, its kind, its name, and its fields or values |
| Discovery.DiscoveryRebuildsTheSchema | cmd/serialrpc/call.cc:276-410 | for every type graph every listed type has its own id, and the tool accepts what the server sends and rebuilds it with every reference leading to the right type |
| CatalogReading.CatalogReadBack | server_impl.cc:52-235 | from the bytes the server sends the tool reads, field by field by its number, the very services, methods, types, fields and enum values described, or refuses them for a long name |
| CatalogReading.SchemaFromBytes | cmd/serialrpc/call.cc:276-410 | from those bytes on, each method's request and response ids reach a description the tool accepts, lead to the right types, and every rebuilt entry mirrors its type |
| Catalog.CatalogArrives | server_impl.cc:52-235 | the tool reads back every service, method, type, field and enum value the server described, in order, when the names of methods, fields and types fit its strings, and fails otherwise |
| Catalog.LongNameStopsTheTool | encoding_impl.cc:391-404 | one method with a name of 65 bytes makes the tool refuse the catalog |
| ToolCalls.ToolReachesMethods | cmd/serialrpc/call.cc:440-486 | from the catalog's bytes on, the endpoint id the tool computes for a method is that of the method's entry in the dispatch table |
| Uuid.UuidStringToBytes | cmd/serialrpcgen/serialrpc_objects.cc:177-209 | accepts exactly the 8-4-4-4-12 form and returns the bytes written in it |
| Uuid.FormSpelledOut | cmd/serialrpcgen/serialrpc_objects.cc:177-209 | the form character by character, digits of either case |
| Uuid.BytesSpelledOut | cmd/serialrpcgen/serialrpc_objects.cc:165-209 | each byte is its two digits, the high one first, from left to right |
| Uuid.FormatUuid | internal.cc:14-22 | the loop prints bytes with dashes before bytes 4, 6, 8 and 10 |
| Uuid.ParsePrinted | cmd/serialrpcgen/protoc_serialrpc_plugin.cc:324-333 | parsing a printed UUID returns its bytes |
| Uuid.PrintParsed | internal.cc:14-22 | printing a parsed text gives the text in lower case |
| SizeBound.MaxVarIntSize | cmd/serialrpcgen/protoc_serialrpc_plugin.cc:65-75 | is the length of the varint |
| SizeBound.TagLength | cmd/serialrpcgen/serialrpc_objects.cc:454-520 | a tag's length does not depend on its wire type |
| SizeBound.MessageFits | cmd/serialrpcgen/serialrpc_objects.cc:440-579 | every message whose fixed-width fields are narrow and whose arrays have at most their declared size is, without its end tag, at most the bound |
| SizeBound.BoundIsReached | cmd/serialrpcgen/serialrpc_objects.cc:440-579 | the bound is exact: some message that keeps to the declarations is just as long, unless a string can hold nothing or a submessage is counted with more than one byte of length |
| SizeBound.SubmessagesCountTheirLength | cmd/serialrpcgen/serialrpc_objects.cc:493-501 | a submessage of 203 bytes counts 206 |
| SizeBound.ComputeMaxMessageSize | cmd/serialrpcgen/serialrpc_objects.cc:440-579 | 32-bit arithmetic computes the bound whenever the bound fits 32 bits |
| SizeBound.FixedFieldsAreUndercounted | cmd/serialrpcgen/serialrpc_objects.cc:468-525 | fixed32, sfixed32, fixed64 and sfixed64 values keep to the 4 or 8 bytes counted exactly when they are narrow |
| SizeBound.OneFixedField | cmd/serialrpcgen/serialrpc_objects.cc:468-525 | a message of one such field keeps to the bound exactly when its value is narrow |
| SizeBound.LargestFixed32ExceedsTheBound | cmd/serialrpcgen/serialrpc_objects.cc:475-478 | a message of 6 bytes with a bound of 5 |

## Left out

- The varint library is not part of this model: varints are base 128, at most 5 or 10 bytes, and an overflow is an error.
- I/O errors of writers inside the codec; in `Control` a write may fail at any point, in the session machine it does not.
- Floating point: floats are bit patterns with a test for zero.
- Enum fields inside messages are plain 32-bit integers.
- Repeated fields with a size limit: the codec has none, and only `SizeBound` knows of the declared sizes.
- Optional fields: `SizeBound` counts them as the generator does, like fields that are not; the codec has no form for them.
- Guarantees.CallsStayInLockstep: covers connections after the handshake on which no error is reported, no endpoint is
  unknown and the server does not say goodbye unasked; `Control` and `Stranded` cover the error paths without the bytes. A
  service is taken to report at most one error for a request, in pieces none of which is empty and at most 16384 bytes
  together: the server writes an error reply for every report, and a second one would be popped by the next caller without
  any reader noticing. Messages fit the string fields of their reader; `Frames.ReadRequestBytes` and `Frames.ReadFrameBytes`
  say what is read when they do not.
- Guarantees.EventsReachTheirSubscription: an application uses an endpoint for one subscription at a time, and a service
  emits only from reading a subscribe request to its answer to the unsubscribe request.
- Progress.EverythingSettles: services are taken to answer, and connections to stay free of errors; new calls, events and
  raw text can put off the end for as long as they keep coming.
- Handoff.NeverTouchedAfterReturn: callers that give up early without waiting are not covered.
- Lifecycle.PhasesOnlyAdvance: Closed is not final, as a call after `close` makes the state Failing.
- Progress.NeverStuck: the condition mutex is not in the session machine but in `Signals`; the mutex of the pending list is
  in neither, as no other lock is taken while it is held.
- Relay.RelayedReadsTheSame: the tool's limit on its own writing is in `ToolCodec.ToolRelays`; messages with submessages
  that are present but hold nothing, which protobuf tells from absent ones, are not modelled.
- Signals.ReturnsExactlyUnlessDoomed: speaks of what can still happen, not of fair schedules; a thread asleep in `wait`
  while the connection is sound is meant to sleep.
- A buffer smaller than an endpoint id: nothing of a request is flushed before its call record is pushed.
- A client without a connection, for which `close` returns at once.
- Cleaning up subscriptions when the goodbye itself cannot be written.
- Types imported from other files, name qualification, and protobuf's own descriptor pool, dynamic messages and text format.
- Discovery.DiscoveryRebuildsTheSchema: that protobuf's pool accepts the rebuilt file is not modelled.
- Discovery.BuildMethodDescriptor: that protobuf's pool accepts the file is not modelled.
- Catalog.CatalogArrives: the fixed-size strings through which the server itself passes service names and enum value names
  come from a library that is not part of this model, so those names are taken to fit.
- Serial ports, thread creation, weak memory, log printing, error texts, C++ text generation and build files.
