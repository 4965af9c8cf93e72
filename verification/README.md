# pocket-ap: a verified model of the relay core

pocket-ap is a relay proxy for the Pocket network. A client talks HTTP, gRPC or WebSocket to it; it picks a session and
suppliers, signs each request with a ring signature, sends it to a relay miner, checks the supplier's signature on the
answer and passes the payload back. This project models the parts of it whose correctness is a matter of whole runs
rather than of one function, and proves what those parts promise.

| part | modules | form |
|---|---|---|
| stream framing and reading | `Delimiter`, `Scanner`, `Stream`, `ChunkIndependence`, `Wire` | a class for `bufio.Scanner`, methods with loops, all proved against a split of the whole body |
| the two failover loops and the HTTP answer | `Relay`, `RelayProofs`, `Explanations`, `HttpFront`, `Health` | methods that leave an event log, equal to reference runs about which the theorems are stated |
| the WebSocket bridge | `CloseCodes`, `Bridge`, `BridgeInvariants`, `BridgeTheorems`, `BridgeTraffic`, `BridgeCauses` | a transition system with one program counter per goroutine |
| connection slots | `Slots` | a transition system over any number of handlers, at load and compare-and-swap granularity |
| gRPC sender | `GrpcWeb`, `GrpcTrailers`, `GrpcAuto` | encoder, decoder and parser as methods; the memo and the client cache as a transition system |
| key, ring and session caches | `Rings`, `RingEviction`, `Sessions` | classes whose maps the methods update; runs over them; the eviction lock as a transition system |
| supplier policy | `Text`, `Suppliers`, `Selection` | a header map changed in place, list loops and an in-place shuffle |
| shared | `Domain`, `Sets` | the values every part passes around, and two facts about finite sets |

Conventions:

- Collaborators the code calls through an interface (session source, selector, signer, sender, validator, full node) are
  function-valued fields or parameters, so every theorem holds for every behaviour of theirs. A sender also sees the
  number of the attempt, so one URL may answer differently each time.
- The `onBatch` callback is a step on the variables it captures: it takes the captured state and a result and returns the
  new state and its answer, which is nil, an error or a panic. A panic unwinds through `RelayStream` and the handler:
  neither the close nor the outcome of that attempt happens, because neither is deferred. `HttpFront.OnBatch` is the
  callback `serveStream` installs.
- `WriteHeader` of net/http, which is not part of the repository, is taken to panic on a code below 100 or above 999, to
  send a 1xx code (over HTTP/1 other than 101) as an informational block that the next `Write` follows with a 200 block,
  and to send any other code as the one header block. When a handler returns without a header block the server sends an
  empty 200, and `http.Error` sets two headers and writes its text as one line.
- A body is the list of byte slices its successive reads return, how it ends, and whether the end is reported together
  with the last bytes or by a read of its own.
- Ranging over a Go map picks an arbitrary key each time round, and every `math/rand` choice is arbitrary.
- In `Bridge`, `sync.Once.Do` returns only after the first body has finished, reads and writes on a closed connection
  fail, a `select` with several ready cases takes any of them, and panics are steps like any others.

Main results, in the order of the table below: the exact condition under which the unescaped delimiter and the scanner's
window lose nothing; chunk independence of stream reading and its one exception; no splicing of suppliers and a truthful
outcome feed; every streaming run explained, attempt by attempt, by its collaborators' answers alone; `RelayStream` as a
refinement of `Relay`; the meaning of an HTTP answer end to end; order without gaps, delivery of any traffic, single
shutdown, convergence, the expiry gate, no silent failure, no shutdown without a cause and legal close codes on the bridge; slot conservation; the
gRPC-Web round trip and the soundness of the auto-mode memo over every interleaving; caches that agree with direct lookup;
sessions that are never mixed up, with the exact condition; and selection that request headers can only narrow, down to who
is paid in any run.

The theorems are stated, as far as possible, without the definitions they are about: status codes, close codes, header
names, wire bytes and limits appear in them as literals, runs are judged by their steps and by what the collaborators
answered, and each function a specification rests on has a lemma that says what it means.

## Properties that hold only under a condition

Each is proved as an if-and-only-if with the condition on the right-hand side.

- Framing: for a body that ends cleanly and does not stall, cut into reads in any way, the consumer hands on exactly the batches that were
  written, and ends well, if and only if none contains the delimiter, no terminated one ends in its first 13 or 14 bytes,
  every terminated one fits the 262144-byte window with its delimiter, and an unterminated last one is shorter than the
  window, or equal to it with the end reported together with the last bytes (`Wire.WireRoundTrip`). The delimiter is not
  escaped and overlaps itself. `Delimiter.FramingRoundTrip` is the part of this about the bytes alone, and
  `Wire.WindowMatters` shows that the window is a condition of its own.
- Chunk independence: the batches do not depend on how the body is cut into reads, except for a final unterminated batch of
  exactly 262144 bytes, which is accepted when the reader reports the end together with the last bytes and refused as
  over-long when it does not (`ChunkIndependence.SameBytesSameBatches`, with `ChunkIndependence.BorderlineIsReal` as the
  concrete case).
- One header block: the status is the supplier's own number and is not checked. One block with the first batch's code goes
  out if and only if that code is 0, 200 to 999, or 101 over HTTP/1. An informational code puts out two blocks. An invalid
  one panics, and exactly then an opened body is left open and a send has no outcome (`HttpFront.OneHeaderBlockIff`, with
  `HttpFront.BadStatusIsReal` for the codes 42 and 103).
- Ring cache: the comment on eviction says it keeps the current and the previous session. A rollover does, whatever came
  before it (`RingEviction.RolloverLeavesTwo`), but later calls can add heights. The cache never holds more than two if and
  only if no three calls of the run succeed for three different heights with no rollover, up to the last of them, from a
  session above the first two (`RingEviction.NeverThreeIff`). What is cached after calls in any order is
  `RingEviction.CachedIffKept`.
- Sessions: a session is right for its service exactly when the `service:app` cache keys of the configured services differ
  (`Sessions.RightIffKeysDistinct`). Addresses without a colon guarantee that (`Sessions.NoColonKeepsKeysApart`).
- gRPC-Web: a frame survives exactly when its payload is under 2^32 bytes, because the encoder drops the higher bits of the
  length (`GrpcWeb.FrameRoundTrip`).

## Model

| member | source | states |
|---|---|---|
| `Delimiter.JoinOfSplit` | relay/stream.go:205-224 | joining the tokens of a split with the delimiter gives back exactly the bytes that were split |
| `Delimiter.IndexMeans` | relay/stream.go:215-218 | the index found is that of an occurrence, none comes before it, and none is missed |
| `Delimiter.SplitTokensClean` | relay/stream.go:205-224 | no token of a split contains the delimiter |
| `Delimiter.SplitOfJoin` | relay/stream.go:205-224 | tokens joined with a delimiter split back into themselves if and only if each is terminated where it ends and the last holds no delimiter |
| `Delimiter.TerminatesIff` | relay/stream.go:205-224 | a token followed by the delimiter ends exactly there if and only if it holds no delimiter and does not overlap it through a border |
| `Delimiter.DelimiterBorders` | relay/stream.go:21 | the proper borders of the wire delimiter have lengths 1 and 2 and no other |
| `Delimiter.DelimiterText` | relay/stream.go:21 | the wire constant, byte by byte |
| `Delimiter.TerminatesDelimiter` | relay/stream.go:21 | for the wire delimiter the overlap condition is ending in its first 13 or 14 bytes |
| `Delimiter.FramingRoundTrip` | relay/stream.go:205-224 | any list of non-empty batches survives joining and splitting, window aside, if and only if no batch contains the delimiter and no terminated batch ends in its first 13 or 14 bytes, with or without a closing delimiter |
| `Scanner.Plan` | relay/stream.go:205-224 | only the last token of a scan can be unterminated, and none is once an over-long token stops it |
| `Scanner.PlanShort` | relay/stream.go:23-27 | data shorter than the window is never over-long, however its end is reported |
| `Scanner.Scanner.constructor` | relay/stream.go:205-210 | a new scanner owes exactly the tokens and the verdict of the whole body |
| `Scanner.Scanner.Scan` | relay/stream.go:205-226 | each call returns the next token owed and its leftover mark, or stops with the verdict owed, whatever the reads were |
| `Stream.ReadCapped` | relay/stream.go:184-203 | a body read whole is all its bytes, refused exactly when they pass the cap, and a read error within the cap is an error |
| `Stream.Flush` | relay/stream.go:226-244 | a held batch is validated and handed on as feeding that one batch does; an empty hold does nothing |
| `Stream.ConsumeStream` | relay/stream.go:205-271 | the loop that holds one batch back feeds exactly the non-empty batches of the scan, dropping an unterminated one unless the stream ended cleanly, and stops at the first failure |
| `Stream.ConsumeBatches` | relay/stream.go:178-272 | a response, streaming or not, is consumed as its list of batches; what that comes to is `RelayProofs.ConsumeMeaning` |
| `Stream.FeedAppend` | relay/stream.go:226-271 | feeding two lists in turn is feeding their concatenation, unless the first fails |
| `ChunkIndependence.PlanIsSplit` | relay/stream.go:205-271 | the scanner's tokens are the tokens of the split up to the first that does not fit the window |
| `ChunkIndependence.CompleteBatchesAreTheSplit` | relay/stream.go:205-271 | for every reader: the batches are the split without empty tokens; the unterminated token only on a clean end; everything before the first over-long token otherwise; with the verdict in each case |
| `ChunkIndependence.YieldIsFlat` | relay/stream.go:205-271 | a reader that does not stall delivers the concatenation of its reads |
| `ChunkIndependence.StallsIff` | relay/stream.go:205-210 | a reader stalls if and only if 101 reads in a row return nothing, and what it delivered is what came before the first such row |
| `ChunkIndependence.EndOfMeans` | relay/stream.go:250-271 | the end a scan sees: no progress exactly for a stalled reader, and otherwise the reader's own ending |
| `ChunkIndependence.SameBytesSameBatches` | relay/stream.go:205-271 | two ways to read the same bytes to the same end give the same batches, and the same verdict, if and only if they are not on the two sides of a window-sized unterminated tail |
| `ChunkIndependence.BorderlineIsReal` | relay/stream.go:23-27 | the exception exists: one window of bytes, accepted or refused according to when the end is reported |
| `Wire.CarriedReading` | relay/stream.go:205-271 | such a body ends well if and only if every token of its split fits the window, and is then read as its non-empty tokens |
| `Wire.WireRoundTrip` | relay/stream.go:178-272 | for every reading of a cleanly ended body, the consumer ends well with exactly the batches written if and only if the framing condition holds and the window has room for each of them |
| `Wire.WindowMatters` | relay/stream.go:23-27 | a batch that splitting gives back and the consumer refuses, because it passes the window |
| `Relay.Clamp` | relay/stream.go:123-126 | the attempt limit is the configured one when that is positive and small enough, and every endpoint otherwise |
| `Relay.AttemptStream` | relay/stream.go:130-171 | one attempt logs its send, opening, deliveries, close and outcome in order, and stops the loop on success, on a signing failure and after any delivery; a panic of the callback skips the close and the outcome |
| `Relay.RelayStream` | relay/stream.go:88-175 | the failover loop is the reference run: attempts in order until one stops |
| `Relay.Send` | pocket/sender.go:77-103 | Send is the exchange of SendStream read whole under the same cap |
| `Relay.RelayOnce` | relay/relay.go:157-229 | the non-streaming failover loop is the reference run |
| `RelayProofs.FeedMeaning` | relay/stream.go:226-271 | as much as possible is handed on: up to the first batch that does not validate or that the sink does not take, in order, and all of them otherwise; the failure names which, and the sink's state is that of absorbing exactly these |
| `RelayProofs.ConsumeMeaning` | relay/stream.go:178-272 | the same for a whole response, however its body ends: every complete batch counts, and the body's own break is the failure if and only if all of them were handed on and taken |
| `RelayProofs.AccountsUnique` | relay/stream.go:226-271 | that account leaves no choice: what is handed on and why it ends are determined by the batches, the validator and the sink |
| `RelayProofs.WholeMeans` | relay/stream.go:184-203 | a whole read succeeds if and only if the body ends cleanly within the cap, with all its bytes; past the cap it is too large, and a break within it is that break |
| `RelayProofs.CandidatesMeans` | relay/relay.go:158-180 | a run may try the first endpoints of the selection, as many as the limit allows and all of them when it is not positive or too large; each failure before that names its own step |
| `RelayProofs.ContinueIsQuiet` | relay/stream.go:148-171 | an attempt after which the loop goes on delivered nothing and left the sink alone |
| `RelayProofs.NoSplicing` | relay/stream.go:128-175 | in every run nothing is sent after the first delivery and all deliveries are one supplier's; every opened body is closed before the next send if and only if no panic of the callback ended the run |
| `RelayProofs.StreamFeed` | relay/stream.go:112-171 | one outcome per send, in order and for the same supplier; only the last can be a success and it is one exactly when the run succeeds; the send whose delivery made the callback panic, and no other, has none |
| `RelayProofs.RelayFeed` | relay/relay.go:171-228 | in the non-streaming loop one outcome per send, always |
| `RelayProofs.StreamRefinesRelay` | relay/relay.go:157-229 | on responses that do not stream, with a sink that accepts, both loops send to the same suppliers, report the same outcomes and return the same error or the one result |
| `RelayProofs.RelayIsWholeStream` | relay/relay.go:157-229 | whatever the collaborators answer, Relay is RelayStream over the same answers read whole |
| `Explanations.TryBarren` | relay/stream.go:130-171 | an attempt after which the loop goes on had no URL, failed to send, or had a response without a first batch to hand on, and its log says so |
| `Explanations.BarrenGoesOn` | relay/stream.go:130-171 | and after every such attempt the loop does go on, for that reason |
| `Explanations.YieldsIsConsume` | relay/stream.go:178-272 | a response comes to what the collaborators' answers say and to nothing else |
| `Explanations.DeliveredByOne` | relay/stream.go:128-272 | every run, told by the collaborators' answers alone: attempts with nothing to hand on, each with its reason, its send and its failed outcome; then one response whose batches are handed on as far as they validate and are taken, with the exact result and sink state; or no such response, and the error of the last attempt or of the signing that stopped it |
| `Explanations.SendsBounded` | relay/stream.go:123-130 | no streaming run sends more often than the limit or than there are endpoints |
| `Explanations.RelaySendsBounded` | relay/relay.go:171-184 | nor does a non-streaming one |
| `HttpFront.SplitGrpcTrailers` | transport/grpc.go:39-50 | the two parts are disjoint, together the whole header, and the same for every order of ranging |
| `HttpFront.WriteGrpcTrailers` | transport/grpc.go:57-63 | each trailer goes out once with its last value, for every order of ranging |
| `HttpFront.ServeStream` | transport/http.go:215-276 | the handler's answer, with what the server adds when it returns, is the answer `HttpFront.EndToEnd` describes |
| `HttpFront.HeaderOnce` | transport/http.go:224-259 | over any deliveries of a run the first decides the header blocks, the headers and whether the callback panics, even when a write fails |
| `HttpFront.HeaderKept` | transport/http.go:224-259 | once the header is out no delivery changes it or panics |
| `HttpFront.BodyInOrder` | transport/http.go:229-259 | the body is the concatenation of the deliveries, without the last when the callback did not take it |
| `HttpFront.RunState` | transport/http.go:224-272 | whatever the callback does, its final state is that of absorbing the deliveries, how the run ended tells its last answer, and a failed run is an after-delivery failure or a panic exactly when something was delivered |
| `HttpFront.EndToEnd` | transport/http.go:215-276 | 502 with the error's text and headers exactly when the relay failed with nothing delivered; abort exactly when it failed after delivery; an empty 200 when it succeeded with nothing delivered; otherwise the header blocks follow from the first batch's status alone, the headers are its own without the gRPC status names of a gRPC reply, those names are the trailers after success, and the body is the deliveries in order |
| `HttpFront.IsTrailerMeans` | transport/grpc.go:23-32 | a name is a trailer if and only if it spells one of the three, letter by letter in any case |
| `HttpFront.HeaderOfMeans` | transport/http.go:229-242 | the client's headers are those of the result without the trailer names of a gRPC reply, and the trailers are exactly those names with their last values |
| `HttpFront.CallbackAnswers` | transport/http.go:229-259 | the callback panics exactly for a status that cannot be sent, and otherwise takes a result exactly when the write under the code in force succeeds |
| `HttpFront.OneHeaderBlockIff` | transport/http.go:243-247 | one header block with the first batch's code if and only if that code is 0, 200 to 999, or 101 over HTTP/1; a panic, an open body and a send without outcome if and only if it is invalid |
| `HttpFront.BadStatusIsReal` | transport/http.go:243-246 | a supplier that signs status 42 unwinds the run with its body open, and one that signs 103 puts out two header blocks |
| `HttpFront.MinerToClient` | transport/http.go:215-276 | for every attempt before which all were fruitless, batches the framing and the window can carry, cut into reads in any way, reach the client whole when they validate |
| `Health.Stats.constructor` | health/health.go:68-70 | no service has counters yet |
| `Health.Stats.Observe` | health/health.go:77-98 | only the service's own counters move, by one attempt and by one success or one failure |
| `Health.Stats.ObserveRun` | health/health.go:77-98 | feeding a run's outcomes leaves the service at their tally and every other service alone, with attempts equal to successes plus failures throughout |
| `Health.RunCounts` | health/health.go:77-98 | a run of either loop adds one attempt per send, one success exactly when it succeeds, and a failure for every other send; only the send that ended in a panic goes uncounted |
| `CloseCodes.Sanitize` | websockets/bridge.go:356-361 | the result may go on the wire and a code that may is kept |
| `CloseCodes.EndpointCode` | websockets/bridge.go:389-397 | never 1011, 1012 or 1013, still sendable, and otherwise unchanged |
| `CloseCodes.ByError` | websockets/bridge.go:417-438 | 1012 if and only if the error is nil, a cancellation, an expired session or an unavailable endpoint, and 1011 otherwise |
| `CloseCodes.Reasons` | websockets/bridge.go:417-438 | the text each kind of error is explained with |
| `CloseCodes.FramesTell` | websockets/bridge.go:356-397 | a code that may be sent goes to the client as it is and any other as 1011; the supplier gets the same, but 1001 for 1011 to 1013 |
| `BridgeTheorems.InvStep` | websockets/bridge.go:141-300 | every step of every goroutine keeps the invariants of shutdown, exit, frame flow, gate, codes and queue |
| `BridgeTheorems.InvReachable` | websockets/bridge.go:141-300 | they hold in every reachable state |
| `BridgeTheorems.OrderNoGaps` | websockets/bridge.go:193-300 | in every reachable state the frames written to each peer are, in order and with their type, the images of a prefix of the frames read from the other, and of every frame taken while the loop is idle and the bridge up |
| `BridgeTheorems.ShutdownOnce` | websockets/bridge.go:141-243 | the shutdown body runs at most once; `done` closes at most once, after the cancel and both closes; no loop exits, and no Shutdown call returns, before it is closed |
| `BridgeTheorems.SigningStops` | relay/bridge.go:181-195 | along every run from an inactive processor it stays inactive, and no client frame goes to the signer but one already past the gate |
| `BridgeTheorems.ExpiryIsHeeded` | transport/ws.go:209-240 | in every reachable state some height at or past the session's end has been seen if and only if the watcher is about to deactivate or the processor is inactive; about to, it can do nothing else; and once inactive the watcher waits in Shutdown with the session-expired error until the body is over |
| `BridgeTheorems.ExpiryActs` | transport/ws.go:209-240 | from every watching state a height below the end changes nothing and one at or past it leads to deactivation and to that Shutdown |
| `BridgeTheorems.GateIsForClients` | relay/bridge.go:189-204 | only client frames ever stand at the gate or are signed |
| `BridgeTheorems.HandsOver` | websockets/bridge.go:279-300 | in every reachable state a read loop can hand its frame over if and only if fewer than 32 wait, and more than 32 never do |
| `BridgeTheorems.SupplierFramesDrain` | relay/bridge.go:189-204 | in every reachable state a step about a supplier frame is possible and does the same whether or not the processor is active: the frame is validated, its image written, or the bridge shut down for a processing or connection failure |
| `BridgeTheorems.CloseFrames` | websockets/bridge.go:141-183 | at most one close frame per peer, none with 1005, 1006 or 1015, none upstream with 1011 to 1013; the supplier's code decides, then the client's, then the error; a code captured before the body began is always seen; and both frames carry the deciding code and text as `CloseCodes.FramesTell` says |
| `BridgeTheorems.ErrorsReachTheClient` | websockets/bridge.go:141-183 | the error the body chose by is the one it was begun with, which fits who began it; when the body saw no code, a shutdown begun by the watcher tells the client 1012 and the supplier 1001, session ended |
| `BridgeTheorems.FewLateFrames` | websockets/bridge.go:220-243 | along every run after both connections are closed the routing loop takes at most 34 frames, the 32 of the channel and one held by each read loop |
| `BridgeTheorems.OwnStepsBounded` | websockets/bridge.go:193-300 | after that every step of the routing loop, a read loop or the shutdown body lowers a rank, and no other step raises it |
| `BridgeTheorems.NeverStuck` | websockets/bridge.go:193-300 | and until all three loops are gone one of those steps is possible |
| `BridgeTheorems.ShutdownConverges` | websockets/bridge.go:141-300 | so from any reachable state with closed connections every schedule has at most 334 own steps, and from wherever it stands the loops can all exit with `done` closed |
| `BridgeTheorems.ExitWithinReach` | websockets/bridge.go:141-300 | from any state in which the shutdown body has begun or a goroutine waits for it, through the rest of the body to complete exit |
| `BridgeTheorems.ShutdownIsNeverLost` | websockets/bridge.go:141-300 | once anyone has asked for a shutdown, complete exit with `done` closed stays reachable from every state any further run leads to |
| `BridgeTraffic.AnyTraffic` | websockets/bridge.go:193-300 | from every reachable state of a bridge that is up, whatever frames the peers go on to send and in whatever order, if they can be signed and validated there is a run that writes the image of every frame read to the other side and leaves the bridge up |
| `BridgeTraffic.NoSilentFailure` | websockets/bridge.go:193-300 | after any failed read, processing or write, any panic and any cancellation, and any further run, a shutdown is under way or asked for and complete exit with `done` closed is reachable |
| `BridgeCauses.NoShutdownWithoutCause` | websockets/bridge.go:193-300 | along every run in which no read, frame or write fails, nothing panics, the session does not end and nobody outside cancels or calls Shutdown, nobody asks for one and both connections stay open |
| `BridgeCauses.CodeIsCaught` | websockets/bridge.go:279-291 | after a read that fails with a close code, along every run the code is stored, or its storing is the read loop's next step |
| `BridgeCauses.CodeHasSource` | websockets/bridge.go:279-291 | and no run stores a code that no read of that peer failed with |
| `BridgeCauses.LoopsEndWithShutdown` | websockets/bridge.go:203-219 | in every reachable state a loop ends only by returning from its own deferred Shutdown, asked for with its own error |
| `BridgeCauses.RouterLeavesFor` | websockets/bridge.go:221-243 | in every run the routing loop survives a frame that fails; it leaves only for a cancel it has seen or a panic |
| `BridgeCauses.LeavesForGood` | websockets/bridge.go:221-243 | and for those it leaves for good |
| `BridgeCauses.WatchIsKept` | transport/ws.go:209-240 | in every run a watcher that does not panic is there until `done` is closed |
| `BridgeCauses.CancelIsSeen` | websockets/bridge.go:239-299 | after the parent cancels, along every run, the idle routing loop can leave and a read loop that waits for room can give up; before it neither can |
| `BridgeCauses.CancelReachesBoth` | websockets/bridge.go:141-183 | a body begun for a cancel, when it saw no code, tells the client 1012 and the supplier 1001, service restarting |
| `Slots.StepKeeps` | websockets/limiter.go:50-76 | every load, swap and release keeps the counter equal to the slots held and within the cap, and the bridge set equal to the waiting handlers |
| `Slots.SlotConservation` | transport/ws.go:119-190 | in every run of any number of handlers; and when all have returned, counter and set are empty |
| `Slots.RejectionIsFree` | websockets/limiter.go:50-69 | a handler turned away changes neither the counter nor the bridge set nor any other handler, and the limiter turns one away only when full |
| `Slots.RoomAdmits` | websockets/limiter.go:50-69 | a handler that finds room is let in by its own steps, which cost one slot and nothing else |
| `Slots.SlotsComeBack` | transport/ws.go:119-190 | a handler with a slot can always go on to give it back, by its own steps |
| `Slots.LostSwap` | websockets/limiter.go:60-68 | a swap is lost only when another handler won a swap or released a slot since the load |
| `GrpcWeb.PutUint32` | pocket/grpc.go:413-419 | four bytes that read back as the number |
| `GrpcWeb.BigEndian` | pocket/grpc.go:413-419 | with the most significant byte first |
| `GrpcWeb.TrailerBit` | pocket/grpc.go:69 | a frame holds trailers if and only if the top bit of its flag is set |
| `GrpcWeb.DecodeResponse` | pocket/grpc.go:424-444 | the offset loop accepts exactly what the recursive parse accepts, and returns its first message and last trailers |
| `GrpcWeb.ParseOfEncode` | pocket/grpc.go:413-444 | decoding undoes encoding for every list of frames under 2^32 bytes |
| `GrpcWeb.EncodeOfParse` | pocket/grpc.go:413-444 | encoding undoes decoding |
| `GrpcWeb.ParsesIffWholeFrames` | pocket/grpc.go:424-444 | a body decodes if and only if it is a concatenation of whole frames |
| `GrpcWeb.CutIsRejected` | pocket/grpc.go:424-444 | a body cut anywhere inside a frame is refused |
| `GrpcWeb.FrameRoundTrip` | pocket/grpc.go:413-444 | a frame survives if and only if its payload is under 2^32 bytes |
| `GrpcWeb.DecodesFirstAndLast` | pocket/grpc.go:424-444 | for every list of frames the payload of the first data frame and the parse of the last trailer frame |
| `GrpcTrailers.ParseTrailers` | pocket/grpc.go:448-458 | the loop fills the map with the fields of the CRLF-separated lines |
| `GrpcTrailers.LastLineWins` | pocket/grpc.go:448-458 | a key is present if and only if some line carries it, with the value of the last |
| `GrpcTrailers.TrailersRoundTrip` | pocket/grpc.go:446-458 | the lines of a map, in any order and with any repetition, parse back to that map |
| `GrpcTrailers.ReplyRoundTrip` | pocket/grpc.go:413-458 | frames ended by an encoded trailer frame decode to the first message among them and to exactly the map the trailer lines were made from |
| `GrpcAuto.ModeOf` | pocket/grpc.go:113-124 | only the two pinned names pin a framing; anything else means auto |
| `GrpcAuto.StepKeeps` | pocket/grpc.go:149-184 | every step of every Send keeps the invariants, grows the memo and replaces no client |
| `GrpcAuto.RunKeeps` | pocket/grpc.go:149-184 | so does every run |
| `GrpcAuto.AutoModeSound` | pocket/grpc.go:149-184 | in every interleaving: a host is in the memo only if, at some step of the run and in auto mode, a dial of it or a call to it failed as not HTTP/2; a Send is on gRPC-Web only by its mode, by the memo it looked up, or by such a failure of its own; a lookup after the store makes no native attempt; pinned modes never cross; one client per URL, shared by all |
| `GrpcAuto.MemoFromRefusals` | pocket/grpc.go:171-184 | from any state, a host that a run adds to the memo, or is about to, was refused at some step of it |
| `GrpcAuto.NativeOutcome` | pocket/grpc.go:149-184 | for every step of every run that ends a native attempt: refused in auto mode, the Send goes on to store its host and to the web attempt and does nothing else; ended any other way, it takes no further step and makes no web attempt before or after |
| `GrpcAuto.WebOnlyIfDue` | pocket/grpc.go:149-184 | no Send turns to gRPC-Web without one of the three reasons at some step of the run |
| `GrpcAuto.DecidesBy` | pocket/grpc.go:149-168 | a Send without a target returns; with one of the reasons it turns to gRPC-Web at once; otherwise it makes the native attempt |
| `GrpcAuto.CachedNeedsNoLock` | pocket/grpc.go:280-284 | a client that exists is used at once, whoever holds the lock |
| `GrpcAuto.URLsAreKept` | pocket/grpc.go:149-184 | in every run each Send works on the URL it was called with |
| `GrpcAuto.SomeSendMoves` | pocket/grpc.go:280-310 | in every reachable state a Send that has not returned can take a step, or waits for a lock whose holder can |
| `GrpcAuto.SendReturns` | pocket/grpc.go:149-184 | a Send returns within nine steps of its own, whatever the others do |
| `Rings.DirectIsUnique` | pocket/signer.go:246-294 | on a chain whose keys never change there is one ring an uncached construction can give |
| `Rings.KeyFetcher.constructor` | pocket/pubkey.go:41-43 | nothing is cached |
| `Rings.KeyFetcher.GetPubKey` | pocket/pubkey.go:82-101 | a cached key answers without a lookup; otherwise the chain's answer; only a present key is ever stored, and it is the onchain one |
| `Rings.Prune` | pocket/signer.go:313-318 | deleting while ranging leaves exactly the rings from the previous session on, in any order |
| `Rings.Signer.constructor` | pocket/signer.go:73-91 | nothing is cached |
| `Rings.Signer.GetApp` | pocket/signer.go:211-221 | the cached record, else the chain's, stored only on success |
| `Rings.Signer.EvictStale` | pocket/signer.go:299-320 | the highest session is the maximum, and a rollover leaves exactly the rings from the previous highest on |
| `Rings.Signer.MemberKeys` | pocket/signer.go:269-285 | the members' onchain keys, or an error that names the first member without one, whose lookup failed or found none while all before it have theirs; it succeeds once all keys are onchain |
| `Rings.Signer.BuildRing` | pocket/signer.go:254-290 | a ring made now is the direct one, and is made once every key is onchain and the ring builds |
| `Rings.Signer.GetOrCreateRing` | pocket/signer.go:246-294 | the ring returned is the direct one; the cache changes as one eviction and one insertion; a failure poisons nothing |
| `Rings.Signer.RingFor` | pocket/signer.go:154-294 | the ring a relay is signed with is the only one a direct lookup for the app record and height gives |
| `RingEviction.BoundedCache` | pocket/signer.go:246-320 | a sufficient order: over calls whose sessions never go back, failed or not, at most two heights are cached |
| `RingEviction.LateCallIsCachedAgain` | pocket/signer.go:246-294 | a late call is cached again as a third height |
| `RingEviction.CachedIffKept` | pocket/signer.go:246-320 | after any calls in any order the highest session is the largest asked for, and a ring is cached if and only if some call for it succeeded and no later rollover came from a session above its own |
| `RingEviction.HeightsStep` | pocket/signer.go:246-320 | one more call: a rollover keeps only the previous highest height, and a success adds its own |
| `RingEviction.HeightCachedIff` | pocket/signer.go:246-320 | a height is cached if and only if some call for it succeeded and no later rollover came from a session above it |
| `RingEviction.RolloverLeavesTwo` | pocket/signer.go:246-320 | after a rollover only the previous and the new session are cached, whatever the order before it |
| `RingEviction.ThirdHeightIff` | pocket/signer.go:246-320 | from at most two heights a call leads to a third if and only if two are cached and it succeeds, without a rollover, for a height that is not |
| `RingEviction.NeverThreeIff` | pocket/signer.go:246-320 | over calls in any order the cache never passes two heights if and only if no three successful calls for different heights crowd it, a condition on the calls alone |
| `RingEviction.ThirdAtTheTop` | pocket/signer.go:246-320 | the third height can be the highest session itself, when the call that raised it had failed |
| `RingEviction.RaceStep` | pocket/signer.go:299-320 | every step of the fast check, lock and recheck keeps the highest session from decreasing |
| `RingEviction.RaceRun` | pocket/signer.go:299-320 | along every run the highest session never decreases |
| `RingEviction.HighestIsTheMaximum` | pocket/signer.go:299-320 | in every interleaving no two calls evict at once, and when all have returned the highest session is the largest that any call of the run began with |
| `Sessions.IndexApps` | pocket/session.go:112-129 | every service with its own app in configured order; refused if and only if a service is claimed twice |
| `Sessions.SessionManager.constructor` | pocket/session.go:112-129 | height zero and an empty cache |
| `Sessions.SessionManager.PollBlockHeight` | pocket/session.go:178-194 | a successful poll stores the height as reported and clears the error; a failed one keeps the height |
| `Sessions.SessionManager.SessionFor` | pocket/session.go:199-234 | a cached session that ends above the height just read is returned and nothing is fetched or stored; otherwise the full node's answer decides, field by field, and is stored; each error has its one cause and leaves the cache alone |
| `Sessions.RunCoherent` | pocket/session.go:178-234 | over every run of polls and requests each cached session stays that of the service its key stands for |
| `Sessions.RightIffKeysDistinct` | pocket/session.go:199-234 | sessions always carry the service asked for and its own app, in every run, if and only if the configured cache keys differ |
| `Sessions.CollisionMisleads` | pocket/session.go:199-234 | with a shared key the second service is handed the first one's session |
| `Sessions.NoColonKeepsKeysApart` | pocket/session.go:199-234 | app addresses without a colon keep the keys apart whatever the services are called |
| `Sessions.IndexSigners` | pocket/apps.go:68-74 | every signer's address is indexed, to a signer of that address |
| `Sessions.SessionAlwaysSignable` | pocket/apps.go:86-95 | after any run, the session handed out finds the one signer of its own app |
| `Text.JoinOfSplitOn` | transport/suppliers.go:98 | the comma-separated parts, joined again, are the value |
| `Text.PartsAreCells` | transport/suppliers.go:98 | the parts of a split are exactly the stretches between separators |
| `Text.LowerIs` | transport/grpc.go:29-32 | lower-casing gives an ASCII word if and only if every letter does |
| `Text.EqualFoldIs` | transport/suppliers.go:87 | names fold together if and only if they agree letter by letter in any case, the Kelvin sign and the long s included |
| `Suppliers.TrimSpaceTrims` | transport/suppliers.go:99 | trimming removes exactly the white space around an entry |
| `Suppliers.TrimmedIs` | transport/suppliers.go:99 | and nothing else is a way to do so |
| `Suppliers.SpaceIs` | transport/suppliers.go:99 | the characters that count as white space |
| `Suppliers.FieldsAreTheParts` | transport/suppliers.go:96-110 | an entry is a non-empty trimmed part and every such part is one |
| `Suppliers.FieldsAre` | transport/suppliers.go:96-110 | an entry of a value is what stands between two commas, without the white space around it, unless that is empty |
| `Suppliers.WildcardIsProperSubdomain` | domain/supplier.go:179-190 | a `*.` pattern matches exactly the proper subdomains, and one without a wildcard exactly the host it names, each on its port if it names one |
| `Suppliers.MatchesTrimmed` | domain/supplier.go:179-190 | white space around a pattern is ignored |
| `Suppliers.TakeRaw` | transport/suppliers.go:84-91 | deleting while ranging removes every spelling of the name and collects exactly their values, in any order |
| `Suppliers.TakeFields` | transport/suppliers.go:97-110 | the entries of one value, or failure exactly when one is invalid |
| `Suppliers.TakeList` | transport/suppliers.go:84-112 | the header leaves the map always; failure if and only if some entry is invalid; otherwise exactly its entries |
| `Suppliers.TakeSupplierPolicy` | transport/suppliers.go:49-80 | by name: the four X-Pocket headers leave the map in any spelling and nothing else does, even when a list is malformed; failure if and only if a supplier entry does not start with pokt1 or a host entry does or holds a slash; otherwise each list of the policy holds exactly the entries of its own header |
| `Suppliers.PermitsIffAdmitted` | domain/supplier.go:74-137 | a policy read from the headers permits exactly the endpoints the header entries admit, in both dimensions, whatever their order and repetition |
| `Selection.KeepOnly` | selector/filter.go:58-63 | up to order, exactly the endpoints that satisfy the test, with their multiplicity |
| `Selection.Shuffle` | selector/selector.go:31-33 | the in-place shuffle is a permutation for every choice |
| `Selection.RandomSelect` | selector/selector.go:21-35 | succeeds if and only if some endpoint supports the type, with a permutation of exactly those |
| `Selection.FilterSelect` | selector/filter.go:51-80 | succeeds if and only if some endpoint supports the type and both policies permit it, with a permutation of exactly those |
| `Selection.ChooseForRequest` | transport/http.go:158-172 | from header map to suppliers: 400 exactly when a list is malformed, else success if and only if some endpoint qualifies, with exactly those; no supplier listed under X-Pocket-Deny-Suppliers, only listed ones when X-Pocket-Allow-Suppliers lists any, and only what the service's own configured policy permits; the routing headers are gone in every case |
| `Selection.Unconfigured` | selector/filter.go:51-57 | a service without a configured policy turns no endpoint away |
| `Selection.NarrowOnly` | selector/filter.go:23-38 | what a request may use is contained in what the same relay could use without its headers |
| `Selection.PaysOnlyPermitted` | selector/filter.go:23-38 | in every run of either loop each supplier sent to, observed or delivered from is one of the session that the operator's policy and the request's headers allow |
| `Selection.CandidatesPayable` | relay/relay.go:158-174 | what either loop may try, after the attempt limit, are endpoints of the session that both policies allow |
| `Selection.PrepareBridge` | relay/bridge.go:97-139 | a bridge opens if and only if some selected endpoint has a URL; it takes the first, its handshake names the service and the session's own app, and its frame processor is active and pinned to that session and supplier |
| `Selection.BridgePaysOnlyPermitted` | relay/bridge.go:88-139 | the supplier a bridge is pinned to is one both policies allow |

## Left out

- Ring signatures, response signature checks and address derivation: SDK code; signing, validation and ring construction are parameters.
- The full node client, the HTTP and gRPC transports, dialing, timeouts and keep-alives: input and output.
- `isStreamingResponse` and media-type parsing: whether a response streams is an input.
- `net/url` and `net.SplitHostPort`: the host and port of a URL and of a pattern are inputs (`Suppliers.Net`).
- `isNotHTTP2` and `grpcStatusFrom`: text matching on library errors and a status lookup; whether an answer means "not HTTP/2" is an input.
- `StartBridge` and `closeClientWithReason`: the handshake before the bridge exists, one branch each.
- `shutdownAll`: its calls are among the arbitrary outside Shutdown calls; the snapshot of the set is not modelled.
- `WithObservers`: a wrapper that calls each observer in turn; the outcome feed is modelled at its source.
- The non-streaming branch of `HTTP.handle`, CORS, origin and Host checks, body limits: short branches and membership tests.
- Configuration, presets, command line, the `call` command and the npm package: plumbing.
- Health JSON, latency, logging, timers and wall-clock time: only the counters are modelled.
- Wrap-around of 64-bit counters, heights and lengths: integers are unbounded, except the 32-bit frame length, which is cut as the code cuts it.
- Panics of the session source, selector, signer, sender or validator under an HTTP request: they return; only the callback may panic.
- Gorilla's own automatic reply to a close frame, and a panic inside the shutdown body itself: not steps of `Bridge`.
- Concurrent use of the key, app and session caches and of the ring map: their classes are sequential; only the highest-session lock is interleaved.
- `ConnectionLimiter` and the bridge set as objects: they are fields of the state in `Slots`, because their property is about interleavings.
- `Connection` as an object: its close information, socket state and frames are fields of `Bridge.Peer`.
- Text.Lower: lower-casing is exact only for comparison with ASCII words, and `Text.EqualFold` with ASCII names, which is how the code uses them.
- GrpcTrailers.ParseTrailers: trimming and lower-casing of trailer keys and values are parameters.
- Health.Stats.Observe: keeps counters only, because last-seen times are wall-clock values.
- Suppliers.TakeSupplierPolicy: does not model which of several malformed lists is named in the error text.
- HttpFront.EndToEnd: keeps header names as the supplier spells them; `http.Header` would make their case canonical.
- Delimiter.FramingRoundTrip: speaks of splitting the whole bytes, because `Wire.WireRoundTrip` adds the reads and the window.
- Stream.ReadCapped: covers the stream path; the identical constants of relay/stream.go and pocket/sender.go are one constant here.
