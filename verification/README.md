# Verification of the clockbridge tunnel

clockbridge lets a gateway forward HTTP and WebSocket exchanges of many clients over one websocket
("tunnel") to an agent, which repeats them against an upstream server. This project models the
stream multiplexer on that tunnel, from the frame codec to the bytes a client and an upstream see,
and the state machines around it: the gateway's registry of agents with its heartbeat, the agent's
reconnect loop, and the negotiation of the relay mode. Check it with `dafny verify dfyconfig.toml`.

## How the model is built

Concurrency is modelled as atomic steps over explicit state: one lock section, one channel operation
or one `close` per step, and any enabled step may come next, which covers the scheduler and Go's
`select`. A *run* is any list of enabled steps from the initial state; results quantify over all runs.

- `Messages`, `Scripts`: frame types with the part of the payload that decides behaviour; what each
  handler may say on a stream, in which order; what the HTTP handler of the gateway writes out.
  `WsMessages`: WebSocket messages and the frames that carry them.
- `GatewayMux`: the gateway's end as a machine (`newStream`, the read loop, `deliver`, the three
  stages of a stream's `closeOnce`, the sweep of a closing connection). `GatewayLane` is a single
  stream with no map and no neighbours; the multiplexer refines one lane per stream. `GatewayLife`
  holds ids, limits and teardown, `GatewayRuns` what goes out on the wire.
- `AgentMux`, `AgentLife`, `AgentRuns`: the same for the agent, where streams are made for any
  unknown id and removed by id, so that a handler may close a successor's stream.
- `Tunnel`: both ends joined by two ordered, lossless queues that may be cut at any time (a side
  simply reads no more). `ResponseOrder` is about resets on it, `Quiescence` and `Rest` about how it
  falls silent, `Relay` about what it leaves of relayed messages and bytes and about the relay mode
  both ends must agree on.
- `GatewayConn`, `AgentConn`: the connection and stream objects as classes that update their maps,
  queues and flags in place (`Tables`: the lists they take from their maps). Each method is proved to do what a stretch of machine steps does
  (`After(old(model), steps) == Some(model)`), so the results about runs are results about them.
- `Handlers`, `RelayLoops`: the loops of the handlers, proved against the scripts and histories the
  machines assume.
- `Frames`, `Locks`, `Registry`, `Heartbeat`, `Reconnect`, `ProxyMode`: one component each.

## Where the code keeps less than one might expect

These are results about the code as it stands: where an expected property fails, a run that shows
it, and the condition under which it holds.

- Teardown closes every stream if no `newStream` ever took an id that was still in the map
  (`GatewayLife.TeardownIsComplete`), which cannot happen within the first 2^32 - 1 streams of a
  connection (`GatewayLife.FirstPeriodIsUndisplaced`). The condition is exact for each opening
  (`GatewayLife.OpenIsSafeExactlyWhen`): an opening that displaces an open stream can always be
  followed by a complete teardown that misses it (`GatewayLife.DisplacedStreamIsMissed`), and 2^32
  streams suffice for that (`GatewayLife.WrappedIdOutlivesConnection`).
- A gateway queue has no hole in any run unless the stream was closed locally
  (`GatewayLane.QueueTruncatesWithoutHoles`). A frame dropped by the read loop leaves its stream in the
  map exactly when the stream is closed locally and not yet forgotten, with the connection's map still
  in place (`GatewayLife.DropStaysMappedExactlyWhen`, as long as no stream displaced another), and then any next frame but a copy of the first
  one missed makes a hole, from every such state of every run (`GatewayLife.AnyLateFrameLeavesAHole`;
  `GatewayLane.CancelCanLeaveAHole` is one run). What a handler took of the frames queued before the
  close is in order however the stream was closed, and is all it took if it had left before
  (`GatewayLane.LeftInTime`); the results on responses and relayed messages are stated so.
- The resets under the id of an HTTP request come after the whole response if and only if the agent
  did not go on with the response after resetting the request for its full queue
  (`ResponseOrder.ResetsComeLastExactlyWhen`). At the moment of that reset this is decided: it stays so
  for ever if and only if the response is complete by then or its handler has left
  (`ResponseOrder.OverflowIsSafeExactlyWhen`; `ResponseOrder.OverflowOvertakesTheResponse` is a run in
  which it is not).
- At most one connection per uuid is live, meaning neither closed nor removed by its heartbeat
  (`Registry.OneLiveConnectionPerUuid`). Two can be open, and then the heartbeat has removed the older
  one (`Registry.OverlapIsCondemned`); an open connection can be joined by another if and only if that
  is so and nobody took its place (`Registry.OverlapsExactlyWhen`; `Registry.CondemnedMayOverlap`).
- Gateway and agent agree on the relay encoding exactly under the condition in
  `ProxyMode.EncodingsAgreeExactlyWhen`, which agents built by `NewRemoteForward` always meet and
  others may fail (`ProxyMode.ModesCanDisagree`). With any agent nothing is relayed unless it reports
  the expected mode, and otherwise the stream is reset (`Relay.NothingRelayedAcrossModes`,
  `Relay.MismatchIsReset`).
- A frame survives the codec exactly when its payload is shorter than 2^32 bytes
  (`Frames.DecodesWhatWasEncoded`).

## Model

| member | source | states |
|---|---|---|
| GatewayLane.MuxRefinesLane | internal/gateway/agentconn.go:63-181 | refinement: every step of the multiplexer is, for every stream, one step of that stream alone or no step at all |
| GatewayLane.RunProjects | internal/gateway/agentconn.go:63-181 | any run of the multiplexer projected onto one stream is a run of that stream's own machine from its birth |
| GatewayLane.OtherStreamsUntouched | internal/gateway/stream.go:39-71 | overflow, reset, close or traffic of one stream changes neither queue, flags, frames, registration nor pending delivery of a stream with another id |
| GatewayLane.LaneInvHolds | internal/gateway/stream.go:39-71 | the lane invariant (who closed, what is queued against what was offered) holds of every stream in every run |
| GatewayLane.QueueTruncatesWithoutHoles | internal/gateway/stream.go:39-71 | frames queued on a stream nobody closed locally are a gapless beginning of those addressed to it; none follow an overflow close, at most the next one follows a disconnect |
| GatewayLane.DrawnHolds | internal/gateway/stream.go:39-48 | in every run, whoever closed it, whatever a stream queued had been offered to it |
| GatewayLane.DropThenHole | internal/gateway/stream.go:50-58 | on a closed stream still in the map, dropping a frame and queueing the next leaves no hole if and only if there was none and the next is a copy of the first one missed |
| GatewayLane.CancelCanLeaveAHole | internal/gateway/stream.go:50-58 | a run in which a local cancel drops one frame and queues the next |
| GatewayLane.LeftInTime | internal/gateway/server.go:782-787 | a handler that had left before its stream was closed took only frames queued before the close, however it was closed then |
| GatewayLife.DropStaysMappedExactlyWhen | internal/gateway/agentconn.go:163-181 | a dropped frame's stream is still in the map if and only if it is closed locally, not yet forgotten, and the connection's map not yet swapped out, as long as no stream displaced another |
| GatewayLife.AnyLateFrameLeavesAHole | internal/gateway/stream.go:50-58 | from every such state of every run, the next frame for the stream makes a hole unless it is a copy of the first one missed |
| GatewayLane.LaneInvRun | internal/gateway/stream.go:39-71 | the lane invariant holds along every run of a single stream |
| GatewayMux.WfRun | internal/gateway/agentconn.go:113-143 | in every run the map points at streams carrying the id they are stored under, and is empty after the swap |
| GatewayLife.IdsRepeatOnlyAfterAPeriod | internal/gateway/agentconn.go:124-127 | ids lie in 1..2^32-1 and two streams share one if and only if they are a multiple of 2^32-1 apart |
| GatewayLife.StreamsCarryTheirIds | internal/gateway/agentconn.go:124-129 | the k-th stream carries the k-th id and was offered exactly a contiguous stretch of the frames read with it |
| GatewayLife.LifeRun | internal/gateway/agentconn.go:63-143 | ids, offered stretches, the stream limit and (while no stream displaces another) the registration of every unfinished stream hold in every run |
| GatewayLife.TeardownIsComplete | internal/gateway/agentconn.go:63-84 | once closing the connection has finished, the map is empty and every stream ever made is closed, for runs of any length in which no opening took an id still in the map |
| GatewayLife.FirstPeriodIsUndisplaced | internal/gateway/agentconn.go:124-129 | that condition holds of every run with at most 2^32-1 streams |
| GatewayLife.OpenIsSafeExactlyWhen | internal/gateway/agentconn.go:124-129 | an opening keeps every unfinished stream within reach of the teardown if and only if its id is not in the map |
| GatewayLife.DisplacedStreamIsMissed | internal/gateway/agentconn.go:63-84 | after any opening that displaces an open stream there is a run that closes the connection to the end and leaves that stream open |
| GatewayLife.WrappedIdOutlivesConnection | internal/gateway/agentconn.go:113-131 | a run with 2^32 streams after which a finished teardown has left a stream open |
| GatewayLife.NoStreamAfterClose | internal/gateway/agentconn.go:113-120 | after the connection begins to close no run opens another stream |
| GatewayLife.OpenStreamsAreBounded | internal/gateway/agentconn.go:121-123 | every stream not fully closed is in the map under its id, and a positive limit bounds their number |
| GatewayLife.Churn | internal/gateway/agentconn.go:113-137 | for every n up to the period there is a run that keeps the first stream open while n - 1 others come and go |
| GatewayRuns.GoodStep | internal/gateway/agentconn.go:145-151 | every step keeps: what is on the wire under a stream's id is what was sent for that stream, in its handler's script |
| GatewayRuns.BackedStep | internal/gateway/server.go:585-611 | every step keeps: body bytes sent are a beginning of those read from the client, all of them unless the handler gave up and always after ReqEnd; WebSocket frames go out only after the expected relay mode was reported and carry what the client said; after another answer nothing more is received and the handler leaves with a reset |
| GatewayConn.Stream.constructor | internal/gateway/stream.go:30-37 | a new stream object: empty queue, open, no error |
| GatewayConn.Stream.Finish | internal/gateway/stream.go:50-58 | the stream's fields after the whole close-once body: error recorded, channel closed, queue kept |
| GatewayConn.Stream.Recv | internal/gateway/stream.go:89-108 | the oldest queued frame, or the recorded error on a closed stream (possibly with frames still queued) |
| GatewayConn.AgentConn.constructor | internal/gateway/agentconn.go:37-61 | a new connection stands for the initial state of the machine |
| GatewayConn.AgentConn.NewStream | internal/gateway/agentconn.go:113-131 | succeeds exactly when the machine may open a stream; the new object is entered under the next id, zero skipped |
| GatewayConn.AgentConn.GetStream | internal/gateway/agentconn.go:139-143 | finds exactly what the map holds, and that stream carries the id asked for |
| GatewayConn.AgentConn.Receive | internal/gateway/stream.go:89-108 | takes the first frame off the queue as one machine step, or reports the close and changes nothing |
| GatewayConn.AgentConn.Send | internal/gateway/stream.go:80-87 | refused exactly on a closed stream; otherwise the frame, of whatever act, goes out under the stream's id |
| GatewayConn.AgentConn.WriteFrame | internal/gateway/agentconn.go:145-151 | the second half of a send: the frame goes out under the stream's id even if the stream has been closed meanwhile, and nothing else changes |
| GatewayConn.AgentConn.Shut | internal/gateway/stream.go:50-58 | the whole close-once: cause recorded, channel closed, entry for the id dropped, every other stream unchanged |
| GatewayConn.AgentConn.CloseStream | internal/gateway/stream.go:50-58 | the first close runs the three machine steps, a later one does nothing |
| GatewayConn.AgentConn.HandleFrame | internal/gateway/agentconn.go:170-180 | one read-loop turn: a frame for an unknown id vanishes without effect, any other is delivered as a machine run |
| GatewayConn.AgentConn.Deliver | internal/gateway/stream.go:39-48 | queued at the end, dropped on a closed stream, or reset, the last exactly when the queue of an open stream is full |
| GatewayConn.AgentConn.Reset | internal/gateway/stream.go:60-78 | an overflow closes the stream once with its cause, keeps the queue, and leaves the reset to its own goroutine |
| GatewayConn.AgentConn.Close | internal/gateway/agentconn.go:63-84 | the close of the connection is a machine run to the finished state: flag set, map empty, every listed stream closed |
| Tables.ListOf | internal/gateway/agentconn.go:72-76 | the list taken from a map: each entry's object, nothing else, and as many as there are entries |
| GatewayConn.CloseRun | internal/gateway/stream.go:50-58 | recording the error, closing the channel and dropping the entry are an enabled run of three steps with the stated outcome |
| GatewayConn.OverflowRun | internal/gateway/stream.go:60-71 | the read loop's reset of a full stream is an enabled run of five steps with the stated outcome |
| AgentRuns.GoodRun | internal/agent/agent.go:474-504 | the agent's invariant (map by latest object, hole-free queues, every object kept track of, answers under one id) holds in every run |
| AgentRuns.CleanupIsComplete | internal/agent/agent.go:1220-1233 | after closeAllStreams and the end of all handlers every stream object ever made is closed, whoever took it out of the map |
| AgentLife.KeptStep | internal/agent/agent.go:490-504 | every step keeps each object in the map, closed, or in the hands of the goroutine that will close it |
| AgentLife.HoleFreeStep | internal/agent/agent.go:518-530 | every step keeps an object's accepted frames a gapless beginning of those directed at it, up to where a relay closed it itself |
| AgentLife.LocalStep | internal/agent/agent.go:532-707 | every act of a handler keeps: responses legal and equal to the bytes read, relayed frames carrying what the target said in the one mode reported, request body equal to the bytes taken, clean pipe end only on ReqEnd, otherwise cancelled |
| AgentRuns.DispatchTakesAReqStart | internal/agent/agent.go:536-549 | two dispatches under one id need two ReqStart frames read under it |
| AgentRuns.AnswerStep | internal/agent/agent.go:506-516 | every step keeps: resets and interim responses apart, what was sent under an id is what its one dispatched handler sent |
| AgentConn.Stream.Close | internal/agent/agent.go:500-504 | closing marks the stream closed, keeps its queue, and may be repeated |
| AgentConn.ConnState.GetOrCreateStream | internal/agent/agent.go:474-488 | returns the mapped stream and changes nothing, or makes, enters and returns a fresh open one for an unknown id |
| AgentConn.ConnState.ForgetStream | internal/agent/agent.go:490-498 | the entry for the id is gone and whatever stream it held is closed, no other one |
| AgentConn.ConnState.DeliverFrame | internal/agent/agent.go:518-530 | accepted at the end of the queue, dropped on a closed stream, or on a full open one reset and its id forgotten, each as a machine run |
| AgentConn.ConnState.HandleFrame | internal/agent/agent.go:467-470 | one read-loop turn is a machine run; the first frame of an unknown id is always accepted |
| AgentConn.ConnState.EndHandler | internal/agent/agent.go:532-533 | a leaving handler empties its id and closes what it found there, even another object, as a machine run |
| AgentConn.ConnState.CloseAllStreams | internal/agent/agent.go:1220-1233 | the sweep is a machine run: map empty, every mapped stream closed |
| AgentConn.EndRun | internal/agent/agent.go:490-498 | removal by id and the close that follows are an enabled run of two steps with the stated outcome |
| Tunnel.GoodRun | internal/agent/agent.go:467-470 | the joint invariant of both ends and the wires between them holds in every run |
| Tunnel.Ends | internal/gateway/agentconn.go:153-181 | a run of the tunnel is a run of each end |
| Tunnel.AtMostOneDispatch | internal/agent/agent.go:532-566 | within a period of ids, a gateway stream has at most one handler at the agent, and other objects under its id say nothing but resets |
| Tunnel.DispatchedFromTheStart | internal/gateway/server.go:567-570 | the object dispatched for a stream starts from the first frame the gateway sent on it |
| Tunnel.UpwardChannel | internal/gateway/agentconn.go:163-181 | the frames a gateway handler took of those queued before its stream was closed are a beginning of those the agent sent under the id; all it took are, unless the stream was closed locally |
| Tunnel.DownwardChannel | internal/agent/agent.go:467-530 | what a dispatched handler took, up to where a relay closed the stream itself, is a beginning of what the gateway sent on that stream, ReqStart first |
| Tunnel.ResponseArrivesInOrder | internal/gateway/server.go:654-684 | for every interleaving, the bytes written to the client from frames queued before the stream was closed are a beginning of those read from the upstream response, and all of them on leaving through ResEnd; the same of all bytes written unless frames were taken after a local close |
| Tunnel.CleanRequestIsComplete | internal/agent/agent.go:582-619 | a request body that ends uncancelled ended on ReqEnd, and its bytes are exactly those the gateway read from the client |
| Tunnel.EndedBodyIsCompleteOrCancelled | internal/agent/agent.go:582-619 | a request body that has ended in any way is all that the gateway read, or a beginning of it with its request cancelled |
| ResponseOrder.ResetsComeLastExactlyWhen | internal/agent/agent.go:518-549 | in every run, interim responses apart, the resets under a dispatched HTTP request's id come after the whole response if and only if its handler said nothing after the first reset for a full queue; then a gateway handler that took a reset had taken the response |
| ResponseOrder.OverflowIsSafeExactlyWhen | internal/agent/agent.go:518-530 | when that reset is sent, every continuation keeps the order if and only if the response is complete or its handler has left |
| ResponseOrder.OrderStep | internal/agent/agent.go:474-530 | every step keeps: the first object of an id has the id to itself until its handler leaves or its queue is found full, and the reset for the latter stands where the history says |
| ResponseOrder.OverflowOvertakesTheResponse | internal/agent/agent.go:518-530 | a run in which a full queue puts a reset between ResStart and ResEnd |
| Quiescence.GatewayFalls | internal/gateway/stream.go:50-78 | every gateway step but a new request, client data or a relay's close, trailers and ends included, lowers the weight of live streams and frames in flight |
| Quiescence.AgentFalls | internal/agent/agent.go:518-549 | the same for every agent step but upstream data, interim responses and a relay's close: stray resets, ResStart, ends and answers to an opening included |
| Quiescence.ExchangeDiesOut | internal/agent/agent.go:518-549 | a run without such input is no longer than the weight of the state it starts from |
| Rest.SettledIsAtRest | internal/agent/agent.go:1220-1233 | in a reachable state where only input could still happen, every stream of both ends is closed, every handler gone, no pipe open and no reset owed |
| Rest.EveryRunComesToRest | internal/gateway/agentconn.go:63-84 | from every reachable state an input-free run of no more steps than its weight leads there |
| Scripts.WholeRequest | internal/gateway/server.go:567-611 | a stretch of a legal request from ReqStart to ReqEnd lacks none of its body bytes |
| Scripts.OneReqStart | internal/gateway/server.go:567-570 | a handler sends at most one ReqStart on its stream |
| Scripts.WrittenIsReceived | internal/gateway/server.go:654-684 | what is written to the client is a beginning of the body bytes received, and all of them while streaming |
| Scripts.LeftByEndAt | internal/gateway/server.go:678-679 | a handler that left through ResEnd wrote exactly the body bytes before that frame |
| Handlers.ForwardRequest | internal/gateway/server.go:567-611 | the request half: always a legal script; on success all bytes read up to the end of the body, then ReqEnd; too large ends in a reset; a failed send stops at once |
| Handlers.FinishRequest | internal/gateway/server.go:608-611 | exactly the trailer, if any, and ReqEnd follow, as far as the stream stays open |
| Handlers.StreamResponse | internal/gateway/server.go:613-684 | writes exactly what the reference semantics of the frames says, and leaves by ResEnd, early, or at the end of the frames |
| Handlers.RelayResponse | internal/agent/agent.go:664-706 | the answer: always a legal script whose body is what was read, complete with ResEnd unless a send fails |
| Handlers.FinishResponse | internal/agent/agent.go:700-706 | exactly the trailer, if any, and ResEnd follow, as far as sends succeed |
| Handlers.PumpBody | internal/agent/agent.go:582-619 | the body pump cancels if and only if something aborts the body before it is complete, ends cleanly only on ReqEnd with exactly the bytes taken, and never writes past what it took |
| Handlers.OpenWebSocket | internal/gateway/server.go:710-746 | the stream opens if and only if the first answer is the expected mode; any other ends it with a reset, the agent's own refusal without one |
| RelayLoops.RelayFromWebSocket | internal/gateway/server.go:790-812 | the frames sent carry exactly the data messages read, up to the one whose send failed |
| RelayLoops.RelayFromRaw | internal/gateway/server.go:1114-1150 | the payloads sent are exactly the bytes read, up to the chunk whose send failed |
| RelayLoops.RelayToWebSocket | internal/agent/agent.go:801-838 | passes on, in order, the messages up to a close, a reset or a failed write; only the transparent variant turns unknown types into binary |
| RelayLoops.RelayToTcp | internal/agent/agent.go:1189-1217 | writes the data of those frames, or a beginning of it when a write fails |
| RelayLoops.TcpIsBytes | internal/agent/agent.go:1189-1217 | that is the concatenated bytes of the messages, empty ones and boundaries gone |
| RelayLoops.RelayToRaw | internal/gateway/server.go:1152-1180 | writes the payloads up to a close or reset, or a beginning of them when a write fails |
| RelayLoops.RelayFromTcp | internal/agent/agent.go:1161-1187 | the frames carry exactly the bytes read, up to the chunk whose send failed, as non-empty binary messages |
| Relay.ClientMessagesArrive | internal/agent/agent.go:780-838 | through the tunnel, up to where the agent's relay closes the stream itself, the messages and bytes passed on to the target are a beginning of those the gateway read from the client, in raw mode the bytes |
| Relay.TargetMessagesArrive | internal/gateway/server.go:814-856 | through the tunnel, the messages and bytes passed on to the client from frames queued before the stream was closed are a beginning of those the agent read from the target, in raw mode the bytes; all that are passed on are, unless frames were taken after a local close |
| Relay.TcpReadsChunks | internal/agent/agent.go:1161-1187 | in every run with a TCP target, all that is read from it is relayed, as binary messages |
| Relay.NothingRelayedAcrossModes | internal/gateway/server.go:735-746 | in every run, with any agent: once anything was relayed either way, the stream's one handler at the agent reported the relay mode the gateway expects, and no other |
| Relay.MismatchIsReset | internal/gateway/server.go:735-746 | in every run, with any agent: after another answer nothing more is received and nothing relayed, and a handler that has left has sent a reset or found its stream closed |
| Relay.ModeIsConfigured | internal/gateway/server.go:515-523 | the mode every stream expects is the one its connection was set up with |
| Relay.TakenWasSent | internal/gateway/agentconn.go:163-181 | whatever a gateway handler took, whoever closed its stream, the agent sent under its id |
| Frames.PutUint32 | internal/proto/frame.go:20-27 | four big-endian bytes in place, the rest of the buffer unchanged |
| Frames.EncodeFrame | internal/proto/frame.go:20-27 | the buffer holds type, stream, length modulo 2^32 and payload |
| Frames.DecodesWhatWasEncoded | internal/proto/frame.go:20-41 | decoding gives the frame back if and only if its payload is shorter than 2^32 bytes, and a longer one is rejected |
| Frames.AcceptsOnlyEncodings | internal/proto/frame.go:29-41 | accepted byte strings are exactly the encodings of such frames |
| Frames.RelayedMessageFits | internal/gateway/server.go:405 | a relayed message fits the peer's read limit if and only if it was within 40 MiB, and then decodes unchanged |
| Locks.CodeRanked | internal/gateway/server.go:773-780 | every routine, the close-once of the WebSocket handlers included, takes its locks in rank order and gives all of them back |
| Locks.OrderlyRun | internal/gateway/stream.go:50-71 | in every run no lock is held twice and every goroutine's remaining code respects what it holds |
| Locks.SomeoneCanGoOn | internal/gateway/stream.go:50-71 | from any goroutine with work left, following lock holders ends at one that can step |
| Locks.NoDeadlock | internal/gateway/server.go:302-322 | no reachable state of any set of goroutines deadlocks |
| Registry.InvRun | internal/gateway/server.go:407-477 | a live connection is listed, a removed or watched-out one is not, in every run |
| Registry.OneLiveConnectionPerUuid | internal/gateway/server.go:407-417 | in every run a uuid has at most one live connection, and it is the listed one |
| Registry.CondemnedMayOverlap | internal/gateway/server.go:444-449 | a run with two open connections of one uuid, the older removed by its heartbeat and not yet closed |
| Registry.OverlapIsCondemned | internal/gateway/server.go:444-449 | of two open connections of a uuid, the heartbeat has removed the older and is about to close it |
| Registry.OverlapsExactlyWhen | internal/gateway/server.go:407-449 | from every reachable state, registering the uuid of an open connection opens another beside it if and only if the heartbeat has removed the open one and the uuid is free |
| Registry.RegisterNeverDisplaces | internal/gateway/server.go:407-417 | refused exactly when the uuid is listed, then nothing changes; every live connection stays live and listed either way |
| Registry.LateRemovalSparesOthers | internal/gateway/server.go:457-477 | however late a removal comes, every other connection keeps its place |
| Registry.RemovedForGood | internal/gateway/server.go:457-477 | a connection once off the list never returns to it |
| Registry.ClosedIsRemoved | internal/gateway/server.go:428-432 | a closed connection's remover can run until it has run; after that, or once it can run no more, the connection is absent, in every continuation of every run |
| Registry.Server.Register | internal/gateway/server.go:407-417 | the object does the machine's step; None exactly when the uuid is taken; otherwise the new connection is live and listed |
| Registry.Server.RemoveAgentIfMatch | internal/gateway/server.go:457-477 | removes exactly the connection given, if listed, and no other |
| Registry.Server.GetAgent | internal/gateway/server.go:479-483 | finds exactly the listed connection of the uuid |
| Heartbeat.Watch | internal/gateway/server.go:434-454 | the first tick whose idle time exceeds the timeout, or none within the given ticks |
| Heartbeat.LivelyAgentIsKept | internal/gateway/server.go:86-106 | activity gaps within ping hint plus grace are never dropped, whatever timeout was configured |
| Heartbeat.SilentAgentIsDropped | internal/gateway/server.go:434-454 | a silent agent is dropped after the timeout and within one tick more, and not before |
| Heartbeat.IdleWithinGap | internal/gateway/agentconn.go:86-97 | idle time never exceeds the largest gap between stamps |
| Reconnect.Run | internal/agent/agent.go:146-296 | the loop's counter and clock after any history of dial failures, drops, stable connections and identity conflicts |
| Reconnect.WaitBounds | internal/agent/agent.go:280-311 | waits are at least 0.8 times the doubling table, below 36 s, and at least 5 s on an identity conflict |
| Reconnect.DebtInvariant | internal/agent/agent.go:276-311 | the amortisation potential: how far a run may be behind 10.5 s a cycle, by its attempt counter |
| Reconnect.RetriesAreAmortised | internal/agent/agent.go:276-311 | n completed cycles take at least 10.5 n - 30 seconds, over every run |
| Reconnect.BoundIsTight | internal/agent/agent.go:276-311 | for every m a run of 4 m cycles takes exactly that long |
| ProxyMode.NormalizedReadsBack | internal/shared/proxymode.go:23-62 | normalising is idempotent: what one side writes the other reads back |
| ProxyMode.BuildRegisterQuery | pkg/clockbridge/remote_forward.go:107-148 | exactly the entries uuid, proxy_mode unless blank and target_kind unless unknown are set, all others kept; a gateway reading the query finds the mode and kind meant; refused exactly for an invalid kind |
| ProxyMode.EncodingsAgreeExactlyWhen | internal/agent/agent.go:709-728 | both sides pick the same encoding if and only if the mode is legacy, the target is a WebSocket, or it is TCP and not announced as a WebSocket |
| ProxyMode.ModesCanDisagree | internal/gateway/server.go:515-523 | for every policy and uuid that allow the transparent mode there is a registration that makes the gateway go raw and the agent framed |
| ProxyMode.BuiltAgentsAgree | pkg/clockbridge/remote_forward.go:50-78 | an agent built by NewRemoteForward always agrees with the gateway, for every target, policy, allowlist and register host |
| ProxyMode.ReportDecides | internal/gateway/server.go:1188-1196 | the gateway's check of the reported words is the comparison of modes the tunnel's machine makes |
| ProxyMode.BuiltAgentsAreAccepted | pkg/clockbridge/remote_forward.go:50-78 | an agent built by NewRemoteForward that reports what it does is never refused for its mode |

## Left out

- Sockets, TLS, websocket handshakes, hijacking and HTTP transport internals; upstream and client are sources and sinks of chunks, the tunnel two queues.
- JSON: the payloads of ReqStart, ResStart and WsOpenOK are values; a ReqStart that does not parse is one of them.
- Headers, trailers' contents, URL joining, query tokens, close codes (section 7.4.1 of RFC 6455) and error texts.
- Deadlines of `recv` and of writes: a timeout is a handler that may give up at any moment.
- GatewayConn.AgentConn.Send: looks and writes without a gap between; the gap is in the machine, where a closed stream's frame may go out at any time, and in `WriteFrame`, the second half by itself.
- GatewayConn.AgentConn: its methods are run to completion; that they may be interleaved at their steps is the machine's part, to which each is tied.
- AgentConn.ConnState: likewise; what handler goroutines do between their map operations is the machine's part.
- Registry.Server: connections are numbers, and what a refused registration sends to its peer is not modelled.
- ForwardRequest: the goroutine that watches the client is a separate actor of the machine, not of this method.
- Reconnect.Run: times are exact reals, so the truncation of a jittered wait to whole nanoseconds is not modelled.
- Heartbeat.Watch: ticks come exactly every five seconds; a ticker that falls behind is not modelled.
- ProxyMode.NormalizedReadsBack: trimming and lower-casing are those of ASCII.
- The per-client write mutex of the WebSocket handlers and the client ping loop; the mutex is taken alone, as the last lock.
- `cmd/*`, the reverse proxy, `/status` beyond its locks, environment parsing beyond the heartbeat clamping, DNS resolution and logging.
