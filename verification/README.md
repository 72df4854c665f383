# A model of spdystream and proofs about it

spdystream multiplexes byte streams over one connection with the framing of SPDY/3. A connection
reads frames in one goroutine, sorts them into five bounded priority queues, and handles them in
five others, while the application reads, writes, closes and resets streams from as many goroutines
as it likes. This project models that machinery in Dafny and proves what it promises: the bytes of
a stream arrive complete and in order, connections drain before they close, a stream that leaves
the table is closed, queues keep their order, endpoints agree on stream ids and on GOAWAY, and
frames survive the wire. Where the code keeps less than that, the exact condition is proved, with a
run or an input that shows it is needed. For one, a stream that leaves the table because the
connection was idle is closed only after RST_STREAM frames have been written for those that expired
with it and come before it; a write that blocks leaves its reader hanging, also when `Serve` ends.

Check the project with `dafny verify dfyconfig.toml`.

## How it is laid out

| file | what it models |
|---|---|
| `StableQueue.dfy`, `PriorityQueue.dfy` | priority.go: the queue as a stable insertion into a sequence, and the class with the heap that refines it |
| `QueueWakeup.dfy` | priority.go: the condition variable of a queue, as steps of its callers |
| `StreamLife.dfy` | the fields of a stream, and every critical section and channel operation on them, by the application, the idle monitor, `Serve` and the frame handlers |
| `Pipeline.dfy` | a connection: the reader of `Serve`, five queues, five handlers, the application and the monitor, as a transition system with one program counter for each goroutine |
| `PipelineDrain.dfy` | drain before close, and conservation of frames |
| `PipelineLife.dfy` | partition of frames, channels, last frames, what never reverts |
| `PipelineIds.dfy` | when a stream is added under the id of an earlier one, for any peer |
| `PipelineExpiry.dfy` | no orphaned readers, and the line in which expired streams wait to be closed |
| `PipelineSweep.dfy` | what the sweep leaves behind, streams that wait behind a blocked write, and streams created after it |
| `PipelineOrder.dfy`, `PipelineUrgency.dfy` | exactly when the frames of a stream are handled in the order of the wire, and what the application can do for it |
| `PipelineBytes.dfy` | the application reads the bytes of the wire |
| `PipelineLoss.dfy` | which bytes can be lost: the exact condition for completeness, and what holds of streams that were reset or expired |
| `PipelineExample.dfy` | a run to which the theorems on bytes apply, and one against each of their conditions |
| `Handlers.dfy`, `HandlerRuns.dfy` | streams and the stream table as objects with the methods of stream.go and the frame handlers of connection.go, and why their calls are runs of `Pipeline` |
| `Dispatch.dfy` | the switch in the loop of `Serve`, as a method over those objects |
| `StreamRead.dfy` | `Read` and `ReadData` |
| `Session.dfy` | stream ids, GOAWAY and shutdown, at one endpoint and between two |
| `Ping.dfy`, `PingThreshold.dfy` | pings between two endpoints, and exactly when a ping channel can be closed twice |
| `IdleMonitor.dfy` | the idle-aware framer and the shutdown of its channels |
| `Bytes.dfy`, `Frames.dfy`, `HeaderBlock.dfy`, `HeaderNames.dfy`, `FrameWriter.dfy`, `FrameReader.dfy`, `FrameRoundTrip.dfy` | the frame codec without compression |

## How to read the transition systems

A step is one critical section or one channel operation; whatever touches only the state of its
own goroutine is folded into the step before or after it. A run is any sequence of enabled steps,
so a theorem over runs holds for every scheduling. A network error, a timer that fires, the choice
that a `select` makes and the order of a map are free choices of the step.

In `Pipeline` the peer may send any frame at any time; priorities have three bits, as on the wire
(spdy/read.go:265). connection.go:950-956 accepts stream ids of either parity, so a peer can open a
stream under an id of the other side; if the stream that had the id is still in the table it is
replaced. `PipelineIds.AddReusesExactly` and `PipelineIds.CreateReusesExactly` say when an id is used
again, `PipelineIds.StreamIsReplaced` gives a run. Drain, conservation and order are proved for any
peer. The theorems on the fields of one stream over whole runs take `FreshRun` as a hypothesis: no
stream is added under the id of an earlier one. `PipelineIds.PoliteIsFresh` proves it of every run
in which the peer opens streams under ids of its own parity, which `Session.EndpointsAgreeOnIds`
proves of a peer that runs this code.

What has happened to a stream is recorded in three fields of `StreamLife.Stream` and one of
`Pipeline.State`: `announced` (no frame of it was read before it was added), `torn` (reset or
expired), `dropped` (data met a handler before the stream was answered, which connection.go:605-609
drops) and `overtaken` (one of its frames was queued in front of a different one).
`PipelineBytes.SoundExactly` says which steps change them, and `PipelineExample` has a run with a
wrong result for each of them and for data behind a FIN. A stream that is never made more urgent is
not overtaken (`PipelineUrgency.PriorityKeepsOrder`); making it more urgent does no harm either,
unless a frame then passes another one of the stream in its queue.

Where the code and its comments differ, the model follows the code:

- `Ping` reads `pingId` before it takes the lock (connection.go:283), so overlapping calls can draw
  the same id. `PingThreshold.DoubleCloseThreshold` proves that a channel can be closed twice
  exactly when two calls can overlap there, or after 2^30 draws.
- The comment in `shutdown` fears a second call (connection.go:713); `Session.GoAwayIsSingleAndExact`
  proves that the body runs at most once.
- A queue signals one of producers and consumers at random (priority.go:92 and priority.go:105).
  `QueueWakeup.LostWakeupThreshold` proves that a wakeup can be lost exactly when there are at least
  twice as many producers as slots; `Serve` has one producer.
- The reader tests a lower-case name for duplicates but stores names in canonical form
  (spdy/read.go:229 and spdy/read.go:244). `HeaderNames.AcceptedExactly` proves that a repeated name
  is refused exactly if its lower-case form is its canonical form; other repeats are merged.
- The comment at the end of `Serve` says that its sweep unblocks any `Read` (connection.go:416-417).
  It does so for the streams in the table; `PipelineExpiry.NoOrphanedReader` says where the others
  are, and `PipelineSweep.BlockedLineIsOpen` is a run in which one of them is left open.
- `CreateStream` does not look whether `Serve` has ended. `PipelineSweep.LateStreamStaysOpen` proves
  that a stream created after that stays open until it is reset or expires.

## Model

| member | source | states |
|---|---|---|
| StableQueue.InsertBetween | priority.go:38-43 | the place of a pushed frame: after the frames that are not less urgent, before those that are |
| StableQueue.InsertSelect | priority.go:38-43 | a push appends to the frames of a class if none of them is less urgent, and leaves all other classes as they were |
| StableQueue.InsertSelectExactly | priority.go:38-43 | a push of a frame appends it to the frames of its class if and only if those that are less urgent, in front of which it goes, are all the same as it |
| StableQueue.HistoryConserves | priority.go:79-107 | after any pushes and pops the queue is ordered by priority, and what was pushed is what was popped and what is inside |
| StableQueue.HistoryFifo | priority.go:38-43 | over any pushes and pops, frames of a class pushed with non-decreasing priorities are popped in the order of their pushes |
| StableQueue.PushAllIsStableSort | priority.go:34-59 | pushing everything and popping everything is the stable sort by priority, defined without a queue |
| PriorityQueue.PriorityFrameQueue.constructor | priority.go:68-77 | a new queue is empty and not drained |
| PriorityQueue.PriorityFrameQueue.Swap | priority.go:45-47 | exchanges two entries and nothing else |
| PriorityQueue.PriorityFrameQueue.Up | priority.go:91-91 | the sift-up of container/heap makes a heap of one with a misplaced last entry, keeping its entries |
| PriorityQueue.PriorityFrameQueue.Down | priority.go:104-104 | the sift-down of container/heap makes a heap of one with a misplaced root, keeping its entries |
| PriorityQueue.PriorityFrameQueue.HeapPush | priority.go:49-51 | adds the entry and stays a heap |
| PriorityQueue.PriorityFrameQueue.HeapPop | priority.go:53-58 | takes the root out and stays a heap of the rest |
| PriorityQueue.PriorityFrameQueue.Push | priority.go:79-93 | waits exactly when full; otherwise the array has one entry more and stands for the stable insertion, up to 2^64 pushes |
| PriorityQueue.PriorityFrameQueue.Pop | priority.go:95-107 | waits or reports the drain exactly when empty; otherwise takes the first of the stable queue and leaves its rest |
| PriorityQueue.PriorityFrameQueue.Drain | priority.go:109-114 | sets the drain flag and leaves the frames |
| PriorityQueue.RootIsLeast | priority.go:38-43 | no entry of a heap is less than its root |
| PriorityQueue.RootIsFirst | priority.go:95-107 | the root of the heap is the first of the stable queue it stands for |
| PriorityQueue.PushStandsFor | priority.go:79-93 | adding an entry with the next insert id is stable insertion |
| PriorityQueue.PopStandsFor | priority.go:95-107 | taking the root out is taking the first of the stable queue |
| PriorityQueue.PopsYoungerFirst | priority.go:88-90 | a new queue that has seen 2^64 - 1 pushes and pops pops the younger of two frames of one priority first: the bound is needed |
| QueueWakeup.OneProducer | priority.go:79-114 | with one producer and one consumer: the consumer sleeps only on an empty queue that is not drained, the producer only on a full one, never both |
| QueueWakeup.LostWakeupThreshold | priority.go:79-107 | a wakeup can be lost if and only if there are at least twice as many producers as slots |
| StreamRead.StreamReader.constructor | stream.go:35-54 | a new stream has nothing unread |
| StreamRead.StreamReader.Read | stream.go:94-113 | copies from what is unread or newly taken, keeps the rest, gives EOF exactly if the channel is closed and nothing is unread, and never returns 0 bytes of data into a non-empty buffer |
| StreamRead.StreamReader.ReadData | stream.go:118-132 | returns one whole payload, EOF, or an error if a read has left bytes over |
| StreamRead.ChunkingConserves | stream.go:94-132 | for every mix of calls and buffer sizes, what was returned and what is unread are the payloads taken, in order |
| StreamLife.HandledIsLater | connection.go:515-626 | no stage of a handler reverts finished, replied, closed or end-of-file, or puts the stream back into the table |
| StreamLife.HandledKeeps | connection.go:515-626 | no stage moves bytes other than by a hand-over or changes a priority, and only two of them close the channel |
| StreamLife.UseKeeps | stream.go:57-345 | no step of the application breaks the invariant of a stream: channels closed at most once, at most one last frame, a removed stream closed or about to be |
| StreamLife.AdvanceKeeps | connection.go:515-675 | no step of a frame handler breaks it either |
| StreamLife.UseIsLater | stream.go:57-345 | no step of the application reverts finished, replied, closed or end-of-file, or puts the stream back into the table |
| StreamLife.UseKeepsReading | stream.go:57-345 | only Read moves bytes, only resetStream closes the channel |
| PipelineDrain.PhaseStep | connection.go:320-457 | no step breaks: queues bounded, drained only when closed, handlers exit only on drained and empty, the wait ends only when all have |
| PipelineDrain.ConservedStep | connection.go:320-457 | no step loses or duplicates a frame between the reader, the queues and the handlers |
| PipelineDrain.DrainBeforeClose | connection.go:402-423 | in every run: from the handling of GOAWAY on, all queues are empty, all handlers have exited, and the frames handled are exactly those read and kept |
| PipelineDrain.NoPushAfterDrain | connection.go:402-404 | in every run: while a frame can be pushed no queue is drained and no handler has exited; queues stay within QUEUE_SIZE |
| PipelineLife.PlacedStep | connection.go:366-402 | no step puts a frame of a stream into any queue but that of its id |
| PipelineIds.AddReusesExactly | connection.go:950-964 | in every run, whatever the peer sends: a stream of the peer has the id of an earlier stream, which it replaces if that is still in the table, if and only if the endpoint itself has given that id out |
| PipelineIds.CreateReusesExactly | connection.go:683-707 | in every run, whatever the peer sends: CreateStream gives a stream the id of an earlier one if and only if the peer has opened a stream under that id |
| PipelineIds.PoliteIsFresh | connection.go:950-964 | in every run in which the peer opens streams under ids of its own parity no id is used twice |
| PipelineIds.StreamIsReplaced | connection.go:950-964 | a run in which an open stream is replaced in the table |
| PipelineExpiry.NoOrphanedReader | connection.go:96-107 | in every run: a stream that was added is in the table, or its closeChan is closed, or the thread that removed it can close it at once, or it is in the line of an expiry; over all six ways out of the table |
| PipelineExpiry.LineMoves | connection.go:102-107 | in every run: the goroutine of a line can take its next step unless it is in a write that blocks, each step brings every stream in the line nearer to its close, and no step of anyone else changes the line |
| PipelineExpiry.LineIsServed | stream.go:188-207 | in every run and continuation: after as many steps of its goroutine as are ahead of it a stream in line is closed |
| PipelineExpiry.LineCanBeServed | stream.go:188-207 | in every run: if its writes return, the goroutine alone closes any stream of its line, in at most that many steps |
| PipelineSweep.AfterTheSweep | connection.go:414-423 | in every run and continuation past the sweep: every stream added before it is out of the table, and its closeChan is closed, or the thread that removed it can close it at once, or it is in the line of an expiry |
| PipelineSweep.BlockedLineStaysOpen | connection.go:102-107 | once Serve has ended: while a write of its goroutine blocks, a stream further on in the line stays open, whatever else happens, unless the application resets it |
| PipelineSweep.BlockedLineIsOpen | connection.go:102-107 | a run to the end of Serve with such a stream, behind a write |
| PipelineSweep.LateStreamStaysOpen | connection.go:683-709 | a stream created after Serve has ended stays open in the table in every continuation in which it is neither reset nor expired |
| PipelineSweep.LateStreamIsOpen | connection.go:683-709 | a run to the end of Serve with such a stream |
| PipelineLife.ChannelsAndLastFrame | connection.go:526-570 | in every run: startChan and closeChan are closed at most once, nothing is sent on startChan after that, and at most one of DATA with FIN and RST_STREAM is begun |
| PipelineLife.NothingReverts | stream.go:57-80 | in every run and continuation: finished, replied, closed and end-of-file stay, and a stream never enters the table again |
| PipelineOrder.PushKeepsOrderExactly | connection.go:402-402 | a push keeps the frames of a stream in the order of the wire if and only if it does not put one of them in front of a different one |
| PipelineOrder.OrderAdvance | connection.go:426-457 | a step of a handler keeps that order, also one that removes the stream and so makes its later frames less urgent |
| PipelineOrder.OrderExactly | connection.go:366-402 | in every run, for every stream id and any peer: the frames read for the stream are those handled, in handling, queued and in the reader's hands, in that order, and no other lane has any, in all states of the run, if and only if no push has put one of them in front of a different one |
| PipelineUrgency.PriorityKeepsOrder | stream.go:214-220 | in every run: that is so for a stream that was added before its other frames were read and was never made more urgent, or less urgent than 7 |
| PipelineBytes.PendingMeansOpen | connection.go:611-621 | while a handler has data to give, the stream is not closed, so that the select cannot drop it |
| PipelineBytes.NothingSkipped | connection.go:597-626 | a handler that gets past the data of a frame has given it to the application |
| PipelineBytes.BytesAdvance | connection.go:597-626 | no step of a handler breaks the agreement of bytes read and frames handled |
| PipelineBytes.BytesSwept | connection.go:414-421 | when the sweep closes a stream all its data has been given |
| PipelineBytes.BytesInOrder | connection.go:597-626 | in every run: bytes returned and unread are a prefix of the stream's payloads in wire order, and all of them once the stream is closed or the reader has met the end |
| PipelineBytes.SoundExactly | connection.go:597-626 | the condition of that theorem is lost by exactly these steps: reset, expiry, data before the answer, a push in front of another frame of the stream |
| PipelineLoss.EndIsCompleteExactly | connection.go:605-609 | in every run, for a stream whose frames stay in order, that was neither reset nor expired and has no data behind the FIN: at end-of-file the application has all the bytes of the wire if and only if none met a handler before the stream was answered |
| PipelineLoss.DroppedIsLost | connection.go:605-609 | in every run: once data of a stream whose frames stay in order was dropped, the application has got less than the wire has brought, whatever follows |
| PipelineLoss.BytesStayInFront | stream.go:182-207 | in every run: also of a stream that was reset or expired, the bytes got are a prefix of the wire, unless data was dropped |
| PipelineExample.UnansweredDataIsLost | connection.go:605-609 | a run to end-of-file in which data before the answer is missing |
| PipelineExample.EarlyDataIsLost | connection.go:598-604 | a run to end-of-file in which data read before the stream was added is missing |
| PipelineExample.UrgencyReorders | stream.go:214-220 | a run in which a stream is made more urgent and its bytes are read out of order |
| PipelineExample.DataBehindTheEndIsLost | connection.go:613-619 | a run to end-of-file in which data behind the FIN is missing |
| PipelineExample.ResetLosesData | stream.go:182-207 | a run to end-of-file in which data queued at a reset is missing |
| PipelineExample.ReadsToTheEnd | connection.go:320-424 | a run in which a byte is read and the end met, under that condition |
| Handlers.Stream.Accepted | connection.go:467-491 | the new object is the stream that StreamLife.Accepted describes |
| Handlers.Stream.Created | connection.go:683-709 | the new object is the stream that StreamLife.Created describes |
| Handlers.Stream.CloseRemoteChannels | stream.go:337-345 | closes the channel unless it is closed |
| Handlers.Stream.WriteData | stream.go:57-80 | a last frame is written exactly if the stream was not finished, which it then is; otherwise the error |
| Handlers.Stream.ResetStream | stream.go:188-207 | always closes the channel; writes RST_STREAM exactly if the stream was not finished |
| Handlers.Stream.SendReply | stream.go:229-247 | refuses on a stream of one's own, writes one reply, and counts as answered only if the write succeeded |
| Handlers.Stream.EndByReset | connection.go:550-570 | leaves the stream closed, answered and finished, with startChan closed if the reset answered it |
| Handlers.StreamTable.AddStream | connection.go:958-964 | the table has the stream under its id, and no longer the one that had it |
| Handlers.StreamTable.RemoveStream | connection.go:966-972 | the table lacks the id and is otherwise the same |
| Handlers.StreamTable.GetStreamPriority | connection.go:459-465 | the priority of a stream in the table, 7 for any other |
| Handlers.StreamTable.RemoteStreamFinish | connection.go:666-675 | closes the stream, and removes it exactly if it was finished |
| Handlers.StreamTable.HandleReplyFrame | connection.go:526-548 | does what the stages of StreamLife do in a row, and keeps the table in step |
| Handlers.StreamTable.HandleDataFrame | connection.go:597-626 | the same for DATA |
| Handlers.StreamTable.HandleHeaderFrame | connection.go:572-595 | the same for HEADERS |
| Handlers.StreamTable.HandleResetFrame | connection.go:550-570 | the same for RST_STREAM |
| Dispatch.Dispatcher.constructor | connection.go:346-349 | the round robin starts at queue 0 |
| Dispatch.Dispatcher.Route | connection.go:364-402 | simulates the reading step of the pipeline: from objects that represent a state it returns where that step leads, and they represent the state after it |
| HandlerRuns.HandlerIsARun | connection.go:426-457 | what these methods do is a run of the pipeline that leaves the rest of the connection alone |
| HandlerRuns.MethodsCanPlay | connection.go:515-626 | their preconditions are what it takes for the handler not to block |
| Session.Connection.constructor | connection.go:238-249 | first ids by side |
| Session.Connection.GetNextStreamId | connection.go:935-942 | the next id, or 0 for ever once the ids are used up |
| Session.Connection.ValidateStreamId | connection.go:950-956 | accepts exactly ids of 31 bits that are not below the expected one |
| Session.Connection.CheckStreamFrame | connection.go:496-513 | accepts nothing after a GOAWAY; a reset is sent exactly for an invalid id |
| Session.Connection.GoAway | connection.go:643-651 | only the first caller gets past the flag |
| Session.Connection.LastGoodStreamId | connection.go:784-787 | the id below the next expected one, 0 if none |
| Session.Connection.EnterShutdown | connection.go:712-720 | only the first caller gets past the flag |
| Session.GoAwayIsSingleAndExact | connection.go:775-799 | against any peer: at most one GOAWAY is begun, it names the greatest id accepted in the whole run, and shutdown and the close of shutdownChan happen at most once |
| Session.EndpointsAgreeOnIds | connection.go:683-710 | two endpoints: no SYN_STREAM is rejected for its id, ids on the wire increase with fixed parity and 31 bits, ids of either origin never collide |
| Session.ExhaustionIsPermanent | connection.go:935-942 | in every run and continuation: an endpoint that has no id left never gives one out again |
| Session.GoAwayNamesTheAccepted | connection.go:784-794 | in every run, for a GOAWAY of either side, from when it is written on: its sender has accepted a stream of the peer if and only if the id is not above the one it names |
| Ping.IdsCycle | connection.go:282-289 | ping ids keep their parity, are never 0, and repeat after exactly 2^30 draws |
| PingThreshold.DoubleCloseThreshold | connection.go:282-297 | two endpoints, at either: with at most n calls between the read of pingId and the lock, and within m draws, a channel can be closed twice if and only if n and m are at least 2, or n is at least 1 and m exceeds 2^30 |
| PingThreshold.SerialPingsCloseOnce | connection.go:628-641 | in every run: if no two calls of an endpoint overlap in drawing an id, no channel is closed twice within 2^30 draws |
| PingThreshold.OverlapCloses | connection.go:283-292 | with two overlapping calls some run closes a channel twice |
| PingThreshold.WrapCloses | connection.go:285-289 | with calls one at a time some run does so at draw 2^30 + 1 |
| Ping.EachPingIsEchoedOnce | connection.go:628-641 | in every run, at either endpoint, for each id: the PINGs written by the peer are those under way and those received, and each of those is written back once, and nothing else is |
| Ping.PingsDoNotBounce | connection.go:634-640 | every step but a new ping leaves less to be sent, and an echo is never echoed |
| IdleMonitor.InvStep | connection.go:68-190 | no step of the framer breaks the order in which the monitor closes and clears the channels |
| IdleMonitor.NoSendOnClosedChannel | connection.go:131-190 | in every run: whoever sends, or is blocked in a send, does so on an open channel |
| IdleMonitor.BlockedMonitorIsFreed | connection.go:113-134 | while the monitor waits for a lock a step that frees it is enabled, each such step leaves fewer, and no other step adds to them |
| IdleMonitor.BlockingIsBounded | connection.go:113-139 | over any run, a bounded number of such steps is taken before the lock is free |
| HeaderBlock.SplitJoinExact | spdy/write.go:188-188 | splitting at NUL undoes joining if and only if the list is non-empty and its values have no NUL |
| HeaderBlock.BlockRoundTrip | spdy/read.go:194-251 | a map with ASCII names is written without error and comes back exactly if and only if its names are in wire form, its value lists can be split again, and it is within the limits, whatever the order |
| HeaderNames.DuplicateTest | spdy/read.go:229-231 | the duplicate test finds exactly the repeated names whose lower-case form is their canonical form |
| HeaderNames.AcceptedExactly | spdy/read.go:194-251 | a block whose entries can be read is accepted if and only if its names are lower-case and none that is its own canonical form is repeated |
| HeaderNames.RepeatedNameIsMerged | spdy/read.go:242-245 | a block that repeats a name and is accepted, with both values under the canonical name |
| HeaderNames.RepeatedNameIsRefused | spdy/read.go:229-231 | a block that repeats a name and is refused |
| FrameWriter.FlagsAndLow | spdy/write.go:157-157 | flags and a 24-bit length share a word without overlap |
| FrameWriter.Writer.WriteControlFrameHeader | spdy/write.go:150-162 | appends the eight bytes of the header |
| FrameWriter.Writer.WriteHeaderValueBlock | spdy/write.go:164-203 | appends the block in some order of the map, stops at an oversized field, and returns the exact number of bytes |
| FrameWriter.Writer.WriteSettings | spdy/write.go:48-78 | appends the frame, or nothing but an error if it is too long |
| FrameWriter.Writer.WriteRstStream | spdy/write.go:23-46 | appends the frame; a zero id writes nothing, a zero status leaves a truncated frame behind |
| FrameWriter.Writer.WritePing | spdy/write.go:80-97 | appends the frame, or nothing but an error for id 0 |
| FrameWriter.Writer.WriteWords | spdy/write.go:99-139 | appends a GOAWAY or WINDOW_UPDATE frame |
| FrameWriter.Writer.WriteWithHeaders | spdy/write.go:205-329 | appends a frame with a header block; after an error the header buffer keeps what was marshalled |
| FrameWriter.Writer.WriteDataFrame | spdy/write.go:331-355 | appends the frame, or nothing but an error for a bad id or length |
| FrameWriter.Writer.WriteFrame | spdy/write.go:145-148 | one of these, by the type of the frame |
| FrameReader.Reader.ReadHeaderValueBlock | spdy/read.go:194-251 | the parsed block or the first error that stops it, and what is left of the input |
| FrameReader.Reader.ReadSynStream | spdy/read.go:253-293 | the frame, the refusal of a header or of id 0, and what is left |
| FrameReader.Reader.ReadSynReply | spdy/read.go:295-325 | the same for SYN_REPLY |
| FrameReader.Reader.ReadMoreHeaders | spdy/read.go:327-363 | the same for HEADERS, with the refused names by the parity of the id |
| FrameReader.Reader.ReadRstStream | spdy/read.go:24-39 | the frame, or the error for a zero status before that for a zero id |
| FrameReader.Reader.ReadSettings | spdy/read.go:41-64 | the settings, or an error if their number exceeds the length |
| FrameReader.Reader.ReadPing | spdy/read.go:66-78 | the frame, or the error for id 0 or for flags |
| FrameReader.Reader.ReadWords | spdy/read.go:80-116 | the two words of GOAWAY or WINDOW_UPDATE, or an error for flags or a length other than 8 |
| FrameReader.Reader.ReadControlFrame | spdy/read.go:165-192 | the frame by its type, or an error after skipping an oversized payload |
| FrameReader.Reader.ReadDataFrame | spdy/read.go:365-382 | the frame with its exact payload, or the error for id 0 |
| FrameReader.Reader.ReadFrame | spdy/read.go:152-163 | control or data by the first bit |
| FrameRoundTrip.FrameRoundTrip | spdy/read.go:152-192 | a well-formed frame of any type is written without error, read back with its payload, and what follows is left untouched |
| FrameRoundTrip.FramesRoundTrip | spdy/write.go:145-148 | so is any list of them, in order |
| FrameRoundTrip.ReadBytes | spdy/read.go:24-116 | a frame without headers that is read is well formed, and the bytes it was read from are known |
| FrameRoundTrip.DecodeEncodeDecode | spdy/read.go:365-382 | what is read can be written and read again with the same payload; the bytes are the same exactly if the header was as writing leaves it, always for DATA |
| FrameRoundTrip.VersionDecides | spdy/read.go:80-116 | for GOAWAY and WINDOW_UPDATE that is so if and only if the version was 3 |
| FrameRoundTrip.ComesBackExactly | spdy/write.go:145-148 | any frame at all, with ASCII header names: it is written without error and read back as it was written if and only if it is well formed |
| FrameRoundTrip.ReadHeadersFrame | spdy/read.go:253-363 | a frame with ASCII headers that is read can be written and read again if and only if it still fits, in whatever order its headers are visited |

## Left out

- Header compression and its dictionary (spdy/read.go:137-149, spdy/dictionary.go): the model is of the mode with `headerCompressionDisabled`.
- Sockets, deadlines, addresses and timers; reading, writing and the passing of time are free choices of a step. In the codec a write to the connection always succeeds.
- Names with bytes that are not ASCII, on which `strings.ToLower` works as Unicode says: the theorems on header blocks are about ASCII names.
- `lastStreamChan` of a GOAWAY and the timeouts of `shutdown` (connection.go:653-658, connection.go:722-770).
- Whether a handler ever returns: it may wait for ever for a reader, or for whoever waits for a reply (connection.go:561, connection.go:614-617). Proved are safety, and progress where the table names it.
- A stream whose id is used again: the model follows the new one; what threads and handlers still do to the earlier one is not part of it.
- The close of the connection with which the goroutine of an expiry ends (connection.go:106) is the step `Close`, which may happen at any time.
- Readers of one stream in several goroutines: `unread` has no lock in the source, and the model has one reader for each stream.
- The handler of new streams is any behaviour of the application; `MirrorStreamHandler`, options, getters and the parent of a stream would add easy members only.
- A SYN_STREAM that is refused for its id is answered with RST_STREAM (connection.go:504-509): `Session.Connection.CheckStreamFrame` says when, the frame itself is not part of the pipeline.
- `Refuse` and `Cancel` (stream.go:253-266) write RST_STREAM without finishing the stream; in the pipeline the first only answers it, and neither counts as a last frame.
- Handlers.Stream.WriteData: waiting in waitWriteReply is its precondition; in the pipeline the step is not enabled before the answer.
- Handlers.StreamTable.HandleDataFrame: runs without interference; interleavings are in the pipeline, of which its calls are runs.
- PingThreshold.SerialPingsCloseOnce: the step in which Ping returns may happen at any time, also before its answer.
- IdleMonitor.BlockedMonitorIsFreed: supposes that a write to the network returns, and that Serve is the only reader of frames.
