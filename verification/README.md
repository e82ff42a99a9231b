# Nosshtradamus: a verified model of its concurrent core

Nosshtradamus puts a local, predictive terminal between a user and a remote shell. Three hand-written
concurrent components carry the bytes, and one small codec reads terminal sizes:

- **Asynk** (`internal/predictive/asynk.go`), an asynchronous sink. Writers copy into a linear buffer under a
  lock; a consumer goroutine takes a token from a one-slot channel, notes how far the buffer is filled, and
  hands that slice to the upstream *without* the lock. The buffer starts over only when it is fully drained.
- **RingDelayer** (`internal/predictive/delay.go`), a bounded ring of private copies with release times, a
  condition variable for writers that find it full, and a counting channel that wakes the consumer.
- **Interposer** (`internal/predictive/termemu.go`), the epoch protocol. Each Write opens a numbered epoch,
  asynchronous callbacks close them, a puller feeds what upstream sends to an emulator, and Read turns the
  last complete screen, with predictions on top, into a stream of differences for the client's terminal.
- **The pty-req and window-change payloads** (`internal/sshproxy/ptyreq.go`): sections 6.2 and 6.7 of
  RFC 4254, over the encodings of section 5 of RFC 4251.

## How the model is built

Every concurrent component is a step system on values (`...Protocol`): one step for each lock region, each
channel operation, each clock reading and each unlocked read or write, for any number of writers and in any
interleaving. The upstream write of Asynk is one step per byte, so that the slice it was given really has to
stay as it is; the private copy made by the ring is one step per byte too. `Run` says that steps can be taken
one after another and `After` where they lead. Invariants are proved step by step; the theorems are about
every run from the initial state.

Beside each step system stands a class (`...Object`) with the fields of the Go struct, arrays where the code
has arrays and loops where it has loops. Each method for a step is proved to do to the object exactly what the
step does to its view as a value and to keep the object valid, so what holds of all runs holds of the object.
Methods for whole calls, with nothing in between, are put together from these: `Asynk.Round`, and `Read`, `Write`,
`CloseEpoch` and `PullOnce` of `Interposer`.

For the interposer there is also an onlooker (`InterposerTrace`), who is told the steps and none of the fields. What
follows from the steps alone, such as the times and marks of the frames, the bytes for the client and the replies for
the host, is proved to be what the interposer has and hands out, in every run.

Fields and variables marked as history (what was accepted, delivered, stored, departed, shown, and all calls
into the prediction engine) record what happened and influence nothing. In the interposer they are part of
the state so that theorems can speak of them.

| module | contents |
|---|---|
| `Basics` | bytes, options, Go's `copy` |
| `AsynkProtocol`, `AsynkProofs`, `AsynkTheorems`, `AsynkLiveness`, `AsynkObject` | the asynchronous sink |
| `RingProtocol`, `RingProofs`, `RingTheorems`, `RingTiming`, `RingOrder`, `RingObject` | the ring delayer |
| `Pipeline` | the sink writing into the ring beside any other writers, as wired at `cmd/nosshtradamus/main.go:325-349` |
| `InterposerProtocol` and `InterposerScreens`, `-Epochs`, `-Contract`, `-Predictor`, `-Updates`, `-Sleep`, `-Client`, `-EndToEnd`, `-Trace`, `-Stream`, `-Typing`, `-Replies`, `-Rate`, `-Interval`, `-Object` | the interposer |
| `InterposerSink` | the interposer writing into its sink |
| `LineTerminal` | a concrete emulator, predictor, display and client terminal |
| `PtyCodec` | the payloads |

## What the code gives and what it does not

Some things the code, its comments or its documentation suggest do not hold. Each comes with a run that shows
it, and with the exact condition under which the property does hold.

- *A writer waiting for room in Asynk is woken* (the comment at `asynk.go:29-31`). The rejected put and the
  `Wait` are separate (`asynk.go:113-118`), so the last `Signal` can fall between them: `StrandingHappens`.
  It never happens exactly if no writer enters `Wait` once the sink has gone quiet: `StrandedExactly`; a busy
  sink can always go on to a `Signal`: `BusySignals`.
- *Write of Asynk returns how much it took.* It returns what its last recursive call took
  (`asynk.go:108`, `:120`): `ShortCountHappens`. The count is right exactly if no copy of the call finds room for
  only a part of what is left: `ReturnedCount`; room for all of it at the first copy is enough: `RoomSuffices`.
- *A chunk leaves the ring the delay after its call.* Even with an instant upstream and an ideal clock a full ring
  can make the delay longer, as the comment at `delay.go:116` says: a newcomer can take the freed slot ahead of
  the writer that was woken for it: `FullRingDelays`. Nothing but the delay is added exactly if the chunks got their
  slots in the order of the calls: `ExactDelay`; that is so if nobody is overtaken, and once nobody waits only then:
  `SlotsInCallOrder`. A single writer, or never a full ring, is enough: `ExactWithoutRivals`.
- *Every frame reflects what was acknowledged* (the callback contract at `termemu.go:60-65`). A callback may close
  its epoch when upstream's answer has been read but not yet performed (`termemu.go:353-357`): `AckedTooEarly`.
  The complete screen always reflects all that was acknowledged exactly if every close finds its input performed:
  `ReflectsExactly`. The contract is enough for closes that do not fall into that window: `HonouredBetweenReads`.
- *`pendingEpoch` says whether an epoch is open.* Not when closes come out of order: `OpenButNotPending`,
  `PendingButAllClosed`. It does exactly if each close is of the newest epoch just when that is the only one
  open: `PendingExactly`. Closes in order are one such case: `PendingInOrder`.
- *The latency clock measures from the oldest epoch not acknowledged* (the comment at `termemu.go:511`). Out of
  order it can start later than that: `StartedTooLate`. It never does exactly if no Write that finds it off finds
  an epoch open from before: `LatencyExactly`.
- *A reader never sleeps on a dropped update.* The flag can be set between its check and its `select`
  (`termemu.go:453-455`): `AsleepOnUpdate`. A reader with something to show always has a put coming that wakes it
  exactly if it never enters its `select` without one: `AttendedExactly`; see also `SafeExactly`.
- *At most one update for upstream data an interval* (the comment at `termemu.go:121-122`). `lastUpdated` takes the
  time from before the sleep, so it is two an interval: `FrameRate`, and no better: `TwoIsNeeded`. After a frame
  the next one is sure to be a full interval later exactly if the Read that made it neither slept nor waited:
  `IntervalExactly`.

The sink keeps the slice it hands out stable only until the upstream write returns (`SliceStable`,
`SliceReuseHappens`). The sink over the ring is correct because the ring copies (`Pipeline.OutputIsPrefix`).

## Model

| member | source | states |
|---|---|---|
| AsynkTheorems.Fifo | internal/predictive/asynk.go:55-126 | in every run, what the upstream has read followed by the unread stretch of the buffer is what was accepted from all writers, in order of acceptance |
| AsynkTheorems.WriterOrder | internal/predictive/asynk.go:55-126 | of each writer the upstream has read a prefix of what it submitted, over all its calls |
| AsynkTheorems.NilReturnAcceptsAll | internal/predictive/asynk.go:102-124 | a writer whose last call came back with a nil error has had every byte of every call accepted |
| AsynkTheorems.AcceptedPartIsPrefix | internal/predictive/asynk.go:97-120 | in the middle of a call, at any depth of recursion, the accepted part is a prefix of its argument; after an upstream error this holds of every call past its check of that error |
| AsynkTheorems.ReturnedCount | internal/predictive/asynk.go:93-124 | from the call to its return with a nil error, in any interleaving: the count is the length of the argument if and only if no copy of that call finds room for only a part of what is left |
| AsynkTheorems.RoomSuffices | internal/predictive/asynk.go:97-111 | a first copy that finds room for the whole argument makes the call return its length |
| AsynkTheorems.SliceStable | internal/predictive/asynk.go:58-62 | whatever writers do during an upstream write, the slice it was given keeps its bounds and its bytes |
| AsynkTheorems.NoLostNotification | internal/predictive/asynk.go:53-75 | bytes beyond what the upstream was told of imply a token in the channel or in the consumer's hand, a writer between copy and notify, or an upstream error |
| AsynkTheorems.Quiescence | internal/predictive/asynk.go:66-75 | consumer idle, no token and no writer between copy and notify: everything accepted is delivered and the whole capacity is free |
| AsynkTheorems.FullBufferDrains | internal/predictive/asynk.go:58-73 | from a full buffer, any run in which two upstream writes finish passes through an empty one; one is enough if it was told of all that is in the buffer |
| AsynkTheorems.ErrorStopsWrites | internal/predictive/asynk.go:61-65 | after an upstream error nothing more is delivered, every writer, woken or not, makes at most the one copy for which it had passed its check, and a call begun later copies nothing and can only be refused |
| AsynkTheorems.CheckedBeforeCopy | internal/predictive/asynk.go:94-120 | in every run, a writer about to copy has looked at the upstream error since its call, its last put and its last wake-up |
| AsynkProofs.StepKeepsInv | internal/predictive/asynk.go:46-126 | every step of any writer or of the consumer keeps the flow of bytes, each writer's own flow and the notification invariant |
| AsynkProofs.CopyLeavesSlice | internal/predictive/asynk.go:97-100 | a writer's copy under the lock does not touch the slice the upstream is reading without it |
| AsynkLiveness.StrandedExactly | internal/predictive/asynk.go:113-120 | along a run without upstream errors no writer sleeps with nobody left to signal it, if and only if every writer that enters Wait does so while the sink is busy |
| AsynkLiveness.BusySignals | internal/predictive/asynk.go:57-75 | from every reachable state of a busy sink without an upstream error there is a run, with no fresh call and nobody going to sleep, to the end of a round of the consumer, which signals a sleeper if there is one |
| AsynkLiveness.StrandedForGood | internal/predictive/asynk.go:113-120 | once the sink has gone quiet around a sleeper, only a fresh call can change that |
| AsynkLiveness.StrandingHappens | internal/predictive/asynk.go:113-118 | a run in which the last Signal precedes a writer's Wait, with the buffer empty |
| AsynkLiveness.SliceReuseHappens | internal/predictive/asynk.go:66-72 | a run in which the slice of a finished upstream write is overwritten by the next copy |
| AsynkLiveness.ShortCountHappens | internal/predictive/asynk.go:102-111 | a run in which a write of two bytes returns the count one and a nil error |
| AsynkObject.Asynk.MakeAsynk | internal/predictive/asynk.go:46-79 | a new object is the initial state and meets the invariant |
| AsynkObject.Asynk.Write | internal/predictive/asynk.go:93-93 | a call begins: nothing copied yet |
| AsynkObject.Asynk.CheckError | internal/predictive/asynk.go:94-96 | a known upstream error refuses the call, also a recursive one |
| AsynkObject.Asynk.CopyPiece | internal/predictive/asynk.go:98-98 | as many bytes as fit go behind the filled part, nothing else in the array changes |
| AsynkObject.Asynk.CopyIn | internal/predictive/asynk.go:97-100 | the lock region is the copy step on the shared array |
| AsynkObject.Asynk.TryNotify | internal/predictive/asynk.go:102-124 | put or rejected put, then return, recurse, or go on to wait |
| AsynkObject.Asynk.Wait | internal/predictive/asynk.go:117-119 | the writer goes to sleep with the rest of its argument |
| AsynkObject.Asynk.ReceiveToken | internal/predictive/asynk.go:57-57 | the consumer takes the token |
| AsynkObject.Asynk.TakeSnapshot | internal/predictive/asynk.go:58-61 | the consumer fixes the slice from the last transmitted index to the filled end |
| AsynkObject.Asynk.UpstreamReads | internal/predictive/asynk.go:61-61 | the upstream reads the next byte of the shared array, and that byte is delivered |
| AsynkObject.Asynk.UpstreamReturns | internal/predictive/asynk.go:61-65 | the upstream write returns, with or without an error |
| AsynkObject.Asynk.FinishRound | internal/predictive/asynk.go:66-74 | indices restart if and only if the buffer is drained, and one sleeper is signalled |
| AsynkObject.Asynk.UpstreamWrite | internal/predictive/asynk.go:61-61 | a whole upstream write delivers exactly the slice, in order |
| AsynkObject.Asynk.Round | internal/predictive/asynk.go:57-75 | a round of the consumer with no writer in between delivers all that is in the buffer and frees the whole capacity |
| RingTheorems.OccupiedSlots | internal/predictive/delay.go:58-129 | the occupied slots are exactly the cyclic window from head to tail |
| RingTheorems.TokenBalance | internal/predictive/delay.go:55-129 | occupied slots are queued tokens, plus writers that stored and have yet to notify, plus the token in the consumer's hand |
| RingTheorems.NotifyNeverBlocks | internal/predictive/delay.go:125-129 | a writer that stored its chunk can send on the channel at once |
| RingTheorems.NeverPopsEmpty | internal/predictive/delay.go:58-79 | a consumer that holds a token finds a chunk at the head, and only chunks go upstream |
| RingTheorems.FifoAndNotEarly | internal/predictive/delay.go:61-79 | chunks go upstream in slot order, each once, with the content captured by Write, none before its call time plus the delay |
| RingTheorems.NoLostWakeup | internal/predictive/delay.go:114-125 | while a writer sleeps, the free slots number at most the woken writers |
| RingTheorems.NoDeadlock | internal/predictive/delay.go:57-129 | a sleeping writer implies an enabled step of the consumer, of a woken writer or of a notifying writer, at once or when the consumer's sleep is over |
| RingProofs.StepKeepsInv | internal/predictive/delay.go:57-131 | every step of any writer, the consumer or the clock keeps the window, the token balance, the wakeup balance and what has left |
| RingProofs.StoreKeepsWindow | internal/predictive/delay.go:120-123 | storing at the tail extends the window by exactly the new chunk |
| RingProofs.PopKeepsWindow | internal/predictive/delay.go:73-75 | emptying the head shortens the window by exactly the oldest chunk |
| RingTiming.DepartureTimes | internal/predictive/delay.go:58-86 | under an ideal clock chunk i in slot order starts at the later of its call time plus the delay and the end of upstream write i-1, and nothing else enters into it |
| RingTiming.NeverLate | internal/predictive/delay.go:58-86 | under an ideal clock no chunk is late: the clock does not pass the departure time of a chunk that has not departed |
| RingOrder.SlotsInCallOrder | internal/predictive/delay.go:114-123 | chunks get their slots in the order of the calls if no call stores its chunk while an earlier one waits; once nobody waits any more, if and only if |
| RingOrder.ExactDelay | internal/predictive/delay.go:61-79 | with instant upstream writes, every chunk sent so far was delayed by exactly the delay if and only if they got their slots in the order of the calls |
| RingOrder.ExactWithoutRivals | internal/predictive/delay.go:61-79 | so the delay is exact for a single writer, and for any number of writers as long as none finds the ring full |
| RingOrder.FullRingDelays | internal/predictive/delay.go:115-118 | a run with a full ring in which a call due at 11 leaves at 20, overtaken by a later call |
| RingTiming.WorstBacklog | internal/predictive/delay.go:58-86 | the recurrence in closed form: each departure is the maximum, over earlier chunks, of due time plus the upstream time of the chunks in between |
| RingTiming.IdealGoesOn | internal/predictive/delay.go:57-131 | in every reachable state the ideal clock leaves some step open, so its runs can always be continued |
| RingObject.CaptureIsCopy | internal/predictive/delay.go:109-112 | reading the clock and copying byte by byte captures the argument as it was, with the time of the call |
| RingObject.RingDelayer.RingDelay | internal/predictive/delay.go:42-56 | a new object is the initial state and meets the invariant |
| RingObject.RingDelayer.Prepare | internal/predictive/delay.go:109-112 | the head of Write captures the caller's array in a private copy |
| RingObject.RingDelayer.StoreOrWait | internal/predictive/delay.go:114-125 | the chunk is stored at the tail if and only if the ring has room, otherwise the writer goes to sleep |
| RingObject.RingDelayer.SendNotify | internal/predictive/delay.go:129-129 | the send on the channel is possible and adds one token |
| RingObject.RingDelayer.ReceiveToken | internal/predictive/delay.go:58-58 | the consumer takes one token |
| RingObject.RingDelayer.PeekHead | internal/predictive/delay.go:59-77 | the consumer sleeps if and only if the head is not due, otherwise pops it |
| RingObject.RingDelayer.PopHead | internal/predictive/delay.go:73-77 | the head slot is emptied, head advances cyclically, one sleeper is signalled |
| RingObject.RingDelayer.WakeUp | internal/predictive/delay.go:69-77 | after the sleep the consumer pops the chunk it looked at before |
| RingObject.RingDelayer.StartUpstream | internal/predictive/delay.go:79-79 | the upstream is given the next stored chunk, the buffer taken from the head slot |
| RingObject.RingDelayer.FinishUpstream | internal/predictive/delay.go:79-86 | the consumer returns to the channel |
| Pipeline.OutputIsPrefix | cmd/nosshtradamus/main.go:325-349 | with the sink and any other writers over the ring, the sink's chunks in the final output are a prefix of everything accepted, although the sink reuses its buffer while chunks are queued |
| Pipeline.QuietMeansAllOut | internal/predictive/termemu.go:274-274 | once both consumers are idle, both channels empty and nobody is about to notify, they are all of it |
| Pipeline.SlicePasses | cmd/nosshtradamus/main.go:325-349 | from every reachable state in which the sink begins an upstream write and the ring has a free slot, the write can go through without a stop, the slice becomes one chunk due the delay from now, and the sink goes on as after a write without an error |
| Pipeline.StepKeepsInv | internal/predictive/delay.go:109-130 | every step of the combined system keeps both invariants and the link between delivered bytes and stored chunks |
| InterposerScreens.ScreensAreRecorded | internal/predictive/termemu.go:333-378 | the complete screen is always the emulator's framebuffer as recorded after some prefix of the upstream chunks, and equals the pending screen when no epoch is pending and the puller is between chunks |
| InterposerScreens.NeverBackwards | internal/predictive/termemu.go:333-378 | that prefix never shrinks |
| InterposerScreens.AtMostOneStore | internal/predictive/termemu.go:376-378 | while an epoch stays pending the puller replaces the complete screen at most once, with a copy past its check |
| InterposerScreens.HeldBack | internal/predictive/termemu.go:325-340 | otherwise only CloseEpoch replaces it while an epoch is pending |
| InterposerEpochs.NotPending | internal/predictive/termemu.go:325-340 | with closes in any order: acked never exceeds sent, sent equals epoch, and pendingEpoch false implies the newest epoch is closed and the latency clock is off |
| InterposerEpochs.PendingExactly | internal/predictive/termemu.go:327-334 | pendingEpoch always says whether an epoch is open if and only if each close is of the newest epoch just when it is the only one open |
| InterposerEpochs.PendingInOrder | internal/predictive/termemu.go:507-537 | with closes in order pendingEpoch and the latency clock are exact, and the clock started no later than the opening of anything still open |
| InterposerEpochs.OpenButNotPending | internal/predictive/termemu.go:327-338 | a run with two epochs closed out of order after which pendingEpoch is false and an epoch is open |
| InterposerEpochs.PendingButAllClosed | internal/predictive/termemu.go:327-334 | a run after which pendingEpoch is true and no epoch is open |
| InterposerEpochs.StartedTooLate | internal/predictive/termemu.go:507-514 | a run in which the latency clock starts after an epoch that is still open |
| InterposerEpochs.LatencyExactly | internal/predictive/termemu.go:507-514 | with closes in any order, the latency clock is always no later than the opening of every open epoch if and only if no Write that finds it off finds an epoch open that was opened before now |
| InterposerContract.ReflectsExactly | internal/predictive/termemu.go:325-340 | with closes in any order, the complete screen always reflects the epoch last acknowledged and every closed epoch if and only if every close finds its input performed by the puller |
| InterposerContract.FramesReflectAcks | internal/predictive/termemu.go:473-482 | if every close finds its input performed, every frame was made from a screen that reflects the epoch last acknowledged and every epoch closed by then |
| InterposerContract.HonouredBetweenReads | internal/predictive/termemu.go:60-65 | a close that honours the documented contract finds its input performed, unless it falls between the puller's read and the lock region that performs it |
| InterposerContract.AckedHasArrived | internal/predictive/termemu.go:350-360 | under the documented contract alone, all that was acknowledged is reflected in the newest recorded screen or in the chunk the puller holds |
| InterposerContract.AckedTooEarly | internal/predictive/termemu.go:353-357 | a run that honours the documented contract with a frame that does not reflect the epoch last acknowledged |
| InterposerContract.CallbackStarts | internal/predictive/termemu.go:541-543 | every Write gets to start the callback of an epoch of its own |
| InterposerPredictor.EngineIsTold | internal/predictive/termemu.go:327-331 | over every run the prediction engine is told of epochs 1, 2, 3, ... as sent, each once and in order, and of no acknowledgement before the epoch was sent |
| InterposerPredictor.CullsReflectAcks | internal/predictive/termemu.go:475-478 | if every close finds its input performed, every framebuffer given to Cull is a recorded screen that reflects the epoch last acknowledged to the engine |
| InterposerUpdates.NothingForgotten | internal/predictive/termemu.go:342-347 | if the complete screen differs from that of the last frame, or the engine was told of more than epochs sent and latencies since its last Cull, then droppedUpdate is set, a notifier has yet to run, or the reader is past its gate and has yet to copy |
| InterposerUpdates.GateDoesNotBlock | internal/predictive/termemu.go:453-471 | a Read at its gate with a change to show and no notifier in flight goes on without blocking |
| InterposerUpdates.GateEmitsNewest | internal/predictive/termemu.go:453-482 | left to itself that Read then emits the difference from localState to the complete screen with predictions as they are at the gate, and nothing stays flagged |
| InterposerUpdates.QuietMeansShown | internal/predictive/termemu.go:471-482 | with nothing flagged, in flight or about to be looked at, the last frame was made from the complete screen as it is, and the engine was told of no more than epochs sent and latencies since |
| InterposerSleep.SafeExactly | internal/predictive/termemu.go:453-455 | no reader is ever in its select with the flag set or a notifier that gave up on it, if and only if none enters it after that has happened |
| InterposerSleep.AttendedExactly | internal/predictive/termemu.go:453-469 | a reader in its select with something to show always has a put coming, if and only if it enters its select only with nothing to show or a put still coming |
| InterposerSleep.SafeMeansWoken | internal/predictive/termemu.go:453-469 | a put that is coming wakes the reader in its select, and a reader that nobody gave up on has one coming for every change |
| InterposerSleep.AsleepOnUpdate | internal/predictive/termemu.go:453-455 | a run in which a keystroke's update is dropped between check and select, and the reader sleeps on it with no notifier left |
| InterposerClient.ClientShowsLocalState | internal/predictive/termemu.go:411-493 | for all reads of any size, writes with or without repaints, pulls and closes: after a first frame the client's terminal, given all bytes read and those waiting, shows exactly localState |
| InterposerClient.DrainedClient | internal/predictive/termemu.go:411-438 | with nothing waiting and no Read under way the client shows the last frame |
| InterposerTrace.OnlookerIsRight | internal/predictive/termemu.go:325-544 | over every run, what follows from the steps alone is what the interposer has: for each frame the call time of its Read, when it was made, the epochs closed before, and that it is marked as a prediction exactly if a Write took its Read out of its select; the input of the emulator in order; the flag; whether the next frame is a repaint; and lastUpdated as the call time of the last Read that returned with a frame not so marked |
| InterposerTrace.GatePassesExactly | internal/predictive/termemu.go:453-471 | a Read goes past its select, and not as a prediction, exactly if somebody gave up on it since it last cleared the flag |
| InterposerStream.StreamIsMade | internal/predictive/termemu.go:411-493 | in every run, what the client has read, what waits and what a Read has in hand is byte for byte: the opening bytes once Read has been called, then for each frame the difference from the frame before, or the whole of it if it is the first or 0x0c was typed since |
| InterposerStream.ReadGivesNext | internal/predictive/termemu.go:411-493 | in every reachable state, a Read that returns gives the next bytes of that stream, as many as fit into its buffer |
| InterposerStream.WaitingIsRead | internal/predictive/termemu.go:412-421 | reads with buffers of any sizes but zero come to the end of what waits and give all of it |
| InterposerTyping.EngineSeesKeys | internal/predictive/termemu.go:516-518 | in every run the prediction engine is told of exactly the bytes written, in order, each with the screen of the last frame before it |
| InterposerReplies.TypeFeeds | internal/predictive/termemu.go:516-524 | the byte loop of Write leaves emulator and engine fed with the bytes one by one, and has for the host just what the emulator replied to each |
| InterposerReplies.SubmittedAreReplies | internal/predictive/termemu.go:503-541 | in every run, what a writer has submitted and has in hand is, call by call, what the emulator after all earlier input replies to the bytes of its calls of Write |
| InterposerEndToEnd.UserSeesRemoteScreen | internal/predictive/termemu.go:353-482 | once a frame has been made, nothing is in flight or flagged, no epoch is pending and the client has read everything, its terminal shows the remote screen after all chunks performed with what the engine laid over it at its last Cull, since when the engine was told of no more than epochs sent and latencies |
| LineTerminal.InstanceIsLawful | internal/predictive/termemu.go:479-479 | the laws assumed of display and terminal can be met |
| InterposerRate.FrameRate | internal/predictive/termemu.go:444-496 | among the frames whose Read no Write took out of its select, as an onlooker sees them, frame k+2n is made at least n coalesce intervals after frame k |
| InterposerRate.NextFrame | internal/predictive/termemu.go:444-496 | the time to the next such frame is at least the interval, less the time its predecessor took from the start of its Read to being made |
| InterposerInterval.IntervalExactly | internal/predictive/termemu.go:444-496 | from any reachable state in which such a frame is made: however the run goes on, the next one comes a full interval later, if and only if there is no interval to keep or the Read of this one neither slept nor waited |
| InterposerInterval.TwoIsNeeded | internal/predictive/termemu.go:444-496 | for every emulator, predictor and display, a run with two such frames at the same moment although the interval is positive |
| InterposerSink.UpstreamGetsReplies | internal/predictive/termemu.go:503-541 | in every run of interposer and sink the upstream is given, of each writer, a prefix of what the emulator replies to the bytes of its calls of Write, in order |
| InterposerSink.RestMeansAllGiven | internal/predictive/termemu.go:274-274 | with the sink at rest and the writer not in it, the upstream has been given all that was handed over, which is all the replies once the writer has returned |
| InterposerObject.StepKeepsInv | internal/predictive/termemu.go:325-544 | every step of writers, callbacks, puller, reader and clock keeps what is known of the screens, the books, the updates and what there is to show |
| InterposerObject.Interposer.Interpose | internal/predictive/termemu.go:270-311 | a new object is the initial state and valid |
| InterposerObject.Interposer.TypeBytes | internal/predictive/termemu.go:516-524 | the byte loop feeds engine and emulator byte by byte, collects what the emulator replies to each, and asks for a repaint if and only if 0x0c is among the bytes |
| InterposerObject.Interposer.BeginRead | internal/predictive/termemu.go:412-449 | pending bytes first, as many as fit, then once the opening bytes, as many as fit and the rest pending, else a sleep exactly until the coalesce interval is over, or none |
| InterposerObject.Interposer.Deal | internal/predictive/termemu.go:484-493 | what fits goes into the caller's array, the rest behind the pending bytes |
| InterposerObject.Interposer.PassGate | internal/predictive/termemu.go:453-453 | the gate lets the Read pass at once, and not as a prediction, if and only if droppedUpdate is set, which it is for any change not announced |
| InterposerObject.Interposer.Read | internal/predictive/termemu.go:411-499 | a whole Read with something to show returns when the interval is over and gives the client the difference from localState to the newest screen with predictions, or as much of it as fits, the rest waiting |
| InterposerObject.Interposer.Write | internal/predictive/termemu.go:502-544 | a whole Write tells the engine the latency since the oldest epoch, feeds the input, opens the next epoch, hands the emulator's replies to the sink, and for any input wakes the reader with a prediction or else sets the flag |
| InterposerObject.Interposer.CloseEpoch | internal/predictive/termemu.go:325-348 | a whole CloseEpoch shows what is pending, acknowledges the epoch with its latency, and wakes the reader, not with a prediction, or else sets the flag |
| InterposerObject.Interposer.PullOnce | internal/predictive/termemu.go:352-392 | a whole round of the puller performs the chunk, shows it unless an epoch is pending, and wakes the reader, not with a prediction, or else sets the flag |
| PtyCodec.Uint32Inverse | internal/sshproxy/ptyreq.go:38-52 | big-endian encoding and decoding of a uint32 undo each other, both ways |
| PtyCodec.MostSignificantFirst | internal/sshproxy/ptyreq.go:38-52 | the example of section 5 of RFC 4251, both ways |
| PtyCodec.ReadUint32 | internal/sshproxy/ptyreq.go:38-40 | a number is read exactly if four bytes are left, and its encoding is those bytes; otherwise EOF at the very end and unexpected EOF before it |
| PtyCodec.PtyReqExactly | internal/sshproxy/ptyreq.go:33-56 | InterpretPtyReq gives d if and only if the payload begins with the encoding of d |
| PtyCodec.PtyReqSucceeds | internal/sshproxy/ptyreq.go:33-50 | it succeeds if and only if the length is at least 12 plus the announced length of TERM, and fails with EOF exactly on the field boundaries |
| PtyCodec.PtyReqRoundTrip | internal/sshproxy/ptyreq.go:33-56 | it inverts the RFC 4254 encoding for every TERM, pixel size and terminal modes |
| PtyCodec.PtyReqIgnoresSuffix | internal/sshproxy/ptyreq.go:33-56 | bytes after an acceptable payload never change the result |
| PtyCodec.WindowChangeExactly | internal/sshproxy/ptyreq.go:71-85 | InterpretWindowChange gives wc if and only if the payload begins with its columns and rows, succeeds exactly from eight bytes on, and fails with EOF exactly at zero and four |
| PtyCodec.WindowChangeRoundTrip | internal/sshproxy/ptyreq.go:71-104 | it inverts the window-change payload for all sizes |
| PtyCodec.PixelFields | internal/sshproxy/ptyreq.go:96-99 | the pixel fields of the payload spell eight times columns and rows, modulo 2^32 |
| PtyCodec.Reader.Read | internal/sshproxy/ptyreq.go:41-44 | reading n bytes byte by byte gives them all or the right EOF error, and leaves the reader behind them |
| PtyCodec.Reader.ReadNumber | internal/sshproxy/ptyreq.go:38-40 | four bytes are combined into the number whose encoding they are |
| PtyCodec.InterpretPtyReq | internal/sshproxy/ptyreq.go:33-56 | the advancing reader computes what is proved above, and succeeds exactly when stated |
| PtyCodec.InterpretWindowChange | internal/sshproxy/ptyreq.go:71-85 | the advancing reader returns the size the payload begins with |
| PtyCodec.Serialize | internal/sshproxy/ptyreq.go:87-104 | sixteen bytes that read back as the same size, whose pixel fields spell eight times the cells modulo 2^32 |

## Left out

- SSH, TCP, agent, keys, host keys, authentication, flags and banner: plumbing around libraries.
- Channel and request forwarding, the request filter and IoSwitch: only easy facts.
- The Mosh classes are functions given from outside. NewUserByte is taken not to change `localState`, in step with the comment that it only predicts. The laws are those of `InterposerClient.Lawful`; that a prediction is a good one is not modelled.
- In the step system of the interposer, the puller's own write of what the emulator replies (`termemu.go:361-374`), and errors of that write. `Pipeline` allows it as one of the other writers of the ring.
- CurrentContents, Resize, the preference setters, GetVersion, Callback and the String methods.
- Close of all three components and everything after the first termination: EOF and error branches of Read and of the puller, termination of the ring. The upstream error path of Asynk is modelled, its Close is not.
- A ring of size zero.
- Reads of the interposer come from one goroutine, as an io.Reader is used here; Read is not modelled against another Read.
- Unlocked reads and writes of one variable are atomic and seen by everybody in one order; Go's memory model promises less for the ones that race.
- The order in which concurrent calls of Write reach the sink is that of the steps, not of the epochs: the code does not fix it either. InterposerSink therefore speaks of each writer.
- CloseEpoch is called once for each epoch, from its callback, with the time it was given; in the code a callback could call it with anything.
- Integers of the machine are unbounded here, except in the codec; a uint64 epoch does not wrap in practice.
- The time and memory that a huge announced TERM length costs.
- IdealGoesOn: the ideal clock is an assumption about scheduling, and no fairness is proved; it only says that a run never gets stuck.
- DepartureTimes: real sleeps may end late. That no chunk leaves early, without any assumption about the clock except that it does not go back, is FifoAndNotEarly.
- StrandedExactly: assumes no upstream error; after one the consumer goroutine is gone, and only Close, which is left out, would wake a sleeper.
- QuietMeansShown: a Write of no bytes tells the prediction engine of a new epoch without any notification (`termemu.go:525-538`); that alone is not counted as a change to show.
- Channels without a buffer: a non-blocking put succeeds if and only if the reader is in its select, with no goroutine of its own for the channel.
- Chunks in the ring are values in an array slot; the code's private copies are slices that nobody writes to after the copy is made.
