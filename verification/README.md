# deskhopplus, modelled

A keyboard and mouse switch made of two boards, each with two cores, and a helper
program on each computer. This project models the parts of it whose correctness
is about whole runs, over two cores, two boards, lossy links and clocks that wrap,
and proves what they promise.

- **Framed channel.** `Frame` is the wire format, `Messages` its registry. `FrameReader`
  is the reader that reassembles frames from byte slices or from 64-byte reports and
  bridges lost ones; `Slices` says that slicing does not matter, `Carrier` what
  arrives when reports are lost, `Resyncs` what the reader's count of that means.
  `OutboundQueue` is the two-band queue, `Channel` the drain that lets its lock go
  between peek and advance, `Admission` which offers it takes and that they go out,
  `EndToEnd` the composition of it all.
  `OwedPlace` is the placement the lifecycle owes in front of that queue.
- **Anti-replay window.** `ReplayWindow` ties the 64-bit mask to the set of counters
  accepted, as in section 3.4.3 of RFC 4303.
- **Firmware pull.** `FirmwarePull` is the word-by-word copy of an image between the
  boards over a link that loses, repeats and reorders, into flash that erases to
  ones and programs by AND; `PullProgress` is when it asks again, gives up and gets to
  its end, `Convergence` which board pulls.
- **Cursor crossing.** `Crossing` is the transaction between core 1, which takes the
  cursor over an edge, and core 0, which applies the helper's answers, down to the
  single stores of a selection, which core 1 makes without the lock. `CrossingLayout`
  is the grid of screens, `CrossingRuns` what holds over every run, `CrossingEdges`
  where an edge ends up, `CrossingOutcomes` how each crossing ends, `CrossingFaults`
  runs that go wrong, `CrossingMachine` the state in place.
- **Inbound ring.** `InboundRing` is the four-slot ring between the cores.
- **Helper.** `HelperCore` is the helper's session machine, `HelperRuns` what holds
  over every run of it, `HelperCauses` why it shows what it shows, `HelperClocks`
  what its clocks promise, `HelperMachine` the machine with its fields.
- **Codecs and keys.** `FileNames`, `FileList` and `FileListIO` are the file list,
  `DeviceNames` the names and bytes it must not hold, `FileGrammar` its language;
  `Hotkeys` and `Keyboard` the binding order and the chord latch; `Crc32` the two
  table-driven checksums and the polynomial they divide by. `Basics` is what several
  modules share.

Where the source updates fields or buffers in place there is a class, or a method
on an array, whose contract ties it to a function of values; the theorems are about
those functions. Protocols are state machines over every sequence of steps. Time is
a parameter of the steps; keys, tags, nonces and correlation values are opaque, and
whether a derivation, a decode or an enqueue succeeds comes in with the step.

Some things a reader may not expect, each with a proof:

- A report-level loss can deliver a frame nobody sent, when one frame loses its end
  and the next its start (`Carrier.BrokenDelivery`); `Carrier.LossyCarrier` has the
  exact condition.
- An answer to an abandoned firmware pull can make the next pull pass over a page.
  The last sector is outside the checksum, so such a pull can reboot into an image
  that is not the peer's (`FirmwarePull.StaleAnswerLosesPage`);
  `FirmwarePull.PullCopiesImage` has the exact condition.
- A device name at the length limit whose prefix makes room next to a dot or space
  goes out uncleanable and the far end refuses the whole list
  (`FileList.RefusedByFarEnd`).
- Two cores selecting a screen at once can come to rest in relative mode on a screen
  that should not have it, on the output switched to
  (`CrossingFaults.TornFromStart`) or on one output alone
  (`CrossingFaults.TornOnMainScreen`); `CrossingRuns.EveryRun` has the exact
  condition, and `CrossingEdges.ModeHeals` says that it takes an overlap and that the
  next selection made alone heals it.
- A query that is answered and then called unavailable takes its edge twice
  (`CrossingFaults.TwiceFromStart`, `CrossingFaults.AnsweredThenUnavailable`).
- The comment at src/mouse_logic.c:516-521 says that motion is held while a crossing
  is pending. The peer's mouse is not (`CrossingFaults.PeerMovesWaiting`).
- A task pass that retries an unsent query can return with a crossing answered but
  not ended; the next pass ends it (`CrossingRuns.PassLowers`).
- Two keyboards can crowd a chord's key out of the combined report and then type it
  (`Keyboard.CrowdedOut`); `Keyboard.TypedExactly` has the exact condition.
- The comment at src/utils.c:262-266 says that a request the queue refuses waits out a
  re-request interval. It does only while a word is outstanding; otherwise the next
  pass asks again at once (`PullProgress.AsksAgain`).
- A border in the chain's own direction cuts the first screen off from the second, and
  an output of several screens with no chain direction and a border above or below it
  can be left from its first screen only (`CrossingLayout.ThereAndBack`,
  `CrossingLayout.TransitionIs`).

## Model

| member | source | states |
|---|---|---|
| `Frame.EncodeDecodes` | src/core/dh_frame.c:53-71 | whatever is encoded decodes to the same type, flags and payload, whatever bytes follow it |
| `Frame.DecodeEncodes` | src/core/dh_frame.c:24-51 | every well-formed frame is the encoding of its own header and payload, so decoding and encoding are inverse both ways |
| `Frame.FramePrefix` | src/core/dh_frame.c:38-51 | a frame at the front of a buffer is the frame decoding finds, and the rest is left |
| `Messages.Registry` | src/core/dh_frame.h:44-73 | a type is known exactly when it is one of the 29 messages, named with their types, and bulk exactly when that message is |
| `Messages.CodesDiffer` | src/core/dh_frame.h:44-73 | no two messages share a type |
| `Messages.MessageEncodes` | src/core/dh_frame.c:53-71 | every message encodes exactly when its payload is within 4096 bytes and it fits, to type, flags, length low byte first, and payload |
| `Messages.FrameIs` | src/core/dh_frame.c:24-51 | a frame is that and nothing else is one |
| `FrameReader.Push` | src/core/dh_frame.c:98-142 | a push consumes at most what it is given, all of it when it must wait, and always leaves the start of a frame or nothing |
| `FrameReader.Report` | src/core/dh_frame.c:150-192 | a report always leaves the start of a frame or nothing pending |
| `FrameReader.Reader.Fill` | src/core/dh_frame.c:79-87 | copies only what the wanted length lacks into the fixed buffer and says how far the data is used |
| `FrameReader.Reader.Release` | src/core/dh_frame.c:89-96 | forgets a frame handed out, and only that |
| `FrameReader.Reader.PushBytes` | src/core/dh_frame.c:98-142 | the fixed-storage reader does to its buffer exactly what one decode of everything unread does |
| `FrameReader.Reader.ReadReport` | src/core/dh_frame.c:150-192 | the same for a flagged 64-byte report, resync count included |
| `Slices.SliceIndependence` | src/core/dh_frame.c:79-142 | any byte stream in any partition reads the same frames, leaves the same bytes and ends in the same error as decoding the whole stream with padding skipped between frames |
| `Slices.SliceIsPrefix` | src/core/dh_frame.c:98-142 | one slice reads what the whole stream starts with, and the rest of the stream goes on from its leftover |
| `Slices.ReadOne` | src/core/dh_frame.c:98-142 | the caller's loop over one slice on the machine comes to the outcome the functions say |
| `Slices.ReadAll` | src/core/dh_frame.c:98-142 | the loop over any slices on the machine comes to the decoding of the whole stream |
| `Carrier.WholeFrame` | src/core/dh_frame.c:150-192 | a frame all of whose reports arrive is delivered, alone and intact, whatever the reader held before |
| `Carrier.BrokenFrame` | src/core/dh_frame.c:150-192 | a frame that keeps its start and loses anything else delivers nothing, fails nothing, and leaves its start and the continuations kept in progress |
| `Carrier.HeadlessFrame` | src/core/dh_frame.c:164-190 | exactly what a frame without its start does: nothing, more of the one in progress, or its end, and delivers that one if and only if only padding is left over |
| `Carrier.ContinueMany` | src/core/dh_frame.c:164-190 | what any run of continuation reports does to a frame in progress, by length alone |
| `Carrier.LossyCarrier` | src/core/dh_frame.c:89-192 | any frames, cut as the emitter cuts them, any reports lost: no protocol error, every frame whose reports all arrive is delivered once, intact and in its place, and nothing else is delivered if and only if no headless frame borrows |
| `Carrier.NoStartLost` | src/core/dh_frame.c:180-190 | if no frame-start report is lost, exactly the intact frames are delivered |
| `Carrier.BorrowedTail` | src/core/dh_frame.c:180-190 | the failing family: two frames of two full reports, the head of one delivered with the tail of the other |
| `Carrier.BrokenDelivery` | src/core/dh_frame.c:180-190 | a concrete loss under which a frame nobody sent is delivered |
| `Resyncs.ContinuesCount` | src/core/dh_frame.c:156-190 | what any run of continuation reports adds to the resync count: nothing until the frame in progress ends, one if it ends on bytes of another, one for each after it |
| `Resyncs.ResyncsAreLosses` | src/core/dh_frame.c:144-192 | for any frames and any loss the resync count is what the losses amount to, frame by frame |
| `Resyncs.NoLossNoResync` | src/core/dh_frame.c:144-192 | which is nothing when nothing is lost |
| `Carrier.Receive` | src/core/dh_frame.c:150-192 | the receiving loop on the machine comes to the run the theorems speak of |
| `OutboundQueue.OfferKeeps` | src/core/dh_outq.c:110-172 | every offer keeps the queue valid (one band in flight, frames well formed, `refused` the saturating sum of its causes), and one refused changes only the totals |
| `OutboundQueue.OfferPairKeeps` | src/core/dh_outq.c:174-206 | the same for a pair |
| `Admission.OfferDecides` | src/core/dh_outq.c:110-172 | an offer is accepted if and only if it is a frame and its band has room: a priority frame of at most 128 bytes beside fewer than two owed, a bulk frame with none owed or of at most 1095 bytes beside fewer than four |
| `Admission.PairDecides` | src/core/dh_outq.c:174-206 | a pair is accepted if and only if both are priority frames of at most 128 bytes, none is owed, and no bulk frame has begun |
| `Admission.PreambleOnce` | src/core/dh_outq.c:208-259 | the view says a preamble is owed until it is noted, once a frame |
| `Admission.NewFrameOwes` | src/core/dh_outq.c:145-156 | a frame accepted into an idle queue is shown whole with its preamble owed |
| `Admission.ResetForgets` | src/core/dh_outq.c:96-108 | a reset leaves nothing owed and every total as it was |
| `Admission.EveryOfferCounted` | src/core/dh_outq.c:82-90 | over every run the frames accepted are exactly those offered with room beside the ones accepted and not finished, and each total is the number of offers refused for its cause |
| `Admission.EverythingGoesOut` | src/channel.c:422-463 | nothing is starved: from any state of any run, whatever reports the transport refuses meanwhile, once it has taken enough every accepted frame is finished, each band in order |
| `OutboundQueue.AdvanceKeeps` | src/core/dh_outq.c:237-252 | crediting a band keeps the queue valid if and only if it does not begin a second frame while the other band is in flight |
| `OutboundQueue.PreambleKeeps` | src/core/dh_outq.c:254-259 | and noting a preamble does if and only if the other band is not in flight or the one named holds nothing |
| `OutboundQueue.RefuseKeeps` | src/core/dh_outq.c:85-90 | the total stays the saturating sum of its three causes |
| `OutboundQueue.RingPut` | src/core/dh_outq.c:143-171 | writing the slot behind the newest staged frame appends to the ring, across its wrap |
| `OutboundQueue.OutQueue.OfferFrame` | src/core/dh_outq.c:110-172 | the machine with its staging rings does what the queue of sequences does |
| `OutboundQueue.OutQueue.OfferTwo` | src/core/dh_outq.c:174-206 | both frames in order or neither, on the machine |
| `OutboundQueue.OutQueue.PeekNext` | src/core/dh_outq.c:208-222 | the view of the band owed: bulk in flight, else priority, else bulk |
| `OutboundQueue.OutQueue.Credit` | src/core/dh_outq.c:237-252 | credits the band named, whatever the other is at, clamped, and promotes the next frame of that band |
| `OutboundQueue.OutQueue.PreambleSent` | src/core/dh_outq.c:254-259 | marks the preamble of the band named, whatever the other is at |
| `OutboundQueue.OutQueue.Clear` | src/core/dh_outq.c:96-108 | drops everything queued and keeps all four totals |
| `Channel.StepKeeps` | src/channel.c:422-463 | every step of the drain or of another core keeps: a held report is still the next one of its band, each band is FIFO, the wire is whole frames and one part |
| `Channel.WholeFramesInOrder` | src/channel.c:422-463 | over every interleaving of offers with a drain that unlocks between peek and advance: the wire is a prefix of whole accepted frames end to end, each band FIFO, at most one band in flight |
| `Channel.PriorityWaitsForOne` | src/core/dh_outq.c:39-50 | until a priority frame already accepted is finished, at most one bulk frame finishes |
| `Channel.PairLeavesAdjacent` | src/core/dh_outq.c:174-206 | a pair admitted leaves adjacent and in order behind at most one bulk frame, whatever is offered meanwhile and wherever the drain was |
| `EndToEnd.EndToEndDelivery` | src/channel.c:422-463 | offers in any interleaving with the drain, reports lost in any pattern: the reader fails on nothing, delivers every frame wholly sent and arrived, once, intact and in order, and exactly those if and only if no headless frame borrows |
| `EndToEnd.NothingLost` | src/channel.c:422-463 | with nothing lost the reader has delivered, at every moment, exactly the frames whose last report has gone out |
| `OwedPlace.MoveKeeps` | src/channel_lifecycle.c:298-360 | every step of either core keeps the wrapping counters, the copied placement and the history together |
| `OwedPlace.NewerStaysOwed` | src/channel_lifecycle.c:312-360 | a pair queued is for the placement copied out, with its own body and query; one owed since stays owed with its own, unless it is a multiple of 2^32 newer |
| `OwedPlace.CopiesExactly` | src/channel_lifecycle.c:315-326 | a resting pump copies out the newest placement exactly when it is unsettled, at most 30 ms old on the wrapping clock and the lane is free; an older one is settled unsent |
| `OwedPlace.NeverTwice` | src/channel_lifecycle.c:298-360 | over every interleaving each placement is queued at most once, in the order owed |
| `OwedPlace.PlaceWithItsQuery` | src/channel_lifecycle.c:312-360 | both frames accepted, and then adjacent on the wire whatever else happens in the session, or neither and the placement still owed |
| `OwedPlace.PlaceDesk.OweOne` | src/channel_lifecycle.c:298-310 | owes a placement only with a session present |
| `OwedPlace.PlaceDesk.CopyOut` | src/channel_lifecycle.c:315-326 | retires a stale placement and copies out a due one in one locked section |
| `OwedPlace.PlaceDesk.OfferPlacement` | src/channel_lifecycle.c:350-359 | settles the placement copied out only if the queue took both frames |
| `ReplayWindow.AcceptableIsFresh` | src/core/dh_auth.c:118-132 | the mask decides exactly what the set of accepted counters would; a fresh counter fewer than 64 behind is always accepted |
| `ReplayWindow.AcceptAdds` | src/core/dh_auth.c:134-163 | recording an acceptable counter adds exactly it: maximum, mask and count all follow |
| `ReplayWindow.MissedIsGaps` | src/core/dh_auth.c:165-186 | `missed` is the number of gaps below the maximum, exactly away from the top of the counter space |
| `ReplayWindow.BuiltOpens` | src/core/dh_auth.c:90-109 | a frame built under the key opens to its body if and only if its counter is acceptable |
| `ReplayWindow.OnlyBodiesMove` | src/core/dh_auth.c:204-237 | a bad tag, a replay or a short frame never moves the state |
| `ReplayWindow.RunRefines` | src/core/dh_auth.c:111-163 | after any run the window is an account of exactly the set accepted |
| `ReplayWindow.NoReplay` | src/core/dh_auth.c:204-237 | over any run no counter is accepted twice |
| `ReplayWindow.CounterWindow.Record` | src/core/dh_auth.c:134-163 | the fields move as the window does |
| `ReplayWindow.CounterWindow.OpenFrame` | src/core/dh_auth.c:204-237 | verifies, then checks, then records, and stands for the set plus the counter |
| `FirmwarePull.StepKeeps` | src/tasks.c:398-461 | every step of the board and the link keeps flash in closed form, the page gathered and the checksum of what was taken |
| `FirmwarePull.WriteMoves` | src/utils.c:65-75 | a page write, erasing at a sector start and ANDing elsewhere, moves the closed form on by a page, also when the same page is written again |
| `FirmwarePull.CompletedPull` | src/tasks.c:398-461 | a completed pull passed its own checksum and left the peer's image if and only if the pages passed over happen not to matter; in particular when none was |
| `FirmwarePull.LastPassSucceeds` | src/tasks.c:420-461 | a pull that passed over no page reboots and is not handed to ROM |
| `FirmwarePull.SkippedIsEarly` | src/handlers.c:555-592 | over every run a pull has passed over a page if and only if it took an answer before the page behind it was written, counting from its own start |
| `FirmwarePull.DrainedIsNeverEarly` | src/handlers.c:555-592 | no answer does that while each pull starts over a link drained of the one before |
| `FirmwarePull.PullCopiesImage` | src/tasks.c:398-461 | under lost, repeated and reordered packets, refused enqueues and whatever earlier pulls left in flash and on the link, a pull that completes leaves the peer's image if no answer since its start came before its page was written; if one did, exactly when the pages passed over do not matter |
| `FirmwarePull.StaleAnswerLosesPage` | src/handlers.c:555-592 | for any page of the last sector but its first that is not blank, a run in which an answer to an earlier pull comes early, and which reboots into a flash with that page erased |
| `PullProgress.AsksAgain` | src/tasks.c:398-461 | after any run a word outstanding is asked for again, the same word, exactly when 100 ms have gone since the last attempt on the wrapping clock; with none outstanding the next is asked for at once |
| `PullProgress.AttemptGoesOut` | src/utils.c:245-271 | an attempt the queue takes is on the link and the word outstanding; one it refuses is neither |
| `PullProgress.GivesUpExactly` | src/fw_upgrade.c:10-24 | after any run a pull is given up exactly when 30 s have gone since its last word or its start, or an answer for another word arrives: to the ROM if a page was ever written and there is no peer, else to start over |
| `PullProgress.PullCompletes` | src/tasks.c:398-461 | from any pull in progress, with any number of attempts lost, refused or repeated before one for each word is answered, the pull comes to its last pass, and into the peer's image if it passed over no page |
| `FirmwarePull.AndIsLawful` | src/utils.c:65-75 | bitwise AND on bytes is what flash programming needs of it |
| `FirmwarePull.PullingBoard.WriteFlashPage` | src/utils.c:65-75 | erase and program in place come to the page write of the model |
| `FirmwarePull.PullingBoard.RequestByte` | src/utils.c:245-271 | a request is outstanding only if it was queued; the clock starts either way |
| `FirmwarePull.PullingBoard.UpgradeTask` | src/tasks.c:398-461 | one pass of firmware_upgrade_task on the fields |
| `FirmwarePull.PullingBoard.HandleResponse` | src/handlers.c:555-592 | one answer at any address on the fields: taken, ignored, or the pull abandoned |
| `FirmwarePull.PullingBoard.SumFlash` | src/utils.c:40-49 | the checksum of a range of flash, byte by byte |
| `FirmwarePull.PullingBoard.BeginPull` | src/handlers.c:618-643 | starts a pull at address zero when none is in progress |
| `Convergence.StepKeeps` | src/fw_upgrade.c:47-67 | at most one board has anything to pull, decided by the images at the start |
| `Convergence.Converges` | src/handlers.c:595-643 | with heartbeats late, repeated or lost, one board ever pulls; after one completed pull both hold one image and none starts again |
| `Convergence.HeardIsPulled` | src/fw_upgrade.c:47-67 | a board that hears what the other runs starts to pull exactly when that is newer, or, for the board that follows, of the same version and not the same |
| `Convergence.Settles` | src/handlers.c:595-643 | so boards that differ come to run one image, whatever was lost or given up before |
| `CrossingRuns.StepStores` | src/mouse_logic.c:77-85 | every single store of either core, core 1's without the lock, keeps each screen index in range, and each index and the mode accounted for by the selection that stored it last |
| `CrossingRuns.StepCross` | src/mouse_logic.c:778-1031 | every step keeps the crossing in step with where core 1 is: its clock started at most twice, its switches bounded, no answer at work but one it correlates with |
| `CrossingRuns.EveryRun` | src/mouse_logic.c:778-1031 | from power-on over every interleaving, store by store: indices in range; at most two clock starts; at most one switch to an edge, two only after a query answered and then called unavailable; relative mode fits the active screen exactly when the selections that last stored that index and the mode call for the same mode |
| `CrossingRuns.WaitingIsHeld` | src/mouse_logic.c:515-536 | while a crossing waits, apart from an output switch by hand: the pointer is set by the last step of an answer under its own nonzero id and output, or by a positioned mouse packet of the peer, and by nothing else; the screen and the mode only by such an answer |
| `CrossingRuns.StrayAnswer` | src/mouse_logic.c:87-99 | a correlated answer nothing waits for changes nothing, in any state |
| `CrossingRuns.RankNeverRises` | src/mouse_logic.c:930-1022 | nothing takes a pending crossing further from its end |
| `CrossingRuns.PassEnds` | src/mouse_logic.c:930-1022 | a pass with nothing to retry ends a crossing that is settled or out of time, across the wrap of the clock |
| `CrossingRuns.PassLowers` | src/mouse_logic.c:951-983 | a pass 30 ms or more after the last start: over, unless the query went out at last, which restarts the clock once, or an answer came while it retried; the exact condition both ways |
| `CrossingRuns.MotionIsReleased` | src/mouse_logic.c:930-1022 | no crossing outlives three such passes, whatever happens between and during them |
| `CrossingEdges.StepLegs` | src/mouse_logic.c:861-928 | every step keeps core 1 aimed where the layout says the edge leads, from where the crossing began or where the cursor is |
| `CrossingEdges.RunLegs` | src/mouse_logic.c:778-928 | over every run from power-on, every switch any edge makes is over that edge and to just where the grid of screens leads, unless its query was called unavailable once answered |
| `CrossingEdges.StepAligned` | src/mouse_logic.c:87-121 | without overlap nothing takes an answer at work off the active output, or an uncorrelated one off the screen it was for |
| `CrossingEdges.StepFits` | src/mouse_logic.c:77-85 | as long as no answer overlaps a selection of core 1's, relative mode that fits between selections, or is about to inside one, goes on doing so |
| `CrossingLayout.TransitionIs` | src/core/dh_mouse_layout.c:38-75 | with screen k lying k-1 steps along the chain on a grid, an edge is a chain transition exactly when the cell beside is a screen of the output and the border is not left there, to that screen; and leaves the output exactly over the border, from the first screen or where it lies off the chain's line |
| `CrossingLayout.NowhereIs` | src/core/dh_mouse_layout.c:38-55 | and is none exactly when the grid leads nowhere |
| `CrossingLayout.ThereAndBack` | src/core/dh_mouse_layout.c:38-75 | going along and then the other way comes back, except at the first screen over a border in the chain's own direction, if and only if |
| `CrossingLayout.ChainIsWalked` | src/core/dh_mouse_layout.c:38-55 | every screen is reached from the one before it, unless the border lies that way from the first |
| `CrossingEdges.WindsUp` | src/mouse_logic.c:778-1022 | from any step core 1 has begun, what is due takes it nearer to rest once the lock is free, and no other event takes it back |
| `CrossingEdges.EdgeEnds` | src/mouse_logic.c:778-1022 | after any run at all that came to rest, an edge and then whatever replies, answers, passes and motion come without overlapping a selection from that edge on: at rest again, the edge last taken made no switch and left the output, or exactly one, to just the output or screen the grid of screens leads to, where the cursor now is |
| `CrossingEdges.ModeHeals` | src/mouse_logic.c:77-85 | whatever was torn before, once a selection began alone, or the mode fits, and nothing has overlapped since, relative mode fits the screen whenever both cores rest |
| `CrossingOutcomes.EdgeDecides` | src/mouse_logic.c:778-928 | whether an edge from rest is taken, asked about or left, for every layout, lock, button and mode, by where the grid leads |
| `CrossingOutcomes.ResumedDecides` | src/mouse_logic.c:1014-1021 | a crossing resumed is the same decision with nothing more to ask |
| `CrossingOutcomes.AnswersTaken` | src/mouse_logic.c:87-120 | exactly which answers are taken: while a crossing waits only its own, and for a placement only where it was to be; otherwise only an uncorrelated one for the screen the cursor is on |
| `CrossingOutcomes.MotionMoves` | src/mouse_logic.c:515-536 | motion moves the pointer exactly when no crossing is pending; buttons always count |
| `CrossingOutcomes.AnsweredEnds` | src/mouse_logic.c:87-141 | an answered crossing leaves the cursor where the answer says, and the next pass resumes it exactly when the answer bears it out and nothing forbids it |
| `CrossingOutcomes.SilentEnds` | src/mouse_logic.c:977-1021 | 30 ms unanswered: over the border it goes ahead, along a Windows chain it does not, a macOS placement falls back on walking |
| `CrossingOutcomes.EarlyPassWaits` | src/mouse_logic.c:977-990 | and before that a pass leaves it alone |
| `CrossingOutcomes.HelplessEnds` | src/mouse_logic.c:1024-1031 | with no helper to ask every kind goes ahead without one |
| `CrossingOutcomes.RetriedEnds` | src/mouse_logic.c:952-976 | and so does a query whose retry finds none |
| `CrossingOutcomes.AskedEdgeCrosses` | src/mouse_logic.c:390-426 | all the way from rest: edge, query, answer at the edge, core 0's stores, pass, and core 1 sets out for just where the grid leads |
| `CrossingOutcomes.PlacedEdgeCrosses` | src/mouse_logic.c:861-911 | all the way on macOS: edge, placement, readback, and the cursor is on the screen beside |
| `CrossingFaults.TornByHand` | src/handlers.c:652-653 | from any state at rest: an output switch after core 0 has passed its tests leaves both cores at rest on the new output in the mode of the screen left |
| `CrossingFaults.TornFromStart` | src/mouse_logic.c:77-85 | so a run from power-on ends at rest on a Linux output with relative reports |
| `CrossingFaults.TornOnOutput` | src/mouse_logic.c:77-85 | core 0's two stores between core 1's two, on one output: the index is core 0's and the mode core 1's |
| `CrossingFaults.TornOnMainScreen` | src/mouse_logic.c:77-85 | so a run from power-on, with no output switch, ends at rest on the main Windows screen with relative reports |
| `CrossingFaults.AnsweredThenUnavailable` | src/mouse_logic.c:407-426 | a chain query answered and then called unavailable takes its edge at once and again at the next pass: two switches exactly when the layout leads further that way |
| `CrossingFaults.TwiceFromStart` | src/mouse_logic.c:407-426 | a run from power-on in which one edge makes two switches |
| `CrossingFaults.PeerMovesWaiting` | src/handlers.c:238-250 | a run from power-on in which the peer's mouse puts the pointer of a waiting crossing anywhere |
| `CrossingMachine.CursorState.SelectScreen` | src/mouse_logic.c:77-85 | selects only a screen of the active output that exists |
| `CrossingMachine.CursorState.ApplyPosition` | src/mouse_logic.c:87-141 | applies an answer in one locked section |
| `CrossingMachine.CursorState.BeginQuery` | src/mouse_logic.c:390-404 | records a query under a fresh nonzero id before it is sent |
| `CrossingMachine.CursorState.QueryUnavailable` | src/mouse_logic.c:1024-1031 | falls back only for the query named |
| `CrossingMachine.CursorState.StartPass` | src/mouse_logic.c:930-958 | a task pass up to its retry |
| `CrossingMachine.CursorState.RetryPass` | src/mouse_logic.c:959-976 | the pass after its retry |
| `CrossingMachine.CursorState.EndPass` | src/mouse_logic.c:977-1022 | times the query out and retires what is settled |
| `InboundRing.StepKeeps` | src/core/dh_inq.c:19-76 | every access by either core keeps the byte counters standing for the counts and the slots holding the frames |
| `InboundRing.RunKeeps` | src/core/dh_inq.c:19-76 | over every interleaving, and however often the counters wrap |
| `InboundRing.PowerOnRun` | src/core/dh_inq.c:19-76 | from power-on, the bytes count the frames waiting, at most four, each in its slot and in the order published |
| `InboundRing.PeekedSlotStands` | src/core/dh_inq.c:57-72 | a peeked slot is not written before it is released |
| `InboundRing.PublishAppends` | src/core/dh_inq.c:49-55 | a publish appends the frame last staged, whole; after a refused stage it does nothing |
| `InboundRing.ReleaseTakes` | src/core/dh_inq.c:67-72 | a release takes the oldest frame, the one the slot held |
| `InboundRing.ResetDrops` | src/core/dh_inq.c:19-27 | a reset drops exactly what was published when it looked |
| `InboundRing.StageDecides` | src/core/dh_inq.c:29-47 | a stage is refused and counted exactly when the ring is full or the frame does not fit |
| `InboundRing.OthersLeaveQueue` | src/core/dh_inq.c:29-65 | nothing else changes what is queued, which is never more than four frames |
| `InboundRing.Ring.Stage` | src/core/dh_inq.c:29-47 | stages into the free slot or counts a drop |
| `InboundRing.Ring.Publish` | src/core/dh_inq.c:49-55 | publishes what is staged |
| `InboundRing.Ring.Peek` | src/core/dh_inq.c:57-65 | shows the oldest frame |
| `InboundRing.Ring.Release` | src/core/dh_inq.c:67-72 | drops the oldest frame |
| `InboundRing.Ring.Reset` | src/core/dh_inq.c:19-27 | drops everything published and keeps the drop count |
| `FileNames.CleanAgain` | src/core/dh_file_list.c:63-127 | a cleaned name is never empty, always fits, has nothing forbidden, and is a fixed point of cleaning if and only if making room for the prefix left no trailing dot or space |
| `FileNames.PlainIsClean` | src/core/dh_file_list.c:120-127 | a plain name within the limit is clean if and only if it ends well and is no device |
| `FileNames.CleanInto` | src/core/dh_file_list.c:63-118 | the cleaner working in its buffer comes to the cleaned name, or to nothing where it does not fit |
| `FileNames.CheckClean` | src/core/dh_file_list.c:120-127 | decides the fixed point by cleaning into a scratch buffer |
| `DeviceNames.DeviceIs` | src/core/dh_file_list.c:41-55 | a name is taken for a device exactly when its stem in capitals is one of CON, PRN, AUX, NUL, COM0-9 and LPT0-9 |
| `DeviceNames.BadByteIs` | src/core/dh_file_list.c:16-19 | a byte is forbidden exactly when it is a control, delete, or one of nine marks, by code |
| `DeviceNames.CleanIsSafe` | src/core/dh_file_list.c:63-118 | whatever goes in, what comes out is 1 to 255 bytes, no device, and has no forbidden byte |
| `DeviceNames.CleanExactly` | src/core/dh_file_list.c:63-118 | what any name within the limit comes to: bad bytes underscored and loose ends off, "file" if nothing is left, an underscore in front exactly when that is a device |
| `DeviceNames.RoomIs` | src/core/dh_file_list.c:104-117 | what gives way to the underscore: nothing, or the last character of a name at the limit |
| `DeviceNames.ChangedExactly` | src/core/dh_file_list.c:120-127 | a good name that ends well is changed, and not clean, exactly when it is a device |
| `DeviceNames.LongNames` | src/core/dh_file_list.c:72-76 | a name beyond the limit is cut to it, back to where a character begins |
| `FileList.RoundTrip` | src/core/dh_file_list.c:129-289 | what is encoded decodes to the same count and sizes, their total and the cleaned names if and only if no name lost its tail and the sizes sum below 2^64; otherwise it is refused |
| `FileList.DecodedIsGood` | src/core/dh_file_list.c:251-289 | whatever bytes arrive, an accepted list has 1 to 64 clean names and an exact total |
| `FileList.DecodedReencodes` | src/core/dh_file_list.c:251-289 | an accepted list written back is read the same |
| `FileGrammar.SpellingReads` | src/core/dh_file_list.c:175-289 | every spelling of a list, blanks anywhere between its tokens and leading zeros included, reads as its entries |
| `FileGrammar.AcceptedIsSpelled` | src/core/dh_file_list.c:175-289 | and the decoder accepts nothing else: an accepted text is such a spelling, of just the entries read |
| `FileList.RefusedByFarEnd` | src/core/dh_file_list.c:109-117 | the failing family: a device name at the limit with a dot one byte from its end goes out and is refused |
| `FileListIO.EncodeInto` | src/core/dh_file_list.c:129-173 | the encoder in its buffer writes the list, or -1 exactly when it does not fit or the count is out of range |
| `FileListIO.DecodeText` | src/core/dh_file_list.c:251-289 | the decoder's loop over a cursor accepts exactly what the grammar does |
| `FileListIO.Cursor.TakeQuoted` | src/core/dh_file_list.c:217-232 | reads a quoted name with no escape |
| `FileListIO.Cursor.TakeNumber` | src/core/dh_file_list.c:234-249 | reads a number, refusing overflow of 64 bits |
| `Hotkeys.PreparedSorts` | src/core/dh_hotkey.c:120-132 | preparing is a stable descending sort by specificity and a permutation |
| `Hotkeys.Prepare` | src/core/dh_hotkey.c:120-132 | insertion in place computes it |
| `Hotkeys.MatchIsMostSpecific` | src/core/dh_hotkey.c:146-166 | a prepared table matches if and only if some binding does, with a most specific one, the first of its rank |
| `Hotkeys.FindMatch` | src/core/dh_hotkey.c:146-166 | the scan finds the first match |
| `Hotkeys.ResolveDecides` | src/core/dh_hotkey.c:168-200 | under any bindings the recovery and the pair chord always win; otherwise a held binding that none held is more specific than, if it has an action |
| `Keyboard.OnlyZoomPasses` | src/core/dh_hotkey.c:40-42 | only the mouse zoom's chord is left to the OS |
| `Keyboard.PutAllFills` | src/core/dh_hotkey.c:202-214 | what the slots hold in the end, whether or not all keys find one |
| `Keyboard.FillsAll` | src/core/dh_hotkey.c:202-214 | all of them do if and only if together they are no more than the slots |
| `Keyboard.ReleaseKeeps` | src/core/dh_hotkey.c:216-222 | a release keeps exactly the latched keys still held |
| `Keyboard.MaskRemoves` | src/core/dh_hotkey.c:224-233 | masking removes exactly the latched keys and modifiers |
| `Keyboard.BoardHolds` | src/keyboard.c:130-139 | the combined report holds exactly the keys that find one of its six slots, keyboard by keyboard, and all the modifiers |
| `Keyboard.ProcessLatches` | src/keyboard.c:262-299 | one report of any keyboard: the latch lets go of what the combined report does not hold and takes of the chord what finds a slot |
| `Keyboard.ChordIsTaken` | src/core/dh_hotkey.c:202-214 | a chord is taken whole if and only if it and what is still latched are no more than six keys, as whenever the combined report shows all of it |
| `Keyboard.LatchIs` | src/keyboard.c:262-321 | over every run of any keyboards under any bindings: the latched keys are exactly those a chord found a slot for and the combined report has held ever since, the latched modifiers exactly those of chords not let go since |
| `Keyboard.TypedExactly` | src/keyboard.c:130-146 | what an OS is told over every run: exactly the combined keys but those, so a chord's key still held is typed if and only if it has been out of the combined report since, or found no slot |
| `Keyboard.SeenIsTaken` | src/keyboard.c:130-146 | the same by the reports alone, while every chord is seen whole when completed |
| `Keyboard.LatchIsHeldChords` | src/keyboard.c:262-321 | so while the keys down never outnumber a report's slots the latched keys are exactly those of chords completed and not let go since |
| `Keyboard.OneKeyboardFits` | src/keyboard.c:87-98 | which one keyboard never makes them do |
| `Keyboard.ChordNeverTyped` | src/keyboard.c:130-145 | and no report built for an OS holds a chord's key before it is let go, while it holds every other key that is down |
| `Keyboard.CrowdedOut` | src/keyboard.c:130-146 | the failing family, after any run: six keys on one keyboard put a chord's key on another out of the combined report, the latch lets it go, and it is typed as soon as it is back |
| `Keyboard.CrowdedPairing` | src/keyboard.c:130-146 | the pairing chord and six letters do it from power-on |
| `Keyboard.HotkeyLatch.HoldChord` | src/core/dh_hotkey.c:202-214 | adds the chord in the free slots |
| `Keyboard.HotkeyLatch.ReleaseTo` | src/core/dh_hotkey.c:216-222 | drops what is not held |
| `Keyboard.HotkeyLatch.MaskSlots` | src/core/dh_hotkey.c:224-233 | packs the unlatched keys in front, in place |
| `Keyboard.Keyboards.CombineHeld` | src/keyboard.c:130-139 | combines what the keyboards hold |
| `Keyboard.Keyboards.CombineLocal` | src/keyboard.c:141-146 | the same less what is latched |
| `Keyboard.Keyboards.ProcessReport` | src/keyboard.c:276-299 | one report on the keyboards and the latch |
| `HelperRuns.SessionKeeps` | src/core/dh_helper.c:438-892 | every input keeps: a session underway owes no deferred report; live and negotiated, it holds keys and shows a state that allows bulk or that the identity changed |
| `HelperRuns.LiveSessionHolds` | src/core/dh_helper.h:242-246 | the same over every sequence of inputs in which channels are acquired only after a device appeared, whatever the clock does |
| `HelperRuns.IdentityChangedOnlyByGrant` | src/core/dh_helper.c:851-857 | that exception is raised only by an answering grant that names another board |
| `HelperRuns.PinStays` | src/core/dh_helper.c:815-892 | a pinned key never changes; a key is taken only out of a grant answering an outstanding request, which is then no longer outstanding |
| `HelperRuns.PinnedForGood` | src/core/dh_helper.c:815-892 | a key once pinned is the one pinned after any run |
| `HelperRuns.RepeatedGrantIgnored` | src/core/dh_helper.c:825-828 | a grant with no request outstanding, such as one that comes again, changes nothing |
| `HelperRuns.AccountKeeps` | src/core/dh_helper.c:335-391 | with fresh nonces the key an ack makes is one no frame was built under, and counters number the frames of a key |
| `HelperRuns.RingsKeep` | src/core/dh_helper.c:153-314 | every input keeps teardowns 500 ms apart and losses more than 30 s apart, with acquisition only while a device is there |
| `HelperRuns.OneLossABurst` | src/core/dh_helper.c:191-220 | a teardown and however many more, each within the short window of the one before, add one entry to the long ring at most |
| `HelperRuns.DepartureEmpties` | src/core/dh_helper.c:438-458 | the long ring is empty after every departure |
| `HelperRuns.EveryRun` | src/core/dh_helper.c:1244-1392 | all of it over every run: live sessions, no key and counter twice short of 2^64 frames, keys stored one to a request, a changed identity shown only after an answering grant named a board other than the pinned one, ring spacing |
| `HelperCauses.EveryStateHasItsCause` | src/core/dh_helper.c:438-1392 | over every sequence of inputs each state shown or about to be has been said: incompatible only by a matching refusal naming the version, not paired only by one naming that or for want of a key, and so on for all ten |
| `HelperCauses.CauseShows` | src/core/dh_helper.c:681-892 | and each of those inputs shows its state, with what it does to the session, the pin and the pairing |
| `HelperCauses.PresenceShows` | src/core/dh_helper.c:438-517 | what is shown and owed when a device comes, in either identity, and goes |
| `HelperCauses.OnlyAckConnects` | src/core/dh_helper.c:681-766 | only an ack of the hello outstanding for channels that were asked for makes a session |
| `HelperCauses.UnpairedAsks` | src/core/dh_helper.c:768-811 | refused as unpaired, the helper asks at the first tick that can build a request, however many cannot, and keeps its pin |
| `HelperCauses.KnownBoardConnects` | src/core/dh_helper.c:460-766 | from cold to a live session under both nonces, with the key stored |
| `HelperCauses.UnknownBoardPairs` | src/core/dh_helper.c:815-892 | from an answering grant to the pin and a live session under that board's key |
| `HelperCauses.HelloTimesOut` | src/core/dh_helper.c:1297-1306 | a hello is given up by a tick exactly when unanswered too long |
| `HelperCauses.BeatFillsSilence` | src/core/dh_helper.c:1318-1392 | a live tick spends a counter on a beat exactly when nothing was sent for its interval |
| `HelperCauses.SleepIsNotCounted` | src/core/dh_helper.c:167-189 | while the computer sleeps no teardown counts, whatever arrives |
| `HelperClocks.SilenceSinceLife` | src/core/dh_helper.c:1318-1326 | after any run a tick ends a live session exactly when no channels, ack or authentic frame has come for the silence allowed |
| `HelperClocks.LifeIsRemembered` | src/core/dh_helper.c:1072-1171 | the last of those is remembered, and nothing else is |
| `HelperClocks.BadTagEnds` | src/core/dh_helper.c:1072-1110 | a frame whose tag fails ends the session, unless it is a clipboard chunk |
| `HelperClocks.ReadingsAge` | src/core/dh_helper.c:1318-1392 | a session that is up shows the reconnect rate for just as long as it stands, and a listener for just the window named |
| `HelperClocks.AlertIsRemembered` | src/core/dh_helper.c:1072-1171 | the alert and its window are the last heard |
| `HelperClocks.DropCountsExactly` | src/core/dh_helper.c:169-279 | a teardown goes into the short window exactly when it is one, and into the long one exactly when besides it stands alone and was not on purpose |
| `HelperClocks.TeardownsAre` | src/core/dh_helper.c:1072-1171 | which inputs are which teardown |
| `HelperClocks.GraceCloses` | src/core/dh_helper.c:1276-1295 | a grace stands for thirty seconds and is closed by the first tick past them |
| `HelperClocks.GraceOpens` | src/core/dh_helper.c:460-503 | and opened by a change of identity, which clears the short window, and by waking |
| `HelperClocks.SendingIsRemembered` | src/core/dh_helper.c:1244-1275 | the last time something was sent is remembered, and nothing else is |
| `HelperClocks.UnansweredIs` | src/core/dh_helper.c:1297-1306 | a hello counts as unanswered from its timing out to the next ack |
| `HelperClocks.BackoffMoves` | src/core/dh_helper.c:92-105 | the retry delay goes back to a quarter of a second exactly when the device comes or a handshake ends other than by failing, and else stays or doubles |
| `HelperClocks.NeverSeenIsShown` | src/core/dh_helper.c:1286-1295 | a device that was never there is shown absent by the first tick five seconds on |
| `HelperClocks.BeatIsHeard` | src/core/dh_helper.c:1072-1171 | the board's beat is heard, and any other authentic frame stands in for one |
| `HelperClocks.BeatGoesQuiet` | src/core/dh_helper.c:1318-1392 | it is held quiet by the first tick after it has been missing for the silence allowed |
| `HelperRuns.LoopIsShown` | src/core/dh_helper.c:222-314 | a counted teardown of a good connection is shown if and only if it is the fourth within thirty seconds, or three losses are within the long window, this one the third if it is one |
| `HelperRuns.DeferralIsShown` | src/core/dh_helper.c:1286-1295 | a deferred report is made by the first tick five seconds on, and not before |
| `HelperRuns.RefusalsKeepDeadline` | src/core/dh_helper.c:638-662 | however many acquisitions are refused, the deadline runs from the first |
| `HelperRuns.BackoffDoubles` | src/core/dh_helper.c:99-105 | the retry delay after n refusals is the first delay doubled n times, capped at four seconds |
| `HelperRuns.SilenceEnds` | src/core/dh_helper.c:1318-1326 | a tick drops a live session exactly when the board has been silent too long |
| `HelperCore.SinceOfLowBits` | src/core/dh_helper.c:28-32 | the low 32 bits of two times are all a difference needs |
| `HelperMachine.Machine.PushTime` | src/core/dh_helper.c:153-159 | appends to a ring, shifting it down when full |
| `HelperMachine.Machine.CountDrop` | src/core/dh_helper.c:169-189 | counts a teardown, or not, and says which |
| `HelperMachine.Machine.DropConnection` | src/core/dh_helper.c:267-314 | gives a session up, on the fields |
| `HelperMachine.Machine.DeviceAppears` | src/core/dh_helper.c:460-503 | an appearance, on the fields |
| `HelperMachine.Machine.DeviceDisappears` | src/core/dh_helper.c:513-517 | a departure, on the fields |
| `HelperMachine.Machine.AcquireChannels` | src/core/dh_helper.c:521-623 | channels acquired, on the fields |
| `HelperMachine.Machine.RefuseAcquisition` | src/core/dh_helper.c:645-662 | an acquisition refused, the first deferral kept |
| `HelperMachine.Machine.TakeAck` | src/core/dh_helper.c:681-766 | a HELLO_ACK, on the fields |
| `HelperMachine.Machine.TakeRefusal` | src/core/dh_helper.c:768-811 | a HELLO_REFUSED, on the fields |
| `HelperMachine.Machine.TakeGrant` | src/core/dh_helper.c:815-892 | a PAIR_GRANT, on the fields, and the key to store |
| `HelperMachine.Machine.TakeFrame` | src/core/dh_helper.c:1072-1171 | an authenticated frame, on the fields |
| `HelperMachine.Machine.TickOnce` | src/core/dh_helper.c:1276-1392 | a tick, on the fields |
| `HelperMachine.Machine.EmitOne` | src/core/dh_helper.c:1244-1255 | spends a counter on each frame built and on no other |
| `Crc32.TableDivides` | src/constants.c:13-47 | each of the 256 table entries is its index divided eight bits by the polynomial |
| `Crc32.NibbleDivides` | src/core/dh_crc32.c:13-17 | each of the 16 entries is its index divided four bits |
| `Crc32.BitIsLinear` | src/core/dh_crc32.c:19-27 | one step of the division is linear |
| `Crc32.NibblesStepIs` | src/core/dh_crc32.c:21-25 | two nibbles by the small table divide one byte out, for every state and byte |
| `Crc32.TableStepIs` | src/utils.c:36-38 | one byte by the large table does too |
| `Crc32.NibbleCrc` | src/core/dh_crc32.c:19-27 | the nibble loop computes the reference CRC of any bytes |
| `Crc32.TableCrc` | src/utils.c:40-49 | the byte loop computes the same, so the two agree on every byte sequence |

## Left out

- FirmwarePull.AndIsLawful: the checksum step stays a parameter of the pull, so that module does not use Crc32.
- CrossingEdges.EdgeEnds: seam geometry, walking, acceleration and pointer arithmetic are choices of the environment, so it says which output and screen an edge leads to and not which pixel; gaming mode counts as the switch lock, which the crossing treats alike (src/mouse_logic.c:368, 939).
- CrossingRuns.EveryRun: a store of the pointer's two coordinates is one step, and so is an answer relayed to core 1, which nothing of core 0's can interleave with under the lock.
- Hotkeys.PreparedSorts: the eight modifier bits are a set, so the bit-counting loop is its size.
- Convergence.Converges: images change only by completed pulls; an image dropped over USB is not part of it.
- OwedPlace.PlaceWithItsQuery: is within one session; the statistics of the transmit queue and striping over the second channel are not modelled.
- HelperRuns.EveryRun: the platform-facing output list (its 16 slots, notes, state reports and retry delays beyond the backoff) and the drop totals, clipboard policy and send counters are not modelled; frames reach the helper as already read.
- ReplayWindow.BuiltOpens: tags are an opaque function of header, counter and body.
- Carrier.LossyCarrier: reports are lost whole and in order, as the carrier promises; corruption is left to the tag.
- SHA-256, HMAC, HKDF, P-256 and AES-GCM are not part of this model.
- The board's side of the session, pairing, the relay between boards, clipboard transfer and the seam map are not part of this model.
- The UF2 drop path, USB, PIO, DMA, LED, watchdog, screensaver, sleep sync, configuration pages and disk scripts are not part of this model.
- The field layouts of single messages, the cursor trace ring, which only records, and the configuration walk, which copies fields in a fixed order, are not part of this model.
