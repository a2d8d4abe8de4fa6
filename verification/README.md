# Ubertooth firmware and tools: a verified model

The Ubertooth One is a Bluetooth sniffer. This project models the parts of its firmware, its bootloader and its host
tools whose correctness is a matter of logic rather than of hardware, and proves what they promise: that the LE
connection follower loses no packet buffer and stays on a connection's schedule, that the codec agrees with the
standard and detects errors, that parameters of an unknown connection are recovered, that hopping is even, that a
firmware update stores what it was sent, that arguments are permuted without loss, and that numbers are printed and
read faithfully. Machine words are natural numbers with their width written out; `Bits.dfy` has the operators. Where
the source updates objects, arrays or globals in place, the model has classes and loops that do the same, proved
against functions; theorems over whole runs are about those functions.

## The LE connection follower

`LePhy.dfy` is the follower's state and, as functions of it, the steps that the byte interrupt, the timer interrupt
and the main loop take; `LePhyBuffers`, `LePhyFraming`, `LePhyRuns`, `LePhySchedule` and `LePhyAnchor` prove what
every run of these steps keeps; `LePhyReception` follows a packet from the air to the packet handler; `LePhyFailures`
shows in general how a connection leaves its schedule, and `LePhyExamples` by runs from the start of the program, on
time by the clock and the timer match. `LePhyRequests` says what the requests of a connection ask for, byte by byte;
`LePhyUpdates` follows a connection update over a run to the interval, the anchors and the wake-ups behind its instant;
`LePhySilence` says when a connection is given up, and `LePhyLeftovers` that buffers are clean. `LePhyDevice` is the
follower as an object whose handlers update its fields and do exactly what the steps say. `RingQueue` is the queue
between interrupt and main loop. A run is any sequence of received bytes, timer interrupts, main-loop steps and cancel
requests that is possible from the start state; the removal from the queue is taken apart into its test, its read and
its write of the head, so that interrupts fall between them.

## The link-layer codec

`CrcRegister` has the 24-bit register as bits and its algebra, `CrcWord` the bit loops on machine words, `CrcTable`
and `CrcLut` the 256 entries and the table-driven loop, `CrcLaws` what the CRC is good for; `WhiteningTable` and
`Whitening` the 127-entry table and its loops; `Channels` the channel indices, maps and hops; `Frame` an advertising
frame from the sender to the receiver. Standard: Bluetooth Core Specification, Vol 6, Part B, sections 3.1.1, 3.2 and
4.5.8.2.

## Promiscuous recovery

`Promiscuous` has the three callbacks that recover the CRC initial value, the hop interval and the hop increment of a
connection from its packets.

## BR/EDR hop selection

`HopKernel` is the hop selection kernel (Bluetooth Core Specification, Vol 2, Part B, section 2.6) without adaptive
hopping, by the tables and words of the source; `HopStandard` is the kernel as the standard draws it, on bits, and the
proof that the two agree.

## The DFU bootloader

`Flash` is the sectored flash, `Dfu` the request handlers as a state machine and as the object, `DfuRuns` whole
sessions, `DfuReplies` what the host is told, in numbers (USB DFU class specification 1.1, sections 3 and 6 and
Appendix A).

## getopt's argument permutation

`Getopt` has the exchange of two adjacent blocks of argv in place, and the scan that permutes argv and reports the
option letters and their arguments one call at a time; `GetoptGrammar` is what a user may write and what it means.

## Number formatting

`Numerals` says what a numeral means, `TinyPrintf` prints, reads and pads them.

## Model

| member | source | states |
|---|---|---|
| LePhyRuns.EveryRun | firmware/bluetooth_rxtx/le_phy.c:164-201 | For every run from every start, whatever an earlier session has left, every buffer is in exactly one place, the queue has room for every packet although the result of the insertion is ignored, and the packets dewhitened so far, followed by those waiting, are the packets received, in order and with their bytes unchanged |
| LePhyRuns.StepKeeps | firmware/bluetooth_rxtx/le_phy.c:300-391 | One step of any handler keeps the invariant, and what waits afterwards is what waited before, plus the packet received, less the packet processed, in order |
| LePhyRuns.RunConserves | firmware/bluetooth_rxtx/le_phy.c:973-985 | Over any run: waiting before plus received is processed plus waiting after, as sequences |
| LePhyRuns.StartInv | firmware/bluetooth_rxtx/le_phy.c:954-971 | Whatever le_phy_main finds, the state in which its loop starts meets the invariant, with nothing waiting, one buffer taken and three free, about to listen to the advertising channel; everything else stays as it was found |
| LePhyRuns.BytesInPlace | firmware/bluetooth_rxtx/le_phy.c:317-359 | In every state that meets the invariant: while the receiver is on there is a current buffer and the next byte goes to a position below 260; once the header is in, the size is between 5 and 260 and not yet reached; every queued packet is complete; and after dewhitening the length byte plus 5 is the size |
| LePhyRuns.NoBufferLeft | firmware/bluetooth_rxtx/le_phy.c:184-196 | buffer_get comes back empty exactly when all four buffers are in the queue or with the main loop |
| LePhyRuns.HandlerFrame | firmware/bluetooth_rxtx/le_phy.c:874-905 | The packet handler touches neither the buffers nor the tuning, and can only stop waiting for the synthesizer |
| LePhyBuffers.RoomInQueue | firmware/bluetooth_rxtx/le_phy.c:358-359 | At most four buffers are in use at any time, so inserting the current one always succeeds |
| LePhyBuffers.EnqueueKeeps | firmware/bluetooth_rxtx/le_phy.c:358-359 | Queueing the current buffer keeps the sequence of buffers in use, and appends it to the queue |
| LePhyBuffers.GetKeeps | firmware/bluetooth_rxtx/le_phy.c:184-196 | Taking a buffer adds one that was nowhere else, cleared and no longer available; there is none exactly when four are in use |
| LePhyBuffers.CommitKeeps | firmware/bluetooth_rxtx/queue.c:43-48 | Writing the head hands the oldest entry, and no other, to the main loop |
| LePhyBuffers.ReleaseKeeps | firmware/bluetooth_rxtx/le_phy.c:199-201 | Releasing the handled buffer takes just that one out of use |
| LePhyLeftovers.NothingLeftOver | firmware/bluetooth_rxtx/le_phy.c:172-196 | From every start, for every run: each buffer in use has only zeros behind the bytes received into it, whatever packets were in it before |
| LePhyFraming.ByteStored | firmware/bluetooth_rxtx/le_phy.c:317-342 | One more byte leaves a packet that is either complete, with as many bytes as its whitened header announces, or has room for the next byte |
| LePhyFraming.DewhitenSound | firmware/bluetooth_rxtx/le_phy.c:975-976 | Dewhitening takes the oldest waiting packet, makes its length byte agree with its size, and leaves the others alone |
| LePhyFraming.DewhiteningAgrees | firmware/bluetooth_rxtx/le_phy.c:725-741 | The length found early during reception is the length byte of the dewhitened packet |
| LePhySchedule.ConnectionOnSchedule | firmware/bluetooth_rxtx/le_phy.c:526-531 | When nothing of an earlier connection is left: after an accepted CONNECT_REQ, every orderly run tunes event k with counter k mod 65536, on the unmapped channel (k + 1) * hop mod 37, mapped with the channel map in use for event k |
| LePhySchedule.RunOnSchedule | firmware/bluetooth_rxtx/le_phy.c:581-655 | The same from any state that is on schedule, with the updates handled during the run |
| LePhySchedule.RunExact | firmware/bluetooth_rxtx/le_phy.c:581-655 | A run that keeps the connection leaves it on schedule after every step, one event further exactly where it tunes, if and only if no step skips an event and none misses a map |
| LePhySchedule.StepExact | firmware/bluetooth_rxtx/le_phy.c:581-655 | The same for one step, with the conditions as tests of the state before it |
| LePhySchedule.CountExact | firmware/bluetooth_rxtx/le_phy.c:362-378 | Without any schedule: tunings and counted events stay in step exactly when no second packet ends untuned and no connection update claims the open event after it was tuned or takes it away before |
| LePhySchedule.EveryEventTuned | firmware/bluetooth_rxtx/le_phy.c:583-655 | In an orderly run the events that end and the tunings advance together: every event is tuned exactly once |
| LePhySchedule.TuningExact | firmware/bluetooth_rxtx/le_phy.c:588-633 | Tuning event n hops once, applies the pending map exactly when n is its event, and keeps the plan exactly when no map that is due is passed over |
| LePhySchedule.ConnectOnPlan | firmware/bluetooth_rxtx/le_phy.c:783-843 | An accepted CONNECT_REQ puts the connection on schedule, with the request's increment and map, if and only if the event counter, the channel and the pending map of an earlier connection are gone |
| LePhySchedule.MapUpdateKeepsPlan | firmware/bluetooth_rxtx/le_phy.c:868-872 | A channel map request is always taken down as the last update of the schedule, whatever its instant |
| LePhySchedule.UpdateReqExact | firmware/bluetooth_rxtx/le_phy.c:850-866 | A connection update leaves the next event to be tuned as it is exactly when it neither claims nor frees the open event, and then the whole plan |
| LePhySchedule.OneUpdate | firmware/bluetooth_rxtx/le_phy.c:620-625 | With one update the old map holds before the event of its instant and the new one from that event on |
| LePhyFailures.LatePackets | firmware/bluetooth_rxtx/le_phy.c:362-378 | From any scheduled state in which no event is tuned, the end of a second packet counts an event without tuning it: the next event to be tuned moves on by one, and unless 37 divides the hop the connection is off its schedule |
| LePhyFailures.SharedInstant | firmware/bluetooth_rxtx/le_phy.c:588-625 | A map update that is due is passed over exactly when a connection update has the same instant |
| LePhyFailures.LatePacketsDeviate | firmware/bluetooth_rxtx/le_phy.c:362-378 | After such a second packet the next tuning is not the one the schedule has for that event |
| LePhyFailures.TunedTwiceDeviates | firmware/bluetooth_rxtx/le_phy.c:850-866 | A connection update that names the instant of the tuned open event makes the next match tune it a second time |
| LePhyFailures.ReplacedDeviates | firmware/bluetooth_rxtx/le_phy.c:850-866 | A connection update that takes its instant away from the open event waiting for its window makes it close untuned: when the connection is kept and no other window is to be waited for, the next tuning is that of a later event |
| LePhyFailures.LateMapDeviates | firmware/bluetooth_rxtx/le_phy.c:868-872 | A map request that names the instant of the tuned open event is applied when that event closes, 65536 events early; when the connection is kept and no window is to be waited for, the next tuning is on the wrong frequency whenever the maps differ there |
| LePhyFailures.SharedInstantDeviates | firmware/bluetooth_rxtx/le_phy.c:588-625 | Where a connection update shares the instant of a map, the event is tuned with the old map |
| LePhyReception.PacketReachesHandler | firmware/bluetooth_rxtx/le_phy.c:300-396 | Every packet whose length fits its header, sent on the channel listened to while nothing waits, is handed to the packet handler byte for byte by a possible run that is on time; the first packet of an event sets anchor and time-out, the second closes the event |
| LePhyReception.BroughtHandled | firmware/bluetooth_rxtx/le_phy.c:973-985 | The packet handler then sees it, and the follower is as ready for the next packet as before |
| LePhyReception.AllButLast | firmware/bluetooth_rxtx/le_phy.c:317-342 | The bytes before the last one change nothing but the current buffer, and the timer match on a data channel |
| LePhyExamples.ConnectionReached | firmware/bluetooth_rxtx/le_phy.c:954-985 | From every cold start a run of 39 bytes, six steps of the main loop and three timer interrupts, on time, reaches a followed connection in its tuned event 0, where the closed form says |
| LePhyExamples.SecondSession | firmware/bluetooth_rxtx/le_phy.c:954-968 | From there le_phy_main entered again: every CONNECT_REQ accepted then starts off schedule |
| LePhyExamples.LatePacketsRun | firmware/bluetooth_rxtx/le_phy.c:362-378 | From every cold start a run on time to a state on schedule, from which a late second packet and the next match tune wrongly |
| LePhyExamples.TunedTwiceRun | firmware/bluetooth_rxtx/le_phy.c:850-866 | The same for a connection update by which event 0 is tuned twice |
| LePhyExamples.ReplacedRun | firmware/bluetooth_rxtx/le_phy.c:850-866 | The same for a connection update replaced while its window is waited for |
| LePhyExamples.LateMapRun | firmware/bluetooth_rxtx/le_phy.c:868-872 | The same for a map update that names the open event |
| LePhyExamples.SharedInstantRun | firmware/bluetooth_rxtx/le_phy.c:868-872 | The same for a map update that shares the instant of a connection update |
| LePhyAnchor.DeadReckoning | firmware/bluetooth_rxtx/le_phy.c:227-259 | Over any steady run with m events of at most one packet, a of them with an accepted anchor, the anchor moves by m intervals modulo 2^32 with a drift between -29a and 30a ticks; without an accepted anchor it moves exactly |
| LePhyAnchor.AcceptedWindow | firmware/bluetooth_rxtx/le_phy.c:238-248 | A single packet is taken for the master's exactly when it lies from 29 ticks before to 30 ticks after the estimate, also across the wrap-around of the clock |
| LePhyAnchor.AnchorMoves | firmware/bluetooth_rxtx/le_phy.c:238-259 | One such event moves the anchor by the interval and that offset |
| LePhyAnchor.TwoPackets | firmware/bluetooth_rxtx/le_phy.c:231-235 | With two packets the anchor is the time of the first, whatever was estimated |
| LePhyAnchor.NoAnchorYet | firmware/bluetooth_rxtx/le_phy.c:261-265 | Without an anchor and with at most one packet, the anchor stays unset, is noted as that of the event, and the event counts as a sign of life |
| LePhyAnchor.NextWakeUp | firmware/bluetooth_rxtx/le_phy.c:290-293 | The timer is set 300 us before the next anchor is due |
| LePhyRequests.ConnectByBytes | firmware/bluetooth_rxtx/le_phy.c:783-848 | A CONNECT_REQ to be followed, by its bytes: it is accepted exactly when interval, window offset, window size, time-out and channel map are in range (the time-out in 32 bits), and then every field of the connection, the closed event and the first match, 300 us before the transmit window, are those its bytes spell; what it does not name stays; otherwise the connection is cleared |
| LePhyRequests.UpdateAsked | firmware/bluetooth_rxtx/le_phy.c:850-866 | A control packet with opcode 0 and 12 bytes notes the interval of bytes 6 and 7 in units of 1.25 ms, the time-out of bytes 10 and 11 in units of 10 ms, the instant of bytes 12 and 13 and the window of bytes 3 to 5, and touches nothing that is in use but the window |
| LePhyRequests.MapAsked | firmware/bluetooth_rxtx/le_phy.c:868-872 | A control packet with opcode 1 and 8 bytes notes the map of bytes 3 to 7 and the instant of bytes 8 and 9, and touches nothing else |
| LePhyRequests.NothingAsked | firmware/bluetooth_rxtx/le_phy.c:874-905 | No other packet changes anything |
| LePhyRequests.KindByBytes | firmware/bluetooth_rxtx/le_phy.c:874-905 | What a packet is taken for, exactly, by its channel, type, opcode and length bytes |
| LePhyUpdates.UpdateTakesEffect | firmware/bluetooth_rxtx/le_phy.c:583-614 | From the bytes of a connection update: over any run that keeps the connection and handles no other update, interval and time-out are the old ones until the event with the counter value of the instant is tuned, and from then on 12500 times bytes 6 and 7 and, modulo 2^32, 100000 times bytes 10 and 11; the update is pending exactly as long |
| LePhyUpdates.ParametersRun | firmware/bluetooth_rxtx/le_phy.c:583-614 | The same from any state: everything in use and everything that waits changes exactly by the tuning of the instant |
| LePhyUpdates.InstantTuned | firmware/bluetooth_rxtx/le_phy.c:590-614 | The match at the instant, by the bytes of the request: with a window offset it first only waits until 300 us before the window; else it puts the update into force, forgets the old anchor, and waits for the new interval, the offset, the window and 2.12 ms behind the old anchor |
| LePhyUpdates.UpdatedGrid | firmware/bluetooth_rxtx/le_phy.c:227-259 | Behind the instant, once an anchor was seen, the anchor moves by the interval that the bytes of the request ask for with every event that ends, with a drift of at most 3 us per accepted anchor |
| LePhyUpdates.WakesOnGrid | firmware/bluetooth_rxtx/le_phy.c:290-293 | Over a steady run and the closing of one more event the radio is woken 300 us before the grid point of the event after that |
| LePhySilence.GivenUpExactly | firmware/bluetooth_rxtx/le_phy.c:267-288 | After any run in which a connection was followed, the next step that deals with no CONNECT_REQ gives it up exactly when it closes an event and following was cancelled, or nothing was heard in it and the last sign of life of the run is longer ago than the supervision time-out; the connection is then blank and the radio goes to the advertising channel with an empty buffer |
| LePhySilence.StepTells | firmware/bluetooth_rxtx/le_phy.c:267-288 | The same for one step, with the stored time of the last packet |
| LePhySilence.FollowedForever | firmware/bluetooth_rxtx/le_phy.c:261-281 | Until an event has two packets the time-out does nothing: without a CONNECT_REQ or a cancellation the connection is followed however long it is silent |
| LePhySilence.AdvertisingFrequency | firmware/bluetooth_rxtx/le_phy.c:518-531 | Back in advertising the radio is on the channel that was asked for if that is 2402, 2426 or 2480 MHz, and on 2402 otherwise |
| LePhySilence.PacketEndWaits | firmware/bluetooth_rxtx/le_phy.c:381-391 | When a packet ends that is not the second of its event, the receiver is off and waits: with an empty buffer for the synthesizer, without one for a buffer |
| LePhySilence.ReceptionResumes | firmware/bluetooth_rxtx/le_phy.c:668-707 | When reception ran out of buffers, the next check takes the first one that is free, and reception goes on at once or when the synthesizer is locked; until then nothing changes |
| LePhyDevice.Follower.constructor | firmware/bluetooth_rxtx/le_phy.c:124-137 | The statics when the program starts: no connection, no event, no match armed |
| LePhyDevice.Follower.Enter | firmware/bluetooth_rxtx/le_phy.c:954-968 | Entering le_phy_main, at first or again, leads to the start state of the model, which meets the invariant with nothing waiting |
| LePhyDevice.Follower.Interrupt | firmware/bluetooth_rxtx/le_phy.c:300-708 | Any handler, run on an object that meets the invariant, is the step of the model, keeps the invariant, and puts the packet it receives, if any, behind those that wait |
| LePhyDevice.Follower.BufferGet | firmware/bluetooth_rxtx/le_phy.c:184-196 | The loop finds the first available buffer, clears it and takes it |
| LePhyDevice.Follower.ChangeChannel | firmware/bluetooth_rxtx/le_phy.c:503-533 | The new state of the object is that of the step function |
| LePhyDevice.Follower.FinishConnEvent | firmware/bluetooth_rxtx/le_phy.c:227-294 | The new state of the object is that of the step function |
| LePhyDevice.Follower.LeDmaIrqHandler | firmware/bluetooth_rxtx/le_phy.c:300-400 | The new state of the object is that of the step function, byte by byte |
| LePhyDevice.Follower.ConnectionEvent | firmware/bluetooth_rxtx/le_phy.c:583-655 | The new state of the object is that of the step function for MR0, whose tunings, updates, matches and endings are those of `LePhySchedule`, `LePhyUpdates` and `LePhySilence` |
| LePhyDevice.Follower.SynthesizerCheck | firmware/bluetooth_rxtx/le_phy.c:668-686 | The new state of the object is that of the step function for MR2 |
| LePhyDevice.Follower.BufferCheck | firmware/bluetooth_rxtx/le_phy.c:689-707 | The new state of the object is that of the step function for MR3 |
| LePhyDevice.Follower.ExtractField | firmware/bluetooth_rxtx/le_phy.c:773-781 | The loop reads a little-endian number |
| LePhyDevice.Follower.LeConnectHandler | firmware/bluetooth_rxtx/le_phy.c:783-848 | The scaling and the checks, in the source's order, accept exactly the valid requests; the rest resets the connection |
| LePhyDevice.Follower.ConnectionUpdateHandler | firmware/bluetooth_rxtx/le_phy.c:850-866 | The fields of the update are stored, with the window size and the timeout truncated as the source does |
| LePhyDevice.Follower.ChannelMapUpdateHandler | firmware/bluetooth_rxtx/le_phy.c:868-872 | The pending map and its instant are stored |
| LePhyDevice.Follower.PacketHandler | firmware/bluetooth_rxtx/le_phy.c:874-905 | The new state of the object is that of the step function |
| LePhyDevice.Follower.MainTurn | firmware/bluetooth_rxtx/le_phy.c:973-985 | An uninterrupted turn of the loop on an object that meets the invariant removes, dewhitens, handles and releases exactly the packet that waits longest, and keeps the invariant |
| LePhyDevice.TurnIsSixSteps | firmware/bluetooth_rxtx/le_phy.c:973-985 | That turn is six steps of the main loop with nothing in between, and takes one packet off those that wait |
| RingQueue.InsertAppends | firmware/bluetooth_rxtx/queue.c:19-35 | An insertion fails exactly when nine entries are in; otherwise the entry comes last |
| RingQueue.RemoveTakesOldest | firmware/bluetooth_rxtx/queue.c:38-51 | A removal fails exactly on an empty ring; otherwise it takes the oldest entry |
| RingQueue.InsertBesideRemoval | firmware/bluetooth_rxtx/queue.c:19-51 | An insertion between the parts of a removal changes neither its test nor the entry it reads |
| RingQueue.Queue.Insert | firmware/bluetooth_rxtx/queue.c:19-35 | The object's entries with the new one at the end, or unchanged |
| RingQueue.Queue.Remove | firmware/bluetooth_rxtx/queue.c:38-51 | The object's entries without the oldest, which is returned |
| CrcWord.CalcCrc | firmware/bluetooth_rxtx/bluetooth_le.c:79-98 | The bit loop computes the register of the standard's polynomial, for every init and every packet |
| CrcWord.ReverseCrcWords | firmware/bluetooth_rxtx/bluetooth_le.c:105-127 | The backward bit loop computes the register before the packet, bit-reversed |
| CrcWord.WordStepMeaning | firmware/bluetooth_rxtx/bluetooth_le.c:86-94 | One round on the machine word is one step of the register |
| CrcWord.WordBackMeaning | firmware/bluetooth_rxtx/bluetooth_le.c:113-119 | One backward round on the machine word is one backward step of the register |
| CrcWord.ReverseBits24 | firmware/bluetooth_rxtx/bluetooth_le.c:122-126 | The loop reverses the 24 low bits |
| CrcLut.CrcgenLut | firmware/bluetooth_rxtx/bluetooth_le.c:171-182 | The table-driven CRC equals the bit-serial one for every init and every byte string |
| CrcLut.EntryMeaning | firmware/bluetooth_rxtx/bluetooth_le.c:129-162 | Each of the 256 entries is its index after eight zero bits |
| CrcLut.LutRound | firmware/bluetooth_rxtx/bluetooth_le.c:177-180 | One table look-up takes in the eight bits of a byte |
| CrcTable.TableIsBuilt | firmware/bluetooth_rxtx/bluetooth_le.c:129-162 | The table as transcribed grows from 0 by doubling and by exclusive or with its first entry |
| CrcRegister.RunLinear | firmware/bluetooth_rxtx/bluetooth_le.c:79-98 | The register is linear over exclusive or |
| CrcRegister.BackUndoesStep | firmware/bluetooth_rxtx/bluetooth_le.c:111-120 | The backward step inverts the forward step |
| CrcRegister.StepUndoesBack | firmware/bluetooth_rxtx/bluetooth_le.c:111-120 | The forward step inverts the backward step |
| CrcRegister.WindowDetermined | firmware/bluetooth_rxtx/bluetooth_le.c:79-98 | From one register, at most 24 bits are determined by the register they lead to |
| CrcLaws.ReversalRecoversInit | firmware/bluetooth_rxtx/bluetooth_le.c:105-127 | Reversing the CRC of a packet over the packet gives the bit-reversed init, for every init and packet |
| CrcLaws.InitOfCrc | firmware/bluetooth_rxtx/bluetooth_le.c:105-127 | Exactly one 24-bit init leads to a given CRC, and the reversal finds it |
| CrcLaws.BurstDetected | firmware/bluetooth_rxtx/bluetooth_le.c:79-98 | Different packets of equal length that differ only within 24 consecutive bits have different CRCs for every init |
| CrcLaws.LongerBurstMissed | firmware/bluetooth_rxtx/bluetooth_le.c:79-98 | 24 is the best bound: two packets that differ within 25 bits have the same CRC for every init |
| Whitening.TableIsRegister | firmware/bluetooth_rxtx/bluetooth_le.h:77-90 | For all 40 channels and every position the table entry looked up is the output of the x^7 + x^4 + 1 register seeded from the channel |
| Whitening.DewhiteningIsStreamXor | firmware/bluetooth_rxtx/bluetooth_le.c:189-203 | Dewhitening is exclusive or of the bits on air with that output, for every length |
| Whitening.WhiteningRoundTrip | firmware/bluetooth_rxtx/bluetooth_rxtx.c:1136-1147 | Whitening and dewhitening undo each other |
| Whitening.LeDewhiten | firmware/bluetooth_rxtx/bluetooth_le.c:189-203 | The in-place loops dewhiten the first size bytes and leave the rest |
| Whitening.WhitenForTransmit | firmware/bluetooth_rxtx/bluetooth_rxtx.c:1136-1147 | The loops of le_transmit whiten the frame |
| Whitening.DewhitenLength | firmware/bluetooth_rxtx/le_phy.c:725-741 | The second byte dewhitened on its own |
| Channels.IndexRoundTrip | firmware/bluetooth_rxtx/bluetooth_le.c:38-67 | Channel index and frequency are inverse to each other on the 40 channels |
| Channels.ParseChannelMap | firmware/bluetooth_rxtx/bluetooth_le.c:208-232 | The loops list exactly the set channels, in increasing order |
| Channels.MappedByRank | firmware/bluetooth_rxtx/bluetooth_le.c:237-242 | The remapping rule of the standard by cardinalities over the bits of the map: a channel in use is kept; any other index goes to the one channel in use below which exactly index mod n channels are in use, n being the number of set bits; of an empty map it is channel 0 |
| Channels.ChannelPlan | firmware/bluetooth_rxtx/bluetooth_le.c:54-67 | 37, 38 and 39 are 2402, 2426 and 2480 MHz, and the 37 data channels fill the other frequencies in increasing order |
| Channels.OneHop | firmware/bluetooth_rxtx/bluetooth_le.c:29-34 | Each hop adds the increment modulo 37 |
| Channels.HopsDistinct | firmware/bluetooth_rxtx/bluetooth_le.c:29-34 | Any 37 consecutive hops by an increment that 37 does not divide land on different indices |
| Channels.CoversUsedChannels | firmware/bluetooth_rxtx/bluetooth_le.c:208-242 | Within any 37 consecutive hops every used channel is tuned to, on a frequency of its own |
| Channels.LeHop.NextHop | firmware/bluetooth_rxtx/bluetooth_le.c:29-34 | The frequency of this hop, and one hop on |
| Channels.LutInverts | firmware/bluetooth_rxtx/bluetooth_le.h:92-96 | hop_interval_lut is inversion modulo 37 |
| Frame.BuildAdvInd | firmware/bluetooth_rxtx/bluetooth_rxtx.c:2361-2388 | For every length of the data: refused above 255 bytes, does not fit the frame buffer from 22 bytes on, and otherwise the frame in the buffer is header, reversed address, data and CRC |
| Frame.CheckPacket | firmware/bluetooth_rxtx/bluetooth_rxtx.c:1822-1829 | The receiver's check, with the length test before it |
| Frame.OverTheAir | firmware/bluetooth_rxtx/bluetooth_rxtx.c:2372-2388 | Built, whitened and dewhitened on one channel, the frame comes back byte for byte and passes the check |
| Frame.AcceptsIffEmptied | firmware/bluetooth_rxtx/bluetooth_rxtx.c:1822-1829 | A packet passes exactly when it empties the register, CRC included |
| Frame.AcceptsExactly | firmware/bluetooth_rxtx/bluetooth_rxtx.c:1822-1829 | For every packet of two bytes or more: it passes exactly when its six length bits announce at most 37 bytes, these and the CRC are there, and together they empty the register |
| Frame.FrameRead | firmware/bluetooth_rxtx/bluetooth_rxtx.c:2372-2388 | What a receiver reads in the frame: an ADV_IND with a public address, its length, the address as a number with the least significant byte first on air, and the data |
| Frame.BurstRejected | firmware/bluetooth_rxtx/bluetooth_rxtx.c:1822-1829 | A frame hit on air by a burst of at most 24 bits is rejected, unless the burst changed the length field |
| Promiscuous.ObservedExact | firmware/bluetooth_rxtx/bluetooth_rxtx.c:2119-2119 | Rounding gives the interval exactly when the smallest delta is near 37 times it |
| Promiscuous.IntervalFromTimes | firmware/bluetooth_rxtx/bluetooth_rxtx.c:2163-2197 | From the times of packets alone, each within 2.5 ms of the anchor of its visit to the channel and the first further visit being the next: the interval is right once a further visit is seen, and the phase ends with the sixth such visit, or the fifth if the interval was stored before |
| Promiscuous.IntervalRecovered | firmware/bluetooth_rxtx/bluetooth_rxtx.c:2163-2197 | From any state, with all smallest distances near: the interval is right from the first kept packet on, and the phase ends with the packet that makes the count of agreements 5 |
| Promiscuous.SpoiledForever | firmware/bluetooth_rxtx/bluetooth_rxtx.c:2176-2179 | A distance that is too small is never forgotten: no later packet makes the interval right |
| Promiscuous.RolloverSpoils | firmware/bluetooth_rxtx/bluetooth_rxtx.c:2166-2179 | A start of the clock between two visits that follow each other spoils the phase for good if and only if the interval is 20 units or more; below that it changes no smallest distance found before |
| Promiscuous.ZeroExactly | firmware/bluetooth_rxtx/bluetooth_rxtx.c:2179-2194 | After a kept packet the interval stored is 0 exactly when the smallest distance rounds to 0: below half of 37 units, or so large that the sum wraps |
| Promiscuous.PhaseEndsWithZero | firmware/bluetooth_rxtx/bluetooth_rxtx.c:2181-2190 | From a reset state two packets that are too close make the interval 0 from then on, and the fifth kept packet ends the phase with it |
| Promiscuous.DistanceExact | firmware/bluetooth_rxtx/bluetooth_rxtx.c:2166-2169 | The distance is the time that passed exactly when the clock did not start again in between; if it did, 0.9 s are missing |
| Promiscuous.IncrementRecovered | firmware/bluetooth_rxtx/bluetooth_rxtx.c:2127-2152 | The number of hops is found exactly when the delay is within half an interval of its true value, across the rollover of the clock, and then the increment is right |
| Promiscuous.IncrementFromHops | firmware/bluetooth_rxtx/bluetooth_le.h:92-96 | The hops between indices 0 and 1 are turned into the increment by the table |
| Promiscuous.Promisc.FollowCb | firmware/bluetooth_rxtx/bluetooth_rxtx.c:2199-2215 | An empty data packet fixes the CRC initial value: what is stored is the one and only 24-bit value from which the packet has its CRC |
| Promiscuous.Promisc.RecoverHopInterval | firmware/bluetooth_rxtx/bluetooth_rxtx.c:2163-2197 | The new state is that of the step function |
| Promiscuous.Promisc.RecoverHopIncrement | firmware/bluetooth_rxtx/bluetooth_rxtx.c:2121-2161 | What each of the three kinds of channel leads to, and that the callback divides by zero exactly on the second channel with an interval of 0 |
| HopKernel.HopSegment | firmware/bluetooth_rxtx/bluetooth.c:131-160 | For any address, two clocks that differ only in bits 2 to 6 select the same frequency only if they are equal, and it lies from 2402 to 2480 |
| HopKernel.SegmentDistinct | firmware/bluetooth_rxtx/bluetooth.c:131-160 | The same for any precalculated values with a five-bit b |
| HopKernel.PermutationBijective | firmware/bluetooth_rxtx/bluetooth.c:91-129 | perm5 is a bijection on five bits for every control word, with the inverse given |
| HopKernel.ButterflyInverse | firmware/bluetooth_rxtx/bluetooth.c:113-121 | The 14 stages are undone by the stages in opposite order |
| HopStandard.PermutedIsStandard | firmware/bluetooth_rxtx/bluetooth.c:91-129 | For every five-bit word and control word, the permutation is the composition of the standard's fourteen exchanges, P13 of bits 1 and 2, P12 of bits 0 and 3, and so on to P0 of bits 0 and 1, written out on five named bits without the tables |
| HopStandard.ButterflyIsStandard | firmware/bluetooth_rxtx/bluetooth.c:100-121 | The same for the stages of the loop |
| HopStandard.HopIsStandard | firmware/bluetooth_rxtx/bluetooth.c:131-160 | For every address and clock the frequency is that of the kernel as the standard draws it, bit by bit: inputs A to F from their address and clock bits, the exchanges, the sum modulo 79, and even channels before odd ones |
| HopKernel.Perm5 | firmware/bluetooth_rxtx/bluetooth.c:91-129 | The loops over the arrays compute that permutation |
| HopKernel.HopSelector.Precalc | firmware/bluetooth_rxtx/bluetooth.c:54-75 | The address fields and the frequency bank |
| HopKernel.HopSelector.NextHop | firmware/bluetooth_rxtx/bluetooth.c:131-160 | The frequency of the kernel, from the precalculated values |
| DfuRuns.DownloadCorrect | firmware/bootloader/dfu.cpp:122-154 | A sequential download from a sector boundary at 0x4000 or above, with GETSTATUS after each block and the IAP calls succeeding: the flash holds the image, nothing below it changed, the rest of its last sector is erased, and all other bytes are as before |
| DfuRuns.SessionRoundTrip | firmware/bootloader/dfu.cpp:156-191 | After the download and the manifest the device is idle, and an upload sends the image back |
| DfuRuns.UploadReads | firmware/bootloader/dfu.cpp:156-176 | From an idle device, uploading sends the stored bytes in order and changes no byte |
| DfuRuns.SeparationExact | firmware/bootloader/dfu.cpp:122-154 | After an accepted block write and requests among which no GETSTATUS, no ABORT and no block write is accepted, the device is ready if and only if a CLRSTATUS was accepted and only quiet requests followed it, and it then accepts exactly the block writes that policy and flash allow |
| DfuRuns.IdleExactly | firmware/bootloader/dfu.cpp:40-68 | From every state in which a block write, an error or a detach waits, a run in which no GETSTATUS, ABORT or block write is accepted ends idle if and only if its last accepted CLRSTATUS is followed by quiet requests only |
| DfuRuns.WritesAreSeparated | firmware/bootloader/dfu.cpp:122-154 | Between two accepted block writes there is an accepted GETSTATUS, ABORT or CLRSTATUS; without an accepted CLRSTATUS it is a GETSTATUS or an ABORT |
| DfuRuns.ErrorThenClear | firmware/bootloader/dfu.cpp:206-218 | The shortest such runs: after any refused request CLRSTATUS alone makes the device ready |
| DfuRuns.WritesWithoutStatusOrAbort | firmware/bootloader/dfu.cpp:206-218 | One such run, from any idle device |
| DfuReplies.AnswerOnRuns | firmware/bootloader/dfu.cpp:95-241 | After any run from power-on and one more request, in the numbers of the specification: exactly which requests are accepted; GETSTATUS then answers status 0 and state 5 after a block write, status 0 and state 2 after the empty download, an upload, CLRSTATUS or ABORT, and after a refused request state 10 with the status that tells why, which is not 0; other requests leave the answer as it is, and DETACH ends the service |
| DfuReplies.StatusReply | firmware/bootloader/dfu.cpp:178-204 | After any run from power-on GETSTATUS is answered with six bytes: status 0 exactly when the state is not 10, a poll time-out that spells 20, a state of 2, 5 or 10; a GETSTATE that follows gives the same number, and asking again the same reply |
| DfuReplies.AcceptedExactly | firmware/bootloader/dfu.cpp:113-241 | When a request is accepted, by the state number, its setup packet, the block number and the outcome of the flash calls |
| DfuReplies.VirginExactly | firmware/bootloader/dfu.cpp:74-81 | The device counts as untouched exactly while only GETSTATUS, good GETSTATE and foreign requests have come |
| Dfu.RunSafe | firmware/bootloader/dfu.cpp:26-31 | No run of requests changes a byte below 0x4000, whatever the IAP calls do, and in DFU mode the state is DFUERROR exactly when the status is not OK |
| Dfu.StepKeeps | firmware/bootloader/dfu.cpp:95-102 | The same for one request; in DFUERROR the flash stays as it is, and only an accepted CLRSTATUS or DETACH leaves it |
| Dfu.ErrorFreezesFlash | firmware/bootloader/dfu.cpp:206-218 | In DFUERROR, until a CLRSTATUS, no run changes the flash |
| Dfu.DFU.RequestHandler | firmware/bootloader/dfu.cpp:40-68 | The object's new state and its reply are those of the state machine |
| Dfu.DFU.RequestDnload | firmware/bootloader/dfu.cpp:122-154 | The same for a download |
| Dfu.DFU.RequestUpload | firmware/bootloader/dfu.cpp:156-176 | The same for an upload |
| Flash.BlockWritten | firmware/bootloader/flash.h:29-50 | Writing one block in sequence: what each byte of the flash becomes, also where the sector size changes |
| Flash.StaysWritable | firmware/bootloader/flash.h:61-79 | After a block is written, the next one may be: either it starts a sector, or the rest of the sector is still erased |
| Flash.WriteExactly | firmware/bootloader/flash.h:29-50 | Every byte of the flash after a block write, however each of the four IAP calls turns out |
| Flash.ProgramClears | firmware/bootloader/flash.h:45-47 | Programming leaves exactly the bits set that were set and are set in the data |
| Flash.SectorLayout | firmware/bootloader/flash.h:61-79 | The sectors lie one after the other, 16 of 4 KiB and 14 of 32 KiB, and a sector begins exactly where the boundary test says |
| Flash.BootloaderKept | firmware/bootloader/flash.h:29-50 | A block written at 0x4000 or above leaves every byte below alone, however the IAP calls turn out |
| Flash.FlashDevice.WriteBlock | firmware/bootloader/flash.h:29-50 | The calls in the source's order do to the device what the function says |
| Getopt.Scan | host/ubertooth-tools/getopt/getopt.c:574-639 | A whole scan, for every option string that neither begins with `+` or `-` nor has `W;`, and every argv: the letters are reported in order with their arguments, and argv ends as the program name, the elements used up in their order, then the non-options and everything behind `--` in their order, with optind where those begin |
| GetoptGrammar.ReadBack | host/ubertooth-tools/getopt/getopt.c:536-1005 | The scan reads back what is written: for every list of operands and options, in clusters, with arguments joined, in the next element or none, ended by nothing, by `--` or by an option that lacks its argument, it reports each letter and argument in order, uses up exactly the option elements and leaves exactly the operands |
| GetoptGrammar.EveryArgument | host/ubertooth-tools/getopt/getopt.c:536-1005 | Every argument list is written in one of these ways, so that ReadBack settles every scan |
| GetoptGrammar.KindByColons | host/ubertooth-tools/getopt/getopt.c:952-1000 | By the shape of the option string: a letter needs an argument, may have one, or has none exactly when one colon, two colons, or none follow its first place |
| GetoptGrammar.UnknownExactly | host/ubertooth-tools/getopt/getopt.c:803-822 | A letter is invalid exactly when it is not in the option string or is the colon |
| GetoptGrammar.NextTaken | host/ubertooth-tools/getopt/getopt.c:952-1000 | -c followed by another argument takes it exactly when c has one colon; otherwise an operand stays an operand |
| Getopt.Scanner.Next | host/ubertooth-tools/getopt/getopt.c:536-1005 | One call makes the next report, in the middle of an element or at the next one, and keeps what the scan will end with, or ends it in the final order |
| Getopt.Scanner.Decode | host/ubertooth-tools/getopt/getopt.c:803-1005 | Decoding a letter makes exactly one report of those still to come and moves on to the next element exactly behind the last letter or an argument |
| Getopt.Scanner.Exchange | host/ubertooth-tools/getopt/getopt.c:302-380 | The two blocks are exchanged, each in its order, nothing else is touched, and the indices follow |
| Getopt.RotateBlocks | host/ubertooth-tools/getopt/getopt.c:338-374 | The loop ends and rotates the blocks, whichever of them is the shorter |
| Getopt.ConsumedIsReported | host/ubertooth-tools/getopt/getopt.c:574-1005 | The reports spell out what is used up: each character of each option element is, in order, a letter reported or part of an argument, and a separate argument is reported whole |
| Getopt.NothingLost | host/ubertooth-tools/getopt/getopt.c:574-631 | Used up and left over together are all the elements, with multiplicity |
| Getopt.PermutedScansTheSame | host/ubertooth-tools/getopt/getopt.c:480-496 | Scanning the permuted arguments again gives the same reports and leaves the same rest, when there was no `--` and no argument was missing |
| TinyPrintf.Ui2a | firmware/bluetooth_rxtx/tinyprintf.c:145-162 | The canonical numeral with a NUL: at most 11 digits for 32-bit numbers from base 8 on, which fit the 12-byte buffer, and at most 20 for 64-bit numbers from base 10 on, which fit the 23-byte one |
| TinyPrintf.LeadingWeight | firmware/bluetooth_rxtx/tinyprintf.c:148-151 | The weight of the leading digit; the multiplication modulo the word size never wraps |
| Numerals.NumeralUnique | firmware/bluetooth_rxtx/tinyprintf.c:145-162 | A number has only one canonical numeral |
| TinyPrintf.A2u | firmware/bluetooth_rxtx/tinyprintf.c:185-199 | The value of the longest run of accepted characters, modulo 2^32, and where it ends |
| TinyPrintf.ReadsBackExactly | firmware/bluetooth_rxtx/tinyprintf.c:185-199 | A printed numeral is read back, to the same number and its own end, exactly when the next character is not accepted |
| TinyPrintf.AcceptedInDecimal | firmware/bluetooth_rxtx/tinyprintf.c:190-192 | In base 10 the accepted characters are the decimal digits and the letter a in either case |
| TinyPrintf.LetterReadAsTen | firmware/bluetooth_rxtx/tinyprintf.c:190-193 | "1a" reads as 20: a digit equal to the base is let through |
| TinyPrintf.Putchw | firmware/bluetooth_rxtx/tinyprintf.c:201-251 | For every width: the counter leaves the range of an int exactly at the widths that cannot be counted down, and otherwise the field is emitted with its one run of filling, zeros between prefix and digits, spaces on the side asked for |
| TinyPrintf.FieldReadsBack | firmware/bluetooth_rxtx/tinyprintf.c:185-251 | Reading a printed field: behind the spaces stand the sign and the mark of the alternate form, and what follows, zeros or not, is read by a2u as the number, when no digit follows the field |
| TinyPrintf.DigitLetters | firmware/bluetooth_rxtx/tinyprintf.c:155-183 | Digits above 9 are printed in the case asked for and read in either case, and no other character is read as a digit |
| TinyPrintf.FieldLength | firmware/bluetooth_rxtx/tinyprintf.c:201-251 | Where the counter stays in range, the field has the larger of the width and its own length exactly when the width fits an int or is too small to matter |
| TinyPrintf.UnderflowsOnlyAt | firmware/bluetooth_rxtx/tinyprintf.c:204-215 | The counter can leave the range of an int exactly at the width 2^31 and at as many widths behind it as sign and mark have characters, three at most |

## What the source does differently from what it promises

- Two accepted DFU block writes need no GETSTATUS or ABORT between them: an error followed by CLRSTATUS also leads back
  to the idle state, and exactly the runs with a last accepted CLRSTATUS and only quiet requests behind it do so
  (`DfuRuns.SeparationExact`, `DfuRuns.WritesWithoutStatusOrAbort`).
- a2u compares a digit with the base by `>` and so accepts a digit equal to it (`TinyPrintf.ReadsBackExactly`).
- A width of 2^31 or more becomes a negative int and is not filled (`TinyPrintf.FieldLength`).
- "Every counted event was tuned" and "every map is applied at its instant" hold for a run that keeps the connection
  exactly when none of its steps is one of these (`LePhySchedule.RunExact`, `LePhySchedule.CountExact`): a second packet
  that ends while no event is tuned, a connection update that names the instant of the tuned open event, one that takes
  its instant away from an open event waiting for its window, a map update that names the instant of the open event,
  and a map update with the instant of a connection update. Where a buffer is free and the next match tunes, and for
  maps where the two maps differ on the next channel, the tuning that follows is not the scheduled one
  (`LePhyFailures`); a run from the start of the program reaches each (`LePhyExamples`).
- le_phy_main sets only the access address of the connection when it is entered. After a session that ended while a
  connection was followed, the next connection starts on schedule only if the event counter, the channel and the
  pending map happen to be zero (`LePhySchedule.ConnectOnPlan`, `LePhyExamples.SecondSession`).
- A CONNECT_REQ's time-out is scaled to ticks in 32 bits before it is checked, so the units from 42960 to 46149, 429 s
  and more, are accepted as if they were short (`LePhyRequests.ConnectByBytes`). The window of a connection update is
  scaled to ticks in 8 bits (`LePhyRequests.UpdateAsked`).
- A connection in which no event ever has two packets is never given up, because each of its events counts as a sign of
  life (`LePhySilence.FollowedForever`).
- After an upload the bootloader is in dfuIDLE, where the DFU specification has dfuUPLOAD-IDLE
  (`DfuReplies.AnswerOnRuns`).
- The promiscuous interval callback adds 3267800000 where the clock's period is 3276800000, so one distance across the
  start of the clock is 0.9 s too short (`Promiscuous.DistanceExact`); for intervals of 20 units or more that spoils the
  phase for good (`Promiscuous.RolloverSpoils`).
- Packets that are close together can end the phase with an interval of 0, by which the increment callback then divides
  (`Promiscuous.PhaseEndsWithZero`, `Promiscuous.Promisc.RecoverHopIncrement`).
- The length test before an advertising frame allows 255 bytes of data; 22 bytes do not fit the frame buffer any more
  (`Frame.BuildAdvInd`).

## Left out

- Hardware: register writes, radio configuration, LEDs, busy waits and USB transfers appear only as inputs of the steps (a byte received, the synthesizer locked, the time).
- Interrupts are atomic steps with one time of day each; the packet handler is one step of the main loop, so interrupts between its own field updates are not modelled.
- LePhy.ChangeChannel: needs a current buffer, which the source notes as open work (firmware/bluetooth_rxtx/le_phy.c:375 and :382); runs in which it is called without one are not possible runs of the model.
- LePhy.Mr3: serves only while a buffer is waited for; the source never disarms that timer match, which would fire again after the clock wraps around.
- LePhy.RxBuf: has no signal strength, and the CRC initial value of a connection is stored unreversed only, because the source reverses 32 bits instead of 24 on these paths.
- LePhy.WithByte: takes the byte itself; the two-byte ring of the DMA controller is not modelled.
- LePhyDevice.Follower: the bytes of a packet are a value in its buffer; dewhitening in place is proved for arrays in `Whitening.LeDewhiten`, pool pointers are indices, and the answer of the address filter is an input.
- LePhySchedule.RunOnSchedule: says nothing about the timing of transmit windows; its condition on the run is exact.
- LePhyReception.Leads: runs are on time when the clock does not go back and MR0 fires at its match value; the delays of MR2 and MR3, and the time that the main loop takes, are not fixed. Elsewhere runs may have any times.
- LePhyAnchor.DeadReckoning: starts from a connection that has an anchor; the source marks the search for the first one as unfinished.
- Channels.MapChannel: of an empty channel map the source divides by zero; its list is then all zeros, so the model reads entry 0.
- Promiscuous.IntervalFromTimes: starts with the clock of a packet of the connection in store and without a start of the clock during the run; the very first distance of a session is measured from an older packet.
- HopKernel: adaptive hopping, whose bank nothing fills.
- Flash.Write: prepare, erase and copy are abstract with an outcome each; a copy that fails is reported as success by the source, so the download theorem assumes that it succeeds. Programming clears bits of erased flash.
- Dfu: the run stops when the device leaves DFU mode, as the bootloader's loop does; descriptors and the reset are not modelled.
- Getopt: long options, `W;`, the other two orderings, messages and the character returned for an error are not modelled.
- TinyPrintf.Putchw: returns the characters instead of passing them to a callback.
- TinyPrintf: the parsing of format strings and the sign of signed conversions.
- The 480-word whitening table, find_access_code, the other ring buffers, carrier sense, range test, Kismet plugins and libusb wrappers.
