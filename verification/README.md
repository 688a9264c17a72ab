# Elke27 client library: a verified model

The library talks to an Elke27 alarm panel over one TCP link. This project models the parts of it
that hold state and decide something, and proves what they guarantee.

* The wire codec. `Checksum`, `Framing` and `Envelope` model the CRC-16, the escaped and
  length-prefixed frames with their resync rule, and the padded, word-swapped, encrypted envelope.
  `FramingTheorems`, `Session` and `WireFormat` prove the layout byte by byte, self-synchronisation, independence from chunk boundaries,
  error detection, and the round trip of whole message streams. AES-128-CBC (FIPS 197; section 6.2
  of NIST SP 800-38A) is any pair of functions on whole blocks that undo each other
  (`Envelope.Lawful`).
* The request scheduler. `Kernel` gives each entry point as a step on values, `KernelMachine` is the
  class with the program's fields and methods, each proved against its step. `KernelInvariant`,
  `KernelRuns` and `KernelTiming` prove what holds over all runs. `KernelRaw` proves what is not
  handed over again, `KernelOrder`, `KernelOrderRuns` and `KernelPriority` the order of hand-offs,
  `KernelOutcomes` what becomes of futures, and `KernelSteps` says what single events leave
  behind. `Pending` and `SeqNumbers` model the open futures, the number allocation and the tracker
  of raw pass-through numbers.
* Paged replies. `Paging`, `PagingTheorems` and `PagingTimeouts` model correlation and reassembly, `Configured` the
  merge of configured ids from blocks and bitmasks.
* The outbound queue (`Outbound`, `OutboundTheorems`), the area exit-delay rules (`ExitDelay`), the
  splitter of concatenated JSON objects (`Splitter`, `SplitterTheorems`; sections 4 and 7 of RFC
  8259) and the bootstrap readiness of the client (`Readiness`).

A class in the program is a class here; its methods are proved against functions on values, and
the theorems are about those functions. Time is a value passed in, callbacks and awaits are cuts
between atomic steps, and everything the surroundings decide (bytes that arrive, whether a send
raises, when a timer fires) is a parameter or an event of a run.

## What the proofs found

* A frame whose low length byte equals its protocol byte is never delivered: the receiver takes
  that byte for a repeat of the protocol byte. Under encryption these are the payloads of 114 bytes
  modulo 256 (`Session.Swallowed114`). `FramingTheorems.DeliveredIffDeliverable` and
  `Session.OnlyTransmissible` give the exact condition.
* A late send confirmation takes the reply timer away from the command in flight: a run does it
  (`KernelTiming.LateConfirmationStealsTimer`), nothing else can (`KernelTiming.TimerLostIff`), and
  confirmations in hand-off order cannot (`KernelTiming.TimerGuardsSlot`).
* A finished raw number can stay a member for ever, for every window size
  (`SeqNumbers.RemarkedLeaks`): exactly if some number was finished for the first time while the
  window was full and its oldest number was in flight again (`SeqNumbers.LeakedIff`).
* A paged transfer has nothing outstanding exactly when the request callback raises and no other
  block was outstanding (`PagingTheorems.NeverStalls`).
* Block-local ids of a table of unknown block size collapse (`Configured.UnknownSizeCollapses`).
  For any computed size, `Configured.OffsetRightIff` and `Configured.MergeRightIff` say exactly
  when a block and the whole merge come out right.
* A `cancel_pending_seq` that returns true is final exactly if no frame of the number is queued
  behind one in the hands of the worker (`OutboundTheorems.CancelIsFinal`); a run reaches a state
  where one is (`OutboundTheorems.DuplicateSurvivesCancel`).
* While the complete flag of the exit delay holds the timer can rise: exactly on a payload that
  sets all four fields of a disarmed area with a higher timer (`ExitDelay.TimerRisesIff`,
  `ExitDelay.SecondPayloadRaises`).
* The complete flag can hold on an armed area with nothing pending (`ExitDelay.CompleteButIdle`);
  `ExitDelay.CompleteMeans` says what it means. A field set and cleared by one payload is reported
  as changed (`ExitDelay.ReportExact`).
* The splitter accepts a closing brace before its opening brace
  (`SplitterTheorems.CloseBeforeOpenAccepted`), and loses a brace of an accepted input exactly if
  some prefix closes more braces than it opens (`SplitterTheorems.NothingLostIff`).
* The ready event can lag behind readiness (`Readiness.EventLags`); `Readiness.EventIffFound` says
  when it is set.

## Model

| member | source | states |
|---|---|---|
| Checksum.CalculateCrc16 | src/elke27_lib/util.py:35-59 | the byte loop with its inner bit loop computes the bit-serial CRC-16 (reflected 0xA001) of the selected slice, from any start register |
| Checksum.CrcConcat | src/elke27_lib/util.py:35-59 | the checksum of a concatenation is the checksum of the second part started from that of the first |
| Checksum.RegisterInjective | src/elke27_lib/util.py:43-58 | with the data fixed, two different registers never meet again: the register can be run backwards |
| Checksum.BurstInjective | src/elke27_lib/util.py:43-58 | from one register, two bit strings of at most 16 bits that lead to the same register are equal |
| Checksum.BurstDetected | src/elke27_lib/util.py:35-59 | equal-length messages that agree outside a window of at most 16 bits have the same CRC if and only if they agree inside it |
| Checksum.ByteBurstDetected | src/elke27_lib/util.py:35-59 | the same for any change confined to two adjacent bytes |
| Checksum.Residue | src/elke27_lib/util.py:35-59 | a body followed by two bytes has CRC 0 exactly when those bytes are its own CRC, low byte first |
| WireFormat.CheckValue | src/elke27_lib/util.py:35-59 | the CRC of the ASCII digits 1 to 9 from register 0 is 0xBB3D, which fixes the polynomial |
| Envelope.SwapEndianness | src/elke27_lib/util.py:63-92 | the word-by-word loop reverses every 32-bit word (byte by byte in WireFormat.SwapBytes); an empty or ragged input is refused, and nothing else is |
| Envelope.SwapInvolution | src/elke27_lib/util.py:63-92 | swapping twice gives the input back |
| Envelope.SwapConcat | src/elke27_lib/util.py:63-92 | whole words are swapped independently of what follows them |
| WireFormat.SwapBytes | src/elke27_lib/util.py:63-92 | byte 4i+j of the swapped string is byte 4i+3-j of the input |
| Envelope.CalculateBlockPadding | src/elke27_lib/util.py:95-111 | a negative length or a block size that is not positive is refused; otherwise the padding is below the block size and completes a block |
| Envelope.LittleEndianRoundTrip | src/elke27_lib/presentation_loop.py:249-249 | the four sequence bytes decode to the sequence number |
| Envelope.EncryptSchema0 | src/elke27_lib/presentation_loop.py:200-272 | which error is returned for which input, in the order of the checks, and otherwise the protocol byte and ciphertext of the sealed envelope |
| Envelope.FillBuffer | src/elke27_lib/presentation_loop.py:248-263 | slice assignments into a zeroed buffer give header, payload, MAGIC and zero padding, with nothing overwritten and nothing missed |
| Envelope.SealBuffer | src/elke27_lib/presentation_loop.py:267-270 | swap, encrypt, swap; refused exactly for a key that is not 16 bytes |
| Envelope.ParsePlaintext | src/elke27_lib/presentation_loop.py:150-197 | parsing the plaintext of an envelope returns every field of it |
| Envelope.EnvelopeRoundTrip | src/elke27_lib/presentation_loop.py:119-272 | for every lawful cipher, 16-byte key and field values in range, decryption returns all fields, the payload and the padding length; MAGIC, padding and the swaps cancel |
| Envelope.SealOpens | src/elke27_lib/presentation_loop.py:119-272 | the two word swaps around the cipher cancel |
| Envelope.ParsedIsPlaintext | src/elke27_lib/presentation_loop.py:150-197 | conversely, whatever parses with zero padding is the plaintext of exactly the fields returned |
| WireFormat.PlaintextLayout | src/elke27_lib/presentation_loop.py:236-265 | which byte of the plaintext holds what: number, source, destination, head, payload, MAGIC, zeros up to a multiple of sixteen |
| WireFormat.SealedLayout | src/elke27_lib/presentation_loop.py:255-272 | the protocol byte is 0x80 plus the number of padding zeros, and the ciphertext, swapped, is the encryption of the swapped plaintext |
| WireFormat.DecryptsIff | src/elke27_lib/presentation_loop.py:119-197 | exactly when decryption succeeds, with which error it fails otherwise, and which bytes become which field |
| Framing.LengthRoundTrip | src/elke27_lib/framing_loop.py:100-110 | the two length bytes decode to the length modulo 65536 |
| Framing.FrameBuild | src/elke27_lib/framing_loop.py:94-127 | the builder refuses exactly the protocol bytes outside 0..255 and otherwise emits start character, escaped body and escaped CRC |
| Framing.EscapeAll | src/elke27_lib/framing_loop.py:118-127 | the escaping loop doubles every start character up with a zero and changes nothing else |
| Framing.DeframeState.ResetToWaitStart | src/elke27_lib/framing_loop.py:130-137 | reset clears the buffer, the expected length, the escape and resync flags |
| Framing.DeframeState.OnUnescaped | src/elke27_lib/framing_loop.py:200-270 | one unescaped byte, in every receiver state, does what the step function says |
| Framing.DeframeState.OnByte | src/elke27_lib/framing_loop.py:167-200 | one raw byte, escape and resync handling included, does what the step function says |
| Framing.DeframeState.Receive | src/elke27_lib/framing_loop.py:145-283 | feeding a chunk to the receiver in place gives the results and the state of feeding its bytes one after another, and keeps the buffer within 4096 bytes |
| Framing.StepReachable | src/elke27_lib/framing_loop.py:145-283 | the buffer bound and the agreement of buffer and state hold after every byte |
| Framing.FeedConcat | src/elke27_lib/framing_loop.py:145-283 | two chunks in a row do what their concatenation does: same results, same final state |
| FramingTheorems.ChunkIndependence | src/elke27_lib/framing_loop.py:145-283 | any split of a byte string gives the results and the final state of the whole |
| FramingTheorems.EscapeUndone | src/elke27_lib/framing_loop.py:118-127 | receiving escaped bytes in the middle of a frame is receiving the bytes themselves |
| FramingTheorems.FrameDecided | src/elke27_lib/framing_loop.py:167-264 | from any state, a frame-shaped buffer yields one result, good exactly if its CRC is right, and leaves the receiver idle |
| FramingTheorems.SelfSynchronising | src/elke27_lib/framing_loop.py:167-264 | from any state whatever, a deliverable frame yields exactly its good frame and leaves the receiver idle |
| FramingTheorems.DeliveredIffDeliverable | src/elke27_lib/framing_loop.py:94-264 | exactly which frames get through: protocol byte not 0, not 0x7E, not equal to the low length byte, and at most 4096 bytes |
| FramingTheorems.StartLost | src/elke27_lib/framing_loop.py:170-198 | a protocol byte of 0 or 0x7E reads as an escape: the first result is a framing error |
| FramingTheorems.LowLengthDropped | src/elke27_lib/framing_loop.py:215-220 | when the low length byte repeats the protocol byte it is dropped after the resync and the frame is never delivered, from no state |
| FramingTheorems.GoodFrameIsBuffer | src/elke27_lib/framing_loop.py:245-263 | a good frame comes only from the byte that completes it: buffer and byte are the frame followed by its own CRC, and its length field is the expected length |
| FramingTheorems.GoodFramesFit | src/elke27_lib/framing_loop.py:231-263 | from every reachable state the bound on the buffer is kept and every good frame has the length its length field says |
| FramingTheorems.StreamDelivered | src/elke27_lib/framing_loop.py:145-283 | from any state, through any noise before each frame and in any chunks, every frame is delivered, in order |
| FramingTheorems.CorruptionReported | src/elke27_lib/framing_loop.py:245-263 | a frame corrupted within 16 bits that is still frame-shaped gives exactly one BAD_CRC |
| WireFormat.FrameLayout | src/elke27_lib/framing_loop.py:94-127 | a frame is 0x7E and then bytes in which every further 0x7E is followed by 0; with those zeros dropped it is protocol, length, data and a CRC that makes the whole CRC 0 |
| WireFormat.LengthTaken | src/elke27_lib/framing_loop.py:222-238 | the third byte fixes the length: an overflow outside 5..4096, otherwise the number of bytes awaited |
| WireFormat.StrayByte | src/elke27_lib/framing_loop.py:167-198 | outside a frame a byte that starts none is a framing error and changes nothing |
| Session.Session.EncodeJson | src/elke27_lib/session_thread.py:656-680 | one message takes the current envelope number and is framed; the counter goes up by one, from 2147483647 to 1, also when encryption fails |
| Session.Session.QueueGood | src/elke27_lib/session_thread.py:560-590 | good frames join the queue in order and every other result is dropped |
| Session.Session.RecvOneFrame | src/elke27_lib/session_thread.py:545-590 | the frame returned and the frames left queued are the old queue followed by the good frames of the chunks read; nothing is read while a frame is queued |
| Session.Session.RecvEnvelope | src/elke27_lib/session_thread.py:682-735 | the first queued or arriving good frame, decrypted, the rest staying queued; without one every chunk is read, no good frame was in them and the queue is empty |
| Session.TransmissibleIffDeliverable | src/elke27_lib/session_thread.py:656-680 | the frame of an encrypted payload is deliverable exactly if the payload has at most 4071 bytes and a length not 114 modulo 256 |
| Session.OneMessage | src/elke27_lib/session_thread.py:656-735 | one message from any receiver state: one good frame, which decrypts to the same payload, number, source, destination and head |
| Session.EndToEnd | src/elke27_lib/session_thread.py:545-735 | any list of such messages, in any chunks, to a receiver in any state: each arrives once, in order, with the numbers WireFormat.NumbersConsecutive spells out |
| WireFormat.NumbersConsecutive | src/elke27_lib/session_thread.py:656-680 | message i of a list sent from counter n has number (n - 1 + i) mod 2147483647 + 1, source 1, destination 0, head 0, and payload i |
| Session.OnlyTransmissible | src/elke27_lib/session_thread.py:656-735 | and no other message reaches an idle receiver |
| Session.Swallowed114 | src/elke27_lib/framing_loop.py:215-220 | a payload of 114 bytes modulo 256 is delivered from no receiver state |
| SeqNumbers.CounterClosedForm | src/elke27_lib/kernel_loop.py:2050-2059 | the counter after n calls in closed form, with the wrap to 10 |
| SeqNumbers.WindowDistinct | src/elke27_lib/kernel_loop.py:2050-2059 | any 2147483638 consecutive numbers are distinct and lie in 1..2^31-1 |
| SeqNumbers.ReusedAfterPeriod | src/elke27_lib/kernel_loop.py:2050-2059 | the window is exact: after it every number from the tenth on comes back |
| SeqNumbers.RawSeqTracker.MarkSeq | src/elke27_lib/kernel_loop.py:224-225 | marking adds the number to the in-flight set and changes nothing else |
| SeqNumbers.RawSeqTracker.FinishSeq | src/elke27_lib/kernel_loop.py:227-238 | finishing in place is the specified move to the late-reply window, with its evictions |
| SeqNumbers.RawSeqTracker.Contains | src/elke27_lib/kernel_loop.py:240-242 | membership is being in flight or remembered |
| SeqNumbers.UnfinishedAreMembers | src/elke27_lib/kernel_loop.py:215-242 | over every run of marks and finishes a marked, unfinished number is a member |
| SeqNumbers.MembersExact | src/elke27_lib/kernel_loop.py:215-242 | if no number is marked again while remembered, the members are exactly the in-flight numbers and the last 256 finished |
| SeqNumbers.StepLeaks | src/elke27_lib/kernel_loop.py:227-238 | a step makes the window remember a number its eviction order has lost exactly if it is a first finish with the window full and its oldest number in flight again; any other step keeps window and order in agreement |
| SeqNumbers.LeakedIff | src/elke27_lib/kernel_loop.py:215-242 | over every run a number is lost to the eviction order exactly if some step of the run was such a finish; otherwise the window is the order and no longer than it may be |
| SeqNumbers.LeakIsPermanent | src/elke27_lib/kernel_loop.py:227-238 | a number so lost is a member after every continuation of the run |
| SeqNumbers.RemarkedLeaks | src/elke27_lib/kernel_loop.py:218-238 | for every window size, 256 included, a concrete run that loses a finished number, which stays a member for ever |
| Pending.PendingResponseManager.CreateFuture | src/elke27_lib/pending_loop.py:48-71 | a new open future for the number |
| Pending.PendingResponseManager.Resolve | src/elke27_lib/pending_loop.py:73-83 | an open future is completed with the reply and leaves the map; otherwise nothing changes and false is returned |
| Pending.PendingResponseManager.Fail | src/elke27_lib/pending_loop.py:85-95 | the same with a failure |
| Pending.PendingResponseManager.DropFuture | src/elke27_lib/pending_loop.py:97-103 | the number leaves the map and no outcome is recorded |
| Pending.PendingResponseManager.FailEvery | src/elke27_lib/pending_loop.py:113-127 | every open future is failed with the one reason and none stays open; earlier outcomes are kept |
| Kernel.TransportWaitBudget | src/elke27_lib/kernel_loop.py:1606-1617 | the loop sums the timeouts of all attempts and exactly the backoffs the retries use |
| Kernel.TrySendNext | src/elke27_lib/kernel_loop.py:1497-1518 | the scheduler and the failures it provokes terminate, skip over expired commands included: the attempts still possible never grow, and the slot invariant is kept |
| Kernel.Step | src/elke27_lib/kernel_loop.py:1497-2009 | every step keeps the slot invariant: filled exactly while IN_FLIGHT, with the number of the command in it |
| KernelMachine.E27Kernel.TrySendNext | src/elke27_lib/kernel_loop.py:1497-1570 | in place: HIGH before NORMAL, expired commands failed and skipped, nothing without an active session |
| KernelMachine.E27Kernel.Launch | src/elke27_lib/kernel_loop.py:1519-1570 | in place: the slot is filled, the reply correlation added, the frame handed over, and a raise is handled at once as a send failure |
| KernelMachine.E27Kernel.CompleteActive | src/elke27_lib/kernel_loop.py:1971-1982 | in place: once per command the slot is vacated and refilled |
| KernelMachine.E27Kernel.EnqueueRequest | src/elke27_lib/kernel_loop.py:1474-1479 | in place: a command joins its queue and the scheduler is kicked |
| KernelMachine.E27Kernel.ScheduleTransportRequeue | src/elke27_lib/kernel_loop.py:1782-1819 | in place: expired fails, a disarm goes to the head of HIGH, no backoff goes to its queue, otherwise it waits |
| KernelMachine.E27Kernel.TransportRetryAllowed | src/elke27_lib/kernel_loop.py:1644-1660 | the answer is the conjunction of the six conditions: no keepalive, in time, route allows, attempts left, repeatable after a send, not raw |
| KernelMachine.E27Kernel.Resend | src/elke27_lib/kernel_loop.py:1849-1862 | in place: the correlation is dropped and the command retried, a disarm before the slot is freed and any other after |
| KernelMachine.E27Kernel.HandleTransportFailure | src/elke27_lib/kernel_loop.py:1821-1884 | in place: retried if allowed, otherwise its future fails; the slot is freed |
| KernelMachine.E27Kernel.HandleSendFailure | src/elke27_lib/kernel_loop.py:1931-1969 | in place: the three cases of a failed send (not the active command, an I/O error, any other error) |
| KernelMachine.E27Kernel.SendRequestWithSeq | src/elke27_lib/kernel_loop.py:2126-2214 | in place: refused without an active session; a disarm is raised to HIGH; the deadline is the transport budget, or one timeout for a keepalive |
| KernelMachine.E27Kernel.OnRequestSent | src/elke27_lib/kernel_loop.py:1572-1598 | in place: send time, confirmation, woken sender, and the reply timer re-armed whatever it guarded |
| KernelMachine.E27Kernel.OnMessageArrives | src/elke27_lib/kernel_loop.py:1298-1300 | in place: the future is resolved, queued and waiting resends are dropped |
| KernelMachine.E27Kernel.OnMessageDispatched | src/elke27_lib/kernel_loop.py:1325-1345 | in place: the slot is freed only for the active number |
| KernelMachine.E27Kernel.OnReplyTimeout | src/elke27_lib/kernel_loop.py:1886-1929 | in place: ignored unless the timer is for the command in the slot |
| KernelMachine.E27Kernel.ReleaseRetry | src/elke27_lib/kernel_loop.py:1805-1814 | in place: a waiting command is enqueued after its backoff, or fails if its deadline passed |
| KernelMachine.E27Kernel.CancelCommandTransport | src/elke27_lib/kernel_loop.py:1720-1743 | in place: the command leaves queues, waiting map and slot, and its future fails |
| KernelMachine.E27Kernel.AbortRequests | src/elke27_lib/kernel_loop.py:1984-2009 | in place: everything queued, waiting, in flight or still open fails |
| KernelMachine.E27Kernel.Close | src/elke27_lib/kernel_loop.py:783-800 | in place: the same, and the session is gone |
| KernelMachine.E27Kernel.RemoveQueuedSeq | src/elke27_lib/kernel_loop.py:1710-1718 | in place: both queues lose the number and keep the order of the rest |
| KernelRuns.StepKeeps | src/elke27_lib/kernel_loop.py:1497-2009 | every entry point keeps the invariant: places, correlations, attempt counts, confirmations and deadlines |
| KernelRuns.RunKeeps | src/elke27_lib/kernel_loop.py:1497-2009 | the invariant holds after every run |
| KernelRuns.EveryCommandInOnePlace | src/elke27_lib/kernel_loop.py:1497-2009 | after every run a command is in at most one of HIGH queue, NORMAL queue, waiting map and slot, and in exactly one while its future is open; the slot is filled exactly while IN_FLIGHT; only the command in it is correlated |
| KernelRuns.SessionLossSettlesAll | src/elke27_lib/kernel_loop.py:1756-2009 | after every run, a disconnect or a close leaves queues, waiting map and slot empty and every open future failed with that reason |
| KernelRuns.AbortClears | src/elke27_lib/kernel_loop.py:1984-2009 | the same for one abort in any state that satisfies the invariant |
| KernelRuns.AtMostOnce | src/elke27_lib/kernel_loop.py:197-212 | over every run a command is handed over at most max_retries + 1 times, a keepalive or a route without retries at most once even when its send fails, and one that may not be repeated is confirmed sent at most once |
| KernelRuns.NoLateAttempt | src/elke27_lib/kernel_loop.py:1497-1518 | over every run no attempt is handed over at or after its deadline |
| KernelRaw.RawAtMostOnce | src/elke27_lib/kernel_loop.py:1644-1660 | over every run a command whose number is tracked as raw for as long as it is accepted is handed over at most once |
| KernelRaw.StepKept | src/elke27_lib/kernel_loop.py:1497-2009 | no event adds a hand-off, made or still possible, to a number tracked as raw |
| KernelRaw.SilentForGood | src/elke27_lib/kernel_loop.py:1497-2009 | a number in no queue, not waiting and not in the slot is handed over in no continuation of the run |
| KernelRaw.CancelledStaysOut | src/elke27_lib/kernel_loop.py:1720-1743 | after a cancel the command is handed over neither by the cancel itself nor in any continuation |
| KernelRaw.RepliedRetryDropped | src/elke27_lib/kernel_loop.py:1298-1300 | a retry still queued or waiting when its reply arrives is handed over in no continuation |
| KernelRaw.DispatchedStaysOut | src/elke27_lib/kernel_loop.py:1325-1345 | nor is the command in the slot once its reply has been dispatched |
| KernelOrder.HeadFirst | src/elke27_lib/kernel_loop.py:1497-1518 | a free slot hands over the head of HIGH, and the head of NORMAL only when HIGH is empty |
| KernelOrder.FreedHeadFirst | src/elke27_lib/kernel_loop.py:1971-1982 | so does the slot when it is freed |
| KernelOrder.DisarmRetriedNext | src/elke27_lib/kernel_loop.py:1794-1799 | the next hand-off after a retried disarm fails is its own next attempt, before every queued command |
| KernelOrder.TrySendNextFollows | src/elke27_lib/kernel_loop.py:1497-1570 | filling the slot keeps HIGH commands in HIGH and others in NORMAL, hands over first attempts in the queued order, HIGH before NORMAL, and does not leave the slot free with a command queued |
| KernelOrder.StepFollows | src/elke27_lib/kernel_loop.py:1497-2009 | so does every event that is no submission |
| KernelOrderRuns.FirstInFirstOut | src/elke27_lib/kernel_loop.py:1474-1518 | over every run, of two first attempts that of the command accepted earlier is made first, unless it is NORMAL and the later one HIGH; so each priority is served in submission order |
| KernelOrderRuns.HighOvertakes | src/elke27_lib/kernel_loop.py:1474-1518 | over every run a HIGH command, once accepted, makes its first attempt before every NORMAL command that has not made its own |
| KernelOrderRuns.NeverIdle | src/elke27_lib/kernel_loop.py:1481-1518 | over every run the slot is not free while a command is queued and a session is active, until the next activation |
| KernelPriority.NormalWaits | src/elke27_lib/kernel_loop.py:1497-1518 | over every run no NORMAL command is handed over, at any attempt, between two moments at which a HIGH command is queued |
| KernelPriority.StepYields | src/elke27_lib/kernel_loop.py:1497-2009 | one event: a queued HIGH command stays and only HIGH commands go first, or it is handed over, or it is gone |
| KernelOutcomes.StepSettles | src/elke27_lib/kernel_loop.py:1497-2009 | an event leaves a future alone or completes an open one, with an outcome that the event causes or the scheduler decides |
| KernelOutcomes.OutcomeFinal | src/elke27_lib/kernel_loop.py:1497-2009 | over every run a completed future keeps its outcome, and one that was not opened at submission is never opened |
| KernelOutcomes.OutcomeHasCause | src/elke27_lib/kernel_loop.py:1497-2009 | over every run an outcome is a timeout, a failed send, or has its cause in the run: a reply to that number, a cancel of it, a lost connection or a close |
| KernelOutcomes.CancelSettles | src/elke27_lib/kernel_loop.py:1720-1743 | a cancel fails the open future of its number as cancelled |
| KernelSteps.BackoffDoubles | src/elke27_lib/kernel_loop.py:1631-1636 | the first retry waits half a second, each further one twice as long, none over the bound |
| KernelSteps.Submitted | src/elke27_lib/kernel_loop.py:2126-2214 | what a submission leaves: priority, attempt and deadline of the accepted command and its open future; nothing without a session |
| KernelSteps.HeadTaken | src/elke27_lib/kernel_loop.py:1497-1570 | the whole state after a free slot takes the head of a queue |
| KernelSteps.LateHeadDropped | src/elke27_lib/kernel_loop.py:1513-1517 | a head whose deadline has come fails as timed out |
| KernelSteps.SendConfirmed | src/elke27_lib/kernel_loop.py:1572-1598 | what a confirmed send sets: send time, reply timer, the caller waiting for it |
| KernelSteps.TimeoutDecides | src/elke27_lib/kernel_loop.py:1644-1660 | when the reply timer of the command in the slot fires: another attempt if and only if the six conditions hold, spelled out; a disarm at once, others after their backoff; otherwise the future fails and the number is gone |
| KernelSteps.ReplyTaken | src/elke27_lib/kernel_loop.py:1298-1300 | a reply completes its future and removes its correlation and its queued attempts, and nothing else |
| KernelSteps.SendFailureDecides | src/elke27_lib/kernel_loop.py:1931-1969 | a send that breaks the connection or is not for the slot fails the future; only the former ends the session |
| KernelSteps.ClosedRefuses | src/elke27_lib/kernel_loop.py:783-800 | after a close there is no session, nobody waits for a send, and requests are refused |
| KernelSteps.NoRetryRoutes | src/elke27_lib/kernel_loop.py:461-473 | the routes that are never retried |
| KernelInvariant.TrySendNextKeeps | src/elke27_lib/kernel_loop.py:1497-1570 | filling the slot, with all the failures it may provoke, keeps the invariant |
| KernelInvariant.TransportFailureKeeps | src/elke27_lib/kernel_loop.py:1821-1884 | so does a transport failure, retried or final |
| KernelInvariant.SendFailureKeeps | src/elke27_lib/kernel_loop.py:1931-1969 | so does a failed send |
| KernelInvariant.RequeueKeeps | src/elke27_lib/kernel_loop.py:1782-1819 | so does putting a retry away |
| KernelTiming.TimerGuardsSlot | src/elke27_lib/kernel_loop.py:1572-1598 | if confirmations come in hand-off order, a command whose send is confirmed is always guarded by its own reply timer |
| KernelTiming.StepLosesTimer | src/elke27_lib/kernel_loop.py:1572-1598 | from a state whose confirmed command has its own timer, a step loses it if and only if it confirms another number, both timeouts being positive |
| KernelTiming.TimerLostIff | src/elke27_lib/kernel_loop.py:1572-1598 | over every run the guard holds all along if and only if no step is such a confirmation |
| KernelTiming.LateConfirmationStealsTimer | src/elke27_lib/kernel_loop.py:1578-1598 | a run that reaches the loss: one command answered before its confirmation, a second confirmed, then the late confirmation of the first |
| KernelTiming.StolenTimerIdles | src/elke27_lib/kernel_loop.py:1578-1598 | the timer left then guards nothing: when it fires nothing else happens |
| KernelTiming.AttemptsFit | src/elke27_lib/kernel_loop.py:1606-1639 | attempt a, started after a timeouts and the backoffs between them, ends by the deadline; the last one ends exactly on it |
| KernelTiming.BackoffsAddUp | src/elke27_lib/kernel_loop.py:1606-1636 | the sum of backoffs never decreases with the number of retries |
| KernelTiming.UnansweredUsesWholeBudget | src/elke27_lib/kernel_loop.py:1782-1929 | a repeatable command alone on the link and never answered is handed over exactly max_retries + 1 times at the times of the budget, then its future fails and the scheduler is quiet |
| KernelTiming.FreedAlone | src/elke27_lib/kernel_loop.py:1821-1862 | with empty queues a reply timeout of a retryable command amounts to vacating the slot and requeueing it |
| Paging.Dispatcher.AddPending | src/elke27_lib/dispatcher_loop.py:250-251 | a request is remembered under its number, replacing an earlier one |
| Paging.Dispatcher.MatchPending | src/elke27_lib/dispatcher_loop.py:253-262 | a matched request is returned and forgotten |
| Paging.Dispatcher.Dispatch | src/elke27_lib/dispatcher_loop.py:269-332 | a reply is matched by a positive number, stale transfers expire, and the message is passed through, consumed or assembled |
| Paging.Dispatcher.ExpirePagedTransfers | src/elke27_lib/dispatcher_loop.py:488-499 | a key stays, with its transfer, if and only if less than the timeout of its route, or the default, has passed since its last block |
| Paging.Dispatcher.MaybeReassemble | src/elke27_lib/dispatcher_loop.py:350-458 | the guards before reassembly: not paged, unmatched, malformed, refused, or a block to accept |
| Paging.Dispatcher.AddBlock | src/elke27_lib/dispatcher_loop.py:399-458 | a changed block count passes through and drops the transfer, a duplicate is consumed, a new block is stored and may request or complete |
| Paging.Dispatcher.RequestNext | src/elke27_lib/dispatcher_loop.py:413-432 | the scan requests the first block neither received nor requested, and records it unless the callback raises |
| Paging.Dispatcher.InOrder | src/elke27_lib/dispatcher_loop.py:433-450 | the received blocks in ascending order of their numbers |
| PagingTheorems.StepIsLocal | src/elke27_lib/dispatcher_loop.py:350-472 | what a message does to a transfer and how it is handled depends on that transfer alone, and it changes no other |
| PagingTheorems.TransfersDoNotMix | src/elke27_lib/dispatcher_loop.py:350-472 | over every run, with expiry and aborts, a transfer is what its own messages alone would make it |
| PagingTheorems.FirstCopyIsFirst | src/elke27_lib/dispatcher_loop.py:404-412 | the copy kept of a block is the first that arrived |
| PagingTheorems.Reassembled | src/elke27_lib/dispatcher_loop.py:399-458 | blocks 1..n in any order with duplicates and other transfers between: nothing is released before all n are in; then the message has blocks 1..n ascending, each once, first copy, and the transfer is gone |
| PagingTheorems.NeverStalls | src/elke27_lib/dispatcher_loop.py:413-432 | after an accepted block that does not complete the transfer some block is requested and not received, except exactly when the callback raises and nothing else was outstanding |
| PagingTheorems.RequestedOnce | src/elke27_lib/dispatcher_loop.py:413-432 | within a transfer no block is successfully requested twice |
| PagingTimeouts.ExpireKeeps | src/elke27_lib/dispatcher_loop.py:488-499 | a transfer survives expiry, unchanged, if and only if it is less than its route timeout, or the default, old |
| PagingTimeouts.TimelyReplyAssembled | src/elke27_lib/dispatcher_loop.py:269-458 | with expiry before every message: if each message comes less than the timeout after the last new block, the reply is assembled from all n blocks when the last one arrives, and not before |
| PagingTimeouts.LateReplyDropped | src/elke27_lib/dispatcher_loop.py:488-499 | a block that comes at or after the timeout finds its transfer gone |
| PagingTimeouts.KeysApart | src/elke27_lib/dispatcher_loop.py:460-472 | a reply belongs to the transfer its request carries; without one, replies belong together exactly if session, number and route agree |
| PagingTimeouts.PassedOn | src/elke27_lib/dispatcher_loop.py:350-432 | exactly which blocks are passed on raw with their transfer dropped, and which are consumed without any effect |
| Configured.DedupeSorted | src/elke27_lib/handlers/area.py:1398-1399 | the ascending duplicate-free list of the items |
| Configured.BlockSizeIs | src/elke27_lib/handlers/area.py:1235-1252 | a stated positive size wins; otherwise the size is the least with which the blocks hold the table; otherwise there is none |
| Configured.SortedSetIs | src/elke27_lib/handlers/area.py:1398-1399 | that list is ascending and has exactly the elements of the input |
| Configured.AscendingUnique | src/elke27_lib/handlers/area.py:1398-1399 | and it is the only such list |
| Configured.Merge | src/elke27_lib/handlers/area.py:733-754 | the loop over the blocks collects their ids, block-local ones moved up, and sorts them |
| Configured.OffsetRight | src/elke27_lib/handlers/area.py:1254-1268 | a block reported absolutely or block-locally ends as the absolute ids of its slice of the table |
| Configured.OffsetRightIff | src/elke27_lib/handlers/area.py:1254-1268 | for any computed size, missing or wrong, a block comes out absolute if and only if it is the first, or empty, or absolute with its largest id above the computed size or none computed, or local with the true size computed |
| Configured.MergeExact | src/elke27_lib/handlers/area.py:733-754 | for a table cut into blocks of one known size the merge is exactly the ascending list of configured ids |
| Configured.AllInPlace | src/elke27_lib/handlers/area.py:733-754 | the same whatever sizes were computed, as long as every block comes out in its place |
| Configured.MergeRightIff | src/elke27_lib/handlers/area.py:733-754 | for any one computed size, missing or wrong, the merge is the configured ids if and only if every block is guessed right |
| Configured.WrongGuessLoses | src/elke27_lib/handlers/area.py:1254-1268 | one wrong guess loses a configured id, too small a size the last of the last wrong block, too large a size the first of the first |
| Configured.WrongGuessesCanCancel | src/elke27_lib/handlers/area.py:1235-1268 | with different stated sizes two wrong guesses can cancel: a concrete table |
| Configured.UnknownSizeCollapses | src/elke27_lib/handlers/area.py:1254-1268 | without a known size block-local ids are not moved and collapse: a concrete table |
| Configured.PagedInventoryExact | src/elke27_lib/dispatcher_loop.py:399-458 | from arrivals to inventory: blocks in any order, duplicated and interleaved, end as the configured ids |
| Configured.IdsFromBitmask | src/elke27_lib/handlers/area.py:1370-1379 | exactly the set bit positions, ascending; the bits of the ids add up to the mask; a negative mask gives nothing |
| Outbound.OutboundQueue.constructor | src/elke27_lib/outbound_loop.py:52-74 | interval clamped to 0, burst to 1, a full bucket, nothing queued |
| Outbound.OutboundQueue.EnqueueFrame | src/elke27_lib/outbound_loop.py:94-111 | a frame joins the end of the queue of its priority |
| Outbound.OutboundQueue.Throttle | src/elke27_lib/outbound_loop.py:256-272 | in place: refill capped at the burst, then a token or a sleep |
| Outbound.GrantCosts | src/elke27_lib/outbound_loop.py:256-272 | one grant costs a token and tokens come back no faster than one per interval, whether or not it slept |
| Outbound.TokensSpent | src/elke27_lib/outbound_loop.py:256-272 | summed over any stretch of grants |
| Outbound.RateBound | src/elke27_lib/outbound_loop.py:256-272 | in any window the grants number at most the burst plus the window over the interval; with burst 1 consecutive grants are an interval apart |
| OutboundTheorems.RefillIs | src/elke27_lib/outbound_loop.py:256-272 | a refill adds the time passed over the interval, up to the burst |
| OutboundTheorems.GrantIs | src/elke27_lib/outbound_loop.py:256-272 | with a whole token the grant is immediate and costs it; otherwise it comes after the sleep |
| OutboundTheorems.SleepIs | src/elke27_lib/outbound_loop.py:266-272 | the sleep lasts at least until the missing part of a token is earned |
| OutboundTheorems.FullBurst | src/elke27_lib/outbound_loop.py:256-272 | a full bucket grants burst frames at once |
| OutboundTheorems.PauseFills | src/elke27_lib/outbound_loop.py:256-262 | a pause of burst intervals fills the bucket |
| Outbound.OutboundQueue.CancelPendingSeq | src/elke27_lib/outbound_loop.py:116-161 | in place: a frame being sent is refused, one being throttled is marked, queued ones are removed |
| Outbound.OutboundQueue.DropFrom | src/elke27_lib/outbound_loop.py:127-140 | the queue is drained and refilled in order; true exactly if a frame had the number |
| Outbound.OutboundQueue.WorkerPoll | src/elke27_lib/outbound_loop.py:196-248 | in place: from the top of the loop to the next await, HIGH first |
| Outbound.OutboundQueue.WorkerNormalReady | src/elke27_lib/outbound_loop.py:249-250 | in place: a NORMAL frame arrives in time and becomes the current one |
| Outbound.OutboundQueue.WorkerPollTimeout | src/elke27_lib/outbound_loop.py:251-254 | in place: after the 0.05 s wait HIGH is looked at again |
| Outbound.OutboundQueue.WorkerThrottleDone | src/elke27_lib/outbound_loop.py:205-215 | in place: a cancelled frame is skipped, any other starts its send |
| Outbound.OutboundQueue.WorkerSendDone | src/elke27_lib/outbound_loop.py:216-242 | in place: sent or failed, the frame in hand is cleared |
| Outbound.OutboundQueue.StopQueue | src/elke27_lib/outbound_loop.py:81-92 | in place: stop, drain if there is an exception, cancel the worker |
| Outbound.OutboundQueue.DrainWithFailure | src/elke27_lib/outbound_loop.py:174-194 | both queues are emptied, or nothing is without an exception |
| Outbound.OutboundQueue.StartQueue | src/elke27_lib/outbound_loop.py:76-79 | in place: a finished worker is replaced and the stop flag cleared; a live one is left alone |
| OutboundTheorems.StepKeeps | src/elke27_lib/outbound_loop.py:94-254 | every step of the worker and its callers keeps the order and the fate of every frame |
| OutboundTheorems.OrderKept | src/elke27_lib/outbound_loop.py:94-254 | over every run and per priority, frames are taken in the order they were enqueued, less the removed ones, and each send begins at most once, in the order taken |
| OutboundTheorems.HighFirst | src/elke27_lib/outbound_loop.py:156-200 | the worker takes the head of HIGH whenever HIGH is not empty, and ends when it is stopped |
| OutboundTheorems.StopAndStart | src/elke27_lib/outbound_loop.py:76-92 | what a stop and a start leave |
| OutboundTheorems.StartedNeverCancelled | src/elke27_lib/outbound_loop.py:116-161 | over every run no frame whose send has begun is reported cancelled |
| OutboundTheorems.CancelGone | src/elke27_lib/outbound_loop.py:116-161 | a cancel that returns true leaves no frame with the number to be sent if and only if none was queued behind one in the hands of the worker |
| OutboundTheorems.QueuedIsSent | src/elke27_lib/outbound_loop.py:196-254 | from the top of the loop any queued frame is sent in some continuation that enqueues nothing |
| OutboundTheorems.CancelIsFinal | src/elke27_lib/outbound_loop.py:116-161 | in every state of every run, after a cancel that returns true no continuation without a new frame of the number sends one, if and only if none was queued behind one in hand |
| OutboundTheorems.DuplicateSurvivesCancel | src/elke27_lib/outbound_loop.py:120-125 | a run reaches a state in which it is not: two frames of one number, the first taken |
| ExitDelay.AreaState.Reconcile | src/elke27_lib/handlers/area.py:322-349 | in place: the payload is applied and the rules clear; the reported fields are exactly those that differ, and pending fields set and cleared by the one payload |
| ExitDelay.AreaState.ApplyFields | src/elke27_lib/handlers/area.py:326-341 | in place: fields of the right type are applied, a bool is no timer, and exactly the differing fields are reported |
| ExitDelay.AreaState.ClearingRules | src/elke27_lib/handlers/area.py:228-282 | in place: the clearing rules and what they report |
| ExitDelay.AreaState.ClearAllPending | src/elke27_lib/handlers/area.py:285-290 | in place: the reset of one area on reconnect |
| ExitDelay.FieldsLeft | src/elke27_lib/handlers/area.py:228-341 | what a payload leaves in each field: the arm state is its own if it has one; an armed area has nothing pending; an untouched exit delay stays, a counting timer takes the smaller value, any other payload leaves exactly what it carries |
| ExitDelay.FlagLeft | src/elke27_lib/handlers/area.py:228-282 | exactly when the complete flag is set afterwards |
| ExitDelay.CountdownStep | src/elke27_lib/handlers/area.py:262-275 | a timer-only payload with 0 < n <= previous on a complete area leaves exactly n and changes nothing else |
| ExitDelay.ArmedStates | src/elke27_lib/handlers/area.py:175-178 | which arm states count as armed: one that is there and is not DISARMED in any case |
| ExitDelay.ReportExact | src/elke27_lib/handlers/area.py:216-282 | the report of the whole reconcile in terms of the area before and after |
| ExitDelay.AlwaysCoherent | src/elke27_lib/handlers/area.py:228-290 | after every sequence of payloads and resets an area armed and not DISARMED has no pending field |
| ExitDelay.PendingTogether | src/elke27_lib/handlers/area.py:247-282 | all three pending fields are set only by one payload that carried all three, since when payloads set only the timer; command state and alarm zone are still its own and the timer is no higher |
| ExitDelay.TimerStep | src/elke27_lib/handlers/area.py:256-282 | from one complete state to the next the timer rises if and only if a payload sets all four fields, disarmed, with a timer above the one there was |
| ExitDelay.TimerRisesIff | src/elke27_lib/handlers/area.py:256-282 | over every run on which the complete flag holds, the timer rises at some step if and only if some payload is such a one |
| ExitDelay.TimerNeverRises | src/elke27_lib/handlers/area.py:256-282 | without such a payload it is at the end no higher than at the start |
| ExitDelay.SecondPayloadRaises | src/elke27_lib/handlers/area.py:275-282 | two payloads in a row that set all four fields of a disarmed area do raise it |
| ExitDelay.CompleteMeans | src/elke27_lib/handlers/area.py:228-290 | after every run the complete flag means that all three fields are pending if the area is not armed and none if it is |
| ExitDelay.CompleteButIdle | src/elke27_lib/handlers/area.py:275-282 | every payload that sets all four fields and arms the area leaves the flag set with nothing pending |
| Splitter.ParseConcatenated | src/elke27_lib/linking_thread.py:73-108 | the character loop computes the specified scan; the error is raised exactly when the final depth is not 0 |
| SplitterTheorems.ValueInert | src/elke27_lib/linking_thread.py:84-103 | inside an object any JSON value, with braces, quotes and escapes in its strings, passes by without the depth dropping |
| SplitterTheorems.TextInert | src/elke27_lib/linking_thread.py:85-95 | a JSON string of any characters and escapes does not disturb the scan |
| SplitterTheorems.ObjectSplit | src/elke27_lib/linking_thread.py:84-103 | an object between objects is returned whole, and every proper prefix of it leaves a brace open |
| SplitterTheorems.SplitInvertsPrint | src/elke27_lib/linking_thread.py:73-108 | of any JSON objects printed one after another, with any layout, exactly the printed texts are returned, in order |
| SplitterTheorems.CutRejected | src/elke27_lib/linking_thread.py:105-106 | a stream that ends inside an object raises the error |
| SplitterTheorems.NothingInvented | src/elke27_lib/linking_thread.py:96-103 | for any input accepted, the texts are disjoint pieces of it, in order, each from an opening brace to a closing one |
| SplitterTheorems.NothingLostIff | src/elke27_lib/linking_thread.py:84-108 | of an accepted input every brace outside strings is in exactly one returned text if and only if no prefix closes more braces than it opens |
| SplitterTheorems.CloseBeforeOpenAccepted | src/elke27_lib/linking_thread.py:105-108 | a family of inputs where one does: a closing brace before its opening brace is accepted and nothing is returned |
| Readiness.Bootstrap.MarkInventoryReady | src/elke27_lib/client.py:1382-1402 | in place: the first inventory of a domain sets what is pending; later ones change nothing |
| Readiness.Bootstrap.MarkStatusSeen | src/elke27_lib/client.py:1700-1707 | in place: seen ids leave the pending set, an empty one makes the domain ready |
| Readiness.Bootstrap.MaybeSetReady | src/elke27_lib/client.py:1363-1368 | in place: the event is set only if the kernel and all domains are ready |
| Readiness.Bootstrap.ResetBootstrapState | src/elke27_lib/client.py:1373-1378 | in place: everything back to not ready |
| Readiness.FirstIsFirst | src/elke27_lib/client.py:1382-1385 | the inventory event that counts is the first since the last reset |
| Readiness.ReadyIffCovered | src/elke27_lib/client.py:1363-1402 | over every run the client is bootstrapped exactly when each domain has had its inventory and, since then, a status for every id it configured |
| Readiness.ReadyStays | src/elke27_lib/client.py:1363-1402 | once bootstrapped it stays so through any events until a reset |
| Readiness.EventStep | src/elke27_lib/client.py:1366-1402 | a step leaves the event set if and only if it is no reset and the event was set or the step looked and found kernel and client ready |
| Readiness.EventIffFound | src/elke27_lib/client.py:1366-1402 | over every run the event is set if and only if, since the last reset, some status, recheck or first empty inventory found kernel and client ready |
| Readiness.EventHonest | src/elke27_lib/client.py:1366-1368 | so it is set only while the client is bootstrapped |
| Readiness.EventLags | src/elke27_lib/client.py:1366-1368 | a run that ends with kernel and client ready and the event unset, until the next look |

## Left out

- Sockets, threads, locks and the event loop: their effects are steps or parameters. Work handed to the loop from another thread is one step when it runs.
- AES internals, SHA-1 link keys and the HELLO key exchange: library calls; only the abstract cipher pair is used.
- JSON text of message bodies: payload bytes in the codec, small records elsewhere.
- Logging, redaction, diagnostics and their throttle flags, with the deframer's `seen_frame`: no effect on the properties.
- Generators, features, registry, permission tables and error classes: flat tables.
- The handlers other than area, and the area fields outside the exit delay: field copying that does not interact with it.
- `encryption_loop.py`: a second copy of the swap and cipher wrapping.
- The deframer's invalid-state branch: the receiver state is a type with three values here, so no fourth can occur.
- Fire-and-forget sends and the keepalive loop with its counters: the scheduler steps take only requests that expect a reply.
- The message text and the creation of a transfer key in `_try_send_next`: the dispatcher model takes the key from the request.
- The lock timeouts of `pending_loop.py`: each of its methods is one step.
- The parsing of id containers: a block reports a list of positive ids.
- Rounding: times, tokens and delays are reals. The even split of a table into blocks is exact integer arithmetic.
- Non-ASCII letters in an arm state: upper-casing is that of ASCII.
- KernelRuns.AtMostOnce: message numbers are fresh within a run, which SeqNumbers.WindowDistinct justifies for 2147483638 submissions.
- KernelRuns.EveryCommandInOnePlace: its clause on correlations takes a number to be free of a new correlation when the second half of an inbound message begins; the program's receive thread can begin that half after the loop has resent the number, and then frees the slot with the new correlation still registered.
- KernelMachine.E27Kernel.OnMessageArrives: an inbound message is two steps, arrival and after its handlers, so that what handlers submit falls between them; the correlation goes at arrival here and when the message is dispatched in the program.
- KernelMachine.E27Kernel.AbortRequests: the disconnect callback is a step of its own after the session is lost.
- KernelMachine.E27Kernel.Launch: the message text and the paged transfer key made there are not modelled.
- KernelMachine.E27Kernel.SendRequestWithSeq: the path for sends that expect no reply is not modelled.
- KernelMachine.E27Kernel.OnReplyTimeout: the link check requested after a silent timeout is not modelled.
- KernelTiming.UnansweredUsesWholeBudget: is about a command alone on the link; other commands in the queues only delay it, and then KernelRuns.NoLateAttempt applies.
- Outbound.RateBound: a throttle sleep cut short by a stop is not part of the sequence of grants.
- Outbound.OutboundQueue.StopQueue: the cancelled worker is finished at once; the program finishes it when the loop next runs it. Taking a frame from the NORMAL queue and resuming the worker are one step.
- PagingTheorems.Reassembled: is about matched replies with a constant block count and without an authorisation error, to a transfer neither expired nor aborted meanwhile; other messages of the transfer pass through raw, which Paging.Dispatcher.AddBlock and Paging.Dispatcher.MaybeReassemble state.
- Configured.MergeRightIff: is about one computed size for all blocks; with different stated sizes wrong guesses can cancel, which Configured.WrongGuessesCanCancel shows.
- ExitDelay.AreaState.ClearAllPending: one area; the program resets every area.
- ExitDelay.AreaState.Reconcile: one area; the check of the area id and the timestamps are not modelled.
- Readiness.Bootstrap.ResetBootstrapState: the exit-delay reset it starts with is ExitDelay.AreaState.ClearAllPending; the replacement of the snapshot is not modelled.
- Readiness.Bootstrap.MarkInventoryReady: the attribute and status requests it sends are not modelled; a domain is one of the three the client passes.
