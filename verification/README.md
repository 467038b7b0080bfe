# What the LinuxCNC status agent guarantees, proved

A model, in Dafny 4.11, of the parts of the LinuxCNC status agent that keep long-lived state, and proofs of what
they promise. One module per component:

| module | component |
|---|---|
| `MesSpool` | the durable event spool: opening, append transactions, pending, acknowledging, dropping, pruning, and the `Spool` object |
| `SpoolIdentity` | producer numbers over crashes, re-created databases and restored copies, transaction by transaction |
| `MesWorker` | cycle facts on their way into the spool |
| `OutboxCopy`, `OutboxReader` | copying MillWright's outbox into the spool; the reader object and its operator readout |
| `MesForward`, `Draining` | the next batch, the service's answers, backoff and batch cap; the `Forwarder` object; which rows ever get through |
| `Delivery`, `DroppedRows` | spool, forwarder, service and operator together, with lost, late and repeated requests and crashes; which dropped rows can still arrive |
| `EndToEnd` | the copying reader and the forwarder on one spool: from MillWright's outbox to the service's ledger |
| `CycleTime` | cycle and part accounting, against a book of physical parts |
| `ProgramTracker` | landmarks of a program, and the line tracker against a declarative reading of its whole sample history |
| `CycleMachine`, `CountedCycle` | the IDLE / RUNNING / PAUSED machine and the part of the status loop that drives it; when a cycle counts, by all it showed |
| `JsonText`, `JsonObject` | JSON strings and objects as bytes: their lengths, and that reading undoes writing |
| `GcodeSplit`, `GcodePacket`, `PacketAuth`, `GcodeReceive`, `GcodeLeftovers`, `GcodeWire` | cutting a program, its packets, their signatures, putting it together again, which left-over pieces spoil that, and all of it over datagrams |
| `GcodeSender`, `ProgramScanner` | the two worker-thread protocols, over all interleavings |
| `JournalPages`, `JournalWriter`, `JournalRows` | journal paging, the numbers the status packets carry, and which packets become rows |
| `PacketGate` | when a packet goes out, in real time |
| `JsonValue`, `SchemaCheck` | JSON equality and the JSON Schema subset of the event contract |
| `Wrappers` | `Option` and `Result` |

How it is put together. What an operation does to the fields is a function on values; the class holds the fields and
its methods are proved to do exactly that; lemmas then prove what the source promises about those functions, mostly
over every sequence of calls, steps or samples. Concurrent and crashing parts are state machines whose steps are the
source's single SQLite transactions, single file replacements and single locked sections; a run is any sequence of
steps, and a step that is not possible changes nothing. Clocks, free disk space, file sizes, the answers of the
network and the verdicts of the event contract are inputs. UUIDs come from a counter that never repeats. A crash
loses memory and keeps the database, the sidecar file and the acknowledgement file.

What the proofs turned up. Where a promise does not hold as it stands, the model keeps the code as it is, a lemma
gives a run or an input that breaks it, and the exact condition is proved where there is one.

* Producer numbers are unique precisely when copies are never put back, or else every sidecar write succeeds and
  copies are taken while the sidecar matches the database (`NumbersUnique`). The spool's documentation (lines 30-37 of
  `agent_mes_spool.py`) promises it without that condition.
* The outbox is copied exactly once precisely because a fresh epoch is a new file: the reader's two SELECTs are two
  read transactions (`CopiesExactlyOnce`).
* Rows over the service's limits stay in the spool and take up places in every batch. From a full cap, against a
  service that takes any batch within its limits, a row that may be sent is acknowledged in the end if and only if
  fewer such rows lie before it than a batch may hold (`AcknowledgedIff`); behind as many it is never sent, whatever
  the service answers (`Draining.NeverSent`; `OversizedRowStalls` is a spool and a service of that kind). If the
  service finds batches too large, rows with fewer before them than the cap is left at still get through
  (`FewAheadArrives`).
* A row dropped by the operator can still arrive, if and only if a request that has left, or has been read from the
  spool and is about to leave, carries it (`DroppedArrivesIff`). The spool's documentation (lines 45-49 of
  `agent_mes_spool.py`) says dropped rows are never sent; `DroppedArrivesLate` and `DroppedBetweenReadAndSend` are runs
  in which one arrives.
* More than 256 cycle facts wait after a pass if and only if some attempt finds the spool full while more than 257
  facts are left (`StoreFacts`): a full spool makes the worker give up only one of them a pass.
* After a start or a fresh epoch the operator readout is right if and only if the row of the last login or logout is
  still in the outbox: once it is pruned, a restarted agent shows an older login state, or nobody (`StartShows`;
  `PrunedLoginForgotten` is such a run), until the next login or logout (`ReadoutFollows`).
* A late G-code worker that cannot read its file puts off the next send, although a reset came in between; it changes
  nothing else (`LateWorkerOnlyDelays`, `LateWorkerMayDelay`).
* Inside `ProgramScanner.load` the old landmarks look finished for a moment (`NotInsideLoad`); outside they never do.
* `schema_errors` ignores keywords beside a `$ref`; it is then more lenient than JSON Schema 2020-12, never stricter
  (`ChecksTheStandard`, `KeywordBesideRefIgnored`).
* A journal row is written before its packet is sent. If the packet never leaves, the next one is more than a number
  on: the step is exactly the rows lost that way, and one if the packet itself was recorded (`NumbersStep`;
  `NumberSkipped` is a crash that gives a step of 2). `PROTOCOL.md` (lines 350-352) promises steps of 0 or 1, which
  hold as long as every recorded packet leaves (`NumbersStepByOne`).
* The example receiver puts a program together from whatever pieces it holds under that name. It gives the content, and
  nothing else, if and only if what it holds before has no piece number beyond the program and, when the program has
  more than one piece, none of another version (`DeliversIff`; `MixedVersions` is a file that is neither of two).
* The empty program is one empty piece, and a piece of one character may be over the byte budget when the budget is
  smaller than that character (`Longest`, `GreedyCuts`).

## Model

| member | source | states |
|---|---|---|
| MesSpool.StoresEach | agent_mes_spool.py:297-325 | a committed append adds one pending row per item on the next row numbers, own events take the next producer numbers without a gap, and nothing else of the table changes |
| MesSpool.StoresWhen | agent_mes_spool.py:304-325 | the transaction succeeds if and only if the contract accepts every item and no event id is taken, in the table or earlier in the same call |
| MesSpool.OldestFirst | agent_mes_spool.py:353-366 | pending rows of the wanted types, in increasing order, and one is left out only when the limit is reached by older ones |
| MesSpool.Lifecycle | agent_mes_spool.py:289-395 | any operation: stored pending, closed once, by an acknowledgement naming the row or the operator's discard, deleted only once closed; the event never changes |
| MesSpool.DiscardComplete | agent_mes_spool.py:407-458 | the discard drops, with reason and time, exactly the pending rows stamped with a site other than the one kept; a row stamped with that one, without a stamp or closed does not change |
| MesSpool.ClosedRowsKept | agent_mes_spool.py:388-395 | over any run of operations a closed row stays as it is until a prune whose cutoff lies after its closing, and that prune removes it |
| MesSpool.RowsConserved | agent_mes_spool.py:30-49 | over any run of operations a row never goes back a stage, acknowledged and dropped are final, and a row that was pending and is gone was closed on the way |
| MesSpool.OpeningMeans | agent_mes_spool.py:191-217 | the producer id survives, the identity is kept if and only if there is one and the database is no older copy, and otherwise numbers start again in an epoch neither the database nor the sidecar has had |
| MesSpool.Spool.constructor | agent_mes_spool.py:174-217 | the opened object has that identity and has written it to the sidecar |
| MesSpool.Spool.StoreItems | agent_mes_spool.py:297-325 | the loop over the items computes that transaction and the row numbers given |
| MesSpool.Spool.AppendLocked | agent_mes_spool.py:289-344 | a full spool (unless forced), a rejected event or a duplicate stores nothing and moves no number; otherwise items, cursor and producer number are committed together and the sidecar follows if it can be written |
| MesSpool.Spool.MarkAckedRows | agent_mes_spool.py:375-386 | one UPDATE per row number acknowledges exactly the pending ones among them |
| MesSpool.Spool.DropWaitingForOtherSite | agent_mes_spool.py:407-458 | one update per row does that, row by row, and their number is returned |
| SpoolIdentity.NumbersUnique | agent_mes_spool.py:180-217 | for each policy of restoring, sidecar failures and unmatched copies: no run hands out two different agent events under one (producer, epoch, number), if and only if copies are never put back or sidecar writes succeed and copies match |
| SpoolIdentity.StepKeeps | agent_mes_spool.py:191-217 | every transaction, file replacement, crash, deletion, copy and restore keeps the sidecar at or ahead of every event that cannot be taken back |
| SpoolIdentity.CommitKeeps | agent_mes_spool.py:289-344 | a committed append gives no number that any handed out, stored or copied event of the epoch has |
| SpoolIdentity.OpenKeeps | agent_mes_spool.py:191-217 | opening continues an epoch only if nothing settled in it lies beyond the database's own count |
| SpoolIdentity.FailedSidecarBreaks | agent_mes_spool.py:338-342 | a run with one failed sidecar write and a restore that hands out two events under one number |
| SpoolIdentity.LooseCopyBreaks | agent_mes_spool.py:332-342 | a run with a copy taken between commit and sidecar write that does |
| OutboxCopy.CopiesExactlyOnce | agent_mes_link.py:244-288 | for every interleaving of MillWright's appends, prunes and fresh epochs with reader statements, other spool work, refused commits and crashes: what is stored of each epoch is a prefix of its outbox, the acknowledgement never passes it and nothing beyond it is pruned, if and only if fresh epochs are new files |
| OutboxCopy.BatchStored | agent_mes_link.py:277-287 | a commit appends exactly the batch to what is stored of the epoch and moves the cursor to its end |
| OutboxCopy.SelectKeeps | agent_mes_link.py:260-263 | the rows fetched are the ones right after what is stored, none missing |
| OutboxCopy.BatchIsFull | agent_mes_link.py:260-263 | and as many as there are, up to 200 |
| OutboxCopy.InPlaceBreaks | agent_mes_link.py:249-263 | if an open connection could see a fresh epoch's rows, they would be stored as the old epoch's |
| OutboxReader.OutboxReader.Step | agent_mes_link.py:244-288 | one pass of the reader object is those four statements in a row, on the spool object, and returns how many rows it stored |
| OutboxReader.OutboxReader.StoreBatch | agent_mes_link.py:273-288 | an empty batch rewrites the acknowledgement of its own epoch; a refused append acknowledges nothing |
| OutboxReader.OutboxReader.Start | agent_mes_link.py:254-259 | at a start or a fresh epoch the readout is the last login state among the rows still in the outbox; otherwise it stays |
| OutboxReader.LastLoginMeans | agent_mes_link.py:210-229 | somebody is shown exactly if a login of theirs is the last login or logout of all |
| OutboxReader.StartShows | agent_mes_link.py:254-259 | that is the true login state if and only if the row that says so has not been pruned |
| OutboxReader.PrunedLoginForgotten | agent_mes_link.py:244-288 | a run in which it has been: somebody is logged in and the readout shows nobody |
| OutboxReader.FollowsLogins | agent_mes_link.py:210-229 | seeing a batch that overlaps what was seen shows the login state after the later of the two, whatever has been pruned |
| OutboxReader.ReadoutFollows | agent_mes_link.py:195-288 | for every interleaving of appends, prunes, fresh epochs, reader statements, refused commits and crashes: a running reader shows the login state after all it has seen, at least everything it has copied, if what it showed at its start was true; otherwise that, until the next login or logout |
| MesWorker.MesWorker.StoreFacts | agent_mes_link.py:307-326 | every fact is, in order, stored as one pending row, refused by the contract, lost as the last one when over 256 wait, or still waiting; any wait only if the attempt that stopped found the spool full; more than 256 wait if and only if an attempt finds it full with more than 257 facts left |
| MesWorker.StoredMeans | agent_mes_link.py:307-326 | the facts said to be stored are those of the log, in its order, that it calls stored |
| MesForward.Forwarder.BatchRows | agent_mes_forward.py:737-754 | the loop sends the longest prefix of the allowed rows, and the size it tracks is the exact payload length, within the limit |
| MesForward.BatchMeans | agent_mes_forward.py:737-754 | a batch is sendable rows oldest first, at most the cap, and with any row it holds every sendable one before it |
| MesForward.LongestPrefix | agent_mes_forward.py:749-753 | the prefix fits and one row more would not |
| MesForward.NothingToSend | agent_mes_forward.py:739-748 | no request is made if and only if all rows within the cap are over the limits |
| MesForward.Forwarder.Call | agent_mes_forward.py:615-652 | one request of the object: the fields change as the outcome says |
| MesForward.CallsCounted | agent_mes_forward.py:615-652 | over any answers the failure count is the number of failures since the last answer, and the link is given up exactly when a request is refused |
| MesForward.BackoffDoubles | agent_mes_forward.py:644-648 | failures in a row wait 1, 2, 4, ... seconds, never more than 300 |
| MesForward.Forwarder.Capabilities | agent_mes_forward.py:707-734 | an answer that cannot be read takes the link offline; one that can is taken over |
| MesForward.CapabilitiesMean | agent_mes_forward.py:707-734 | taken over field by field: the types offered; each limit offered under its own name as a positive number, else the one before; the cap is the smaller of itself and the event limit, at least 1; any other answer leaves all three |
| MesForward.Forwarder.Receipts | agent_mes_forward.py:788-820 | exactly the rows whose receipt names their event and is final are acknowledged; the cap doubles up to the limit |
| MesForward.Forwarder.Send | agent_mes_forward.py:756-786 | one request: an empty batch sends nothing, 413 and 400 halve the batch, anything else goes offline |
| MesForward.AnswerDecides | agent_mes_forward.py:756-820 | receipts end the backoff and double the cap up to the limit; 413 and 400 leave half the batch, at least one event, and 400 the longest wait; anything else keeps the cap and goes offline |
| MesForward.NoAnswer | agent_mes_forward.py:615-652 | a refused certificate ends the link and its reason is kept, a broken connection takes it offline, and nothing is acknowledged |
| MesForward.CapRecovers | agent_mes_forward.py:818-819 | over batches taken the cap doubles back up to the event limit |
| MesForward.PayloadIs | agent_mes_forward.py:740-760 | the size tracked is that of the frame, the bodies and a comma between any two |
| MesForward.ReceiptedMeans | agent_mes_forward.py:798-815 | a row is receipted if and only if the receipt at its place is final and carries its own event id |
| MesForward.AckedByReceipt | agent_mes_forward.py:756-820 | a row changes only to acknowledged, and only after it was sent and a final receipt for its own event came back |
| MesForward.SaneKept | agent_mes_forward.py:644-820 | the cap stays in 1..max_batch_events and the backoff at 0 or in 1..300 s whatever is answered |
| MesForward.SaneWhenAsked | agent_mes_forward.py:724-727 | and whatever limits the service offers |
| Draining.RoundDecreases | agent_mes_forward.py:756-820 | against a service that finds more events than a number of its choice too large each round and otherwise gives each event any final receipt, a round that sends something acknowledges exactly its batch, or lowers the cap and changes nothing |
| Draining.DrainEnds | agent_mes_forward.py:756-820 | so draining ends, with nothing left to send: a row is as it was, or could be sent, had fewer rows over the limits before it than a batch may hold, and is acknowledged |
| Draining.FewAheadArrives | agent_mes_forward.py:737-820 | while 413 answers leave the cap at some number or more, every row that may be sent with fewer rows over the limits before it is acknowledged |
| Draining.AcknowledgedIff | agent_mes_forward.py:737-820 | from a full cap and without 413 answers: a row that may be sent is acknowledged if and only if fewer rows over the limits lie before it than a batch may hold |
| Draining.DrainsEverything | agent_mes_forward.py:756-820 | whatever batches are found too large: all waiting rows are acknowledged in the end if and only if none is over the limits, and no other row is touched |
| Draining.NeverSent | agent_mes_forward.py:737-754 | behind as many rows over the limits as a batch may hold a row is never sent, over any answers |
| Draining.OversizedRowStalls | agent_mes_forward.py:737-754 | a spool and service limits for which a row that fits is never sent |
| Delivery.DeliversInOrder | agent_mes_forward.py:756-820 | over every run with lost replies, late and repeated requests, crashes and drops: every acknowledged row is in the service's ledger, which holds each event once; arrivals leave no accepted row behind and come in spool order but for dropped rows; every row is pending, acknowledged, dropped, or pruned after exactly one of the two |
| DroppedRows.DroppedArrivesIff | agent_mes_spool.py:45-49 | a row dropped in a run can still arrive if and only if a request that has left, or is read and about to leave, carries it |
| DroppedRows.NeverSent | agent_mes_spool.py:45-49 | over every continuation, a dropped row that no such request carries is carried by none |
| DroppedRows.DroppedArrivesLate | agent_mes_spool.py:448-458 | a run in which a dropped row arrives, after a later one |
| DroppedRows.DroppedBetweenReadAndSend | agent_mes_forward.py:756-767 | a run in which a row is dropped before any request has left, and arrives |
| Delivery.BatchFlies | agent_mes_forward.py:737-760 | a request is read with every accepted row before its last one that has neither arrived nor been dropped |
| Delivery.PostKeeps | agent_mes_forward.py:756-767 | and may be sent at any later time: it still leaves none behind |
| Delivery.ReplyKeeps | agent_mes_forward.py:788-820 | an honest reply acknowledges only rows that have arrived |
| Delivery.TakeInKeeps | agent_mes_forward.py:756-772 | whichever request arrives and whenever, taking it in row by row keeps the ledger free of duplicates and gaps |
| EndToEnd.OutboxReachesLedger | agent_mes_link.py:244-288 | over every run of the reader and the forwarder on one spool: MillWright's events reach the ledger in outbox order and once each, none that the service takes is left behind one that has arrived, and every acknowledged one is there, but for what the operator drops |
| CycleTime.CalculatorKeepsTheBook | cycle_time_calculator.py:160-366 | over every call sequence with a monotonic clock, every field agrees with the book of physical parts and their segments |
| CycleTime.CountedDurations | cycle_time_calculator.py:270-332 | the durations kept are those of the newest counted parts, each the sum over the part's segments of whole milliseconds of active time, within one millisecond per segment of the true total |
| CycleTime.PartsConserved | cycle_time_calculator.py:270-490 | opened parts = finished later + partial + open; starts = parts + aborts + continued + discarded + dropped + running; partial equivalents sum the furthest progress; 500 durations are kept |
| CycleTime.FurthestMeans | cycle_time_calculator.py:463-473 | the progress a part is left with is the furthest any of its runs reached |
| CycleTime.FractionCounts | cycle_time_calculator.py:217-222 | a reported progress is limited to 0 to 1, raises the one noted to itself at most, and never lowers it |
| CycleTime.ElapsedSteady | cycle_time_calculator.py:492-506 | the displayed time is carry plus active time, never negative, never backwards, constant while paused and unchanged by a resume |
| CycleTime.CycleTimeCalculator.StartCycle | cycle_time_calculator.py:160-194 | a start is ignored while running, finalizes an open part of another program and classifies if told to |
| CycleTime.CycleTimeCalculator.SetProgramOf | cycle_time_calculator.py:196-209 | a program found later finalizes an open part of another program |
| CycleTime.CycleTimeCalculator.PauseCycle | cycle_time_calculator.py:224-236 | a pause is noted once |
| CycleTime.CycleTimeCalculator.ResumeCycle | cycle_time_calculator.py:238-250 | a resume adds the time since the pause |
| CycleTime.CycleTimeCalculator.StopCycle | cycle_time_calculator.py:270-332 | too short, counted, continued or aborted, in that order of precedence |
| CycleTime.CycleTimeCalculator.AbortCycle | cycle_time_calculator.py:348-366 | an explicit abort is always recorded and leaves the part open |
| CycleTime.CycleTimeCalculator.DropCycle | cycle_time_calculator.py:334-346 | a dropped cycle leaves only the counters it found |
| CycleTime.CycleTimeCalculator.SetStartPoint | cycle_time_calculator.py:440-454 | a start from the top finalizes an open part and clears the carry, a Run From Here keeps both |
| CycleTime.CycleTimeCalculator.FinalizeOpenPart | cycle_time_calculator.py:481-490 | an abandoned part adds its furthest progress |
| CycleTime.CycleTimeCalculator.Reset | cycle_time_calculator.py:415-438 | statistics are reset only between cycles |
| ProgramTracker.FromLines | program_tracker.py:97-129 | first executable line, first and last move that is run, end line and move mask are what the lines say |
| ProgramTracker.MovesBeforeEnd | program_tracker.py:97-129 | with an M2 / M30 the counted moves all come before it |
| ProgramTracker.MoveLineMeans | program_tracker.py:88-95 | a line number counts as a move exactly if that line of the program is one, or the program has not been scanned |
| ProgramTracker.TrackerReadsHistory | program_tracker.py:344-447 | after any number of samples, inside and outside subroutines (fewer than 5000 subroutine lines recorded), every field of the tracker is the declarative reading of the whole history |
| ProgramTracker.AfterHoldNothingMoves | program_tracker.py:370-425 | after a subroutine sample neither its lines nor its later moves nor non-moves change the program's lines or progress until a true program move |
| ProgramTracker.WithoutSubroutines | program_tracker.py:399-425 | without subroutine samples the moves that count are those from the first non-stale move line on |
| ProgramTracker.ReachedEndMeans | program_tracker.py:441-453 | a cycle has reached the end exactly if M2 / M30 was executed, or read while in a subroutine, or the last move is at or past the tail |
| ProgramTracker.CycleLineTracker.HoldSample | program_tracker.py:370-387 | the fields after a sample inside a subroutine file |
| ProgramTracker.CycleLineTracker.SampleLine | program_tracker.py:389-425 | the fields after a sample in the program |
| CycleMachine.UpdateCoupled | status.py:509-566 | one sample: machine and calculator stay coupled, no guard is taken, at most one part or abort is recorded, on the way to IDLE, and exactly when the end was reached with the machine on and no E-stop |
| CycleMachine.ModeMeans | status.py:412-430 | the mode after a sample: running with the machine on in AUTO, the interpreter at work and nothing paused; paused with it on in AUTO and paused, within a cycle only |
| CycleMachine.LoopCoupled | status.py:412-566 | and so over every sequence of samples, updates that raise while they read the status, found programs and lost connections |
| CycleMachine.OutcomeExact | status.py:1152-1163 | the outcome reported for a cycle is what the calculator did with that cycle |
| CycleMachine.OutcomeOtherwise | status.py:1152-1163 | losing LinuxCNC in a cycle ends it as unknown and records an abort; no other round ends one or counts anything |
| CycleMachine.IdleLinesKept | status.py:531-533 | the line numbers kept are those of the last sample that found or left the machine idle |
| CycleMachine.LoopMakesCalls | status.py:509-566 | the loop's calculator is the result of one clock-ordered call sequence, so what is proved of those holds for it |
| CycleMachine.DashboardConserved | status.py:1152-1185 | starts and unfinished parts on the dashboard balance |
| CycleMachine.CycleStateMachine.UpdateSample | status.py:509-566 | the machine object does exactly that update |
| CountedCycle.TracksCycle | status.py:495-530 | all through a cycle the loop's tracker is that of the cycle's own samples, from the line numbers last seen while idle |
| CountedCycle.CountedMeans | status.py:535-552 | the sample that ends a running cycle counts a finished part exactly if the machine is on without E-stop, the samples of the whole cycle show the program's end, and the cycle was not too short |
| CountedCycle.StartClassified | status.py:495-507 | all through a cycle: it is classified exactly if some sample has shown the program moving; as a Run From Here exactly if the first of those lines is more than 5 lines and more than a fiftieth of the way beyond the first move; and the progress noted is the place of the furthest of them between first and last move |
| CountedCycle.ProgramKnown | status.py:524-530 | all through a cycle the calculator has its program: the one scanned when it started, or the one found last since |
| JsonText.DumpsSize | agent_gcode.py:60-61 | the JSON form of a text has as many UTF-8 bytes as the sum of its characters' costs plus the quotes |
| GcodeSplit.LargestFitting | agent_gcode.py:64-76 | the bisection finds the longest allowed piece |
| GcodeSplit.SplitContent | agent_gcode.py:58-78 | the content is cut greedily |
| GcodeSplit.GreedyCuts | agent_gcode.py:58-78 | the pieces join to the content, none is longer than allowed, and all are within the budget if and only if every character is |
| GcodeSplit.GreedyOptimal | agent_gcode.py:58-78 | no other acceptable cutting uses fewer pieces |
| GcodeSplit.FitsMeans | agent_gcode.py:60-61 | a piece is within the budget if and only if its JSON form, quotes included, has at most that many bytes |
| GcodeSplit.Stream | agent_gcode.py:177-184 | a program is refused for its packets only if no cutting within the byte budget needs at most 80,000 |
| GcodePacket.WireSize | agent_gcode.py:158-175 | the exact length of a packet on the wire |
| GcodePacket.BudgetTight | agent_gcode.py:158-169 | a piece that uses the whole budget leaves exactly the room kept for a longer time stamp and a signature |
| JsonObject.LoadsDumps | agent_gcode.py:171-175 | an object of texts and numbers, written and encoded, is read again as it was |
| GcodeWire.PacketRead | agent_gcode.py:171-175 | a packet read from its datagram, signed or not, has every field as sent under its own name: file_name, chunk_index, total_chunks, content and all others |
| GcodePacket.SignedPacketFits | agent_gcode.py:158-175 | every signed packet is at most 1400 bytes when the names leave at least 64 bytes of budget (and the time stamp has at most 26 digits) |
| GcodePacket.SignedProgram | agent_gcode.py:158-184 | splitting, encoding and signing together: in order, complete, within the size |
| PacketAuth.VerifyUndoesSign | agent_auth.py:53-71 | what is checked is exactly what was signed, whatever the payload holds, and a signature adds at most 73 bytes |
| PacketAuth.SignInjective | agent_auth.py:53-62 | payloads with the same signed bytes differ in trailing white space only |
| PacketAuth.CommaPlaced | agent_auth.py:53-62 | the signature member comes after a comma, except in an object without members |
| PacketAuth.AcceptedMeans | agent_auth.py:65-71 | a packet is accepted if and only if, trimmed, it is some bytes, an optional comma and the digest of those bytes closed with a brace |
| PacketAuth.UnsignedMeans | agent_auth.py:65-71 | a packet counts as unsigned exactly if it does not end with a signature member of 64 lower-case hex digits, the closing brace and white space |
| GcodeReceive.RebuildsContent | examples/udp_receiver.py:124-148 | whatever pieces of this version are held already: once every piece has arrived, in any order, with duplicates and other files in between, a packet has completed the file, and the first to do so yields the content |
| GcodeReceive.NeverWrong | examples/udp_receiver.py:124-148 | and for ever after no packet of the version yields anything else, nor finds a chunk number missing |
| GcodeReceive.CollectsArrived | examples/udp_receiver.py:132-139 | until a packet completes the file the buffer holds exactly what it held and the pieces that arrived |
| GcodeReceive.ProgramDelivered | examples/udp_receiver.py:124-148 | a program sent again and again, its packets arriving from any sending, in any order, with duplicates and among other files' packets: once every piece is in, exactly the content that was cut has come out, and nothing else ever does |
| GcodeWire.DatagramsDelivered | examples/udp_receiver.py:124-148 | the same of datagrams: signed or not, from any sending, in any order, repeated and among others, once every piece is in exactly the content has come out, and nothing else ever does |
| GcodeLeftovers.DeliversIff | examples/udp_receiver.py:124-148 | for every buffer held before: the program is received as sent whatever arrives in whatever order, if and only if the buffer holds no piece number beyond it and, when it has more than one piece, none of another version |
| GcodeLeftovers.MixedVersions | examples/udp_receiver.py:124-148 | a program changed after one of two pieces arrived: the file that comes out is neither |
| GcodeReceive.Receiver.PrintGcodeSummary | examples/udp_receiver.py:124-148 | one packet on the shared buffers, a missing chunk number included |
| GcodeSender.LateWorkersNeverWin | agent_gcode.py:104-261 | for every interleaving at most one worker is alive, and a program counts as sent only if a worker started since the last reset had every packet of it accepted |
| GcodeSender.LateWorkerOnlyDelays | agent_gcode.py:211-261 | a worker from before a reset changes nothing of the sender but, if it cannot read its file, the time of the next try |
| GcodeSender.LateWorkerMayDelay | agent_gcode.py:228-231 | a run in which it does |
| GcodeSender.StartsExactly | agent_gcode.py:112-146 | over every run: a check starts a worker exactly if none is alive, ten seconds have passed since a send that failed or a file that could not be read, and the program is not the one sent last or a resend is due |
| GcodeSender.WorkerMoves | agent_gcode.py:189-261 | what each step of a worker makes of it: refused programs send one packet, others all of theirs; the first reason is kept |
| GcodeSender.GcodeFileSender.CheckAndSend | agent_gcode.py:112-146 | a worker is started exactly when none is alive, the retry time has come and the program is new or due again |
| GcodeSender.GcodeFileSender.Finish | agent_gcode.py:250-261 | the outcome of a send is noted only in its own generation |
| GcodeSender.GcodeFileSender.SendPackets | agent_gcode.py:235-246 | a send succeeds if and only if every packet is accepted within three tries |
| ProgramScanner.InfoBelongs | program_tracker.py:163-215 | outside load, whatever threads end late: landmarks that look finished belong to the program loaded last, and otherwise they are blank and a thread that will publish them is in flight |
| ProgramScanner.SignatureIsLast | program_tracker.py:163-201 | the signature held is always that of the program loaded last |
| ProgramScanner.LoadsProgram | program_tracker.py:163-201 | a small file is scanned before load returns; of a large one there are no landmarks until its thread ends |
| ProgramScanner.ScanEnds | program_tracker.py:203-215 | a scan ends once, and is published exactly if its program is still the one loaded |
| ProgramScanner.NotInsideLoad | program_tracker.py:186-201 | inside load that can fail |
| ProgramScanner.ProgramScanner.EndScan | program_tracker.py:203-215 | a scan overtaken by a newer load changes nothing |
| JournalPages.BuildReply | agent_journal.py:313-353 | a reply holds consecutive rows, as many as 500 and the size estimate allow and at least one if there is any, and says whether rows of the range may be left; the highest number and the rows are read one after the other and may differ |
| JournalPages.PageMeans | agent_journal.py:324-353 | in the request's terms: rows above from_seq, up to to_seq and the newest number counted, in order, none before another left out, at most 500; more exactly if numbers beyond the last are asked for |
| JournalPages.PageEnds | agent_journal.py:331-341 | a page ends before a row asked for only with 500 rows or when 400 bytes, 40 a row and the rows would exceed the limit with one more |
| JournalPages.FetchesInOrder | agent_journal.py:327-353 | with records and prunes between the pages, and within one, nothing repeats or comes out of order and every row there throughout is fetched |
| JournalPages.FetchesExactly | agent_journal.py:327-353 | from an untouched journal exactly the range, once and in order |
| JournalPages.FetchEnds | agent_journal.py:341-353 | following `more` ends after at most as many pages as the range is long |
| JournalPages.FetchedWereThere | agent_journal.py:331-345 | every fetched row was in the journal of its page |
| JournalWriter.NumbersStep | agent_journal.py:179-271 | between consecutive packets that carry a number it grows by the rows whose packets never left, and by 1 if the packet was recorded, over failed writes and opens, a full disk, prunes, crashes and restarts |
| JournalWriter.NumbersStepByOne | agent_journal.py:179-271 | so by 0 or 1 as long as every recorded packet leaves |
| JournalWriter.NumberSkipped | status.py:1321-1343 | a crash between recording and sending after which the number grows by 2 |
| JournalRows.RowsWritten | agent_journal.py:226-259 | over every run: a packet becomes a row exactly if it can be written and is the first, a change, carries a message, or comes an interval after the last row |
| JournalRows.RowsKept | agent_journal.py:253-271 | with a new row all old ones stay, but, once an hour, not those past the retention |
| JournalWriter.WrittenKeeps | agent_journal.py:241-271 | a prune never takes the newest row, so the highest row is the last number given |
| JournalWriter.Journal.RecordPacket | agent_journal.py:226-259 | one packet: when it is written, when the file is reopened, and what is returned |
| JournalWriter.CheckDecides | agent_journal.py:205-224 | a check below the limit pauses writing, a tenth above it resumes, and in between nothing changes |
| JournalWriter.VerdictStands | agent_journal.py:205-212 | a verdict on the disk stands for a minute, and where space is not limited or not known nothing changes |
| JournalWriter.PausedUntilSpare | agent_journal.py:205-224 | over any calls, once paused nothing is written until a check shows a tenth more than the limit |
| JournalWriter.Journal.CheckDisk | agent_journal.py:205-224 | the object's check is that one |
| JournalWriter.RetriesDouble | agent_journal.py:197-203 | after failures in a row the file is closed and tried again 5, 10, 20, ... seconds later, never more than 300 |
| JournalWriter.Journal.FailNow | agent_journal.py:197-203 | the object's failure is that one |
| PacketGate.EdgesGoOut | agent_packets.py:96-129 | from a change of the fault picture on, a packet is wanted at every sample until one can be built |
| PacketGate.WantedExactly | agent_packets.py:96-131 | a packet is wanted exactly at a change of state, an uncarried change of the fault picture or a poll after the last one, unless idle with a packet already sent, no caught message and no heartbeat due |
| PacketGate.IdlePackets | agent_packets.py:96-131 | consecutive idle packets are at least a heartbeat and less than a heartbeat, a poll and a sample gap apart |
| PacketGate.IdleNeverSilent | agent_packets.py:96-131 | and there always is a next one |
| PacketGate.ActivePackets | agent_packets.py:96-116 | while not idle (running, paused, or a status that cannot be read) packets are less than a poll and a sample gap apart |
| PacketGate.PacketGate.OnSample | agent_packets.py:96-108 | one sample of the gate |
| PacketGate.PacketGate.Decide | agent_packets.py:110-124 | idle suppression, never for an edge or a caught message |
| JsonValue.EqualIsSameMeaning | contracts/mes/v1/validate.py:153-163 | two values are equal if and only if they denote the same instance: numbers by value, objects unordered, booleans apart |
| JsonValue.EqualIsEquivalence | contracts/mes/v1/validate.py:153-163 | so equality is reflexive, symmetric and transitive |
| SchemaCheck.SchemaErrors | contracts/mes/v1/validate.py:179-249 | no error if and only if the value is valid under the keywords' meaning, for acyclic definitions; every error lies at the place checked or inside it; the check terminates, and never faults on a sound contract |
| SchemaCheck.HasType | contracts/mes/v1/validate.py:133-150 | a value fits a list of type names exactly if it is an instance of one, a whole float being an integer |
| SchemaCheck.FirstRepeat | contracts/mes/v1/validate.py:229-233 | a repeated element is found if and only if the elements are not distinct |
| SchemaCheck.BranchErrors | contracts/mes/v1/validate.py:190-198 | anyOf yields no error if and only if some branch takes the value |
| SchemaCheck.ObjectErrors | contracts/mes/v1/validate.py:237-249 | no error if and only if every required key is there, every key is a valid name, the value under a property's name is valid under its schema, and every other value under that for all others |
| SchemaCheck.ReferenceMeans | contracts/mes/v1/validate.py:166-172 | a reference leads to the definition of its name in the root schema, and to nothing else |
| SchemaCheck.ChecksTheStandard | contracts/mes/v1/validate.py:188-189 | the checker refuses nothing the standard allows, and allows nothing more if references stand alone |
| SchemaCheck.KeywordBesideRefIgnored | contracts/mes/v1/validate.py:188-189 | a schema and a value for which it allows more |
| SchemaCheck.LoadingCovers | contracts/mes/v1/validate.py:83-97 | a contract that loads has no unknown keyword in any schema the evaluator can reach, references included |

## Left out

- SchemaErrors: says when there are errors and that each lies at or inside the place checked, not their wording, number or order.
- PrintGcodeSummary: does not model the printed lines, nor defaults for packets without a file name or counters.
- AppendLocked: does not model the statistics the spool refreshes for the status packet (pending count, bytes, 90 % warning).
- Receipts: does not model the per-status counters or the log lines.
- FromLines: takes what the G-code patterns find in a line as given, so comments, skipped blocks and the words themselves are not modelled.
- CopiesExactlyOnce: assumes the spool database is not replaced by an older copy, which would bring back an older cursor after MillWright has pruned.
- LoopCoupled: an update that raises after it has begun to change the machine is not an event (status.py:524-564); one that raises while it reads the status is.
- OutcomeExact: says nothing of such an update either, after which the loop reports no outcome (status.py:1149-1151).
- AcknowledgedIff: assumes a full cap and no 413; below that `FewAheadArrives` and `Draining.NeverSent` bound from both sides what depends on the sizes of the batches in between.
- DeliversInOrder: assumes fixed accepted types and limits, a spool database that is not replaced, and receipts given only for events the service has committed.
- NumbersUnique: assumes the sidecar file itself is neither lost nor put back, which the code cannot notice.
- NumbersStepByOne: assumes a write that reports failure has left nothing in the file, and that committed rows survive.
- FetchesInOrder: assumes rows parse as JSON, as the writer writes them; a page made only of rows that do not would report no more.
- SQLite itself: transactions are atomic and durable, AUTOINCREMENT never reuses a committed number, closing rolls back.
- TLS, HTTP, enrolment, certificates, sockets, service discovery and switching addresses: only the outcomes of requests appear, as inputs.
- The waiting times between forwarder rounds, the jitter, and the threads' outer loops (agent_mes_forward.py:823-855, agent_mes_link.py:328-345).
- Matching a cycle with MillWright's run (agent_mes_link.py:99-188).
- Telling the program from a subroutine file and the moves of macro files (program_tracker.py:232-341): a sample says which file it is in and what that file's moves are.
- The LinuxCNC binding and the collection of packet fields, configuration, logging, rate limits, `--check`, packaging.
- Rounding in snapshots, formatting and parsing of time stamps, loop lag percentiles, the status files.
- The event rules beyond the schemas (contracts/mes/v1/validate.py:275-345) and the decoding of event bytes.
- Regular expressions: the search is a parameter of the schema checker; only the rule on a final newline is modelled.
- What signatures keep secret or prevent: HMAC is an uninterpreted function with a 64-digit result.
