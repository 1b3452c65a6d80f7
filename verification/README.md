# Verified models of the Marvell wireless drivers

A Dafny project beside the driver sources. It models the parts of the repository whose correctness
depends on arithmetic, on state kept over long runs or on an arbitrary device, and proves what those
parts promise. Nothing here is compiled into a driver; the verifier is the only consumer.

    dafny verify dfyconfig.toml

Every core file updates state step by step, so each machine has an imperative model, methods with
loops, arrays and classes in the order of the C statements. Each method is proved against a
specification on values, and the promises are lemmas about that specification.

| machine | files |
|---|---|
| 802.11n receive reorder table (mwifiex) | `RxReorder` (specification and invariant), `RxReorderLaws` (window arithmetic, conservation), `RxReorderFlags` (one-shot flags, A-MSDU, timer), `RxReorderTable` (the driver's loops), `RxReorderReference` (the buffer of section 9.21.7.6 of IEEE Std 802.11-2012), `RxReorderRefinement`, `RxReorderOrder` |
| command queue and power save (libertas) | `LbsCommand` (state machine at lock granularity), `LbsCommandLaws` (its invariant), `LbsCommandRuns` (what that means for runs), `LbsHistory` and `LbsFates` (order and fate of every command), `LbsPower` (power state, interface, events and responses), `LbsReach` (a run that submits a command), `LbsDeepSleep` (where conservation ends), `LbsTimeout` (which timeouts are noticed), `LbsPrivate` (the driver's regions, and whole functions and rounds as runs) |
| retrying command queue (libertas_tf) | `LbtfCommand`, `LbtfPrivate` |
| firmware download, USB | `UsbChecker` (the image and its checker), `UsbFirmware` (the transfer) |
| firmware download and packet list, SDIO | `SdioFirmware`, `SdioPackets` |
| table-driven CRC-32 (bin2elf) | `Crc32` |
| A-MSDU building, with a de-aggregator from section 8.3.2.2 of IEEE Std 802.11-2012 | `Amsdu` |
| 802.11d triplets | `Triplets` |

## How to read the models

**Reorder table.** A packet carries the sender's own unbounded frame number; the air carries its low
12 bits. The table is a sequence of slots and a start; `0 <= start <= 4096`, because creation does not
mask `last_seq + 1`. `Step` is one arrival, BAR, timer, re-ADDBA, ADDBA response or host-sleep request.
The reference buffer is a map from unbounded numbers to frames. The two do not always agree: when a
shift crosses 4095 to 0 by fewer than `win_size` slots, the driver releases all slots instead of the
ones left behind (lines 116-118). `ReleasesEarly` is that case as a test on the state before the call;
`StepRefinesIff` and `RunRefinesIff` say that the driver follows the standard if and only if it does not
occur. `DeliversInOrderIff` says the same of the order of delivery: it is right, now and in every
continuation, if and only if no step of the run releases early; `EarlyReleaseReorders` is one concrete run.

The two one-shot flags have their rules in `RxReorderFlags`, in distances and slots: with force-no-drop set
nothing is too old, not even a BAR; but a BAR fewer than `win_size` numbers behind the start finds the
start still in the window that ends at the new number, and leaves it where it is (`RescuedBarRule`).

**libertas commands.** A step is one region under `driver_lock` or one access outside it, of the main
thread (with a program counter over the body of `lbs_thread`), a caller, an interrupt or a timer; some steps
of the main thread merge several accesses outside the lock, which `OthersOnlyWake` and `GateReadsOnce` justify.
`Possible` runs interleave the steps in any way. The state also keeps history: every hand-over to the card
with the power state it happened in; every command that joined the queue, in order, and by their places in
that order (tickets) which left it, were submitted and were completed; and for every response taken as an
answer the submission the card meant and what it said. `Line` is the commands that left the queue followed
by those that wait, so `LeaveInOrder` speaks of past and future departures. Runs leave out
one action, the failure of a DEEP_SLEEP transfer, after which the code completes the command twice:
`ConservedIff` says that this is exactly the action that ends the conservation of command nodes.
`LbsPrivate` has the regions as methods; `MainThread` says that they are the machine's steps, and
`ThreadRound` and the methods under it that whole functions, left alone, are runs of it.

**libertas_tf commands.** The same granularity for `lbtf_cmd_work`, the timer, responses and callers. A
completed command is kept with its outcome, and that with the response that answered it.

**Firmware.** Memory is a function from addresses to bytes, so that the checker's and the sender's reads
need no bounds. 32-bit sums are written with `Add32`; the checker's pointer wraps with the address space of
the kernel (`Space`). The checker does not end on every image. `EndsIff` says on which it does, without
conditions: where its variables never return to what they were; `EndsInFileIff` and `EndsOn32BitIff` say what
that comes to, and two images on which it hangs are given. `NoWrap` says that no data block the checker steps
over reaches past 32 bits, `ImageFits` says it of all blocks of an image.
The SDIO card is a reader that keeps what it asked for; padding is whatever the reused buffer held. In
`ProgReal`, `register` is what the size register will be found to hold, None being a failed access, `works(k)`
the outcome of the k-th event, and `read` how many readings were taken.

**CRC.** Words are bit strings, most significant bit first; the generator is the one of section 3.2.9 of
IEEE Std 802.3 and the reference is division bit by bit.

## Model

| member | source | states |
|---|---|---|
| RxReorder.CreateEstablishesInv | doc/mwifiex/11n_rxreorder.c:363-424 | a new table satisfies the invariant, also with the start at 4096 and the init-window shift pending |
| RxReorder.StepKeepsInv | doc/mwifiex/11n_rxreorder.c:565-670 | every operation keeps it: a packet in slot i has number start + i modulo 4096, and a pending init-window shift means an empty table |
| RxReorder.RunKeepsInv | doc/mwifiex/11n_rxreorder.c:344-670 | so do whole runs of arrivals, BARs, timers, re-ADDBA and flags |
| RxReorderLaws.OldTestExact | doc/mwifiex/11n_rxreorder.c:612-623 | the two-branch comparison is: at distance 2048 or more, modulo 4096, from the start |
| RxReorderLaws.OutsideTestExactIff | doc/mwifiex/11n_rxreorder.c:633-636 | the window test is exact for all starts and numbers if and only if the window has at least 2 slots |
| RxReorderLaws.StartEndingAtExact | doc/mwifiex/11n_rxreorder.c:637-641 | the new start is the number minus win_size - 1, modulo 4096 |
| RxReorderLaws.StoresInArrayIff | doc/mwifiex/11n_rxreorder.c:633-649 | the index at which an accepted frame is stored lies in the array, for all starts and numbers, if and only if the window has at least 2 slots |
| RxReorderLaws.DataWindowRule | doc/mwifiex/11n_rxreorder.c:607-663 | without flags: exactly when a data frame is refused, exactly when and where the window moves, and slot 0 empty after every accepted frame |
| RxReorderLaws.BarWindowRule | doc/mwifiex/11n_rxreorder.c:626-663 | without flags: exactly when a BAR is refused; an accepted one makes its own number the start before the scan |
| RxReorderFlags.ForcedRefusedIff | doc/mwifiex/11n_rxreorder.c:596-599 | with force-no-drop set, an arrival is refused if and only if it is a frame inside the window whose slot is taken; a BAR never is |
| RxReorderFlags.NotDroppedAfterSleep | doc/mwifiex/11n_rxreorder.c:825-843 | the same of the first arrival after the host has gone to sleep, whatever the flags were |
| RxReorderFlags.RescuedDataRule | doc/mwifiex/11n_rxreorder.c:596-649 | a frame of the older half of the circle then releases all that is buffered and is the last of the new window |
| RxReorderFlags.RescuedBarRule | doc/mwifiex/11n_rxreorder.c:626-663 | such a BAR releases all and makes its number the start, unless fewer than win_size numbers behind: then window and slots stay as they are for the scan |
| RxReorderFlags.RestartRule | doc/mwifiex/11n_rxreorder.c:600-606 | a sender that counts again from between the agreed number and the moved start: its frame is accepted and delivered at once and the start is behind it; a BAR makes its number the start |
| RxReorderFlags.FlagsMatterOnlyThere | doc/mwifiex/11n_rxreorder.c:591-624 | in no other case does a flag make a difference |
| RxReorderFlags.FlagsAreOneShot | doc/mwifiex/11n_rxreorder.c:591-599 | whatever the arrival, both flags are used up by it |
| RxReorderFlags.AmsduRule | doc/mwifiex/11n_rxreorder.c:582-585 | an A-MSDU goes the way of a data frame if that was agreed, and otherwise is delivered at once and changes nothing |
| RxReorderFlags.NothingStranded | doc/mwifiex/11n_rxreorder.c:315-332 | over the life of a table, whenever a packet is buffered the timer is set, and when it expires it delivers all of them |
| RxReorderFlags.CreatedBehindLast | doc/mwifiex/11n_rxreorder.c:370-400 | a new window starts at the agreed number or behind everything received before, and waits for a restart exactly in the second case |
| RxReorderLaws.StepConserves | doc/mwifiex/11n_rxreorder.c:565-670 | delivered plus buffered after = buffered before plus the payload taken over; a refusal changes neither window nor slots |
| RxReorderLaws.RunConserves | doc/mwifiex/11n_rxreorder.c:107-189 | the same over any run |
| RxReorderLaws.LifetimeDeliversAll | doc/mwifiex/11n_rxreorder.c:197-233 | from creation to deletion every payload taken over is delivered exactly once |
| RxReorderLaws.FlushReleasesAll | doc/mwifiex/11n_rxreorder.c:315-332 | the timer delivers every buffered packet, in slot order, and leaves the table empty |
| RxReorderLaws.DeleteReleasesAll | doc/mwifiex/11n_rxreorder.c:216-217 | deletion delivers every buffered packet |
| RxReorderLaws.DispatchUntilInOrder | doc/mwifiex/11n_rxreorder.c:107-144 | every release, wrapping or not, goes out in increasing distance from the old start |
| RxReorderReference.StepSim | doc/mwifiex/11n_rxreorder.c:565-670 | a step that does not release early is the step of the standard's buffer: same frames, same order, same contents |
| RxReorderRefinement.StepRefinesIff | doc/mwifiex/11n_rxreorder.c:107-144 | a step agrees with the standard's buffer if and only if it does not release early |
| RxReorderRefinement.RunRefinesIff | doc/mwifiex/11n_rxreorder.c:107-189 | a run in reach keeps step with the standard's buffer if and only if no step releases early |
| RxReorderRefinement.RunRefines | doc/mwifiex/11n_rxreorder.c:565-670 | such a run delivers what the standard's buffer delivers, in its order |
| RxReorderOrder.RunBufferOrdered | doc/mwifiex/11n_rxreorder.c:546-564 | the standard's buffer delivers strictly increasing numbers, whatever arrives |
| RxReorderOrder.EarlyReleaseDeliversTwice | doc/mwifiex/11n_rxreorder.c:116-118 | after every step that releases early, some stored frame, if it arrives once more, is accepted and delivered once more |
| RxReorderOrder.DeliversInOrderIff | doc/mwifiex/11n_rxreorder.c:107-189 | delivered numbers strictly increase, however a run in reach goes on after any part of it without further early releases, if and only if no step of it releases early |
| RxReorderOrder.NewTableDeliversInOrderIff | doc/mwifiex/11n_rxreorder.c:344-424 | the same from the creation of a table on, for every window size and first number; then it delivers what the standard's buffer does |
| RxReorderOrder.EarlyReleaseReorders | doc/mwifiex/11n_rxreorder.c:116-118 | a window of four at 4095 delivers frame 4097 before frame 4096 |
| RxReorderTable.ReorderTable.constructor | doc/mwifiex/11n_rxreorder.c:363-424 | for every window size of ten bits the array and fields of a new table are those of the specification; with at least 2 slots the invariant holds |
| RxReorderTable.ReorderTable.DispatchPktUntilStartWin | doc/mwifiex/11n_rxreorder.c:107-144 | the release and rotation loops give the specified slots, start and delivered packets |
| RxReorderTable.ReorderTable.ScanAndDispatch | doc/mwifiex/11n_rxreorder.c:155-189 | so do the scan and its rotation |
| RxReorderTable.ReorderTable.FindLastSeqNum | doc/mwifiex/11n_rxreorder.c:287-306 | the index of the last filled slot, or -1 |
| RxReorderTable.ReorderTable.FlushData | doc/mwifiex/11n_rxreorder.c:315-332 | the timer's release against the specification |
| RxReorderTable.ReorderTable.ReAddBa | doc/mwifiex/11n_rxreorder.c:358-362 | a second ADDBA moves the window and keeps the invariant |
| RxReorderTable.ReorderTable.DelRxReorderEntry | doc/mwifiex/11n_rxreorder.c:197-233 | delivers everything that was in the array and empties it |
| RxReorderTable.ReorderTable.CheckOld | doc/mwifiex/11n_rxreorder.c:587-624 | the flags are consumed and the frame is accepted exactly when the specification does not drop it, whose rules are those of `RxReorderLaws` and `RxReorderFlags` |
| RxReorderTable.ReorderTable.NewStart | doc/mwifiex/11n_rxreorder.c:633-641 | the comparisons of the code decide distance >= win_size, and the new start leaves the number in the window |
| RxReorderTable.ReorderTable.Place | doc/mwifiex/11n_rxreorder.c:645-663 | the index is inside the array; the frame is stored or refused, then scanned |
| RxReorderTable.RxReorderPkt | doc/mwifiex/11n_rxreorder.c:565-670 | the whole function, with and without a table of any size, against the specification; exactly when it would store outside the array, which never happens under the invariant, and that is kept |
| LbsCommandLaws.StepKeepsInv | doc/libertas/cmd.c:889-1039 | every step of every actor keeps the invariant |
| LbsCommandRuns.EveryNodeInOnePlace | doc/libertas/cmd.c:931-1039 | in every reachable state each of the 10 nodes is in exactly one of the free list, the pending list, cur_cmd, a caller's hands or the main thread's |
| LbsCommandRuns.SleepIsSafe | doc/libertas/cmd.c:1361-1431 | in SLEEP the event fifo is empty, no response waits at resp_idx and cur_cmd is NULL |
| LbsCommandRuns.SleepEndsWith | doc/libertas/main.c:1101-1128 | a step from SLEEP hands nothing to the card, and ends SLEEP if and only if it is an event or a response |
| LbsCommandRuns.SleepLasts | doc/libertas/main.c:453-458 | from a reached SLEEP state, any run without an event or a response stays in SLEEP and adds no transfer |
| LbsCommandRuns.NothingPassesTheGate | doc/libertas/cmd.c:1255-1334 | whatever was handed to the card was handed over with dnld_sent zero and not in SLEEP; data only to an awake card; a command only in FULL_POWER, or in AWAKE if RSSI, HOST_SLEEP_CFG or EXIT_PS |
| LbsCommandRuns.StaleResponsesRefused | doc/libertas/cmdresp.c:76-122 | a response is accepted only for the current submission or one at least 65536 submissions older |
| LbsCommandRuns.OnlyAnswersTaken | doc/libertas/cmdresp.c:93-100 | and every response ever accepted in a run was of that kind |
| LbsCommandRuns.OthersOnlyWake | doc/libertas/main.c:1101-1128 | whatever others do while the main thread stands still, the power state at most goes from SLEEP to AWAKE, dnld_sent at most to zero, and deep sleep and cur_cmd stay |
| LbsCommandRuns.GateReadsOnce | doc/libertas/main.c:590-598 | the four separate reads find what one look at one of their moments would have found |
| LbsTimeout.MarkSurvivesIff | doc/libertas/main.c:547-560 | a timeout mark is found at the next check if and only if it was not set between the check and the clearing, and no answer is taken on the way |
| LbsTimeout.MarkCompletes | doc/libertas/main.c:547-560 | a mark found at the check completes the current command |
| LbsTimeout.LosingTimeoutIsReached | doc/libertas/main.c:547-560 | states are reached in which a timeout of the current command is forgotten |
| LbsTimeout.TimeoutLost | doc/libertas/main.c:725-750 | there, after the timer and the clearing, the command is still current and unmarked |
| LbsCommandLaws.CompleteConserved | doc/libertas/cmd.c:1011-1030 | completion, of the current or of an ignored queued command, keeps every node in one place |
| LbsFates.LeaveInOrder | doc/libertas/cmd.c:905-923 | of any two commands that joined the queue and are neither EXIT_PS nor WAKEUP_CONFIRM, the one that joined it first leaves it first |
| LbsFates.LineHoldsAll | doc/libertas/cmd.c:889-928 | among those that left the queue and those that wait in it, every command that joined it stands once, and no other |
| LbsFates.WaitsAsItJoined | doc/libertas/cmd.c:889-947 | a pending, current or departing node carries the command that joined the queue with its ticket |
| LbsFates.OnlyJumpersInFront | doc/libertas/cmd.c:905-916 | only EXIT_PS and WAKEUP_CONFIRM are ever put at the head |
| LbsFates.JoinsAtItsEnd | doc/libertas/cmd.c:905-923 | whatever happens between the choice of a place and the insertion: WAKEUP_CONFIRM, and EXIT_PS unless the choice was made in FULL_POWER, go before everything pending, all else behind it |
| LbsFates.EachCommandOnce | doc/libertas/cmd.c:931-1039 | every command that joined the queue waits in it, is on its way to the card, is current or was completed, once; it was submitted at most once |
| LbsFates.NoneCompletedUnsent | doc/libertas/cmd.c:1255-1334 | no command but a PS_MODE command is completed that was not submitted before |
| LbsFates.LeavesToBeSubmitted | doc/libertas/cmd.c:1255-1339 | a command that is not PS_MODE leaves the queue only into the main thread's hands, and in a power state that lets it through |
| LbsFates.InHandIsSubmitted | doc/libertas/cmd.c:943-947 | and there the next thing that happens to it is its submission, with the next 16-bit number |
| LbsFates.CardGetsWhatWasQueued | doc/libertas/cmd.c:943-960 | the commands handed to the card are the submitted ones, in order, each once, as they were queued |
| LbsFates.NodesAreReturned | doc/libertas/cmd.c:984-1030 | a free node is clean, and a completed one is kept only for a caller that sleeps on it |
| LbsPower.AnswerDecides | doc/libertas/cmdresp.c:76-216 | a response is taken if and only if it has the current command's number, fits it and is not DEFER; a refused one changes nothing; a taken one completes the command or leads to its callback or, for ENTER_PS without a connection, to EXIT_PS first; which power state each answer ends in |
| LbsPower.FullPowerAsAcknowledged | doc/libertas/cmdresp.c:147-170 | in every reached state, FULL_POWER if and only if the last ENTER_PS or EXIT_PS that the card acknowledged was EXIT_PS, or there was none |
| LbsPower.PowerMoves | doc/libertas/cmdresp.c:223-311 | for any step of any actor: exactly what leads into and out of FULL_POWER, SLEEP and PRE_SLEEP |
| LbsPower.NeverNeedsWakeup | doc/libertas/cmd.c:1255-1334 | needtowakeup is never set: the gate keeps a sleeping device from the places that would set it |
| LbsPower.TransferMarksBusy | doc/libertas/main.c:601-624 | every transfer begins with the interface free, and one that the bus driver accepts makes it busy with a command or with data |
| LbsPower.BusyStep | doc/libertas/main.c:725-750 | a busy interface is freed by exactly these: the acknowledgement, the lockup timer, the command timer for a command, a failed transfer, the sleep confirmation, and DEEP_SLEEP under auto deep sleep |
| LbsPower.BusyLasts | doc/libertas/main.c:590-624 | over any run without one of those the interface stays busy and nothing is handed to the card |
| LbsPower.TimeoutUnsticks | doc/libertas/main.c:547-560 | a timer that goes off before the main thread checks completes the command that was stuck and leaves the interface free |
| LbsPower.EventsInOrder | doc/libertas/main.c:524-537 | over any run, events are handled in the order they came, each once, and none is lost |
| LbsPower.ResponsesReadOnce | doc/libertas/main.c:511-521 | over any run, every response is looked at once or still waits; none is overwritten |
| LbsDeepSleep.FailedDeepSleepListsTwice | doc/libertas/cmd.c:960-976 | from every state that satisfies the invariant and is about to send DEEP_SLEEP, after a failed transfer permitted actions lead to a node in two places |
| LbsDeepSleep.ConservedIff | doc/libertas/cmd.c:931-1039 | in a reached state, an action leaves every node in one place for good if and only if it is not the failure of a DEEP_SLEEP transfer |
| LbsDeepSleep.DeepSleepIsReached | doc/libertas/cmd.c:960-976 | states about to send DEEP_SLEEP are reached |
| LbsPrivate.Private.MainThread | doc/libertas/main.c:511-624 | the driver's region for each point of the main thread is the step of the machine, on the whole state |
| LbsPrivate.Private.ThreadRound | doc/libertas/main.c:511-624 | one round of the main thread, left alone, with any outcomes of its transfers, is a run of the machine from the top of the loop back to it; no event and no response is left; unless the device has to be woken or the firmware is not ready it came to the gate, and from there went exactly the command that the power state lets through, and then the waiting packet exactly if the interface is still free for it |
| LbsPrivate.Private.DrainEvents | doc/libertas/main.c:524-537 | the event loop ends, and is a run of the machine |
| LbsPrivate.Private.ProcessCommandResponse | doc/libertas/cmdresp.c:65-216 | with what it calls, a run of the machine that ends with the buffer to be cleared and, exactly if the response has the current command's number, fits it and is not DEFER, with that command completed |
| LbsPrivate.Private.ProcessCardEvent | doc/libertas/cmdresp.c:223-311 | with what it calls, a run of the machine back to the event loop, and what each event means for power state, queue and card in each state (`EventMeans`) |
| LbsPrivate.Private.PsConfirmSleep | doc/libertas/cmd.c:1361-1431 | the confirmation and the checks around it are a run of the machine; it goes out exactly if no command is under way and nothing came from the card, and ends in SLEEP exactly if the transfer succeeds |
| LbsPrivate.Private.ConfirmDelayed | doc/libertas/main.c:565-585 | a sleep request that had to wait is confirmed once nothing is under way and nothing has come, dropped if the connection is gone, and left otherwise |
| LbsPrivate.Private.ExecuteNextCommand | doc/libertas/cmd.c:1228-1359 | a run of the machine; at an open gate the head of the queue leaves it and is handed over exactly if the power state lets it; else a PS_MODE command is dropped and any other stays, with EXIT_PS in front of it if a node can be had; an idle card in FULL_POWER is sent to sleep |
| LbsPrivate.Private.SubmitCommand | doc/libertas/cmd.c:931-980 | numbering, one transfer of this command, its failure and DEEP_SLEEP are a run of the machine, for every outcome, with what each leaves of cur_cmd, the interface and deep sleep |
| LbsPrivate.Private.ChooseQueueEnd | doc/libertas/cmd.c:905-916 | head for EXIT_PS outside FULL_POWER and for WAKEUP_CONFIRM, else tail |
| LbsPrivate.Private.CmdAsync | doc/libertas/cmd.c:1498-1551 | fails in deep sleep or without a free node, else takes, fills and queues one, at the head exactly for WAKEUP_CONFIRM and for EXIT_PS outside FULL_POWER |
| LbsPrivate.EnqueueRun | doc/libertas/cmd.c:1498-1551 | an undisturbed call is the run Call, Place, Insert of the machine |
| LbsPrivate.Private.NotifyCommandResponse | doc/libertas/main.c:1118-1128 | wakes from SLEEP and swaps the buffers |
| LbsPrivate.Private.CmdTimeoutHandler | doc/libertas/main.c:725-750 | marks a timeout of the current command and frees the interface if the card never acknowledged it |
| LbsPrivate.Private.IsAnswer | doc/libertas/cmdresp.c:76-122 | the chain of checks accepts exactly the answers to the current command |
| LbsPrivate.Private.PsModeResponse | doc/libertas/cmdresp.c:128-181 | the new power state, and whether EXIT_PS must be queued, against the specification that `AnswerDecides` and `FullPowerAsAcknowledged` are about |
| LbsPrivate.Private.HandleCardEvent | doc/libertas/cmdresp.c:223-311 | the whole state after an event, including PS_SLEEP and PS_AWAKE |
| LbsPrivate.Private.AllowedToSleep | doc/libertas/cmd.c:1401-1424 | true exactly when nothing is under way, current or waiting |
| LbsPrivate.Private.ConsiderNext | doc/libertas/cmd.c:1255-1334 | the nested power-save branches against the specification that the gate and the fates of commands are about |
| LbsPrivate.Private.FinishSubmission | doc/libertas/cmd.c:970-980 | DEEP_SLEEP is completed at once and marks the device |
| LbtfCommand.StepKeepsInv | doc/libertas_tf/main.c:87-131 | every step keeps the invariant |
| LbtfCommand.SentAtMostElevenTimes | doc/libertas_tf/main.c:103-119 | no command is transmitted more than 11 times, against any card and any timeouts |
| LbtfCommand.RetriesAreAdjacent | doc/libertas_tf/cmd.c:564-605 | between two transmissions of a command everything transmitted is that command, with the same sequence number |
| LbtfCommand.TimedOutAfterEleven | doc/libertas_tf/main.c:106-109 | a command that ends with -ETIMEDOUT was transmitted exactly 11 times |
| LbtfCommand.TimeoutDecides | doc/libertas_tf/main.c:103-119 | a timeout before the eleventh transmission requeues at the head, the eleventh completes |
| LbtfCommand.CompletedInOrder | doc/libertas_tf/cmd.c:716-806 | commands are completed once each, in the order they were queued |
| LbtfCommand.TakenIff | doc/libertas_tf/cmd.c:745-788 | a response is taken, by completing the current command or by going on to its callback, if and only if it has that command's number, fits it and is not DEFER; a failure completes at once with its result |
| LbtfCommand.CallbackCompletes | doc/libertas_tf/cmd.c:790-801 | after its callback the current command is complete with result 0 |
| LbtfCommand.AnsweredByItsResponse | doc/libertas_tf/cmd.c:745-801 | over any run, every command that ended as answered was answered by a response that the card sent in the run, with the command's own sequence number and that result |
| LbtfCommand.CompletedAsSent | doc/libertas_tf/cmd.c:564-605 | and it was transmitted with that number each time |
| LbtfCommand.NotReadyNotSent | doc/libertas_tf/main.c:120-128 | until the firmware is ready nothing is sent |
| LbtfPrivate.Private.CmdWork | doc/libertas_tf/main.c:87-131 | the work function, left alone, is a run of the machine back to rest and keeps the invariant; then, if the firmware is ready, a command is with the card or none waits |
| LbtfPrivate.Private.ProcessRxCommand | doc/libertas_tf/cmd.c:729-788 | the checks, the reset of the retry count, and completion on failure, against the specification that `TakenIff` is about |
| LbtfPrivate.Private.HandleTimeout | doc/libertas_tf/main.c:103-118 | the retry count against the specification |
| UsbChecker.CheckFwfileFormat | doc/libertas/if_usb.c:771-809 | on exactly the inputs on which the loop ends, the verdict of its last round; unless a data length wraps, 0 exactly if there are data blocks up to a last block, all starting inside the image |
| UsbChecker.EndsIff | doc/libertas/if_usb.c:780-801 | on every image, with 32-bit or 64-bit addresses, the loop ends if and only if no round but the last finds the variables as an earlier one did |
| UsbChecker.EndsInFileIff | doc/libertas/if_usb.c:780-801 | with 64-bit addresses, while headers are read in the file, it ends if and only if it never comes to a data header of length 2^32 - 16, and then within as many rounds as the file has bytes |
| UsbChecker.EndsOn32BitIff | doc/libertas/if_usb.c:780-801 | with 32-bit addresses, on every image, it ends if and only if it ends within as many rounds as the file has bytes |
| UsbChecker.StuckImageHangs | doc/libertas/if_usb.c:786-791 | one header of length 2^32 - 16 makes it read that header for ever |
| UsbChecker.LoopImageHangs | doc/libertas/if_usb.c:786-791 | with 32-bit addresses, two headers in the file make it go around for ever without standing still |
| UsbChecker.NoWrapEnds | doc/libertas/if_usb.c:780-801 | unless a data length wraps, the loop ends |
| UsbChecker.WrappedLengthStallsIff | doc/libertas/if_usb.c:780-801 | on an image that is not empty, a round that has not ended is the same as all later ones if and only if it is at a data header of length 2^32 - 16 |
| UsbFirmware.UsbCard.SendFwPkt | doc/libertas/if_usb.c:324-376 | the card structure and the packet sent, with 32-bit sums |
| UsbFirmware.UsbCard.ReceiveFwload | doc/libertas/if_usb.c:554-588 | the card structure after a reply |
| UsbFirmware.ProgFirmware | doc/libertas/if_usb.c:811-890 | an image within 32 bits is accepted and delivered: the acknowledged blocks are its first blocks, and once the download is over, with the last block, all its bytes; a rejected one changes nothing |
| UsbFirmware.CheckedImageIsWellCut | doc/libertas/if_usb.c:341-357 | the sender's sums are exact at every block the checker walked, and only the last block is final |
| UsbFirmware.DownloadFollowsReplies | doc/libertas/if_usb.c:324-376 | for every reply sequence: the k-th packet is the block that the OK replies so far select, numbered by its block index |
| UsbFirmware.ResendIsIdentical | doc/libertas/if_usb.c:329-334 | after a CRC error the same packet is sent again, after an OK the next block |
| UsbFirmware.AcknowledgedIsPrefix | doc/libertas/if_usb.c:554-582 | the blocks acknowledged as good are the first blocks of the image, in order, each once |
| UsbFirmware.DownloadEnds | doc/libertas/if_usb.c:577-580 | any reply to the last block, and only that, ends the download, and by then all bytes of the image were transferred |
| SdioFirmware.ProgHelper | doc/libertas/if_sdio.c:442-504 | succeeds exactly if every transfer does; then unpacking the 64-byte packets up to the empty block gives the helper image |
| SdioFirmware.UnpackPacked | doc/libertas/if_sdio.c:479-501 | length-prefixed packets unpack to the data they were cut from, whatever pads them |
| SdioFirmware.AwaitRequest | doc/libertas/if_sdio.c:564-608 | for each result the readings of the register that lead to it, and only those: a request is accepted exactly if nonzero and even, the first only above 2; a failed access, 0 or an odd value end the wait each with its own result |
| SdioFirmware.ProgReal | doc/libertas/if_sdio.c:538-632 | terminates; succeeds if and only if every write succeeded and the card has the whole image, which it got once and in order, in writes of 32-byte multiples up to 512 and nothing else if it asked for no more; each failure occurs exactly with its cause: the one failed write or a failed reading, a 0, an odd value, or readings that run out |
| SdioFirmware.SendRound | doc/libertas/if_sdio.c:611-630 | a request is served completely by its chunks if every write succeeds, and otherwise the round ends with the first write that failed |
| SdioPackets.Card.HostToCard | doc/libertas/if_sdio.c:911-987 | appends exactly one packet with header and type, or changes nothing; exactly when a payload is refused, and exactly when the 16-bit size is too small for the copy |
| SdioPackets.Card.Take | doc/libertas/if_sdio.c:410-414 | removes the first packet of the linked list |
| SdioPackets.Card.WriteAll | doc/libertas/if_sdio.c:400-434 | the worker, left alone, takes every waiting packet in order and leaves the list empty |
| SdioPackets.Serve | doc/libertas/if_sdio.c:400-434 | over any sequence of calls and takes on the list, what was taken and what waits is what waited before and the packets of the accepted payloads, in order, and a take never misses |
| SdioPackets.UnpackPacket | doc/libertas/if_sdio.c:943-951 | the card reads back type and payload |
| Crc32.InitCrc | dump/bin2elf.c:94-108 | entry i of the table is eight division steps on i |
| Crc32.DoCrc | dump/bin2elf.c:111-121 | equals division bit by bit, for every message and starting remainder |
| Crc32.FeedByte | dump/bin2elf.c:114-115 | one table lookup is eight division steps |
| Crc32.GeneratorTerms | dump/bin2elf.c:92-92 | the constant is the generator of section 3.2.9: its terms are the exponents 0, 1, 2, 4, 5, 7, 8, 10, 11, 12, 16, 22, 23 and 26 below 32 |
| Crc32.CrcComposes | dump/bin2elf.c:111-121 | a message can be fed in pieces |
| Crc32.CrcLinear | dump/bin2elf.c:111-121 | from remainder 0 the CRC is linear over exclusive or |
| Crc32.ResidueZeroIff | dump/bin2elf.c:323-343 | a message with four bytes behind it has residue 0 exactly if they are its CRC in big-endian order |
| Crc32.BurstDetected | dump/bin2elf.c:323-343 | any change confined to 32 consecutive bits changes the residue, so a block that checked out no longer does |
| Amsdu.FormAmsduPkt | doc/mwifiex/11n_aggr.c:46-90 | the buffer gains exactly the subframe of the frame; the padding is computed from its tail address |
| Amsdu.AggregatePkt | doc/mwifiex/11n_aggr.c:156-238 | the body is the dequeued frames in order, each but the last padded, never longer than tx_buf_size, and at an aligned base the receiver gets exactly these frames; it stops only when the queue is empty or the next frame or its padding does not fit; if the list stays, it overruns the buffer exactly when the next frame passes the size test and has no room, and at the first frame exactly when that is so of it |
| Amsdu.RoundTrip | doc/mwifiex/11n_aggr.c:46-90 | from an aligned base, de-aggregating the body gives exactly those frames in order |
| Amsdu.SubframesAligned | doc/mwifiex/11n_aggr.c:84-87 | every subframe starts at a multiple of four |
| Amsdu.PaddingIffAligned | doc/mwifiex/11n_aggr.c:86-87 | the padding is what the receiver skips if and only if the subframe starts at an aligned address |
| Triplets.BuildTriplets | doc/mwifiex/cfg80211.c:556-597 | the array is long enough if and only if it has room for the maximal runs; then the triplets expand to exactly the enabled (channel, power) pairs in order, and no neighbours could be merged |
| Triplets.LoopEndsIff | doc/mwifiex/cfg80211.c:556-556 | the one-byte index reaches the number of channels if and only if that is at most 255 |
| Triplets.FewestTriplets | doc/mwifiex/cfg80211.c:556-595 | no list of triplets for the same channels is shorter |

## Left out

- RxReorderRefinement.RunRefines: like the other results about runs beside the standard's buffer, assumes arrivals within 2048 of the window start, A-MSDUs only when negotiated and a fixed window size, as a sequence number of 12 bits cannot be placed otherwise.
- RxReorderTable.ReorderTable.constructor: allocation failure.
- RxReorderTable.RxReorderPkt: the model stops where the driver would store a frame outside the array of a table of fewer than 2 slots (`Strays`, `StoresInArrayIff`); runs and everything proved about them are of tables of at least 2.
- Reorder table: each function is one step; interleavings inside a release, where the code drops its lock per slot, the list of tables, timer durations and the RXBA_SYNC event are not modelled. `mwifiex_update_rxreor_flags` is modelled with the one value it is called with.
- LbsCommandRuns.EveryNodeInOnePlace: runs in which no DEEP_SLEEP transfer fails, the exact condition of `LbsDeepSleep.ConservedIff`; the card answers only what was submitted, and does not overrun a response buffer, which the driver treats as fatal.
- LbsPrivate.Private.ThreadRound: a round with other threads in between is in `LbsCommand`; the invariant is kept if no DEEP_SLEEP transfer fails in it. Mutual exclusion is given by the steps, not by locks in the model.
- libertas: card removal, command callbacks' own effects, timer durations, the auto deep sleep timer (it is one more caller), and the wait conditions of the main thread, which may wake at any time.
- libertas events: a disconnection is handled in one step, although the driver sleeps for a second in the middle of it; Gate, PreSleepCheck, Peeked and HandleEvent each merge several accesses outside the lock.
- LbtfCommand.SentAtMostElevenTimes: counts hand-overs to the bus driver, whether or not they succeed; `lbtf_op_stop`, interrupted waits and the node pool are not modelled.
- UsbChecker.CheckFwfileFormat: what the loop makes of an image after a length has wrapped is only its last round's verdict. Reading behind the end of a truncated image is not an error in the model, and a header that straddles the end of a 32-bit address space is read on rather than from address 0.
- UsbFirmware.DownloadFollowsReplies: boot command exchange, device resets and URB failures are left out; any reply with a nonzero command field is a CRC error.
- SdioFirmware.ProgReal: waiting for the firmware to boot, and wall-clock timeouts, which appear as the end of the register readings.
- SdioPackets.Card.HostToCard: `sizeof(struct if_sdio_packet)` is that of a 64-bit machine; what `sdio_align_size` returns is a parameter, and the model stops where the copy would pass the end of the allocated buffer. Whether the bus accepts a packet that was taken makes no difference to the list.
- Amsdu.AggregatePkt: the model stops where `skb_put` would panic; the TxPD, counters and the requeueing of a busy transfer are left out.
- Amsdu.RoundTrip: tx_buf_size is a 16-bit field, so a body has fewer than 65536 bytes.
- Triplets.BuildTriplets: requires at most 255 channels, the exact condition under which the loop ends (`LoopEndsIff`), and stops where it would write behind the array.
- Crc32: words are bit strings rather than machine words; the ELF layout around the checks is left out.
- Scan, association, rate, region and channel tables, cfg80211 and mac80211 glue, register, USB, SDIO, SPI and PCMCIA access, and `doc/mwifiex/cmdevt.c`, whose pool needs functions outside it.
- The libertas triplet loop (`doc/libertas/cmd.c`), which loses the channel that ends each run.
