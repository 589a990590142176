# Verified model of the FOTG210 host-controller scheduler and of the page-table editors

This Dafny project models the scheduling core of `reference/fotg210-hdc.c` (an EHCI-like USB host
controller driver) and the page-table editors of `src/platform/MMUEditor.cpp`, and proves what the two
programs rely on. `dafny verify dfyconfig.toml` checks the whole project.

The files follow the program:

- **Periodic schedule.** `PeriodicNodes`, `PeriodicTree`: queue heads and ITDs in one shared tree, linked
  and unlinked in place in both the software list and the hardware list; each frame nevertheless sees
  exactly its own list. `PeriodicScan`: readers of the tree. `Admission`: where an interrupt queue head may
  go. `Bandwidth`: what admission and changes of the limit keep over whole runs.
- **Transfer descriptors.** `QtdBuild`: a request's descriptors. `QtdEnqueue`: appending them to a queue
  the controller is walking. `QtdCompletion`, `CompletionSafety`, `CompletionRuns`, `CompletionOrder`,
  `CompletionFaults`, `CompletionCredit`, `CompletionCalls`, `CompletionQueue`: taking finished descriptors
  off and giving requests back, with the lock dropped in between. `QtdRequest`: what is built is what is
  queued and accounted for.
- **Unlink protocols and the timer.** `AsyncUnlink`, `AsyncSchedule`: the doorbell protocol. `Timer`: ten
  kinds of events on one timer. `TimerEvents`: what in the driver enables them, and how late they are then.
  `IntrUnlink`: the timed protocol for interrupt queue heads.
- **Isochronous streams.** `IsoSchedule`: where a request starts, in 32-bit arithmetic on the ring of
  microframes. `IsoItds`: which descriptor and page pointer each packet gets.
- **Page tables.** `MmuWalk`: the table walk of the ARM926EJ-S memory management unit, chapter 3 of its
  technical reference manual. `MmuEditor`, `CoarseEditor`: the two editors.
- `Arith`: powers of two and remainders. `Wrappers`: values that may be missing. `QueueLists`: lists threaded
  through queue heads.

The EHCI specification (sections 3.3, 3.5, 3.6, 4.6, 4.8.2, 4.10 and 4.12.2) and section 8.5.3 of the
USB 2.0 specification are what the driver implements; the model takes their view of the controller: it walks
the hardware links at any time, it answers a doorbell after it has dropped what was unlinked before, it
retires descriptors in queue order and stops at a halted one.

Where the lock is dropped the model is a transition system: datatype states, one function for each section
of code that holds the lock, and steps of the other parties in between. Classes with the driver's own
loops and in-place updates are proved to be runs of it. Memory the driver does not allocate itself, random
numbers, the clock and what drivers do in their completion handlers are parameters or steps.

Results that differ from what the comments of the source say:

- *Microframe 7.* The loop for period 0 looks at the first seven microframes only (line 3461), and so does
  the check of a smaller limit (line 4461). Admission keeps the limit in all eight microframes exactly if the
  period is not 0 or the last microframe has room (`Bandwidth.AdmitAllIff`), and a queue head of period 0 can
  take it over the limit (`Bandwidth.LastUframeBreaks`). An accepted limit holds in the last microframe exactly
  if that is within it (`Bandwidth.LimitWithin`), which is not always so (`Bandwidth.LimitMissesLastUframe`).
- *Order of givebacks.* The comment at line 2104 expects queue order. It is kept over a whole call exactly if
  no request is cancelled that the pass over an idle queue head has skipped before; such a request is given
  back in another pass, after requests queued behind it (`CompletionOrder.OrderIff`,
  `CompletionRuns.OutOfOrder`). A request cancelled while it is still ahead of the pass is given back in order.
- *Delay of timer events.* The comment at line 960 allows twice the requested delay. That holds for the status
  polls, POLL_DEAD and ASYNC_UNLINKS, so for the events of 1 ms that the comment counts on, and for no other
  event (`TimerEvents.TwiceIff`). POLL_DEAD is not postponed at all, because the status polls are enabled only
  while the root hub is running (`Timer.RunTimely`). For the events after the watchdog there is no bound
  (`TimerEvents.BoundIff`), because every doorbell answered while the timer tracks the watchdog lets the next
  one set it anew.
- *Fault status.* A section that faulted faults as a page fault once the second-level editor has laid its
  table over it (`CoarseEditor.ConversionExact`).

A remark on a case that does not arise: the unsigned difference in `check_period` wraps when a queue head
alone asks for more than the limit, and the check passes (`Bandwidth.OversizedAdmitted`,
`Bandwidth.AdmitWithinIff`). `qh_make` makes no such queue head: it rejects packets of more than 1024 bytes
(lines 2557-2563), and usbcore's formula for the bus time, which is not part of this model, gives less than
100 microseconds for three of them, the smallest limit the driver accepts.

## Model

| member | source | states |
|---|---|---|
| PeriodicNodes.FiresMeaning | reference/fotg210-hdc.c:3263-3324 | an entry is in a frame's list exactly if the frame is its start modulo its period, and one of period 0 exactly if its start is 0 |
| PeriodicNodes.NextAgrees | reference/fotg210-hdc.c:3286-3303 | one successor per queue head is enough: in every frame in which an entry fires, the next entry that fires is the same |
| PeriodicNodes.FrameListMembers | reference/fotg210-hdc.c:3263-3324 | a frame's list holds exactly the linked entries that fire in it |
| PeriodicNodes.FrameListSorted | reference/fotg210-hdc.c:3294-3303 | a frame's list is in non-increasing order of period, each entry once |
| PeriodicTree.Schedule.QhLinkPeriodic | reference/fotg210-hdc.c:3263-3324 | after linking, the pointers of all frames and of all queue heads are those of the order with the new entry behind all of at least its period, in the software and in the hardware list |
| PeriodicTree.Schedule.LinkInFrame | reference/fotg210-hdc.c:3279-3310 | one frame's turn of the linking loop: exactly the frame's place for the new entry points to it, later frames are untouched |
| PeriodicTree.Schedule.SkipItds | reference/fotg210-hdc.c:3284-3292 | skipping ITDs by their tags ends at the tree of the frame |
| PeriodicTree.Schedule.SkipSlower | reference/fotg210-hdc.c:3294-3303 | the walk to the place of a period ends there, or at the queue head itself if an earlier frame has linked it |
| PeriodicTree.Schedule.PeriodicUnlink | reference/fotg210-hdc.c:3101-3123 | one frame's unlink takes the queue head out of the frame's lists, and does nothing where an earlier frame has done it |
| PeriodicTree.Schedule.QhUnlinkPeriodic | reference/fotg210-hdc.c:3326-3371 | after unlinking, no pointer of any frame leads to the queue head, and all pointers are those of the order without it |
| PeriodicTree.Schedule.ItdLink | reference/fotg210-hdc.c:4070-4093 | an ITD goes behind the ITDs of its frame and before the tree, in both lists |
| PeriodicTree.LinkedFrame | reference/fotg210-hdc.c:3304-3310 | why sharing works: after the turn of one frame, all frames up to the next multiple of the period agree with the new order |
| PeriodicTree.UnlinkedFrame | reference/fotg210-hdc.c:3113-3123 | the same for unlinking |
| PeriodicScan.WalkFrame | reference/fotg210-hdc.c:3074-3098 | a walk of a frame by the tags ends, meets its ITDs and then exactly its frame list, each node once, and the hardware links it reads name the same nodes and close with the end marker |
| PeriodicScan.PeriodicUsecs | reference/fotg210-hdc.c:3126-3169 | the walk adds up exactly what the ITDs and the entries that fire claim of the microframe, in 16 bits |
| Admission.CheckPeriod | reference/fotg210-hdc.c:3443-3479 | true exactly if every frame of the slot has room, with the driver's unsigned comparison and its seven microframes for period 0 |
| Admission.TtFrameFree | reference/fotg210-hdc.c:3199-3230 | a frame is free exactly if no entry that fires in it is behind the same translator and uses a microframe of the mask |
| Admission.TtNoCollision | reference/fotg210-hdc.c:3186-3235 | the same over all frames of a slot; never for period 0 |
| Admission.CheckIntrSchedule | reference/fotg210-hdc.c:3481-3520 | true exactly if the slot can carry the queue head; the complete splits then get the two microframes from gap_uf behind the slot on, both of them below 8, and none if the queue head has no complete splits |
| Admission.AdmissibleMeans | reference/fotg210-hdc.c:3481-3520 | what a slot that can carry the queue head offers, in each frame of it: room for the start split in its microframe (seven of them for period 0), room for the complete splits where they are checked, and behind the same translator no entry in the start split's microframe or in the two of the complete splits; a split transaction starts before microframe 6 and has a period |
| Admission.FirstFit | reference/fotg210-hdc.c:3549-3569 | finds a frame and the first microframe of it that fits, and fails only if no frame of the period and no microframe can carry the queue head, although the frames are tried from a wrapping 32-bit counter on |
| Admission.Covers | reference/fotg210-hdc.c:3553-3556 | consecutive counter values meet every residue of the period |
| Admission.FindSlot | reference/fotg210-hdc.c:3525-3581 | succeeds exactly if some slot can carry the queue head; keeps the slot and masks it had before if that slot still can, and otherwise takes the first microframe that fits of an admissible frame |
| Admission.QhSchedule | reference/fotg210-hdc.c:3525-3584 | links the queue head exactly if some slot can carry it, with such a slot and such masks, and otherwise changes nothing but the counter |
| Bandwidth.LoadInserted | reference/fotg210-hdc.c:3126-3169 | a new entry adds where it fires usecs in the microframes of its S-mask and c_usecs in those of its C-mask, and nothing elsewhere |
| Bandwidth.LoadWithItd | reference/fotg210-hdc.c:3126-3169 | one more ITD adds its usecs in its frame in the microframes in which it has a transaction, and nothing elsewhere |
| Bandwidth.RoomForClaim | reference/fotg210-hdc.c:3443-3520 | an admitted queue head that fits the limit finds room for what it claims of each microframe |
| Bandwidth.AdmitWithin | reference/fotg210-hdc.c:3443-3584 | admission keeps the limit: microframes 0 to 6 for all, the last for the periods other than 0 |
| Bandwidth.AdmitWithinIff | reference/fotg210-hdc.c:3460-3475 | it does so exactly if the parts of the claim are within the limit |
| Bandwidth.OversizedBreaks | reference/fotg210-hdc.c:3460-3475 | an oversized queue head that is admitted breaks the limit |
| Bandwidth.OversizedAdmitted | reference/fotg210-hdc.c:3460-3475 | and one that claims 110 of 100 microseconds is admitted |
| Bandwidth.LastUframe | reference/fotg210-hdc.c:3460-3463 | the last microframe is within the limit while no queue head of period 0 is linked, and within twice the limit otherwise |
| Bandwidth.AdmitAllIff | reference/fotg210-hdc.c:3460-3463 | admission keeps the limit in all eight microframes if and only if the period is not 0 or the last microframe, which is not looked at then, has room |
| Bandwidth.LastUframeBreaks | reference/fotg210-hdc.c:3461 | a queue head of period 0 is admitted with which 120 of 100 microseconds of the last microframe are claimed |
| Bandwidth.DropWithin | reference/fotg210-hdc.c:3326-3371 | unlinking keeps the limit |
| Bandwidth.AllocatedMax | reference/fotg210-hdc.c:4452-4463 | the loops find the largest claim of the first seven microframes of all frames |
| Bandwidth.StoreUframePeriodicMax | reference/fotg210-hdc.c:4416-4482 | a limit is taken over exactly if it is at least 100 and less than 125 and, where it is smaller than the present one, nothing in the microframes checked claims more |
| Bandwidth.LimitWithin | reference/fotg210-hdc.c:4452-4478 | an accepted limit holds in microframes 0 to 6, and in the last one exactly if that was within it |
| Bandwidth.LimitMissesLastUframe | reference/fotg210-hdc.c:4461 | a run of the schedule in which two queue heads of 60 microseconds are admitted at microframe 7 and then a limit of 100 is accepted |
| Bandwidth.AdmitExclusive | reference/fotg210-hdc.c:3481-3520 | admission keeps entries behind one translator from sharing a microframe in any common frame |
| Bandwidth.DropExclusive | reference/fotg210-hdc.c:3326-3371 | so does unlinking |
| Bandwidth.RunSafe | reference/fotg210-hdc.c:3443-3584 | over any run of submissions, withdrawals and changes of the limit, the bandwidth limit and translator exclusion hold |
| Bandwidth.SubmitInterrupt | reference/fotg210-hdc.c:3586-3636 | a submission in place is a step of such a run, or changes nothing |
| Bandwidth.WithdrawInterrupt | reference/fotg210-hdc.c:3326-3371 | a withdrawal in place is a step of such a run |
| QtdBuild.QtdFill | reference/fotg210-hdc.c:1856-1891 | a descriptor takes all bytes, or as many whole packets as five pages hold; the page pointers make byte k of it address buf + k; at most 20480 bytes |
| QtdBuild.TokenBits | reference/fotg210-hdc.c:1887 | the length reads back from the token, and the other bits are kept |
| QtdBuild.DataStage | reference/fotg210-hdc.c:2401-2468 | the data descriptors are linked in order and carry exactly the buffer; where every segment is whole packets, so is every descriptor but the last |
| QtdBuild.QhUrbTransaction | reference/fotg210-hdc.c:2354-2515 | SETUP, data and final descriptor of a request, with pids, toggles, alternate links and interrupt bit; each starts active, with three tries and no error bit |
| QtdBuild.TokensRead | reference/fotg210-hdc.c:2374-2515 | the token of every descriptor, field by field: status ACTIVE and nothing else, error count 3, pid, interrupt on the last one only, its length |
| QtdBuild.Counts | reference/fotg210-hdc.c:2470-2505 | how many descriptors there are besides those of the data: SETUP, and one behind the data exactly for the status stage of a control request with data and for an OUT transfer of whole packets that is to end with an empty one |
| QtdBuild.ControlShape | reference/fotg210-hdc.c:2381-2505 | a control request of at most 16 KiB is SETUP/DATA0, one DATA1 data descriptor and a DATA1 status descriptor of opposite direction, or SETUP and IN/DATA1, whatever the alignment; the toggles as bit 31 of the tokens |
| QtdEnqueue.WalkSees | reference/fotg210-hdc.c:2802-2826 | a controller that walks the chain from any queued descriptor executes the active ones that follow, and nothing else |
| QtdEnqueue.StoreUnseen | reference/fotg210-hdc.c:2802-2822 | a store to the dummy that leaves it inactive, or outside the queue, is not seen |
| QtdEnqueue.QueueHead.Stage | reference/fotg210-hdc.c:2803-2822 | after each store before the write barrier, those of the copy into the dummy included, the chain is still the old queue and its dummy, whatever the controller has finished meanwhile |
| QtdEnqueue.QueueHead.QhAppendTds | reference/fotg210-hdc.c:2788-2827 | after the last store the chain is the old queue, the new descriptors and the new dummy, all new ones active and otherwise as built |
| QtdEnqueue.AppendSeen | reference/fotg210-hdc.c:2822-2825 | then the controller can execute exactly old and new, if nothing old has stopped it |
| QtdRequest.ReadyForQueue | reference/fotg210-hdc.c:2354-2515 | the descriptors of a request as they were built are what an append takes: linked, active and apart from the queue |
| QtdRequest.ReadyForCompletion | reference/fotg210-hdc.c:2354-2515 | queued, they are a request that completions account for, with no more bytes than transfer_buffer_length |
| QtdRequest.QueuedTokens | reference/fotg210-hdc.c:2374-2376 | when a request is queued, what completions see of each descriptor is the token it was built with: active, no error, three tries, everything still to transfer |
| CompletionSafety.RestSkipped | reference/fotg210-hdc.c:2203-2215 | the rest of a request whose descriptor was skipped is skipped too |
| CompletionSafety.NothingLeft | reference/fotg210-hdc.c:2134-2146 | when a request is given back none of its descriptors is left, although only the neighbour's request is compared |
| CompletionSafety.VisitStruct | reference/fotg210-hdc.c:2152-2290 | one look at a descriptor keeps the structure of the queue |
| CompletionSafety.StepStruct | reference/fotg210-hdc.c:2087-2337 | so does every step of the call, of other parts of the driver and of the controller |
| CompletionRuns.PatchChained | reference/fotg210-hdc.c:2267-2276 | taking off the head needs no patch, taking off another descriptor exactly the one the driver makes |
| CompletionRuns.StepChained | reference/fotg210-hdc.c:2267-2276 | the hardware chain stays the queue followed by the dummy |
| CompletionRuns.Credited | reference/fotg210-hdc.c:1990-1997 | a descriptor credits its request with its length less the residue, SETUP and descriptors behind a failed one with nothing, and so with at most what it had left to credit |
| CompletionRuns.StepBudget | reference/fotg210-hdc.c:1990-2042 | what a request was credited with and what is still queued never exceed what it asked for |
| CompletionRuns.StepInPass | reference/fotg210-hdc.c:2125-2300 | a pass gives requests back in the order of the queue it found |
| CompletionRuns.RunSafe | reference/fotg210-hdc.c:2087-2337 | over any run: given back at most once, and if and only if nothing of the request is left; credit between 0 and transfer_buffer_length; each descriptor freed at most once, not while queued, and none lost: all that was queued is still there or freed; chain kept |
| CompletionCredit.StepBalanced | reference/fotg210-hdc.c:2087-2337 | every step keeps the book of a run: a queued descriptor has the residue its last Retire step left, a request's descriptors are those taken off followed by those queued, its credit and status are what the ones taken off amount to |
| CompletionCredit.GivenTaken | reference/fotg210-hdc.c:1990-2042 | over any run, a request is given back after exactly the descriptors it was queued with were taken off, with the status of the first that failed and the bytes counted up to it |
| CompletionCredit.SuccessIff | reference/fotg210-hdc.c:1990-2042 | over any run, a request all of whose descriptors were last retired without a halt or a short read that stops the queue is given back as a success, with the sum of length less residue of its descriptors other than SETUP, the residues being those of their last Retire steps; and a request that was not cancelled is a success only then |
| CompletionCredit.WholeCredited | reference/fotg210-hdc.c:1994-1996 | with no residue left, that is the sum of the lengths |
| CompletionCredit.FailureReported | reference/fotg210-hdc.c:1999-2039 | over any run, a request that was not cancelled and of which one descriptor is the first that failed is given back with the bytes up to it and the status of that failure: babble, stall, missed microframe, data buffer error by direction, transaction error, short read |
| CompletionCredit.CancelledCredit | reference/fotg210-hdc.c:2217-2250 | a request cancelled before any descriptor of it failed is given back with the bytes that the tokens showed when its descriptors were taken off |
| CompletionCredit.OverlayCredited | reference/fotg210-hdc.c:2217-2250 | for the active descriptor of a cancelled request that is the overlay's token if the queue head is idle and stands at it, and its own otherwise |
| CompletionCalls.CallClears | reference/fotg210-hdc.c:2191-2215 | over any run, a pass skips only active descriptors and stops early only at an active one of a queue that has not stopped; when a call for an idle queue head returns, what is left of the queue it found is active and not cancelled, and the root hub runs |
| CompletionRuns.StepAccount | reference/fotg210-hdc.c:2134-2146 | no step loses a descriptor: those queued, just removed and freed add up |
| CompletionOrder.OrderIff | reference/fotg210-hdc.c:2087-2323 | over any run, a call gives requests back in the order of the queue it found, if and only if no request of an idle queue head is cancelled during a giveback that the pass has skipped before |
| CompletionOrder.LaterStep | reference/fotg210-hdc.c:2203-2215 | a pass over entries of which none was cancelled since they were skipped gives nothing back |
| CompletionRuns.OutOfOrder | reference/fotg210-hdc.c:2289-2293 | a call that gives two requests back against the order of the queue |
| CompletionSafety.DoneGiven | reference/fotg210-hdc.c:2044-2079 | a giveback adds its request to those given back, once, and leaves none of its descriptors queued |
| CompletionFaults.RestRemoved | reference/fotg210-hdc.c:2162-2165 | when a descriptor has failed, the same pass takes off all that is left of its request, without a giveback in between, and status and credit stay those of the failure |
| CompletionFaults.OnlyTurns | reference/fotg210-hdc.c:2087-2337 | nothing else can happen in between |
| CompletionFaults.RetriesBounded | reference/fotg210-hdc.c:2167-2189 | from any state of any run on, at most 31 transaction errors are retried before a descriptor is taken off or the queue head is linked again |
| CompletionFaults.RetryMeans | reference/fotg210-hdc.c:2167-2189 | a look retries exactly at a halt for a transaction error with no tries left, of a request that is not cancelled, before the limit; then descriptor and overlay are active again with three tries, and otherwise both are left alone |
| CompletionQueue.CompletionQueue.QhCompletions | reference/fotg210-hdc.c:2087-2337 | the call in place is a run of the system, so that all that is stated over runs holds of it, and ends, whatever is queued or cancelled during givebacks |
| AsyncUnlink.UnlinkRing | reference/fotg210-hdc.c:2895-2899 | taking a queue head out keeps the hardware ring equal to the software list |
| AsyncUnlink.UnlinkContained | reference/fotg210-hdc.c:2881-2902 | from unlinked queue heads the controller gets only to queue heads that are linked or wait for a later doorbell |
| AsyncUnlink.UnlinkScan | reference/fotg210-hdc.c:2900-2901 | the scan's cursor never names a queue head that has left the list |
| AsyncUnlink.StartIaaPopulation | reference/fotg210-hdc.c:2904-2914 | starting a cycle loses no queue head: it never overwrites a list that is not empty |
| AsyncUnlink.UnlinksOne | reference/fotg210-hdc.c:2997-3012 | an unlink takes a linked queue head off the ring, keeps the order of the others, and puts it behind those that wait: in the cycle that starts now if none is running or ending, in the waiting list otherwise; any other queue head is left alone |
| AsyncUnlink.UnlinksEmpty | reference/fotg210-hdc.c:2964-2992 | of the queue heads that are due exactly the linked ones leave the ring, the others keep their order, and they wait in the same way |
| AsyncUnlink.FetchTouchable | reference/fotg210-hdc.c:2881-2962 | the controller cannot leave what it may touch |
| AsyncUnlink.StepInv | reference/fotg210-hdc.c:2701-3012 | every step keeps: ring mirrored, each queue head that is not idle in one place in the state for it, count right, no warning, no unlink stranded |
| AsyncUnlink.RunSafe | reference/fotg210-hdc.c:2935-2962 | over any run no idle queue head, and none about to be idle, is held by the controller; async_count is the number of those not idle; no WARN_ON fires |
| AsyncUnlink.Conserved | reference/fotg210-hdc.c:2701-2962 | queue heads are added by linking an idle one and let go by the end of an unlink only |
| AsyncUnlink.Drains | reference/fotg210-hdc.c:2955-2961 | from every reachable state there is a way on after which every unlink has been completed |
| AsyncSchedule.AsyncSchedule.QhLinkAsync | reference/fotg210-hdc.c:2726-2753 | the stores behind the head keep qh_next and hw_next those of the ring with the new queue head first, linked and counted; an idle queue head is then in its one place, and no warning fires |
| AsyncUnlink.CountDown | reference/fotg210-hdc.c:2713-2722 | counting one down warns of nothing as long as the count was one more than the queue heads that are not idle |
| AsyncSchedule.AsyncSchedule.FindPrev | reference/fotg210-hdc.c:2894-2896 | following qh_next from the head ends at the node before the queue head |
| AsyncSchedule.AsyncSchedule.Append | reference/fotg210-hdc.c:2885-2891 | appending through async_unlink_last keeps unlink_next a list that ends, also when async_unlink_last is left over from an earlier cycle |
| AsyncSchedule.AsyncSchedule.SingleUnlinkAsync | reference/fotg210-hdc.c:2881-2902 | the unlink through the pointers is the system's step: the queue head waits last, keeps its own qh_next, and a scan that was at it goes on at the next of the ring |
| AsyncSchedule.AsyncSchedule.StartIaaCycle | reference/fotg210-hdc.c:2904-2931 | the waiting list becomes the cycle's by its first pointer alone and the doorbell is rung, unless a cycle is running or ending; both stay lists that end, and no queue head is lost |
| AsyncSchedule.AsyncSchedule.StartUnlinkAsync | reference/fotg210-hdc.c:2997-3012 | afterwards a linked queue head is off the ring, the others in order, and it is in the cycle, with all that waited and the doorbell rung, if none was running or ending, and last in the waiting list otherwise; a queue head that was not linked changes nothing; the invariant is kept |
| AsyncSchedule.AsyncSchedule.UnlinkEmptyAsync | reference/fotg210-hdc.c:2964-2992 | following qh_next while queue heads are taken out meets every one of the ring; exactly the linked and empty ones of an earlier cycle leave it, in order, and wait or start a cycle; the timer comes back exactly if an empty one was spared |
| AsyncSchedule.AsyncSchedule.SubmitAsync | reference/fotg210-hdc.c:2867-2869 | only idle queue heads are linked, first on the ring |
| AsyncSchedule.AsyncSchedule.Irq | reference/fotg210-hdc.c:4870-4893 | the answer to the doorbell starts the end of the cycle if there is one |
| AsyncSchedule.AsyncSchedule.TakeFirst | reference/fotg210-hdc.c:2942-2947 | taking the first off the cycle's list clears its links and leaves both lists as they are |
| AsyncSchedule.AsyncSchedule.EndUnlinkTake | reference/fotg210-hdc.c:2939-2961 | the head of the loop takes the first of the cycle; its end starts the next cycle with all that waits, or none if nothing does |
| AsyncSchedule.AsyncSchedule.EndUnlinkFinish | reference/fotg210-hdc.c:2950-2952 | linked again, first on the ring, exactly if transfers were queued meanwhile and no TT buffer has to be cleared, otherwise idle and no longer counted |
| AsyncSchedule.AsyncSchedule.ScanOn | reference/fotg210-hdc.c:3018-3021 | the cursor of the scan, moved on before completions drop the lock, names the next queue head of the ring or none |
| AsyncSchedule.AsyncSchedule.ScanEnd | reference/fotg210-hdc.c:3037-3055 | after a scan that found a queue head empty the timer will come back, and if it was not on its way all that is empty now is due then |
| Timer.EnableInv | reference/fotg210-hdc.c:983-997 | enabling an event keeps the bound of every event |
| Timer.NextInv | reference/fotg210-hdc.c:1258-1264 | so does the timer function when it enables an event again |
| Timer.Timely | reference/fotg210-hdc.c:944-964 | a pending event is overdue by at most the delays of the lower-numbered ones, POLL_DEAD by none, and the slack of the timer |
| Timer.NotForgotten | reference/fotg210-hdc.c:1250-1264 | a pending event stays pending until its handler starts or it is cleared |
| Timer.RunNotEarly | reference/fotg210-hdc.c:1241-1264 | over any run, a handler that starts was enabled since it last started, and every time its event was enabled lies at least its delay in the past, also when an earlier handler of the same call did it |
| Timer.RunTimely | reference/fotg210-hdc.c:983-1268 | over any run: an enabled event means the timer is set for one numbered no higher; up to the watchdog no event waits for more than the lower-numbered ones can postpone it, and the poll of a dead controller for nothing; the later events neither, as long as no doorbell is answered while the timer tracks the watchdog |
| Timer.RunHandled | reference/fotg210-hdc.c:983-1268 | from any state of any run on, an event that is enabled is pending, with its delay still to come, until its handler starts or it is cleared |
| TimerEvents.StepKeeps | reference/fotg210-hdc.c:983-1268 | whatever section of the driver enables an event, the bounds of all events are kept |
| TimerEvents.LaterEventsStarve | reference/fotg210-hdc.c:4873-4883 | the driver has runs in which an event after the watchdog is overdue by any amount; DISABLE_ASYNC where it was found enabled by the timer function that links a queue head |
| TimerEvents.BoundIff | reference/fotg210-hdc.c:944-964 | over the runs of the driver, exactly the events up to the watchdog have a bound |
| TimerEvents.UnlinkLate | reference/fotg210-hdc.c:1000-1034 | a run in which UNLINK_INTR waits for more than twice its delay: the periodic status is polled again and then the asynchronous one for the first time |
| TimerEvents.FreeLate | reference/fotg210-hdc.c:1140-1147 | the same for FREE_ITDS: an interrupt queue head is unlinked and then the asynchronous status polled |
| TimerEvents.WatchdogLate | reference/fotg210-hdc.c:1168-1205 | the same for the watchdog: a queue head is found empty, a stream ends, an interrupt queue head is unlinked, and the controller dies |
| TimerEvents.TwiceIff | reference/fotg210-hdc.c:960-964 | over the runs of the driver, exactly the status polls, the poll of a dead controller and ASYNC_UNLINKS are always handled within twice their delay, the slack of the timer not counted |
| Timer.HcdTimer.EnableEvent | reference/fotg210-hdc.c:983-997 | enabling in place makes the event pending with its delay from now, or the timeout it has, leaves the other events alone, sets the timer for it exactly if it is lower than the tracked one, and lets no pending event wait for longer than it should |
| Timer.HcdTimer.HrtimerFunc | reference/fotg210-hdc.c:1241-1268 | the timer function in place, with whatever happens in its handlers, is a run of the system |
| IntrUnlink.StartUnlinkInv | reference/fotg210-hdc.c:3373-3412 | an unlink, in or out of the handler, keeps the list in order and the event pending |
| IntrUnlink.UnlinkListed | reference/fotg210-hdc.c:3373-3412 | an unlink takes a linked queue head that is not in its completions off the schedule and lists it last, stamped with the cycle; the event comes 1125 microseconds later and the cycle advances exactly if nothing was listed and the handler is not at work |
| IntrUnlink.Grace | reference/fotg210-hdc.c:3386-3395 | the unlink of a queue head ends no earlier than 1125 microseconds after it began |
| IntrUnlink.HandlerEnds | reference/fotg210-hdc.c:1121-1131 | what givebacks unlink meanwhile does not prolong the handler |
| IntrUnlink.RunGrace | reference/fotg210-hdc.c:1111-1138 | over any run: temporal order, at most two adjacent cycles (of a 32-bit counter), event pending while anything is listed, no queue head listed twice, grace period kept |
| IntrUnlink.StepKept | reference/fotg210-hdc.c:3373-3441 | a queue head that is linked, listed or being ended stays so in every step but one: the end of its unlink with nothing queued for it |
| IntrUnlink.RunKept | reference/fotg210-hdc.c:3373-3441 | so over any run it stays linked, listed or being ended until such an end |
| IntrUnlink.IntrSchedule.Append | reference/fotg210-hdc.c:3397-3401 | appending through intr_unlink_last keeps unlink_next a list that ends, also when intr_unlink_last is left over from earlier |
| IntrUnlink.IntrSchedule.StartUnlinkIntr | reference/fotg210-hdc.c:3373-3412 | the unlink through the pointers is the system's step: the queue head is off the schedule and last in the list under the present cycle, and the event is enabled, with the next cycle, exactly for the only one listed outside the handler; nothing changes for one that is not linked or in its completions |
| IntrUnlink.IntrSchedule.TakeFirst | reference/fotg210-hdc.c:1127-1128 | taking the first off the list clears its link |
| IntrUnlink.IntrSchedule.HandleIntrUnlinks | reference/fotg210-hdc.c:1111-1138 | the handler's loop in place is a run of the system, and ends |
| IntrUnlink.IntrSchedule.EndUnlinkIntr | reference/fotg210-hdc.c:3414-3441 | ending one unlink, with its completions: the queue head is linked again exactly if requests are queued for it by then |
| IsoSchedule.ItdSlotOk | reference/fotg210-hdc.c:3886-3899 | true exactly if every microframe of the phase has room: the packet on top of what is claimed there is within the limit |
| IsoSchedule.NextStart | reference/fotg210-hdc.c:3936-3955 | a live stream goes on at the slot after its last one, or when it has fallen behind at the first slot of its phase that is not past; no sum wraps |
| IsoSchedule.FreshStart | reference/fotg210-hdc.c:3973-3991 | the latest start of one period that fits, if any does, at least 73 microframes and less than 80 and a period ahead of now |
| IsoSchedule.EveryPhaseTried | reference/fotg210-hdc.c:3984-3991 | the starts tried cover every phase of the ring |
| IsoSchedule.WindowIsEnds | reference/fotg210-hdc.c:4002-4008 | checking the last slot is checking all |
| IsoSchedule.IsoStreamSchedule | reference/fotg210-hdc.c:3913-4026 | on success every slot lies between now and the end of the ring less twice the slop, in the phase of a live stream; no space exactly if no phase fits; too big only if the window is missed |
| IsoItds.ItdSchedInit | reference/fotg210-hdc.c:3780-3816 | page, offset, crossing and interrupt of each packet |
| IsoItds.Enough | reference/fotg210-hdc.c:3843-3846 | the descriptors prepared are enough, wherever the request starts |
| IsoItds.PagesSuffice | reference/fotg210-hdc.c:4045-4068 | the page in use stays at most 6 |
| IsoItds.ItdLinkUrb | reference/fotg210-hdc.c:4096-4150 | the list never runs out, and each descriptor holds the packets of its frame, each in its microframe |
| IsoItds.SlotScheduled | reference/fotg210-hdc.c:4127-4133 | packet p goes to the slot that the schedule has found for it, start + p * period around the ring |
| IsoItds.ExactlyOnce | reference/fotg210-hdc.c:4113-4141 | each packet is in exactly one microframe of one descriptor, that of its slot |
| IsoItds.AddressesRight | reference/fotg210-hdc.c:4055-4067 | the page pointers make byte j of a packet address buf + j, after all packets have been or-ed in |
| MmuEditor.MmuEditor.Install | src/platform/MMUEditor.cpp:25-54 | the installed copy translates every virtual address as the original does, and the base register keeps its low fourteen bits |
| MmuEditor.MmuEditor.Create | src/platform/MMUEditor.cpp:25-54 | the same with the allocation failure |
| MmuEditor.MmuEditor.Close | src/platform/MMUEditor.cpp:56-66 | the original base register is back |
| MmuEditor.MmuEditor.Map | src/platform/MMUEditor.cpp:68-77 | exactly the entry of the address is written |
| MmuEditor.MmuEditor.MapSection | src/platform/MMUEditor.cpp:79-93 | the addresses of the section are mapped as asked, all others translate as before |
| MmuEditor.MmuEditor.GetEntry | src/platform/MMUEditor.cpp:95-102 | the entry, or all ones without a table |
| MmuEditor.CopyTable | src/platform/MMUEditor.cpp:41-43 | copying a table copies every word and nothing else |
| CoarseEditor.PermissionsRoundTrip | include/nspire-utils/platform/MMUEditor.hpp:29-59 | decoding the permissions of the four subpages gives back what was encoded |
| CoarseEditor.SectionConverted | src/platform/MMUEditor.cpp:142-154 | a page of the spelled-out section translates its addresses as the section did |
| CoarseEditor.BuildTable | src/platform/MMUEditor.cpp:135-159 | the table holds the copied, spelled-out or faulting entries |
| CoarseEditor.CoarseEditor.Create | src/platform/MMUEditor.cpp:115-179 | page, permission and cache policy of every address of the section are kept, in the domain asked for; every other address translates as before; the two errors |
| CoarseEditor.ConversionExact | src/platform/MMUEditor.cpp:115-179 | the section translates exactly as before if and only if it was mapped and in that domain |
| CoarseEditor.CoarseEditor.Map4KBPage | src/platform/MMUEditor.cpp:208-222 | exactly the addresses of the page change, and they are mapped as asked |
| CoarseEditor.CoarseEditor.Map64KBPage | src/platform/MMUEditor.cpp:190-206 | the same for a large page and its sixteen entries |
| CoarseEditor.CoarseEditor.Close | src/platform/MMUEditor.cpp:180-188 | the section translates as before the editor was made, every other address as just now |
| CoarseEditor.EditPage | tests/interrupted/main.cpp:151-160 | both editors made, a page mapped, both closed: every address translates as before |

## Left out

- Bandwidth.RunSafe: does not claim the limit for microframe 7 while a queue head of period 0 is linked, because the driver does not check it there; Bandwidth.AdmitAllIff says exactly when it is kept all the same.
- Bandwidth.AdmitWithin: interrupt queue heads only; a live isochronous stream is extended without a bandwidth check, so no limit over both kinds holds.
- CompletionRuns.RunSafe: the residue of a descriptor is taken to be at most its length; descriptor addresses are not used again after they were freed, so an overlay left at a freed address is not followed to a new descriptor; and rh_state does not change during a call, although the lock is dropped in it.
- CompletionCredit.FailureReported: while the root hub runs; what is active and taken off after it has stopped is given back as a shutdown.
- CompletionRuns.StepInPass: order within a pass only; CompletionOrder.OrderIff says when it holds over a call.
- CoarseEditor.CoarseEditor.Create: fault status is not claimed unchanged, because a section fault becomes a page fault.
- CoarseEditor.CoarseEditor.Map4KBPage: for attributes that hold bits other than permissions and cache policy only the frame is stated, not the mapping.
- Timer.RunTimely: no bound for events after the watchdog in runs in which a doorbell is answered while the timer tracks the watchdog, because there is none.
- TimerEvents.TwiceIff: the root hub starts once; stopping the driver, which clears all events, is no step, and each section of code takes no time of its own.
- QtdEnqueue.QueueHead.Stage: the words of the first descriptor are copied in the order of its fields, and those behind its token as one.
- IntrUnlink.Grace: while the root hub runs; a stopped one ends its unlinks at once.
- AsyncUnlink.RunSafe: while the controller runs; the watchdog for a lost answer and controller death do not happen.
- Periods that are not powers of two, and periods above the size of the schedule.
- FSTN and siTD nodes, which the driver does not support.
- Full-speed isochronous streams.
- Data toggles across several data descriptors of one request.
- The alternate link as the controller follows it after a short read; completions see its effect, that the queue stops or goes on.
- Removal of finished ITDs from a frame, and completion of isochronous requests.
- The overlay's refresh when a queue head is linked again, and clearing of transaction-translator buffers.
- Handshakes with the schedule enable bits, and the polling they need.
- Disabling an endpoint, suspending and stopping the controller.
- Allocation failures in the driver.
- Silicon quirks, byte order, and memory barriers beyond the order of stores.
- Cache maintenance and TLB invalidation around table edits.
- Freeing of the editors' tables; the allocator is taken at its word, aligned blocks that nothing uses.
- The root hub, debug files, probing and removal, the gadget driver, and the register accessors.
