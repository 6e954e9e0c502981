# Blobly: a model of its bookkeeping, its loop and its packing

Blobly is a CAN bench: native backends for CAN adapters, an engine behind a C interface, a Python
package over it, a simulated device, and scripts around them. This project models the parts of it
where state, interleaving or arithmetic decide whether the rest can be believed, and proves what
they keep. Every claim is about all inputs, all runs or all interleavings.

- **Vector channels** (`VectorPins`, `VectorSafety`, `VectorTable`). XL does not report how a
  channel is configured, so a port that is denied initialisation access is admitted on the strength
  of a record. `VectorPins` is that bookkeeping as a finite map beside the driver's ports and the
  configuration the channels really run; another application may change a channel while none of our
  ports holds its access, handle numbers may be reused at once, and any driver call may fail.
  `VectorSafety` proves what every run keeps. `VectorTable` runs the same calls on the parallel arrays,
  in place, and ties each to the map.
- **The Vector reader** (`VectorReader`): one read against a driver that queues events, lets time pass
  and owes an auto-reset signal between any two actions of the reader.
- **CAN FD frames** (`CanFdCodec`): the length code of ISO 11898-1, the transmit path and the decoders.
- **The event loop** (`EventLoop`, `EventHistory`, `TimerGrid`, `Deadlines`): handlers, timers and health callbacks
  that may register, raise, forget everything or run the loop again, to any depth. Nested runs are real
  nested calls here. The script of choices may end anywhere, so what holds of every script holds at
  every moment.
- **The wait under the loop** (`WaitOn`): one channel or several in turn, deadlines and fairness.
- **A wait in parts** (`SlicedWait`): what keeps a wait open to an interrupt.
- **A call on its own thread** (`OnThread`) and **the flash rendezvous** (`FlashRendezvous`): two
  threads each, as state machines over single reads and writes of their flags.
- **Signal packing** (`SignalBits`): bit walks against plain integers.
- **The Kvaser silent switch** (`KvaserSilent`), **the J1939 listener** (`J1939Listener`), **the error
  text** (`ErrorText`), **the review verdict** and **its state file** (`ReviewVerdict`, `ReviewState`).

## What the code does not promise

Where a promise is false of the code, the code is modelled as it is, a run shows it fail, and the exact
condition is proved.

- *Bit-timing segments are not pinned.* The record holds both rates but no segments, so an FD port
  admitted without access runs on its own segments if and only if they are the owner's
  (`SegmentsAreTheOwners`); `SegmentsAreNotPinned` is a run in which they are not.
- *The generation test in a release never turns a handle away.* The comments beside it speak of a
  handle that outlives its record, but while a handle is open its record is there under its generation
  (`RecordIffHeld`).
- *A frame may be taken up past its run's deadline.* `run` reads its clock and asks for what is left;
  `wait_on` counts that from a reading of its own. So no call is made, or left waiting in the driver, past
  the deadline by more than what passed between the two readings (`LateByNoMore`). What may happen is known
  when the wait begins (`LateIff`): with several channels it may look late exactly if its own deadline lies past
  the run's; with one it makes one call, late exactly if it begins at the deadline or its whole milliseconds
  end past it. `LateCall` is, for every such beginning, budget and deadline, a wait that takes a late frame, and
  `LateFrame` a run that takes one up.
- *A look is bounded.* A zero-timeout look reads 4096 records at most, and for a millisecond at most
  (blobly/transport/zero_poll.v:8-27). A channel with a frame within the bound all looks keep, whatever that
  is, is not passed over by one further on; `BeyondTheBound` passes over one just behind it. It is not starved:
  each look that brings nothing brings it nearer by the bound, and it is served a rotation later for each
  (`ServeTurns`).
- *A wait may refuse its own sleep.* With several channels, the clock is read once to decide that time
  is left and again for the slice to sleep; the slice is negative, which `time.sleep` refuses, exactly if
  the deadline falls between the two (`BetweenRounds`). It never happens with one channel or without a
  budget (`WaitOn`), and can with any two channels and any budget (`SomeSliceIsRefused`).
- *A second interrupt escapes.* `_on_thread` holds further interrupts back only inside its loop's
  guarded body. One that lands on the loop's condition leaves the call behind
  (`EscapeLeavesTheCallBehind`); `CallOutstanding` says exactly when one is left.
- *A second interrupt in a flash.* Between the raise and the cancel it skips the cancel, and lets a block
  be sent if and only if the plan has one left (`BlockFollowsIff`, `SkippedCancelSendsABlock`); anywhere
  else no block follows. Before the release it leaves an engine that can still come to its end unless it
  is in a progress call (`NeitherWaitsForEver`), and that can get stuck exactly if a progress call is
  under way or comes before it would stop (`SticksIff`, `EscapeStrandsTheEngine`).
- *An interrupt inside `start()` may leave a flash to run.* `is_alive` says no of a thread that has not marked
  itself started, so the loop that would cancel it ends at once: a caller that leaves by itself leaves an engine
  behind exactly then (`LeavesItBehindIff`), and it sends every block (`InterruptedStartFlashesOn`).
- *A 64-bit signed signal is read as unsigned*: `SignedReadsBack` is the exact condition, `LongNegativeLost`
  what becomes of every negative value.
- *An extended flag inside a standard id turns the frame extended, and more than 29 bits are cut*:
  `HeaderRoundTrip` keeps the id exactly when it has at most 29 bits, and the kind exactly when the id
  does not carry the flag bit; `FlaggedIdTurnsExtended` is one that does.
- *A zero does not say the silent mode is in force.* It is exactly if it was before, or the handle the driver
  obeys was among those asked and no other was on the bus (`ZeroMeansInForce`); `ZeroNotInForce` switches
  handles none of which it obeys.
- *A message may be taken and lost to an error.* A take loses messages exactly when the engine held one,
  its first two answers succeed and a later one fails (`TakeLosesIff`). Of a whole call, the answers it asks for
  are known from the messages and faults it meets, whichever fail: it raises exactly if one of them fails, and
  has then lost messages exactly if the first that does comes after the first message was taken (`LosesIff`,
  `CallLosesIff`, `ExpectPgn`). `LoseOne` is a call that loses one.
- *A value with a line break does not survive the state file* (`SurvivesIffOneLine`, `LineBreakLosesValue`).

## Model

| member | source | states |
|---|---|---|
| VectorSafety.RunKeeps | blobly/transport/vector_shim.h:362-500 | In every state of every run: each record counts exactly the open handles of its channel, generations differ, a record is stale just when it has no owner, its owner is an open port with access, and an unstale record is the channel's real configuration |
| VectorSafety.StepKeeps | blobly/transport/vector_shim.h:700-872 | One open, failed open, close or foreign reconfiguration keeps all of that |
| VectorSafety.ReachableStep | blobly/transport/vector_shim.h:700-872 | What any legal call makes of a reachable state is reachable: the statements below hold after it |
| VectorSafety.OpenKeeps | blobly/transport/vector_shim.h:745-866 | An open keeps it whichever of its driver calls fails |
| VectorSafety.CloseKeeps | blobly/transport/vector_shim.h:1210-1232 | A close keeps it, whether or not the driver closed the port |
| VectorSafety.RecordsTellTheTruth | blobly/transport/vector_shim.h:345-381 | A record that is not stale is how the channel runs, and its owner is an open port of ours with initialisation access to it |
| VectorSafety.StaleIffOwnerless | blobly/transport/vector_shim.h:470-492 | Stale means ownerless, and no port without access is admitted on a stale record |
| VectorSafety.SiblingsOfOneEpochAgree | blobly/transport/vector_shim.h:812-835 | Two open ports of one channel that joined the same configuration asked for the same one |
| VectorSafety.AdmittedIffRunningAsAsked | blobly/transport/vector_shim.h:807-838 | With every driver call working, a port without access is admitted if and only if the channel is recorded, not stale and really running as it asks |
| VectorSafety.AdmittedRunsAsAsked | blobly/transport/vector_shim.h:749-838 | However it was admitted, a port finds the channel running as it asked |
| VectorSafety.FirstRunsAsAsked | blobly/transport/vector_shim.h:749-806 | A first port that opens has configured the channel as asked, segments included |
| VectorSafety.JoinRunsAsAsked | blobly/transport/vector_shim.h:807-838 | A port that joins changes nothing on the wire and finds it as asked |
| VectorSafety.SegmentsAreTheOwners | blobly/transport/vector_shim.h:755-776 | An FD port admitted without access runs on its own segments if and only if they are the owner's |
| VectorSafety.SegmentsAreNotPinned | blobly/transport/vector_shim.h:834-835 | A run in which a second FD port is admitted onto segments it did not ask for |
| VectorSafety.RefusedLeavesRecords | blobly/transport/vector_shim.h:745-866 | A refused open leaves every count, mark and generation, and every record in force, as it found them |
| VectorSafety.OpenLeavesPort | blobly/transport/vector_shim.h:745-872 | An open that succeeds adds its port with the access granted; a refused one leaves no port behind, unless the driver would not close it, and no other |
| VectorSafety.CloseLeavesPorts | blobly/transport/vector_shim.h:1210-1232 | A close takes its own port off the driver and out of the open handles, and nothing else |
| VectorSafety.OpensOrSays | blobly/transport/vector_shim.h:700-872 | An open succeeds if and only if no condition fails, and is refused with the first that does, by code: the loader's and the driver's answers, which channels have open handles and whether one holds the access, and how the channel really runs |
| VectorSafety.HandedOutReleases | blobly/transport/vector_shim.h:806-870 | The port, channel and generation an open hands out are those of its handle, and closing with them releases it |
| VectorSafety.RecordIffHeld | blobly/transport/vector_shim.h:475-500 | A record exists if and only if a handle is open on its channel, and every open handle finds it under its own generation |
| VectorSafety.OthersCloseKeepsRecord | blobly/transport/vector_shim.h:494-500 | Closing any port but the owner of a record in force leaves it in force, less the closed port's own reference |
| VectorSafety.OwnerCloses | blobly/transport/vector_shim.h:480-492 | The owner's close leaves a stale record exactly when siblings are open, and none otherwise |
| VectorSafety.ClosedOwnsNothing | blobly/transport/vector_shim.h:1210-1232 | A closed handle number owns nothing, so the driver may hand it out again at once |
| VectorSafety.NeverFull | blobly/transport/vector_shim.h:357-363 | With one bit per channel there is always a slot for a channel without a record |
| VectorTable.PinTable.Forget | blobly/transport/vector_shim.h:451-467 | Dropping a slot moves the last row into it whole, all nine fields |
| VectorTable.HoldsCompacted | blobly/transport/vector_shim.h:451-467 | That removes one record from the map the rows hold and keeps every other |
| VectorTable.HoldsAppended | blobly/transport/vector_shim.h:419-426 | A row appended for a mask without one adds exactly that record |
| VectorTable.HoldsReplaced | blobly/transport/vector_shim.h:427-437 | A row rewritten in place changes exactly that record |
| VectorTable.PinTable.Find | blobly/transport/vector_shim.h:407-411 | The slot found is the record's; none is found if and only if there is none |
| VectorTable.PinTable.Note | blobly/transport/vector_shim.h:416-439 | Noting refines the map's, and fails if and only if the table is full and the channel new |
| VectorTable.PinTable.Ref | blobly/transport/vector_shim.h:446-449 | Counting a port refines the map's |
| VectorTable.PinTable.Admits | blobly/transport/vector_shim.h:810-837 | The answer to a port without access is the map's, code by code |
| VectorTable.PinTable.Unref | blobly/transport/vector_shim.h:475-500 | A release refines the map's, through either branch of the code |
| VectorTable.Backend.ConfigureFirst | blobly/transport/vector_shim.h:749-806 | The branch with access refines the state machine's |
| VectorTable.Backend.JoinExisting | blobly/transport/vector_shim.h:807-838 | The branch without access refines the state machine's |
| VectorTable.Backend.Finish | blobly/transport/vector_shim.h:854-872 | Activation refines it, with the reference dropped where it fails |
| VectorTable.Backend.Open | blobly/transport/vector_shim.h:700-872 | The whole open on the arrays is the state machine's open |
| VectorTable.Backend.Close | blobly/transport/vector_shim.h:1210-1232 | The whole close on the arrays is the state machine's close |
| VectorReader.RxPort.Read | blobly/transport/vector_shim.h:1073-1149 | It returns the first traffic in queue order, takes nothing it does not return but what it reports as skipped, fails exactly when a poll fails and with its code, polls at least once and no oftener than for each event skipped and signal consumed; it never answers nothing before its time, and is still waiting or polling only while there was time left at its last look at the clock, between its last two polls, and in its last wait; it parks only with no event queued, unless a signal is owed for it |
| VectorReader.RxPort.PollOnce | blobly/transport/vector_shim.h:1082-1147 | Once round that loop |
| VectorReader.RxPort.Rest | blobly/transport/vector_shim.h:1128-1147 | It waits only on a queue found empty, for what is left of the time, and polls again only for a signal |
| VectorReader.RxPort.Wait | blobly/transport/vector_shim.h:1146-1147 | A wait that is left parked has time left and no event queued but one whose signal is owed; one that times out ran its time; one that is woken consumed a signal |
| VectorReader.CountsDropped | blobly/transport/vector_shim.h:1119-1127 | Skips and errors stay exactly the events dropped and the error records among them |
| VectorReader.CountsJoined | blobly/transport/vector_shim.h:1070-1081 | Reads in a row report between them what one account of all they dropped would |
| CanFdCodec.DlcForLen | blobly/transport/vector_shim.h:319-328 | The code chosen is the smallest whose length holds the payload; none is if and only if it is over 64 bytes |
| CanFdCodec.DlcGrows | blobly/transport/vector_shim.h:297-310 | A larger code is a larger length |
| CanFdCodec.DlcInverse | blobly/transport/vector_shim.h:297-328 | The two functions are inverse exactly on the legal sizes |
| CanFdCodec.CodesOnce | blobly/transport/vector_shim.h:319-328 | No length has two minimal codes |
| CanFdCodec.OtherLengths | blobly/transport/vector_shim.h:297-310 | A classic code is its own length, eight at most, and a remote frame carries no bytes |
| CanFdCodec.WriteFd | blobly/transport/vector_shim.h:880-922 | Refusals by code, and otherwise the event encodes the request and the reported length is the wire's |
| CanFdCodec.RefusedAs | blobly/transport/vector_shim.h:890-896 | Refused, each by its code, are a remote FD frame, a classic one with a bit-rate switch, and a payload too long for its kind; everything else goes |
| CanFdCodec.DecodeV4 | blobly/transport/vector_shim.h:1007-1068 | The decoder into the caller's buffer is its specification and touches no byte past the length |
| CanFdCodec.WhatIsTraffic | blobly/transport/vector_shim.h:966-1030 | On both kinds of port traffic is what was received without an error and not this port's own; errors of either direction count as errors |
| CanFdCodec.HeaderRoundTrip | blobly/transport/vector_shim.h:897-901 | What was written reads back with its flags, with its id exactly when that fits 29 bits, with its kind exactly when the id has no flag bit, as none that fits has |
| CanFdCodec.FlaggedIdTurnsExtended | blobly/transport/vector_shim.h:897-901 | A standard id with the flag bit comes back as an extended frame with another id |
| CanFdCodec.PayloadRoundTrip | blobly/transport/vector_shim.h:1045-1067 | Its payload reads back zero-extended to the smallest legal size, exact at a legal size; a remote frame keeps its requested length |
| CanFdCodec.PortKindsAgree | blobly/transport/vector_shim.h:966-1068 | A classic frame decodes the same on a classic port and on an FD one |
| TimerGrid.PastGrid | python/blobly/events.py:175-181 | The closed form is stepping one period at a time to the first point after |
| TimerGrid.ClosedFormSteps | python/blobly/events.py:178-181 | The same, as arithmetic |
| TimerGrid.StaysOnGrid | python/blobly/events.py:175-181 | A timer on its grid stays on it and never moves back |
| TimerGrid.PeriodsUnique | python/blobly/events.py:178-179 | The number of periods skipped is the only one that reaches the first point after |
| EventHistory.MatchingExactly | python/blobly/events.py:318-319 | A frame's handlers are exactly the registered ones that hear it |
| EventHistory.WhoHears | python/blobly/events.py:318-319 | A handler hears its own channel only: every frame, or one identifier in either kind, or one frame |
| EventHistory.FrameTakenUp | python/blobly/events.py:231-237 | A frame is taken up only with nothing pending, and keeps the account of calls |
| EventHistory.HandlerCalled | python/blobly/events.py:157-173 | Passing a handler before calling it keeps the account |
| EventHistory.OnePending | python/blobly/events.py:76-81 | At most one frame is ever pending |
| EventHistory.CallsOnceAndInOrder | python/blobly/events.py:157-173 | Calls increase by frame, then by handler: no pair is called twice and no handler hears a later frame before an earlier one |
| EventHistory.EveryHandlerCalled | python/blobly/events.py:157-173 | Without exceptions, a settled history has called every handler registered at the time and matching, of every frame, and nothing else |
| EventHistory.TimerMoved | python/blobly/events.py:175-181 | Moving a timer keeps it on its registration grid |
| EventHistory.TimerFired | python/blobly/events.py:183-193 | A fire keeps the log: due, not inside its own callback, at a grid point not fired before |
| EventHistory.MovedOn | python/blobly/events.py:175-193 | Over any stretches no timer moves but by being fired, or inside its own callback |
| EventHistory.NewsTellsNews | python/blobly/events.py:148-155 | What a handler is told of its samples: known states only, never the same twice running |
| EventHistory.NewestTold | python/blobly/events.py:148-155 | After a sample that shows a known state, that is the last it was told |
| EventHistory.HealthSampled | python/blobly/events.py:148-155 | A sample and what it tells keep the account: each handler was told exactly its news |
| EventLoop.Loop.Fire | python/blobly/events.py:183-193 | Whatever the callback does, the timer was fired once more and ends on its grid, due after the clock, its callback closed |
| EventLoop.Loop.FireDue | python/blobly/events.py:206-210 | No timer due is left out but one inside its own callback or for the deadline, with nested runs in between |
| EventLoop.Loop.PollHealth | python/blobly/events.py:148-155 | Every handler is sampled unless the deadline passed, in time of it |
| EventLoop.Loop.SampleAndTell | python/blobly/events.py:151-155 | What is recorded is what the controller showed, and a callback is owed exactly for news |
| EventLoop.Loop.TakeFrame | python/blobly/events.py:231-237 | Taking up a frame requires and leaves the pending queue as the rule says |
| EventLoop.Loop.DispatchPending | python/blobly/events.py:157-173 | Nothing is pending after it, returned or raised |
| EventLoop.Loop.WakeAt | python/blobly/events.py:223-230 | The wait asked for is within the deadline, one second, the next poll and every due time of a timer not in its callback, and no shorter than one of them requires |
| EventLoop.Loop.HealthTurn | python/blobly/events.py:213-215 | A poll that is due is left out only for want of handlers or for the deadline; if the next has moved, a hundred milliseconds on, every handler was sampled |
| EventLoop.Loop.FireAndPoll | python/blobly/events.py:204-215 | With time left, no timer registered before is due by the turn's first reading but inside its own callback, and health was polled if it was due |
| EventLoop.Loop.Prepare | python/blobly/events.py:204-222 | The same up to the wait, with nothing pending |
| EventLoop.Loop.FrameTurn | python/blobly/events.py:223-237 | The frame a wait read is the next taken up, for exactly the handlers registered by then that match it, and the call that took it is recorded with the run's deadline |
| EventLoop.Loop.WaitFrame | python/blobly/events.py:231 | The frame a wait brings came by a call the contract of WaitOn allows; with ideal hooks it is the first to come within the budget, and without one the whole budget passed and none came |
| EventLoop.Loop.WaitOnChannels | python/blobly/events.py:231 | The wait counts its budget from a later reading than the run's, and its call keeps what WaitOn proves: one call with one channel, a look in time with several |
| EventLoop.Loop.WaitIdeally | python/tests/test_events.py:111-126 | The wait of the tests' model: the first frame that comes within the budget, when it comes |
| EventLoop.Loop.TakeUpFrame | python/blobly/events.py:232-237 | A frame is taken up with nothing pending and dispatched, nested runs included |
| EventHistory.FrameLateByNoMore | python/blobly/events.py:228-231 | The call that took a recorded frame was neither made nor left waiting past the run's deadline by more than what passed between the run's reading and the wait's, and past it only in a wait that overruns the run |
| Deadlines.LateByNoMore | python/blobly/events.py:229-231 | Seen from the run's deadline no call, and no driver's wait in it, is later than the time between the two readings |
| Deadlines.LateIff | python/blobly/events.py:342-384 | A wait may call late if and only if, with one channel, it begins at the deadline or later or its whole milliseconds end past it; with several, its own deadline lies past the run's or, without a budget, it begins no earlier |
| Deadlines.InTimeIfPrompt | python/blobly/events.py:342 | It does not if it begins when the run read its clock, nor with the time between to spare, nor, with one channel, within the fraction that is slept |
| EventLoop.LateFrame | python/blobly/events.py:216-237 | For any channels, any run of at most a second and any beginning of its wait that overruns it, a run that takes a frame up by a call made or left waiting past its deadline |
| EventLoop.Loop.Turn | python/blobly/events.py:204-239 | One turn keeps everything, fires what is due, polls health, and is over exactly with the deadline past |
| EventLoop.Loop.Run | python/blobly/events.py:195-239 | A nested or outer run keeps all accounts: timers, health and waits are taken up only before its deadline, frames only by calls in time of their wait; it returns at or after its deadline, and stopped between callbacks it has time left; with ideal hooks it returns at the deadline, or when a callback ends that ran to it, and if none did, and nothing was forgotten or raised, it has taken up every frame that came before, no timer registered before is due before it, each that was having been fired, and every health handler was sampled in its last hundred milliseconds |
| EventLoop.HearAll | python/tests/test_events.py:6-11 | Any program and then a run, with ideal hooks: when no callback ran to the deadline and none raised, it ends at the deadline with every frame that came before it taken up in order and every matching handler called |
| EventLoop.Loop.Callback | python/blobly/events.py:68-239 | Any callback, to any depth, keeps the accounts and closes what it opened, ends only by returning or raising, and upsets nothing unless one of its choices does; every call accounted for is begun, and everything chosen is done |
| EventLoop.Loop.Perform | python/blobly/events.py:68-147 | What a callback chooses is done, exactly: registrations, refusals, runs and forgetting |
| EventLoop.Play | python/blobly/events.py:68-239 | Any program from a new loop: calls once and in order, and when it ends without exceptions exactly the handlers registered when each frame was taken up, and matching it, were called |
| WaitOn.CallKeepsBudget | python/blobly/events.py:342-354 | With a budget no call is made once its deadline passed, and none is asked to wait past it or for more than a C int |
| WaitOn.Waiter.WaitOn | python/blobly/events.py:329-391 | The frame returned is the only one taken, its channel's first, by one call with one channel and by a look in time with several; no channel with a frame within the looks' bound is nearer the position unless it errs, and every channel passed over has its first frame nearer by the bound; a wait without budget misses none; no sleep goes past the deadline; a sleep is refused only with several channels and a budget; where only time passes it brings exactly the first frame a look comes to |
| WaitOn.NearestFirst | python/blobly/events.py:374-384 | A channel whose first frame came nearer by a look's bound had none within it |
| WaitOn.Waiter.WaitSingle | python/blobly/events.py:342-367 | The same for the only channel: the driver waits the whole milliseconds, the rest is slept; nothing is answered before the time only after an error, twenty milliseconds later, or at once where records are left behind a look's bound or one call cannot be asked for the whole wait |
| WaitOn.LateCall | python/blobly/events.py:342-384 | For any channels, budget and beginning that overrun a deadline, a wait that takes a frame past it, the driver keeping to the time it was asked for |
| WaitOn.Waiter.Round | python/blobly/events.py:370-384 | One look at each in turn from the position, told apart by whether one stopped at its bound; where only time passes, and too little to end it, it brings exactly the first frame a look comes to |
| WaitOn.Waiter.BetweenRounds | python/blobly/events.py:385-391 | Looks go on only before the deadline, at once if a look stopped at its bound and after one slice of sleep, or what is left, if none did; the slice is negative exactly if nothing was left over, the first reading was before the deadline and the second past it |
| WaitOn.Waiter.ServeTurns | python/blobly/events.py:368-391 | Over any waits, a channel with a frame queued behind a records, at distance d of n, is among the first d + n * (a / bound) + 1 served, if it does not err |
| WaitOn.ServingApproaches | python/blobly/events.py:375-384 | Serving a channel brings every channel past it exactly that much nearer |
| WaitOn.SlotAt | python/blobly/events.py:375 | The k-th look is at the channel k steps from the position |
| WaitOn.FairServed | python/blobly/events.py:384 | One more frame served keeps that promise to every channel with a frame queued |
| WaitOn.ServedInTurn | python/blobly/events.py:368-391 | Such a channel is served as soon as promised |
| WaitOn.TurnsWithin | python/blobly/events.py:374-384 | Within the bound that is the distance alone |
| WaitOn.Waiter.TakeFrom | python/blobly/events.py:379 | A look brings a frame exactly if one is within its bound, and is spent exactly if it stopped there |
| WaitOn.Waiter.WaitTurns | python/blobly/events.py:369-391 | Never refused without a budget; and refused whenever the deadline falls between the two readings after a first round that is empty and in time |
| WaitOn.SomeSliceIsRefused | python/blobly/events.py:385-389 | For any two or more channels and any budget, a wait that is refused its sleep |
| WaitOn.BeyondTheBound | python/blobly/events.py:374-384 | For any bound, a channel whose frame lies just beyond it is passed over for one further on |
| SlicedWait.Waits.Sliced | python/blobly/events.py:259-275 | The first answer is returned and nothing asked after it; the clock is read again after every call, and each part is the whole milliseconds left by then, a hundred at most, so none is past the end and none for no time unless the whole wait is; nothing is answered only once the time is up, its last fraction slept, and never by a wait for ever |
| OnThread.RunKeeps | python/blobly/events.py:278-315 | Every interleaving keeps the account of the flags, the box and the call |
| OnThread.CalledAtMostOnce | python/blobly/events.py:288-296 | The call is made at most once |
| OnThread.HookAskedOfABegunWorker | python/blobly/events.py:304-308 | The hook is asked only of a worker that began, by an interrupted caller |
| OnThread.EachRoundAsks | python/blobly/events.py:305-309 | In every round of its loop with the call begun and not done the hook is asked, whatever the worker does meanwhile |
| OnThread.UninterruptedFindsTheOutcome | python/blobly/events.py:313-315 | A caller nothing interrupted leaves with the answer if and only if the call returned one, and with the error if and only if it or the attaching raised |
| OnThread.InterruptedRaises | python/blobly/events.py:302-312 | One that was interrupted raises: the first exception to land, unless another escaped |
| OnThread.EscapesIff | python/blobly/events.py:302-312 | An exception escapes if and only if it lands outside the loop's guarded body once the first was caught, or the hook raises it |
| OnThread.GivesUpOnlyWhen | python/blobly/events.py:303-310 | A caller with a hook gives up only with the call done, or once a second has passed with its thread not begun |
| OnThread.StartMayHaveForked | python/blobly/events.py:300-303 | An interrupt inside start() may find the thread there, or not |
| OnThread.LeavesNoCallBehind | python/blobly/events.py:302-312 | An interrupted caller with a hook, its further interrupts held back, raises the first and leaves only once the call has returned or can never be made |
| OnThread.CallOutstanding | python/blobly/events.py:302-312 | Exactly when a caller that left has a call under way or to come; and then a hook was missing or not waited for |
| OnThread.EscapeLeavesTheCallBehind | python/blobly/events.py:305 | An interrupt on the loop's condition leaves the call behind |
| FlashRendezvous.RunKeeps | python/blobly/flash.py:135-195 | Every interleaving keeps the account of queue, events and cancel flag |
| FlashRendezvous.ReportedInOrder | python/blobly/flash.py:148-173 | What was reported is a prefix of what the engine said, each step once and in its order |
| FlashRendezvous.EngineWaitsForTheCall | python/blobly/flash.py:138-142 | While progress is called, the engine waits for that very call: one at a time, and no block meanwhile |
| FlashRendezvous.CancelledBeforeItGoesOn | python/blobly/flash.py:163-171 | Once progress raised, the engine leaves its callback only with the cancel flag up, unless an interrupt landed between the raise and the cancel |
| FlashRendezvous.RaiseStopsTheTransfer | python/blobly/flash.py:163-171 | No block is sent after progress raised, whatever follows, unless an interrupt lands between the raise and the cancel |
| FlashRendezvous.BlockFollowsIff | python/blobly/flash.py:165-168 | From between the raise and the cancel a block can follow if and only if the plan has one left |
| FlashRendezvous.SkippedCancelSendsABlock | python/blobly/flash.py:165-168 | A flash in which a block follows the raise |
| FlashRendezvous.ReportIsComplete | python/blobly/flash.py:195-199 | A caller told it succeeded was told everything, and every block was sent |
| FlashRendezvous.RaisesIff | python/blobly/flash.py:186-199 | A caller that leaves raises if and only if an interrupt or its progress function upset it or the session failed, and is told of a success otherwise |
| FlashRendezvous.JoiningCancels | python/blobly/flash.py:186-193 | A caller on its way out cancels a session that has begun, and no block follows |
| FlashRendezvous.EscapesIff | python/blobly/flash.py:163-194 | A further interrupt escapes if and only if it lands while the first trouble is dealt with, and skips the cancel if and only if it lands before it |
| FlashRendezvous.NothingForNothing | python/blobly/flash.py:138-195 | Every act that changes more than the cancel flag leaves less to do |
| FlashRendezvous.SomeoneGoesOn | python/blobly/flash.py:138-195 | Unless the engine is stuck in a callback nobody will release, one of the two threads can go on until both are done |
| FlashRendezvous.NeitherWaitsForEver | python/blobly/flash.py:138-195 | From wherever it stands a flash can come to its end without a further interrupt if and only if its engine is not stuck |
| FlashRendezvous.SticksIff | python/blobly/flash.py:138-195 | Without a further interrupt the engine can get stuck if and only if its caller left without releasing it and a progress call is under way or comes before it would stop |
| FlashRendezvous.EveryScheduleEnds | python/blobly/flash.py:138-195 | Every endless schedule without a further interrupt, in which both threads keep acting, brings a flash to its end unless its engine can get stuck, which it cannot until an interrupt escapes |
| FlashRendezvous.Stranded | python/blobly/flash.py:138-142 | A stuck engine stays where it is, whatever happens |
| FlashRendezvous.EscapeStrandsTheEngine | python/blobly/flash.py:189-194 | A second interrupt before the release leaves the engine in its callback for good |
| FlashRendezvous.LeavesItBehindIff | python/blobly/flash.py:186-194 | A caller that leaves by itself leaves its engine's thread behind if and only if that has not marked itself started |
| FlashRendezvous.InterruptedStartFlashesOn | python/blobly/flash.py:186-194 | For any plan, an interrupt inside start() after which the whole flash is sent, never cancelled |
| SignalBits.RawValue | sut/dbc_oracle.py:62-77 | Both walks read a range of a plain integer, zero past the payload, for every start and length |
| SignalBits.IntelWalk | sut/dbc_oracle.py:64-69 | The Intel walk reads the little-endian integer's bits |
| SignalBits.MotorolaWalk | sut/dbc_oracle.py:70-76 | The sawtooth reads one contiguous range of the zero-extended big-endian integer |
| SignalBits.SawtoothIsNext | sut/dbc_oracle.py:75 | Its step is always the next bit from the payload's top down |
| SignalBits.FieldIsArithmetic | sut/dbc_oracle.py:62-77 | Such a range is a division and a remainder |
| SignalBits.LittleEndianBits | sut/dbc_oracle.py:66-69 | The integer's bits are the payload's, byte by byte |
| SignalBits.BigEndianBits | sut/dbc_oracle.py:71-75 | The same from the top down |
| SignalBits.SetSignal | sut/can_sut.py:126-135 | The field's bits become the value's modulo its length, every other bit stays, also where Python raises half way for want of a byte; and exactly then it raises |
| SignalBits.PackedReadsBack | sut/can_sut.py:126-135 | What was packed reads back modulo its length |
| SignalBits.OthersUntouched | sut/can_sut.py:126-135 | A signal that shares no bit reads as before |
| SignalBits.DisjointCommute | sut/can_sut.py:126-135 | Signals that share no bit can be packed in either order |
| SignalBits.SignedReadsBack | sut/dbc_oracle.py:80-84 | A signed value in range reads back if and only if it is not negative or shorter than 64 bits |
| SignalBits.UnsignedReadsBack | sut/dbc_oracle.py:80-84 | An unsigned value that fits reads back, whatever its length |
| SignalBits.LongNegativeLost | sut/dbc_oracle.py:80-84 | Every negative value of 64 bits comes back larger by 2 to the 64 |
| SignalBits.PhysicalReadsBack | sut/dbc_oracle.py:80-84 | The physical value decoded is the one packed, for unsigned signals and for signed ones below 64 bits |
| SignalBits.EncodePowertrain | sut/can_sut.py:138-151 | The six signals of the message each read back modulo their length, with nothing set past the last |
| KvaserSilent.Channel.SetSilentAll | blobly/transport/kvaser_shim.h:287-333 | Its calls in order, its code, the mode and the bus it leaves, given the driver's answers |
| KvaserSilent.ZeroMeansInForce | blobly/transport/kvaser_shim.h:287-333 | After a zero the mode is in force if and only if it was before, or the handle the driver obeys was among those asked and no other handle was on the bus; every handle asked is back on |
| KvaserSilent.ZeroNotInForce | blobly/transport/kvaser_shim.h:287-333 | For any handles, a switch that returns zero and leaves the mode as it was |
| KvaserSilent.ChangedOnlyIfObeyed | blobly/transport/kvaser_shim.h:296-327 | The mode changes only through the handle the driver obeys, with every handle off the bus first; one that will not go off leaves it as it was |
| KvaserSilent.RefusalIsReported | blobly/transport/kvaser_shim.h:314-327 | A refusal by the obeyed handle is not masked by the others' empty successes |
| KvaserSilent.FirstErrorIsFirst | blobly/transport/kvaser_shim.h:322-332 | The code returned is the first error in order, 0 exactly without one |
| KvaserSilent.Channel.Open | blobly/transport/kvaser_shim.h:162-200 | A refused open leaves no trace of its handle; no handle goes on the bus before its mode was accepted, and a first opener's is in force when it does |
| KvaserSilent.Channel.SetOne | blobly/transport/kvaser_shim.h:154-157 | A silent request that cannot be made is refused, a normal one left alone |
| J1939Listener.Listener.Handle | python/blobly/j1939.py:123-131 | Another handle begins another reading with nothing kept of the last; the same one changes nothing |
| J1939Listener.Listener.PullFaults | python/blobly/j1939.py:133-140 | Every fault the engine has is taken, in order, kept or counted once as lost |
| J1939Listener.OneTaken | python/blobly/j1939.py:137-140 | The account with one more fault: the kept ones stay the newest 1024 |
| J1939Listener.Listener.Faults | python/blobly/j1939.py:224-232 | It delivers what is kept, once, and keeps nothing |
| J1939Listener.FaultsConserved | python/blobly/j1939.py:133-140 | Every fault taken was delivered once or lost once |
| J1939Listener.Listener.Take | python/blobly/j1939.py:142-162 | Which messages it takes, and whether it returns them, from its answers, exactly; also where one of them fails |
| J1939Listener.TakeLosesIff | python/blobly/j1939.py:142-162 | A take loses messages if and only if the engine held one, the first two answers succeed and a later one of that take fails |
| J1939Listener.LosesIff | python/blobly/j1939.py:164-190 | Of the answers a whole wait asks for, whichever fail: it raises if and only if one fails, and loses messages if and only if the first that fails comes after its first message |
| J1939Listener.CallLosesIff | python/blobly/j1939.py:164-190 | The same of a call, which may attach to another handle first |
| J1939Listener.TookExactly | python/blobly/j1939.py:152-160 | What a take returns is everything, or ends at the first match |
| J1939Listener.Listener.Sift | python/blobly/j1939.py:175-182 | The match and the count of what came before it |
| J1939Listener.Listener.Until | python/blobly/j1939.py:164-190 | What it took is what it passed over and what it returns, nothing passed over matching; and what a call that raises has taken, exactly |
| J1939Listener.MessagesCanBeLost | python/blobly/j1939.py:164-190 | Two scripts that lose a message, one in its take and one in the read after it |
| J1939Listener.LoseOne | python/blobly/j1939.py:197-222 | A call of expect_pgn that fails with a message gone |
| J1939Listener.AskableIff | python/blobly/j1939.py:204-209 | What can be asked for is exactly what some 29-bit identifier carries, from an address |
| J1939Listener.Listener.ExpectPgn | python/blobly/j1939.py:197-222 | It consumes exactly the prefix that ends at the first message of the group and source asked for, counts the rest of it by group and source, and leaves what follows queued and the faults kept; it fails, and fails with messages gone, exactly at the answers that decide it |
| J1939Listener.Listener.Messages | python/blobly/j1939.py:192-195 | It consumes exactly what it returns, and where it fails exactly what it had taken |
| J1939Listener.Listener.Dropped | python/blobly/j1939.py:262-267 | The engine's count and every fault lost here, where the library answers |
| ErrorText.ThreadState.ErrSet | cmd/libblobly/host.h:37-47 | The text stored is the message cut at the place described, and the last call's codes are forgotten |
| ErrorText.LongestWhole | cmd/libblobly/host.h:37-47 | For valid UTF-8 (section 4 of RFC 3629) that is the longest prefix of whole characters within 4095 bytes |
| ErrorText.BeginsIff | cmd/libblobly/host.h:37-47 | What is counted as a character is exactly the encoding of a Unicode scalar value (section 3 of RFC 3629) |
| ErrorText.ContinuesIff | cmd/libblobly/host.h:43 | A byte continues a character if and only if its top two bits are 10 |
| ErrorText.NeverMuchShorter | cmd/libblobly/host.h:37-47 | For any bytes it is a prefix no shorter than the bound less three |
| ErrorText.WholePrefix | cmd/libblobly/host.h:43 | A prefix of valid text is whole if and only if the byte after it does not continue a character |
| ErrorText.NearBoundary | cmd/libblobly/host.h:43 | Three bytes back always reach a boundary of valid text |
| ReviewVerdict.ScanOnce | scripts/codex_review.py:580-694 | Its result is the verdict defined without regard to order |
| ReviewVerdict.ScanFailures | scripts/codex_review.py:642-668 | The failure reported is the newest of the replies and a summary that says failed |
| ReviewVerdict.OnlyNewItemsDecide | scripts/codex_review.py:471-474 | Two looks that differ in old items or in order only give the same result, numbers and edit times being distinct |
| ReviewVerdict.OrderDoesNotDecide | scripts/codex_review.py:580-694 | In particular any order of the lists |
| ReviewVerdict.OldItemsDecideNothing | scripts/codex_review.py:908-937 | With the four baselines a request takes, the verdict is the same without every item that was there, but for summaries edited since |
| ReviewVerdict.NamesNothingOld | scripts/codex_review.py:908-937 | And what it names was not there, but for a summary edited since |
| ReviewVerdict.SomeVerdict | scripts/codex_review.py:580-694 | There is a verdict on any look |
| ReviewVerdict.ReviewSays | scripts/codex_review.py:585-621 | A review's verdict: it answers the request for the head; clean only without a badge, a link into the head, or a comment that names it, and findings only with one |
| ReviewVerdict.CommentSays | scripts/codex_review.py:623-641 | A comment says clean only where no review answers, and marks the head as reviewed |
| ReviewVerdict.FailureSays | scripts/codex_review.py:643-682 | A failure is a reply that says so, by its reason, or a summary of the head edited since that says failed |
| ReviewVerdict.PendingSays | scripts/codex_review.py:684-694 | Nothing is pending where a review, a clean comment or a failing reply has answered |
| ReviewVerdict.MarkerSays | scripts/codex_review.py:658-694 | A pending verdict's marker is what the summary of the head last edited since says, and none exactly without one |
| ReviewVerdict.ForHeadIff | scripts/codex_review.py:546-561 | A review is for the head if it hangs on it, and, hanging on none, if it marks it or links into it |
| ReviewState.ParseState | scripts/codex_review.py:370-377 | The state read is the lines' |
| ReviewState.WriteState | scripts/codex_review.py:380-398 | The text written is the keys' in order, with the time |
| ReviewState.SurvivesIffOneLine | scripts/codex_review.py:370-398 | Every value is read back if and only if none holds a line break |
| ReviewState.LineBreakLosesValue | scripts/codex_review.py:370-398 | A value with a line break, and a key that loses it |
| ReviewState.BaselinesSurvive | scripts/codex_review.py:370-451 | A baseline is read back as the number it was |

## Left out

- Every engine rule written in V (ISO-TP, UDS, DoIP, E2E, DBC, J1939 transport, NM, LIN): `bb.h` and the Python wrappers only forward to it. The engine's answers are parameters.
- DLL and symbol loading, XL structure layouts, channel assignment, discovery, named mutexes, sockets, and the GUI.
- Clocks, drivers, GitHub and user callbacks: each is a script or a parameter of answers, over all of which the statements range.
- Steps of another application inside one locked Vector open or close: they come between calls. The notification handle is a flag of the reader; xlCanSetChannelMode's result is ignored by the code and has no state here.
- Widths: rates, masks and generations are unbounded numbers here; a 64-bit generation or 32-bit count does not wrap in a process's life. `silent`, an int in C compared as one, is a boolean.
- Times are real numbers, so rounding in the timer grid and in the waits is not modelled; the loop in `_past_grid` that repairs it has nothing to do here.
- `_to_read`, the choice of channels a wait reads, and `_want`, the checks of a filter's arguments: any channel list and any filter may be given. A negative budget of `wait_on` with one channel is passed on as it is.
- `_wait_frame` in the loop is a wait with the contract `WaitOn` proves, its looks before the last left out; time between a clock reading and the act it allows is not bounded anywhere, but with ideal hooks, where no time passes beside waits and callbacks.
- EventLoop.HearAll: the frames to come are those on the channels the runs read; a callback that reads a channel itself is not modelled. With `wait_on` under the loop what comes in its last sleep stays for the next reader.
- WaitOn.Waiter.ServeTurns: fairness is for channels that do not answer an error meanwhile; the bound of the looks is a parameter, and the loop of waits is any caller's.
- OnThread.LeavesNoCallBehind: for interrupts that do not escape the loop's guarded body, because the statement is false of one that does (EscapeLeavesTheCallBehind).
- FlashRendezvous.NeitherWaitsForEver: the engine's plan is a list of notes, blocks and progress calls, and its own timeouts end it as a failure at any step.
- FlashRendezvous.RaiseStopsTheTransfer: the session reads its cancel flag before each block; what it does otherwise is the engine's.
- KvaserSilent.Channel.Open: bitrates have no state here beyond the driver's answer, and a handle number is not handed out twice while it is open.
- J1939Listener.Listener.Until: what a message or fault holds besides its group, source and kind is carried along; time is up when the script ends, and the last take stands for the one after the last frame.
- ErrorText.ThreadState.ErrSet: a message is the bytes before its first zero, as strlen sees it.
- ReviewVerdict.ScanOnce: what the summary marker's regular expression and JSON yield comes with the item, times are numbers in their order, and errors of the GitHub calls are not modelled.
- ReviewVerdict.OnlyNewItemsDecide: needs distinct numbers and distinct edit times, without which the first of equals in the list decides.
- The file system, the lock and the stale-request rule of the review script: reclaiming a stale lock is not one atomic step, so exclusion is not something the code decides.
- `parse_dbc`, number formatting, the sine values of the powertrain message: only their raw values enter.
