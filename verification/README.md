# Verified models of CX hardware drivers

A Dafny project about four pieces of the CX control-system drivers. Each driver's record is a
class whose methods follow the C handlers; each method is proved equal to a step of a state
machine on values, and the lemmas are about that state machine over all inputs and all runs.

**DAC controller** (`AdvDac`, `SlowMotion`, `OutRanges`, `DacState`, `TableCheck`, `DacSpec`,
`DacDevice`, and the results in `DacSafety`, `DacWrites`, `DacRequests`, `MoveCount`,
`MoveProgress`, `MoveSpeed`, `TableBounds`, `TableModes`, `TableCommands`, `Upload`). A channel is moved to its set-point by a trapezoidal
("kinetic") or linear ramp, one step per heartbeat, each step waiting for the readback of the
one before. A table of values can take channels away from the ramp: it is checked against the
speed limits, channels are locked and preset, a file is uploaded in small packets, and the
device is then followed through LOAD, ACTV, RUNN and PAUS. `DacSpec.Next` and `DacSpec.Sends`
are the state machine; a run (`DacSpec.History`) interleaves heartbeats, readbacks, client
writes, table commands, replies, command callbacks and resets in any order. The device
constants are parameters (`AdvDac.Params`), with what the proofs need of them in
`AdvDac.Sound`; those of CANDAC16 and CDAC20 are written out.

**Power-supply sequencer** (`IstState`, `IstDevice`, and the results in `IstSafety`,
`IstRuns`, `IstGuards`, `IstChart`, `IstReadings`). The twenty states of the reversible supply,
with the state engine of `vdev.c` modelled as it is: nested `vdev_set_state`, undelayed chains, guards asked on readings and on
the work heartbeat. Only the clock is left open: each event says whether the delay is over.

**MQTT names** (`NameBuffer`): two passes over a namespace, measuring and then filling one
allocated buffer.

**List walker** (`Walker`): a list of set-points sent one after another, each after the
previous was reached, compared with an observer that only sees values and readbacks.

## What turned out not to hold

Each of these has a lemma with the exact condition or a witness:

- A linear move whose speed is below HEARTBEAT_FREQ has a step of 0 and never ends
  (`FinishesIffLive`), and a set-point starts such moves (`SetpointIsStalled`). Rate writes can
  set such a speed on devices with THE_QUANT below HEARTBEAT_FREQ, for instance CDAC20
  (`RatesAreLiveIff`). A kinetic move at such a speed does end, but exceeds the limit of 0 by
  creeping (`KineticLimitIff`).
- A positive TAC written during a linear move stalls it (`TacWriteStallsLinearMove`); which
  moves a TAC write leaves able to end is `TacWriteFinishesIff`.
- A soft reset sets the mode to NONE and leaves channels locked (`ResetKeepsLocksIff`); they
  stay locked until one of a few events frees them (`FreesIff`, `StrandedUntilFreed`).
- A command callback that comes late can change the mode outside the graph, which happens
  exactly when its mode no longer suits the present one (`EdgeIff`); it can enter RUNN without
  a table (`LateStartRunsNothing`).
- The answer to CLOSE is not matched to the upload: with a device that answers truthfully and
  in order, a table becomes active exactly when no older answer of another size was owed at the
  activation (`HonestLoadIff`). ACTIVATE right after the end of a table is erased by the answer
  to the erasure (`EarlierCloseErases`).
- Determining the state of the supply does not make the outputs suit it. RESET_STATE lands in
  IS_OFF with something left on exactly when OPR is off and something was on
  (`ResetMeansOffIff`), for instance between switching on and OPR (`ResetDuringSwitchOn`); when
  the outputs are in order afterwards, in IS_ON too, is `ResetIsCalmIff`. SWITCH_ON left raised
  that way survives an ordered switch-off (`ResetLeavesSwitchOnRaised`, `SwitchOffFromOn`).
- It also ignores standing interlocks: a supply that reports on is taken for IS_ON
  (`KeepsIlkSafeIff`, `ResetDespiteInterlock`), and it may take the other polarity while OUT is
  not 0 (`SpoilsSignIff`).
- A REVERSE bit stays raised when its pulse is cut short (`ReverseBitDroppedIff`).
- The walker's configuration checks the old tolerance instead of the new one, so a negative
  tolerance is accepted and no walk can then end by itself (`ConfiguredFinishesIff`).

## Model

| member | source | states |
|---|---|---|
| `SlowMotion.DoCalcMovement` | hw4cx/include/advdac_slowmo_kinetic_meat.h:40-91 | the accumulation loop ends and yields the plan whose braking distance is the whole acceleration, at most half of the way; the cap at the speed is never reached; only a zero speed is refused |
| `SlowMotion.BrakingDistance` | hw4cx/include/advdac_slowmo_kinetic_meat.h:64-87 | the whole plan in terms of the settings: top speed spd/HEARTBEAT_FREQ, acceleration, starting speed, and the braking distance k*a2 + a1*k*(k-1)/2 with k = ceil((mxs-a2)/a1), or half of the way if that is less |
| `SlowMotion.CapIsIdle` | hw4cx/include/advdac_slowmo_kinetic_meat.h:79-81 | one more acceleration below the top speed cannot exceed the configured speed |
| `SlowMotion.KineticLimitIff` | hw4cx/include/advdac_slowmo_kinetic_meat.h:64-87 | the planned speed respects the per-heartbeat limit exactly when the speed is at least HEARTBEAT_FREQ; below it the move creeps by 1 |
| `SlowMotion.BeatAdvances` | hw4cx/include/advdac_slowmo_kinetic_meat.h:152-236 | a heartbeat goes towards the target by at most the step, never past it, and is final exactly when the step covers what remains |
| `SlowMotion.SpeedIsUnimodalStep` | hw4cx/include/advdac_slowmo_kinetic_meat.h:178-201 | per heartbeat: while more than dcd remains the speed rises until it is mxs, afterwards it falls until it is mns |
| `AdvDac.ClipInRangeIff` | hw4cx/include/advdac_slowmo_kinetic_meat.h:297-305 | clipping a request keeps it in the device range for all requests if and only if the configured window meets that range |
| `AdvDac.ClipIsNearest` | hw4cx/include/advdac_slowmo_kinetic_meat.h:297-305 | the clipped value is the admissible value nearest to the request |
| `OutRanges.ReportOutRanges` | hw4cx/include/advdac_slowmo_kinetic_meat.h:94-142 | the reported segments tile the channels in order, give each its own effective range, and neighbours differ |
| `OutRanges.EncodingIsUnique` | hw4cx/include/advdac_slowmo_kinetic_meat.h:94-142 | there is only one such report for given ranges |
| `OutRanges.RangeIsClip` | hw4cx/include/advdac_slowmo_kinetic_meat.h:94-142 | the reported range is the one that set-points are clipped to |
| `DacDevice.DacDevice.constructor` | hw4cx/drivers/can/src/candac16_drv.c:275-341 | the record after initialization: nothing moves, mode NONE, nothing sent |
| `DacDevice.DacDevice.HandleSlowmoHbt` | hw4cx/include/advdac_slowmo_kinetic_meat.h:144-245 | every moving, acknowledged channel gets one ramp write and one read request, in channel order; other channels keep their record |
| `DacDevice.DacDevice.Heartbeat` | hw4cx/drivers/can/src/candac16_drv.c:363-377 | the ramp runs only when something moves, then table reads and the status request once a second |
| `DacDevice.DacDevice.HandleTableHbt` | hw4cx/include/advdac_cankoz_table_meat.h:335-353 | reads of affected channels while RUNN; a status request when the counter reaches HEARTBEAT_FREQ and a table is present |
| `DacDevice.DacDevice.HandleSlowmoReadDac` | hw4cx/include/advdac_slowmo_kinetic_meat.h:247-281 | a readback acknowledges the write, corrects dsr beyond the quant, and ends a final move |
| `DacDevice.DacDevice.HandleSlowmoOutWrite` | hw4cx/include/advdac_slowmo_kinetic_meat.h:283-379 | clip, then write at once or begin a slow move; locked channels are left alone |
| `DacDevice.DacDevice.InitiateSlow` | hw4cx/include/advdac_slowmo_kinetic_meat.h:344-374 | the slow path stores the plan, starts from cur, counts the channel once; its duplicate immediate write is unreachable |
| `DacDevice.DacDevice.HandleSlowmoOutImmWrite` | hw4cx/include/advdac_slowmo_kinetic_meat.h:381-414 | an immediate write stops the move and sends the clipped value |
| `DacDevice.DacDevice.HandleOutRead` | hw4cx/include/advdac_slowmo_kinetic_meat.h:283-293 | a read request goes out unless the channel is locked |
| `DacDevice.DacDevice.HandleSlowmoOutRateWrite` | hw4cx/include/advdac_slowmo_kinetic_meat.h:416-429 | a rate below the quant is stored as no limit |
| `DacDevice.DacDevice.HandleSlowmoOutTacWrite` | hw4cx/include/advdac_slowmo_kinetic_meat.h:431-445 | the acceleration time is stored within -1..1000 |
| `DacDevice.DacDevice.SetTmode` | hw4cx/include/advdac_cankoz_table_meat.h:66-99 | the mode, the command-channel table of the mode with the unicast restriction, and the message |
| `DacDevice.DacDevice.EraseTable` | hw4cx/include/advdac_cankoz_table_meat.h:101-127 | the file is recreated empty, affected channels are re-read, all marks and locks go, the mode is NONE |
| `DacDevice.DacDevice.CheckTable` | hw4cx/include/advdac_cankoz_table_meat.h:163-281 | succeeds exactly for an acceptable table; a refusal explains itself and changes marks and status only |
| `DacDevice.DacDevice.DoTabActivate` | hw4cx/include/advdac_cankoz_table_meat.h:131-333 | the whole activation: refused, done at once for one step, or locked, preset and uploaded |
| `DacDevice.DacDevice.LockChannels` | hw4cx/include/advdac_cankoz_table_meat.h:288-297 | affected channels are locked and taken from the ramp, with the count kept right |
| `DacDevice.DacDevice.SendPresets` | hw4cx/include/advdac_cankoz_table_meat.h:299-305 | initial values go out for the affected channels, in order |
| `DacDevice.DacDevice.UploadFile` | hw4cx/include/advdac_cankoz_table_meat.h:316-332 | CREATE, the file in packets of at most 7 bytes with separators, CLOSE |
| `DacDevice.DacDevice.HandleFileClose` | hw4cx/include/advdac_cankoz_table_meat.h:355-380 | short packets are ignored; in LOAD the size decides between ACTV and erasing |
| `DacDevice.DacDevice.HandleDacStat` | hw4cx/include/advdac_cankoz_table_meat.h:382-429 | device status moves the mode, with the end of execution first |
| `DacDevice.DacDevice.OnSendTabCtlCmd` | hw4cx/include/advdac_cankoz_table_meat.h:431-461 | a sent STOP erases the table, other sent commands switch the mode; PAUSE re-reads the channels |
| `DacDevice.DacDevice.HandleTableCommand` | hw4cx/include/advdac_cankoz_table_meat.h:511-535 | a command is obeyed only when its channel is not disabled |
| `DacDevice.DacDevice.HandleTabIdWrite` | hw4cx/include/advdac_cankoz_table_meat.h:536-546 | the table number is kept within 0..15 and only changes without a table |
| `DacDevice.DacDevice.HandleTimesWrite` | hw4cx/include/advdac_cankoz_table_meat.h:547-568 | times are cut to the buffer and clamped, only without a table |
| `DacDevice.DacDevice.HandleValsWrite` | hw4cx/include/advdac_cankoz_table_meat.h:575-613 | values are cut to the buffer and clipped except for the markers in step 0, only without a table |
| `DacDevice.DacDevice.DoSoftReset` | hw4cx/drivers/can/src/candac16_drv.c:220-237 | a soft reset only sets the mode to NONE |
| `DacDevice.DacDevice.OnDeviceFound` | hw4cx/drivers/can/src/candac16_drv.c:343-361 | a device reset forgets received values and sets the mode to NONE |
| `DacSafety.InvInitially` | hw4cx/drivers/can/src/candac16_drv.c:275-341 | the joint invariant holds at power-up |
| `DacSafety.StepInv` | hw4cx/include/advdac_slowmo_kinetic_meat.h:247-414 | every event keeps the joint invariant: num_isc counts the moving channels, a moving channel past its final write sits at its target unacknowledged, locked channels do not move, stored values and targets are in range |
| `DacSafety.RunInv` | hw4cx/include/advdac_cankoz_table_meat.h:101-461 | the joint invariant in every state of every run, late callbacks and resets included |
| `DacSafety.RunLocks` | hw4cx/include/advdac_cankoz_table_meat.h:116-126 | in runs without a reset a lock means affected and a loaded table; modes NONE and PREP have no lock |
| `DacSafety.EnabledIff` | hw4cx/include/advdac_cankoz_table_meat.h:68-87 | in which modes each command is obeyed, in every reachable state; PAUSE and RESUME with controls set with unicast |
| `TableCommands.UnicastControls` | hw4cx/include/advdac_cankoz_table_meat.h:66-99 | PAUSE and RESUME are enabled by entering RUNN and PAUS exactly with unicast |
| `TableCommands.CommandIsSent` | hw4cx/include/advdac_cankoz_table_meat.h:511-535 | START, STOP, PAUSE and RESUME that are obeyed are sent and change nothing yet; others do nothing |
| `TableCommands.SentIs` | hw4cx/include/advdac_cankoz_table_meat.h:431-461 | a command that is sent puts the table into its mode and asks for the status; STOP leaves no table and no lock; PAUSE re-reads the channels |
| `TableCommands.CommandTakesEffect` | hw4cx/include/advdac_cankoz_table_meat.h:431-535 | over a run: a command given in its mode and sent next has its effect, STOP in ACTV, RUNN or PAUS ending in NONE with no lock |
| `TableCommands.StatusIsFollowed` | hw4cx/include/advdac_cankoz_table_meat.h:382-429 | each device status takes its edge, exactly: start, pause, resume and end of execution |
| `TableCommands.DeviceFoundIs` | hw4cx/drivers/can/src/candac16_drv.c:343-361 | finding the device tells about unicast; a reset device leaves no known value and mode NONE |
| `DacSafety.StoredValsOk` | hw4cx/include/advdac_cankoz_table_meat.h:588-609 | stored table values are in range or markers in step 0, whatever is written |
| `DacSafety.ResetKeepsLocksIff` | hw4cx/drivers/can/src/candac16_drv.c:220-237 | a reset keeps the lock discipline exactly when nothing was locked |
| `DacSafety.FreesIff` | hw4cx/include/advdac_cankoz_table_meat.h:116-313 | a locked channel loses its lock in one event if and only if the event is DROP, a STOP that is sent, the end of execution, an answer of the wrong size, or the activation of another table that is over at once or starts further down; a reset is none of these |
| `DacSafety.LockedUntilFreed` | hw4cx/include/advdac_cankoz_table_meat.h:288-313 | over a run: locked all along if and only if no such event happens |
| `DacSafety.StrandedUntilFreed` | hw4cx/drivers/can/src/candac16_drv.c:220-237 | a channel locked at a reset is in mode NONE, and stays locked and deaf to set-points exactly until the first event that frees it; DROP is one |
| `DacWrites.RampIff` | hw4cx/include/advdac_slowmo_kinetic_meat.h:149-244 | a heartbeat writes to exactly the moving, acknowledged channels |
| `DacWrites.PresetIff` | hw4cx/include/advdac_cankoz_table_meat.h:299-305 | an activation presets exactly the channels of the table, each to the value of step 0, or to its present value for a start marker |
| `DacWrites.RunWritesOk` | hw4cx/include/advdac_slowmo_kinetic_meat.h:207-370 | in every run each write is within its limit of its reference and never reaches a locked channel |
| `DacWrites.NearLastReadback` | hw4cx/include/advdac_slowmo_kinetic_meat.h:307-333 | a limited write stays within the limit plus the quant of the last readback, unless it is a same-sign decrease |
| `DacWrites.AllWritesInRange` | hw4cx/include/advdac_slowmo_kinetic_meat.h:297-305 | from power-up no value ever written leaves MIN_ALWD_VAL..MAX_ALWD_VAL |
| `DacRequests.NearestIsClip` | hw4cx/include/advdac_slowmo_kinetic_meat.h:297-305 | the value kept for a request is the admissible value nearest to it, and no other |
| `DacRequests.SetpointIff` | hw4cx/include/advdac_slowmo_kinetic_meat.h:307-373 | a set-point is written at once, ending any move, exactly if there is no limit, or it is near or shrinks the output and no kinetic move runs; otherwise a move from the present value to it begins |
| `DacRequests.ImmediateIs` | hw4cx/include/advdac_slowmo_kinetic_meat.h:395-413 | an immediate set-point writes the nearest admissible value and ends any move |
| `DacRequests.SettingsAre` | hw4cx/include/advdac_slowmo_kinetic_meat.h:416-445 | a rate is stored as given or as no limit, exactly below the quant; the time is the nearest in -1..1000 |
| `DacRequests.ReadRequestIs` | hw4cx/include/advdac_slowmo_kinetic_meat.h:283-293 | a read request goes out for an unlocked channel and changes nothing |
| `DacRequests.ReadbackIs` | hw4cx/include/advdac_slowmo_kinetic_meat.h:247-281 | a readback is the new present value, acknowledges the write, keeps the ramp within the quant and ends a final move |
| `DacRequests.RunKnows` | hw4cx/drivers/can/src/candac16_drv.c:343-361 | in every run a value is known exactly if it was read back since the last device reset, and is the last one read |
| `DacRequests.StoredTimesAre` | hw4cx/include/advdac_cankoz_table_meat.h:536-568 | number and times are clamped, at most maxSteps of them |
| `DacRequests.StoredValsAre` | hw4cx/include/advdac_cankoz_table_meat.h:575-613 | values are the nearest admissible, markers in step 0 excepted |
| `DacRequests.LoadedIgnores` | hw4cx/include/advdac_cankoz_table_meat.h:536-613 | with a table nothing of it can be written |
| `DacRequests.HeartbeatReadsIff` | hw4cx/include/advdac_cankoz_table_meat.h:335-353 | a heartbeat reads back exactly what it wrote and, while a table runs, its channels |
| `DacRequests.ActivationReadsIff` | hw4cx/include/advdac_cankoz_table_meat.h:299-305 | an accepted activation writes and reads back exactly the channels of the table |
| `DacRequests.EraseIs` | hw4cx/include/advdac_cankoz_table_meat.h:101-127 | erasing re-reads exactly the channels of the table and releases them; the table itself goes only with DROP |
| `DacRequests.AsksIff` | hw4cx/include/advdac_cankoz_table_meat.h:344-352 | a heartbeat requests the status exactly with a table and a full counter |
| `DacRequests.StatusOnceASecond` | hw4cx/include/advdac_cankoz_table_meat.h:344-352 | over a run with a table: requests times HEARTBEAT_FREQ equal the heartbeats, up to the counter |
| `MoveCount.BeatProgress` | hw4cx/include/advdac_slowmo_kinetic_meat.h:149-244 | one acknowledged heartbeat more: distance covered stays between k*lo and k*hi, and the final one lands on the target |
| `MoveProgress.RunProgress` | hw4cx/include/advdac_slowmo_kinetic_meat.h:144-281 | the same over any undisturbed stretch of a run of the whole controller |
| `MoveProgress.MoveBoundsFor` | hw4cx/include/advdac_slowmo_kinetic_meat.h:144-281 | from any moment of a live move: monotone to exactly the target, within the two bounds on acknowledged heartbeats, then over |
| `MoveProgress.SetpointIsReached` | hw4cx/include/advdac_slowmo_kinetic_meat.h:344-374 | a set-point that starts a move whose speed makes a step, every kinetic one included, reaches it in max(1,ceil(D/top))..max(1,ceil(D/start)) acknowledged heartbeats, one number for a linear move |
| `MoveProgress.FinishesIffLive` | hw4cx/include/advdac_slowmo_kinetic_meat.h:209-241 | an undisturbed move ends if and only if it can advance or is at its target |
| `MoveProgress.StalledBegunIff` | hw4cx/include/advdac_slowmo_kinetic_meat.h:344-374 | a set-point starts a move that cannot advance if and only if the speed is nonzero and below HEARTBEAT_FREQ, tac <= 0, and the output does not shrink |
| `MoveProgress.SetpointIsStalled` | hw4cx/include/advdac_slowmo_kinetic_meat.h:209-241 | over a run: such a set-point is never reached while nothing disturbs the move |
| `MoveProgress.DeadMove` | hw4cx/include/advdac_slowmo_kinetic_meat.h:209-241 | a move that cannot advance stays where it is |
| `MoveProgress.RatesAreLiveIff` | hw4cx/include/advdac_slowmo_kinetic_meat.h:424-426 | rate writes can never stall a linear move exactly on devices whose quant is at least HEARTBEAT_FREQ |
| `MoveProgress.TacWriteStallsLinearMove` | hw4cx/include/advdac_slowmo_kinetic_meat.h:431-445 | a positive TAC written during a linear move stalls it for good |
| `MoveProgress.TacWriteFinishesIff` | hw4cx/include/advdac_slowmo_kinetic_meat.h:431-445 | after a TAC written during a move the move ends if and only if, for a positive TAC, the stored speed is nonzero, and otherwise the speed makes a step |
| `MoveProgress.SpeedIsUnimodal` | hw4cx/include/advdac_slowmo_kinetic_meat.h:152-208 | over any undisturbed stretch the speed is unimodal around the braking distance and within mns..mxs |
| `MoveSpeed.SpeedClimbs` | hw4cx/include/advdac_slowmo_kinetic_meat.h:191-201 | over an undisturbed kinetic move: after k acknowledged heartbeats, exactly while the way of k heartbeats of climbing leaves more than dcd, that way is covered and the speed is min(mns + k*acs, top) |
| `MoveSpeed.SpeedFalls` | hw4cx/include/advdac_slowmo_kinetic_meat.h:178-190 | from the heartbeat that leaves no more than dcd on: the speed drops by mns from the top, by acs below it, never under mns |
| `MoveSpeed.ClimbClosedForm` | hw4cx/include/advdac_slowmo_kinetic_meat.h:191-201 | the way of k heartbeats of climbing is k*mns + acs*k*(k-1)/2 |
| `MoveSpeed.TopIffRampLength` | hw4cx/include/advdac_slowmo_kinetic_meat.h:191-201 | the top speed is there from heartbeat ceil((mxs-mns)/acs) on, and not before |
| `MoveSpeed.ClimbIsBraking` | hw4cx/include/advdac_slowmo_kinetic_meat.h:64-87 | climbing to the top covers exactly the distance that the plan reserves for braking |
| `MoveSpeed.TopSpeedIsReached` | hw4cx/include/advdac_slowmo_kinetic_meat.h:152-208 | from a set-point on, in terms of the settings: top speed after exactly k heartbeats, the covered way after each of them, and at the top exactly the braking distance covered |
| `TableCheck.ExplanationExists` | hw4cx/include/advdac_cankoz_table_meat.h:163-281 | every table that is not acceptable has an explanation: the first failed check |
| `TableCheck.ExplanationIsUnique` | hw4cx/include/advdac_cankoz_table_meat.h:163-281 | and only one, and an acceptable table has none |
| `TableBounds.StepLimitIff` | hw4cx/include/advdac_cankoz_table_meat.h:247-271 | the per-step speed test is exactly the bound (p+1)*n-1 on the change, with p and n given by the speed, the time, stepsPerSec and usecsInStep |
| `TableBounds.PerStepIs` | hw4cx/include/advdac_cankoz_table_meat.h:241-242 | p is 1 below 2*stepsPerSec, otherwise p*stepsPerSec <= abs(spd) < (p+1)*stepsPerSec |
| `TableBounds.StepUnitsAre` | hw4cx/include/advdac_cankoz_table_meat.h:248-249 | n is 1 below 2*usecsInStep, otherwise n*usecsInStep <= time < (n+1)*usecsInStep |
| `TableBounds.AcceptableIff` | hw4cx/include/advdac_cankoz_table_meat.h:163-281 | a table passes all the checks if and only if it has steps, some channel takes part, and each that does has the right length, a known start, a near start and steps within (p+1)*n-1, towards zero excepted for positive speeds |
| `TableBounds.Excursion` | hw4cx/include/advdac_cankoz_table_meat.h:236-281 | step k of an accepted channel is no further from zero than the start plus the sum of (p+1)*n-1 over the steps; from the start itself when the speed is negative |
| `TableBounds.ExcursionFromCur` | hw4cx/include/advdac_cankoz_table_meat.h:200-281 | the same counted from the output before activation, plus spd/HEARTBEAT_FREQ |
| `TableModes.ActivationIff` | hw4cx/include/advdac_cankoz_table_meat.h:161-297 | ACTIVATE proceeds exactly for an acceptable table; a refusal sends nothing and changes marks and status only |
| `TableModes.TableIsFrozen` | hw4cx/include/advdac_cankoz_table_meat.h:536-613 | from activation until the mode is NONE the table, its file and the locked channels stay the same |
| `TableModes.EdgeIff` | hw4cx/include/advdac_cankoz_table_meat.h:431-461 | the mode change of any event is an edge of the graph (with what takes each edge, the returns to NONE included) if and only if it is not the callback of a waiting command whose mode does not suit the present mode |
| `TableModes.RunEdgeIff` | hw4cx/include/advdac_cankoz_table_meat.h:431-461 | the same for every event of every run |
| `TableModes.RunFollowsEdges` | hw4cx/include/advdac_cankoz_table_meat.h:66-99 | in runs where a command is sent before anything else happens, every mode change is one of the edges, across resets too |
| `TableModes.RunHeld` | hw4cx/include/advdac_cankoz_table_meat.h:288-297 | in such runs without a reset exactly the affected channels are locked while a table is loaded |
| `TableModes.LateStartRunsNothing` | hw4cx/include/advdac_cankoz_table_meat.h:431-475 | a START sent after a DROP makes the mode RUNN with no table and no lock |
| `Upload.UploadRoundTrip` | hw4cx/include/advdac_cankoz_table_meat.h:316-332 | what the device reassembles is the file, every data packet carrying 1 to 7 bytes, and it then owes one more answer, with the size |
| `Upload.ChunkCount` | hw4cx/include/advdac_cankoz_table_meat.h:324-331 | the file takes ceil(size/7) data packets, each with its separator |
| `Upload.LoadEnds` | hw4cx/include/advdac_cankoz_table_meat.h:369-379 | over a run: LOAD becomes ACTV exactly when the answer gives the size of the file, otherwise NONE with no lock |
| `Upload.HonestLoadIff` | hw4cx/include/advdac_cankoz_table_meat.h:355-380 | against a device that answers every CLOSE truthfully and in order: the table becomes active if and only if at the activation no answer was owed, or the oldest one owed gives the size of the new file; otherwise NONE with no lock |
| `Upload.EarlierCloseErases` | hw4cx/include/advdac_cankoz_table_meat.h:101-127 | a table activated again after its end, before the CLOSE of the erasure is answered, is erased by that answer |
| `Upload.FileIs` | hw4cx/include/advdac_cankoz_table_meat.h:101-333 | what the device holds and owes after any event: an empty file after an erasure, the new one after an upload, unchanged otherwise |
| `Upload.PacketsName` | hw4cx/include/advdac_cankoz_table_meat.h:101-333 | every packet that names a table names the present one |
| `IstDevice.IstDevice.constructor` | sw4cx/drivers/ist_cdac20_drv.c:558-651 | the record after initialization is the state that runs start from |
| `IstDevice.IstDevice.EngineSetState` | 4cx/src/lib/vdev/vdev.c:383-443 | entering a state and following the undelayed chain, nested entries included |
| `IstDevice.IstDevice.OnReading` | 4cx/src/lib/vdev/vdev.c:53-125 | a reading: become ready, driver reaction, then the engine's |
| `IstDevice.IstDevice.OnHeartbeat` | 4cx/src/lib/vdev/vdev.c:204-227 | an expired delay leads to the next state if its guard agrees |
| `IstDevice.IstDevice.OnSubordLost` | 4cx/src/lib/vdev/vdev.c:158-202 | losing the device forgets all readings and leads to UNKNOWN |
| `IstDevice.IstDevice.DriverSodcCb` | sw4cx/drivers/ist_cdac20_drv.c:661-697 | interlocks trip, a vanishing OPR cuts off |
| `IstDevice.IstDevice.WriteSetpoint` | sw4cx/drivers/ist_cdac20_drv.c:772-806 | the clipped set-point is kept; on or going up it is sent, or the reversal begins |
| `IstDevice.IstDevice.WriteCommand` | sw4cx/drivers/ist_cdac20_drv.c:807-819 | a command is obeyed if the guard of its state agrees |
| `IstDevice.IstDevice.WriteResetState` | sw4cx/drivers/ist_cdac20_drv.c:820-825 | RESET_STATE re-determines the state |
| `IstSafety.TryNextOk` | sw4cx/drivers/ist_cdac20_drv.c:481-511 | every automatic transition keeps the invariant and the ordered outputs |
| `IstSafety.UpdateOk` | sw4cx/drivers/ist_cdac20_drv.c:661-697 | so does every reading; an interlock outside UNKNOWN and the reset stages leads to INTERLOCK with everything at 0 |
| `IstRuns.InitiallyOk` | sw4cx/drivers/ist_cdac20_drv.c:558-651 | the invariant holds of that state, whatever the device was left with |
| `IstRuns.StepOk` | sw4cx/drivers/ist_cdac20_drv.c:661-831 | so does every event; the polarity taken changes only with OUT at 0 |
| `IstChart.FollowsChart` | 4cx/src/lib/vdev/vdev.c:53-443 | the engine with its nested entries and undelayed chains leads, for every event from every state, where a flat state chart says |
| `IstChart.CutsOffIff` | sw4cx/drivers/ist_cdac20_drv.c:690-697 | in every run CUT_OFF is entered exactly by an OPR that vanishes in SW_ON_DRP_ON, SW_ON_UP or IS_ON, with everything at 0 |
| `IstChart.TripsIff` | sw4cx/drivers/ist_cdac20_drv.c:670-689 | in every run INTERLOCK is entered exactly by an interlock outside the reset stages once the picture is complete, with everything at 0 |
| `IstChart.EntersCheckIff` | sw4cx/drivers/ist_cdac20_drv.c:470-479 | RV_CHK is entered exactly from RV_DRP_DO after its delay with a stable reading of the required polarity |
| `IstChart.SignIsRead` | sw4cx/drivers/ist_cdac20_drv.c:209-219 | the polarity taken is what the reading shows whenever it is looked at, and never changes otherwise |
| `IstChart.OutHasReadSign` | sw4cx/drivers/ist_cdac20_drv.c:340-371 | in every run a nonzero OUT has the sign of the reading that the polarity came from |
| `IstReadings.RunReads` | 4cx/src/lib/vdev/vdev.c:53-125 | in every run the guards see the last value of each reading, and a reading counts as received exactly since the last loss |
| `IstReadings.CompletesIff` | 4cx/src/lib/vdev/vdev.c:53-125 | the picture is complete exactly when all twelve readings have come |
| `IstReadings.LatchIs` | sw4cx/drivers/ist_cdac20_drv.c:256-300 | an interlock is latched by a nonzero reading and cleared exactly by the reset sequence or the command |
| `IstReadings.IsetIsNearest` | sw4cx/drivers/ist_cdac20_drv.c:772-786 | the set-point kept is the admitted one nearest to the request |
| `IstReadings.SetpointIs` | sw4cx/drivers/ist_cdac20_drv.c:209-236 | what each event does to the set-point |
| `IstRuns.EverythingSentIsOk` | sw4cx/drivers/ist_cdac20_drv.c:327-468 | in every run: OUT is wanted magnitude with the sign taken, which is that of the stable reading it came from, or 0; ENABLE:=1 only interlock-free at zero current; SWITCH_ON:=1 only from SW_ON_ENABLE; ENABLE:=0 in the ordered switch-off only at zero current; REVERSE raised only after OUT=0 and OUT_CUR=0; reset lines raised and dropped in their stages |
| `IstRuns.KeepsCalmIff` | sw4cx/drivers/ist_cdac20_drv.c:404-434 | an event keeps the ordered outputs if and only if it is no loss of the device and no RESET_STATE that finds outputs not suiting the state to be determined |
| `IstRuns.OffMeansOff` | sw4cx/drivers/ist_cdac20_drv.c:404-434 | in runs whose events keep the order, off states have everything at 0, a nonzero OUT means up or on, enabled and right in sign and magnitude, and SWITCH_ON is raised only in its stage |
| `IstRuns.PolarityChangesAtZero` | sw4cx/drivers/ist_cdac20_drv.c:436-479 | in every run the polarity taken changes only with OUT at 0, even if ISET is rewritten mid-reversal, except at the moments of SpoilsSign; without determining the state it changes only in RV_DRP_DO |
| `IstRuns.SpoilsSignIff` | sw4cx/drivers/ist_cdac20_drv.c:195-236 | an event changes the polarity taken and leaves OUT at another value than 0 if and only if it is RESET_STATE, or the reading that completes the picture and does not trip, while OUT is not 0 and the other polarity is read |
| `IstRuns.InterlockTrips` | sw4cx/drivers/ist_cdac20_drv.c:670-689 | once the picture is complete, the completing reading included, any interlock reading leaves everything at 0; outside the reset stages it trips in the same event |
| `IstRuns.StaysDead` | sw4cx/drivers/ist_cdac20_drv.c:310-339 | after a trip ENABLE and SWITCH_ON stay 0 until a switch-on that its guard lets through, RESET_STATE included |
| `IstRuns.ResetMeansOffIff` | sw4cx/drivers/ist_cdac20_drv.c:195-236 | after RESET_STATE: IS_OFF means everything at 0 if and only if OPR was on or everything was at 0 before |
| `IstRuns.ResetIsCalmIff` | sw4cx/drivers/ist_cdac20_drv.c:195-236 | the outputs are ordered after RESET_STATE, in IS_OFF or IS_ON, exactly when they, the readings and the set-point agree beforehand |
| `IstRuns.CompletionIsCalmIff` | sw4cx/drivers/ist_cdac20_drv.c:195-236 | the same for the reading that completes the picture, an interlock aside |
| `IstRuns.ResetDuringSwitchOn` | sw4cx/drivers/ist_cdac20_drv.c:820-825 | RESET_STATE between switching on and OPR leads to IS_OFF with ENABLE, and in its stage SWITCH_ON, at 1 |
| `IstRuns.SwitchOffFromOn` | sw4cx/drivers/ist_cdac20_drv.c:404-411 | switching off from IS_ON leaves SWITCH_ON at 0 exactly when it was 0 |
| `IstRuns.ResetLeavesSwitchOnRaised` | sw4cx/drivers/ist_cdac20_drv.c:820-825 | RESET_STATE during the switch-on pulse ends, after an ordered switch-off, in IS_OFF with SWITCH_ON at 1 |
| `IstRuns.ReverseBitDroppedIff` | sw4cx/drivers/ist_cdac20_drv.c:452-468 | in RV_SET_DO the raised REVERSE bit is dropped by an event if and only if it is the heartbeat that finds the delay over |
| `IstRuns.StepLogs` | sw4cx/drivers/ist_cdac20_drv.c:154-157 | the log of sent values only grows |
| `IstReadings.RunLines` | sw4cx/drivers/ist_cdac20_drv.c:154-157 | in every run the value taken for each line is the one sent to it last |
| `IstReadings.RecordIs` | sw4cx/drivers/ist_cdac20_drv.c:154-157 | a value is logged with the circumstances in which it is sent |
| `IstGuards.KeepsIlkSafeIff` | sw4cx/drivers/ist_cdac20_drv.c:670-689 | on or going up only with all interlocks at zero: every event keeps this, except determining the state of a supply that reports on while an interlock stands |
| `IstGuards.RunIlkSafe` | sw4cx/drivers/ist_cdac20_drv.c:310-339 | the same over runs without such a determination |
| `IstGuards.ResetDespiteInterlock` | sw4cx/drivers/ist_cdac20_drv.c:820-825 | such a determination by RESET_STATE ends in IS_ON with the interlock standing |
| `IstGuards.KeepsBitsIff` | sw4cx/drivers/ist_cdac20_drv.c:436-468 | a raised REVERSE bit asks for the polarity the supply does not have: every event keeps this, except determining a polarity that the bit does not suit |
| `IstGuards.BitsExclude` | sw4cx/drivers/ist_cdac20_drv.c:436-468 | over runs without such a determination the two REVERSE bits are never raised together |
| `NameBuffer.IsDuplicate` | sw4cx/drivers/mqtt_mapping_drv.c:102-104 | a line is skipped exactly when an earlier line has its channel |
| `NameBuffer.WriteName` | sw4cx/drivers/mqtt_mapping_drv.c:127-131 | instance name, slash and translated name with terminator, nothing before them touched |
| `NameBuffer.FullNameIs` | sw4cx/drivers/mqtt_mapping_drv.c:127-131 | a full name byte by byte |
| `NameBuffer.Pass` | sw4cx/drivers/mqtt_mapping_drv.c:94-160 | both passes count the same channels and bytes; the second fills the map and the buffer within bounds; a missing name stops either |
| `NameBuffer.BuildMapping` | sw4cx/drivers/mqtt_mapping_drv.c:94-160 | the outcome in each case, and the finished map and buffer |
| `NameBuffer.MappingIsRight` | sw4cx/drivers/mqtt_mapping_drv.c:102-134 | a listed channel maps to the C string instname/first-name with dots as slashes, an unlisted one stays unmapped |
| `NameBuffer.NamesAreDisjoint` | sw4cx/drivers/mqtt_mapping_drv.c:119-134 | names of different lines never overlap, terminators included |
| `Walker.WalkerDevice.constructor` | sw4cx/drivers/iset_walker_drv.c:147-182 | the record after initialization, with the tolerance that configuration leaves |
| `Walker.WalkerDevice.OnOutCur` | sw4cx/drivers/iset_walker_drv.c:204-223 | a readback near the current value sends the next one or ends the walk |
| `Walker.WalkerDevice.WriteListChannel` | sw4cx/drivers/iset_walker_drv.c:265-278 | the list is cut to MAX_STEPS and only changes when not walking |
| `Walker.WalkerDevice.WriteStart` | sw4cx/drivers/iset_walker_drv.c:304-309 | START from STOPPED begins the walk, an empty list stops at once |
| `Walker.WalkerDevice.WriteStop` | sw4cx/drivers/iset_walker_drv.c:315-320 | STOP ends a walk |
| `Walker.StepOk` | sw4cx/drivers/iset_walker_drv.c:83-127 | while walking the values sent are the list up to cur_step and the list is frozen; a walk that ends by itself has sent all of it |
| `Walker.CurOk` | sw4cx/drivers/iset_walker_drv.c:204-223 | exactly a readback within q of the current value sends the next one or ends the walk with the whole list sent |
| `Walker.CommandsAre` | sw4cx/drivers/iset_walker_drv.c:265-320 | START begins with the first value, STOP ends, the list is the first MAX_STEPS values |
| `Walker.ReadyIff` | sw4cx/drivers/iset_walker_drv.c:204-223 | the walker is known exactly after both readings and until the supply is lost |
| `Walker.RunIsGood` | sw4cx/drivers/iset_walker_drv.c:204-325 | in every run an independent observer of starts, values and readbacks sees only proper walks |
| `Walker.ToleranceIs` | sw4cx/drivers/iset_walker_drv.c:153-173 | the configured tolerance is the number given, or 305 |
| `Walker.FinishesIffTolerant` | sw4cx/drivers/iset_walker_drv.c:204-223 | some run without STOP and loss of the supply ends a walk if and only if q is not negative |
| `Walker.ConfiguredFinishesIff` | sw4cx/drivers/iset_walker_drv.c:153-173 | in a driver as configured a walk can end by itself exactly unless the number given is negative, which is accepted as q |
| `Walker.StuckForever` | sw4cx/drivers/iset_walker_drv.c:204-223 | with a negative q every such run leaves the walk at its value |

## Left out

- CAN, CAMAC and VME transport, packet retries and the send queue: a packet sent is an entry of the trace, and a table command waits in the queue until an event sends it.
- Data returned to clients (OUT, OUT_CUR, command-channel states, the sr channels of the supply): reports only; the flag fst is kept.
- `CrunchTableIntoFile`: device-specific; the file it would build is a parameter of ACTIVATE, of at most `maxFileBytes` bytes.
- Conversion between volts and DAC codes: readbacks are arbitrary values; where closeness matters it is a hypothesis of the lemma.
- Integer width: values are mathematical integers; the magnitude of the most negative 32-bit speed is not modelled.
- The loop that marks affected channels starts one past the last channel (hw4cx/include/advdac_cankoz_table_meat.h:170); the model starts at the last channel, as all the other loops do.
- Inheritance of channel 0's settings by the other channels at initialization, parsing of configuration text, and checks of client data types.
- Table values of a channel are a sequence of exactly the stored length; what lies in the buffer beyond it is never read.
- `DacDevice.DacDevice.SetTmode`: a NULL message is modelled as passing the present status on.
- Readings of the supply that are only passed on (DCCT1, DAC, U2, ADC channels): they change no state.
- Progress of the supply: only safety is claimed, since the clock is open.
- `NameBuffer.BuildMapping`: does not model a failing allocation or the channel types copied from the hardware database.
- Interlock names, descriptions and logging.
- The sibling supply drivers and devices: same shape, or finite conversions.
