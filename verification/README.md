# Recording, pairing and broadcast: a verified model

Three processes, the core manager, the hardware manager and the record manager, exchange D-Bus signals
over FIFO channels, and each has its own event queue and threads. This project models the parts in which
they race and proves what every run keeps. `dafny verify dfyconfig.toml` checks it.

Objects that the source updates in place are classes whose methods are proved against specification
functions; the same functions are the steps of transition systems. An action is one locked section, one
write of a shared variable or one message; an action whose thread has nothing to do changes nothing, so
every sequence of actions is a run, and theorems are about all of them. What the operating system,
libdbus, BlueZ, ALSA or a client decides is a parameter of an action. Fields marked as history are
read by no step.

- **Recording** (`RecordHandler`, `RecordWorker`, `RecordProtocol`, `RecordSafety`, `RecordProgress`,
  `RecordRefusals`, `RecordCancel`, `RecordTruth`, `RecordLockstep`, `RecordConservation`, `RecordInserts`).
  Core's STOPPED, RECORDING, PROCESSING machine, the two threads of the record worker with their program
  counters, and all queues and channels between them. "No command is ever lost" is false of the code: a
  START stored between a session's final notification and `state_ = IDLE` is overwritten. The exact
  condition is proved, with the run that shows it. So are the conditions under which core does not know of
  a running session, and under which an accepted CANCEL is honoured.
- **Timers and pairing** (`Timer`, `TimerProtocol`, `TimerProgress`, `TimerDrains`, `BluezPath`,
  `BluetoothAgent`, `Wire`, `CommandPipeline`, `HardwareHandler`, `Pairing`, `PairingTimeouts`,
  `PairingAnswers`, `PairingReplies`, `PairingProgress`, `PairingCovered`). The timer
  service under interleaving, the agent's pending requests and references, and the way of a client's
  command through two queues and a channel, composed into one system. An answer for one device can stop
  another device's timer, because the timeout handler leaves its map entry and ids are reused at once;
  it is proved when, and a run shows it. Such a request is forgotten; the requests that the managers
  answer by themselves are characterised exactly.
- **WebSocket broadcast** (`WebSocketSession`, `WebSocketServer`, `BroadcastOrder`, `BroadcastProgress`,
  `LateJoiners`, `ProcessingShown`, `TemperatureShown`). Write queues with one outstanding write, the
  order of broadcasts, and snapshots for late joiners that are read flag by flag while handlers write; and
  from every run all members can come to receive and show everything.
- **Power and scan** (`HardwareSwitches`, `SwitchProtocol`). Core's state machine for a switch, composed
  with hardwaremgr's two threads, which report failures at once and successes only when the adapter has
  changed. It is proved exactly when core shows what the adapter is, and a run leaves it waiting.
- **Data** (`EventQueue`, `Wav`, `AlsaHelper`, `DBThreadPool`). The event queue and the drain loops,
  the bytes of a WAV file against an independent reader of the WAVE form (chapter 3 of Multimedia
  Programming Interface and Data Specifications 1.0), the capture session, and the database tasks.

## Model

| member | source | states |
|---|---|---|
| `RecordHandlers.ReplaySettles` | coremgr/src/Controller/RecordHandler.cpp:69-131 | replaying any stream of notifications onto any state depends on the last one that is not a filter notification |
| `RecordHandlers.RecordHandler.constructor` | coremgr/src/Controller/RecordHandler.cpp:12-13 | core starts STOPPED with nothing sent |
| `RecordHandlers.RecordHandler.StartRecord` | coremgr/src/Controller/RecordHandler.cpp:12-29 | the new state and the commands sent are those of the state machine used in every protocol theorem |
| `RecordHandlers.RecordHandler.StopRecord` | coremgr/src/Controller/RecordHandler.cpp:31-48 | same for stop |
| `RecordHandlers.RecordHandler.CancelRecord` | coremgr/src/Controller/RecordHandler.cpp:50-67 | same for cancel |
| `RecordHandlers.RecordHandler.NotiArrives` | coremgr/src/Controller/RecordHandler.cpp:69-131 | the four notification handlers: new state, and one broadcast that repeats the notification |
| `RecordWorkers.ServeDecides` | recordmgr/src/Thread/RecordWorker.cpp:22-61 | run step by step, with or without a reset of state_ by the other thread in the midst, a command is either answered with its own notification carrying false, or taken silently with state_ and cancelRequested_ set: what it read first decides |
| `RecordWorkers.ReportFinishes` | recordmgr/src/Thread/RecordWorker.cpp:117-162 | from its final notification the thread goes back to the wait, having queued the session exactly when it saved it |
| `RecordWorkers.FinishReports` | recordmgr/src/Thread/RecordWorker.cpp:117-162 | whatever ended the capture loop, exactly one final notification goes out; the session is queued for filtering if and only if that is a STOP success |
| `RecordWorkers.RecordWorker.StartRecording` | recordmgr/src/Thread/RecordWorker.cpp:22-34 | from IDLE: RECORDING, no cancel and no message; otherwise START_NOTI false; in either case what the MainWorker thread does step by step, wherever the other thread stands and whenever it resets state_ in between |
| `RecordWorkers.RecordWorker.StopRecording` | recordmgr/src/Thread/RecordWorker.cpp:36-47 | the same for STOP: from RECORDING to IDLE and silent, otherwise STOP_NOTI false |
| `RecordWorkers.RecordWorker.CancelRecording` | recordmgr/src/Thread/RecordWorker.cpp:49-61 | the same for CANCEL: from RECORDING to IDLE, flagged and silent, otherwise CANCEL_NOTI false |
| `RecordWorkers.RecordWorker.CaptureLoop` | recordmgr/src/Thread/RecordWorker.cpp:102-114 | the loop is a run of the thread's steps with stores of accepted STOPs and CANCELs before the guard or before the body; it leaves with state_ still RECORDING only by the time limit or a capture error |
| `RecordWorkers.RecordWorker.FinishSession` | recordmgr/src/Thread/RecordWorker.cpp:116-162 | the tail of a session is the thread's steps from the loop to the wait, and state_ is IDLE after it |
| `RecordWorkers.RecordWorker.RunSession` | recordmgr/src/Thread/RecordWorker.cpp:79-163 | a failed open sends one START failure; an opened session sends START success and, once finished, exactly one final notification of the same session, filtered if and only if saved |
| `RecordProtocol.InFlightMoves` | coremgr/src/Thread/DBusReceiver.cpp:299-337 | no step loses, duplicates or reorders a notification between the record manager and core's handler |
| `RecordProtocol.CommandsMove` | recordmgr/src/Thread/MainWorker.cpp:17-69 | no step loses, duplicates or reorders a command between core's handler and the record manager's MainWorker |
| `RecordSafety.RunKeepsInv` | recordmgr/src/Thread/RecordWorker.cpp:22-162 | the inductive invariant of the protocol holds in every run |
| `RecordSafety.NoPhantomRecording` | recordmgr/src/Thread/RecordWorker.cpp:93-159 | in every run, with no hypothesis: if no session is open, replaying what is in flight onto core's state does not end in RECORDING |
| `RecordSafety.NoCommandLost` | recordmgr/src/Thread/RecordWorker.cpp:22-162 | in every run, when nothing is under way, core is STOPPED if and only if no reset of state_ overwrote a START stored after the final notification |
| `RecordSafety.NoCommandLostWithoutGapStart` | coremgr/src/Controller/RecordHandler.cpp:12-115 | hence core is never left in PROCESSING in a run in which no START is stored in the finishing gap, whatever else races |
| `RecordSafety.StuckIffOverwritten` | recordmgr/src/Thread/RecordWorker.cpp:159-162 | core waits for an answer that will never come in exactly the runs in which a reset overwrote a START stored after the final notification |
| `RecordSafety.StuckEnteredByOverwrite` | recordmgr/src/Thread/RecordWorker.cpp:162-162 | the overwriting reset is the only step into that state and always leads there |
| `RecordSafety.StuckForever` | coremgr/src/Controller/RecordHandler.cpp:12-67 | once there, no behaviour of clients, devices or threads leaves it |
| `RecordSafety.GapStoreIsLost` | recordmgr/src/Thread/RecordWorker.cpp:22-27 | a START stored before the reset is lost; the same START stored after the reset opens a session |
| `RecordSafety.StartCanBeLost` | recordmgr/src/Thread/RecordWorker.cpp:117-162 | a concrete run of one client that ends in the stuck state: "no command is ever lost" is false |
| `RecordRefusals.OpenSessionIsUnknownIffRefused` | coremgr/src/Controller/RecordHandler.cpp:69-115 | the dual of NoPhantomRecording: in every run, while a session is open and core will not be waiting, replaying what is in flight ends in STOPPED if and only if a command was refused since that session's START success, and in RECORDING otherwise |
| `RecordRefusals.DeafToStop` | coremgr/src/Controller/RecordHandler.cpp:31-67 | while core is STOPPED and a session records, clients' STOP and CANCEL go no further than core |
| `RecordRefusals.SessionCanBeUnknown` | recordmgr/src/Thread/RecordWorker.cpp:28-47 | a concrete run that ends there, with every channel empty: a STOP meets the time limit, core takes its refusal for the answer to the next START and asks again |
| `RecordProgress.AnsweredIffNotDoomed` | recordmgr/src/Thread/RecordWorker.cpp:22-162 | in every run in which core waits: the managers' own steps, with no help of a client, can bring it out of PROCESSING if and only if it is not doomed |
| `RecordProgress.DoomedIsStuckOrOverwriting` | recordmgr/src/Thread/RecordWorker.cpp:159-162 | doomed means stuck already, or a START stored in the gap is all that core waits for and only the overwriting reset is left |
| `RecordProgress.DoomedForever` | coremgr/src/Controller/RecordHandler.cpp:12-67 | no behaviour of clients, devices or threads saves a doomed core |
| `RecordCancel.FlagIsLastStore` | recordmgr/src/Thread/RecordWorker.cpp:25-52 | cancelRequested_ is what the last accepted CANCEL, or a START after it, stored |
| `RecordCancel.CancelIsHonouredIffRead` | recordmgr/src/Thread/RecordWorker.cpp:117-159 | for every session of every run: it ends cancelled if and only if the last store before its thread's one read was that of an accepted CANCEL; it is on its way to the database, or there, if and only if it has ended, the thread read before any such store, and the file was saved |
| `RecordCancel.CancelCanComeTooLate` | recordmgr/src/Thread/RecordWorker.cpp:49-53 | a concrete run in which CANCEL is taken silently while the file is being saved, and the session goes to the database |
| `RecordTruth.SuccessesAreTrue` | recordmgr/src/Thread/RecordWorker.cpp:117-159 | in every run, a STOP or CANCEL success on its way to core reports a session that really ended with it, a START success one that was opened |
| `RecordTruth.RefusalIsAFailure` | recordmgr/src/Thread/RecordWorker.cpp:28-60 | a refused command is answered last in line by its own notification carrying false, and core then is STOPPED |
| `RecordLockstep.Lockstep` | coremgr/src/Controller/RecordHandler.cpp:12-115 | if no session ends by itself and no START is handled in a finishing window: core is PROCESSING iff exactly one command, accepted request or reply is outstanding, RECORDING iff the worker captures and nothing is outstanding, and no command is rejected |
| `RecordConservation.SessionsAreConserved` | recordmgr/src/Thread/MainWorker.cpp:71-116 | for every session: it is in exactly one place between the filter queue and the database if it ended in STOP success, and in none otherwise |
| `RecordConservation.InsertedOnceAndOnlyIfSaved` | coremgr/src/Thread/DBusReceiver.cpp:324-337 | no session is inserted twice, and only a saved one is inserted |
| `RecordInserts.SavedCanBeInserted` | coremgr/src/Thread/DBusReceiver.cpp:324-337 | from every run, the managers' own steps with filters that succeed bring every saved session into the database, once, unless its filter has failed before |
| `Timers.WalkIsShort` | coremgr/src/Thread/Timer.cpp:110-116 | the wrapping search meets at most as many used ids as there are, so it stops |
| `Timers.FirstFree` | coremgr/src/Thread/Timer.cpp:96-119 | it ends at an id between 1 and INT32_MAX - 1 that is not in use, the first such on the circle |
| `Timers.Timer.SetEventQueue` | coremgr/src/Thread/Timer.cpp:92-94 | from then on timers can be started |
| `Timers.Timer.CreateNewTimerId` | coremgr/src/Thread/Timer.cpp:96-119 | -1 exactly when the table is full; otherwise the first free id from nextTimerId on, which becomes nextTimerId |
| `Timers.Timer.StartTimer` | coremgr/src/Thread/Timer.cpp:121-158 | -1 exactly without an event queue or with a full table; otherwise one new element under an id that was free, with the expiry after now |
| `Timers.Timer.StopTimer` | coremgr/src/Thread/Timer.cpp:160-175 | true exactly when the id was in the table, which loses it and nothing else |
| `Timers.Timer.ExtractExpired` | coremgr/src/Thread/Timer.cpp:37-48 | the list gets each due element once, the table keeps exactly the others |
| `Timers.Timer.PushExpired` | coremgr/src/Thread/Timer.cpp:50-56 | the events of the list are pushed in its order and the list is emptied |
| `Timers.Timer.ExecuteIfExpired` | coremgr/src/Thread/Timer.cpp:37-57 | the whole sweep: the due elements' events are pushed once each, the others stay |
| `Timers.Timer.NextSleep` | coremgr/src/Thread/Timer.cpp:59-90 | the deadline is the least expiry or 2500 ms from the clock reading, whichever is earlier |
| `TimerProtocol.ExactlyOneFate` | coremgr/src/Thread/Timer.cpp:37-57 | under any interleaving of start, stop, sweep and push, every started timer is in exactly one of: live, extracted, pushed once and not before its expiry, stopped |
| `TimerProtocol.StoppedIsNeverPushed` | coremgr/src/Thread/Timer.cpp:160-175 | if stopTimer returns true, no continuation pushes that timer |
| `TimerProtocol.ChosenIdStaysFree` | coremgr/src/Thread/Timer.cpp:139-158 | with one starting thread the id chosen under the lock is still free when its element is inserted later |
| `TimerProtocol.ChosenIdIsFirstFree` | coremgr/src/Thread/Timer.cpp:110-118 | and it is the first free id on the circle from where the last search ended |
| `TimerProtocol.LatenessBound` | coremgr/src/Thread/Timer.cpp:24-90 | with sweeps that cost no time, no timer inserted at s with expiry e is pushed before e or after max(e, s + 2500), and none still waits after that; one of 2500 ms or more is pushed at e exactly, even when a wake-up is missed |
| `TimerProgress.ClockPasses` | coremgr/src/Thread/Timer.cpp:24-35 | from every prompt run the timer thread alone can go on promptly beyond any time: a sweep, a sleep and a wake-up are always possible and time passes |
| `TimerProgress.PushedInTimeOrStopped` | coremgr/src/Thread/Timer.cpp:37-90 | in every prompt run whose clock passes max(e, s + 2500), whatever was started and stopped meanwhile, a timer that was in the table has been pushed between e and that bound, or stopped |
| `TimerProgress.EveryTimerIsPushed` | coremgr/src/Thread/Timer.cpp:24-90 | from every prompt run the timer thread alone, promptly, comes to push each timer of the table at some f with e <= f <= max(e, s + 2500) |
| `BluezPath.ReplaceInPlace` | hardwaremgr/src/BT/BluezDBus.cpp:556-556 | rewrites the buffer in place, every character and nothing else |
| `BluezPath.DeviceAddressToObjectPath` | hardwaremgr/src/BT/BluezDBus.cpp:553-559 | the path is the adapter path, "/dev_" and the address with underscores |
| `BluezPath.ExtractAddress` | hardwaremgr/src/BT/BluetoothAgent.cpp:65-73 | the address after the last "dev_" |
| `BluezPath.LastMatchRoundTrip` | hardwaremgr/src/BT/BluetoothAgent.cpp:65-73 | for every adapter path and every hex-and-colon address, last-match extraction inverts the path |
| `BluezPath.FirstMatchRoundTrip` | hardwaremgr/src/Thread/BluetoothWorker.cpp:202-206 | first-match extraction inverts it if and only if the adapter path holds no "dev_" |
| `BluezPath.PathsAreDistinct` | hardwaremgr/src/BT/BluezDBus.cpp:553-559 | no two addresses share a path |
| `BluetoothAgents.Ledger` | hardwaremgr/src/BT/BluetoothAgent.cpp:15-148 | in every run: well-formed requests are accepted, rejected, overwritten, released or pending, where accepted and rejected are counts of the replies sent and every other request got the error reply of a malformed one; no request is answered twice or while pending; exactly one reference is held to a pending request and none to others |
| `BluetoothAgents.BluetoothAgent.constructor` | hardwaremgr/src/BT/BluetoothAgent.cpp:11-13 | a new agent is the ledger's agent before any call |
| `BluetoothAgents.BluetoothAgent.HandleRequestConfirmation` | hardwaremgr/src/BT/BluetoothAgent.cpp:54-92 | the object stays the ledger's agent after the call: malformed requests get an error reply, a second request for a device replaces the first and drops its reference |
| `BluetoothAgents.BluetoothAgent.ConfirmRequest` | hardwaremgr/src/BT/BluetoothAgent.cpp:129-148 | the object stays the ledger's agent: the pending request is answered, removed and released, an unknown address changes nothing |
| `BluetoothAgents.BluetoothAgent.UnrefAll` | hardwaremgr/src/BT/BluetoothAgent.cpp:15-21 | one unref per pending request drops every reference |
| `BluetoothAgents.BluetoothAgent.ReleaseAll` | hardwaremgr/src/BT/BluetoothAgent.cpp:118-127 | afterwards nothing is pending and no reference is held |
| `EventQueues.EventQueue.PushEvent` | common/src/Event/EventQueue.cpp:8-20 | a null event is refused, any other goes to the end |
| `EventQueues.EventQueue.PopEvent` | common/src/Event/EventQueue.cpp:22-32 | the oldest event not yet popped, or null exactly when there is none |
| `EventQueues.EventQueue.HasEvent` | common/src/Event/EventQueue.cpp:34-37 | true exactly when something pushed was not popped |
| `EventQueues.EventQueue.Size` | common/src/Event/EventQueue.cpp:39-42 | pushes minus pops |
| `EventQueues.Drain` | coremgr/src/Thread/MainWorker.cpp:38-51 | while other threads push, and until it waits after the last of them, a MainWorker processes everything pushed, in the order of the pushes |
| `Wire.CStr` | common/src/DBus/ISenderFactory.cpp:67-67 | the longest NUL-free prefix |
| `Wire.MakeMsgNoti` | common/src/DBus/ISenderFactory.cpp:27-82 | the frame carries the command, the flag and every field up to its first NUL |
| `Wire.DispatchMessage` | common/src/Thread/DBusReceiverBase.cpp:77-151 | reads a frame by its signature; missing strings keep their defaults, surplus ones are dropped |
| `Wire.FrameRoundTrip` | common/src/DBus/ISenderFactory.cpp:66-73 | reading inverts writing if and only if no field holds a NUL |
| `Wire.ReadBySignature` | common/src/Thread/DBusReceiverBase.cpp:77-151 | a message is read if and only if its signature is "i" or "ibas", and as a command if and only if it is that command's frame |
| `Wire.MissingFields` | common/src/Thread/DBusReceiverBase.cpp:123-147 | fields that a frame does not bring are "0.0" for the temperature, "0" for RSSI and duration, empty elsewhere |
| `CommandPipeline.MessageMeans` | coremgr/src/Thread/WebSocket.cpp:100-157 | by a table of the clients' names of its own: a message of one of the six device operations becomes exactly that operation with its address, every other message none |
| `CommandPipeline.ValidMessagesArrive` | coremgr/src/Thread/WebSocket.cpp:40-243 | the commands with their fields reach core's queue as one event, everything else as none |
| `CommandPipeline.FrameBrings` | hardwaremgr/src/Thread/DBusReceiver.cpp:52-104 | the frame of a device operation becomes exactly that operation in hardwaremgr |
| `CommandPipeline.PipelineIsFifo` | coremgr/src/Thread/WebSocket.cpp:40-243 | in every run, pair, unpair, connect, disconnect and accept operations executed, queued in hardwaremgr, on the channel and in core's queue, concatenated, are what the clients' messages of the run ask for, in order |
| `CommandPipeline.ExecutedIsPrefix` | hardwaremgr/src/Thread/MainWorker.cpp:160-236 | with NUL-free addresses what was executed is a prefix of what the clients' messages ask for |
| `HardwareHandlers.HardwareHandler.RemoveTimerOnTimerIdMap` | coremgr/src/Controller/HardwareHandler.cpp:13-24 | whatever timer holds the stored id is stopped and the entry goes; an unknown key changes nothing |
| `HardwareHandlers.HardwareHandler.AnswerConfirmation` | coremgr/src/Controller/HardwareHandler.cpp:158-186 | the answer is sent on and the device's timer entry removed with its timer |
| `HardwareHandlers.HardwareHandler.RequestConfirmation` | coremgr/src/Controller/HardwareHandler.cpp:556-583 | a new timer of 30000 ms for the device under a free id, recorded for it; nothing exactly when the table is full or no event queue is set |
| `HardwareHandlers.HardwareHandler.ConfirmationTimedOut` | coremgr/src/Controller/HardwareHandler.cpp:585-595 | REJECT_REQUEST_CONFIRMATION of the device is sent and the entry stays |
| `Pairing.Projections` | coremgr/src/Controller/HardwareHandler.cpp:158-186 | every step of the composed system is at most one step of the pipeline, of the timer service and of the agent, so their theorems hold in it |
| `Pairing.AcceptancesComeFromClients` | coremgr/src/Controller/HardwareHandler.cpp:173-186 | for every device and every run: requests accepted at BlueZ plus accepts still under way never exceed the accepts that the clients' messages ask for |
| `PairingReplies.RepliesAreWhatWasTaken` | hardwaremgr/src/BT/BluetoothAgent.cpp:129-148 | for every device and every run: METHOD_RETURN replies are exactly the ACCEPTs hardwaremgr took while its request was pending, error replies to it exactly the REJECTs |
| `PairingReplies.SentIsWhatWasAsked` | coremgr/src/Controller/HardwareHandler.cpp:158-186 | for every operation and run: those executed, queued and on the channel are exactly those of the client commands core has handled, plus, for a rejection, the device's timeouts |
| `PairingProgress.PipelineDrains` | coremgr/src/Thread/MainWorker.cpp:38-51 | from every state the managers' own steps bring every operation under way to its end |
| `PairingProgress.RequestIsPending` | hardwaremgr/src/BT/BluetoothAgent.cpp:54-92 | a device that asks is pending under the number of its request, and core is told |
| `PairingProgress.AnswerTakesEffect` | hardwaremgr/src/Thread/MainWorker.cpp:214-236 | an accept brings the pending request METHOD_RETURN, a reject and the timeout bring it an error, three steps after core takes it up |
| `PairingProgress.PendingRequestCanBeAnswered` | hardwaremgr/src/BT/BluetoothAgent.cpp:129-148 | from every state a device that is still pending then gets the reply that a client's message asks for, in three steps |
| `PairingCovered.AnsweredIffCovered` | coremgr/src/Controller/HardwareHandler.cpp:556-595 | in every run, the managers alone, by the timeout, can answer a pending request if and only if something about its device is under way: its notification, its timer or an answer |
| `PairingCovered.PendingIsCovered` | coremgr/src/Thread/Timer.cpp:96-119 | every pending request is, unless its confirmation met a full timer table or the answer for another device stopped its timer |
| `PairingCovered.RequestCanBeForgotten` | coremgr/src/Controller/HardwareHandler.cpp:13-24 | a concrete run in which device B is pending and nothing about it is under way: the answer for device A stopped its timer |
| `PairingTimeouts.TimeoutsAreLate` | coremgr/src/Controller/HardwareHandler.cpp:585-595 | each timeout rejection is sent at least 30000 ms after its own confirmation, of the same device, and no two share a confirmation |
| `PairingTimeouts.TimeoutsAreFew` | coremgr/src/Controller/HardwareHandler.cpp:556-595 | for every device, timeout rejections are at most the confirmation notifications core handled |
| `PairingAnswers.MapHoldsNewest` | coremgr/src/Controller/HardwareHandler.cpp:578-582 | timerIdMap_ of a device is always the id of its most recently started timer |
| `PairingAnswers.AnswerStops` | coremgr/src/Controller/HardwareHandler.cpp:13-24 | answering a device removes exactly the timer that holds the stored id: its own newest one if that is live, and another device's otherwise, if any |
| `PairingAnswers.AnswerCanStopAnotherDevice` | coremgr/src/Thread/Timer.cpp:110-118 | a concrete run in which accepting device A stops device B's timer, because A's entry outlives its timer and the id is reused |
| `WebSocketSessions.WritesInOrder` | coremgr/src/WS/WebSocketServer.cpp:38-78 | in every run: completed writes followed by the queue are everything sent, in order; writing_ iff exactly one posted or running write; front() and pop() never meet an empty queue; the loop rests with messages only after an error |
| `WebSocketSessions.RestIsDrained` | coremgr/src/WS/WebSocketServer.cpp:69-76 | without a failed write, a session at rest has written everything it was given |
| `WebSocketSessions.CanDrain` | coremgr/src/WS/WebSocketServer.cpp:50-77 | from every run without a failed write, the write loop alone, its writes succeeding, can write everything that was given to send, in order, and come to rest |
| `WebSocketSessions.WebSocketSession.constructor` | coremgr/src/WS/WebSocketServer.cpp:14-15 | a new session queues nothing and writes nothing |
| `WebSocketSessions.WebSocketSession.Send` | coremgr/src/WS/WebSocketServer.cpp:38-48 | appends the message and posts a write only if none is outstanding |
| `WebSocketSessions.WebSocketSession.DoWrite` | coremgr/src/WS/WebSocketServer.cpp:50-56 | a posted write always finds a message, and begins writing the oldest one, which stays in the queue |
| `WebSocketSessions.WebSocketSession.WriteCompleted` | coremgr/src/WS/WebSocketServer.cpp:57-77 | the completed message leaves the queue; an error stops the loop and makes the session leave |
| `HardwareSwitches.WaitsForOpenCommand` | coremgr/src/Controller/HardwareHandler.cpp:26-104 | in every run of requests and reports: a waiting core has a command without a report of its own, and the newest such asks for the position the switch is not in; a core that does not wait shows the last reported position |
| `HardwareSwitches.MatchedIffUndisturbed` | coremgr/src/Controller/HardwareHandler.cpp:273-435 | at every moment of a run at most one command is without a report of its own, and core waits exactly while there is one, if and only if no other report is handled while core waits |
| `HardwareSwitches.DisturbedAsksTwice` | hardwaremgr/src/BT/BluezDBus.cpp:430-455 | after such another report one more request makes two open commands |
| `HardwareSwitches.PowerOffSentTwice` | coremgr/src/WS/WebSocketServer.cpp:136-143 | a concrete run: the report that a joining client causes makes core send power off twice |
| `HardwareSwitches.ReportSettles` | coremgr/src/Controller/HardwareHandler.cpp:273-435 | a failure report on the open command leaves the switch as it was before the command, a success puts it where the client asked |
| `SwitchProtocol.RunKeepsInv` | hardwaremgr/src/BT/BluezDBus.cpp:378-550 | the invariant that ties core, the messages on their way and the adapter holds in every run |
| `SwitchProtocol.CoreShowsTheAdapter` | hardwaremgr/src/Thread/BluetoothWorker.cpp:252-295 | in every run, when nothing is on its way to core: a core that does not wait shows what the adapter is if and only if the last evidence about it was true (a change, an answer to INITIALIZE_BLUETOOTH, a failure to turn it away from where it is); one that waits, while it was, has a command on its way that turns the adapter |
| `SwitchProtocol.StuckWasMisled` | hardwaremgr/src/BT/BluezDBus.cpp:536-546 | core waits with nothing left on its way only after it was misled by a failure to turn the switch to where it already was |
| `SwitchProtocol.StuckStays` | coremgr/src/Controller/HardwareHandler.cpp:66-104 | then clients' requests do not help: it stays stuck until a client joins or the adapter changes by itself |
| `SwitchProtocol.JoinRepairs` | coremgr/src/WS/WebSocketServer.cpp:142-142 | the command that a joining client causes makes core show what the adapter is, from every reachable state |
| `SwitchProtocol.JoinSettles` | coremgr/src/WS/WebSocketServer.cpp:136-143 | from every run, misled or stuck as core may be: if a client joins, the managers' own steps, with BlueZ granting what is asked, come to rest with core showing the adapter |
| `SwitchProtocol.CoreCanBeStuck` | hardwaremgr/src/BT/BluezDBus.cpp:504-550 | a concrete run of one client that leaves core in PROCESSING: a request that changes nothing is granted and never reported |
| `HardwareSwitches.HardwareSwitches.StartScanBTDevice` | coremgr/src/Controller/HardwareHandler.cpp:26-44 | state and command as in the switch state machine |
| `HardwareSwitches.HardwareSwitches.StopScanBTDevice` | coremgr/src/Controller/HardwareHandler.cpp:46-64 | same |
| `HardwareSwitches.HardwareSwitches.BluetoothPowerOn` | coremgr/src/Controller/HardwareHandler.cpp:66-84 | same |
| `HardwareSwitches.HardwareSwitches.BluetoothPowerOff` | coremgr/src/Controller/HardwareHandler.cpp:86-104 | same |
| `HardwareSwitches.HardwareSwitches.StartScanBTDeviceNOTI` | coremgr/src/Controller/HardwareHandler.cpp:273-292 | state and broadcast: a failure means the switch is back where it was |
| `HardwareSwitches.HardwareSwitches.StopScanBTDeviceNOTI` | coremgr/src/Controller/HardwareHandler.cpp:294-313 | same |
| `HardwareSwitches.HardwareSwitches.BluetoothPowerOnNOTI` | coremgr/src/Controller/HardwareHandler.cpp:391-412 | same |
| `HardwareSwitches.HardwareSwitches.BluetoothPowerOffNOTI` | coremgr/src/Controller/HardwareHandler.cpp:414-435 | same |
| `WebSocketServers.WebSocketServer.SendInitStateToClient` | coremgr/src/WS/WebSocketServer.cpp:184-220 | the session is sent the three snapshot messages in order |
| `WebSocketServers.WebSocketServer.Join` | coremgr/src/WS/WebSocketServer.cpp:136-143 | the session becomes a member and gets the snapshot, and hardwaremgr is sent INITIALIZE_BLUETOOTH |
| `WebSocketServers.WebSocketServer.Leave` | coremgr/src/WS/WebSocketServer.cpp:145-149 | it is no member any more |
| `WebSocketServers.WebSocketServer.Broadcast` | coremgr/src/WS/WebSocketServer.cpp:151-155 | every member is sent the message exactly once |
| `BroadcastOrder.SnapshotThenSlice` | coremgr/src/WS/WebSocketServer.cpp:136-155 | in every run: a joined session's log is the three snapshot messages and then one contiguous slice of the server's broadcasts, from its join to its leaving |
| `BroadcastOrder.PartOfSlice` | coremgr/src/WS/WebSocketServer.cpp:222-246 | where a range of broadcasts stands in a session's log |
| `BroadcastOrder.CommonMessagesAgree` | coremgr/src/WS/WebSocketServer.cpp:151-155 | any two clients were sent the broadcasts in the time of both as one identical run of messages |
| `BroadcastOrder.ReceivesInOrder` | coremgr/src/WS/WebSocketServer.cpp:55-77 | a client receives a prefix of what it was sent; at most one write fails, it is the last, and the session is no member any more; a member with an empty queue has received everything |
| `BroadcastProgress.LogIsWhatWasTold` | coremgr/src/WS/WebSocketServer.cpp:222-246 | in every run the broadcasts are exactly what the handled events are to be told as, in order, but for one about to be made |
| `BroadcastProgress.LeaveIsDone` | coremgr/src/WS/WebSocketServer.cpp:145-149 | a close, a read error and a failed write make the session leave |
| `BroadcastProgress.LeavesForGood` | coremgr/src/WS/WebSocketServer.cpp:145-155 | and whoever has left is sent nothing in any continuation |
| `BroadcastProgress.EveryMemberCanCatchUp` | coremgr/src/WS/WebSocketServer.cpp:50-77 | from every run, the server's own steps can bring every member its whole snapshot and every message told since its join, so that it shows the temperature and every settled flag as StateView has them |
| `BroadcastProgress.JoinSendsSnapshot` | coremgr/src/WS/WebSocketServer.cpp:184-220 | a join that nothing disturbs sends what sendInitStateToClient sends |
| `TemperatureShown.ViewIsLastReading` | coremgr/src/Controller/HardwareHandler.cpp:315-345 | in every run StateView holds the last successful reading |
| `TemperatureShown.MembersShowTheReading` | coremgr/src/Controller/HardwareHandler.cpp:330-341 | in every run every member shows the last successful reading, whenever it joined and whatever failed, unless its broadcast is about to be made |
| `TemperatureShown.FailureIsTold` | coremgr/src/Controller/HardwareHandler.cpp:322-328 | a failed reading is broadcast as a failure with 0 and changes no reading |
| `LateJoiners.HandlerMeans` | coremgr/src/Controller/RecordHandler.cpp:69-115 | a handler leaves a flag alone and is silent on it, or makes it PROCESSING, or settles it and then broadcasts just that |
| `LateJoiners.RequestMeans` | coremgr/src/Controller/HardwareHandler.cpp:26-104 | a client's request makes its own flag PROCESSING when that is settled the other way, and changes nothing else |
| `LateJoiners.MembersShowTheView` | coremgr/src/WS/WebSocketServer.cpp:184-246 | in every run: while a record, power or scan state is not PROCESSING and no handler is between writing and broadcasting it, every joined client that replays its messages shows what StateView holds, whenever it joined |
| `LateJoiners.ReceiversShowTheView` | coremgr/src/Controller/HardwareHandler.cpp:273-313 | and so does what it has received, once its queue has drained |
| `LateJoiners.JoinsAlone` | coremgr/src/WS/WebSocketServer.cpp:136-143 | a client that joins while nothing else happens shows the record state of that moment |
| `ProcessingShown.ShownWhileProcessing` | coremgr/src/WS/WebSocketServer.cpp:200-216 | in every run, while a flag is PROCESSING: a member for which join read it before shows the last settled value, one for which join read it meanwhile shows "off" |
| `ProcessingShown.DisagreeIffOneIsLate` | coremgr/src/WS/WebSocketServer.cpp:184-220 | two members disagree if and only if the last settled value was "on" and exactly one of them was read the flag meanwhile |
| `LateJoiners.ProcessingIsShownDifferently` | coremgr/src/WS/WebSocketServer.cpp:200-208 | a concrete run in which, during PROCESSING, an old client shows "recording" and a new one does not: the condition is needed |
| `Wav.SamplesRoundTrip` | recordmgr/src/Util/AlsaHelper.cpp:201-201 | reading 16-bit little-endian samples inverts their memory image |
| `Wav.NamesAreCharacters` | recordmgr/src/Util/AlsaHelper.cpp:180-200 | the chunk names that writer and reader share are the characters RIFF, WAVE, fmt and data |
| `Wav.WhatIsRead` | recordmgr/src/Util/AlsaHelper.cpp:171-201 | what an independent WAVE reader makes of the saved bytes, also when sizes are truncated to 32 bits |
| `Wav.WavFidelity` | recordmgr/src/Util/AlsaHelper.cpp:150-206 | the reader returns exactly the saved samples if and only if no 32-bit size is truncated; the file is chunkSize + 8 bytes long if and only if the chunk size is not |
| `AlsaHelpers.AlsaHelper.constructor` | recordmgr/src/Util/AlsaHelper.cpp:10-10 | no device open, no audio, nothing allocated |
| `AlsaHelpers.AlsaHelper.InitAlsa` | recordmgr/src/Util/AlsaHelper.cpp:55-114 | success needs the device and every one of the configuration calls; a failed one leaves the handle open, and the hardware parameters are freed on every path |
| `AlsaHelpers.AlsaHelper.CleanupAlsa` | recordmgr/src/Util/AlsaHelper.cpp:116-122 | the handle is closed once and forgotten |
| `AlsaHelpers.AlsaHelper.CaptureOnce` | recordmgr/src/Util/AlsaHelper.cpp:124-148 | an overrun or a recovered error appends nothing and goes on, an unrecovered error fails, a read appends exactly its frames |
| `AlsaHelpers.AlsaHelper.SaveWavFile` | recordmgr/src/Util/AlsaHelper.cpp:150-206 | the sequence of writes produces the bytes that WavFidelity is about; no file for an empty buffer or an unopened file |
| `AlsaHelpers.AlsaHelper.ClearAudioBuffer` | recordmgr/src/Util/AlsaHelper.cpp:208-210 | no audio is left |
| `AlsaHelpers.AlsaHelper.Session` | recordmgr/src/Thread/RecordWorker.cpp:79-162 | however a session ends the device is closed again and nothing allocated is left; a file is saved exactly for an opened, uncancelled session without capture error and with audio, and holds this session's frames only |
| `AlsaHelpers.CaptureBound` | recordmgr/src/Thread/RecordWorker.cpp:97-114 | a device no faster than 16000 frames a second delivers at most 4801024 frames in a session |
| `AlsaHelpers.SessionFidelity` | recordmgr/src/Thread/RecordWorker.cpp:145-157 | so its file is read back as exactly the captured frames at 16000 a second, and the stored duration is the whole seconds until it was saved, at least frames / 16000 |
| `DBThreadPools.OneTaskAtATime` | coremgr/src/Thread/DBThreadPool.cpp:59-138 | in every run with any number of workers: tasks are in the database one at a time, each accepted one is in exactly one of the queue, one worker's hands and the tasks that entered, none enters twice |
| `DBThreadPools.OrderIsKept` | coremgr/src/Thread/DBThreadPool.cpp:74-95 | tasks use the database in the order of acceptance if and only if no worker overtakes another between the queue and dbMutex_ |
| `DBThreadPools.OneWorkerKeepsOrder` | coremgr/src/Thread/DBThreadPool.cpp:59-87 | one thread keeps the order |
| `DBThreadPools.WaitingCallersKeepOrder` | coremgr/src/Controller/SQLiteDBHandler.cpp:17-112 | callers that wait for their future keep it with any number of workers |
| `DBThreadPools.OneWorkerPoolCanReorder` | common/src/Thread/ThreadBase.cpp:12-26 | a concrete run of a pool made with one worker, whose run starts a second thread, and a caller that does not wait, in which the second task is first |
| `DBThreadPools.RunningHasWorker` | common/src/Thread/ThreadBase.cpp:12-26 | in every run a running pool has a thread, even if those of the constructor met the cleared flag and left |
| `DBThreadPools.TasksCanFinish` | coremgr/src/Thread/DBThreadPool.cpp:59-87 | from every run whose pool is running, its threads alone can bring every accepted task to its end |
| `DBThreadPools.StoppedKeepsQueue` | coremgr/src/Thread/DBThreadPool.cpp:39-71 | a task in the queue of a stopped pool never enters the database until the pool is run again |
| `DBThreadPools.PoolCanShutDown` | coremgr/src/Thread/DBThreadPool.cpp:28-45 | from every run whose pool is stopped, its threads can all end, each finishing the task in its hands |
| `DBThreadPools.DBThreadPool.Run` | common/src/Thread/ThreadBase.cpp:12-26 | the pool is running afterwards |
| `DBThreadPools.DBThreadPool.Stop` | coremgr/src/Thread/DBThreadPool.cpp:39-45 | the flag is cleared, the queue kept |
| `DBThreadPools.DBThreadPool.EnqueueTask` | coremgr/src/Thread/DBThreadPool.cpp:47-57 | a stopped pool drops the task, a running one appends it |
| `DBThreadPools.DBThreadPool.ThreadFunction` | coremgr/src/Thread/DBThreadPool.cpp:59-87 | while other threads submit and stop, one worker has run everything a running pool accepted, oldest first, and takes nothing after a stop |

## Left out

- D-Bus and its marshalling: a channel is a FIFO that neither loses nor reorders signals.
- `stop()` and `runningFlag_` of the recording threads: every run is a run before shutdown. `mtx_` of the record worker is left out too, so that its two threads interleave at least as freely as they do.
- TimerProtocol.LatenessBound: sweeps and pushes are taken to cost no time, and a sleeping thread to wake at its deadline; the same holds for the theorems of TimerProgress.
- TimerProtocol.ChosenIdStaysFree: one thread starts timers, core's MainWorker, as in the source; several would break it.
- Pairing.AcceptancesComeFromClients: a command counts for the device its address names up to the first NUL, which is where the frame cuts it.
- Sending an answer and stopping its timer are one step of core; the timer thread's push commutes with the order of the two. The agent's map is used by two threads in hardwaremgr; each of its operations is one step. Broadcasting a confirmation before its timer starts is left to the broadcast model.
- SwitchProtocol.CoreShowsTheAdapter: BlueZ is taken to send its signal exactly when the adapter changes, before the reply to the request that changed it; the way of a command to hardwaremgr's MainWorker is one queue.
- TemperatureShown.MembersShowTheReading: a reading is the whole number that the handler rounds it to; the rounding of the sensor's float is not part of the model. What a client draws for a failed reading is its own affair.
- DBThreadPools.OneWorkerKeepsOrder: for one thread; a pool made with one worker has two once it runs, and OneWorkerPoolCanReorder shows what that does.
- DBThreadPools.TasksCanFinish: a thread that the operating system does not start, and a second `run` while the first thread is not joined, are not modelled.
- BroadcastOrder.ReceivesInOrder: the write-error path takes the session lock and then the server lock, broadcast takes them the other way round; runs that end in that deadlock are not modelled.
- AlsaHelpers.SessionFidelity: a clock that counts from the START notification, and a device that delivers no frames before it; write errors after the file was opened are not seen by the source and not modelled; two sessions saved in the same second share a file name.
- AlsaHelpers.AlsaHelper.InitAlsa: searching the cards for a device is left out.
- SQL, futures and exceptions of database tasks.
- Null events, payloads of the wrong type and a missing `bluezDBus_`: guarded by an early return in every handler.
- Unsynchronised access to shared variables: each access is taken to be atomic.
- The text of JSON messages and the validity of UTF-8: messages are the values their text carries.
- The message texts, passkeys, file paths and device properties: carried along and never branched on here.
- Call state, phonebook, call history, the property loops of BlueZ and oFono: one-branch assignments of what these services report.
- Logging, configuration files, signals, watchdog, shutdown order, build and deployment.
