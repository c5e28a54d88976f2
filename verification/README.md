# Engine assembly sequencing, modelled in Dafny

This project models the core of a VR engine-assembly trainer (a Unity application in
C#). The engine is split into **groups** of **parts**, and each group has **sockets**.
An assembly manager unlocks the groups one at a time, in the order of its
`GroupsOrder` list. A part can be taken only once its group is unlocked. It is
assembled when the user releases it inside an enabled socket of its own group; the
socket then closes for good. When every part of a group is assembled, the group
notifies the manager, which unlocks the next group, starts that group's timing and
shows its instruction on the instruction screen. A time manager logs, for each
assembled part, the time since its group's previous event as a CSV record
`GroupId;PartId;TimeTaken`.

The model is made of pure functions over immutable values:

- `States`, `Layers`: the three-valued `AssemblyState` enum and the interaction-layer
  tags.
- `Parts`, `Sockets`, `Groups`: `EnginePart`, `EngineSocket` and `EngineGroup`. Each
  handler returns the updated object, plus what it asks of its collaborators (stop the
  timing, notify the group, notify the manager).
- `Timing`: `Timing/TimeManager.cs`. `PartsTiming` is the second copy,
  `Parts/TimeManager.cs`, written independently and proved equal to the first.
- `Instructions`: `InstructionManager`. Its dictionary is compared with a reference
  definition ("the first record in the list for that group").
- `Assembly`: the whole scene as one `World` value. Parts, sockets and groups live in
  sequences and refer to each other by index. The world also holds the manager with
  its FIFO queue, screen and instruction dictionary, and the time manager. Every event
  handler maps a world to the world after the event. Three places in the C# code
  dereference an object without a null check (see "Exceptions" below). There the
  handler returns `threw = true`; the changes made before the throw stay, and the rest
  of the event is skipped.
- `Sequencing`: runs of events. It covers the unlock order the queue enforces, the
  terminal state, and properties kept by any sequence of events.
- `Scenes`, `Scenarios`: a concrete two-group assembly, worked event by event from the
  start to the terminal state.

Time is a whole number of ticks of 0.1 s. The socket's 0.5 s exit cooldown is 5
ticks, and its initial `lastExitTime` of -1 s is -10 ticks.

### Behaviour of the code worth noting

- `OnGroupAssembled` does not check that the sender is the group at the head of the
  queue. Any notice dequeues the next entry (`SenderIgnored`).
- A complete group notifies again on every further `OnPartAssembled`. The count is
  clamped at the number of parts, but the notice is not suppressed
  (`Groups.RepeatedNotices`).
- A stop whose elapsed time is zero writes no record, yet still re-stamps the group's
  start (`ZeroElapsedStopsRecordNothing`).
- With an empty `GroupsOrder`, start-up is itself the terminal step. The screen is
  reset to its defaults, or the reset throws when there is no screen
  (`Sequencing.EmptyOrderIsTerminal`).
- `SetState(Unlocked)` starts no timing; `UnlockNextGroup` starts the group's timing.
  Only `SetState(Assembled)` touches the time manager.
- `CanSelect` does not read the socket's `enabled` flag.
- The manager calls `StartGroupTiming` and the part calls `StopPartTiming`. Neither
  copy of `TimeManager` defines those names; both define `StartTiming` and
  `StopTiming`. The model binds the calls to those two methods. Both copies also
  declare the same class name; the model treats them as two alternative
  implementations and proves that they agree.

### Exceptions

- `UnlockNextGroup` calls the time manager it finds without checking for null.
  Without a time manager, the group is unlocked and then the call throws. The timing
  does not start, the screen is not updated, and the part whose release led there
  keeps its socket open.
- An empty queue resets the instruction screen without checking for null.
- `InitializeGroupQueue` enqueues each entry and then logs `group.GroupId`. A null
  entry is therefore queued, and the log line right after it throws: that entry and
  the ones before it stay queued, the rest are never queued, and no group is unlocked.
  Since nothing is unlocked, no part can be assembled and no group can send a notice,
  so the null is never dequeued by the events modelled here.

## Model

| member | source | states |
|---|---|---|
| States.OrdinalRoundTrip | Assets/Scripts/Parts/AssemblyState.cs:2-13 | the enum has exactly three values, 0, 1 and 2, one per state, and the value of a state maps back to that state |
| States.FromOrdinal | Assets/Scripts/Parts/AssemblyState.cs:2-13 | an integer names a state iff it is below 3, and then it is that state's enum value |
| States.Default | Assets/Scripts/Parts/AssemblyState.cs:4-6 | the default state (enum value 0) is the one before assembly starts |
| Parts.SetState | Assets/Scripts/Parts/EnginePart.cs:24-50 | the new state is assigned whatever the old one; the tag becomes "LockedPart", "Unlocked" or "AssembledPart"; only Assembled disables the grab; the timing stop is requested iff the new state is Assembled; ids and parent are untouched |
| Parts.SetStateTwice | Assets/Scripts/Parts/EngineGroup.cs:18-21 | unlocking a part listed twice in a group is the same as unlocking it once |
| Parts.OnPartAssembled | Assets/Scripts/Parts/EnginePart.cs:53-76 | the transition happens iff the part is Unlocked; then the part is Assembled, untagged for grabbing and its grab disabled; otherwise the part is unchanged |
| Parts.OnPartAssembledIdempotent | Assets/Scripts/Parts/EnginePart.cs:55-75 | a second assembly of an assembled part is refused and changes nothing |
| Sockets.Fresh | Assets/Scripts/Parts/EngineSocket.cs:54-55 | a new socket is open (`isPartAssembled` starts false, line 8), has no release subscription, and its last exit time is -1 s (-10 ticks) |
| Sockets.FirstExitProcessed | Assets/Scripts/Parts/EngineSocket.cs:54-69 | a new socket's first exit, at any time from the start of the scene on, is processed rather than debounced |
| Sockets.CanSelect | Assets/Scripts/Parts/EngineSocket.cs:11-28 | a closed socket selects nothing; an object that is not a part, or a part of another group, is refused; a part of the socket's group is accepted iff it is not currently held |
| Sockets.OnSelectEntered | Assets/Scripts/Parts/EngineSocket.cs:31-51 | on an open socket an entering part ends with exactly one release subscription (remove, then add), whatever it had before; other parts' subscriptions and all other fields are untouched; a closed socket ignores the event |
| Sockets.OnSelectExited | Assets/Scripts/Parts/EngineSocket.cs:54-82 | an exit less than the cooldown after the last processed exit, or on a closed socket, changes nothing; a processed exit stamps the exit time even for a non-part and removes every subscription of the exiting part |
| Sockets.DebounceIgnoresRapidExit | Assets/Scripts/Parts/EngineSocket.cs:54-69 | exits at 0.1 s and 0.3 s: the first is processed and disarms the listener, the second falls inside the 0.5 s window and is ignored |
| Sockets.IgnoredExitKeepsListener | Assets/Scripts/Parts/EngineSocket.cs:64-68 | an exit ignored by the debounce keeps the part's release listener armed and the last exit time unchanged |
| Sockets.Commit | Assets/Scripts/Parts/EngineSocket.cs:100-103 | committing tags the socket "AssembledSocket" and sets its assembled flag; nothing else changes |
| Sockets.ClosedSocketIsInert | Assets/Scripts/Parts/EngineSocket.cs:11-13 | a closed socket refuses every candidate, and its enter and exit handlers change nothing |
| Groups.CompleteExactlyWhenAllCounted | Assets/Scripts/Parts/EngineGroup.cs:11 | IsComplete after k assembled parts holds exactly when the count plus k reaches the number of parts |
| Groups.OnPartAssembled | Assets/Scripts/Parts/EngineGroup.cs:30-46 | the count goes up by one, clamped at the number of parts; the manager is notified iff the group is then complete, i.e. iff the old count plus one reaches the number of parts |
| Groups.RepeatedNotices | Assets/Scripts/Parts/EngineGroup.cs:30-46 | after k calls the count is min(count + k, parts); the call that completes the group and every later one notify, so k calls give max(0, k - max(1, parts - count) + 1) notices |
| Groups.EnableSocket | Assets/Scripts/Parts/EngineGroup.cs:64-78 | sets the socket's enabled flag, and the tag "Unlocked" when enabling or "LockedSocket" when disabling; nothing else changes |
| Groups.UnlockParts | Assets/Scripts/Parts/EngineGroup.cs:18-21 | every listed part gets SetState(Unlocked) (duplicates included); unlisted parts are unchanged |
| Groups.EnableSockets | Assets/Scripts/Parts/EngineGroup.cs:23-26 | every listed socket is enabled; unlisted sockets are unchanged |
| Groups.Unlock | Assets/Scripts/Parts/EngineGroup.cs:14-27 | every part of the group is Unlocked and tagged "Unlocked", every socket of the group is enabled and tagged "Unlocked", and nothing outside the group changes |
| Timing.StartTiming | Assets/Scripts/Timing/TimeManager.cs:44-48 | the group's start is stamped with the current time, overwriting any earlier stamp; other groups and the log are untouched |
| Timing.StopTiming | Assets/Scripts/Timing/TimeManager.cs:55-74 | without a start nothing happens; otherwise a record with the elapsed time is appended iff that time is positive, and the group's start is re-stamped with the current time either way |
| Timing.StopsTelescope | Assets/Scripts/Timing/TimeManager.cs:55-74 | stops at non-decreasing times only append positive records of that group, and their durations add up to the last stop time minus the start: consecutive parts get disjoint slices of the group's time |
| Timing.SliceSumFromStart | Assets/Scripts/Timing/TimeManager.cs:44-74 | after a start at t0, the durations recorded for the group's parts add up to the last stop time minus t0 |
| Timing.InitializeCsvFile | Assets/Scripts/Timing/TimeManager.cs:27-38 | a missing file is created holding only the header line; an existing file is left as it is |
| Timing.SaveTimeToCsv | Assets/Scripts/Timing/TimeManager.cs:82-90 | appending a record keeps every earlier line and adds exactly one record line |
| Timing.RecordLine | Assets/Scripts/Timing/TimeManager.cs:87 | the record line has the separator ';' right after the group id and right after the part id |
| Timing.CsvFileLayout | Assets/Scripts/Timing/TimeManager.cs:27-90 | a new file holds the header and then one line per record, in log order |
| Timing.RecordLineFields | Assets/Scripts/Timing/TimeManager.cs:87 | splitting a record line at ';' gives back group id, part id and time, when none of them contains ';' |
| Timing.HeaderFields | Assets/Scripts/Timing/TimeManager.cs:34 | the header names the columns GroupId, PartId, TimeTaken, in record order |
| PartsTiming.StartTimingAgrees | Assets/Scripts/Parts/TimeManager.cs:27-31 | the second copy's StartTiming gives the same recorder as the first and stamps the group |
| PartsTiming.StopTimingAgrees | Assets/Scripts/Parts/TimeManager.cs:33-49 | the second copy's StopTiming gives the same recorder as the first, the missing-start case included |
| PartsTiming.HeaderAgrees | Assets/Scripts/Parts/TimeManager.cs:21 | both copies create the file with the same header line |
| PartsTiming.RecordLineAgrees | Assets/Scripts/Parts/TimeManager.cs:55 | both copies write a record as the same line |
| Instructions.GroupIds | Assets/Scripts/Instructions/InstructionManager.cs:22-24 | exactly the group ids that occur in the list |
| Instructions.FirstFor | Assets/Scripts/Instructions/InstructionManager.cs:24-33 | reference definition: the first record for a group, None iff no record has that id |
| Instructions.FirstForPicksEarliest | Assets/Scripts/Instructions/InstructionManager.cs:24-33 | a record with no earlier record of the same id is the one picked for its id |
| Instructions.AddFrom | Assets/Scripts/Instructions/InstructionManager.cs:22-33 | the loop that adds a record only when its id is new builds the dictionary of first records from the whole list |
| Instructions.InitializeDictionary | Assets/Scripts/Instructions/InstructionManager.cs:18-34 | the keys are exactly the list's group ids, one entry per distinct id, each mapped to the first record with that id |
| Instructions.GetInstructionForGroup | Assets/Scripts/Instructions/InstructionManager.cs:37-46 | the stored record for a present id, None (null) iff the id is absent |
| Instructions.LookupFindsFirst | Assets/Scripts/Instructions/InstructionManager.cs:18-46 | a lookup in the built dictionary returns the first record in the list with that id, and null iff there is none |
| Instructions.FirstRecordWins | Assets/Scripts/Instructions/InstructionManager.cs:24-31 | when ids are duplicated, the earliest record is the one served, whatever follows it |
| Assembly.UpdateInstructions | Assets/Scripts/Instructions/InstructionScreen.cs:17-23 | shows the given title and text; the defaults are kept |
| Assembly.ResetInstructions | Assets/Scripts/Instructions/InstructionScreen.cs:26-29 | shows the default title and text |
| Assembly.UpdateInstructionScreen | Assets/Scripts/Parts/EngineAssemblyManager.cs:65-82 | with both the instruction manager and the screen present, a found instruction is shown and a missing one resets the screen; if either is missing nothing changes |
| Assembly.ScreenShowsFirstRecord | Assets/Scripts/Parts/EngineAssemblyManager.cs:65-82 | with the dictionary built by InitializeDictionary, the screen shows the inspector list's first record for the group, and its defaults iff the list has no record for it |
| Assembly.UnlockGroup | Assets/Scripts/Parts/EngineGroup.cs:14-27 | in the scene, every part of the group becomes Unlocked and every socket of the group enabled; other parts, groups, manager and timing are untouched; the scene stays well formed |
| Assembly.UnlockNextGroup | Assets/Scripts/Parts/EngineAssemblyManager.cs:40-62 | a non-empty queue always loses its head; a group at the head is unlocked (its parts become Unlocked, all other parts stay as they were), then (with a time manager) its timing starts and its instruction is shown, or (without one) the event throws after the unlock; a null head unlocks nothing; an empty queue resets the screen, or throws when there is no screen; the timing log is never written |
| Assembly.StartGroup | Assets/Scripts/Parts/EngineAssemblyManager.cs:45-51 | a dequeued group is unlocked (only its parts change, no socket is committed); with a time manager its timing starts and its instruction is shown; without one the event throws after the unlock, the screen untouched; the queue and the timing log are left alone |
| Assembly.UnlockNextGroupPart | Assets/Scripts/Parts/EngineAssemblyManager.cs:40-62 | a part becomes Unlocked iff the group at the head of the queue lists it; otherwise it is left exactly as it was |
| Assembly.FirstNull | Assets/Scripts/Parts/EngineAssemblyManager.cs:23-27 | the enqueue loop throws at the first null entry: every entry before it is a group |
| Assembly.InitializeGroupQueue | Assets/Scripts/Parts/EngineAssemblyManager.cs:21-30 | without null entries, GroupsOrder is enqueued in list order and the head is then dequeued and unlocked; at a null entry the null itself and the entries before it are enqueued, then the event throws with nothing unlocked and the screen and timing untouched; an empty list is terminal at once |
| Assembly.OnGroupAssembled | Assets/Scripts/Parts/EngineAssemblyManager.cs:33-37 | each notice dequeues exactly one entry, when there is one |
| Assembly.SenderIgnored | Assets/Scripts/Parts/EngineAssemblyManager.cs:33-37 | the sending group is never examined: every sender gives the same result, that of UnlockNextGroup |
| Assembly.GroupOnPartAssembled | Assets/Scripts/Parts/EngineGroup.cs:30-61 | the group's count moves as in Groups.OnPartAssembled; the manager advances its queue iff the group is then complete and a manager exists; without one, the notice is lost and nothing else changes; the timing log is not written |
| Assembly.GroupOnPartAssembledPart | Assets/Scripts/Parts/EngineGroup.cs:30-61 | a part changes only when the group's notice makes the manager unlock a group listing it, and then it is Unlocked |
| Assembly.StopHook | Assets/Scripts/Parts/EnginePart.cs:42-45 | the assembled part stops its group's timing under its own ids, only when a time manager exists |
| Assembly.MarkAssembled | Assets/Scripts/Parts/EnginePart.cs:55-57 | the part's own half of an assembly: it becomes SetState(Assembled) of itself and its group's timing is stopped under its ids; nothing else in the scene changes |
| Assembly.PartOnPartAssembled | Assets/Scripts/Parts/EnginePart.cs:53-76 | from Locked or Assembled nothing happens; from Unlocked the part ends as SetState(Assembled) made it, grab off, unless the group notice unlocks a group that lists it again (then it is Unlocked, grab still off); the timing log is exactly the one its stop wrote, and its parent group (if any) counts it once |
| Assembly.SelectEnter | Assets/Scripts/Parts/EngineSocket.cs:11-51 | an enter reaches OnSelectEntered only on an enabled socket whose CanSelect accepts the object; otherwise the scene is unchanged; only that socket changes |
| Assembly.SelectExit | Assets/Scripts/Parts/EngineSocket.cs:58-82 | an exit applies the debounced OnSelectExited to that socket alone, and the scene stays well formed |
| Assembly.SetSelected | Assets/Scripts/Parts/EnginePart.cs:38-40 | a part whose grab is disabled cannot be picked up; otherwise only its held flag changes |
| Assembly.GrabReleased | Assets/Scripts/Parts/EngineSocket.cs:85-106 | a release reaches the socket only while it is subscribed; on an open socket the part is assembled, then its grab is disabled and the socket closed, even when the part's own guard refused; on a closed socket nothing happens; if the chain threw, the socket stays open; for an Unlocked part the timing log is exactly the one its stop wrote and the part ends Assembled unless a group notice unlocks it again |
| Assembly.CloseSocket | Assets/Scripts/Parts/EngineSocket.cs:93-103 | the tail of a release: the part's grab is disabled and the socket committed ("AssembledSocket", assembled); every other part and socket, the groups, the manager and the timing are unchanged |
| Sequencing.Notices | Assets/Scripts/Parts/EngineAssemblyManager.cs:33-62 | a run of completion notices keeps the scene well formed and never re-enables an assembled part's grab |
| Sequencing.NoticesDrainQueue | Assets/Scripts/Parts/EngineAssemblyManager.cs:40-62 | k notices remove exactly the first min(k, queue length) entries, whichever groups sent them |
| Sequencing.QueueAfterNotices | Assets/Scripts/Parts/EngineAssemblyManager.cs:21-62 | from a list without nulls, after start and k notices exactly the first k + 1 entries of GroupsOrder have left the queue |
| Sequencing.NextGroupInOrder | Assets/Scripts/Parts/EngineAssemblyManager.cs:21-62 | the notice after the k-th unlocks entry k + 1 of GroupsOrder: all its parts become Unlocked |
| Sequencing.TerminalAfterLastGroup | Assets/Scripts/Parts/EngineAssemblyManager.cs:40-62 | once every entry has been taken, each further notice unlocks nothing, leaves parts, sockets and timing alone, and resets the screen |
| Sequencing.EmptyOrderIsTerminal | Assets/Scripts/Parts/EngineAssemblyManager.cs:21-30 | with an empty GroupsOrder, start-up unlocks nothing and shows the screen's defaults |
| Sequencing.Step | Assets/Scripts/Parts/EnginePart.cs:38-40 | every event the host delivers keeps the scene well formed and its shape, and never re-enables an assembled part's grab |
| Sequencing.Run | Assets/Scripts/Parts/EngineSocket.cs:85-106 | any run of events keeps the scene well formed; assembled sockets stay assembled; assembled parts stay ungrabbable |
| Sequencing.ClosedSocketStaysClosed | Assets/Scripts/Parts/EngineSocket.cs:85-106 | commit-once: a closed socket stays closed through any run of events, and a later release on it changes nothing |
| Sequencing.AssembledPartStaysUngrabbable | Assets/Scripts/Parts/EnginePart.cs:38-40 | an Assembled part's grab stays disabled after any run of events, so it can never be picked up again |
| Sequencing.WrongGroupRejected | Assets/Scripts/Parts/EngineSocket.cs:11-28 | a part offered to a socket of another group is refused, and a release there can never commit it |
| Scenarios.ScenarioA | Assets/Scripts/Parts/EngineAssemblyManager.cs:21-62 | a two-group assembly, event by event: start unlocks G1 only; its first part leaves G2 locked; its second unlocks G2 (emptying the queue), starts its timing and shows its instruction; G2's part finds the queue empty and resets the screen; the log holds one slice per part |
| Scenarios.ZeroElapsedStopsRecordNothing | Assets/Scripts/Timing/TimeManager.cs:60-67 | two stops in the same tick as the start write no record and leave the start stamped at that tick |

## Left out

- Unity and XR Interaction Toolkit plumbing is not modelled. This covers physics,
  transforms, `SnapPartToSocket`, `StoreOriginalScale`, `CamshaftSocketConfig` and
  rigid bodies. Reparenting a snapped part could change what `GetComponentInParent`
  finds; the model gives each part's parent group explicitly.
- Assembly.SelectEnter: the interaction-layer masks that decide which interactors
  may interact are not modelled. An enter is delivered to an enabled socket whose
  `CanSelect` accepts the object; the tags are kept only as values.
- Assembly.SetSelected: a grab is refused only by the grab component's `enabled`
  flag, not by layer masks.
- Assembly.GrabReleased: each socket keeps its own subscriptions. The order in which
  several sockets' listeners on one part fire, within one release, is not modelled.
- Null entries in a group's `Parts` or `Sockets` list, a part without a grab
  component, a null `GroupInstruction` and a null group id are not modelled.
- File I/O is not modelled (`File.Exists`, `StreamWriter`, the path). The CSV file is
  a sequence of lines. How a float duration is printed is a parameter of
  `SaveTimeToCsv`, and the `RecordLine` time field is any string.
- Float seconds are whole ticks of 0.1 s, so float rounding is not modelled.
- `Debug.Log` and friends are not modelled.
- `TimingDisplayUI`, including the `RefreshDisplay` call in
  `EnginePart.OnPartAssembled`, is not modelled: it only reads the timing.
- `GetAllTimings` is not modelled; it appears in neither `TimeManager` copy.
- The instruction screen's text widgets are not modelled: the screen is a
  title/text pair plus its defaults.
- `ButtonHaptics`, the menus and scene loading are not modelled.
- The socket's `base.OnSelectEntered` and `base.OnSelectExited` (toolkit
  bookkeeping) are not modelled.
