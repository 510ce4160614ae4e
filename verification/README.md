# Verified model of the hardware simulator's protocols

The hardware simulator plugin is mostly glue between Flutter and an operating system. Inside it are a number of
hand-written protocols, accumulators and encoders whose guarantees span many calls, many processes and many
failures. This project models those in Dafny 4.11 and proves what they guarantee over whole runs.

The operating system is an environment: each call into it becomes an event or a parameter that says how the call
turned out, and every theorem holds for all of them. State that the program updates in place is a class here too,
and each method is proved equal to a function on values; the theorems are about runs of those functions.

| file | what it models |
|---|---|
| `KeyMapping.dfy` | the macOS `UserKeyMapping` value and the comparison of mappings by their printed entries |
| `RemapTransactions.dfy` | recover, enable and restore of the Caps Lock remap: one step per access to the mapping or the journal |
| `RemapSystem.dfy` | any number of plugin instances and processes, the lease, user edits and crashes between any two steps |
| `RemapPlugin.dfy` | the plugin's methods; each is a run of the system above, and what it does follows from what the system answers |
| `InputQueue.dfy` | the Windows desktop-service input queue: producers, one sender thread, one mutex |
| `IBusText.dfy`, `IBusAnswers.dfy`, `IBusEdits.dfy` | the Linux IBus text transaction: a chain of asynchronous calls, a token, an expiry, focus signals; what its callers are told, and when an edit is put out |
| `ShortcutRouter.dfy`, `ShortcutCapture.dfy`, `ShortcutSends.dfy` | macOS system shortcuts: which key events are captured, the lease the global key tap lives on, and what the host is sent |
| `PointerCapture.dfy`, `PointerNotes.dfy` | Linux pointer capture on X11 and Wayland; the motions it reports and why it ends |
| `DisplayBackup.dfy` | the Windows switch to one exclusive display, and back |
| `CursorImage.dfy`, `CursorFrame.dfy`, `CursorCache.dfy` | the Windows cursor pipeline: pixel passes, wire frame, per-subscriber cache |
| `Keyboard.dfy` | the Linux virtual keyboard under write failures |
| `ChordRouter.dfy`, `GlobeGate.dfy` | macOS recognition of Fn and Control+Space, and of the event pair that follows Fn |
| `PointerCoordinates.dfy` | Windows virtual-desktop coordinates |
| `ScrollRemainder.dfy`, `TrackpadScroll.dfy` | wheel remainders on Linux, the trackpad accumulator on Windows |

The assumptions behind the Caps Lock theorems are these. A read of the mapping is truthful or fails. A write lands
whole, in any entry order, or not at all, whatever it reports. A failed journal commit leaves the old journal, the new
one, or none. A user edit does not fall between a check of the mapping and the write that relies on it. How the system
answers each access is a fixed but arbitrary sequence, so that every method's outcome is determined by it.

## Findings

Five properties one might expect do not hold of the code. Each has a lemma with the exact condition or an input.

* A deinitialised instance does not give back the file lock it took
  (`macos/Classes/HardwareSimulatorPlugin.swift:304-321`, `637`, `752-762`). The lease owner is a weak reference,
  which reads as nil while its object is in `deinit`, so the release finds another owner and leaves the descriptor
  open; the comment at 318-320 says the opposite. The lock is left taken exactly when the instance held the lease, and
  until its process ends nobody can recover or arm (`RemapSystem.DeinitLeavesLock`). The input is an armed instance
  that is deinitialised: even when the user's mapping comes back, the lock stays
  (`RemapSystem.ArmedDeinitLeavesLock`), and such an instance is reached from an empty system
  (`RemapSystem.ArmedIsReachable`).
* A user edit between the write of the remap and its read-back can be rolled back
  (`macos/Classes/HardwareSimulatorPlugin.swift:1111-1135`): exactly when it leaves only entries of the expected mapping
  without being the original or the expected mapping (`RemapTransactions.EditBeforeReadback`). The deletion of an
  unrelated entry is such an edit (`RemapTransactions.LostEdit`).
* The handle of the last cursor outlives the hooks (`windows/cursor_monitor.cc:464-479`), so a new subscriber can keep
  showing a cursor that is no longer current (`CursorCache.StaleAfterRestart`); without a hash collision a sync shows
  the current cursor exactly when its handle differs from the last one or the subscriber showed it already
  (`CursorCache.SyncReaches`).
* Repeating a successful `clear` of the Linux keyboard is not silent (`linux/linux_keyboard.h:60-72`): with a device it
  writes one more report (`Keyboard.ClearAgainOnlyReports`).
* A rejected or failed switch to an exclusive display still leaves a configuration pending whenever the save before it
  succeeded (`windows/virtual_display_control.cc:1107-1117`); later switches are then refused until a restoration
  (`DisplayBackup.SwitchSaves`).

In the cursor frame encoder the comments that name the byte order are the wrong way round
(`windows/cursor_monitor.cc:361-372`); the model follows the code, and `CursorFrame.EncodeCursorBitmapFrame` shows that
the bytes are the same on hosts of either order.

## Model

| member | source | states |
|---|---|---|
| KeyMapping.EqualIsSame | macos/Classes/HardwareSimulatorPlugin.swift:1462-1468 | comparing sorted printed entries decides equality of the multisets of (source, destination) pairs, both ways |
| KeyMapping.SubsetIsWithin | macos/Classes/HardwareSimulatorPlugin.swift:1475-1483 | comparing sets of printed entries decides that every pair of one mapping is a pair of the other, both ways |
| KeyMapping.PrintInjective | macos/Classes/HardwareSimulatorPlugin.swift:1485-1495 | two different pairs never print alike, missing usages included |
| KeyMapping.LabelCount | macos/Classes/HardwareSimulatorPlugin.swift:1485-1495 | a printed entry occurs as often as the pair it prints |
| KeyMapping.OrderedUnique | macos/Classes/HardwareSimulatorPlugin.swift:1485-1495 | two sorted lists with the same entries, counted, are the same list |
| KeyMapping.AppendDiffers | macos/Classes/HardwareSimulatorPlugin.swift:1075-1079 | the mapping with the remap appended never equals the mapping it was built from |
| KeyMapping.NoCapsDiffers | macos/Classes/HardwareSimulatorPlugin.swift:1059-1074 | a mapping without a Caps Lock entry is never the expected mapping of a journal |
| RemapTransactions.RecoverKeeps | macos/Classes/HardwareSimulatorPlugin.swift:949-1013 | each access of a recovery, however it turns out, leaves journal and mapping determining the user's own mapping |
| RemapTransactions.PersistKeeps | macos/Classes/HardwareSimulatorPlugin.swift:1104-1110 | writing the journal, failed or not, keeps the user's mapping determined and is true of the mapping it records |
| RemapTransactions.UncapturedIsUsers | macos/Classes/HardwareSimulatorPlugin.swift:1058-1081 | a mapping that may be recorded as the original is the user's own, whatever an old journal says |
| RemapTransactions.ArmingDecides | macos/Classes/HardwareSimulatorPlugin.swift:1038-1081 | a mapping that was read reaches the journal exactly when no remap in it is from Caps Lock or to F20, is used as it is exactly when the user has made the very remap, once, and nothing else goes to F20, and stops the arming otherwise |
| RemapTransactions.ApplyKeeps | macos/Classes/HardwareSimulatorPlugin.swift:1111-1148 | each access from the write of the remap to its confirmation or its roll-back keeps the user's mapping determined |
| RemapTransactions.RestoreKeeps | macos/Classes/HardwareSimulatorPlugin.swift:1151-1195 | each access of a restoration keeps the user's mapping determined |
| RemapTransactions.RecoveryRestores | macos/Classes/HardwareSimulatorPlugin.swift:949-1013 | from any state a crash can leave, an unobstructed recovery puts the user's mapping in force and clears a journal that was in use |
| RemapTransactions.RecoverSuccess | macos/Classes/HardwareSimulatorPlugin.swift:986-1013 | a recovery that reports success has the user's mapping in force |
| RemapTransactions.RestoreSuccess | macos/Classes/HardwareSimulatorPlugin.swift:1167-1195 | a restoration that reports success has the user's mapping in force |
| RemapTransactions.ArmedExactly | macos/Classes/HardwareSimulatorPlugin.swift:1033-1148 | whatever the system answers, arming ends owning the remap exactly if it could read the mapping, the mapping concerned neither key, the journal was persisted, and the write landed, was reported and was seen; then mapping and journal are those |
| RemapTransactions.GivenUpExactly | macos/Classes/HardwareSimulatorPlugin.swift:1130-1135 | giving up leaves the mapping alone and clears the journal exactly if the original mapping is seen |
| RemapTransactions.RestoredExactly | macos/Classes/HardwareSimulatorPlugin.swift:1151-1195 | a restoration succeeds exactly if the original is in force, the mapping is neither value of the journal, or the original can be written back and seen; what it then leaves |
| RemapTransactions.RecoveredExactly | macos/Classes/HardwareSimulatorPlugin.swift:949-1013 | a recovery succeeds in exactly those cases, without a journal, or with an unreadable one over an empty mapping |
| RemapTransactions.EditBeforeReadback | macos/Classes/HardwareSimulatorPlugin.swift:1111-1135 | an edit in the read-back window survives if and only if it is not a proper part of the expected mapping other than the original |
| RemapTransactions.LostEdit | macos/Classes/HardwareSimulatorPlugin.swift:1118-1148 | the deletion of an unrelated entry in that window is undone by the roll-back and confirmed by the final read; the journal is then cleared, so nothing remembers the mapping the user wants |
| RemapSystem.CrashSafe | macos/Classes/HardwareSimulatorPlugin.swift:934-1225 | in every run of any number of instances with crashes, deinitialisations, failed writes and edits, journal and mapping determine the user's mapping |
| RemapSystem.OneOwner | macos/Classes/HardwareSimulatorPlugin.swift:636-762 | in every run at most one live instance holds the lease and at most one has the file lock; one that owns the remap has the lock and a journal, and holds the lease unless it is going away |
| RemapSystem.WriteDiscipline | macos/Classes/HardwareSimulatorPlugin.swift:949-1195 | in every run every write of the mapping the plugin attempts, landed or not, is by the holder of the lock and has exactly the original or expected value of the journal on disk; recovery and restoration only write the original, over the expected value |
| RemapSystem.OnlyAttemptsWrite | macos/Classes/HardwareSimulatorPlugin.swift:949-1195 | besides the user nothing but such an attempt changes the mapping, and one that lands stores what it was given and leaves the journal alone |
| RemapSystem.SuccessMeansRestored | macos/Classes/HardwareSimulatorPlugin.swift:557-606 | in every reachable state, the step that reports a recovery or restoration successful leaves the user's mapping in force |
| RemapSystem.RecoveryCompletes | macos/Classes/HardwareSimulatorPlugin.swift:700-717 | from every reachable state with a free lease a start-up recovery that nothing obstructs restores the user's mapping and frees the lease |
| RemapSystem.CrashThenRecover | macos/Classes/HardwareSimulatorPlugin.swift:665-668 | after the process that took the lock ends, its lock left behind by a deinitialised instance or not, a new process can take the lease and the user's mapping is still determined |
| RemapSystem.DeinitLeavesLock | macos/Classes/HardwareSimulatorPlugin.swift:304-321 | whatever happens after a deinitialisation short of the end of its process, the lock is left taken exactly if the instance held the lease, and then nobody can recover, arm or own the remap |
| RemapSystem.ArmedDeinitLeavesLock | macos/Classes/HardwareSimulatorPlugin.swift:752-762 | deinitialising an armed instance with nothing going wrong brings the user's mapping back and clears the journal, yet leaves the lock taken |
| RemapSystem.ArmedIsReachable | macos/Classes/HardwareSimulatorPlugin.swift:1015-1148 | such an armed instance is reached from an empty system |
| RemapSystem.ReadbackWindow | macos/Classes/HardwareSimulatorPlugin.swift:1111-1135 | in the read-back window the edits the model admits are exactly those that are not rolled back |
| RemapPlugin.Plugin.RecoverWhileLeaseHeld | macos/Classes/HardwareSimulatorPlugin.swift:949-1013 | what the method does to mapping and journal, and what it reports, is what the recovery comes to on the system's answers |
| RemapPlugin.Plugin.ApplyRemap | macos/Classes/HardwareSimulatorPlugin.swift:1033-1148 | what arming comes to on the system's answers; a mapping with a remap from Caps Lock or to F20 is never touched, the remap is reused exactly if it is the user's own, and once applied only Caps Lock sends F20 |
| RemapPlugin.Plugin.RestoreRemap | macos/Classes/HardwareSimulatorPlugin.swift:1151-1195 | what the restoration comes to on the system's answers; the remap is ours afterwards exactly if it failed |
| RemapPlugin.Plugin.AcquireLease | macos/Classes/HardwareSimulatorPlugin.swift:719-750 | true exactly if this instance has the lease already, or nobody has and the lock is granted; nothing changes otherwise |
| RemapPlugin.Plugin.ReleaseLease | macos/Classes/HardwareSimulatorPlugin.swift:752-762 | the lock and the owner are cleared exactly if this instance held them |
| RemapPlugin.Plugin.RecoverIfNeeded | macos/Classes/HardwareSimulatorPlugin.swift:700-717 | runs exactly if no owner is known and the lock is granted, and is then what the recovery comes to and a run of the system; success means the user's mapping is in force |
| RemapPlugin.Plugin.EnableRemap | macos/Classes/HardwareSimulatorPlugin.swift:1015-1148 | asked to capture Caps Lock it succeeds exactly if the lease can be had, the recovery succeeds and the remap is applied or reused; then the lease is held and Caps Lock, and nothing else, sends F20 |
| RemapPlugin.LeftoverIsNotReused | macos/Classes/HardwareSimulatorPlugin.swift:1026-1148 | arming never takes a remap left by a crash for the user's own: it owns the remap only over a journal of the user's mapping, and reuses only the user's |
| RemapPlugin.CapsArmsExactly | macos/Classes/HardwareSimulatorPlugin.swift:1026-1148 | with no journal left behind, arming takes or reuses the remap exactly on the answers that let it |
| RemapPlugin.Plugin.Start | macos/Classes/HardwareSimulatorPlugin.swift:375-476 | starting is a run of the system; it is refused and changes nothing while a stop is unfinished, answers for the view while capture is running, and otherwise succeeds exactly if the window is ready, the monitor installs and either Caps Lock is armed or the event tap is in place; if not, it is stopped again |
| RemapPlugin.Plugin.Stop | macos/Classes/HardwareSimulatorPlugin.swift:557-592 | mapping, journal and answer are what the restoration comes to; restored means the lease is free, the user's mapping in force and no retry pending, not restored means the remap is still ours and a retry pends exactly if wanted |
| RemapPlugin.Plugin.RetryFires | macos/Classes/HardwareSimulatorPlugin.swift:594-617 | a retry of a stop is what the restoration comes to; it gives the remap up with the user's mapping in force, or is scheduled again; without a stop it does nothing |
| RemapPlugin.Plugin.Close | macos/Classes/HardwareSimulatorPlugin.swift:304-321 | deinitialisation is a run of the system and what one restoration comes to; the file lock is as before, so it stays taken exactly if this instance held the lease |
| InputQueue.NoReplay | windows/desktop_service_input_client.cpp:489-553 | in every run, what reached the service over a connection is a prefix of what was accepted on that same connection |
| InputQueue.NothingLostWhileLive | windows/desktop_service_input_client.cpp:480-553 | while a connection is live its accepted packets are those delivered, at most one in flight, then the queue, in order |
| InputQueue.DisconnectedIsDrained | windows/desktop_service_input_client.cpp:489-553 | not connected means an empty queue, and an open pipe then has a reset or stop pending |
| InputQueue.PendingResetCloses | windows/desktop_service_input_client.cpp:494-504 | the sender's next turn closes such a pipe before it writes anything more |
| InputQueue.LogsAreTraces | windows/desktop_service_input_client.cpp:480-553 | what each connection's log gained in a run is exactly what the run's events accepted and delivered on it |
| InputQueue.EverythingIsWritten | windows/desktop_service_input_client.cpp:489-553 | after any run, a sender whose service is available gets a connection and empties the queue in at most five turns and two for each packet, and everything accepted on that connection has then been written on it, whatever resets and failures came before |
| InputQueue.NextPacketIsWritten | windows/desktop_service_input_client.cpp:480-547 | the next packet accepted is written within two more turns |
| InputQueue.ConnectedIsServed | windows/desktop_service_input_client.cpp:505-517 | a client is connected only to a service that is there, with no reset and no stop pending |
| InputQueue.FailedWriteCloses | windows/desktop_service_input_client.cpp:528-547 | after a failed write the pipe is closed, the queue dropped and the sender waits |
| InputQueue.IdleSenderWaits | windows/desktop_service_input_client.cpp:493-527 | a sender with nothing to do, or whose connection attempt failed, waits |
| InputQueue.AnnouncedIsServing | windows/desktop_service_input_client.cpp:178-193 | announcing the service has a sender serve it exactly if there is one or one can be started, and disturbs no connection |
| InputQueue.WithdrawnIsReset | windows/desktop_service_input_client.cpp:178-193 | when the service goes away nothing is accepted and a reset is due |
| InputQueue.CloseEnds | windows/desktop_service_input_client.cpp:427-446 | closing stops the acceptance at once and the sender within three turns, after which the client can be started again |
| InputQueue.DesktopServiceInputClient.SetServiceAvailable | windows/desktop_service_input_client.cpp:178-193 | becoming unavailable drops the connection and the queue and requests a reset; becoming available starts the sender if there is none |
| InputQueue.DesktopServiceInputClient.StartInputThread | windows/desktop_service_input_client.cpp:457-478 | answers whether a sender exists afterwards; without an event object nothing changes, and a thread that cannot be created has only cleared the stop flag |
| InputQueue.DesktopServiceInputClient.Enqueue | windows/desktop_service_input_client.cpp:480-487 | a packet is accepted exactly while connected, at the end of the queue |
| InputQueue.DesktopServiceInputClient.BeginClose | windows/desktop_service_input_client.cpp:427-446 | closing up to the join: nothing is accepted from then on |
| InputQueue.DesktopServiceInputClient.LoopTop | windows/desktop_service_input_client.cpp:493-527 | one turn of the sender from the loop's top to its next unlock or wait |
| InputQueue.DesktopServiceInputClient.Connected | windows/desktop_service_input_client.cpp:505-517 | a connection that came up while a reset, stop or disable was requested is not used |
| InputQueue.DesktopServiceInputClient.Written | windows/desktop_service_input_client.cpp:528-547 | after a failed write the packet is not sent again, the queue is dropped and the pipe closed |
| IBusText.OneTransaction | linux/linux_text_input.cc:66-132 | in every run busy means one chain at one control point, a token is held exactly while its expiry is armed, and every completion has fired, is queued or is owed |
| IBusText.CompletionsFireOnce | linux/linux_text_input.cc:27-132 | every completion fires at most once, and exactly once when nothing is pending |
| IBusAnswers.AnswersAreTruthful | linux/linux_text_input.cc:27-140 | in every run a preparation is told the token just issued or 0, an edit 1 exactly if its call put it out and the restoration has now ended with another engine reported or an accepted selection, and a caller who asks for the backend 1 exactly if it is there or has just been registered |
| IBusText.OneBatchPerToken | linux/linux_text_input.cc:110-132 | a token emits at most one edit, and only at the focus revision at which it was issued |
| IBusEdits.FinishEmitsExactly | linux/linux_text_input.cc:110-128 | an edit is put out exactly for the outstanding token, with text that may be typed and at most 4096 backspaces, while our engine has the focus it had when the token was issued; it is then that token, those backspaces and that text |
| IBusEdits.BatchEdits | linux/linux_text_input.cc:118-127 | what is sent deletes that many characters, puts the text in, and leaves no key held |
| IBusEdits.FocusIsFollowed | linux/linux_text_input.cc:142-173 | only signals about the current engine move the focus and its revision, each by one; what every event does to engine, focus and connection |
| IBusEdits.OthersEnginesAreIgnored | linux/linux_text_input.cc:149-171 | a signal about an engine that is not ours any more changes nothing |
| IBusEdits.LateActivationIsUndone | linux/linux_text_input.cc:149-158 | an activation that comes too late starts a restoration |
| IBusEdits.FailedRestorationIsNotReady | linux/linux_text_input.cc:215-231 | the backend stays ready through a restoration exactly if the daemon names an engine and takes ours away |
| IBusText.RestoresOnlyOurs | linux/linux_text_input.cc:215-231 | an engine other than ours is selected only in answer to a report that ours is current, and it is the one found before, neither empty nor ours |
| IBusText.OtherEventsSelectNothing | linux/linux_text_input.cc:66-108 | no other event selects an engine that is not ours |
| IBusText.ResolvingProgress | linux/linux_text_input.cc:66-132 | each reply, expiry or finish takes the transaction strictly closer to its end and keeps the engine it will restore |
| IBusText.BusyClears | linux/linux_text_input.cc:66-231 | however other events interleave, late focus-in included, a transaction survives fewer replies and expiries than its rank, at most six |
| IBusEdits.SmoothTransaction | linux/linux_text_input.cc:66-231 | from every idle state a transaction whose calls are answered well selects our engine, issues a token, puts the edit out, selects the old engine, tells both callers of their success and ends idle and ready |
| IBusText.Backend.Available | linux/linux_text_input.cc:27-64 | each caller is answered at once, or waits for the registration under way; a busy transaction keeps its connection |
| IBusText.Backend.OnInitialized | linux/linux_text_input.cc:135-140 | every waiter is answered with the outcome, once |
| IBusText.Backend.Prepare | linux/linux_text_input.cc:66-69 | refused unless ready, idle and connected; otherwise the chain begins |
| IBusText.Backend.OnReply | linux/linux_text_input.cc:70-107 | what each continuation does with its reply |
| IBusText.Backend.Emit | linux/linux_text_input.cc:118-127 | the keys forwarded are the backspaces, each down and up, and then the text if there is any |
| IBusText.Backend.CheckText | linux/linux_text_input.cc:12-19 | accepts exactly well-formed text of at most 4096 bytes without control characters |
| IBusText.Backend.Finish | linux/linux_text_input.cc:110-132 | the edit is emitted exactly for the current token with acceptable arguments and an unchanged focus; the token is used up either way |
| IBusText.Backend.OnExpiry | linux/linux_text_input.cc:94-100 | an expired token is withdrawn and the engine restored |
| IBusText.Backend.OnFocusIn | linux/linux_text_input.cc:149-158 | a late activation is undone as well |
| IBusText.Backend.OnFocusLost | linux/linux_text_input.cc:159-168 | losing focus or being disabled moves the focus revision, for the current engine only |
| IBusText.Backend.OnDestroy | linux/linux_text_input.cc:169-171 | only the current engine is forgotten |
| IBusText.Backend.Dispatch | linux/linux_text_input.cc:175-196 | a reply goes to the call it answers, and to no other |
| ShortcutRouter.AllOrNothing | macos/Classes/MacOSSystemShortcutRouter.swift:26-46 | every later event of a press is passed exactly when its start was or the press was let go (a reset, or found released after its session stopped), with any arming, stopping, other keys and lost releases |
| ShortcutRouter.SendsToggle | macos/Classes/MacOSSystemShortcutRouter.swift:26-46 | every send changes whether the host has the key down |
| ShortcutRouter.SendsAlternate | macos/Classes/MacOSSystemShortcutRouter.swift:26-46 | two consecutive sends of a key in one session are a down and an up |
| ShortcutRouter.RunKeeps | macos/Classes/MacOSSystemShortcutRouter.swift:26-46 | in every run pressed and tails are disjoint and a disarmed router has nothing pressed |
| ShortcutRouter.SendNeedsShortcut | macos/Classes/MacOSSystemShortcutRouter.swift:31-46 | only an armed router sends, and a captured press begins with a supported shortcut |
| ShortcutRouter.ShortcutIsSent | macos/Classes/MacOSSystemShortcutRouter.swift:31-46 | an armed router sends every supported shortcut whose key the host does not have down |
| ShortcutRouter.ReleaseSettles | macos/Classes/MacOSSystemShortcutRouter.swift:31-46 | a release settles the press of its key, and of no other |
| ShortcutRouter.ArmedUntilStopped | macos/Classes/MacOSSystemShortcutRouter.swift:26-27 | armed means armed and not stopped or reset since |
| ShortcutSends.MatchesIsChord | macos/Classes/MacOSSystemShortcutRouter.swift:11-17 | the shortcuts are Command+Tab with or without Shift, not with Fn, and Control with an arrow, no other modifier |
| ShortcutRouter.HostFlagsKeepShortcut | macos/Classes/MacOSSystemShortcutRouter.swift:11-25 | the flags sent to the host still name the same shortcut, are a fixed point, have Fn exactly for an arrow shortcut, no numeric pad, and the same modifiers |
| ShortcutRouter.Router.Handle | macos/Classes/MacOSSystemShortcutRouter.swift:31-46 | the decision and the new state are those of the history theorems above |
| ShortcutRouter.Router.Stop | macos/Classes/MacOSSystemShortcutRouter.swift:26 | what was pressed becomes a tail |
| ShortcutRouter.Router.Reset | macos/Classes/MacOSSystemShortcutRouter.swift:27 | everything is forgotten |
| ShortcutRouter.Router.ReconcileReleasedKeys | macos/Classes/MacOSSystemShortcutRouter.swift:28-30 | exactly the tails of keys still held remain |
| ShortcutCapture.TapIsBounded | macos/Classes/MacOSSystemShortcutCapture.swift:112-130 | after every call the tap is registered exactly while armed or owing releases, in the second case with a deadline two seconds after the disarming that later stops do not move |
| ShortcutCapture.HealthCheckDecides | macos/Classes/MacOSSystemShortcutCapture.swift:44-61 | a health check keeps the tap exactly while lease, tail time, permissions and tap last |
| ShortcutSends.HealthCheckAsks | macos/Classes/MacOSSystemShortcutCapture.swift:48-61 | a health check leaves an armed capture armed exactly under the same conditions, and then asks, once, with a challenge never used before |
| ShortcutSends.AcknowledgeRenews | macos/Classes/MacOSSystemShortcutCapture.swift:62-67 | an answer renews the lease exactly if it is that of the outstanding challenge, from the owner of a session whose lease has not run out; any other such answer changes nothing |
| ShortcutCapture.SentUnderLease | macos/Classes/MacOSSystemShortcutCapture.swift:44-46 | whatever is sent is sent less than two seconds after arming or the last accepted answer, with no disarming since |
| ShortcutSends.SendsExactly | macos/Classes/MacOSSystemShortcutCapture.swift:131-164 | after every run the next call sends a key exactly if it is a key event in an open session under its lease, permitted and focused, that begins a chord the host does not have or ends one it has; with the session's owner, the host's key, the direction and the modifiers |
| ShortcutSends.SendsAlternate | macos/Classes/MacOSSystemShortcutCapture.swift:154-162 | in every session the sends of a key are a down, an up, a down and so on |
| ShortcutSends.SentKeysAreKnown | macos/Classes/MacOSSystemShortcutCapture.swift:159-161 | a key that is sent is in the table of host keys, so the look-up cannot fail, and the owner is the session's |
| ShortcutSends.FlagsAreSent | macos/Classes/MacOSSystemShortcutCapture.swift:142-149 | a change of modifiers is sent exactly in such a session and never taken from the local system |
| ShortcutSends.TakenExactly | macos/Classes/MacOSSystemShortcutCapture.swift:131-164 | a key event is taken from the local system exactly if it is sent, repeats a key the host has, or settles a release that is owed |
| ShortcutSends.OrdinaryStopOwesReleases | macos/Classes/MacOSSystemShortcutCapture.swift:81-130 | a session ended by its owner or by losing the focus still takes exactly the releases of the keys the host has |
| ShortcutSends.HardStopOwesNothing | macos/Classes/MacOSSystemShortcutCapture.swift:131-138 | a disabled tap or a lost permission lets every key go and closes the tap |
| ShortcutCapture.CapturedUnderLease | macos/Classes/MacOSSystemShortcutCapture.swift:131-164 | an event is taken from the local system only while the gate permits it: by an armed capture only less than two seconds after arming or the last accepted answer, by a disarmed one only as a repeat or the release of a key captured before |
| ShortcutCapture.ChallengeAcceptedOnce | macos/Classes/MacOSSystemShortcutCapture.swift:47-67 | no challenge is accepted twice, ever, and only from the owner it was put to in the same session |
| ShortcutCapture.SetAnswers | macos/Classes/MacOSSystemShortcutCapture.swift:81-111 | enabling answers true exactly when it leaves the capture armed, then for the asking owner with the tap registered; another owner's disable changes nothing |
| ShortcutSends.ReadyArms | macos/Classes/MacOSSystemShortcutCapture.swift:81-111 | enabling succeeds exactly if the capture is armed and working already, or the gate is open, no release is owed and the tap can be had |
| ShortcutCapture.Capture.SetEnabled | macos/Classes/MacOSSystemShortcutCapture.swift:81-111 | the whole call, refusals included, for every outcome of the gate and of registering the tap |
| ShortcutCapture.Capture.Stop | macos/Classes/MacOSSystemShortcutCapture.swift:112-130 | the tap closes unless releases are owed; the owner is told exactly if it was armed |
| ShortcutCapture.Capture.OnHealthTimer | macos/Classes/MacOSSystemShortcutCapture.swift:44-61 | expiry, tail time-out, gate, then at most one outstanding challenge |
| ShortcutCapture.Capture.OnAcknowledge | macos/Classes/MacOSSystemShortcutCapture.swift:62-67 | only the outstanding challenge from the armed owner renews the lease |
| ShortcutCapture.Capture.OnTap | macos/Classes/MacOSSystemShortcutCapture.swift:131-164 | one event of the tap, from the expiry check to closing a drained tap |
| PointerCapture.RunsAreCaptures | linux/linux_pointer_capture.cc:69-101 | in every run the notifications are captures one after the other, the last open exactly while requested; resources are taken and freed alternately and none is held without a request; the pointer is placed while locked, or ungrabbed and still hidden |
| PointerCapture.EachRequestEndsOnce | linux/linux_pointer_capture.cc:69-101 | each ended request was told so exactly once after at most one "locked", with its motions strictly between, under its own generation |
| PointerNotes.EventTells | linux/linux_pointer_capture.cc:102-260 | in every reachable state an event reports exactly its relative, finite motions that are not zero, each with its own two distances and the generation of the capture, or the one place where the pointer is put back |
| PointerNotes.MotionIsConserved | linux/linux_pointer_capture.cc:231-260 | over every run the distances reported on an axis add up to those moved on it while captured |
| PointerNotes.EndIsExplained | linux/linux_pointer_capture.cc:77-101 | a capture that ends is told so last, with its generation and the reason of the event that ended it; other events leave it under way |
| PointerNotes.RequestIsExplained | linux/linux_pointer_capture.cc:261-326 | a request ends the one before with "replaced" and is told "failed" when it fails half-way |
| PointerCapture.NothingLeaks | linux/linux_pointer_capture.cc:77-101 | without a capture every resource was released exactly as often as it was acquired |
| PointerCapture.LockAnswers | linux/linux_pointer_capture.cc:261-326 | a request answers success exactly when a capture is under way afterwards, on X11 a complete one |
| PointerNotes.LockSucceedsExactly | linux/linux_pointer_capture.cc:261-326 | a request succeeds exactly if nothing it depends on is missing, and otherwise holds nothing |
| PointerCapture.StaleUnlockIsSilent | linux/linux_pointer_capture.cc:335-342 | an unlock or a reseed does or says anything exactly when it names the capture under way |
| PointerCapture.PlaceInside | linux/linux_pointer_capture.cc:117-122 | a reseed position is a pixel of the view, and both edges are reached |
| PointerCapture.PlaceMonotone | linux/linux_pointer_capture.cc:117-122 | a larger coordinate never gives a smaller pixel position |
| PointerNotes.PlaceIsTheCoordinate | linux/linux_pointer_capture.cc:117-122 | inside the view the place is the coordinate itself in pixels, only the last pixel is cut off |
| PointerCapture.Capture.Release | linux/linux_pointer_capture.cc:77-101 | everything held is freed once, then the embedder is told if there was a request |
| PointerCapture.Capture.OnConfirmed | linux/linux_pointer_capture.cc:69-76 | a request not yet active becomes active, hides the cursor and ends its time limit |
| PointerCapture.Capture.LockPointer | linux/linux_pointer_capture.cc:261-326 | a request replaces the previous capture and fails without a trace at any step |
| PointerCapture.Capture.ReseedAndRelease | linux/linux_pointer_capture.cc:102-151 | releases in every case; places the pointer only when active and placeable |
| PointerCapture.Capture.UnlockGeneration | linux/linux_pointer_capture.cc:335-337 | only the named generation is released |
| PointerCapture.Capture.OnRawInput | linux/linux_pointer_capture.cc:231-260 | motions are reported while active, for relative devices, finite and not zero |
| PointerCapture.Capture.OnTimeout | linux/linux_pointer_capture.cc:320-323 | an unconfirmed Wayland request is released after its limit |
| DisplayBackup.RoundTrip | windows/virtual_display_control.cc:1104-1325 | whatever happens after a switch was saved, the next restoration succeeds exactly when both layouts are accepted, directly or where access is denied by the service, and then the shown and the remembered layout are those from before the switch and nothing is pending; otherwise the switch is pending with the same backups |
| DisplayBackup.NothingToRestore | windows/virtual_display_control.cc:1259-1263 | with nothing pending a restoration succeeds and changes nothing |
| DisplayBackup.SwitchSaves | windows/virtual_display_control.cc:1107-1117 | a switch leaves something pending exactly when both layouts could be read, and then it is those two layouts |
| DisplayBackup.AsksForTheDisplay | windows/virtual_display_control.cc:1143-1239 | a layout is asked for exactly if the configuration was read and the first display listed with that identifier has a path; then exactly that path is on in it, its mode at the origin, all else as it was |
| DisplayBackup.SwitchDecides | windows/virtual_display_control.cc:1104-1257 | a switch succeeds exactly if nothing is pending, both layouts could be saved, the display has a path and the system agrees; then it shows and stores what the system makes of the layout asked for |
| DisplayBackup.BackupsStay | windows/virtual_display_control.cc:1259-1296 | backups never change while a switch is pending |
| DisplayBackup.ExclusiveSurvivesFullscreen | windows/virtual_display_control.cc:1206-1257 | because it was applied with the save flag, the layout survives any sequence of games leaving full screen and further switches; where the system took it as asked, exactly the path of the display asked for is on |
| DisplayBackup.ExclusiveIsExclusive | windows/virtual_display_control.cc:1206-1239 | exactly one path is active, its source mode is at the origin at its old size, and nothing else differs |
| DisplayBackup.TargetIsUnique | windows/virtual_display_control.cc:1159-1204 | at most one answer fits the description of the target path |
| DisplayBackup.FindPath | windows/virtual_display_control.cc:1159-1204 | finds the first active path with the display's name, or without one the active path with the display's number, or says there is none |
| DisplayBackup.QueriedIs | windows/virtual_display_control.cc:1303-1319 | a query answers exactly when one of five attempts succeeds after only too-small buffers, on a layout that is not empty |
| DisplayBackup.MakeExclusive | windows/virtual_display_control.cc:1206-1239 | the two in-place loops give the exclusive layout |
| DisplayBackup.VirtualDisplayControl.SaveDisplayConfiguration | windows/virtual_display_control.cc:1302-1325 | both layouts are saved, or nothing is |
| DisplayBackup.VirtualDisplayControl.SetPrimaryDisplayOnly | windows/virtual_display_control.cc:1104-1257 | refused while pending; otherwise saved first, then applied if a target was found |
| DisplayBackup.VirtualDisplayControl.RestoreDisplayConfiguration | windows/virtual_display_control.cc:1259-1296 | the remembered layout is stored first, then the shown one applied, each directly or through the service |
| CursorImage.AddCursorOutline | windows/cursor_monitor.cc:73-91 | the in-place pass gives what deciding every pixel on the original image gives |
| CursorImage.OutlinedAt | windows/cursor_monitor.cc:73-91 | a pixel turns white exactly if it was clear and touched a black one above, below, left or right |
| CursorImage.OutlineIdempotent | windows/cursor_monitor.cc:73-91 | a second pass changes nothing, and pixels that were not clear are never touched |
| CursorImage.AlphaMul | windows/cursor_monitor.cc:95-109 | after the pass every colour component is at most its alpha, and each pixel is the premultiplied original |
| CursorImage.HasAlphaChannel | windows/cursor_monitor.cc:47-58 | true exactly if some pixel of the rectangle has alpha |
| CursorImage.MergeMask | windows/cursor_monitor.cc:168-189 | every pixel is merged with its mask, and an outline is asked for exactly if some pixel would invert the screen |
| CursorImage.DrawCursor | windows/cursor_monitor.cc:156-195 | the passes in the order the source runs them |
| CursorImage.MaskedCursorIsSharp | windows/cursor_monitor.cc:156-195 | a cursor without alpha comes out opaque or clear everywhere, premultiplication changes nothing, and under a white mask exactly the inverting pixels are black |
| CursorFrame.EncodeCursorBitmapFrame | windows/cursor_monitor.cc:345-462 | the bytes are the documented frame, on a host of either byte order |
| CursorFrame.RoundTrip | windows/cursor_monitor.cc:345-462 | the frame has 29 bytes and four per pixel, and a decoder recovers every field and pixel |
| CursorFrame.FrameInjective | windows/cursor_monitor.cc:345-462 | different cursors have different frames |
| CursorFrame.DecodeIsExact | windows/cursor_monitor.cc:345-462 | bytes that decode are the frame of what they decode to |
| CursorFrame.PushField | windows/cursor_monitor.cc:359-372 | a field goes out most significant byte first, whichever loop the probe selects |
| CursorFrame.PushPixel | windows/cursor_monitor.cc:446-460 | a pixel goes out least significant byte first, whichever loop the probe selects |
| CursorCache.CachedResolves | windows/cursor_monitor.cc:470-540 | every hash a subscriber is sent was sent to it with its image since its hook started |
| CursorCache.CacheRefinesAlwaysSend | windows/cursor_monitor.cc:470-540 | without a hash collision a subscriber shows after every message what it would show if it were sent every image, whatever its store held before |
| CursorCache.SyncReaches | windows/cursor_monitor.cc:470-479 | after every run a sync reaches a subscriber exactly when the handle is not the last one, and without a collision it then shows the current cursor if and only if it was reached or showed it before |
| CursorCache.StaleAfterRestart | windows/cursor_monitor.cc:464-479 | a cursor that changes while nobody is hooked and then back leaves a new subscriber with the wrong one |
| CursorCache.StartShows | windows/cursor_monitor.cc:709-756 | a new subscriber shows the current cursor at once if it can be shown; nobody else and not the last handle is touched |
| CursorCache.RatioIsKeptInRange | windows/cursor_monitor.cc:28-40 | the ratio used from then on is the one asked for, kept between a quarter and eight |
| CursorCache.EndForgets | windows/cursor_monitor.cc:770-776 | exactly this subscriber is forgotten, in every run |
| CursorCache.UnseenSync | windows/cursor_monitor.cc:470-476 | with nobody hooked, or without a cursor, a sync is not even remembered |
| CursorCache.CursorMonitor.SyncCursorImage | windows/cursor_monitor.cc:470-540 | every subscriber is sent one message, in any order of the callback table |
| CursorCache.CursorMonitor.StartHook | windows/cursor_monitor.cc:709-756 | a new subscriber starts with an empty cache and the current cursor |
| CursorCache.CursorMonitor.EndHook | windows/cursor_monitor.cc:770-776 | exactly this subscriber is forgotten |
| Keyboard.PressedIsWhatWasWritten | linux/linux_keyboard.h:44-84 | whatever fails, each key's successful writes alternate press and release, and the pressed keys are those last told to the kernel as pressed |
| Keyboard.ZeroMeansReported | linux/linux_keyboard.h:44-84 | whenever a call answers 0 every successful key write has been followed by a successful report |
| Keyboard.ClearedKeeps | linux/linux_keyboard.h:60-72 | clearing answers 0 exactly if every release and the report got through; keys it could not release stay pressed |
| Keyboard.SendIsIdempotent | linux/linux_keyboard.h:44-58 | a send that answered 0 can be repeated: nothing is written and the answer is 0 |
| Keyboard.ClearAgainOnlyReports | linux/linux_keyboard.h:60-72 | a clear that answered 0 can be repeated: no key is written, and one report exactly if there is a device |
| Keyboard.KnownKeyIsWritten | linux/linux_keyboard.h:44-58 | a known key is written with its own code and direction whenever its state changes, then reported; without a change only a missing report is made good; what is then pressed and answered |
| Keyboard.UnknownKeyIsRefused | linux/linux_keyboard.h:19-23 | a key outside 0..255 or without a code is refused and changes nothing |
| Keyboard.DeviceIsCreatedOnce | linux/linux_keyboard.h:25-42 | the device is created at most once, and the answer is that of its creation |
| Keyboard.LinuxKeyboard.Send | linux/linux_keyboard.h:44-58 | one send under any outcome of creation, write and report |
| Keyboard.LinuxKeyboard.Clear | linux/linux_keyboard.h:60-72 | the erasing loop, in any order of the pressed keys |
| Keyboard.LinuxKeyboard.Initialize | linux/linux_keyboard.h:25-42 | the device exists afterwards exactly if it did before or its creation succeeded |
| ChordRouter.FnIntent | macos/Classes/MacOSInputSourceChordRouter.swift:44-62 | "fn" is produced exactly at a release whose matching press had no other modifier and was not disturbed |
| ChordRouter.FnIsConsumed | macos/Classes/MacOSInputSourceChordRouter.swift:48-60 | of the Fn key exactly a press that has been alone so far and the release that gives the intent are consumed |
| ChordRouter.OthersPass | macos/Classes/MacOSInputSourceChordRouter.swift:44-75 | every event that is neither a change of a captured Fn key nor of Space is passed on |
| ChordRouter.ControlSpaceIntent | macos/Classes/MacOSInputSourceChordRouter.swift:63-74 | a Space event is consumed exactly if it belongs to a captured chord, from press to release, and the intent comes with the press alone |
| ChordRouter.OneIntentPerPress | macos/Classes/MacOSInputSourceChordRouter.swift:63-74 | between two Control+Space intents the key was released |
| ChordRouter.OpenPressIsUnique | macos/Classes/MacOSInputSourceChordRouter.swift:48-60 | a release matches at most one press |
| ChordRouter.Router.Route | macos/Classes/MacOSInputSourceChordRouter.swift:44-74 | the decision and the state of the history theorems above |
| GlobeGate.OnePairPerFn | macos/Classes/MacOSInputSourceChordRouter.swift:17-27 | an event is swallowed only within 0.15 s after a completed Fn, as the first of the pair with nothing swallowed since, or as the second after just that first |
| GlobeGate.PairEndsTheWait | macos/Classes/MacOSInputSourceChordRouter.swift:21-27 | after the second of a pair nothing is swallowed until Fn is completed again |
| GlobeGate.PairIsSwallowed | macos/Classes/MacOSInputSourceChordRouter.swift:17-27 | a pair that comes in time is swallowed whole |
| GlobeGate.PairIsTaken | macos/Classes/MacOSInputSourceChordRouter.swift:21-27 | whatever else is offered or begun in between, while nothing interrupts the wait and nothing comes too late, each of the pair is swallowed in its turn |
| GlobeGate.Gate.Consume | macos/Classes/MacOSInputSourceChordRouter.swift:21-27 | one offered event, expired, unrelated or one of the pair |
| GlobeGate.Gate.CancelForNewAction | macos/Classes/MacOSInputSourceChordRouter.swift:8-15 | a new action ends the wait, and the answer says whether there was one |
| PointerCoordinates.AbsoluteCoordinatesInvert | windows/hardware_simulator_plugin.cpp:392-439 | for a monitor inside the desktop every finite position becomes coordinates in 0..65535 from which exactly the meant pixel is recovered |
| PointerCoordinates.AbsoluteCoordinatesMonotone | windows/hardware_simulator_plugin.cpp:392-439 | moving on never moves the coordinates back, and a different pixel gives a different coordinate |
| PointerCoordinates.RecoveryLimit | windows/hardware_simulator_plugin.cpp:406-420 | every pixel can be recovered if and only if the desktop has at most 65536 of them on that axis |
| PointerCoordinates.ScaledStrict | windows/hardware_simulator_plugin.cpp:406-420 | different pixels never share a coordinate |
| PointerCoordinates.ScaledEnds | windows/hardware_simulator_plugin.cpp:406-420 | the first and the last pixel get the coordinates 0 and 65535 |
| PointerCoordinates.MulDivRounds | windows/hardware_simulator_plugin.cpp:406-420 | the scaling is the nearest integer to the quotient whatever the signs, and -1 without one or out of range |
| PointerCoordinates.AxisInside | windows/pointer_coordinates.h:13-31 | any finite input lands on a pixel of the monitor, and both edges are reached |
| PointerCoordinates.AxisMonotone | windows/pointer_coordinates.h:13-31 | a larger fraction never gives a smaller pixel |
| PointerCoordinates.AxisOnto | windows/pointer_coordinates.h:13-31 | every pixel is reached, by its own fraction |
| PointerCoordinates.LroundIsNearest | windows/pointer_coordinates.h:26-30 | rounding gives the nearest pixel, and between two the one further from zero |
| PointerCoordinates.ScreenPointIsNearest | windows/pointer_coordinates.h:13-31 | the point is the pixel nearest to the position on either axis |
| PointerCoordinates.ScreenPointDecides | windows/pointer_coordinates.h:13-31 | there is a point exactly for finite positions on a known monitor that is not empty |
| PointerCoordinates.MonitorRectIs | windows/hardware_simulator_plugin.cpp:101-111 | the rectangle is that of the first monitor with the identifier, or there is none |
| PointerCoordinates.AdjustToScreen | windows/hardware_simulator_plugin.cpp:422-439 | fails with the origin for an unknown screen, an empty rectangle or a position that is not finite |
| PointerCoordinates.AdjustToVirtualDesktopPixels | windows/hardware_simulator_plugin.cpp:392-404 | the point relative to the desktop's origin, on the same inputs |
| PointerCoordinates.AdjustToVirtualDesktop | windows/hardware_simulator_plugin.cpp:406-420 | the coordinates the theorems above speak of, on the same inputs |
| ScrollRemainder.Conserved | linux/linux_mouse.cc:11-26 | for each device and axis, after any interleaving, detents and remainder add up to the distance and the remainder is less than a detent |
| ScrollRemainder.DistanceIsExact | linux/linux_mouse.cc:23-25 | the distance reported is the distance scrolled while the device existed |
| ScrollRemainder.LinuxMouse.Scroll | linux/linux_mouse.cc:11-26 | one scroll touches its own remainder and emits its own events |
| TrackpadScroll.NothingLost | windows/trackpad_scroll_accumulator.h:17-40 | over a run without clamping the units reported are less than one unit off the distance, but for a billionth per frame |
| TrackpadScroll.Drift | windows/trackpad_scroll_accumulator.h:17-40 | inputs minus outputs minus residual is at most a billionth per frame |
| TrackpadScroll.ResidualBounded | windows/trackpad_scroll_accumulator.h:35-38 | the residual stays below one unit in every run |
| TrackpadScroll.OutputBounded | windows/trackpad_scroll_accumulator.h:22-33 | every output is within the limit, clamped or not |
| TrackpadScroll.NearWholeIsWhole | windows/trackpad_scroll_accumulator.h:26-38 | a distance within a billionth of a whole number counts as that number and leaves nothing over |
| TrackpadScroll.ElseCutOff | windows/trackpad_scroll_accumulator.h:26-38 | every other distance is cut off towards zero and the rest is carried on |
| TrackpadScroll.LeftoverIsReal | windows/trackpad_scroll_accumulator.h:35-38 | what is left over is nothing or at least the tolerance |
| TrackpadScroll.InvertMirrors | windows/trackpad_scroll_accumulator.h:22-38 | turning the direction around turns the output and the residual around |
| TrackpadScroll.TrackpadScrollAccumulator.Convert | windows/trackpad_scroll_accumulator.h:17-40 | one frame, ignored if it is not finite |

## Left out

- All calls into IOKit, D-Bus, GTK, X11, Wayland, Win32 and Flutter: each is a parameter or an event that says how it turned out.
- A Caps Lock mapping write that lands in part: the code promises nothing after a crash in the middle of one.
- The difference between cached preferences and preferences on disk: one journal value stands for both, and a failed commit may leave any of the three outcomes.
- The journal's JSON and version: a journal decodes or does not.
- How macOS capture finds its view, its window ready and its event tap installed (`macos/Classes/HardwareSimulatorPlugin.swift:382-396`, `437-447`): booleans of `RemapPlugin.Plugin.Start`.
- RemapPlugin.Plugin.Start: does not model the status reports and diagnostics sent to Flutter.
- The NSLock around the lease: the lease operations are single steps.
- The sender's infinite loop: each stretch it runs under the mutex is one method, and its condition-variable waits may end at any time.
- `Close` of the input client running while availability changes: both are called from the platform thread.
- The 64-bit wrap-around of IBus tokens and focus revisions, which are unbounded here.
- UTF-8 validation: one boolean says whether the library accepts the text, and text is a sequence of bytes.
- The IBus connection's two views, the bus object's and the D-Bus connection's: one flag stands for both, and it may come back by itself.
- IBusText.Backend.Available: does not model a registration that is still outstanding on a connection that a new one replaces, because the code never starts a second one.
- Several clock readings within one call of the shortcut capture: one reading per call.
- A tail event after the deadline and before the next health check is still consumed, as in the code; the deadline bounds the health check, not the event.
- The XInput device query and its cache, and how the two distances are read out of an event's valuators: each raw event says whether its device is relative, and what they are. Rounding of the pointer position to device pixels and the walk from a child window to the native one are not modelled either.
- The registry globals and the probe connection of `supported`: one boolean.
- What the backup vectors hold after a failed query; nothing reads them.
- How the system adjusts a layout it accepts with changes allowed: an exclusive switch may show any layout, which is then the stored one too, and one that fails may leave any two; a restoration is taken to show the layout it was given.
- `CursorBitmapHash`: the cache theorem holds for any hash function and asks only that the images shown do not collide.
- Cursor visibility and position messages, and the event hook itself.
- CursorFrame.EncodeCursorBitmapFrame: takes the ratio as the 32 bits of its float.
- Floating-point rounding: coordinates and trackpad distances are real numbers; values that are not finite are an absent option.
- 32-bit overflow of monitor sizes and of wheel distances.
- The table from virtual keys to Linux codes: a parameter.
- Local Fn balance, touch slots, rumble, display lists, method dispatch, the iOS and Android plugins: easy, or not promised by the code.
