# Smart-home dashboard: the state store, the water tank and the confirmation gate

A Dafny model of the core of a React smart-home dashboard. The dashboard keeps
rooms, devices (lights, fans and one water pump), a water tank and settings in
component state. A one-second timer simulates the tank: it drains while the
pump is off, fills while it runs, and in AUTO mode starts and stops the pump
around two thresholds. Handlers switch devices, change their values, replace
them from the settings panel, sync with the "hardware", add rooms and devices,
and delete them behind a confirmation dialog.

Modules:

- `Types` holds the entities (`Device`, `Room`, `TankState`, `Settings`, `LogEntry`), the events the handlers issue (`Logged`, `Notified`) and the initial state.
- `Seqs` models `Array.filter`, as `Keep`, and the counting that the invariants are phrased in.
- `Strings` models the ECMAScript whitespace set and `String.prototype.trim`.
- `Tank` models the tick of the tank timer, with its random drain as an input; the sync level update; and the mode flip.
- `Devices` models the device-list updaters (`toggleDeviceState`, the value change, `handleUpdateDevice`) and the single-pump invariants.
- `WaterLevel` models the tank panel: the fill colour, the two warnings and the two buttons.
- `ConfirmationModal` models the dialog's "DELETE" gate.
- `Feed` models where the events go: `addLog` appends to the log; `showNotification` replaces the notification on screen and cues a sound.
- `Dashboard` models the whole store as one state `App`. It has one pure step per handler (`Step`) and a coherence invariant that every admissible step keeps.

Every handler is a pure function from the state, plus its inputs, to an `Outcome`. An outcome is the next state with the ordered events the handler issued, or `Crash` when the source would throw.

Inputs that the source draws at run time are made parameters:

- `Math.random() > 0.7` becomes the tick's `drain` flag.
- The sync jitter `Math.random() * 2 - 1` becomes `jitter`.
- The ids built from `Date.now()` become `freshId`.
- A log entry's random id and its timestamp become a `Stamp`.

## Model

| member | source | states |
|---|---|---|
| Seqs.Keep | App.tsx:261 | `filter` keeps exactly the elements that pass, each as often as before, and nothing else |
| Seqs.KeepLength | App.tsx:280 | the filtered list is as long as the number of passing elements |
| Seqs.KeepAppend | App.tsx:282 | filtering distributes over concatenation, so it keeps the order |
| Seqs.CountAtMostOne | App.tsx:297 | when at most one element passes, any two passing positions are the same position |
| Strings.Trim | App.tsx:305 | `trim` strips exactly a blank prefix and a blank suffix: the name is white space, then the result, then white space, and a non-empty result neither starts nor ends with white space |
| Strings.TrimEmptyIffBlank | App.tsx:305 | `!name.trim()` holds exactly when every character of the name is whitespace |
| Tank.NextLevel | App.tsx:150-159 | the pump-off branch drains by at most 0.5 and never below 0; the pump-on branch fills by at most 2 and never above 100; the level stays in [0, 100] |
| Tank.Notices | App.tsx:161-169 | LOW fires exactly when the level has fallen to within 0.5 of the low threshold; HIGH fires exactly when it has risen to within 0.5 of the high one; FULL fires exactly when the level crosses 99 upward; when HIGH and FULL fire together, HIGH comes first, so FULL is the notice left on screen |
| Tank.Tick | App.tsx:148-191 | AUTO is a hysteresis band: a stopped pump starts at or below low, a running pump stops at or above high. MANUAL only stops a running pump once the tank is at 100. A pump command is issued exactly when the motor flag changes. The events are the notices followed by the transition's log lines |
| Tank.LevelStep | App.tsx:153-159 | each tick takes a full step, or stops at the wall it would cross |
| Tank.TicksStayInRange | App.tsx:148-191 | any sequence of ticks keeps the level in [0, 100] and keeps the mode |
| Tank.FullNoticeOncePerCrossing | App.tsx:167-169 | the "tank full" notice never fires on two consecutive ticks |
| Tank.LowNoticeRepeats | App.tsx:161-163 | the LOW notice is not once per crossing: with low 20.25, a slow drain from 21 raises it at 20.5 and again at 20 |
| Tank.HighNoticeOncePerRise | App.tsx:164-166 | with the high threshold at most 99.5, the HIGH notice never fires on two consecutive ticks |
| Tank.HighNoticeRepeatsAtCap | App.tsx:164-166 | with the high threshold at 99.8, a running tank from 97.5 raises HIGH at 99.5 and again at 100 |
| Tank.ScenarioLowStart | App.tsx:171-175 | the tank half of a tick in AUTO, stopped, at 19 with a drain and low 20: the level goes to 18.5, a start command is issued, and the tank's own events are only the start log (the pump's switch log follows from the store, in `Dashboard.ScenarioLowStartSwitchesPump`) |
| Tank.ScenarioHighStop | App.tsx:176-180 | the tank half of a tick in AUTO, running, at 89 with high 90: the level goes to 91, a stop command is issued, and the tank's own events are only the stop log (see `Dashboard.ScenarioHighStopSwitchesPump` for the whole tick) |
| Tank.ScenarioEmergencyStop | App.tsx:183-188 | the tank half of a tick in MANUAL, running, at 99: the level goes to 100, a stop command is issued, and the tank's own events are the log line and the alert (see `Dashboard.ScenarioEmergencyStopSwitchesPump` for the whole tick) |
| Tank.Clamp | App.tsx:295 | `max(0, min(100, x))` is the point of [0, 100] nearest to x |
| Tank.SyncLevel | App.tsx:293-296 | a sync moves the level by the jitter when that stays in range; below 0 it lands on 0, above 100 on 100 |
| Tank.ToggleMode | App.tsx:409 | the mode button flips AUTO and MANUAL and leaves the level and the motor alone |
| Devices.ToggleDeviceState | App.tsx:197-211 | each device with the id gets its switched state (the forced state, else the opposite); every other device stays as it was and where it was; the level and mode are untouched |
| Devices.ToggleWithoutPumpKeepsTank | App.tsx:201-206 | a switch that addresses no pump leaves the tank as it was |
| Devices.ToggleLogsEachSwitch | App.tsx:203-205 | a switch issues exactly one log entry per device with the id, and nothing else |
| Devices.ToggleFollowsPump | App.tsx:201-202 | with a single pump, switching it leaves the motor flag equal to the pump's new state |
| Devices.ToggleUniqueLogsOnce | App.tsx:203-205 | switching an id that exactly one device has issues that device's switch log and nothing else |
| Devices.ForcedToggleKeepsTank | App.tsx:175 | forcing the pump to the state the tank already reports leaves the tank unchanged |
| Devices.ToggleTwiceRestores | App.tsx:200 | switching the same id twice without a forced state gives back the original list |
| Devices.ToggleKeepsPumpInSync | App.tsx:197-211 | a switch keeps the motor flag equal to the single pump's state, or restores that agreement when it addresses the pump |
| Devices.SetValue | App.tsx:231-236 | only the value of the devices with the id changes |
| Devices.UpdateDevice | App.tsx:239-252 | each device with the id is replaced by the update, every other device stays as it was and where it was, and the level and mode are untouched |
| Devices.UpdateTank | App.tsx:245-247 | the motor flag takes the update's on/off state exactly when the update changes the state of a pump it replaces; otherwise the tank is untouched |
| Devices.UpdateLogsEachSwitch | App.tsx:242-244 | an update issues exactly one log entry per replaced device whose on/off state changes, and nothing else |
| Devices.UpdateUniqueLogsOnce | App.tsx:242-244 | updating an id that exactly one device has logs "<name> manually switched ON/OFF from settings" as info when the update switches that device, and nothing otherwise |
| Devices.UpdateKeepsPumpInSync | App.tsx:245-247 | a same-kind replacement keeps the motor flag equal to the single pump's state |
| Devices.FindById | App.tsx:220 | `find` returns the first device with the id, and None exactly when there is none |
| Devices.FindPump | App.tsx:297 | `find` returns the first MOTOR device, and None exactly when there is none |
| Devices.RemoveKeepsPumpInSync | App.tsx:261 | removing devices keeps at most one pump, in agreement with the tank |
| Devices.AppendKeepsPumpInSync | App.tsx:331 | appending a device that is not a second pump, and that agrees with the tank, keeps the invariants |
| WaterLevel.LevelColor | components/WaterLevel.tsx:21-25 | amber exactly below low; red exactly above high when not below low; emerald exactly between them |
| WaterLevel.View | components/WaterLevel.tsx:44-111 | the low warning shows exactly below low and the overflow warning exactly above high. The motor button is disabled exactly in AUTO. Its label and the status follow the motor flag. The mode button names the other mode |
| WaterLevel.WarningsExclusive | components/WaterLevel.tsx:84-93 | with low <= high, the two warnings never show together |
| WaterLevel.AutoTickAgreesWithPanel | components/WaterLevel.tsx:84-93 | after an AUTO tick, the low warning implies the pump runs, and the overflow warning implies it is stopped |
| ConfirmationModal.ConfirmDisabled | components/ConfirmationModal.tsx:26 | the confirm button is disabled only in a guarded dialog, and there exactly until "DELETE" is typed |
| ConfirmationModal.HandleConfirm | components/ConfirmationModal.tsx:20-24 | `onConfirm` runs exactly when the button is enabled, and the input is cleared only then |
| ConfirmationModal.TypeInput | components/ConfirmationModal.tsx:64 | typing replaces the input and nothing else |
| ConfirmationModal.Render | components/ConfirmationModal.tsx:18-91 | a closed dialog renders nothing. An open dialog disables confirm exactly when the gate is closed, and shows the banner, the field and the "Authorize" label exactly when the passphrase is required |
| ConfirmationModal.TypedPassphraseUnlocks | components/ConfirmationModal.tsx:21-26 | after typing, a press confirms exactly when no passphrase is required or "DELETE" was typed |
| ConfirmationModal.ConfirmsOncePerPassphrase | components/ConfirmationModal.tsx:20-24 | a guarded dialog confirms once per typing of the passphrase |
| Feed.AddLog | App.tsx:129-136 | one entry with the given stamp is appended, and every earlier entry is kept |
| Feed.SoundFor | App.tsx:140-142 | a sound plays exactly when sounds are on: the alarm for alerts, the chosen sound for successes |
| Feed.Commit | App.tsx:138-144 | applying events only adds sounds after the ones already cued |
| Feed.CommitNotification | App.tsx:138-139 | the notification on screen is the last one issued, else the previous one |
| Feed.CommitSounds | App.tsx:140-142 | one sound is cued per notification while sounds are on, and none while they are off |
| Feed.CommitLogs | App.tsx:129-136 | the log becomes the old log followed by one stamped entry per log event, in order |
| Dashboard.PassOn | App.tsx:196-210 | a tank step applied to the store: the tank takes its new state; with a pump command, exactly the devices with the target id take the commanded state, and every other device is unchanged. The events are the tank's own events, then one log entry per switched device |
| Dashboard.TankTickAsWritten | App.tsx:148-191 | the tick as wired: the tank steps; when the motor flag changes, exactly the devices with id "d4" take the new state. Every other device is unchanged. The events are the tank's own events, then one log entry per switched device |
| Dashboard.TankTick | App.tsx:171-187 | the corrected tick: with no pump, only the tank changes and only the tank's events are issued. Otherwise the devices with the first MOTOR device's id take the commanded state, every other device is unchanged, and one log entry per switched device follows the tank's events |
| Dashboard.TickMovesPumpWithTank | App.tsx:171-187 | when the corrected tick changes the motor flag, the pump ends in the same state as the flag |
| Dashboard.TickSwitchesLonePump | App.tsx:171-187 | in a store where exactly one device is "d4", a tick as written that commands the pump switches that device alone to the new motor state, and its one switch log follows the tank's events |
| Dashboard.InitialThresholds | App.tsx:94-95 | the initial store ticks against the thresholds 20 and 90 |
| Dashboard.InitialPumpLogs | App.tsx:203-205 | the initial pump's switch logs read "Main Pump turned ON" (an alert) and "Main Pump turned OFF" (info) |
| Dashboard.InitialScenarioTick | App.tsx:171-187 | from the initial store with any tank state, a tick that commands the pump leaves the initial store with the new tank state and "d4" following it, and issues the tank's events then the pump's switch log |
| Dashboard.ScenarioLowStartSwitchesPump | App.tsx:171-175 | the whole tick from the initial store in AUTO, stopped, at 19 with a drain: the level goes to 18.5, the motor flag and "d4" turn on, and the events are the start log then "Main Pump turned ON" as an alert |
| Dashboard.ScenarioHighStopSwitchesPump | App.tsx:176-180 | the whole tick from the initial store in AUTO, running, at 89: the level goes to 91, the motor flag and "d4" turn off, and the events are the stop log then "Main Pump turned OFF" |
| Dashboard.ScenarioEmergencyStopSwitchesPump | App.tsx:183-188 | the whole tick from the initial store in MANUAL, running, at 99: the level goes to 100, the motor flag and "d4" turn off, and the events are the emergency log, the alert, then "Main Pump turned OFF" |
| Dashboard.ToggleDeviceUI | App.tsx:213-227 | in MANUAL control mode, only the remote-mode advisory; for a pump while the tank is in AUTO, only the pump advisory; otherwise exactly the switch |
| Dashboard.ChangeDeviceValue | App.tsx:229-237 | ignored in MANUAL control mode; otherwise only the value of the devices with the id changes |
| Dashboard.UpdateDeviceFromSettings | App.tsx:239-252 | each device with the id is replaced by the update, and only the devices and the tank change |
| Dashboard.UpdateFromSettingsLogs | App.tsx:242-244 | the settings handler, on an id that exactly one device has, issues that device's "manually switched ... from settings" info log when it switches it, and no event otherwise |
| Dashboard.MotorButton | App.tsx:410-416 | inert in AUTO. In MANUAL it goes through the toggle handler for the first MOTOR device, or flips the bare motor flag when there is no pump |
| Dashboard.ToggleTankMode | App.tsx:409 | flips the mode and changes nothing else |
| Dashboard.SystemSync | App.tsx:292-302 | the level moves by the jitter when that stays in [0, 100], and lands on 0 or 100 when it would leave it; the motor flag copies the pump when there is one, and the success log is issued |
| Dashboard.RequestDeleteDevice | App.tsx:254-266 | opens an unguarded dialog whose confirm removes that device, and keeps the typed input |
| Dashboard.RemoveDeviceConfirmed | App.tsx:260-264 | exactly the devices with that id are removed, the others keep their order, the dialog closes, nothing else changes, and one alert log line is issued |
| Dashboard.RoomName | App.tsx:273-276 | the name of the first room with the id, or "undefined" when there is none |
| Dashboard.RequestDeleteRoom | App.tsx:268-290 | with one room left, only the advisory; otherwise it opens an unguarded dialog titled with the room's name whose confirm removes that room, keeps the typed input, and changes nothing else |
| Dashboard.RemoveRoomConfirmed | App.tsx:279-288 | crashes exactly when no room would remain and the deleted room was active. Otherwise the room and its devices go, the active room moves to the first remaining room when it was the deleted one, the remaining rooms and devices keep their order, the dialog closes, and nothing else changes |
| Dashboard.PressConfirm | components/ConfirmationModal.tsx:20-24 | a closed or locked dialog does nothing; otherwise the pending removal runs, with the input cleared |
| Dashboard.CloseConfirmation | App.tsx:356 | closing only clears the open flag, and the typed input survives |
| Dashboard.TypeConfirmation | components/ConfirmationModal.tsx:64 | typing changes only the dialog's input |
| Dashboard.ConfirmAddRoom | App.tsx:304-316 | a blank name changes nothing; otherwise the room goes last, the form resets, and a success log is issued |
| Dashboard.NewDevice | App.tsx:320-330 | a new device is off, healthy and in the active room, with value 1 for a fan and 50 otherwise |
| Dashboard.ConfirmAddDevice | App.tsx:318-336 | a blank name changes nothing; otherwise the device goes last, the form resets, and a success log is issued |
| Dashboard.Step | App.tsx:397-462 | only the confirmation of a room deletion can throw; selecting a room tab and saving the settings set their piece of state and issue nothing |
| Dashboard.InitialIsCoherent | App.tsx:75-118 | the initial state is coherent |
| Dashboard.RemovalKeepsDistinct | App.tsx:280 | the rooms left by the filter have unique ids |
| Dashboard.RemovalDropsAtMostOne | App.tsx:280 | with unique ids the filter drops at most one room |
| Dashboard.RemovalKeepsOthers | App.tsx:283-285 | the filter keeps every room with another id, so an active room that was not deleted survives |
| Dashboard.TickKeepsCoherent | App.tsx:148-191 | the corrected tick keeps the state coherent |
| Dashboard.ToggleKeepsCoherent | App.tsx:213-227 | the toggle handler keeps the state coherent |
| Dashboard.MotorButtonKeepsCoherent | App.tsx:410-416 | the motor button keeps the state coherent |
| Dashboard.ChangeValueKeepsCoherent | App.tsx:229-237 | the value handler keeps the state coherent |
| Dashboard.UpdateKeepsCoherent | App.tsx:239-252 | a same-kind update from settings keeps the state coherent |
| Dashboard.SyncResyncsPump | App.tsx:297-300 | with a single pump, after a sync the motor flag equals the pump's state, whatever it was before |
| Dashboard.SyncKeepsCoherent | App.tsx:292-302 | the sync keeps the state coherent |
| Dashboard.ModeButtonTwiceRestores | App.tsx:409 | pressing the mode button twice restores the state |
| Dashboard.RemoveDeviceKeepsCoherent | App.tsx:260-264 | the confirmed device removal keeps the state coherent |
| Dashboard.RemoveRoomKeepsCoherent | App.tsx:280-285 | with two rooms or more, the confirmed room removal does not crash and keeps the state coherent |
| Dashboard.ConfirmKeepsCoherent | components/ConfirmationModal.tsx:20-24 | a confirm press in a coherent state never crashes and keeps it coherent |
| Dashboard.AddRoomKeepsCoherent | App.tsx:304-316 | adding a room with a fresh id keeps the state coherent |
| Dashboard.AddDeviceKeepsCoherent | App.tsx:318-336 | adding a device keeps the state coherent, provided a MOTOR device is added only when there is no pump and the motor flag is off |
| Dashboard.AddDeviceBreaksCoherence | App.tsx:318-336 | `confirmAddDevice` has no guard: a MOTOR device added next to a pump, or while the motor flag is on, breaks coherence |
| Dashboard.StepKeepsCoherent | App.tsx:147-336 | with the corrected tick, every admissible handler run from a coherent state completes and stays coherent |
| Dashboard.RunKeepsCoherent | App.tsx:147-336 | with the corrected tick, every admissible run from a coherent state completes and stays coherent |
| Dashboard.AsWrittenAgreesWhilePumpIsD4 | App.tsx:175 | while the pump is called "d4", the tick as written equals the corrected tick |
| Dashboard.InitialIsSourceShaped | App.tsx:78-126 | initially a device is a MOTOR exactly when its id is "d4", and the add-device form holds a LIGHT device |
| Dashboard.AddDeviceKeepsSourceShaped | App.tsx:318-336 | adding a device from a LIGHT form, under an id other than "d4", adds no pump, adds no "d4", and resets the form to LIGHT |
| Dashboard.StepKeepsSourceShaped | App.tsx:147-336 | every admissible step App.tsx can produce keeps pumps and the id "d4" together, and the add form at LIGHT |
| Dashboard.AsWrittenTickKeepsCoherent | App.tsx:171-187 | while a device is a pump exactly when it is "d4", the tick as written keeps the state coherent |
| Dashboard.AsWrittenIsCorrectedInSourceShape | App.tsx:171-187 | while a device is a pump exactly when it is "d4", the tick as written is the corrected tick, with or without a pump |
| Dashboard.StepAsWrittenInSourceShape | App.tsx:147-336 | in that shape, every handler run with the tick as written is the one with the corrected tick |
| Dashboard.SourceRunsAsWrittenStayCoherent | App.tsx:147-336 | from a coherent store in its source shape, every admissible run of actions App.tsx can produce, with the tick as written, equals the corrected run, completes, stays coherent and stays in that shape |
| Dashboard.AsWrittenTickMissesRenamedPump | App.tsx:171-187 | as written, a tick that changes the motor flag leaves a pump with another id untouched, so a pump in sync before is out of sync after |
| Dashboard.KeepWithoutPump | App.tsx:261 | deleting "d4" from the initial devices leaves the first three |
| Dashboard.DeletingInitialPump | App.tsx:254-266 | confirming the deletion of "d4" from the initial state leads to a coherent state without a pump |
| Dashboard.AddingNewPump | App.tsx:318-336 | adding the MOTOR device "Pump" as "d5" appends it |
| Dashboard.NewPumpIsCoherent | App.tsx:331 | that state is coherent |
| Dashboard.ReplacedIsCoherent | App.tsx:254-336 | `Replaced` is coherent |
| Dashboard.AsWrittenTickLosesNewPump | App.tsx:175 | deleting d4, adding a MOTOR device through the add-device handler and raising the low threshold reaches the coherent state `Replaced`; from there the tick as written desynchronises the pump from the tank, while the corrected tick starts it and stays coherent |

`Coherent` says:

- at least one room exists;
- room ids are unique;
- the active room exists;
- the level is in [0, 100];
- there is at most one pump, and the tank's motor flag equals its state;
- a pending room deletion is open only while at least two rooms remain.

`Admissible` states what the model assumes of handler inputs:

- the settings panel replaces a device by one of the same kind;
- room tabs select existing rooms;
- `Date.now()` gives a fresh room id (device ids need no freshness for coherence);
- a pump is added only when there is none and the tank's motor flag is off.

The last clause is an assumption about an add-device form that App.tsx does not
render (see "Left out"); nothing in App.tsx enforces it, and
`Dashboard.AddDeviceBreaksCoherence` shows what happens without it. In App.tsx
as written, the form's type is only ever LIGHT, and a new device's id is "d"
followed by `Date.now()`, never "d4" (`Dashboard.SourceAction`).
`Dashboard.SourceShaped` captures the shape this keeps the store in: a device is
a pump exactly when it is "d4". In that shape the tick as written is the
corrected tick, so App.tsx's own runs, with its tick as written, stay coherent
(`Dashboard.SourceRunsAsWrittenStayCoherent`).

## Left out

- Sound synthesis (`playSystemSound`, the Web Audio oscillators) is left out because it is I/O. Only the choice of sound is modelled, in `Feed.SoundFor`.
- The interval timer, the five-second clearing of the notification, and React's batching of state updaters are left out. Each handler and each tick is one atomic step. Their events are applied in order by `Feed.Commit`.
- Rendering and styling are left out, including the `Math.round` percentage, the bar heights and the colours of the device cards. The `'Utility'` name check that decides whether the tank panel shows is left out too. `WaterLevel.View` gives what the panel shows whenever it is shown.
- The settings modal itself, `geminiService` and the other components are not part of this model. The settings modal's effects enter only as the `UpdateDevice`, `DeleteDevice`, `Sync` and `ChangeSettings` actions (its `onUpdateDevice`, `onDeleteDevice`, `onSystemSync` and `onUpdateSettings`, App.tsx:457-462).
- Levels, thresholds, values and the jitter are exact reals, not IEEE-754 doubles. So the rounding of steps such as `prev.level + (Math.random() * 2 - 1)` (App.tsx:294) or the 0.5 and 2 steps of the tick is not modelled; every comparison is on the exact value.
- App.tsx opens both deletion dialogs with `requireAuth: false` (lines 259 and 278). So the "DELETE" gate of `ConfirmationModal` is never engaged from App.tsx; it is modelled in full, but the dashboard's own dialogs always pass it.
- Device values are not range-checked, because the source checks them only in its slider widgets.
- The `onConfirm` closure of `deleteRoom` captures `rooms` and `activeRoomId` when the dialog opens. The model reads them when the dialog is confirmed. These differ only if the rooms or the active room change while the dialog is open, which the modal overlay prevents.
- `RoomName` returns "undefined" for a missing room, as the template string would render it.
- The fresh id of a new room or device is a parameter: the whole id, not the `Date.now()` part alone.
- A LOW or HIGH notice fires only when the new level is within 0.5 of its threshold. So a tick to 18.5 with the low threshold at 20 raises no LOW notice, and a tick to 91 with the high threshold at 90 raises no HIGH notice. `Tank.Notices` and the tank scenario lemmas state this behaviour.
- In MANUAL control mode, the value-change handler returns without an advisory (App.tsx:230).
- Tank.Notices: does not promise one LOW or HIGH notice per threshold crossing, because the code does not give one. The band around a threshold is a whole point wide. A drain step is half a point, so a slow drain can be noticed twice (`Tank.LowNoticeRepeats`). A high threshold above 99.5 is noticed both before and at the clamp to 100 (`Tank.HighNoticeRepeatsAtCap`). Only the FULL notice, and HIGH with a threshold of at most 99.5, fire at most once in a row (`Tank.FullNoticeOncePerCrossing`, `Tank.HighNoticeOncePerRise`).
- App.tsx does not render the add-room or add-device forms. It only sets `showAddRoomModal` and `showAddDeviceModal` (lines 398 and 440). No element reads those flags or calls `confirmAddRoom` or `confirmAddDevice`. `newRoomName`, `newDeviceName` and `newDeviceType` are written only by the resets at lines 314-315 and 334-335. The model's `FillRoomForm` and `FillDeviceForm` actions stand in for the missing forms, so that both confirm handlers can be modelled. `Dashboard.SourceAction` restricts the device form to LIGHT, the only type App.tsx ever sets.
- Dashboard.AddDeviceKeepsCoherent: requires that a MOTOR device is added only when there is no pump and the motor flag is off. `confirmAddDevice` checks neither, and `Dashboard.AddDeviceBreaksCoherence` proves that both cases break coherence. In App.tsx as written, neither case arises, because the form only ever holds a LIGHT device.
- Dashboard.AsWrittenTickLosesNewPump: its path adds a MOTOR device through the add-device form, which App.tsx does not render. In App.tsx as written, a MOTOR device with another id could only come from the settings panel, which is not part of this model. So the lemma shows that the desynchronisation is latent, not that App.tsx alone can reach it.
- Dashboard.TankTick: the model's `Step` uses this corrected tick, not the one as written. The as-written tick is `Dashboard.TankTickAsWritten` (see Findings); `Dashboard.StepAsWritten` and `Dashboard.RunAsWritten` use it.
- Dashboard.StepKeepsCoherent: is about `Step`, which uses the corrected tick. For the tick as written, the same holds on App.tsx's own runs, because there the two ticks agree (`Dashboard.SourceRunsAsWrittenStayCoherent`); off those runs it fails (`Dashboard.AsWrittenTickLosesNewPump`).
- Dashboard.RunKeepsCoherent: is about `Run`, which uses the corrected tick; `Dashboard.SourceRunsAsWrittenStayCoherent` states the same for `RunAsWritten` on App.tsx's own runs.

## Findings

| source | as written | input that shows it | evidently intended | confidence | as-written member | corrected member |
|---|---|---|---|---|---|---|
| App.tsx:175 | the AUTO and MANUAL branches of the tick switch the device with the fixed id 'd4' (also lines 179 and 186) | delete device d4 and confirm. Then a MOTOR device with another id (d5) must appear; App.tsx itself cannot add one, since its add-device form is not rendered and its type is only ever LIGHT, so it would have to come from the settings panel or a future form. Set the low threshold to 65, then run one tick without a drain: `tankState.isMotorOn` becomes true, and the d5 pump stays off | switch the pump, the first MOTOR device, as the motor button (line 411) and the sync button (line 297) find it | low (latent in App.tsx as written), not executed | Dashboard.TankTickAsWritten (Dashboard.AsWrittenTickLosesNewPump) | Dashboard.TankTick (Dashboard.TickKeepsCoherent) |
