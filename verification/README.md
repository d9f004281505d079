# Key Right lamp: verification model of the control stack

A key-light panel keeps one durable intent (On/Off, level, colour temperature) and drives a PCA9635 PWM
controller over I²C with an output-enable (OE) line. This project models the firmware's control stack from
Matter-level intent down to registers, and proves properties of all its runs, with storage, bus and device as
adversaries that may fail or misbehave at any call.

The layers, one module each:

- `Light`, `Curve`, `Pwm`, `Record`: pure coordinates, fixed-point fade curves, PWM encoding, the flash record.
- `RuntimeModel`: the runtime as a state machine. A `World` holds every field of the runtime's state, the flash
  record and a trace of all storage and output events. Every operation is a function of the world and an `Io`,
  the environment's answer at each call site. `RuntimeInvariant`, `Traces`, `Behaviour`, `Settling`, `Commands`,
  `Timing`, `Readback`, `StartupSettings`, `Reports`, `Colour` and `LateLoad` prove what holds of every step and every run of it.
- `PcaModel`: the PCA9635 driver against a device of 24 registers and an OE line. A `Script` decides, bus operation by
  bus operation, whether it fails, whether the registers were upset beforehand and whether a read is corrupted.
- `Composition`: the runtime's trace is replayed through the driver, so the acknowledgement of the runtime, of the
  controller and of the driver become one statement.
- `LightModel`, `TimedOff`, `Scenes`, `Handler`, `HandlerTargets`: the Matter-facing handler on top of the runtime, with all its commands.
- `PcaDriver`, `RuntimeObjects`, `LightObjects`: the stateful objects themselves (`Bus`, `Pca9635`, `Controller`,
  `RecordStore`, `Runtime`, `LightHandler`), each method proved to take its object's abstract value where the model
  says. `Runtime.Valid()` carries the invariant, the trace properties and the link between trace and driver, so every
  theorem about the models is a theorem about these objects.
- `Watchdogs`, `BootRetry`: the recovery automata, characterised over everything they have observed.

## Assumptions

- The clock is a millisecond counter that does not run backwards and stays below 2^63.
- A failed write of the record leaves the previous record; a failed read is distinguishable from an absent record.
- Calls are serialized: the runtime's state cell has a single owner.
- Environment objects (`Bus`, `RecordStore`) are not part of the firmware; their behaviour is chosen by a fixed but
  arbitrary script, so every theorem holds for every such choice.
- Bus transactions and OE changes are instantaneous; delays are events without effect.

## Where the code does less than one might expect

These are facts of the code, kept as they are and stated exactly.

- **A pending reboot is not final.** Setters and ticks are refused once a reboot is being prepared, but local Off and a
  failed register read are not. `Settling.RebootGate` gives the exact condition under which the pending reboot
  survives an operation; `Settling.LocalOffCancelsReboot` shows setters being accepted again.
- **Stop can strand a colour track.** A level Stop at a brightness of at most 126 makes the target Off and keeps a live
  colour track. `Settling.AlignedStep` shows that this is the only operation that misaligns a colour track, under
  exactly that guard; `Settling.StrandedTrackMissesTarget` is a run from a first boot after which an On light is
  driven to 143 mired under a target of 303, and snaps back at the next tick. The design notes describe Stop per axis, without this case; the model follows the code.
- **A timed-off expiry is not retried.** If the runtime refuses the Off at the instant the on-time runs out, the timers
  are cleared all the same. `TimedOff.RefusedExpiry` shows that this happens exactly while a reboot is pending, with the
  output dark and the target still On; `TimedOff.LostExpiryReachable` is a run from a first boot that gets there. If a
  failed register read then cancels the reboot, three healthy ticks light the lamp with no timer left to turn it off
  (`TimedOff.LostExpiryRelights`).
- **A guard does not hold over an unread record.** Timed Off arms its guard even when the runtime refuses the Off because
  the record could not be read. If a tick then reads a record saved On, the light turns On in the middle of the guard,
  and the next tenth of a second turns it Off again and overwrites the saved On (`TimedOff.UnreadGuardLights`).
  `TimedOff.GuardStep` and `TimedOff.GuardRun` give the exact condition, `TimedOff.ReadGuardHolds` one that can be told
  beforehand.
- **A commit always reports a revision**, also when nothing changed; the model's `Commit` does the same
  (`firmware/app/src/runtime.rs:499`).

## Model

| member | source | states |
|---|---|---|
| Light.ToLevelIsNearest | firmware/core/src/lib.rs:69-81 | Rounding a brightness to a level picks a nearest level, is exact on levels and within 4 units above the floor. |
| Curve.ValueMonotone | firmware/app/src/runtime.rs:73-90 | A transition is monotone in time and never leaves the interval between its endpoints. |
| Curve.ValueEndpoints | firmware/app/src/runtime.rs:73-94 | Both endpoints are hit exactly; nothing remains exactly from the deadline on. |
| Curve.ValueFitsMachine | firmware/app/src/runtime.rs:74-90 | No u64 or i64 product of the curve overflows and the result fits u16, for every time and every installable transition. |
| Curve.ValueAccuracy | firmware/app/src/runtime.rs:74-90 | The fixed-point value never runs ahead of the exact rational line or smoothstep and trails it by less than two units. |
| Curve.ValueOnCurve | firmware/app/src/runtime.rs:73-90 | At every instant a fade is at its end if over, else between its ends, not ahead of the exact line or smoothstep and less than two units behind. |
| Curve.NotYetThere | firmware/app/src/runtime.rs:73-90 | A fade with any way to go is not at its end before its deadline. |
| Curve.FractionAccuracy | firmware/app/src/runtime.rs:79-85 | The 16-bit fraction undershoots the exact position by less than 5/2 units. |
| Curve.TrackContinuous | firmware/app/src/runtime.rs:102-108 | The second leg of an off effect starts exactly where the first one ends. |
| Curve.TrackInRange | firmware/app/src/runtime.rs:102-108 | Every value of an installable track is a legal brightness, so the conversion in `effective` cannot fail. |
| Curve.TrackFalls | firmware/app/src/runtime.rs:102-108 | A falling two-leg track never brightens, within a leg or across the join. |
| Curve.TrackEnds | firmware/app/src/runtime.rs:109-112 | A track reports no remaining time exactly from its last deadline on, and then stays at its end. |
| Pwm.FillFrame | firmware/core/src/pca9635.rs:54-64 | The buffer filled in place is exactly the encoded frame, whose bytes BytesLayout, WarmIsFirstCoolIsFifth and DutyAccuracy describe. |
| Pwm.BytesLayout | firmware/core/src/pca9635.rs:54-64 | All channels but the first and fifth are dark, those too when Off; every output selector field is 2; the group bytes are 255 and 0. |
| Pwm.WarmIsFirstCoolIsFifth | firmware/core/src/pca9635.rs:23-64 | At equal brightness a warmer light never has less in the first byte or more in the fifth; the first is 0 at 143 mired, the fifth at 344; both are full at 244 and stay so towards their own end. |
| Pwm.DutyAccuracy | firmware/core/src/pca9635.rs:23-45 | Both duty bytes are the stock product of mix and brightness to within their truncations, for every colour and brightness. |
| Pwm.StockPwmMonotone | firmware/core/src/pca9635.rs:39-45 | Duty is monotone in mix and brightness, at most 22, zero at zero; no product or narrowing loses bits. |
| Pwm.CombinedFloors | firmware/core/src/pca9635.rs:39-45 | The single division equals the stock firmware's two successive truncations for whole percentages. |
| Pwm.MixDirection | firmware/core/src/pca9635.rs:23-37 | A warmer request never lowers the warm channel or raises the cool one; one of them is always full. |
| Pwm.FadeFrameMonotone | firmware/core/src/pca9635.rs:23-45 | At a fixed colour a brighter frame never has a smaller duty byte. |
| Pwm.FadeNeverFlickers | firmware/app/src/runtime.rs:73-113 | Along a track in one direction both duty registers are monotone over all tick times. |
| Record.DecodeEncode | firmware/app/src/runtime.rs:151-213 | Every state with admissible start-up settings survives save and load unmigrated. |
| Record.EncodeDecode | firmware/app/src/runtime.rs:151-213 | Encoding inverts decoding on every unmigrated byte record. |
| Record.MigrationIsStable | firmware/app/src/runtime.rs:169-213 | A migrated record is rewritten to a canonical form with the same meaning that never migrates again. |
| Record.Decode | firmware/app/src/runtime.rs:169-213 | Accepted bytes only ever yield start-up settings the setters would accept. |
| Record.StartupIntentStable | firmware/app/src/runtime.rs:223-236 | Start-up settings applied twice are applied once, and never turn On what was saved Off. |
| StartupSettings.FirstBoot | firmware/app/src/runtime.rs:214-273 | A boot without any record is Off at level 57 and 303 mired. |
| StartupSettings.BootOutcome | firmware/app/src/runtime.rs:237-273 | A boot shuts the output down before it reads; which faults, refusals and retries each failure leaves. |
| StartupSettings.CleanBoots | firmware/app/src/runtime.rs:223-273 | The record of a clean runtime boots, field by field, to its own target under its own start-up settings. |
| StartupSettings.LateStarts | firmware/app/src/runtime.rs:849-886 | A record read late starts the same way, kept dark by a local Off. |
| StartupSettings.CurrentRecordIsKept | firmware/app/src/runtime.rs:237-273 | A boot over a record that already says what it asks for owes it no write. |
| StartupSettings.LevelBoots | firmware/app/src/runtime.rs:349-386 | After an accepted start-up level x every boot is at Max(x, 1), after none at the saved level; power and colour are their own. |
| StartupSettings.TemperatureBoots | firmware/app/src/runtime.rs:360-386 | Likewise for the start-up colour. |
| StartupSettings.PowerBoots | firmware/app/src/runtime.rs:336-348 | After start-up Off every boot is Off, after none its power is the saved one; On and Toggle are refused without a trace. |
| StartupSettings.VersionThreeAccepts | firmware/app/src/runtime.rs:171-193 | Exactly which nine-byte records are accepted. |
| StartupSettings.VersionThreeMeaning | firmware/app/src/runtime.rs:171-193 | What each byte of an accepted one says. |
| StartupSettings.VersionTwoMeaning | firmware/app/src/runtime.rs:194-212 | Which five-byte records are accepted: power and preset survive at the default level, of the policies only an Off of the selected preset. |
| Record.SavedOffStaysOff | firmware/app/src/runtime.rs:169-236 | No accepted record of either version turns a saved Off into On. |
| RuntimeInvariant.BootInv | firmware/app/src/runtime.rs:237-273 | Loading from any record, with any failures, establishes the invariant. |
| RuntimeInvariant.StepInv | firmware/app/src/runtime.rs:303-906 | Every operation keeps, at success and at every error exit: tracks end where the target says, colour frozen while fading Off, deadlines representable, clean state equals the record, acknowledgement is current and excludes faults. |
| RuntimeInvariant.RunInv | firmware/app/src/runtime.rs:237-907 | The invariant holds in every reachable world. |
| RuntimeInvariant.CommitInv | firmware/app/src/runtime.rs:496-502 | Saving first and driving second keeps the invariant from any prepared track change, whichever step fails. |
| RuntimeInvariant.ReconcileInv | firmware/app/src/runtime.rs:437-495 | Re-establishing output, from an acknowledged or a lost frame, keeps the invariant on all its exits. |
| RuntimeInvariant.TickInv | firmware/app/src/runtime.rs:849-906 | A tick keeps the invariant through reload, retry, save failure, reconcile and periodic verify. |
| RuntimeInvariant.LocalOffInv | firmware/app/src/runtime.rs:800-829 | Local Off keeps the invariant although no fault gates it. |
| RuntimeInvariant.ReconcileOutputOnly | firmware/app/src/runtime.rs:437-495 | Reconciling changes output fields only: target, settings, record and dirtiness are untouched and nothing is written. |
| Traces.StepTraced | firmware/app/src/runtime.rs:303-906 | In every operation all successful writes carry the operation's own target, frames are driven only once that target is durable, nothing is written after output, and acknowledgement and record are what the trace says. |
| Traces.RunTraced | firmware/app/src/runtime.rs:237-907 | In every run acknowledgement and record equal what the event trace says, and every unacknowledged apply is dark and directly follows a successful shutdown. |
| Traces.PowerCut | firmware/app/src/runtime.rs:223-273 | A power cut anywhere inside any operation leaves the previous record or the one with the operation\'s own target; from the first driven frame on the record reads back as exactly that target and settings. |
| Traces.RunPowerCut | firmware/app/src/runtime.rs:237-907 | A cut anywhere in a whole run falls inside one operation: the record is what the operations before it or up to it saved last, and exactly its target once it has driven a frame. |
| Traces.RecordIsLastSaved | firmware/app/src/runtime.rs:387-408 | Over a whole run the record is the target of the last successful save, never an interpolated frame. |
| Traces.ZeroFirstRestart | firmware/app/src/runtime.rs:417-470 | Between any loss of acknowledgement and the next lit frame lies a successful shutdown directly followed by an acknowledged zero frame. |
| Behaviour.FadeOutStep | firmware/app/src/runtime.rs:417-436 | A fade to Off stays one under every command that asks for no light, brightens nothing and keeps its colour, whatever fails. |
| Behaviour.FadeOutRun | firmware/app/src/runtime.rs:507-627 | In every run of such commands every later acknowledged frame is no brighter than the one shown now, of the same colour while lit, with no larger duty byte. |
| Behaviour.CommitOutcome | firmware/app/src/runtime.rs:496-502 | A commit is answered Okay exactly when a frame is acknowledged, which is then the one its target and tracks call for; otherwise the tracks stand. |
| Behaviour.NoStepOnRetarget | firmware/app/src/runtime.rs:507-797 | No command changes the acknowledged brightness at once, except those that by definition jump, and these land exactly on their target. |
| Behaviour.StopIsBounded | firmware/app/src/runtime.rs:763-783 | Stop persists a target within 126 units of what is shown, within 4 above the floor, leaves the colour of an On fade untouched and takes over the colour of a fade to Off. |
| Commands.SetterOutcome | firmware/app/src/runtime.rs:496-797 | A refused setter changes nothing. An accepted one makes exactly what it asked for the target; Okay means it is the record and a frame is acknowledged, any other answer means none is and a retry is scheduled. |
| Commands.AcceptedSettles | firmware/app/src/runtime.rs:849-906 | An accepted setter is never lost: whatever its own answer, three healthy ticks settle the light on exactly what was asked for. |
| Commands.CommitAnswer | firmware/app/src/runtime.rs:387-502 | The answer of a commit tells, whichever step failed, whether the target is clean and acknowledged or a retry is due. |
| Timing.LevelFadeRuns | firmware/app/src/runtime.rs:507-709 | A level fade takes exactly the time its command asks for, 400 ms where it says nothing, along its own curve from what is shown to what is asked. |
| Timing.ColourFadeRuns | firmware/app/src/runtime.rs:507-750 | Likewise for the colour. |
| Timing.TickShowsLevelFade | firmware/app/src/runtime.rs:849-906 | A healthy tick at any later instant acknowledges the brightness of that curve. |
| Timing.TickShowsColourFade | firmware/app/src/runtime.rs:849-906 | And its colour. |
| Timing.RepeatKeepsDeadlines | firmware/app/src/runtime.rs:507-750 | A repeated position and a memory of an Off lamp leave both fades and their deadlines as they were. |
| Timing.RecoveryShowsEaseIn | firmware/app/src/runtime.rs:437-470 | Recovery eases an On target in from zero over 400 ms. |
| Timing.EffectRuns | firmware/app/src/runtime.rs:589-627 | Each off effect takes exactly its own legs: at any later instant a healthy tick shows them, and the lamp is dark exactly from the end of the last. |
| Reports.NothingChangesSilently | firmware/app/src/runtime.rs:303-906 | No operation changes the reported state or the start-up settings, at any exit, without moving the revision. |
| Reports.ReportedMeaning | firmware/app/src/runtime.rs:294-302 | In reachable states the target is reported exactly while a frame is acknowledged. |
| Settling.HealthyTick | firmware/app/src/runtime.rs:849-906 | A healthy tick shows the frame of the moment and changes neither target nor revision nor a clean record. |
| Settling.TwoTicksSettle | firmware/app/src/runtime.rs:849-906 | Two healthy ticks at or after the last deadline settle any acknowledged world on its target. |
| Settling.SettledStays | firmware/app/src/runtime.rs:849-906 | A settled world stays settled: nothing is written, reported or redriven. |
| Settling.RecoveryTick | firmware/app/src/runtime.rs:437-495 | One healthy tick after the retry time proves zero and starts a 400 ms ease-in from any recoverable world, on its target or on what a late record asks for. |
| Settling.RecoverySettles | firmware/app/src/runtime.rs:437-495 | Three healthy ticks, the last two 400 ms later, settle any recoverable world: on its target, or on the start-up intent of a record read late, Off if a local Off came first. |
| LateLoad.TickTarget | firmware/app/src/runtime.rs:849-886 | A tick changes the target exactly by a late load, which also ends the refusal of commands. |
| LateLoad.OffStep | firmware/app/src/runtime.rs:800-886 | Among commands that ask for no light an Off target is turned On by a late load of an On record without a local Off before it, and by nothing else. |
| LateLoad.KeptOffRun | firmware/app/src/runtime.rs:800-886 | Off over a read record, or with a local Off remembered, stays Off in every run of such commands. |
| LateLoad.LocalOffOutlastsLoad | firmware/app/src/runtime.rs:800-829 | A local Off is final whatever its own outcome: no later run of such commands turns the target On, however late the record is read. |
| LateLoad.LocalOffOutcome | firmware/app/src/runtime.rs:800-829 | A local Off answered Okay has made Off the record, repairing a malformed one, and proved the output dark; over an unread record it has shut the output down. |
| Settling.StuckTick | firmware/app/src/runtime.rs:849-866 | Exactly the other worlds (pending reboot, malformed record) are stuck under every tick. |
| Readback.CheckSoonFromBoot | firmware/app/src/runtime.rs:437-495 | In every run from any boot the next readback is at most 5000 ms away. |
| Readback.PeriodicCheck | firmware/app/src/runtime.rs:887-906 | A due readback of the acknowledged frame happens: a match renews the schedule, anything else withdraws the acknowledgement and schedules a retry 5000 ms on. |
| Readback.NeverUnattended | firmware/app/src/runtime.rs:849-906 | Five seconds after any moment the next tick drives or reads back an acknowledged output, or fails to save. |
| Readback.LostRegistersRepaired | firmware/app/src/runtime.rs:887-906 | Lost registers of a lamp at rest are found by the first due tick and repaired by three healthy ones, on the same target. |
| Readback.VerifyOnDemand | firmware/app/src/runtime.rs:830-841 | Verify reads the acknowledged frame back and, on failure, withdraws it and schedules a retry. |
| Readback.SampleOnDemand | firmware/app/src/runtime.rs:842-848 | A register sample changes nothing unless it fails, which counts as an output failure. |
| Readback.RebootPrepared | firmware/app/src/runtime.rs:303-310 | Preparing a reboot shuts the output down, answers whether that was verified, keeps the target and refuses setters. |
| Readback.QuietUntilRetry | firmware/app/src/runtime.rs:849-856 | Until its retry time a failed runtime leaves storage and output alone. |
| Readback.FailedTickBacksOff | firmware/app/src/runtime.rs:409-416 | A tick that fails sets the retry time 5000 ms ahead. |
| Settling.TickWrites | firmware/app/src/runtime.rs:849-906 | No tick writes more than is owed or changes a loaded target. |
| Settling.TickRunWritesOnce | firmware/app/src/runtime.rs:849-906 | Any run of ticks, whatever fails, writes the record at most once. |
| Settling.RebootGate | firmware/app/src/runtime.rs:800-848 | A pending reboot survives an operation if and only if it is not local Off on a read record nor a failed register read; while it survives nothing is driven or written. |
| Settling.LocalOffCancelsReboot | firmware/app/src/runtime.rs:800-829 | With everything working local Off cancels a pending reboot and setters are accepted again. |
| Settling.AlignedStep | firmware/app/src/runtime.rs:763-783 | Colour tracks stay aligned with the target if and only if the step is not a Stop at 126 or below with a live colour track. |
| Settling.AlignedRun | firmware/app/src/runtime.rs:763-783 | Over every run without such a Stop colour tracks belong to their target. |
| Colour.ExactStep | firmware/app/src/runtime.rs:417-495 | An acknowledged frame stays exactly the one called for, colour included, if and only if the step is not that Stop. |
| Colour.ExactRun | firmware/app/src/runtime.rs:417-495 | Over every run without such a Stop the acknowledged frame is exactly what the target and its tracks call for. |
| Colour.ExactFromBoot | firmware/app/src/runtime.rs:237-907 | So it is in every run from any boot, whatever the record and its reading. |
| Colour.NoColourStep | firmware/app/src/runtime.rs:507-797 | No command changes the colour of a shining lamp at once, except the two zero-duration rates, and these land exactly on their target's colour. |
| Colour.RetrackedColour | firmware/app/src/runtime.rs:507-750 | The tracks a setter leaves in place call for the colour shown, or for the target's after a zero-duration rate. |
| Colour.ExpiryIsInvisible | firmware/app/src/runtime.rs:471-495 | Dropping finished tracks does not change the frame called for. |
| Settling.StrandedTrackMissesTarget | firmware/app/src/runtime.rs:763-783 | A concrete run from a first boot after which a frame of 143 mired is acknowledged under an On target of 303; the next tick snaps to 303. |
| PcaModel.ParkOutcome | firmware/core/src/pca9635.rs:114-134 | Parking completes in full or ends attempting to disable; it disables first and never enables. |
| PcaModel.FullPathOutcome | firmware/core/src/pca9635.rs:186-222 | The full path enables only as its last act, after park, write and matching readback. |
| PcaModel.ApplyOutcome | firmware/core/src/pca9635.rs:170-222 | On all four paths and under every glitch: Ok means the last bus transaction was a readback matching the frame, OE is enabled exactly for On; failure clears the verified frame and ends attempting to disable. |
| PcaModel.OperateSound | firmware/core/src/pca9635.rs:110-182 | Every operation keeps the driver sound, and the verified frame after success depends only on the operation. |
| PcaModel.EnableDiscipline | firmware/core/src/pca9635.rs:186-222 | Over whole histories every OE enable directly follows a complete park, a frame write and the matching readback. |
| PcaModel.FastPathRefinesFull | firmware/core/src/pca9635.rs:186-222 | On a device left alone, applying from any sound driver state, whatever the registers have become, ends with the result, verified frame, OE level and registers of the full sequence. |
| PcaModel.CalmPark | firmware/core/src/pca9635.rs:114-134 | Left alone, parking succeeds and leaves the device configured, dark and disabled. |
| PcaModel.CalmVerify | firmware/core/src/pca9635.rs:157-169 | On a device left alone a readback succeeds exactly if the registers hold the frame. |
| PcaModel.HeldRegisters | firmware/core/src/pca9635.rs:54-64 | The registers of a shown frame in numbers: awake, MODE2 20, the duty bytes in registers 2 and 6, all other channels 0. |
| PcaModel.FadeKeepsOutput | firmware/core/src/pca9635.rs:186-209 | While readbacks match, applying an On frame over a verified one never touches OE. |
| PcaModel.BusErrorFailsApply | firmware/core/src/pca9635.rs:197-208 | A bus error during the look is not taken for a reset: the application fails and writes nothing. |
| PcaModel.QuantizedFrameOnlyReads | firmware/core/src/pca9635.rs:197-209 | A frame that encodes to the registers already verified costs one readback, no write and no OE activity. |
| PcaDriver.Pca9635.ApplyFrame | firmware/core/src/pca9635.rs:186-222 | The object takes driver, device and bus log exactly where the modelled application does. |
| PcaDriver.Pca9635.InitializeOff | firmware/core/src/pca9635.rs:114-134 | Likewise for the parked initialization, including its failure exits. |
| PcaDriver.Pca9635.VerifyFrame | firmware/core/src/pca9635.rs:157-169 | Likewise for readback verification; a mismatch forgets the verified frame. |
| PcaDriver.Pca9635.ReadRegisters | firmware/core/src/pca9635.rs:142-151 | Likewise for the register sample; a failed read forgets the verified frame. |
| PcaDriver.Pca9635.WriteFrame | firmware/core/src/pca9635.rs:135-141 | One auto-increment transaction from register 2 with the encoded frame; success and failure leave what the model leaves. |
| PcaDriver.Pca9635.Finish | firmware/core/src/pca9635.rs:170-182 | A failed operation forgets the verified frame and attempts to disable. |
| Composition.DriverFollowsTrace | firmware/core/src/pca9635.rs:186-222 | After any trace the driver's verified frame is exactly the lit part of the acknowledgement; on a faithful device it is in the registers. |
| Composition.ThreeLayerAcknowledgement | firmware/app/src/runtime.rs:387-495 | In every run: controller's applied frame is lit exactly when the driver has it verified, holding one excludes every fault, on a faithful device registers and OE realise it, and every enable was earned. |
| RuntimeObjects.Controller.ReconcileFrame | firmware/core/src/lib.rs:246-261 | The acknowledgement is withdrawn before driving and restored only by success; an acknowledged frame is not redriven. |
| RuntimeObjects.Controller.InvalidateApplied | firmware/core/src/lib.rs:221-226 | Forgets the acknowledged frame. |
| RuntimeObjects.Controller.Command | firmware/core/src/lib.rs:227-239 | Each command changes its own coordinate; the answer says whether anything changed. |
| RuntimeObjects.Runtime.Acknowledgement | firmware/app/src/runtime.rs:145-149 | In every valid state the objects themselves agree on one acknowledgement, from record to registers. |
| RuntimeObjects.Runtime.constructor | firmware/app/src/runtime.rs:237-273 | Load establishes validity and the modelled boot state from any record and any driver that has verified nothing. |
| RuntimeObjects.Runtime.SaveIntent | firmware/app/src/runtime.rs:387-408 | Saves only when dirty; a failed save parks and withdraws the acknowledgement. |
| RuntimeObjects.Runtime.OutputFailed | firmware/app/src/runtime.rs:409-416 | Shuts down, withdraws the acknowledgement, schedules a retry. |
| RuntimeObjects.Runtime.Reconcile | firmware/app/src/runtime.rs:437-495 | Proves zero before output is re-established, drives the frame of the moment, drops finished tracks. |
| RuntimeObjects.Runtime.Commit | firmware/app/src/runtime.rs:496-502 | Save first, drive second. |
| RuntimeObjects.Runtime.RecallScene | firmware/app/src/runtime.rs:507-538 | A scene with an explicit duration moves the object, record and hardware to the world and reply of the modelled recall, for the environment answers it met; validity is kept. |
| RuntimeObjects.Runtime.SetPower | firmware/app/src/runtime.rs:554-584 | On or Off moves everything to the world and reply of the modelled command; a repeated command keeps its tracks. |
| RuntimeObjects.Runtime.OffWithEffect | firmware/app/src/runtime.rs:589-627 | The one- or two-leg effect moves everything to the modelled world and reply; the colour is frozen. |
| RuntimeObjects.Runtime.MoveLevel | firmware/app/src/runtime.rs:631-709 | Eased and rate-based level moves, with and without On/Off coupling, end in the modelled world and reply. |
| RuntimeObjects.Runtime.MoveTemperature | firmware/app/src/runtime.rs:710-750 | Eased and rate-based colour moves end in the modelled world and reply; remembered while Off. |
| RuntimeObjects.Runtime.StopLevel | firmware/app/src/runtime.rs:763-783 | Stopping a level fade persists the nearest acknowledged state; refused without an acknowledged frame. |
| RuntimeObjects.Runtime.StopTemperature | firmware/app/src/runtime.rs:784-799 | Stopping a colour fade persists the acknowledged colour; refused without an acknowledged frame. |
| RuntimeObjects.Runtime.SetStartupPower | firmware/app/src/runtime.rs:336-348 | On and Toggle are refused; otherwise a start-up save. |
| RuntimeObjects.Runtime.SetStartupLevel | firmware/app/src/runtime.rs:352-359 | 255 is refused; otherwise a start-up save. |
| RuntimeObjects.Runtime.SetStartupTemperature | firmware/app/src/runtime.rs:363-367 | A start-up save. |
| RuntimeObjects.Runtime.Off | firmware/app/src/runtime.rs:800-829 | Local Off ends in the modelled world and reply on all its exits, also while the record is unreadable. |
| RuntimeObjects.Runtime.Verify | firmware/app/src/runtime.rs:830-841 | Readback of the acknowledged frame; a failure withdraws it and schedules a retry. |
| RuntimeObjects.Runtime.Registers | firmware/app/src/runtime.rs:842-848 | The modelled step; data is returned exactly on success. |
| RuntimeObjects.Runtime.PrepareReboot | firmware/app/src/runtime.rs:303-310 | The modelled step; the answer says whether the shutdown was verified. |
| RuntimeObjects.Runtime.Tick | firmware/app/src/runtime.rs:849-906 | Reload, retry, save, reconcile or quiet verify, exactly as the modelled tick; validity is kept. |
| TimedOff.TickOutcome | firmware/app/src/presets.rs:130-152 | Time moves the timers as the clock alone would and turns the target Off if and only if the on-time runs out and the runtime accepts commands. |
| TimedOff.RefusedExpiry | firmware/app/src/presets.rs:130-152 | In a reachable light an expiry is refused exactly while a reboot is pending; the timers are cleared and the output is dark. |
| TimedOff.LostExpiryRelights | firmware/app/src/presets.rs:137-142 | Such an expiry is lost: after a failed register read three healthy ticks settle on an On target without timers. |
| TimedOff.LostExpiryReachable | firmware/app/src/presets.rs:130-152 | A run from a first boot, timed On then reboot prepared, that loses its expiry. |
| TimedOff.TickSplits | firmware/app/src/presets.rs:130-152 | Two deliveries of time are one, in the whole state of handler and runtime. |
| TimedOff.TimedOnLasts | firmware/app/src/presets.rs:153-174 | An answered timed-on lasts for the longer of the running and the new on-time, no less and no more. |
| TimedOff.EarlyOffGuards | firmware/app/src/presets.rs:120-125 | An accepted Off before the expiry starts the guard and its countdown. |
| TimedOff.GuardStep | firmware/app/src/presets.rs:130-174 | During a guard the target turns On if and only if a runtime tick reads a record late that asks for On; timed-on and the countdown never reach the runtime, and the guard only shrinks. |
| TimedOff.GuardRun | firmware/app/src/presets.rs:130-174 | For every run of timed-on commands and ticks the light stays off until the guard has run out, if and only if no tick on the way reads a record late that asks for On; delivered time does run the guard out. |
| TimedOff.ReadGuardHolds | firmware/app/src/presets.rs:130-174 | A record that is read, or a remembered local Off, holds the light off through every such run. |
| TimedOff.UnreadGuardLights | firmware/app/src/presets.rs:120-125 | Over any record saved On whose first read fails: a guard that lights in the middle, and the next tenth that overwrites the saved On. |
| TimedOff.MaintainConserves | firmware/app/src/presets.rs:1250-1267 | The loop hands over exactly the distance it has travelled, in whole tenths, and never gets ahead of the clock. |
| TimedOff.MaintainDelivers | firmware/app/src/presets.rs:1250-1267 | Polled at least every 6553 seconds, it has delivered exactly the whole tenths elapsed; the residue is under a tenth. |
| TimedOff.MaintainCountsDown | firmware/app/src/presets.rs:1250-1267 | Under every polling schedule and all faults, as long as no pass reads a record late that asks for On, the timers are where the delivered time alone puts them and the power where the expiry does; with a read record nothing else of the target changes. |
| TimedOff.MaintainAfterLate | firmware/app/src/presets.rs:1250-1267 | The other case: from the late load on the record's On target stands until its own on-time has counted down. |
| TimedOff.MaintainSplitsAtLate | firmware/app/src/presets.rs:1250-1267 | Every run of the loop is of the first kind, or of the first kind up to one pass and of the other from there. |
| Scenes.EntriesMeaning | firmware/app/src/presets.rs:221-275 | Staging entries one by one succeeds if and only if all are legitimate and name distinct unset fields, and then shows every entry over the base. |
| Scenes.PartsAreEntries | firmware/app/src/presets.rs:221-275 | Staging cluster by cluster is staging all entries at once; a refused part leaves the draft as it was. |
| Scenes.RecallMeaning | firmware/app/src/presets.rs:1138-1157 | A recall reaches the runtime as the reported base overridden by every entry once, or not at all. |
| Scenes.RecallIsAtomic | firmware/app/src/presets.rs:209-296 | A recall is refused with nothing changed, or its whole override is the target with at most one write, durable when answered Okay. |
| Scenes.OverridesUnique | firmware/app/src/presets.rs:209-275 | Base and entries determine the target. |
| Scenes.RecallOrderIrrelevant | firmware/app/src/presets.rs:1138-1157 | The order of clusters and attributes matters neither to acceptance nor to the target. |
| Scenes.DuplicatesRefused | firmware/app/src/presets.rs:269-272 | Naming a field twice, in one list or across clusters, is refused without effect. |
| Handler.LatchStep | firmware/app/src/presets.rs:101-530 | An open latch is closed by an off effect on a reported light, which it captures, and by nothing else; a closed one keeps its capture and opens exactly at On, an effective timed On, an answered recall, a lit scene or a level with On/Off above the minimum. |
| Handler.LevelToLatch | firmware/app/src/presets.rs:337-382 | A level command opens the latch exactly when it is answered Okay with On/Off and a level above 1. |
| Handler.KeepersStayShut | firmware/app/src/presets.rs:101-530 | Off, time, effects, level commands without On/Off, Stop and colour commands never open the latch. |
| Handler.LatchHolds | firmware/app/src/presets.rs:175-208 | Over any run without an opening step the latch stays closed with its capture. |
| Handler.GlobalSceneReturns | firmware/app/src/presets.rs:182-208 | After an effect and any such run, an accepted recall makes exactly the light reported before the first effect the target again. |
| Handler.ReopenedRecallsNothing | firmware/app/src/presets.rs:192-208 | After a level with On/Off above the minimum the recall is answered Okay and changes nothing. |
| Handler.LevelToOutcome | firmware/app/src/presets.rs:337-382 | A level command answered Okay did not apply and changed nothing, or made power, level and coupled colour the durable target and remembered the coupling. |
| Handler.CoupledColorMeaning | firmware/app/src/presets.rs:364-368 | Coupling maps the level range onto the colour range in reverse, ends to ends, monotonically. |
| Handler.MoveKeepsRate | firmware/app/src/presets.rs:383-411 | A move takes the least whole number of tenths at which it is no faster than its rate. |
| Handler.CoupledStopHaltsBoth | firmware/app/src/presets.rs:431-447 | A Stop of a coupled move that is answered Okay leaves the level at rest, and the colour too unless it did not apply and found a stranded track. |
| HandlerTargets.ChosenBits | firmware/app/src/presets.rs:358-363 | The override decides where its mask is set, the lamp's own option elsewhere, bit by bit. |
| HandlerTargets.ExecutesMeaning | firmware/app/src/presets.rs:297-325 | A command without On/Off passes exactly a reported Off light by whose first option bit does not let it through. |
| HandlerTargets.LevelPassesBy | firmware/app/src/presets.rs:346-351 | A light passed by is answered Okay and unchanged. |
| HandlerTargets.LevelToSends | firmware/app/src/presets.rs:337-359 | A level command that applies is one runtime command of its own duration and kind. |
| HandlerTargets.LevelToCouples | firmware/app/src/presets.rs:360-377 | Coupling adds one colour command of the same duration and kind, once the level is accepted. |
| HandlerTargets.CoupledColorExact | firmware/app/src/presets.rs:364-368 | The coupled colour is the proportional one, rounded towards warm. |
| HandlerTargets.StepEndMeaning | firmware/app/src/presets.rs:424-428 | A step leads up or down from the level shown by its size, within 254 above and 1, or Off, below. |
| HandlerTargets.LevelStepOutcome | firmware/app/src/presets.rs:412-430 | A step answered Okay has made exactly that level and power the target. |
| HandlerTargets.LevelMoveSends | firmware/app/src/presets.rs:383-411 | A move is a straight level command to the end of the scale in the least whole tenths its rate allows. |
| HandlerTargets.ColorBoundsMeaning | firmware/app/src/presets.rs:604-618 | The bounds of a colour command, zero standing for the lamp's limits. |
| HandlerTargets.ColorToSends | firmware/app/src/presets.rs:448-466 | A colour command that applies is one clamped runtime command and ends coupling; undefined mireds are refused. |
| HandlerTargets.ColorMoveSends | firmware/app/src/presets.rs:467-497 | A colour move is a straight command to its upper or lower bound in the least whole milliseconds its rate allows. |
| HandlerTargets.ColorStepSends | firmware/app/src/presets.rs:498-518 | A colour step leads up or down from the colour shown by its size, within the bounds. |
| HandlerTargets.PowerOnOutcome | firmware/app/src/presets.rs:101-128 | On answered Okay makes the target On, at OnLevel if there is one and the light was not reported On. |
| HandlerTargets.PowerOnTimers | firmware/app/src/presets.rs:101-113 | On lets a running on-time run on with its guard and otherwise clears both. |
| HandlerTargets.TimedOnTimers | firmware/app/src/presets.rs:153-174 | Which timed-on commands are refused, absorbed by a guard or accepted, and the timers each leaves. |
| HandlerTargets.EndlessOn | firmware/app/src/presets.rs:101-113 | An endless on-time never counts. |
| HandlerTargets.CouplingEnds | firmware/app/src/presets.rs:118-125 | Off, effects and scenes end a coupled move; an effect starts the guard as an Off does, a scene clears the timers. |
| HandlerTargets.RecallGlobalSends | firmware/app/src/presets.rs:192-208 | The global scene comes back as one scene command over the default time; a guard without on-time goes with it. |
| HandlerTargets.RecallShowsValues | firmware/app/src/presets.rs:231-268 | What the attributes of a recalled scene mean, by cluster and attribute number. |
| HandlerTargets.RecallRefused | firmware/app/src/presets.rs:209-219 | One recall at a time, and none on a light that cannot be reported. |
| Handler.LightStepKept | firmware/app/src/presets.rs:101-530 | Every handler step but the clock acts on the runtime through at most two of its commands, so invariant and trace properties are kept and no time passes. |
| Handler.LightRunSound | firmware/app/src/presets.rs:101-530 | They hold over all runs of the handler. |
| HandlerTargets.WriteMeaning | firmware/app/src/presets.rs:661-766 | What may be written to each attribute, and that a write sets it and nothing else. |
| LightObjects.LightHandler.constructor | firmware/app/src/presets.rs:69-92 | Timers clear, latch open, no draft. |
| LightObjects.LightHandler.SetOnLevel | firmware/app/src/presets.rs:758-766 | 0 and 255 are refused. |
| LightObjects.LightHandler.SetOnTime | firmware/app/src/presets.rs:661-665 | Sets the remaining on-time and nothing else. |
| LightObjects.LightHandler.SetOffWaitTime | firmware/app/src/presets.rs:666-670 | Sets the guard and nothing else. |
| LightObjects.LightHandler.Power | firmware/app/src/presets.rs:101-128 | OnLevel is applied first when the light is not reported On; its refusal ends the command with the latch open and the timers already set. |
| LightObjects.LightHandler.Tick | firmware/app/src/presets.rs:130-152 | Counts down whichever timer runs, turns off at the end of the on-time, and leaves no guard behind. |
| LightObjects.LightHandler.TimedOn | firmware/app/src/presets.rs:153-174 | Refuses the endless value; shortens a running guard or loads both timers and turns on. |
| LightObjects.LightHandler.OffWithEffect | firmware/app/src/presets.rs:175-191 | Captures the reported light once, or refuses with nothing changed; stops the on-time and starts the guard. |
| LightObjects.LightHandler.RecallGlobalScene | firmware/app/src/presets.rs:192-208 | Requests the captured light; the latch opens only on success. |
| LightObjects.LightHandler.SetLevelOptions | firmware/app/src/presets.rs:746-757 | Only the two defined bits are accepted. |
| LightObjects.LightHandler.SetColorOptions | firmware/app/src/presets.rs:938-951 | Only the defined bit is accepted. |
| LightObjects.LightHandler.LevelTo | firmware/app/src/presets.rs:337-382 | Level, then coupled colour, then latch; the first refusal ends the command where it stands. |
| LightObjects.LightHandler.LevelMove | firmware/app/src/presets.rs:383-411 | Ends at 254, or at 0 or 1, in the time its rate takes, linearly. |
| LightObjects.LightHandler.LevelStep | firmware/app/src/presets.rs:412-430 | Steps from the acknowledged level, saturating within what On/Off coupling allows. |
| LightObjects.LightHandler.LevelStop | firmware/app/src/presets.rs:431-447 | Stops a level, also in a fade to Off, and a coupled colour with it. |
| LightObjects.LightHandler.ColorTo | firmware/app/src/presets.rs:448-466 | Refuses undefined mireds, clamps the rest to the lamp. |
| LightObjects.LightHandler.ColorMove | firmware/app/src/presets.rs:467-497 | Moves linearly to a bound of the command at its rate, or stops. |
| LightObjects.LightHandler.ColorStep | firmware/app/src/presets.rs:498-518 | Steps from the acknowledged colour within the bounds of the command. |
| LightObjects.LightHandler.ColorHalt | firmware/app/src/presets.rs:519-530 | Stops the colour and uncouples it. |
| LightObjects.LightHandler.StagePair | firmware/app/src/presets.rs:236-272 | One attribute is accepted or refused as the staging of a single entry is. |
| LightObjects.LightHandler.BeginScene | firmware/app/src/presets.rs:209-219 | A draft from the reported state, unless one is pending. |
| LightObjects.LightHandler.StageScene | firmware/app/src/presets.rs:221-275 | The loop over the attributes leaves the draft where staging all of them does, unchanged on any refusal. |
| LightObjects.LightHandler.FinishScene | firmware/app/src/presets.rs:276-292 | One scene command with the draft. |
| LightObjects.LightHandler.AbortScene | firmware/app/src/presets.rs:293-296 | Drops the draft and nothing else. |
| LightObjects.LightHandler.RecallScene | firmware/app/src/presets.rs:1138-1157 | Stages every part, then commits once or aborts. |
| LightObjects.LightHandler.Maintenance | firmware/app/src/presets.rs:1250-1267 | Over any clock readings the loop hands over whole tenths only and ends with the timers, runtime and count of the modelled passes. |
| Watchdogs.RaisedOncePerRun | firmware/app/src/network_tx.rs:32-45 | A maximal linked-without-capacity run raises exactly once, at its first reading a minute past its beginning, or never. |
| Watchdogs.QueueHealth.Observe | firmware/app/src/network_tx.rs:33-46 | The answer is true exactly at that reading, for every history. |
| Watchdogs.QueueHealth.AlarmIsExact | firmware/app/src/network_tx.rs:47-52 | The alarm is set for exactly the first instant at which another blocked reading would raise. |
| Watchdogs.TokenRestartsPeriod | firmware/app/src/network_tx.rs:95-129 | A token handed out by receive or transmit restarts the period: a stall is a minute later than a full queue seen after it. |
| Watchdogs.GuardedDriver.OnReceive | firmware/app/src/network_tx.rs:95-102 | A received token is evidence of capacity; its absence is none. |
| Watchdogs.GuardedDriver.OnTransmit | firmware/app/src/network_tx.rs:104-111 | A transmit token is evidence of capacity; its absence is none. |
| Watchdogs.GuardedDriver.OnLinkState | firmware/app/src/network_tx.rs:113-130 | The stall callback runs exactly when the history of polls raises. |
| Watchdogs.HealthStopsAtBackpressure | firmware/app/src/network_tx.rs:141-143 | Health time ends exactly where the blocked run in progress began, and never counts any of its readings. |
| Watchdogs.QueueRecovery.RecordHealth | firmware/app/src/network_tx.rs:16-20 | Two healthy minutes forget earlier stalls. |
| Watchdogs.QueueRecovery.RebootRequired | firmware/app/src/network_tx.rs:21-23 | A reboot is required exactly if a stall was already seen since the last two healthy minutes. |
| Watchdogs.LocalNetHealth.RestartDue | firmware/app/src/recovery.rs:16-23 | Due exactly at readings a minute or more into an associated-without-address run. |
| Watchdogs.AssociatedHealth.RestartDue | firmware/app/src/recovery.rs:50-57 | Due exactly at readings a minute or more into an associated-without-radio run. |
| Watchdogs.DriverErrors.Observe | firmware/app/src/recovery.rs:33-40 | Due exactly when the last three observations were internal failures. |
| Watchdogs.RestartBackoff.NextDelaySecs | firmware/app/src/recovery.rs:67-74 | min(60, 5·2^k) seconds for k failures since the last healthy run, saturation included. |
| Watchdogs.FailuresMeaning | firmware/app/src/recovery.rs:67-74 | k counts exactly the latest restarts without two healthy minutes. |
| Watchdogs.DelaySaturates | firmware/app/src/recovery.rs:71-72 | From the fourth doubling on the cap decides, so the saturated shift loses nothing. |
| BootRetry.RetryIo | firmware/app/src/boot.rs:11-33 | The loop returns the first answer that is not retryable after feeding, trying, reporting and waiting as prescribed. |
| BootRetry.FedBetweenSleeps | firmware/app/src/boot.rs:26-29 | Between any two sleeps there is a feed, however long storage fails. |
| BootRetry.RetryWaits | firmware/app/src/boot.rs:17-30 | After the k-th failure the loop sleeps exactly min(60, 5·2^k) seconds, as restarts do. |

## Left out

- Attribute reads, snapshots, change reporting (data versions, scene invalidation and its revision counter, the report loop): forwarding and bookkeeping around the state that is modelled.
- The console's own command parsing: `LightModel.Direct` excludes only what no caller outside the handler sends, a level with On/Off.
- Option bits beyond the two (level) and one (colour) that the firmware reads; the override is computed per bit.
- Diagnostic counters (output failures, storage failures, recoveries) are carried by the model; nothing is proved about their values.
- TLV decoding: scenes are staged from decoded attribute/value pairs, so the errors of malformed TLV are absent; the four field bits of a draft are a set of fields.
- RuntimeObjects.State: the runtime's plain fields are one record value in one field, as they sit in one cell; `Controller::new` assigned over the old controller is `Controller.Reset` in place.
- PcaModel.ReadBack: MODE1's upper bits read back as the last auto-increment setting; other read-only behaviour of the chip (bus reset addresses, sub-addresses, individual error bits) is not modelled.
- PcaModel.FastPathRefinesFull: equality of MODE1 is stated for the five low bits that the firmware compares, not for the read-only upper ones.
- Optical output, bus timing, the electrical effect of OE, `delay_us`: outside the program.
- LightObjects.LightHandler.Maintenance: the endless loop is observed over any finite sequence of clock readings; the watchdog feed and the 20 ms sleep of each pass have no state and are absent.
- BootRetry.RetryIo: the endless loop is observed over any finite sequence of attempts; `None` is a loop still retrying.
- Watchdogs.GuardedDriver: the wrapped driver's answers are arguments; wakers and token buffers are absent.
- `watchdog_test_ready`, `commissioning_passcode`, `usable_local_ipv6`: single conditions.
- The `Preset` selection and plain `Controller::command` serve the simulator; only the command itself is modelled.
- Wi-Fi, BLE and Matter transport, commissioning, OTA, console, logging, entry points, host scripts: I/O around the core.
