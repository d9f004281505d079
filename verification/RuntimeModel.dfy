/**
 * The runtime as a state machine: every public operation is a function from a world and the
 * environment's answers to the next world. The class in Runtime.dfy is proved against it.
 */
module RuntimeModel {
  import opened Basics
  import opened Light
  import opened Curve
  import opened Record

  const DEFAULT_TRANSITION_MS := 400
  const RETRY_MS := 5_000

  /** The clock is a millisecond counter far below the end of its u64. */
  type Clock = n: nat | n <= 0x7fff_ffff_ffff_ffff

  /** Tracks are only ever built from bounded coordinates, so the `expect`s in `effective` cannot fire. */
  type Fade = t: LevelTrack | t.Valid() witness LevelTrack(Transition(0, 0, 0, 0, Smooth), None, None)

  type TemperatureFade = t: Transition | IsTemperature(t.from) && IsTemperature(t.to) && t.duration <= MAX_TRANSITION_MS
    witness Transition(303, 303, 0, 0, Smooth)

  type Settings = s: Startup | s.Valid() witness DEFAULT_STARTUP

  datatype Fault = NoFault | StorageFault | InvalidRecord | OutputFault | Rebooting

  datatype Reply = Okay | ConstraintError | Busy | InvalidState | InvalidCommand | StoreError | Failure

  datatype OffEffect = FastFade | NoFade | SlowFade | DyingLight

  /** Every interaction with storage or output, with its outcome. */
  datatype Event =
    | Stored(data: seq<byte>, ok: bool)
    | Loaded(ok: bool)
    | Parked(ok: bool)                      // shutdown
    | Applied(frame: OutputFrame, ok: bool)
    | Checked(frame: OutputFrame, ok: bool) // readback of the acknowledged frame
    | Sampled(ok: bool)                     // diagnostic register read

  /** The environment's answer at each call site; one operation reaches each site at most once. */
  datatype Io = Io(
    stop: bool,    // the shutdown that opens load, local Off and reboot preparation
    read: bool,    // reading the record
    store: bool,   // writing the record; a failed write leaves the previous one
    guard: bool,   // the shutdown after a failed write
    park: bool,    // the shutdown before output is re-established
    apply: bool,   // applying a frame
    check: bool,   // verifying or sampling registers
    cleanup: bool) // the shutdown after an output failure

  const ALL_WELL := Io(true, true, true, true, true, true, true, true)

  datatype World = World(
    target: LightState,
    intended: LightState,
    applied: Option<OutputFrame>,
    level: Option<Fade>,
    temperature: Option<TemperatureFade>,
    fault: Fault,
    dirty: bool,
    startup: Settings,
    loadFault: Option<Fault>,
    offAfterLoad: bool,
    nextVerify: nat,
    retryAt: nat,
    failures: nat,
    storageFailures: nat,
    recoveries: nat,
    revision: nat,
    now: Clock,
    store: Option<seq<byte>>,
    trace: seq<Event>)

  datatype Done = Done(world: World, reply: Reply)

  // ----- storage

  datatype Reading = Readable(saved: Saved) | Unreadable(fault: Fault)

  function ReadRecord(store: Option<seq<byte>>, ok: bool): (r: Reading)
    ensures r.Readable? ==> r.saved.startup.Valid()
    ensures r.Unreadable? ==> r.fault == StorageFault || r.fault == InvalidRecord
  {
    if !ok then Unreadable(StorageFault)
    else match store
      case None => Readable(DEFAULT_SAVED)
      case Some(bytes) =>
        match Decode(bytes)
        case None => Unreadable(InvalidRecord)
        case Some(saved) => Readable(saved)
  }

  /** The fields `load` starts from, given what the shutdown and the record said. */
  function Restored(reading: Reading, stopped: bool, store: Option<seq<byte>>, trace: seq<Event>): World
    requires reading.Readable? ==> reading.saved.startup.Valid()
  {
    var saved := if reading.Readable? then reading.saved else DEFAULT_SAVED;
    var loadFault := if reading.Unreadable? then Some(reading.fault) else None;
    var target := StartupIntent(saved.intended, saved.startup);
    World(
      target, target, None, None, None,
      if loadFault.Some? then loadFault.value else if stopped then NoFault else OutputFault,
      saved.migrated || target != saved.intended,
      saved.startup,
      loadFault,
      false,
      0,
      if !stopped || loadFault == Some(StorageFault) then RETRY_MS else 0,
      if stopped then 0 else 1,
      if loadFault == Some(StorageFault) then 1 else 0,
      0, 0, 0,
      store,
      trace)
  }

  function Boot(store: Option<seq<byte>>, io: Io): World
  {
    Restored(ReadRecord(store, io.read), io.stop, store, [Parked(io.stop)] + [Loaded(io.read)])
  }

  function SaveIntent(w: World, io: Io): (r: Done)
    ensures r.world.now == w.now
  {
    var data := Encode(w.target, w.startup);
    if !w.dirty then Done(w, Okay)
    else if io.store then
      Done(w.(store := Some(data), trace := w.trace + [Stored(data, true)], dirty := false), Okay)
    else Done(SaveFailed(w.(trace := w.trace + [Stored(data, false)]), io), StoreError)
  }

  /** A failed write shuts the output down and withdraws the acknowledgement. */
  function SaveFailed(w: World, io: Io): (r: World)
    ensures r.now == w.now
  {
    w.(trace := w.trace + [Parked(io.guard)],
       storageFailures := SatInc(w.storageFailures),
       fault := StorageFault,
       failures := if io.guard then w.failures else SatInc(w.failures),
       applied := None,
       revision := WrapInc(w.revision),
       retryAt := SatAdd(w.now, RETRY_MS))
  }

  function SaveStartup(w: World, startup: Settings, io: Io): (r: Done)
    ensures r.world.now == w.now
  {
    var data := Encode(w.target, startup);
    if Blocked(w).Some? then Done(w, Blocked(w).value)
    else if startup == w.startup && !w.dirty then Done(w, Okay)
    else if io.store then
      Done(w.(store := Some(data), trace := w.trace + [Stored(data, true)],
              startup := startup, dirty := false, revision := WrapInc(w.revision)), Okay)
    else
      Done(w.(trace := w.trace + [Stored(data, false)], storageFailures := SatInc(w.storageFailures)), StoreError)
  }

  // ----- output

  function OutputFailed(w: World, io: Io): (r: World)
    ensures r.now == w.now
  {
    w.(trace := w.trace + [Parked(io.cleanup)],
       applied := None,
       fault := OutputFault,
       failures := SatInc(w.failures),
       retryAt := SatAdd(w.now, RETRY_MS),
       revision := WrapInc(w.revision))
  }

  /** The frame a target and its live tracks call for at an instant. */
  function FrameFor(target: LightState, level: Option<Fade>, temperature: Option<TemperatureFade>,
    now: Clock): OutputFrame
  {
    var fading := level.Some? && level.value.Remaining(now) != 0;
    var brightness: Brightness :=
      if fading then TrackInRange(level.value, now); level.value.Value(now)
      else FromState(target).brightness;
    var mired: Temperature :=
      if temperature.Some? then ValueInRange(temperature.value, now); temperature.value.Value(now)
      else if fading && level.value.offTemperature.Some? then level.value.offTemperature.value
      else target.temperature;
    OutputFrame(
      LightState(
        if fading then brightness != 0 else target.on,
        if fading then ToLevelClamped(brightness) else target.level,
        mired),
      brightness)
  }

  function Effective(w: World): OutputFrame { FrameFor(w.target, w.level, w.temperature, w.now) }

  function LiveLevel(level: Option<Fade>, now: nat): Option<Fade>
  {
    if level.Some? && level.value.Remaining(now) == 0 then None else level
  }

  function LiveTemperature(temperature: Option<TemperatureFade>, now: nat): Option<TemperatureFade>
  {
    if temperature.Some? && temperature.value.Remaining(now) == 0 then None else temperature
  }

  function ExpireTracks(w: World): (r: World)
    ensures r.now == w.now
  {
    w.(level := LiveLevel(w.level, w.now), temperature := LiveTemperature(w.temperature, w.now))
  }

  /** The track that eases a valid On intent back in from proven zero. */
  function EaseIn(w: World): Option<Fade>
  {
    if w.target.on then
      Some(LevelTrack(Transition(0, FromLevel(w.target.level), w.now, DEFAULT_TRANSITION_MS, Smooth), None, None))
    else None
  }

  /** The output has just been proven dark. */
  function ParkedWorld(w: World): (r: World)
    ensures r.now == w.now
  {
    w.(trace := w.trace + [Parked(true)], level := EaseIn(w), temperature := None)
  }

  function Reconcile(w: World, io: Io): (r: Done)
    ensures r.world.now == w.now
  {
    if w.applied.Some? then ApplyEffective(w, io)
    else if io.park then
      ApplyEffective(ParkedWorld(w), io)
    else
      Done(OutputFailed(w.(trace := w.trace + [Parked(false)]), io), Failure)
  }

  function ApplyEffective(w: World, io: Io): (r: Done)
    ensures r.world.now == w.now
  {
    var frame := Effective(w);
    var commanded := w.(intended := frame.state);
    if w.applied == Some(frame) then Done(Acknowledge(commanded, w.applied), Okay)
    else if io.apply then
      Done(Acknowledge(commanded.(applied := Some(frame), trace := w.trace + [Applied(frame, true)]), w.applied), Okay)
    else
      Done(OutputFailed(commanded.(applied := None, trace := w.trace + [Applied(frame, false)]), io), Failure)
  }

  function Acknowledge(w: World, previous: Option<OutputFrame>): (r: World)
    ensures r.now == w.now
  {
    ExpireTracks(w.(
      recoveries := if w.fault == OutputFault then SatInc(w.recoveries) else w.recoveries,
      fault := NoFault,
      retryAt := 0,
      nextVerify := if previous != w.applied then SatAdd(w.now, RETRY_MS) else w.nextVerify,
      revision := if previous.None? then WrapInc(w.revision) else w.revision))
  }

  function Commit(w: World, target: LightState, io: Io): (r: Done)
    ensures r.world.now == w.now
  {
    var saved := SaveIntent(w.(dirty := w.dirty || w.target != target, target := target,
      revision := WrapInc(w.revision)), io);
    if saved.reply != Okay then saved else Reconcile(saved.world, io)
  }

  // ----- commands

  /** `writable`: why a setter is refused, if it is. */
  function Blocked(w: World): Option<Reply>
  {
    if w.fault == Rebooting then Some(Busy)
    else if w.loadFault.Some? then Some(InvalidState)
    else None
  }

  function Duration(requested: nat): nat { if requested == 0 then DEFAULT_TRANSITION_MS else requested }

  function CurrentFrame(w: World): OutputFrame
  {
    if w.applied.Some? then w.applied.value else FromState(w.target.(on := false))
  }

  /** A single ramp from the current brightness to where `target` settles; fading out freezes the colour. */
  function RampTo(w: World, target: LightState, duration: nat, shape: Shape): Fade
    requires duration <= MAX_TRANSITION_MS
  {
    var current := CurrentFrame(w);
    LevelTrack(
      Transition(current.brightness, FromState(target).brightness, w.now, duration, shape),
      None,
      if target.on then None else Some(current.state.temperature))
  }

  function TemperatureRamp(w: World, to: Temperature, duration: nat, shape: Shape): TemperatureFade
    requires duration <= MAX_TRANSITION_MS
  {
    Transition(CurrentFrame(w).state.temperature, to, w.now, duration, shape)
  }

  // Each `...Tracks` function is the change of tracks a command makes before it commits its target.

  function SceneTracks(w: World, target: LightState, duration: nat): (r: World)
    requires duration <= MAX_TRANSITION_MS
    ensures r == w.(level := r.level, temperature := r.temperature)
  {
    var animate := CurrentFrame(w).brightness != 0 || target.on;
    w.(level := if animate then Some(RampTo(w, target, duration, Smooth)) else None,
       temperature := if animate && target.on then Some(TemperatureRamp(w, target.temperature, duration, Smooth))
         else None)
  }

  function RecallScene(w: World, target: LightState, ms: nat, io: Io): (r: Done)
    ensures r.world.now == w.now
  {
    if ms > MAX_TRANSITION_MS then Done(w, ConstraintError)
    else if Blocked(w).Some? then Done(w, Blocked(w).value)
    else if target == w.target then Commit(w, target, io)
    else Commit(SceneTracks(w, target, Duration(ms)), target, io)
  }

  function PowerTracks(w: World, target: LightState): (r: World)
    ensures r == w.(level := r.level, temperature := r.temperature)
  {
    w.(level := Some(RampTo(w, target, DEFAULT_TRANSITION_MS, Smooth)),
       temperature :=
         if !target.on then None
         else if CurrentFrame(w).state.temperature != target.temperature then
           Some(TemperatureRamp(w, target.temperature, DEFAULT_TRANSITION_MS, Smooth))
         else w.temperature)
  }

  function SetPower(w: World, on: bool, io: Io): (r: Done)
    ensures r.world.now == w.now
  {
    var target := w.target.(on := on);
    if Blocked(w).Some? then Done(w, Blocked(w).value)
    else Commit(if on == w.target.on then w else PowerTracks(w, target), target, io)
  }

  /** Midpoint and leg durations of an off effect that starts at brightness `from`. */
  function EffectLegs(effect: OffEffect, from: Brightness): (Brightness, nat, nat)
  {
    match effect
    case FastFade => (0, 800, 0)
    case NoFade => (0, 0, 0)
    case SlowFade => (from / 2, 800, 12_000)
    case DyingLight => (Min(from * 6 / 5, MAX_BRIGHTNESS), 500, 1_000)
  }

  function EffectTracks(w: World, effect: OffEffect): (r: World)
    ensures r == w.(level := r.level, temperature := r.temperature)
  {
    var current := CurrentFrame(w);
    var (middle, first, last) := EffectLegs(effect, current.brightness);
    w.(level :=
         if current.brightness != 0 && first != 0 then
           Some(LevelTrack(
             Transition(current.brightness, middle, w.now, first, Smooth),
             if last != 0 then Some(Transition(middle, 0, w.now + first, last, Smooth)) else None,
             Some(current.state.temperature)))
         else None,
       temperature := None)
  }

  function OffWithEffect(w: World, effect: OffEffect, io: Io): (r: Done)
    ensures r.world.now == w.now
  {
    if Blocked(w).Some? then Done(w, Blocked(w).value)
    else Commit(EffectTracks(w, effect), w.target.(on := false), io)
  }

  function LevelTarget(w: World, level: byte, withOnOff: bool): LightState
    requires level != 255
  {
    LightState(if withOnOff then level > 1 else w.target.on, Max(level, 1), w.target.temperature)
  }

  function LevelTracks(w: World, target: LightState, duration: nat, shape: Shape): (r: World)
    requires duration <= MAX_TRANSITION_MS
    ensures r == w.(level := r.level, temperature := r.temperature)
  {
    var current := CurrentFrame(w);
    var animate := duration != 0 && (current.brightness != 0 || target.on);
    w.(level := if animate then Some(RampTo(w, target, duration, shape)) else None,
       temperature :=
         if !target.on then None
         else if !w.target.on && current.state.temperature != target.temperature then
           Some(TemperatureRamp(w, target.temperature, duration, shape))
         else w.temperature)
  }

  /** An identical positional target keeps its deadline; a remembered level never touches a fade-out. */
  predicate KeepsLevelTrack(w: World, target: LightState, withOnOff: bool, shape: Shape)
  {
    (target == w.target && shape == Smooth) || (!target.on && !w.target.on && !withOnOff)
  }

  /** `set_level_transition` (smooth) and `set_level_rate` (linear). */
  function MoveLevel(w: World, level: byte, withOnOff: bool, ms: nat, shape: Shape, io: Io): (r: Done)
    ensures r.world.now == w.now
  {
    var duration := if shape == Smooth then Duration(ms) else ms;
    if level == 255 || duration > MAX_TRANSITION_MS then Done(w, ConstraintError)
    else if Blocked(w).Some? then Done(w, Blocked(w).value)
    else
      var target := LevelTarget(w, level, withOnOff);
      Commit(if KeepsLevelTrack(w, target, withOnOff, shape) then w else LevelTracks(w, target, duration, shape),
        target, io)
  }

  function TemperatureTracks(w: World, to: Temperature, duration: nat, shape: Shape): (r: World)
    requires duration <= MAX_TRANSITION_MS
    ensures r == w.(level := r.level, temperature := r.temperature)
  {
    w.(temperature :=
         if w.target.on && (to != w.target.temperature || shape == Linear) then
           if duration != 0 then Some(TemperatureRamp(w, to, duration, shape)) else None
         else w.temperature)
  }

  /** `set_temperature_transition` (smooth) and `set_temperature_rate` (linear). */
  function MoveTemperature(w: World, to: Temperature, ms: nat, shape: Shape, io: Io): (r: Done)
    ensures r.world.now == w.now
  {
    var duration := if shape == Smooth then Duration(ms) else ms;
    if duration > MAX_TRANSITION_MS then Done(w, ConstraintError)
    else if Blocked(w).Some? then Done(w, Blocked(w).value)
    else Commit(TemperatureTracks(w, to, duration, shape), w.target.(temperature := to), io)
  }

  /** Nearest storable state to an acknowledged frame, Off below half the level floor. */
  function StopTarget(w: World, frame: OutputFrame, stopped: Fade): LightState
  {
    LightState(
      frame.brightness > DENOMINATOR / 2,
      ToLevelClamped(frame.brightness),
      if stopped.offTemperature.Some? then stopped.offTemperature.value else w.target.temperature)
  }

  function StopLevel(w: World, io: Io): (r: Done)
    ensures r.world.now == w.now
  {
    if Blocked(w).Some? then Done(w, Blocked(w).value)
    else if w.level.None? then Done(w, Okay)
    else if w.applied.None? then Done(w, InvalidState)
    else Commit(w.(level := None), StopTarget(w, w.applied.value, w.level.value), io)
  }

  function StopTemperature(w: World, io: Io): (r: Done)
    ensures r.world.now == w.now
  {
    if Blocked(w).Some? then Done(w, Blocked(w).value)
    else if w.temperature.None? then Done(w, Okay)
    else if w.applied.None? then Done(w, InvalidState)
    else Commit(w.(temperature := None), w.target.(temperature := w.applied.value.state.temperature), io)
  }

  /** Local Off first shuts the output down; a malformed record is to be rewritten. */
  function Darken(w: World, io: Io): (r: World)
    ensures r.now == w.now
  {
    w.(trace := w.trace + [Parked(io.stop)], applied := None, level := None, temperature := None,
       dirty := w.dirty || w.target.on || w.loadFault == Some(InvalidRecord),
       target := w.target.(on := false))
  }

  /** Local Off is refused by nothing: not by an unreadable record, not by a pending reboot. */
  function LocalOff(w: World, io: Io): (r: Done)
    ensures r.world.now == w.now
  {
    var dark := Darken(w, io);
    if w.loadFault == Some(StorageFault) then
      Done(dark.(offAfterLoad := true, dirty := false,
                 failures := if io.stop then w.failures else SatInc(w.failures)),
           if io.stop then Okay else Failure)
    else
      var saved := SaveIntent(dark, io);
      if saved.reply != Okay then saved else FinishOff(saved.world, io)
  }

  function Repaired(w: World): (r: World)
    ensures r.now == w.now && r.loadFault.None? && r.trace == w.trace
    ensures r == w.(loadFault := None, revision := r.revision)
  {
    w.(loadFault := None, revision := WrapInc(w.revision))
  }

  function FinishOff(w: World, io: Io): (r: Done)
    ensures r.world.now == w.now
  {
    if io.stop then Reconcile(Repaired(w), io) else Done(OutputFailed(Repaired(w), io), Failure)
  }

  function Verify(w: World, io: Io): (r: Done)
    ensures r.world.now == w.now
  {
    if w.applied.None? then Done(w, InvalidState)
    else
      var checked := w.(trace := w.trace + [Checked(w.applied.value, io.check)]);
      if io.check then Done(checked, Okay) else Done(OutputFailed(checked, io), Failure)
  }

  function Registers(w: World, io: Io): (r: Done)
    ensures r.world.now == w.now
  {
    var sampled := w.(trace := w.trace + [Sampled(io.check)]);
    if io.check then Done(sampled, Okay) else Done(OutputFailed(sampled, io), Failure)
  }

  /** The reply says whether the shutdown was verified. */
  function PrepareReboot(w: World, io: Io): (r: Done)
    ensures r.world.now == w.now
  {
    Done(w.(trace := w.trace + [Parked(io.stop)], applied := None, fault := Rebooting, revision := WrapInc(w.revision)),
         if io.stop then Okay else Failure)
  }

  // ----- the periodic tick

  function Tick(w: World, now: Clock, io: Io): (r: World)
    ensures r.now == now
  {
    var timed := w.(now := now);
    if w.fault == Rebooting || now < w.retryAt then timed
    else if w.loadFault == Some(StorageFault) then
      var reading := ReadRecord(w.store, io.read);
      var read := timed.(trace := w.trace + [Loaded(io.read)]);
      match reading
      case Readable(saved) => TickLoaded(Reload(read, saved), io)
      case Unreadable(fault) =>
        read.(loadFault := Some(fault),
              fault := fault,
              storageFailures := if fault == StorageFault then SatInc(w.storageFailures) else w.storageFailures,
              retryAt := SatAdd(now, RETRY_MS))
    else if w.loadFault.Some? then timed
    else TickLoaded(timed, io)
  }

  function Reload(w: World, saved: Saved): (r: World)
    requires saved.startup.Valid()
    ensures r.now == w.now
  {
    var restored := StartupIntent(saved.intended, saved.startup);
    var target := if w.offAfterLoad then restored.(on := false) else restored;
    w.(target := target, intended := target, applied := None, startup := saved.startup,
       dirty := saved.migrated || target != saved.intended,
       loadFault := None, fault := NoFault, revision := WrapInc(w.revision))
  }

  function TickLoaded(w: World, io: Io): (r: World)
    ensures r.now == w.now
  {
    var saved := SaveIntent(w, io);
    if saved.reply != Okay then saved.world
    else if saved.world.applied != Some(Effective(saved.world)) then Reconcile(saved.world, io).world
    else TickSettled(saved.world, io)
  }

  function TickSettled(w: World, io: Io): (r: World)
    requires w.applied.Some?
    ensures r.now == w.now
  {
    var expired := ExpireTracks(w);
    if w.now < w.nextVerify then expired else CheckDue(expired, io)
  }

  /** The periodic readback of the acknowledged frame. */
  function CheckDue(w: World, io: Io): (r: World)
    requires w.applied.Some?
    ensures r.now == w.now
  {
    var checked := w.(nextVerify := SatAdd(w.now, RETRY_MS), trace := w.trace + [Checked(w.applied.value, io.check)]);
    if io.check then checked else OutputFailed(checked, io)
  }

  // ----- the machine

  /** Start-up policies a controller may write; On and Toggle are refused. */
  datatype StartUpOnOff = StartOff | StartOn | StartToggle

  datatype Command =
    | CmdTick(now: Clock)
    | CmdPower(on: bool)
    | CmdLevel(level: byte, withOnOff: bool, ms: nat, shape: Shape)
    | CmdTemperature(to: Temperature, ms: nat, shape: Shape)
    | CmdScene(target: LightState, ms: nat)
    | CmdEffect(effect: OffEffect)
    | CmdStopLevel
    | CmdStopTemperature
    | CmdLocalOff
    | CmdVerify
    | CmdRegisters
    | CmdReboot
    | CmdStartupPower(policy: Option<StartUpOnOff>)
    | CmdStartupLevel(startLevel: Option<byte>)
    | CmdStartupTemperature(startTemperature: Option<Temperature>)

  function Step(w: World, c: Command, io: Io): (r: Done)
    ensures r.world.now == (if c.CmdTick? then c.now else w.now)
  {
    match c
    case CmdTick(now) => Done(Tick(w, now, io), Okay)
    case CmdPower(on) => SetPower(w, on, io)
    case CmdLevel(level, withOnOff, ms, shape) => MoveLevel(w, level, withOnOff, ms, shape, io)
    case CmdTemperature(to, ms, shape) => MoveTemperature(w, to, ms, shape, io)
    case CmdScene(target, ms) => RecallScene(w, target, ms, io)
    case CmdEffect(effect) => OffWithEffect(w, effect, io)
    case CmdStopLevel => StopLevel(w, io)
    case CmdStopTemperature => StopTemperature(w, io)
    case CmdLocalOff => LocalOff(w, io)
    case CmdVerify => Verify(w, io)
    case CmdRegisters => Registers(w, io)
    case CmdReboot => PrepareReboot(w, io)
    case CmdStartupPower(policy) => SetStartupPower(w, policy, io)
    case CmdStartupLevel(level) => SetStartupLevel(w, level, io)
    case CmdStartupTemperature(t) => SaveStartup(w, w.startup.(temperature := t), io)
  }

  function SetStartupPower(w: World, policy: Option<StartUpOnOff>, io: Io): (r: Done)
    ensures r.world.now == w.now
  {
    if policy == Some(StartOn) || policy == Some(StartToggle) then Done(w, ConstraintError)
    else SaveStartup(w, w.startup.(power := if policy.Some? then 1 else 0), io)
  }

  function SetStartupLevel(w: World, level: Option<byte>, io: Io): (r: Done)
    ensures r.world.now == w.now
  {
    if level == Some(255) then Done(w, ConstraintError)
    else SaveStartup(w, w.startup.(level := level), io)
  }

  /** One step of a run: a command together with the environment's answers to it. */
  datatype Action = Action(command: Command, io: Io)

  function Run(w: World, actions: seq<Action>): World
    decreases |actions|
  {
    if actions == [] then w
    else Run(Step(w, actions[0].command, actions[0].io).world, actions[1..])
  }

  /** The clock does not run backwards. */
  predicate Timely(now: nat, c: Command)
  {
    c.CmdTick? ==> now <= c.now
  }

  predicate TimelyRun(now: nat, actions: seq<Action>)
    decreases |actions|
  {
    actions != [] ==>
      && Timely(now, actions[0].command)
      && TimelyRun(if actions[0].command.CmdTick? then actions[0].command.now else now, actions[1..])
  }

  /** Healthy destination as controllers read it. */
  function Reported(w: World): Option<LightState>
  {
    if w.fault != NoFault || w.applied.None? then None else Some(w.target)
  }
}
