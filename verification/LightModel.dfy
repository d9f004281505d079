/**
 * The Matter-facing light on top of the runtime: timed Off with its guard interval, the global scene latch and
 * staged scene recall, as functions from a light and the environment's answers to the next light.
 */
module LightModel {
  import opened Basics
  import opened Light
  import opened Curve
  import opened RuntimeModel

  /** A count of tenths of a second; the largest means for ever. */
  type Ticks = n: nat | n <= U16_MAX

  const FOREVER: Ticks := U16_MAX

  datatype Timers = Timers(onTime: Ticks, offWait: Ticks, timed: bool)

  const NO_TIMERS := Timers(0, 0, false)

  /** What an attribute of a scene sets; the firmware keeps the fields seen as four bits of a byte. */
  datatype Field = PowerField | LevelField | TemperatureField | ModeField

  datatype SceneDraft = SceneDraft(target: LightState, durationMs: nat, fields: set<Field>)

  datatype Lamp = Lamp(
    world: World,
    timers: Timers,
    onLevel: Option<byte>,
    levelOptions: byte,
    colorOptions: byte,
    globalScene: bool,
    globalState: Option<LightState>,
    draft: Option<SceneDraft>,
    coupled: bool)

  datatype LampDone = LampDone(lamp: Lamp, reply: Reply)

  // ----- writable attributes

  datatype Attribute =
    | OnLevel(level: Option<byte>)
    | OnTime(ticks: Ticks)
    | OffWaitTime(ticks: Ticks)
    | LevelOptions(bits: byte)
    | ColorOptions(bits: byte)

  /** A timer may be written at any time, whatever the light is doing; it does not start counting by that. */
  function Write(l: Lamp, attribute: Attribute): (r: LampDone)
    ensures r.lamp.world == l.world && r.lamp.timers.timed == l.timers.timed
  {
    match attribute
    case OnLevel(level) =>
      if level.Some? && !IsLevel(level.value) then LampDone(l, ConstraintError)
        else LampDone(l.(onLevel := level), Okay)
    case OnTime(ticks) => LampDone(l.(timers := l.timers.(onTime := ticks)), Okay)
    case OffWaitTime(ticks) => LampDone(l.(timers := l.timers.(offWait := ticks)), Okay)
    case LevelOptions(bits) =>
      if bits >= 4 then LampDone(l, ConstraintError) else LampDone(l.(levelOptions := bits), Okay)
    case ColorOptions(bits) =>
      if bits >= 2 then LampDone(l, ConstraintError) else LampDone(l.(colorOptions := bits), Okay)
  }

  // ----- power and its timers

  /** Switching on keeps a running on-time and drops a guard that has none. */
  function TimersOn(t: Timers): Timers
  {
    var offWait := if t.onTime == 0 then 0 else t.offWait;
    Timers(t.onTime, offWait, t.onTime > 0 && t.onTime != FOREVER && offWait != FOREVER)
  }

  /** Switching off early starts the guard. */
  function TimersOff(t: Timers): Timers
  {
    Timers(0, t.offWait, t.offWait > 0 && t.offWait != FOREVER)
  }

  /** The `OnLevel` attribute applies when the light is not already reported On. */
  predicate Raises(l: Lamp)
  {
    l.onLevel.Some? && !(Reported(l.world).Some? && Reported(l.world).value.on)
  }

  /** `raise` answers the level command that `OnLevel` adds, `io` the power command. */
  function Power(l: Lamp, on: bool, raise: Io, io: Io): (r: LampDone)
  {
    if on then
      var lit := l.(globalScene := true, timers := TimersOn(l.timers));
      if Raises(l) then
        var raised := MoveLevel(l.world, l.onLevel.value, true, 0, Smooth, raise);
        if raised.reply != Okay then LampDone(lit.(world := raised.world), raised.reply)
        else Lift(lit, SetPower(raised.world, true, io))
      else Lift(lit, SetPower(l.world, true, io))
    else
      Lift(l.(coupled := false, timers := TimersOff(l.timers)), SetPower(l.world, false, io))
  }

  function Lift(l: Lamp, d: Done): LampDone { LampDone(l.(world := d.world), d.reply) }

  function Tick(l: Lamp, ds: Ticks, io: Io): (r: Lamp)
  {
    if !l.timers.timed then l
    else if l.world.target.on then
      var counted := l.(timers := l.timers.(onTime := SatSub(l.timers.onTime, ds)));
      if counted.timers.onTime == 0 then Power(counted, false, io, io).lamp.(timers := NO_TIMERS) else counted
    else
      var left := SatSub(l.timers.offWait, ds);
      l.(timers := Timers(0, left, left != 0))
  }

  /** `OnWithTimedOff`: during the guard it can only shorten the guard. */
  function TimedOn(l: Lamp, acceptOnlyOn: bool, onTime: Ticks, offWait: Ticks, raise: Io, io: Io): (r: LampDone)
  {
    if onTime == FOREVER || offWait == FOREVER then LampDone(l, ConstraintError)
    else if Reported(l.world).None? then LampDone(l, InvalidState)
    else
      var on := Reported(l.world).value.on;
      if acceptOnlyOn && !on then LampDone(l, Okay)
      else if l.timers.offWait > 0 && !on then
        var left := Min(l.timers.offWait, offWait);
        LampDone(l.(timers := l.timers.(offWait := left, timed := left > 0 && left != FOREVER)), Okay)
      else
        var loaded := l.(timers := l.timers.(onTime := Max(l.timers.onTime, onTime), offWait := offWait));
        var d := Power(loaded, true, raise, io);
        var t := d.lamp.timers;
        LampDone(d.lamp.(timers := t.(timed := t.onTime != FOREVER && t.offWait != FOREVER)), d.reply)
  }

  // ----- the global scene

  /** The first Off with effect since the latch opened captures what is reported. */
  function EffectOff(l: Lamp, effect: OffEffect, io: Io): (r: LampDone)
  {
    if l.globalScene && Reported(l.world).None? then LampDone(l, InvalidState)
    else
      var saved := if l.globalScene then l.(globalState := Reported(l.world), globalScene := false) else l;
      Lift(saved.(coupled := false, timers := TimersOff(l.timers)), OffWithEffect(l.world, effect, io))
  }

  function RecallGlobal(l: Lamp, io: Io): (r: LampDone)
  {
    if l.globalScene then LampDone(l, Okay)
    else if l.globalState.None? then LampDone(l, InvalidState)
    else
      var d := RecallScene(l.world, l.globalState.value, 0, io);
      if d.reply != Okay then Lift(l, d)
      else
        var t := l.timers;
        Lift(l.(globalScene := true, timers := t.(offWait := if t.onTime == 0 then 0 else t.offWait)), d)
  }

  // ----- level and colour commands

  /** Option bits of the Level Control and Color Control clusters. */
  const EXECUTE_IF_OFF: byte := 1
  const COUPLE_COLOR: byte := 2

  predicate Has(bits: byte, bit: byte)
    requires bit > 0
  {
    bits / bit % 2 == 1
  }

  /** An option bit after a command's override: `(options & !mask) | (override & mask)`. */
  predicate Chosen(options: byte, mask: byte, over: byte, bit: byte)
    requires bit > 0
  {
    Has(if Has(mask, bit) then over else options, bit)
  }

  /** Does a command act on this light? None if that depends on a state that cannot be reported. */
  function Executes(l: Lamp, always: bool, options: byte, mask: byte, over: byte): Option<bool>
  {
    if always then Some(true)
    else if Reported(l.world).None? then None
    else Some(Reported(l.world).value.on || Chosen(options, mask, over, EXECUTE_IF_OFF))
  }

  function Send(l: Lamp, c: Command, io: Io): LampDone { Lift(l, Step(l.world, c, io)) }

  /** The colour a level is coupled to: warmest at the lowest level, coolest at the highest. */
  function CoupledColor(raw: byte): Temperature
    requires raw != 255
  {
    344 - (Max(raw, 1) - 1) * 201 / 253
  }

  /** `io` answers the level command, `more` the colour command that coupling adds. */
  function LevelTo(l: Lamp, raw: byte, withOnOff: bool, ds: Ticks, mask: byte, over: byte, shape: Shape, io: Io,
    more: Io): LampDone
  {
    if raw == 255 then LampDone(l, ConstraintError)
    else
      match Executes(l, withOnOff, l.levelOptions, mask, over)
      case None => LampDone(l, InvalidState)
      case Some(false) => LampDone(l, Okay)
      case Some(true) =>
        var moved := Send(l, CmdLevel(raw, withOnOff, 100 * ds, shape), io);
        if moved.reply != Okay then moved
        else Couple(moved.lamp.(coupled := false), raw, withOnOff, ds,
          Chosen(l.levelOptions, mask, over, COUPLE_COLOR), shape, more)
  }

  /** After the level has been accepted: the coupled colour, then the global scene latch. */
  function Couple(l: Lamp, raw: byte, withOnOff: bool, ds: Ticks, coupled: bool, shape: Shape, more: Io): LampDone
    requires raw != 255
  {
    var d := if coupled then Send(l, CmdTemperature(CoupledColor(raw), 100 * ds, shape), more) else LampDone(l, Okay);
    if d.reply != Okay then d
    else LampDone(d.lamp.(coupled := coupled, globalScene := l.globalScene || (withOnOff && raw > 1)), Okay)
  }

  /** Rounding a quotient up: the least q with q * b >= a. */
  function DivCeil(a: nat, b: nat): (q: nat)
    requires b > 0
    ensures a <= q * b < a + b && q <= a
  {
    DivMultiple(a, b);
    (a + b - 1) / b
  }

  lemma DivMultiple(a: nat, b: nat)
    requires b > 0
    ensures var q := (a + b - 1) / b; a <= q * b < a + b && 0 <= q <= a
  {
    var q := (a + b - 1) / b;
    if q > a { MulLe(a + 1, q, b); MulLe(1, b, a); }
  }

  /** The end of an unbounded level move. */
  function MoveEnd(up: bool, withOnOff: bool): byte { if up then 254 else if withOnOff then 0 else 1 }

  /** Tenths of a second a move at `rate` levels per second takes. */
  function MoveTime(from: Level, end: byte, rate: byte): Ticks
    requires 0 < rate && end != 255
  {
    DivCeil(10 * Abs(from - end), rate)
  }

  function LevelMove(l: Lamp, up: bool, rate: Option<byte>, withOnOff: bool, mask: byte, over: byte, io: Io,
    more: Io): LampDone
  {
    match Executes(l, withOnOff, l.levelOptions, mask, over)
    case None => LampDone(l, InvalidState)
    case Some(false) => LampDone(l, Okay)
    case Some(true) =>
      var speed: byte := if rate.Some? then rate.value else 254;
      if speed == 0 then LampDone(l, InvalidCommand)
      else if l.world.applied.None? then LampDone(l, InvalidState)
      else
        var end := MoveEnd(up, withOnOff);
        LevelTo(l, end, withOnOff, MoveTime(l.world.applied.value.state.level, end, speed), mask, over, Linear, io,
          more)
  }

  /** Where a step from the acknowledged level leads. */
  function StepEnd(from: Level, up: bool, step: byte, withOnOff: bool): byte
  {
    if up then Min(from + step, 254) else Max(from - step, if withOnOff then 0 else 1)
  }

  function LevelStep(l: Lamp, up: bool, step: byte, ds: Ticks, withOnOff: bool, mask: byte, over: byte, io: Io,
    more: Io): LampDone
  {
    match Executes(l, withOnOff, l.levelOptions, mask, over)
    case None => LampDone(l, InvalidState)
    case Some(false) => LampDone(l, Okay)
    case Some(true) =>
      if l.world.applied.None? then LampDone(l, InvalidState)
      else LevelTo(l, StepEnd(l.world.applied.value.state.level, up, step, withOnOff), withOnOff, ds, mask, over,
        Smooth, io, more)
  }

  function LevelRemaining(w: World): nat { if w.level.Some? then w.level.value.Remaining(w.now) else 0 }

  /** Stop reaches a fade to Off although the target already says Off, and takes a coupled colour with it. */
  function LevelStop(l: Lamp, withOnOff: bool, mask: byte, over: byte, io: Io, more: Io): LampDone
  {
    match Executes(l, withOnOff || LevelRemaining(l.world) != 0, l.levelOptions, mask, over)
    case None => LampDone(l, InvalidState)
    case Some(false) => LampDone(l, Okay)
    case Some(true) =>
      var stopped := Send(l, CmdStopLevel, io);
      if stopped.reply != Okay || !l.coupled then stopped
      else Send(stopped.lamp.(coupled := false), CmdStopTemperature, more)
  }

  function ClampColor(v: int): Temperature { Max(143, Min(v, 344)) }

  function ColorTo(l: Lamp, mireds: Ticks, ds: Ticks, mask: byte, over: byte, io: Io): LampDone
  {
    if mireds == 0 || mireds > 0xfeff then LampDone(l, ConstraintError)
    else
      match Executes(l, false, l.colorOptions, mask, over)
      case None => LampDone(l, InvalidState)
      case Some(false) => LampDone(l, Okay)
      case Some(true) => Send(l.(coupled := false), CmdTemperature(ClampColor(mireds), 100 * ds, Smooth), io)
  }

  /** Bounds of a colour move or step; zero stands for the lamp's own limit. */
  function ColorBounds(least: Ticks, most: Ticks): Option<(Temperature, Temperature)>
  {
    var lo := if least == 0 then 143 else Max(least, 143);
    var hi := if most == 0 then 344 else Min(most, 344);
    if lo > hi then None else Some((lo, hi))
  }

  datatype ColorMode = ColorStop | ColorUp | ColorDown

  function ColorMove(l: Lamp, mode: ColorMode, rate: Ticks, least: Ticks, most: Ticks, mask: byte, over: byte,
    io: Io): LampDone
  {
    if mode.ColorStop? then ColorHalt(l, mask, over, io)
    else if rate == 0 then LampDone(l, InvalidCommand)
    else
      match Executes(l, false, l.colorOptions, mask, over)
      case None => LampDone(l, InvalidState)
      case Some(false) => LampDone(l, Okay)
      case Some(true) =>
        var bounds := ColorBounds(least, most);
        if bounds.None? then LampDone(l, ConstraintError)
        else if l.world.applied.None? then LampDone(l, InvalidState)
        else
          var from := l.world.applied.value.state.temperature;
          var to := if mode.ColorUp? then bounds.value.1 else bounds.value.0;
          Send(l.(coupled := false), CmdTemperature(to, DivCeil(1000 * Abs(from - to), rate), Linear), io)
  }

  function ColorStep(l: Lamp, up: bool, step: Ticks, ds: Ticks, least: Ticks, most: Ticks, mask: byte, over: byte,
    io: Io): LampDone
  {
    match Executes(l, false, l.colorOptions, mask, over)
    case None => LampDone(l, InvalidState)
    case Some(false) => LampDone(l, Okay)
    case Some(true) =>
      var bounds := ColorBounds(least, most);
      if bounds.None? then LampDone(l, ConstraintError)
      else if l.world.applied.None? then LampDone(l, InvalidState)
      else
        var from := l.world.applied.value.state.temperature;
        var to := if up then from + step else from - step;
        ColorTo(l, Max(bounds.value.0, Min(to, bounds.value.1)), ds, mask, over, io)
  }

  function ColorHalt(l: Lamp, mask: byte, over: byte, io: Io): LampDone
  {
    match Executes(l, false, l.colorOptions, mask, over)
    case None => LampDone(l, InvalidState)
    case Some(false) => LampDone(l, Okay)
    case Some(true) => Send(l.(coupled := false), CmdStopTemperature, io)
  }

  // ----- staged scenes

  /** One decoded attribute of one cluster's part of a scene. */
  datatype Pair = Pair(id: nat, unsigned8: Option<byte>, unsigned16: Option<nat>)

  datatype Entry = Entry(cluster: nat, pair: Pair)

  const ON_OFF := 6
  const LEVEL_CONTROL := 8
  const COLOR_CONTROL := 0x300
  const COLOR_TEMPERATURE_MODE: byte := 2

  function FieldOf(e: Entry): Option<Field>
  {
    if e.cluster == ON_OFF && e.pair.id == 0 then Some(PowerField)
    else if e.cluster == LEVEL_CONTROL && e.pair.id == 0 then Some(LevelField)
    else if e.cluster == COLOR_CONTROL && e.pair.id == 7 then Some(TemperatureField)
    else if e.cluster == COLOR_CONTROL && e.pair.id == 0x4001 then Some(ModeField)
    else None
  }

  datatype Staged = Staged(draft: SceneDraft) | Refused(reply: Reply)

  /** The value is checked before the field is looked up among those already set. */
  function StageEntry(d: SceneDraft, e: Entry): Staged
  {
    match FieldOf(e)
    case None => Refused(InvalidCommand)
    case Some(PowerField) =>
      if e.pair.unsigned8 == Some(0) then Mark(d, d.target.(on := false), PowerField)
      else if e.pair.unsigned8 == Some(1) then Mark(d, d.target.(on := true), PowerField)
      else Refused(ConstraintError)
    case Some(LevelField) =>
      if e.pair.unsigned8.Some? && IsLevel(e.pair.unsigned8.value) then
        Mark(d, d.target.(level := e.pair.unsigned8.value), LevelField)
      else Refused(ConstraintError)
    case Some(TemperatureField) =>
      if e.pair.unsigned16.Some? && IsTemperature(e.pair.unsigned16.value) then
        Mark(d, d.target.(temperature := e.pair.unsigned16.value), TemperatureField)
      else Refused(ConstraintError)
    case Some(ModeField) =>
      if e.pair.unsigned8 == Some(COLOR_TEMPERATURE_MODE) then Mark(d, d.target, ModeField)
      else Refused(ConstraintError)
  }

  function Mark(d: SceneDraft, target: LightState, field: Field): Staged
  {
    if field in d.fields then Refused(ConstraintError)
    else Staged(d.(target := target, fields := d.fields + {field}))
  }

  function StageEntries(d: SceneDraft, entries: seq<Entry>): Staged
    decreases |entries|
  {
    if entries == [] then Staged(d)
    else
      match StageEntry(d, entries[0])
      case Refused(reply) => Refused(reply)
      case Staged(next) => StageEntries(next, entries[1..])
  }

  function EntriesOf(cluster: nat, pairs: seq<Pair>): (r: seq<Entry>)
    ensures |r| == |pairs|
  {
    seq(|pairs|, i requires 0 <= i < |pairs| => Entry(cluster, pairs[i]))
  }

  function BeginScene(l: Lamp): (r: LampDone)
  {
    if l.draft.Some? then LampDone(l, Busy)
    else if Reported(l.world).None? then LampDone(l, InvalidState)
    else LampDone(l.(draft := Some(SceneDraft(Reported(l.world).value, 0, {}))), Okay)
  }

  /** A refused list leaves the draft as it was. */
  function StageScene(l: Lamp, cluster: nat, pairs: seq<Pair>, durationMs: nat): (r: LampDone)
  {
    if l.draft.None? then LampDone(l, InvalidState)
    else if durationMs > MAX_TRANSITION_MS then LampDone(l, ConstraintError)
    else
      match StageEntries(l.draft.value.(durationMs := durationMs), EntriesOf(cluster, pairs))
      case Staged(draft) => LampDone(l.(draft := Some(draft)), Okay)
      case Refused(reply) => LampDone(l, reply)
  }

  function FinishScene(l: Lamp, io: Io): (r: LampDone)
  {
    if l.draft.None? then LampDone(l, InvalidState)
    else
      var draft := l.draft.value;
      var d := RecallScene(l.world, draft.target, draft.durationMs, io);
      Lift(l.(draft := None, coupled := false, timers := NO_TIMERS,
              globalScene := l.globalScene || (d.reply == Okay && draft.target.on)), d)
  }

  function AbortScene(l: Lamp): Lamp { l.(draft := None) }

  /** One cluster's part of a recalled scene. */
  datatype Part = Part(cluster: nat, pairs: seq<Pair>, durationMs: nat)

  function StageParts(l: Lamp, parts: seq<Part>): (r: LampDone)
    decreases |parts|
  {
    if parts == [] then LampDone(l, Okay)
    else
      var d := StageScene(l, parts[0].cluster, parts[0].pairs, parts[0].durationMs);
      if d.reply != Okay then d else StageParts(d.lamp, parts[1..])
  }

  /** `AtomicScenes::invoke` for a recall: clusters are staged one by one and committed together. */
  function RecallParts(l: Lamp, parts: seq<Part>, io: Io): (r: LampDone)
  {
    var begun := BeginScene(l);
    if begun.reply != Okay then begun
    else
      var staged := StageParts(begun.lamp, parts);
      if staged.reply != Okay then LampDone(AbortScene(staged.lamp), staged.reply)
      else FinishScene(staged.lamp, io)
  }

  // ----- the machine

  /** What the console, the transport and the clock send to the runtime directly: no level with On/Off coupling. */
  type Direct = c: Command | c.CmdLevel? ==> !c.withOnOff witness CmdVerify

  datatype LightCommand =
    | LightPower(on: bool)
    | LightTick(ds: Ticks)
    | LightTimedOn(acceptOnlyOn: bool, onTime: Ticks, offWait: Ticks)
    | LightOffEffect(effect: OffEffect)
    | LightRecallGlobal
    | LightRecallParts(parts: seq<Part>)
    | LightLevelTo(raw: byte, withOnOff: bool, ds: Ticks, mask: byte, over: byte)
    | LightLevelMove(up: bool, rate: Option<byte>, withOnOff: bool, mask: byte, over: byte)
    | LightLevelStep(up: bool, step: byte, ds: Ticks, withOnOff: bool, mask: byte, over: byte)
    | LightLevelStop(withOnOff: bool, mask: byte, over: byte)
    | LightColorTo(mireds: Ticks, ds: Ticks, mask: byte, over: byte)
    | LightColorMove(mode: ColorMode, colorRate: Ticks, least: Ticks, most: Ticks, mask: byte, over: byte)
    | LightColorStep(up: bool, colorStep: Ticks, ds: Ticks, least: Ticks, most: Ticks, mask: byte, over: byte)
    | LightColorHalt(mask: byte, over: byte)
    | LightWrite(attribute: Attribute)
    | LightRuntime(command: Direct)

  /** `io` answers the runtime command a step is about, `more` the one it may add. */
  function LightAnswer(l: Lamp, c: LightCommand, more: Io, io: Io): LampDone
  {
    match c
    case LightPower(on) => Power(l, on, more, io)
    case LightTick(ds) => LampDone(Tick(l, ds, io), Okay)
    case LightTimedOn(acceptOnlyOn, onTime, offWait) => TimedOn(l, acceptOnlyOn, onTime, offWait, more, io)
    case LightOffEffect(effect) => EffectOff(l, effect, io)
    case LightRecallGlobal => RecallGlobal(l, io)
    case LightRecallParts(parts) => RecallParts(l, parts, io)
    case LightLevelTo(raw, withOnOff, ds, mask, over) => LevelTo(l, raw, withOnOff, ds, mask, over, Smooth, io, more)
    case LightLevelMove(up, rate, withOnOff, mask, over) => LevelMove(l, up, rate, withOnOff, mask, over, io, more)
    case LightLevelStep(up, step, ds, withOnOff, mask, over) =>
      LevelStep(l, up, step, ds, withOnOff, mask, over, io, more)
    case LightLevelStop(withOnOff, mask, over) => LevelStop(l, withOnOff, mask, over, io, more)
    case LightColorTo(mireds, ds, mask, over) => ColorTo(l, mireds, ds, mask, over, io)
    case LightColorMove(mode, rate, least, most, mask, over) => ColorMove(l, mode, rate, least, most, mask, over, io)
    case LightColorStep(up, step, ds, least, most, mask, over) =>
      ColorStep(l, up, step, ds, least, most, mask, over, io)
    case LightColorHalt(mask, over) => ColorHalt(l, mask, over, io)
    case LightWrite(attribute) => Write(l, attribute)
    case LightRuntime(command) => Send(l, command, io)
  }

  function LightStep(l: Lamp, c: LightCommand, more: Io, io: Io): Lamp { LightAnswer(l, c, more, io).lamp }

  datatype LightAction = LightAction(command: LightCommand, more: Io, io: Io)

  function LightRun(l: Lamp, actions: seq<LightAction>): Lamp
    decreases |actions|
  {
    if actions == [] then l
    else LightRun(LightStep(l, actions[0].command, actions[0].more, actions[0].io), actions[1..])
  }

  // ----- the maintenance loop

  /** One pass: a clock reading, and the environment's answers to the timer expiry and to the runtime's tick. */
  datatype Round = Round(now: Clock, expiry: Io, run: Io)

  /** The loop's progress: `last` is the instant up to which time has been handed to the timers. */
  datatype Progress = Progress(lamp: Lamp, last: nat, delivered: nat)

  function TicksDue(p: Progress, r: Round): Ticks
    requires p.last <= r.now
  {
    Min((r.now - p.last) / 100, U16_MAX)
  }

  function Pass(p: Progress, r: Round): (q: Progress)
    requires p.last <= r.now
    ensures p.last <= q.last <= r.now
  {
    var ticks := TicksDue(p, r);
    var lamp := if ticks > 0 then Tick(p.lamp, ticks, r.expiry) else p.lamp;
    Progress(lamp.(world := RuntimeModel.Tick(lamp.world, r.now, r.run)), p.last + 100 * ticks, p.delivered + ticks)
  }

  predicate TimelyRounds(now: nat, rounds: seq<Round>)
    decreases |rounds|
  {
    rounds != [] ==> now <= rounds[0].now && TimelyRounds(rounds[0].now, rounds[1..])
  }

  /** The last reading. */
  function EndOf(now: nat, rounds: seq<Round>): nat { if rounds == [] then now else rounds[|rounds| - 1].now }

  function Maintain(p: Progress, now: nat, rounds: seq<Round>): Progress
    requires p.last <= now && TimelyRounds(now, rounds)
    decreases |rounds|
  {
    if rounds == [] then p else Maintain(Pass(p, rounds[0]), rounds[0].now, rounds[1..])
  }
}
