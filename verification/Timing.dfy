/** Timing: how long the fades that commands start take, along which curve, and what an off effect shows when. */
module Timing {
  import opened Basics
  import opened Light
  import opened Curve
  import opened Record
  import opened RuntimeModel
  import opened RuntimeInvariant
  import opened Behaviour
  import opened Settling
  import opened Commands

  /** The time a command asks for, in milliseconds: what it says, or 400 where it says nothing. */
  function Lasts(c: Command): nat
  {
    match c
    case CmdPower(_) => 400
    case CmdLevel(_, _, ms, shape) => if shape == Smooth && ms == 0 then 400 else ms
    case CmdTemperature(_, ms, shape) => if shape == Smooth && ms == 0 then 400 else ms
    case CmdScene(_, ms) => if ms == 0 then 400 else ms
    case _ => 0
  }

  /** Moves at a rate are straight, everything else is eased. */
  function Moves(c: Command): Shape
  {
    match c
    case CmdLevel(_, _, _, shape) => shape
    case CmdTemperature(_, _, shape) => shape
    case _ => Smooth
  }

  /** The brightness at which a target comes to rest. */
  function Rests(t: LightState): Brightness { if t.on then 253 + 9 * (t.level - 1) else 0 }

  /** Commands that start a fade of the level: a new power, level or scene with light before or after it. */
  predicate FadesLevel(w: World, c: Command)
    requires w.applied.Some? && Asked(w, c).Some?
  {
    var t := Asked(w, c).value;
    match c
    case CmdPower(on) => on != w.target.on
    case CmdLevel(_, withOnOff, ms, shape) =>
      && (shape == Linear || t != w.target)
      && Lasts(c) > 0
      && (w.applied.value.brightness != 0 || t.on)
      && (t.on || w.target.on || withOnOff)
    case CmdScene(_, _) => t != w.target && (w.applied.value.brightness != 0 || t.on)
    case _ => false
  }

  /** Commands that start a fade of the colour. */
  predicate FadesColour(w: World, c: Command)
    requires w.applied.Some? && Asked(w, c).Some?
  {
    var t := Asked(w, c).value;
    var apart := w.applied.value.state.temperature != t.temperature;
    match c
    case CmdPower(on) => on && !w.target.on && apart
    case CmdLevel(_, _, _, _) => t.on && !w.target.on && apart && Lasts(c) > 0
    case CmdTemperature(_, _, shape) => w.target.on && Lasts(c) > 0 && (shape == Linear || t != w.target)
    case CmdScene(_, _) => t != w.target && t.on
    case _ => false
  }

  lemma LevelInstalled(w: World, c: Command)
    requires IsSetter(c) && Asked(w, c).Some? && w.applied.Some? && FadesLevel(w, c)
    ensures var u := Retracked(w, c);
      && 0 < Lasts(c) <= MAX_TRANSITION_MS
      && u.level.Some? && u.level.value.next.None?
      && u.level.value.ramp ==
           Transition(w.applied.value.brightness, Rests(Asked(w, c).value), w.now, Lasts(c), Moves(c))
  {
  }

  lemma ColourInstalled(w: World, c: Command)
    requires IsSetter(c) && Asked(w, c).Some? && w.applied.Some? && FadesColour(w, c)
    ensures 0 < Lasts(c) <= MAX_TRANSITION_MS
    ensures Retracked(w, c).temperature ==
      Some(Transition(w.applied.value.state.temperature, Asked(w, c).value.temperature, w.now, Lasts(c), Moves(c)))
  {
  }

  lemma LiveAtStart(level: Option<Fade>, temperature: Option<TemperatureFade>, now: nat)
    ensures level.Some? && level.value.next.None? && level.value.ramp.start == now <= I64_MAX ==>
      (level.value.ramp.duration > 0 ==> LiveLevel(level, now) == level)
    ensures temperature.Some? && temperature.value.start == now && temperature.value.duration > 0 ==>
      LiveTemperature(temperature, now) == temperature
  {
  }

  /**
   * A level fade takes exactly the time its command asks for and follows exactly the curve of its kind, from the
   * brightness shown when it was given to the brightness asked for.
   */
  lemma LevelFadeRuns(w: World, c: Command, io: Io, t: nat)
    requires Inv(w) && IsSetter(c) && Asked(w, c).Some? && w.applied.Some? && FadesLevel(w, c)
    requires Step(w, c, io).reply == Okay && w.now <= t <= I64_MAX
    ensures var v := Step(w, c, io).world;
      && v.level.Some?
      && v.level.value.Remaining(t) == SatSub(w.now + Lasts(c), t)
      && OnCurve(w.applied.value.brightness, Rests(Asked(w, c).value), Moves(c), Lasts(c), t - w.now,
           v.level.value.Value(t))
  {
    hide Inv, Step, Commit, Retracked, Asked, FadesLevel, Lasts, Rests;
    var u := Retracked(w, c);
    SetterCommits(w, c, io);
    LoadedWhenAcknowledged(w);
    CommitOutcome(u, Asked(w, c).value, io);
    LevelInstalled(w, c);
    LiveAtStart(u.level, u.temperature, w.now);
    ValueOnCurve(u.level.value.ramp, t);
  }

  lemma LoadedWhenAcknowledged(w: World)
    requires Inv(w) && w.applied.Some?
    ensures w.loadFault.None?
  {
  }

  /** Likewise for the colour. */
  lemma ColourFadeRuns(w: World, c: Command, io: Io, t: nat)
    requires Inv(w) && IsSetter(c) && Asked(w, c).Some? && w.applied.Some? && FadesColour(w, c)
    requires Step(w, c, io).reply == Okay && w.now <= t
    ensures var v := Step(w, c, io).world;
      && v.temperature.Some?
      && v.temperature.value.Remaining(t) == SatSub(w.now + Lasts(c), t)
      && OnCurve(w.applied.value.state.temperature, Asked(w, c).value.temperature, Moves(c), Lasts(c), t - w.now,
           v.temperature.value.Value(t))
  {
    hide Inv, Step, Commit, Retracked, Asked, FadesColour, Lasts;
    var u := Retracked(w, c);
    SetterCommits(w, c, io);
    LoadedWhenAcknowledged(w);
    CommitOutcome(u, Asked(w, c).value, io);
    ColourInstalled(w, c);
    LiveAtStart(u.level, u.temperature, w.now);
    ValueOnCurve(u.temperature.value, t);
  }

  /** What a frame shows while the level fades, and after. */
  lemma FrameShowsFade(target: LightState, level: Option<Fade>, temperature: Option<TemperatureFade>, now: Clock)
    ensures var f := FrameFor(target, level, temperature, now);
      && f.brightness == (if level.Some? && level.value.Remaining(now) != 0 then level.value.Value(now)
        else Rests(target))
      && (temperature.Some? ==> f.state.temperature == temperature.value.Value(now))
  {
  }

  /** And so the lamp shows it: a healthy tick at any later instant acknowledges the fade where the command wants it. */
  lemma TickShowsLevelFade(w: World, c: Command, io: Io, t: Clock)
    requires Inv(w) && IsSetter(c) && Asked(w, c).Some? && w.applied.Some? && FadesLevel(w, c)
    requires Step(w, c, io).reply == Okay && w.now <= t
    ensures var shown := Tick(Step(w, c, io).world, t, ALL_WELL).applied;
      && shown.Some?
      && OnCurve(w.applied.value.brightness, Rests(Asked(w, c).value), Moves(c), Lasts(c), t - w.now,
           shown.value.brightness)
  {
    hide Inv, Step, Asked, FadesLevel, Lasts, FrameFor, Tick, Rests;
    var v := Step(w, c, io).world;
    LevelFadeRuns(w, c, io, t);
    SetterOutcome(w, c, io);
    StepInv(w, c, io);
    StepNow(w, c, io);
    HealthyTick(v, t);
    FrameShowsFade(v.target, v.level, v.temperature, t);
    if t - w.now >= Lasts(c) { assert v.level.value.Remaining(t) == 0; }
  }

  lemma TickShowsColourFade(w: World, c: Command, io: Io, t: Clock)
    requires Inv(w) && IsSetter(c) && Asked(w, c).Some? && w.applied.Some? && FadesColour(w, c)
    requires Step(w, c, io).reply == Okay && w.now <= t
    ensures var shown := Tick(Step(w, c, io).world, t, ALL_WELL).applied;
      && shown.Some?
      && OnCurve(w.applied.value.state.temperature, Asked(w, c).value.temperature, Moves(c), Lasts(c), t - w.now,
           shown.value.state.temperature)
  {
    hide Inv, Step, Asked, FadesColour, Lasts, FrameFor, Tick;
    var v := Step(w, c, io).world;
    ColourFadeRuns(w, c, io, t);
    SetterOutcome(w, c, io);
    StepInv(w, c, io);
    StepNow(w, c, io);
    HealthyTick(v, t);
    FrameShowsFade(v.target, v.level, v.temperature, t);
  }

  lemma StepNow(w: World, c: Command, io: Io)
    requires IsSetter(c)
    ensures Step(w, c, io).world.now == w.now
  {
    hide Step;
  }

  /** Commands that ask for nothing new of what is fading: a repeated position, or a memory of an Off lamp. */
  predicate LeavesFades(w: World, c: Command)
    requires Asked(w, c).Some?
  {
    var t := Asked(w, c).value;
    match c
    case CmdPower(on) => on == w.target.on
    case CmdLevel(_, withOnOff, _, shape) => (shape == Smooth && t == w.target) || (!w.target.on && !withOnOff)
    case CmdTemperature(_, _, shape) => (shape == Smooth && t == w.target) || !w.target.on
    case CmdScene(_, _) => t == w.target
    case _ => false
  }

  /** Such a command, answered Okay, leaves both fades and so their deadlines exactly as they were. */
  lemma RepeatKeepsDeadlines(w: World, c: Command, io: Io)
    requires Inv(w) && IsSetter(c) && Asked(w, c).Some? && w.applied.Some? && LeavesFades(w, c)
    requires Step(w, c, io).reply == Okay
    ensures var v := Step(w, c, io).world; v.level == w.level && v.temperature == w.temperature
  {
    hide Inv, Step, Commit, Asked;
    SetterCommits(w, c, io);
    LoadedWhenAcknowledged(w);
    UnchangedTracks(w, c);
    CommitOutcome(Retracked(w, c), Asked(w, c).value, io);
    StillLive(w);
  }

  lemma UnchangedTracks(w: World, c: Command)
    requires IsSetter(c) && Asked(w, c).Some? && LeavesFades(w, c)
    ensures Retracked(w, c).level == w.level && Retracked(w, c).temperature == w.temperature
  {
  }

  lemma StillLive(w: World)
    requires Inv(w) && w.applied.Some?
    ensures LiveLevel(w.level, w.now) == w.level && LiveTemperature(w.temperature, w.now) == w.temperature
  {
    hide AckCurrent, Durable, TracksMeetTarget;
  }

  // ----- coming back from proven zero

  /** Recovery eases an On target in from zero, over 400 milliseconds from the tick that re-established the output. */
  lemma RecoveryShowsEaseIn(w: World, now: Clock, t: Clock)
    requires Inv(w) && w.applied.None? && Recoverable(w) && w.now <= now <= t && w.retryAt <= now && SettlesOn(w).on
    ensures var shown := Tick(Tick(w, now, ALL_WELL), t, ALL_WELL).applied;
      shown.Some? && OnCurve(0, Rests(SettlesOn(w)), Smooth, 400, t - now, shown.value.brightness)
  {
    hide Inv, FrameFor, Tick, SettlesOn, Rests;
    var v := Tick(w, now, ALL_WELL);
    TickInv(w, now, ALL_WELL);
    RecoveryTick(w, now);
    RecoveryRamp(w, now);
    HealthyTick(v, t);
    FrameShowsFade(v.target, v.level, v.temperature, t);
    ValueOnCurve(v.level.value.ramp, t);
  }

  lemma RecoveryRamp(w: World, now: Clock)
    requires w.applied.None? && Recoverable(w) && w.retryAt <= now && SettlesOn(w).on
    ensures var v := Tick(w, now, ALL_WELL);
      && v.now == now && v.level.Some? && v.level.value.next.None?
      && v.level.value.ramp == Transition(0, Rests(SettlesOn(w)), now, 400, Smooth)
  {
    hide TickLoaded, Encode, Rests;
    var timed := w.(now := now);
    if w.loadFault.None? {
      RampLoaded(timed);
    } else {
      RampLoaded(Reload(timed.(trace := w.trace + [Loaded(true)]), ReadRecord(w.store, true).saved));
    }
  }

  lemma RampLoaded(w: World)
    requires w.applied.None? && w.loadFault.None? && w.target.on
    ensures var v := TickLoaded(w, ALL_WELL);
      && v.level.Some? && v.level.value.next.None?
      && v.level.value.ramp == Transition(0, Rests(w.target), w.now, 400, Smooth)
  {
    hide Encode, FrameFor;
  }

  // ----- off effects

  /** What an off effect given at brightness b shows x milliseconds later. */
  predicate EffectShows(effect: OffEffect, b: Brightness, x: nat, shown: Brightness)
  {
    match effect
    case FastFade => OnCurve(b, 0, Smooth, 800, x, shown)
    case NoFade => shown == 0
    case SlowFade =>
      if x < 800 then OnCurve(b, b / 2, Smooth, 800, x, shown) else OnCurve(b / 2, 0, Smooth, 12_000, x - 800, shown)
    case DyingLight =>
      var flare := Min(b * 6 / 5, 2530);
      if x < 500 then OnCurve(b, flare, Smooth, 500, x, shown) else OnCurve(flare, 0, Smooth, 1_000, x - 500, shown)
  }

  /**
   * The instant from which an off effect is dark: a slow fade of the faintest light has nothing left for its second
   * leg.
   */
  function DarkFrom(effect: OffEffect, b: Brightness): nat
  {
    match effect
    case FastFade => 800
    case NoFade => 0
    case SlowFade => if b == 1 then 800 else 12_800
    case DyingLight => 1_500
  }

  /** The legs of an effect, spelled out. */
  predicate Legs(effect: OffEffect, b: Brightness, now: nat, level: Option<Fade>)
  {
    match effect
    case NoFade => level.None?
    case FastFade =>
      level.Some? && level.value.ramp == Transition(b, 0, now, 800, Smooth) && level.value.next.None?
    case SlowFade =>
      level.Some? && level.value.ramp == Transition(b, b / 2, now, 800, Smooth)
      && level.value.next == Some(Transition(b / 2, 0, now + 800, 12_000, Smooth))
    case DyingLight =>
      var flare := Min(b * 6 / 5, 2530);
      level.Some? && level.value.ramp == Transition(b, flare, now, 500, Smooth)
      && level.value.next == Some(Transition(flare, 0, now + 500, 1_000, Smooth))
  }

  lemma EffectInstalled(w: World, effect: OffEffect)
    requires Blocked(w).None? && w.applied.Some? && w.applied.value.brightness > 0
    ensures Legs(effect, w.applied.value.brightness, w.now, Retracked(w, CmdEffect(effect)).level)
  {
  }

  lemma LegsLive(effect: OffEffect, b: Brightness, now: nat, level: Option<Fade>)
    requires Legs(effect, b, now, level) && b > 0 && now <= I64_MAX
    ensures LiveLevel(level, now) == level
  {
  }

  /** What a frame over those legs shows. */
  lemma LegsShow(effect: OffEffect, b: Brightness, now: nat, level: Option<Fade>, target: LightState, t: Clock)
    requires Legs(effect, b, now, level) && b > 0 && now <= t && !target.on
    ensures var shown := FrameFor(target, level, None, t).brightness;
      EffectShows(effect, b, t - now, shown) && (shown == 0 <==> t - now >= DarkFrom(effect, b))
  {
    hide FrameFor, OnCurve;
    FrameShowsFade(target, level, None, t);
    if level.Some? {
      var leg := level.value.Leg(t);
      LegShows(leg, t);
      if t - now < DarkFrom(effect, b) { LegLit(leg, t); } else { CurveAtEnd(leg, t); }
    }
  }

  lemma LegShows(leg: Transition, t: nat)
    requires leg.Valid() && leg.start <= t
    ensures OnCurve(leg.from, leg.to, leg.shape, leg.duration, t - leg.start, leg.Value(t))
  {
    ValueOnCurve(leg, t);
  }

  /** A leg shows light until it has ended in darkness. */
  lemma LegLit(leg: Transition, t: nat)
    requires leg.Valid() && leg.start <= t && leg.from > 0 && (leg.to > 0 || t < leg.start + leg.duration)
    ensures leg.Value(t) > 0
  {
    ValueInRange(leg, t);
    if leg.to == 0 { NotYetThere(leg, t); }
  }

  lemma CurveAtEnd(leg: Transition, t: nat)
    ensures t >= leg.start + leg.duration ==> leg.Value(t) == leg.to
    ensures leg.from == leg.to ==> leg.Value(t) == leg.to
    ensures OnCurve(0, 0, leg.shape, leg.duration, SatSub(t, leg.start), 0)
  {
    ValueEndpoints(leg, t);
    ValueInRange(leg, t);
    ZeroOnCurve(leg.shape, leg.duration, SatSub(t, leg.start));
  }

  lemma ZeroOnCurve(shape: Shape, d: nat, e: nat)
    ensures OnCurve(0, 0, shape, d, e, 0)
  {
    if e < d && shape == Smooth {
      MulLt(0, d, d);
      MulLt(0, d * d, d);
    }
  }

  /**
   * An off effect takes exactly its own time along exactly its own legs: read at any later instant by a healthy tick,
   * the lamp shows them, and it is dark exactly from the end of the last one.
   */
  lemma EffectRuns(w: World, effect: OffEffect, io: Io, t: Clock)
    requires Inv(w) && w.applied.Some? && w.applied.value.brightness > 0 && w.now <= t
    requires Step(w, CmdEffect(effect), io).reply == Okay
    ensures var b := w.applied.value.brightness;
      var shown := Tick(Step(w, CmdEffect(effect), io).world, t, ALL_WELL).applied;
      && shown.Some?
      && EffectShows(effect, b, t - w.now, shown.value.brightness)
      && (shown.value.brightness == 0 <==> t - w.now >= DarkFrom(effect, b))
  {
    hide Inv, Step, Commit, Retracked, FrameFor, Tick, Legs, EffectShows, DarkFrom;
    var c := CmdEffect(effect);
    var v := Step(w, c, io).world;
    EffectAsked(w, effect);
    var u := Retracked(w, c);
    SetterCommits(w, c, io);
    LoadedWhenAcknowledged(w);
    CommitOutcome(u, Asked(w, c).value, io);
    EffectInstalled(w, effect);
    NoColourTrack(w, effect);
    LegsLive(effect, w.applied.value.brightness, w.now, u.level);
    StepInv(w, c, io);
    HealthyTick(v, t);
    LegsShow(effect, w.applied.value.brightness, w.now, v.level, v.target, t);
  }

  lemma EffectAsked(w: World, effect: OffEffect)
    requires Inv(w) && w.applied.Some?
    ensures Blocked(w).None? && Asked(w, CmdEffect(effect)) == Some(w.target.(on := false))
  {
  }

  lemma NoColourTrack(w: World, effect: OffEffect)
    requires Blocked(w).None?
    ensures Retracked(w, CmdEffect(effect)).temperature.None? && LiveTemperature(None, w.now).None?
  {
  }
}
