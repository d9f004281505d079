/** What a controller and an onlooker can rely on: fades, retargeting, settling, stopping and the reboot gate. */
module Behaviour {
  import opened Basics
  import opened Light
  import opened Curve
  import opened Record
  import opened Pwm
  import opened RuntimeModel
  import opened RuntimeInvariant

  // ----- a fade to Off never brightens or recolours

  /** The target is Off and whatever is still shown can only fall from here. */
  predicate FadingOut(w: World)
  {
    w.loadFault.None? && !w.target.on && (w.level.Some? ==> w.level.value.Falling(w.now))
  }

  /**
   * Commands that ask for no light: everything but On, relighting levels and scenes, Stop and the flare of a dying
   * light.
   */
  predicate AsksNoLight(c: Command)
  {
    match c
    case CmdPower(on) => !on
    case CmdLevel(level, withOnOff, _, _) => !withOnOff || level <= 1
    case CmdScene(target, _) => !target.on
    case CmdEffect(effect) => effect != DyingLight
    case CmdStopLevel => false
    case _ => true
  }

  /** Whatever is acknowledged is no brighter than b and, while lit, of colour t. */
  predicate Within(w: World, b: Brightness, t: Temperature)
  {
    w.applied.Some? ==>
      w.applied.value.brightness <= b && (w.applied.value.brightness > 0 ==> w.applied.value.state.temperature == t)
  }

  /** Track values at this instant stay within the bound. */
  predicate TracksWithin(level: Option<Fade>, temperature: Option<TemperatureFade>, applied: Option<OutputFrame>,
    now: nat, b: Brightness, t: Temperature)
  {
    level.Some? ==>
      && level.value.Falling(now)
      && level.value.offTemperature.Some? && temperature.None?
      && (applied.Some? ==> level.value.Value(now) <= b && (level.value.Value(now) > 0 ==>
        level.value.offTemperature == Some(t)))
  }

  lemma ApplyDims(w: World, io: Io, b: Brightness, t: Temperature)
    requires w.loadFault.None? && !w.target.on && TracksWithin(w.level, w.temperature, w.applied, w.now, b, t)
    requires w.applied.None? ==> w.level.None?
    ensures var v := ApplyEffective(w, io).world; FadingOut(v) && Within(v, b, t)
  {
  }

  lemma ReconcileDims(w: World, io: Io, b: Brightness, t: Temperature)
    requires w.loadFault.None? && !w.target.on && TracksWithin(w.level, w.temperature, w.applied, w.now, b, t)
    ensures var v := Reconcile(w, io).world; FadingOut(v) && Within(v, b, t)
  {
    hide ApplyEffective;
    if w.applied.Some? {
      ApplyDims(w, io, b, t);
    } else if io.park {
      ApplyDims(ParkedWorld(w), io, b, t);
    }
  }

  lemma CommitDims(w: World, target: LightState, io: Io, b: Brightness, t: Temperature)
    requires w.loadFault.None? && !target.on && TracksWithin(w.level, w.temperature, w.applied, w.now, b, t)
    ensures var v := Commit(w, target, io).world; FadingOut(v) && Within(v, b, t)
  {
    hide Reconcile;
    var saved := SaveIntent(w.(dirty := w.dirty || w.target != target, target := target,
      revision := WrapInc(w.revision)), io);
    if saved.reply == Okay { ReconcileDims(saved.world, io, b, t); }
  }

  lemma TracksStayWithin(w: World, later: nat, b: Brightness, t: Temperature)
    requires Inv(w) && FadingOut(w) && Within(w, b, t) && w.now <= later
    ensures TracksWithin(w.level, w.temperature, w.applied, later, b, t)
  {
    if w.level.Some? { TrackFalls(w.level.value, w.now, later); }
  }

  lemma RampWithin(w: World, target: LightState, duration: nat, shape: Shape, b: Brightness, t: Temperature)
    requires Within(w, b, t) && !target.on && 0 < duration <= MAX_TRANSITION_MS
    ensures TracksWithin(Some(RampTo(w, target, duration, shape)), None, w.applied, w.now, b, t)
  {
    ValueEndpoints(RampTo(w, target, duration, shape).ramp, w.now);
  }

  lemma EffectWithin(w: World, effect: OffEffect, b: Brightness, t: Temperature)
    requires Within(w, b, t) && effect != DyingLight
    ensures TracksWithin(EffectTracks(w, effect).level, None, w.applied, w.now, b, t)
  {
    var level := EffectTracks(w, effect).level;
    if level.Some? { ValueEndpoints(level.value.ramp, w.now); }
  }

  lemma TickDims(w: World, now: Clock, io: Io, b: Brightness, t: Temperature)
    requires Inv(w) && FadingOut(w) && Within(w, b, t) && w.now <= now
    ensures var v := Tick(w, now, io); FadingOut(v) && Within(v, b, t)
  {
    hide Reconcile, FrameFor;
    TracksStayWithin(w, now, b, t);
    var timed := w.(now := now);
    if w.fault != Rebooting && now >= w.retryAt {
      var saved := SaveIntent(timed, io);
      if saved.reply == Okay { ReconcileDims(saved.world, io, b, t); }
    }
  }

  /** One step of a fade to Off: it stays a fade to Off and shows nothing brighter and no other colour. */
  lemma FadeOutStep(w: World, c: Command, io: Io, b: Brightness, t: Temperature)
    requires Inv(w) && FadingOut(w) && AsksNoLight(c) && Timely(w.now, c) && Within(w, b, t)
    ensures var v := Step(w, c, io).world; FadingOut(v) && Within(v, b, t)
  {
    hide Commit, Reconcile, FrameFor, Tick, Inv, TracksWithin, RampTo, EffectTracks, SceneTracks, PowerTracks,
      LevelTracks, TemperatureTracks;
    TracksStayWithin(w, w.now, b, t);
    match c
    case CmdTick(now) => TickDims(w, now, io, b, t);
    case CmdPower(on) => CommitDims(w, w.target.(on := false), io, b, t);
    case CmdLevel(level, withOnOff, ms, shape) => FadeOutLevel(w, level, withOnOff, ms, shape, io, b, t);
    case CmdScene(target, ms) => FadeOutScene(w, target, ms, io, b, t);
    case CmdEffect(effect) => FadeOutEffect(w, effect, io, b, t);
    case CmdTemperature(to, ms, shape) => FadeOutTemperature(w, to, ms, shape, io, b, t);
    case CmdStopTemperature =>
      if Blocked(w).None? && w.temperature.Some? && w.applied.Some? {
        FadeOutStopTemperature(w, io, b, t);
      }
    case CmdLocalOff => FadeOutLocalOff(w, io, b, t);
    case _ =>
  }

  lemma FadeOutLevel(w: World, level: byte, withOnOff: bool, ms: nat, shape: Shape, io: Io, b: Brightness,
    t: Temperature)
    requires Inv(w) && FadingOut(w) && Within(w, b, t) && (!withOnOff || level <= 1)
    ensures var v := MoveLevel(w, level, withOnOff, ms, shape, io).world; FadingOut(v) && Within(v, b, t)
  {
    hide Commit;
    TracksStayWithin(w, w.now, b, t);
    var duration := if shape == Smooth then Duration(ms) else ms;
    if level != 255 && duration <= MAX_TRANSITION_MS && Blocked(w).None? {
      var target := LevelTarget(w, level, withOnOff);
      if 0 < duration { RampWithin(w, target, duration, shape, b, t); }
      CommitDims(if KeepsLevelTrack(w, target, withOnOff, shape) then w else LevelTracks(w, target, duration, shape),
        target, io, b, t);
    }
  }

  lemma FadeOutScene(w: World, target: LightState, ms: nat, io: Io, b: Brightness, t: Temperature)
    requires Inv(w) && FadingOut(w) && Within(w, b, t) && !target.on
    ensures var v := RecallScene(w, target, ms, io).world; FadingOut(v) && Within(v, b, t)
  {
    hide Commit;
    TracksStayWithin(w, w.now, b, t);
    if ms <= MAX_TRANSITION_MS && Blocked(w).None? {
      RampWithin(w, target, Duration(ms), Smooth, b, t);
      CommitDims(if target == w.target then w else SceneTracks(w, target, Duration(ms)), target, io, b, t);
    }
  }

  lemma FadeOutEffect(w: World, effect: OffEffect, io: Io, b: Brightness, t: Temperature)
    requires Inv(w) && FadingOut(w) && Within(w, b, t) && effect != DyingLight
    ensures var v := OffWithEffect(w, effect, io).world; FadingOut(v) && Within(v, b, t)
  {
    hide Commit;
    if Blocked(w).None? {
      EffectWithin(w, effect, b, t);
      CommitDims(EffectTracks(w, effect), w.target.(on := false), io, b, t);
    }
  }

  lemma FadeOutTemperature(w: World, to: Temperature, ms: nat, shape: Shape, io: Io, b: Brightness, t: Temperature)
    requires Inv(w) && FadingOut(w) && Within(w, b, t)
    ensures var v := MoveTemperature(w, to, ms, shape, io).world; FadingOut(v) && Within(v, b, t)
  {
    hide Commit;
    TracksStayWithin(w, w.now, b, t);
    CommitDims(w, w.target.(temperature := to), io, b, t);
  }

  lemma FadeOutStopTemperature(w: World, io: Io, b: Brightness, t: Temperature)
    requires Inv(w) && FadingOut(w) && Within(w, b, t) && w.temperature.Some? && w.applied.Some?
    ensures var v := StopTemperature(w, io).world; FadingOut(v) && Within(v, b, t)
  {
    hide Commit;
    TracksStayWithin(w, w.now, b, t);
    CommitDims(w.(temperature := None), w.target.(temperature := w.applied.value.state.temperature), io, b, t);
  }

  lemma FadeOutLocalOff(w: World, io: Io, b: Brightness, t: Temperature)
    requires FadingOut(w)
    ensures var v := LocalOff(w, io).world; FadingOut(v) && Within(v, b, t)
  {
    hide Reconcile;
    var saved := SaveIntent(Darken(w, io), io);
    if saved.reply == Okay {
      ReconcileDims(Repaired(saved.world), io, b, t);
    }
  }

  /**
   * From any moment of a fade to Off at which frame f is acknowledged, every later acknowledged frame of any run
   * of such commands, under any faults, is no brighter than f, keeps its colour while lit, and drives neither
   * duty register higher.
   */
  lemma {:induction false} FadeOutRun(w: World, actions: seq<Action>, f: OutputFrame)
    requires Inv(w) && FadingOut(w) && TimelyRun(w.now, actions)
    requires forall i :: 0 <= i < |actions| ==> AsksNoLight(actions[i].command)
    requires Within(w, f.brightness, f.state.temperature)
    ensures var v := Run(w, actions);
      && !v.target.on
      && Within(v, f.brightness, f.state.temperature)
      && (v.applied.Some? && f.state.on ==> DutyAtMost(v.applied.value, f))
    decreases |actions|
  {
    if actions == [] {
      if w.applied.Some? && f.state.on { DimmerDuty(w.applied.value, f); }
    } else {
      hide Step, Inv, FadingOut, Within;
      StepInv(w, actions[0].command, actions[0].io);
      FadeOutStep(w, actions[0].command, actions[0].io, f.brightness, f.state.temperature);
      FadeOutRun(Step(w, actions[0].command, actions[0].io).world, actions[1..], f);
    }
  }

  lemma DimmerDuty(g: OutputFrame, f: OutputFrame)
    requires f.state.on && g.brightness <= f.brightness
    requires g.brightness > 0 ==> g.state.temperature == f.state.temperature
    ensures DutyAtMost(g, f)
  {
    var t := f.state.temperature;
    MixDirection(t, t);
    StockPwmMonotone(WarmMix(t), WarmMix(t), g.brightness, f.brightness);
    StockPwmMonotone(CoolMix(t), CoolMix(t), g.brightness, f.brightness);
    var s := g.state.temperature;
    MixDirection(s, s);
    StockPwmMonotone(WarmMix(s), WarmMix(s), g.brightness, f.brightness);
    StockPwmMonotone(CoolMix(s), CoolMix(s), g.brightness, f.brightness);
  }

  // ----- no visible step on retarget

  /** Commands that by their own meaning take effect at once: a zero-duration rate, NoFade, Stop and local Off. */
  predicate JumpsBrightness(w: World, c: Command)
  {
    match c
    case CmdLevel(level, withOnOff, ms, shape) =>
      shape == Linear && ms == 0 && level != 255
        && !KeepsLevelTrack(w, LevelTarget(w, level, withOnOff), withOnOff, shape)
    case CmdEffect(effect) => effect == NoFade
    case CmdStopLevel => true
    case CmdLocalOff => true
    case _ => false
  }

  /** What a commit does to a world with an acknowledged frame, in terms of its target and tracks. */
  lemma CommitOutcome(w: World, target: LightState, io: Io)
    requires w.applied.Some? && w.loadFault.None?
    ensures var d := Commit(w, target, io); var v := d.world;
      && v.target == target && v.startup == w.startup && v.now == w.now && v.loadFault.None?
      && (d.reply == Okay <==> v.applied.Some?)
      && (io.store && io.apply ==> d.reply == Okay)
      && if d.reply == Okay then
           && v.applied == Some(FrameFor(target, w.level, w.temperature, w.now)) && !v.dirty
           && v.level == LiveLevel(w.level, w.now) && v.temperature == LiveTemperature(w.temperature, w.now)
         else v.level == w.level && v.temperature == w.temperature
  {
    hide FrameFor, LiveLevel, LiveTemperature, Encode;
  }

  lemma RampStartsHere(w: World, target: LightState, duration: nat, shape: Shape)
    requires 0 < duration <= MAX_TRANSITION_MS
    ensures var track := RampTo(w, target, duration, shape);
      track.Value(w.now) == CurrentFrame(w).brightness && track.Remaining(w.now) > 0
  {
    ValueEndpoints(RampTo(w, target, duration, shape).ramp, w.now);
  }

  /**
   * A command leaves the acknowledged brightness exactly where it was, except for the commands that jump,
   * and those land exactly on the brightness of their own target.
   */
  lemma NoStepOnRetarget(w: World, c: Command, io: Io)
    requires Inv(w) && !c.CmdTick? && w.applied.Some?
    ensures var v := Step(w, c, io).world;
      v.applied.Some? ==>
        v.applied.value.brightness == if JumpsBrightness(w, c) && Step(w, c, io).reply == Okay
          && (c.CmdStopLevel? ==> w.level.Some?)
                                      then FromState(v.target).brightness else w.applied.value.brightness
  {
    hide Commit, Reconcile, RampTo, SceneTracks, PowerTracks, LevelTracks, TemperatureTracks, EffectTracks;
    match c
    case CmdPower(on) => PowerKeepsBrightness(w, on, io);
    case CmdLevel(level, withOnOff, ms, shape) => LevelKeepsBrightness(w, level, withOnOff, ms, shape, io);
    case CmdScene(target, ms) => SceneKeepsBrightness(w, target, ms, io);
    case CmdEffect(effect) => EffectKeepsBrightness(w, effect, io);
    case CmdTemperature(to, ms, shape) => TemperatureKeepsBrightness(w, to, ms, shape, io);
    case CmdStopTemperature =>
      CommitOutcome(w.(temperature := None), w.target.(temperature := w.applied.value.state.temperature), io);
    case CmdStopLevel =>
      if w.level.Some? { CommitOutcome(w.(level := None), StopTarget(w, w.applied.value, w.level.value), io); }
    case CmdLocalOff => LocalOffShows(w, io);
    case _ =>
  }

  lemma PowerKeepsBrightness(w: World, on: bool, io: Io)
    requires Inv(w) && w.applied.Some?
    ensures var v := SetPower(w, on, io).world; v.applied.Some? ==>
      v.applied.value.brightness == w.applied.value.brightness
  {
    hide Commit, RampTo;
    var target := w.target.(on := on);
    RampStartsHere(w, target, DEFAULT_TRANSITION_MS, Smooth);
    CommitOutcome(if on == w.target.on then w else PowerTracks(w, target), target, io);
  }

  lemma LevelKeepsBrightness(w: World, level: byte, withOnOff: bool, ms: nat, shape: Shape, io: Io)
    requires Inv(w) && w.applied.Some?
    ensures var d := MoveLevel(w, level, withOnOff, ms, shape, io);
      d.world.applied.Some? ==>
        d.world.applied.value.brightness ==
          if JumpsBrightness(w, CmdLevel(level, withOnOff, ms, shape)) && d.reply == Okay
            then FromState(d.world.target).brightness
          else w.applied.value.brightness
  {
    hide Commit, RampTo;
    var duration := if shape == Smooth then Duration(ms) else ms;
    if level != 255 && duration <= MAX_TRANSITION_MS && Blocked(w).None? {
      var target := LevelTarget(w, level, withOnOff);
      if 0 < duration { RampStartsHere(w, target, duration, shape); }
      CommitOutcome(if KeepsLevelTrack(w, target, withOnOff, shape) then w
        else LevelTracks(w, target, duration, shape), target, io);
    }
  }

  lemma SceneKeepsBrightness(w: World, target: LightState, ms: nat, io: Io)
    requires Inv(w) && w.applied.Some?
    ensures var v := RecallScene(w, target, ms, io).world; v.applied.Some? ==>
      v.applied.value.brightness == w.applied.value.brightness
  {
    hide Commit, RampTo;
    if ms <= MAX_TRANSITION_MS && Blocked(w).None? {
      RampStartsHere(w, target, Duration(ms), Smooth);
      CommitOutcome(if target == w.target then w else SceneTracks(w, target, Duration(ms)), target, io);
    }
  }

  lemma EffectKeepsBrightness(w: World, effect: OffEffect, io: Io)
    requires Inv(w) && w.applied.Some?
    ensures var d := OffWithEffect(w, effect, io);
      d.world.applied.Some? ==>
        d.world.applied.value.brightness ==
          if effect == NoFade && d.reply == Okay then FromState(d.world.target).brightness
            else w.applied.value.brightness
  {
    hide Commit;
    var tracked := EffectTracks(w, effect);
    if tracked.level.Some? { ValueEndpoints(tracked.level.value.ramp, w.now); }
    CommitOutcome(tracked, w.target.(on := false), io);
  }

  lemma TemperatureKeepsBrightness(w: World, to: Temperature, ms: nat, shape: Shape, io: Io)
    requires Inv(w) && w.applied.Some?
    ensures var v := MoveTemperature(w, to, ms, shape, io).world; v.applied.Some? ==>
      v.applied.value.brightness == w.applied.value.brightness
  {
    hide Commit;
    var duration := if shape == Smooth then Duration(ms) else ms;
    if duration <= MAX_TRANSITION_MS && Blocked(w).None? {
      CommitOutcome(TemperatureTracks(w, to, duration, shape), w.target.(temperature := to), io);
    }
  }

  lemma LocalOffShows(w: World, io: Io)
    requires Inv(w)
    ensures var d := LocalOff(w, io);
      && !d.world.target.on
      && (d.world.applied.Some? ==> d.reply == Okay && d.world.applied.value.brightness == 0)
  {
    hide SaveIntent, Reconcile;
    SaveIntentOff(Darken(w, io), io);
    var saved := SaveIntent(Darken(w, io), io).world;
    ReconcileOff(Repaired(saved), io);
  }

  lemma SaveIntentOff(w: World, io: Io)
    requires w.applied.None? && w.level.None? && !w.target.on
    ensures var v := SaveIntent(w, io).world; v.applied.None? && v.level.None? && v.target == w.target
  {
  }

  lemma ReconcileOff(w: World, io: Io)
    requires w.applied.None? && !w.target.on
    ensures var d := Reconcile(w, io);
      && d.world.target == w.target
      && (d.world.applied.Some? ==> d.reply == Okay && d.world.applied.value.brightness == 0)
  {
  }

  // ----- stopping is a bounded correction

  /**
   * Stopping a level fade commits a storable state within half the level floor of what is shown, within half
   * a logical step above the floor; it leaves the colour of an On fade, target and track, untouched.
   */
  lemma StopIsBounded(w: World, io: Io)
    requires Inv(w) && Blocked(w).None? && w.level.Some? && w.applied.Some?
    ensures var d := StopLevel(w, io); var v := d.world; var shown := w.applied.value.brightness;
      && Abs(FromState(v.target).brightness - shown) <= 126
      && (shown >= 253 ==> v.target.on && Abs(FromState(v.target).brightness - shown) <= 4)
      && (w.target.on ==> v.target.temperature == w.target.temperature && v.temperature == w.temperature)
      && (!w.target.on ==> v.target.temperature == w.applied.value.state.temperature)
      && (d.reply == Okay ==> v.level.None? && ReadRecord(v.store, true) == Readable(Saved(v.target, v.startup, false)))
  {
    hide Commit, FrameFor;
    var shown := w.applied.value.brightness;
    ToLevelIsNearest(shown, ToLevelClamped(shown));
    StopsInv(w, io);
    CommitOutcome(w.(level := None), StopTarget(w, w.applied.value, w.level.value), io);
  }
}
