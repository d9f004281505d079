/** Colour: the acknowledged frame is exactly the one called for, and a lit lamp never changes colour at a command. */
module Colour {
  import opened Basics
  import opened Light
  import opened Curve
  import opened Record
  import opened RuntimeModel
  import opened RuntimeInvariant
  import opened Behaviour
  import opened Settling
  import opened Commands

  /** Colour tracks belong to the target, and an acknowledged frame is the one called for now, colour included. */
  predicate Exact(w: World)
  {
    Aligned(w) && (w.applied.Some? ==> w.applied.value == Effective(w))
  }

  /** Dropping finished tracks changes nothing about the frame they call for. */
  lemma ExpiryIsInvisible(target: LightState, level: Option<Fade>, temperature: Option<TemperatureFade>, now: Clock)
    requires TracksMeetTarget(level, temperature, target)
    requires temperature.Some? ==> target.on && temperature.value.to == target.temperature
    ensures FrameFor(target, LiveLevel(level, now), LiveTemperature(temperature, now), now) ==
      FrameFor(target, level, temperature, now)
  {
    if temperature.Some? { ValueEndpoints(temperature.value, now); }
  }

  lemma ApplyExact(w: World, io: Io)
    requires Aligned(w) && TracksMeetTarget(w.level, w.temperature, w.target)
    ensures Exact(ApplyEffective(w, io).world)
  {
    hide FrameFor, LiveLevel, LiveTemperature;
    ExpiryIsInvisible(w.target, w.level, w.temperature, w.now);
    LiveAligned(w.temperature, w.now);
  }

  lemma LiveAligned(temperature: Option<TemperatureFade>, now: nat)
    ensures LiveTemperature(temperature, now).Some? ==> LiveTemperature(temperature, now) == temperature
  {
  }

  lemma ReconcileExact(w: World, io: Io)
    requires Aligned(w) && TracksMeetTarget(w.level, w.temperature, w.target)
    ensures Exact(Reconcile(w, io).world)
  {
    hide ApplyEffective, FrameFor;
    if w.applied.Some? {
      ApplyExact(w, io);
    } else if io.park {
      ParkedMeets(w);
      ApplyExact(ParkedWorld(w), io);
    }
  }

  lemma ParkedMeets(w: World)
    ensures var p := ParkedWorld(w); Aligned(p) && TracksMeetTarget(p.level, p.temperature, p.target)
  {
  }

  lemma SaveKeeps(w: World, io: Io)
    ensures var d := SaveIntent(w, io); var v := d.world;
      && v.target == w.target && v.level == w.level && v.temperature == w.temperature && v.now == w.now
      && (v.applied == w.applied || v.applied.None?) && (d.reply != Okay ==> v.applied.None?)
  {
    hide Encode;
  }

  lemma CommitExact(w: World, target: LightState, io: Io)
    requires Aligned(w.(target := target)) && TracksMeetTarget(w.level, w.temperature, target)
    ensures Exact(Commit(w, target, io).world)
  {
    hide SaveIntent, Reconcile, FrameFor;
    var pending := w.(dirty := w.dirty || w.target != target, target := target, revision := WrapInc(w.revision));
    SaveKeeps(pending, io);
    if SaveIntent(pending, io).reply == Okay { ReconcileExact(SaveIntent(pending, io).world, io); }
  }

  lemma TickLoadedExact(w: World, io: Io)
    requires Aligned(w) && TracksMeetTarget(w.level, w.temperature, w.target)
    ensures Exact(TickLoaded(w, io))
  {
    hide SaveIntent, Reconcile, FrameFor, LiveLevel, LiveTemperature;
    SaveKeeps(w, io);
    var saved := SaveIntent(w, io).world;
    ReconcileExact(saved, io);
    ExpiryIsInvisible(saved.target, saved.level, saved.temperature, saved.now);
    LiveAligned(saved.temperature, saved.now);
  }

  lemma TickExact(w: World, now: Clock, io: Io)
    requires Inv(w) && Exact(w) && w.now <= now
    ensures Exact(Tick(w, now, io))
  {
    hide TickLoaded, FrameFor;
    var timed := w.(now := now);
    if w.fault == Rebooting || now < w.retryAt {
    } else if w.loadFault == Some(StorageFault) {
      var reading := ReadRecord(w.store, io.read);
      if reading.Readable? { TickLoadedExact(Reload(timed.(trace := w.trace + [Loaded(io.read)]), reading.saved), io); }
    } else if w.loadFault.None? {
      TickLoadedExact(timed, io);
    }
  }

  /** Whatever tracks a setter leaves in place or installs fit the target it is about to commit. */
  predicate Fits(u: World, target: LightState)
  {
    Aligned(u.(target := target)) && TracksMeetTarget(u.level, u.temperature, target)
  }

  lemma SetterFits(w: World, c: Command)
    requires Inv(w) && Exact(w) && IsSetter(c) && Asked(w, c).Some? && !Strands(w, c)
    ensures Fits(Retracked(w, c), Asked(w, c).value)
  {
    hide AckHealthy, Durable, FrameFor;
  }

  lemma SetterExact(w: World, c: Command, io: Io)
    requires Inv(w) && Exact(w) && IsSetter(c) && !Strands(w, c)
    ensures Exact(Step(w, c, io).world)
  {
    hide Step, Commit, Retracked, Asked, Exact;
    SetterOutcome(w, c, io);
    if Asked(w, c).Some? {
      SetterCommits(w, c, io);
      SetterFits(w, c);
      CommitExact(Retracked(w, c), Asked(w, c).value, io);
    }
  }

  lemma LocalOffExact(w: World, io: Io)
    requires Inv(w) && Exact(w)
    ensures Exact(LocalOff(w, io).world)
  {
    hide SaveIntent, Reconcile, FrameFor;
    var dark := Darken(w, io);
    SaveKeeps(dark, io);
    if SaveIntent(dark, io).reply == Okay { ReconcileExact(Repaired(SaveIntent(dark, io).world), io); }
  }

  /** Same target, tracks and instant, and the same acknowledgement or none. */
  lemma StaysExact(w: World, v: World)
    requires Exact(w) && v.target == w.target && v.level == w.level && v.temperature == w.temperature && v.now == w.now
    requires v.applied == w.applied || v.applied.None?
    ensures Exact(v)
  {
    hide FrameFor;
  }

  /** The remaining operations look, save settings or give up the acknowledgement. */
  lemma OthersExact(w: World, c: Command, io: Io)
    requires Inv(w) && Exact(w) && !IsSetter(c) && !c.CmdTick? && !c.CmdLocalOff?
    ensures Exact(Step(w, c, io).world)
  {
    hide Encode, Exact, Inv;
    StaysExact(w, Step(w, c, io).world);
  }

  /**
   * Exactness is kept by every operation except exactly the Stop that strands a colour track: a known acknowledgement
   * is the frame called for now, in brightness, level and colour.
   */
  lemma ExactStep(w: World, c: Command, io: Io)
    requires Inv(w) && Exact(w) && Timely(w.now, c)
    ensures Exact(Step(w, c, io).world) <==> !Strands(w, c)
  {
    hide Step, Inv, FrameFor, Strands;
    AlignedStep(w, c, io);
    if !Strands(w, c) {
      if c.CmdTick? {
        TickExact(w, c.now, io);
        TickStep(w, c.now, io);
      } else if IsSetter(c) {
        SetterExact(w, c, io);
      } else if c.CmdLocalOff? {
        LocalOffExact(w, io);
        LocalOffStep(w, io);
      } else {
        OthersExact(w, c, io);
      }
    }
  }

  lemma TickStep(w: World, now: Clock, io: Io)
    ensures Step(w, CmdTick(now), io).world == Tick(w, now, io)
  {
    hide Tick;
  }

  lemma LocalOffStep(w: World, io: Io)
    ensures Step(w, CmdLocalOff, io) == LocalOff(w, io)
  {
    hide LocalOff;
  }

  lemma BootExact(store: Option<seq<byte>>, io: Io)
    ensures Exact(Boot(store, io))
  {
  }

  /**
   * Over every run from a boot without such a Stop, what is acknowledged is what the target and its tracks call for.
   */
  lemma {:induction false} ExactRun(w: World, actions: seq<Action>)
    requires Inv(w) && Exact(w) && TimelyRun(w.now, actions) && NeverStrands(w, actions)
    ensures Exact(Run(w, actions))
    decreases |actions|
  {
    hide Inv, Step, Strands, Exact;
    if actions != [] {
      StepInv(w, actions[0].command, actions[0].io);
      ExactStep(w, actions[0].command, actions[0].io);
      ExactRun(Step(w, actions[0].command, actions[0].io).world, actions[1..]);
    }
  }

  /** From any boot: whatever the record, its reading and everything after it, short of a stranding Stop. */
  lemma ExactFromBoot(store: Option<seq<byte>>, io: Io, actions: seq<Action>)
    requires TimelyRun(0, actions) && NeverStrands(Boot(store, io), actions)
    ensures var w := Run(Boot(store, io), actions);
      Aligned(w) && (w.applied.Some? ==> w.applied.value == Effective(w))
  {
    hide Boot, Inv, NeverStrands;
    BootInv(store, io);
    BootExact(store, io);
    BootAtZero(store, io);
    ExactRun(Boot(store, io), actions);
  }

  lemma BootAtZero(store: Option<seq<byte>>, io: Io)
    ensures Boot(store, io).now == 0
  {
  }

  // ----- no visible colour step

  /** Zero-duration rates: of colour on an On target, and of a level that relights an Off target. */
  predicate JumpsColour(w: World, c: Command)
  {
    match c
    case CmdTemperature(_, ms, shape) => shape == Linear && ms == 0 && w.target.on
    case CmdLevel(level, withOnOff, ms, shape) => shape == Linear && ms == 0 && withOnOff && level > 1 && !w.target.on
    case _ => false
  }

  predicate Shining(w: World) { w.applied.Some? && w.applied.value.brightness > 0 }

  lemma RampKeepsColour(w: World, to: Temperature, duration: nat, shape: Shape)
    requires duration <= MAX_TRANSITION_MS
    ensures var t := TemperatureRamp(w, to, duration, shape);
      t.Value(w.now) == if duration > 0 then CurrentFrame(w).state.temperature else to
  {
    ValueEndpoints(TemperatureRamp(w, to, duration, shape), w.now);
  }

  /** The colour and the light of a frame, without its arithmetic. */
  lemma FrameColour(target: LightState, level: Option<Fade>, temperature: Option<TemperatureFade>, now: Clock)
    ensures var f := FrameFor(target, level, temperature, now);
      var fading := level.Some? && level.value.Remaining(now) != 0;
      && f.state.temperature == (if temperature.Some? then temperature.value.Value(now)
                                 else if fading && level.value.offTemperature.Some?
                                   then level.value.offTemperature.value
                                 else target.temperature)
      && (f.brightness > 0 ==> target.on || fading)
  {
  }

  /** Where the colour of a shining lamp comes from. */
  lemma ShownColour(w: World)
    requires Inv(w) && Exact(w) && Shining(w)
    ensures var shown := w.applied.value.state.temperature;
      && CurrentFrame(w).state.temperature == shown && CurrentFrame(w).brightness > 0 && Blocked(w).None?
      && if w.target.on then
           && (w.level.Some? ==> w.level.value.offTemperature.None?)
           && shown == (if w.temperature.Some? then w.temperature.value.Value(w.now) else w.target.temperature)
         else
           && w.temperature.None? && w.level.Some? && w.level.value.Remaining(w.now) != 0
           && w.level.value.offTemperature == Some(shown)
  {
    hide FrameFor, AckCurrent, Durable;
    FrameColour(w.target, w.level, w.temperature, w.now);
  }

  /** The colour of the frame a setter's tracks call for at once. */
  predicate StartsAt(w: World, u: World, t: LightState, colour: Temperature)
  {
    var f := FrameFor(t, u.level, u.temperature, w.now);
    f.brightness > 0 ==> f.state.temperature == colour
  }

  lemma PowerColour(w: World, on: bool)
    requires Inv(w) && Exact(w) && Shining(w)
    ensures var t := w.target.(on := on);
      StartsAt(w, if on == w.target.on then w else PowerTracks(w, t), t, w.applied.value.state.temperature)
  {
    hide FrameFor, Inv, Exact;
    var t := w.target.(on := on);
    var u := if on == w.target.on then w else PowerTracks(w, t);
    ShownColour(w);
    FrameColour(t, u.level, u.temperature, w.now);
    RampKeepsColour(w, t.temperature, DEFAULT_TRANSITION_MS, Smooth);
  }

  lemma LevelColour(w: World, level: byte, withOnOff: bool, duration: nat, shape: Shape)
    requires Inv(w) && Exact(w) && Shining(w) && level != 255 && duration <= MAX_TRANSITION_MS && (duration == 0 ==>
      shape == Linear)
    ensures var t := LevelTarget(w, level, withOnOff);
      StartsAt(w, if KeepsLevelTrack(w, t, withOnOff, shape) then w else LevelTracks(w, t, duration, shape), t,
               if duration == 0 && t.on && !w.target.on then t.temperature else w.applied.value.state.temperature)
  {
    hide FrameFor, Inv, Exact;
    var t := LevelTarget(w, level, withOnOff);
    var u := if KeepsLevelTrack(w, t, withOnOff, shape) then w else LevelTracks(w, t, duration, shape);
    ShownColour(w);
    FrameColour(t, u.level, u.temperature, w.now);
    RampKeepsColour(w, t.temperature, duration, shape);
  }

  lemma TemperatureColour(w: World, to: Temperature, duration: nat, shape: Shape)
    requires Inv(w) && Exact(w) && Shining(w) && duration <= MAX_TRANSITION_MS && (duration == 0 ==> shape == Linear)
    ensures StartsAt(w, TemperatureTracks(w, to, duration, shape), w.target.(temperature := to),
                     if duration == 0 && w.target.on then to else w.applied.value.state.temperature)
  {
    hide FrameFor, Inv, Exact;
    var u := TemperatureTracks(w, to, duration, shape);
    ShownColour(w);
    FrameColour(w.target.(temperature := to), u.level, u.temperature, w.now);
    RampKeepsColour(w, to, duration, shape);
  }

  lemma SceneColour(w: World, target: LightState, duration: nat)
    requires Inv(w) && Exact(w) && Shining(w) && 0 < duration <= MAX_TRANSITION_MS
    ensures StartsAt(w, if target == w.target then w else SceneTracks(w, target, duration), target,
      w.applied.value.state.temperature)
  {
    hide FrameFor, Inv, Exact;
    var u := if target == w.target then w else SceneTracks(w, target, duration);
    ShownColour(w);
    FrameColour(target, u.level, u.temperature, w.now);
    RampKeepsColour(w, target.temperature, duration, Smooth);
  }

  lemma OtherColour(w: World, c: Command)
    requires Inv(w) && Exact(w) && Shining(w) && Asked(w, c).Some?
      && (c.CmdEffect? || c.CmdStopLevel? || c.CmdStopTemperature?)
    ensures StartsAt(w, Retracked(w, c), Asked(w, c).value, w.applied.value.state.temperature)
  {
    hide FrameFor, Inv, Exact;
    var t, u := Asked(w, c).value, Retracked(w, c);
    ShownColour(w);
    FrameColour(t, u.level, u.temperature, w.now);
  }

  lemma RetrackedColour(w: World, c: Command)
    requires Inv(w) && Exact(w) && Shining(w) && IsSetter(c) && Asked(w, c).Some?
    ensures StartsAt(w, Retracked(w, c), Asked(w, c).value,
                     if JumpsColour(w, c) then Asked(w, c).value.temperature else w.applied.value.state.temperature)
  {
    hide StartsAt, Inv, Exact, Shining, PowerTracks, LevelTracks, TemperatureTracks, SceneTracks, EffectTracks,
      StopTarget;
    match c
    case CmdPower(on) => PowerColour(w, on);
    case CmdLevel(level, withOnOff, ms, shape) =>
      LevelColour(w, level, withOnOff, if shape == Smooth then Duration(ms) else ms, shape);
    case CmdTemperature(to, ms, shape) => TemperatureColour(w, to, if shape == Smooth then Duration(ms) else ms, shape);
    case CmdScene(target, ms) => SceneColour(w, target, Duration(ms));
    case _ => OtherColour(w, c);
  }

  /**
   * A command leaves the colour of a shining lamp exactly where it was, except for the two zero-duration rates,
   * and those land exactly on the colour of their own target.
   */
  lemma NoColourStep(w: World, c: Command, io: Io)
    requires Inv(w) && Exact(w) && !c.CmdTick? && Shining(w)
    ensures var v := Step(w, c, io).world;
      Shining(v) ==>
        v.applied.value.state.temperature ==
          if JumpsColour(w, c) && Asked(w, c).Some? then v.target.temperature else w.applied.value.state.temperature
  {
    if IsSetter(c) {
      hide Step, Inv, Exact, Commit, Retracked, Asked, FrameFor, JumpsColour;
      SetterOutcome(w, c, io);
      if Asked(w, c).Some? {
        SetterCommits(w, c, io);
        RetrackedColour(w, c);
        LoadedWhenShining(w);
        CommitOutcome(Retracked(w, c), Asked(w, c).value, io);
      }
    } else if c.CmdLocalOff? {
      hide LocalOff, Inv;
      LocalOffShows(w, io);
    } else {
      hide Encode, Inv, Exact, OutputFailed;
      OthersAcknowledge(w, c, io);
    }
  }

  lemma LoadedWhenShining(w: World)
    requires Inv(w) && Shining(w)
    ensures w.loadFault.None?
  {
  }

  lemma OthersAcknowledge(w: World, c: Command, io: Io)
    requires !IsSetter(c) && !c.CmdTick? && !c.CmdLocalOff?
    ensures var v := Step(w, c, io).world; v.applied == w.applied || v.applied.None?
  {
    hide Encode;
  }
}
