/** What every operation of the runtime keeps, at success and at every error exit. */
module RuntimeInvariant {
  import opened Basics
  import opened Light
  import opened Curve
  import opened Record
  import opened RuntimeModel

  /** A live level track ends where the target says: at its brightness when On; at zero, colour frozen, when Off. */
  predicate TracksMeetTarget(level: Option<Fade>, temperature: Option<TemperatureFade>, target: LightState)
  {
    level.Some? ==>
      if target.on then
        level.value.Last().to == FromLevel(target.level) && level.value.offTemperature.None? && level.value.next.None?
      else
        level.value.Last().to == 0 && level.value.offTemperature.Some? && temperature.None?
  }

  /** No track starts in the future, so every deadline is representable. */
  predicate TracksStarted(w: World)
  {
    && (w.level.Some? ==> w.level.value.ramp.start <= w.now)
    && (w.temperature.Some? ==> w.temperature.value.start <= w.now)
  }

  /** While the record cannot be read the target is Off and nothing is in flight. */
  predicate LoadGate(w: World)
  {
    w.loadFault.Some? ==>
      && !w.target.on
      && w.level.None? && w.temperature.None? && w.applied.None?
      && w.fault != NoFault
      && (w.loadFault.value == StorageFault || w.loadFault.value == InvalidRecord)
  }

  /** A clean runtime agrees with its record: a load from here would restore exactly this. */
  predicate Durable(w: World)
  {
    w.loadFault.None? && !w.dirty ==>
      ReadRecord(w.store, true) == Readable(Saved(w.target, w.startup, false))
  }

  /**
   * An acknowledged frame has the brightness, power and level the tracks call for now, and the frozen colour of a fade
   * to Off; `Colour.Exact` adds the colour of every other frame.
   */
  predicate AckCurrent(w: World)
  {
    w.applied.Some? ==>
      var f, e := w.applied.value, Effective(w);
      && f.brightness == e.brightness && f.state.on == e.state.on && f.state.level == e.state.level
      && (f.state.on <==> f.brightness > 0)
      && (w.level.Some? && w.level.value.offTemperature.Some? ==>
        f.state.temperature == w.level.value.offTemperature.value)
  }

  /** Acknowledgement excludes every fault, and finished tracks are gone once it is (re)established. */
  predicate AckHealthy(w: World)
  {
    w.applied.Some? ==>
      && w.fault == NoFault && w.loadFault.None? && w.retryAt == 0
      && (w.level.Some? ==> w.level.value.Remaining(w.now) > 0)
      && (w.temperature.Some? ==> w.temperature.value.Remaining(w.now) > 0)
  }

  predicate Inv(w: World)
  {
    && TracksMeetTarget(w.level, w.temperature, w.target)
    && TracksStarted(w)
    && LoadGate(w)
    && Durable(w)
    && AckCurrent(w)
    && AckHealthy(w)
  }

  /** What a command must have arranged before it commits `target`. */
  predicate Prepared(w: World, target: LightState)
  {
    && TracksMeetTarget(w.level, w.temperature, target)
    && TracksStarted(w)
    && w.loadFault.None?
    && Durable(w)
    && (w.applied.Some? ==> w.fault == NoFault && w.retryAt == 0)
  }

  lemma BootInv(store: Option<seq<byte>>, io: Io)
    ensures Inv(Boot(store, io))
  {
  }

  lemma OutputFailedInv(w: World, io: Io)
    requires TracksMeetTarget(w.level, w.temperature, w.target) && TracksStarted(w) && Durable(w)
    requires w.loadFault.Some? ==> LoadGate(w.(applied := None, fault := OutputFault))
    ensures Inv(OutputFailed(w, io))
  {
  }

  /** The ramp shows its starting brightness at the instant it is installed, and zero exactly from its deadline on. */
  lemma EffectiveBrightness(w: World)
    requires TracksStarted(w)
    ensures var e := Effective(w);
      && (w.level.None? ==> (e.state.on <==> e.brightness > 0))
      && (w.level.Some? && w.level.value.Remaining(w.now) != 0 ==>
            (e.state.on <==> e.brightness > 0) && e.brightness == w.level.value.Value(w.now))
  {
  }

  lemma ApplyEffectiveInv(w: World, io: Io)
    requires Prepared(w, w.target)
    ensures Inv(ApplyEffective(w, io).world)
  {
    var d := ApplyEffective(w, io);
    if d.reply == Okay {
      var frame := Effective(w);
      var settled := d.world;
      assert settled.applied == Some(frame);
      EffectiveBrightness(w);
    }
  }

  lemma ReconcileInv(w: World, io: Io)
    requires Prepared(w, w.target)
    ensures Inv(Reconcile(w, io).world)
  {
    if w.applied.Some? {
      ApplyEffectiveInv(w, io);
    } else if io.park {
      ApplyEffectiveInv(ParkedWorld(w), io);
    }
  }

  lemma SaveIntentDurable(w: World, io: Io)
    ensures var d := SaveIntent(w, io);
      d.reply == Okay && (w.dirty || Durable(w)) ==> Durable(d.world) && !d.world.dirty
  {
    DecodeEncode(w.target, w.startup);
  }

  lemma CommitInv(w: World, target: LightState, io: Io)
    requires Prepared(w, target)
    ensures Inv(Commit(w, target, io).world)
  {
    var pending := w.(dirty := w.dirty || w.target != target, target := target, revision := WrapInc(w.revision));
    SaveIntentDurable(pending, io);
    var saved := SaveIntent(pending, io);
    if saved.reply == Okay {
      ReconcileInv(saved.world, io);
    }
  }

  // ----- one lemma per command

  lemma RecallSceneInv(w: World, target: LightState, ms: nat, io: Io)
    requires Inv(w)
    ensures Inv(RecallScene(w, target, ms, io).world)
  {
    hide Commit;
    if ms <= MAX_TRANSITION_MS && Blocked(w).None? {
      CommitInv(if target == w.target then w else SceneTracks(w, target, Duration(ms)), target, io);
    }
  }

  lemma SetPowerInv(w: World, on: bool, io: Io)
    requires Inv(w)
    ensures Inv(SetPower(w, on, io).world)
  {
    hide Commit;
    var target := w.target.(on := on);
    if Blocked(w).None? {
      CommitInv(if on == w.target.on then w else PowerTracks(w, target), target, io);
    }
  }

  lemma OffWithEffectInv(w: World, effect: OffEffect, io: Io)
    requires Inv(w)
    ensures Inv(OffWithEffect(w, effect, io).world)
  {
    hide Commit;
    if Blocked(w).None? {
      CommitInv(EffectTracks(w, effect), w.target.(on := false), io);
    }
  }

  lemma MoveLevelInv(w: World, level: byte, withOnOff: bool, ms: nat, shape: Shape, io: Io)
    requires Inv(w)
    ensures Inv(MoveLevel(w, level, withOnOff, ms, shape, io).world)
  {
    hide Commit;
    var duration := if shape == Smooth then Duration(ms) else ms;
    if level != 255 && duration <= MAX_TRANSITION_MS && Blocked(w).None? {
      var target := LevelTarget(w, level, withOnOff);
      CommitInv(if KeepsLevelTrack(w, target, withOnOff, shape) then w else LevelTracks(w, target, duration, shape),
        target, io);
    }
  }

  lemma MoveTemperatureInv(w: World, to: Temperature, ms: nat, shape: Shape, io: Io)
    requires Inv(w)
    ensures Inv(MoveTemperature(w, to, ms, shape, io).world)
  {
    hide Commit;
    var duration := if shape == Smooth then Duration(ms) else ms;
    if duration <= MAX_TRANSITION_MS && Blocked(w).None? {
      CommitInv(TemperatureTracks(w, to, duration, shape), w.target.(temperature := to), io);
    }
  }

  lemma StopsInv(w: World, io: Io)
    requires Inv(w)
    ensures Inv(StopLevel(w, io).world) && Inv(StopTemperature(w, io).world)
  {
    hide Commit;
    if Blocked(w).None? && w.applied.Some? {
      if w.level.Some? {
        CommitInv(w.(level := None), StopTarget(w, w.applied.value, w.level.value), io);
      }
      if w.temperature.Some? {
        CommitInv(w.(temperature := None), w.target.(temperature := w.applied.value.state.temperature), io);
      }
    }
  }

  lemma LocalOffInv(w: World, io: Io)
    requires Inv(w)
    ensures Inv(LocalOff(w, io).world)
  {
    hide Reconcile;
    if w.loadFault != Some(StorageFault) {
      var dark := Darken(w, io);
      SaveIntentDurable(dark, io);
      var saved := SaveIntent(dark, io);
      if saved.reply == Okay {
        var repaired := Repaired(saved.world);
        assert Durable(repaired) by {
          if !dark.dirty { assert w.loadFault.None? && w.target == dark.target; }
          DecodeEncode(dark.target, dark.startup);
        }
        if io.stop { ReconcileInv(repaired, io); }
      }
    }
  }

  lemma SaveStartupInv(w: World, startup: Settings, io: Io)
    requires Inv(w)
    ensures Inv(SaveStartup(w, startup, io).world)
  {
    hide Encode, Decode, FrameFor, TracksMeetTarget;
    DecodeEncode(w.target, startup);
  }

  lemma VerifyInv(w: World, io: Io)
    requires Inv(w)
    ensures Inv(Verify(w, io).world)
  {
    if w.applied.Some? && !io.check {
      OutputFailedInv(w.(trace := w.trace + [Checked(w.applied.value, io.check)]), io);
    }
  }

  lemma RegistersInv(w: World, io: Io)
    requires Inv(w)
    ensures Inv(Registers(w, io).world)
  {
    if !io.check { OutputFailedInv(w.(trace := w.trace + [Sampled(io.check)]), io); }
  }

  lemma PrepareRebootInv(w: World, io: Io)
    requires Inv(w)
    ensures Inv(PrepareReboot(w, io).world)
  {
  }

  lemma TickSettledInv(w: World, io: Io)
    requires Prepared(w, w.target) && w.applied == Some(Effective(w))
    ensures Inv(TickSettled(w, io))
  {
    EffectiveBrightness(w);
    var expired := ExpireTracks(w);
    assert Inv(expired);
    if w.now >= w.nextVerify {
      var checked := expired.(nextVerify := SatAdd(w.now, RETRY_MS),
        trace := w.trace + [Checked(w.applied.value, io.check)]);
      if !io.check { OutputFailedInv(checked, io); }
    }
  }

  lemma TickLoadedInv(w: World, io: Io)
    requires Prepared(w, w.target)
    ensures Inv(TickLoaded(w, io))
  {
    SaveIntentDurable(w, io);
    var saved := SaveIntent(w, io);
    if saved.reply == Okay {
      if saved.world.applied != Some(Effective(saved.world)) {
        ReconcileInv(saved.world, io);
      } else {
        TickSettledInv(saved.world, io);
      }
    }
  }

  lemma TickInv(w: World, now: Clock, io: Io)
    requires Inv(w) && w.now <= now
    ensures Inv(Tick(w, now, io))
  {
    var timed := w.(now := now);
    if w.fault == Rebooting || now < w.retryAt {
    } else if w.loadFault == Some(StorageFault) {
      var reading := ReadRecord(w.store, io.read);
      if reading.Readable? {
        TickLoadedInv(Reload(timed.(trace := w.trace + [Loaded(io.read)]), reading.saved), io);
      }
    } else if w.loadFault.None? {
      TickLoadedInv(timed, io);
    }
  }

  /** Every operation keeps the invariant, whatever storage and output answer. */
  lemma StepInv(w: World, c: Command, io: Io)
    requires Inv(w) && Timely(w.now, c)
    ensures Inv(Step(w, c, io).world)
  {
    hide Tick, SetPower, MoveLevel, MoveTemperature, RecallScene, OffWithEffect, StopLevel, StopTemperature, LocalOff,
      Verify, Registers, PrepareReboot, SetStartupPower, SetStartupLevel, SaveStartup, Inv;
    match c
    case CmdTick(now) => TickInv(w, now, io);
    case CmdPower(on) => SetPowerInv(w, on, io);
    case CmdLevel(level, withOnOff, ms, shape) => MoveLevelInv(w, level, withOnOff, ms, shape, io);
    case CmdTemperature(to, ms, shape) => MoveTemperatureInv(w, to, ms, shape, io);
    case CmdScene(target, ms) => RecallSceneInv(w, target, ms, io);
    case CmdEffect(effect) => OffWithEffectInv(w, effect, io);
    case CmdStopLevel => StopsInv(w, io);
    case CmdStopTemperature => StopsInv(w, io);
    case CmdLocalOff => LocalOffInv(w, io);
    case CmdVerify => VerifyInv(w, io);
    case CmdRegisters => RegistersInv(w, io);
    case CmdReboot => PrepareRebootInv(w, io);
    case CmdStartupPower(policy) => StartupInv(w, policy, None, None, io);
    case CmdStartupLevel(level) => StartupInv(w, None, level, None, io);
    case CmdStartupTemperature(t) => StartupInv(w, None, None, t, io);
  }

  lemma StartupInv(w: World, policy: Option<StartUpOnOff>, level: Option<byte>, t: Option<Temperature>, io: Io)
    requires Inv(w)
    ensures Inv(SetStartupPower(w, policy, io).world)
    ensures Inv(SetStartupLevel(w, level, io).world)
    ensures Inv(SaveStartup(w, w.startup.(temperature := t), io).world)
  {
    SaveStartupInv(w, w.startup.(power := if policy.Some? then 1 else 0), io);
    if level != Some(255) { SaveStartupInv(w, w.startup.(level := level), io); }
    SaveStartupInv(w, w.startup.(temperature := t), io);
  }

  /** The invariant holds in every reachable world. */
  lemma {:induction false} RunInv(w: World, actions: seq<Action>)
    requires Inv(w) && TimelyRun(w.now, actions)
    ensures Inv(Run(w, actions))
    decreases |actions|
  {
    if actions != [] {
      var w1 := Step(w, actions[0].command, actions[0].io).world;
      StepInv(w, actions[0].command, actions[0].io);
      RunInv(w1, actions[1..]);
    }
  }

  // ----- what re-establishing output leaves alone

  /** From w to v only output-related fields changed, and nothing was written. */
  predicate OutputOnly(w: World, v: World)
  {
    && v.target == w.target && v.startup == w.startup && v.store == w.store && v.dirty == w.dirty
      && v.loadFault == w.loadFault
    && v.offAfterLoad == w.offAfterLoad
    && (v.temperature == w.temperature || v.temperature.None?)
    && w.trace <= v.trace && forall i :: |w.trace| <= i < |v.trace| ==> !v.trace[i].Stored?
  }

  lemma ApplyEffectiveOutputOnly(w: World, io: Io)
    ensures OutputOnly(w, ApplyEffective(w, io).world)
  {
    hide FrameFor, LiveLevel;
  }

  lemma ReconcileOutputOnly(w: World, io: Io)
    ensures OutputOnly(w, Reconcile(w, io).world)
  {
    hide ApplyEffective, FrameFor;
    if w.applied.Some? {
      ApplyEffectiveOutputOnly(w, io);
    } else if io.park {
      ApplyEffectiveOutputOnly(ParkedWorld(w), io);
    }
  }
}
