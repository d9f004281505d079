/**
 * Ticks: how a world settles, what ticking alone may change, when it is stuck, and the corner where tracks go astray.
 */
module Settling {
  import opened Basics
  import opened Light
  import opened Curve
  import opened Record
  import opened RuntimeModel
  import opened RuntimeInvariant
  import opened Traces
  import opened Behaviour

  /** Everything the target asks for is acknowledged, durable and at rest. */
  predicate Settled(w: World)
  {
    && w.applied == Some(FromState(w.target)) && w.level.None? && w.temperature.None?
    && !w.dirty && w.loadFault.None? && w.fault == NoFault && w.retryAt == 0
  }

  /** The last deadline of every track has passed. */
  predicate Due(w: World, now: nat)
  {
    && (w.level.Some? ==> now >= w.level.value.Last().start + w.level.value.Last().duration)
    && (w.temperature.Some? ==> now >= w.temperature.value.start + w.temperature.value.duration)
  }

  lemma DueMeansOver(w: World, now: nat)
    requires TracksStarted(w) && Due(w, now)
    ensures LiveLevel(w.level, now).None? && LiveTemperature(w.temperature, now).None?
  {
    if w.level.Some? { TrackEnds(w.level.value, now); }
    if w.temperature.Some? { ValueEndpoints(w.temperature.value, now); }
  }

  lemma SettledFrame(target: LightState, now: Clock)
    ensures FrameFor(target, None, None, now) == FromState(target)
  {
  }

  /** What a healthy tick does to an acknowledged world. */
  lemma HealthyTick(w: World, now: Clock)
    requires Inv(w) && w.applied.Some? && w.now <= now
    ensures var v := Tick(w, now, ALL_WELL);
      && v.target == w.target && v.startup == w.startup && v.revision == w.revision
      && v.applied == Some(FrameFor(w.target, w.level, w.temperature, now))
      && v.level == LiveLevel(w.level, now) && v.temperature == LiveTemperature(w.temperature, now)
      && !v.dirty && v.loadFault.None? && v.fault == NoFault && v.retryAt == 0
      && (!w.dirty ==> v.store == w.store)
  {
    hide FrameFor, LiveLevel, LiveTemperature, Encode;
  }

  /** Two healthy ticks at or after the last deadline settle any acknowledged world on its own target. */
  lemma TwoTicksSettle(w: World, first: Clock, second: Clock)
    requires Inv(w) && w.applied.Some? && w.now <= first <= second && Due(w, first)
    ensures var v := Tick(Tick(w, first, ALL_WELL), second, ALL_WELL);
      Settled(v) && v.target == w.target && v.revision == w.revision
  {
    hide Tick, FrameFor, Inv, LiveLevel, LiveTemperature;
    var u := Tick(w, first, ALL_WELL);
    TickInv(w, first, ALL_WELL);
    HealthyTick(w, first);
    StartedFromInv(w);
    DueMeansOver(w, first);
    HealthyTick(u, second);
    NoTracksLive(second);
    SettledFrame(w.target, second);
  }

  lemma StartedFromInv(w: World)
    requires Inv(w)
    ensures TracksStarted(w)
  {
  }

  lemma NoTracksLive(now: nat)
    ensures LiveLevel(None, now).None? && LiveTemperature(None, now).None?
  {
  }

  /** A settled world stays settled under healthy ticks: nothing is written, reported or redriven again. */
  lemma SettledStays(w: World, now: Clock)
    requires Inv(w) && Settled(w) && w.now <= now
    ensures var v := Tick(w, now, ALL_WELL);
      Settled(v) && v.target == w.target && v.revision == w.revision && v.store == w.store
  {
    hide Tick, FrameFor, Inv;
    HealthyTick(w, now);
    NoTracksLive(now);
    SettledFrame(w.target, now);
  }

  /** Ticking can bring the output back: not while a reboot is pending, and not over a malformed record. */
  predicate Recoverable(w: World)
  {
    w.fault != Rebooting && (w.loadFault.None?
      || (w.loadFault == Some(StorageFault) && ReadRecord(w.store, true).Readable?))
  }

  /** This tick reads, at last, a record that could not be read at boot. */
  predicate LoadsLate(w: World, now: Clock, io: Io)
  {
    && w.fault != Rebooting && w.retryAt <= now && w.loadFault == Some(StorageFault)
    && io.read && ReadRecord(w.store, true).Readable?
  }

  /** What a late load makes the target: the start-up intent, Off if a local Off came first. */
  function LateTarget(w: World): LightState
    requires ReadRecord(w.store, true).Readable?
  {
    var saved := ReadRecord(w.store, true).saved;
    var restored := StartupIntent(saved.intended, saved.startup);
    if w.offAfterLoad then restored.(on := false) else restored
  }

  /** The target on which a recoverable world comes to rest. */
  function SettlesOn(w: World): LightState
    requires Recoverable(w)
  {
    if w.loadFault.None? then w.target else LateTarget(w)
  }

  /**
   * An unacknowledged, recoverable world: one healthy tick after the retry time proves zero and starts a 400 ms
   * ease-in.
   */
  lemma RecoveryTick(w: World, now: Clock)
    requires Inv(w) && w.applied.None? && Recoverable(w) && w.now <= now && w.retryAt <= now
    ensures var v := Tick(w, now, ALL_WELL);
      && v.applied.Some? && v.applied.value.brightness == 0
      && Due(v, now + DEFAULT_TRANSITION_MS)
      && v.target == SettlesOn(w)
  {
    hide FrameFor, Encode;
    var timed := w.(now := now);
    if w.loadFault.None? {
      RecoveryLoaded(timed);
    } else {
      RecoveryLoaded(Reload(timed.(trace := w.trace + [Loaded(true)]), ReadRecord(w.store, true).saved));
    }
  }

  lemma RecoveryLoaded(w: World)
    requires w.applied.None? && w.loadFault.None?
    ensures var v := TickLoaded(w, ALL_WELL);
      && v.applied.Some? && v.applied.value.brightness == 0 && v.target == w.target
      && Due(v, w.now + DEFAULT_TRANSITION_MS)
  {
    hide Encode;
    var saved := SaveIntent(w, ALL_WELL).world;
    EaseInStartsDark(ParkedWorld(saved));
  }

  /**
   * From any recoverable world three healthy ticks, the last two 400 ms after the first, settle on the target, or on
   * what a record that was still unread asks for.
   */
  lemma RecoverySettles(w: World, first: Clock, second: Clock, third: Clock)
    requires Inv(w) && w.applied.None? && Recoverable(w) && w.now <= first && w.retryAt <= first
    requires first + DEFAULT_TRANSITION_MS <= second <= third
    ensures var v := Tick(Tick(Tick(w, first, ALL_WELL), second, ALL_WELL), third, ALL_WELL);
      Settled(v) && v.target == SettlesOn(w)
  {
    hide Tick, Inv, FrameFor;
    var u := Tick(w, first, ALL_WELL);
    TickInv(w, first, ALL_WELL);
    RecoveryTick(w, first);
    assert Due(u, second);
    TwoTicksSettle(u, second, third);
  }

  /** Exactly the other worlds are stuck: no tick, however healthy, acknowledges anything. */
  lemma StuckTick(w: World, now: Clock, io: Io)
    requires Inv(w) && w.applied.None? && !Recoverable(w)
    ensures var v := Tick(w, now, io); v.applied.None? && !Recoverable(v) && v.store == w.store
  {
  }

  // ----- ticking alone

  /** Successful writes in a trace. */
  function Writes(trace: seq<Event>): nat
    decreases |trace|
  {
    if trace == [] then 0
    else
      var last := trace[|trace| - 1];
      Writes(trace[..|trace| - 1]) + if last.Stored? && last.ok then 1 else 0
  }

  lemma WritesAppend(trace: seq<Event>, e: Event)
    ensures Writes(trace + [e]) == Writes(trace) + if e.Stored? && e.ok then 1 else 0
  {
    assert (trace + [e])[..|trace|] == trace;
  }

  lemma {:induction false} WritesAppendQuiet(trace: seq<Event>, more: seq<Event>)
    requires forall i :: 0 <= i < |more| ==> !more[i].Stored?
    ensures Writes(trace + more) == Writes(trace)
    decreases |more|
  {
    if more == [] {
      assert trace + more == trace;
    } else {
      var k := |more| - 1;
      assert trace + more == (trace + more[..k]) + [more[k]];
      WritesAppend(trace + more[..k], more[k]);
      WritesAppendQuiet(trace, more[..k]);
    }
  }

  /** A write a tick may still owe. */
  function Owed(w: World): nat { if w.dirty || w.loadFault == Some(StorageFault) then 1 else 0 }

  lemma ReconcileWritesNothing(w: World, io: Io)
    ensures var v := Reconcile(w, io).world;
      Writes(v.trace) == Writes(w.trace) && v.dirty == w.dirty && v.loadFault == w.loadFault && v.target == w.target
  {
    hide Reconcile;
    ReconcileOutputOnly(w, io);
    var v := Reconcile(w, io).world;
    var more := v.trace[|w.trace|..];
    assert v.trace == w.trace + more;
    WritesAppendQuiet(w.trace, more);
  }

  lemma SaveIntentWritesOnce(w: World, io: Io)
    ensures var d := SaveIntent(w, io); var v := d.world;
      && Writes(v.trace) + (if v.dirty then 1 else 0) == Writes(w.trace) + (if w.dirty then 1 else 0)
      && v.loadFault == w.loadFault && v.target == w.target
  {
    hide Encode, Writes;
    var data := Encode(w.target, w.startup);
    if w.dirty {
      WritesAppend(w.trace, Stored(data, io.store));
      if !io.store {
        WritesAppendQuiet(w.trace + [Stored(data, false)], [Parked(io.guard)]);
        assert w.trace + [Stored(data, false), Parked(io.guard)] ==
          (w.trace + [Stored(data, false)]) + [Parked(io.guard)];
      }
    }
  }

  lemma TickLoadedWrites(w: World, io: Io)
    requires w.loadFault.None?
    ensures var v := TickLoaded(w, io);
      Writes(v.trace) + Owed(v) <= Writes(w.trace) + Owed(w) && v.target == w.target && v.loadFault.None?
  {
    hide Reconcile, FrameFor, Writes, SaveIntent;
    SaveIntentWritesOnce(w, io);
    var saved := SaveIntent(w, io);
    if saved.reply == Okay {
      if saved.world.applied != Some(Effective(saved.world)) {
        ReconcileWritesNothing(saved.world, io);
      } else {
        var e := Checked(saved.world.applied.value, io.check);
        WritesAppend(saved.world.trace, e);
        WritesAppend(saved.world.trace + [e], Parked(io.cleanup));
      }
    }
  }

  /** No tick writes more than is owed, and while the record is loaded no tick changes the target. */
  lemma TickWrites(w: World, now: Clock, io: Io)
    requires Inv(w)
    ensures var v := Tick(w, now, io);
      && Writes(v.trace) + Owed(v) <= Writes(w.trace) + Owed(w)
      && (w.loadFault.None? ==> v.target == w.target && v.loadFault.None?)
  {
    hide TickLoaded, Writes;
    var timed := w.(now := now);
    WritesAppend(w.trace, Loaded(io.read));
    if w.fault == Rebooting || now < w.retryAt {
    } else if w.loadFault == Some(StorageFault) {
      var reading := ReadRecord(w.store, io.read);
      if reading.Readable? {
        TickLoadedWrites(Reload(timed.(trace := w.trace + [Loaded(io.read)]), reading.saved), io);
      }
    } else if w.loadFault.None? {
      TickLoadedWrites(timed, io);
    }
  }

  /** However many ticks run and whatever fails, ticking alone writes the record at most once. */
  lemma {:induction false} TickRunWritesOnce(w: World, actions: seq<Action>)
    requires Inv(w) && TimelyRun(w.now, actions) && forall i :: 0 <= i < |actions| ==> actions[i].command.CmdTick?
    ensures var v := Run(w, actions);
      && Writes(v.trace) + Owed(v) <= Writes(w.trace) + Owed(w) <= Writes(w.trace) + 1
      && (w.loadFault.None? ==> v.target == w.target)
    decreases |actions|
  {
    hide Inv, Tick, Writes;
    if actions != [] {
      StepInv(w, actions[0].command, actions[0].io);
      TickWrites(w, actions[0].command.now, actions[0].io);
      TickRunWritesOnce(Step(w, actions[0].command, actions[0].io).world, actions[1..]);
    }
  }

  // ----- the reboot gate

  /** Operations that are not gated by a pending reboot. */
  predicate OpensRebootGate(w: World, c: Command, io: Io)
  {
    (c.CmdLocalOff? && w.loadFault != Some(StorageFault)) || (c.CmdRegisters? && !io.check)
  }

  /**
   * A pending reboot survives an operation exactly unless it is local Off on a read record or a failed register read.
   */
  lemma RebootGate(w: World, c: Command, io: Io)
    requires Inv(w) && w.fault == Rebooting
    ensures var v := Step(w, c, io).world;
      && (v.fault == Rebooting <==> !OpensRebootGate(w, c, io))
      && (!OpensRebootGate(w, c, io) ==> NothingDriven(w, v) && v.store == w.store && v.applied.None?)
  {
    hide Tick, SetPower, MoveLevel, MoveTemperature, RecallScene, OffWithEffect, StopLevel, StopTemperature, LocalOff,
      SaveStartup, FrameFor;
    match c
    case CmdTick(now) => RebootGateTick(w, now, io);
    case CmdLocalOff => RebootGateOff(w, io);
    case CmdVerify =>
    case CmdRegisters =>
    case CmdReboot =>
    case _ => RebootGateSetter(w, c, io);
  }

  /** No frame was applied between w and v. */
  predicate NothingDriven(w: World, v: World)
  {
    |w.trace| <= |v.trace| && forall i :: |w.trace| <= i < |v.trace| ==> !v.trace[i].Applied?
  }

  lemma RebootGateTick(w: World, now: Clock, io: Io)
    requires w.fault == Rebooting
    ensures Tick(w, now, io) == w.(now := now)
  {
  }

  lemma RebootGateSetter(w: World, c: Command, io: Io)
    requires w.fault == Rebooting
    requires !c.CmdTick? && !c.CmdLocalOff? && !c.CmdVerify? && !c.CmdRegisters? && !c.CmdReboot?
    ensures Step(w, c, io).world == w
  {
    hide Commit, FrameFor;
  }

  lemma RebootGateOff(w: World, io: Io)
    requires w.fault == Rebooting
    ensures var v := LocalOff(w, io).world;
      if w.loadFault == Some(StorageFault) then v.fault == Rebooting && v.store == w.store && v.applied.None?
        && NothingDriven(w, v)
      else v.fault != Rebooting
  {
    hide FrameFor, Encode;
  }

  /** With everything working, local Off cancels a pending reboot: setters are accepted again. */
  lemma LocalOffCancelsReboot(w: World)
    requires Inv(w) && w.fault == Rebooting && w.loadFault != Some(StorageFault)
    ensures var v := LocalOff(w, ALL_WELL).world; v.fault == NoFault && v.applied.Some? && Blocked(v).None?
  {
    hide FrameFor, Encode;
  }

  // ----- colour tracks and the Stop corner

  /** A live temperature track belongs to an On target and ends at its temperature. */
  predicate Aligned(w: World)
  {
    w.temperature.Some? ==> w.target.on && w.temperature.value.to == w.target.temperature
  }

  /** Stopping a fade below half the level floor turns the target Off but leaves a live temperature track behind. */
  predicate Strands(w: World, c: Command)
  {
    && c.CmdStopLevel? && Blocked(w).None? && w.level.Some? && w.temperature.Some?
    && w.applied.Some? && w.applied.value.brightness <= 126
  }

  lemma CommitAligned(w: World, target: LightState, io: Io)
    requires Aligned(w.(target := target))
    ensures Aligned(Commit(w, target, io).world)
  {
    hide Reconcile, Encode;
    var saved := SaveIntent(w.(dirty := w.dirty || w.target != target, target := target,
      revision := WrapInc(w.revision)), io);
    ReconcileOutputOnly(saved.world, io);
  }

  lemma StopAligned(w: World, io: Io)
    requires Inv(w) && Aligned(w)
    ensures Aligned(StopLevel(w, io).world) <==> !Strands(w, CmdStopLevel)
  {
    hide Commit, FrameFor;
    if Blocked(w).None? && w.level.Some? && w.applied.Some? {
      CommitOutcome(w.(level := None), StopTarget(w, w.applied.value, w.level.value), io);
    }
  }

  /** Temperature tracks stay aligned under every operation except exactly that Stop. */
  lemma AlignedStep(w: World, c: Command, io: Io)
    requires Inv(w) && Aligned(w)
    ensures Aligned(Step(w, c, io).world) <==> !Strands(w, c)
  {
    hide Commit, FrameFor, StopLevel, LocalOff, Tick, SaveStartup, RampTo, MoveTemperature, MoveLevel, RecallScene, Inv;
    match c
    case CmdTick(now) => TickAligned(w, now, io);
    case CmdPower(on) => CommitAligned(if on == w.target.on then w else PowerTracks(w, w.target.(on := on)),
      w.target.(on := on), io);
    case CmdLevel(level, withOnOff, ms, shape) => LevelAligned(w, level, withOnOff, ms, shape, io);
    case CmdTemperature(to, ms, shape) => TemperatureAligned(w, to, ms, shape, io);
    case CmdScene(target, ms) => SceneAligned(w, target, ms, io);
    case CmdEffect(effect) => CommitAligned(EffectTracks(w, effect), w.target.(on := false), io);
    case CmdStopLevel => StopAligned(w, io);
    case CmdStopTemperature =>
      if w.applied.Some? {
        CommitAligned(w.(temperature := None), w.target.(temperature := w.applied.value.state.temperature), io);
      }
    case CmdLocalOff => LocalOffAligned(w, io);
    case CmdStartupPower(policy) => StartupAligned(w, w.startup.(power := if policy.Some? then 1 else 0), io);
    case CmdStartupLevel(level) => if level != Some(255) { StartupAligned(w, w.startup.(level := level), io); }
    case CmdStartupTemperature(t) => StartupAligned(w, w.startup.(temperature := t), io);
    case _ =>
  }

  /** Over a whole run: without such a Stop every colour track still belongs to its target. */
  lemma {:induction false} AlignedRun(w: World, actions: seq<Action>)
    requires Inv(w) && Aligned(w) && TimelyRun(w.now, actions) && NeverStrands(w, actions)
    ensures Aligned(Run(w, actions))
    decreases |actions|
  {
    hide Inv, Step, Strands;
    if actions != [] {
      StepInv(w, actions[0].command, actions[0].io);
      AlignedStep(w, actions[0].command, actions[0].io);
      AlignedRun(Step(w, actions[0].command, actions[0].io).world, actions[1..]);
    }
  }

  predicate NeverStrands(w: World, actions: seq<Action>)
    decreases |actions|
  {
    actions != [] ==>
      !Strands(w, actions[0].command) && NeverStrands(Step(w, actions[0].command, actions[0].io).world, actions[1..])
  }

  lemma StartupAligned(w: World, startup: Settings, io: Io)
    requires Aligned(w)
    ensures Aligned(SaveStartup(w, startup, io).world)
  {
  }

  lemma TemperatureAligned(w: World, to: Temperature, ms: nat, shape: Shape, io: Io)
    requires Inv(w) && Aligned(w)
    ensures Aligned(MoveTemperature(w, to, ms, shape, io).world)
  {
    hide Commit;
    var duration := if shape == Smooth then Duration(ms) else ms;
    if duration <= MAX_TRANSITION_MS {
      CommitAligned(TemperatureTracks(w, to, duration, shape), w.target.(temperature := to), io);
    }
  }

  lemma SceneAligned(w: World, target: LightState, ms: nat, io: Io)
    requires Inv(w) && Aligned(w)
    ensures Aligned(RecallScene(w, target, ms, io).world)
  {
    hide Commit, RampTo;
    if ms <= MAX_TRANSITION_MS {
      CommitAligned(if target == w.target then w else SceneTracks(w, target, Duration(ms)), target, io);
    }
  }

  lemma LevelAligned(w: World, level: byte, withOnOff: bool, ms: nat, shape: Shape, io: Io)
    requires Inv(w) && Aligned(w)
    ensures Aligned(MoveLevel(w, level, withOnOff, ms, shape, io).world)
  {
    hide Commit, RampTo;
    var duration := if shape == Smooth then Duration(ms) else ms;
    if level != 255 && duration <= MAX_TRANSITION_MS {
      var target := LevelTarget(w, level, withOnOff);
      CommitAligned(if KeepsLevelTrack(w, target, withOnOff, shape) then w
        else LevelTracks(w, target, duration, shape), target, io);
    }
  }

  lemma LocalOffAligned(w: World, io: Io)
    ensures Aligned(LocalOff(w, io).world)
  {
    hide Reconcile, Encode;
    var saved := SaveIntent(Darken(w, io), io).world;
    ReconcileOutputOnly(Repaired(saved), io);
  }

  lemma TickAligned(w: World, now: Clock, io: Io)
    requires Inv(w) && Aligned(w)
    ensures Aligned(Tick(w, now, io))
  {
    hide TickLoaded;
    var timed := w.(now := now);
    if w.fault == Rebooting || now < w.retryAt {
    } else if w.loadFault == Some(StorageFault) {
      var reading := ReadRecord(w.store, io.read);
      if reading.Readable? {
        TickLoadedAligned(Reload(timed.(trace := w.trace + [Loaded(io.read)]), reading.saved), io);
      }
    } else if w.loadFault.None? {
      TickLoadedAligned(timed, io);
    }
  }

  lemma TickLoadedAligned(w: World, io: Io)
    requires Aligned(w)
    ensures Aligned(TickLoaded(w, io))
  {
    hide Reconcile, FrameFor, Encode;
    ReconcileOutputOnly(SaveIntent(w, io).world, io);
  }

  /** A quiet world at the start of time with an acknowledged dark frame of colour t. */
  predicate DarkStart(w: World, t: Temperature)
  {
    && w.now == 0 && w.fault == NoFault && w.loadFault.None?
    && w.applied.Some? && w.applied.value.brightness == 0 && w.applied.value.state.temperature == t
  }

  /** Setters on such a world are accepted and, with everything working, show what their tracks call for. */
  lemma DarkCommit(w: World, target: LightState)
    requires w.applied.Some? && DarkStart(w, w.applied.value.state.temperature)
    requires w.level.Some? && w.level.value.Remaining(0) > 0 ==> w.level.value.Value(0) == 0
    requires w.level.None? || w.level.value.Remaining(0) == 0 ==> !target.on
    requires w.temperature.Some? ==> w.temperature.value.Value(0) == 303
    requires w.temperature.None? ==> target.temperature == 303 && (w.level.Some? ==> w.level.value.offTemperature.None?)
    ensures var v := Commit(w, target, ALL_WELL).world;
      DarkStart(v, 303) && v.target == target && v.level == LiveLevel(w.level, 0)
        && v.temperature == LiveTemperature(w.temperature, 0)
  {
    hide Commit;
    CommitOutcome(w, target, ALL_WELL);
    CommitFault(w, target);
  }

  lemma CommitFault(w: World, target: LightState)
    ensures Commit(w, target, ALL_WELL).world.fault == NoFault
  {
    hide FrameFor, Encode;
  }

  /** The long scene fade installed at time zero. */
  const STRANDED: Transition := Transition(303, 143, 0, 60_000, Smooth)

  /** The stranding half of the run: a lit scene is recalled and its level fade stopped at once. */
  lemma StrandTrack(w: World)
    requires DarkStart(w, 303) && w.target == DEFAULT_STATE
    ensures var v := StopLevel(RecallScene(w, LightState(true, 57, 143), 60_000, ALL_WELL).world, ALL_WELL).world;
      DarkStart(v, 303) && v.target == LightState(false, 1, 143) && v.level.None? && v.temperature == Some(STRANDED)
  {
    hide Commit, FrameFor;
    var scene := LightState(true, 57, 143);
    var faded := SceneTracks(w, scene, 60_000);
    ValueEndpoints(faded.level.value.ramp, 0);
    ValueEndpoints(STRANDED, 0);
    DarkCommit(faded, scene);
    var u := RecallScene(w, scene, 60_000, ALL_WELL).world;
    DarkCommit(u.(level := None), StopTarget(u, u.applied.value, u.level.value));
  }

  /** The other half: the remembered colour is set to what is shown, and the light turned on. */
  lemma StrandedTurnsOn(w: World)
    requires DarkStart(w, 303) && w.target == LightState(false, 1, 143) && w.level.None?
      && w.temperature == Some(STRANDED)
    ensures var v := SetPower(MoveTemperature(w, 303, 0, Smooth, ALL_WELL).world, true, ALL_WELL).world;
      && DarkStart(v, 303) && v.target == LightState(true, 1, 303) && v.temperature == Some(STRANDED)
      && (v.level.Some? ==> v.level.value.Remaining(60_000) == 0)
  {
    hide Commit, FrameFor;
    ValueEndpoints(STRANDED, 0);
    DarkCommit(w, LightState(false, 1, 303));
    var u := MoveTemperature(w, 303, 0, Smooth, ALL_WELL).world;
    var on := LightState(true, 1, 303);
    RampStartsHere(u, on, DEFAULT_TRANSITION_MS, Smooth);
    DarkCommit(PowerTracks(u, on), on);
  }

  /** The run that strands the track. */
  const STRANDING: seq<Action> :=
    [Action(CmdTick(0), ALL_WELL), Action(CmdScene(LightState(true, 57, 143), 60_000), ALL_WELL),
      Action(CmdStopLevel, ALL_WELL),
     Action(CmdTemperature(303, 0, Smooth), ALL_WELL), Action(CmdPower(true), ALL_WELL)]

  /**
   * The corner is reachable from a first boot, and it recolours an On light: after this run the target is On at
   * 303 mired, a minute later a frame of 143 mired is acknowledged for it, and the tick after that snaps to 303.
   */
  lemma StrandedTrackMissesTarget()
    ensures var v := Run(Boot(None, ALL_WELL), STRANDING); var u := Tick(v, 60_000, ALL_WELL);
      && v.target == u.target == LightState(true, 1, 303) && v.temperature == Some(STRANDED)
      && u.applied == Some(OutputFrame(LightState(true, 1, 143), 253))
      && Tick(u, 60_000, ALL_WELL).applied == Some(FromState(u.target))
  {
    hide Tick, Inv, FrameFor, LiveLevel, LiveTemperature, Boot, Run;
    StrandingRun();
    BootInv(None, ALL_WELL);
    StrandingTimely();
    RunInv(Boot(None, ALL_WELL), STRANDING);
    var v := Run(Boot(None, ALL_WELL), STRANDING);
    var u := Tick(v, 60_000, ALL_WELL);
    HealthyTick(v, 60_000);
    TickInv(v, 60_000, ALL_WELL);
    HealthyTick(u, 60_000);
    StrandedFrame(v);
    NoTracksLive(60_000);
    SettledFrame(u.target, 60_000);
  }

  lemma StrandingTimely()
    ensures Boot(None, ALL_WELL).now == 0 && TimelyRun(0, STRANDING)
  {
    NoTimePasses(0, STRANDING);
  }

  lemma {:induction false} NoTimePasses(now: nat, actions: seq<Action>)
    requires forall i :: 0 <= i < |actions| ==> actions[i].command.CmdTick? ==> actions[i].command.now == now
    ensures TimelyRun(now, actions)
    decreases |actions|
  {
    if actions != [] { NoTimePasses(now, actions[1..]); }
  }

  /** A minute on, the short level ramp is over and the track has reached its own end. */
  lemma StrandedFrame(w: World)
    requires w.temperature == Some(STRANDED) && w.target == LightState(true, 1, 303)
    requires w.level.Some? ==> w.level.value.Remaining(60_000) == 0
    ensures FrameFor(w.target, w.level, w.temperature, 60_000) == OutputFrame(LightState(true, 1, 143), 253)
    ensures LiveLevel(w.level, 60_000).None? && LiveTemperature(w.temperature, 60_000).None?
  {
    ValueEndpoints(STRANDED, 60_000);
  }

  lemma StrandingRun()
    ensures var v := Run(Boot(None, ALL_WELL), STRANDING);
      && v.target == LightState(true, 1, 303) && v.temperature == Some(STRANDED) && v.applied.Some? && v.now == 0
      && (v.level.Some? ==> v.level.value.Remaining(60_000) == 0)
  {
    hide RecallScene, StopLevel, MoveTemperature, SetPower;
    var scene := LightState(true, 57, 143);
    var w := Tick(Boot(None, ALL_WELL), 0, ALL_WELL);
    FirstTick();
    StrandTrack(w);
    var stopped := StopLevel(RecallScene(w, scene, 60_000, ALL_WELL).world, ALL_WELL).world;
    StrandedTurnsOn(stopped);
    RunFive(Boot(None, ALL_WELL), Action(CmdTick(0), ALL_WELL), Action(CmdScene(scene, 60_000), ALL_WELL),
      Action(CmdStopLevel, ALL_WELL), Action(CmdTemperature(303, 0, Smooth), ALL_WELL),
        Action(CmdPower(true), ALL_WELL));
  }

  lemma FirstTick()
    ensures var w := Tick(Boot(None, ALL_WELL), 0, ALL_WELL); DarkStart(w, 303) && w.target == DEFAULT_STATE
  {
  }

  lemma RunFive(w: World, a: Action, b: Action, c: Action, d: Action, e: Action)
    ensures Run(w, [a, b, c, d, e]) ==
            Step(Step(Step(Step(Step(w, a.command, a.io).world, b.command, b.io).world, c.command, c.io).world,
                      d.command, d.io).world, e.command, e.io).world
  {
    hide Step;
    var w1 := Step(w, a.command, a.io).world;
    var w2 := Step(w1, b.command, b.io).world;
    var w3 := Step(w2, c.command, c.io).world;
    RunCons(w, a, [b, c, d, e]);
    assert [a] + [b, c, d, e] == [a, b, c, d, e];
    RunCons(w1, b, [c, d, e]);
    assert [b] + [c, d, e] == [b, c, d, e];
    RunCons(w2, c, [d, e]);
    assert [c] + [d, e] == [c, d, e];
    RunCons(w3, d, [e]);
    assert [d] + [e] == [d, e];
  }

  lemma RunCons(w: World, a: Action, rest: seq<Action>)
    ensures Run(w, [a] + rest) == Run(Step(w, a.command, a.io).world, rest)
  {
    assert ([a] + rest)[1..] == rest;
  }
}
