/** The handler as a whole: the global scene latch, level and colour commands, and its place on top of the runtime. */
module Handler {
  import opened Basics
  import opened Light
  import opened Record
  import Curve
  import Runtime = RuntimeModel
  import opened RuntimeModel
  import opened RuntimeInvariant
  import opened Traces
  import opened Settling
  import opened Commands
  import Behaviour
  import opened TimedOff
  import opened Scenes
  import opened LightModel

  // ----- the global scene latch

  /** The steps at which a closed latch opens again. */
  predicate Reopens(l: Lamp, c: LightCommand, more: Io, io: Io)
  {
    var okay := LightAnswer(l, c, more, io).reply == Okay;
    match c
    case LightPower(on) => on
    case LightTimedOn(acceptOnlyOn, onTime, offWait) =>
      && onTime != FOREVER && offWait != FOREVER && Reported(l.world).Some?
      && (Reported(l.world).value.on || (!acceptOnlyOn && l.timers.offWait == 0))
    case LightRecallGlobal => okay
    case LightRecallParts(_) => okay && LightStep(l, c, more, io).world.target.on
    case LightLevelTo(raw, withOnOff, _, _, _) => okay && withOnOff && raw > 1
    case LightLevelMove(up, _, withOnOff, _, _) => okay && withOnOff && up
    case LightLevelStep(up, step, _, withOnOff, _, _) =>
      okay && withOnOff && l.world.applied.Some? && StepEnd(l.world.applied.value.state.level, up, step, withOnOff) > 1
    case _ => false
  }

  predicate SameLatch(l: Lamp, m: Lamp) { m.globalScene == l.globalScene && m.globalState == l.globalState }

  lemma PowerLatch(l: Lamp, on: bool, raise: Io, io: Io)
    ensures var r := Power(l, on, raise, io).lamp;
      (r.globalScene <==> l.globalScene || on) && r.globalState == l.globalState
  {
    hide SetPower, MoveLevel;
  }

  lemma TickLatch(l: Lamp, ds: Ticks, io: Io)
    ensures SameLatch(l, LightModel.Tick(l, ds, io))
  {
    hide Power;
    PowerLatch(l.(timers := l.timers.(onTime := SatSub(l.timers.onTime, ds))), false, io, io);
  }

  lemma TimedOnLatch(l: Lamp, acceptOnlyOn: bool, onTime: Ticks, offWait: Ticks, raise: Io, io: Io)
    ensures var r := TimedOn(l, acceptOnlyOn, onTime, offWait, raise, io).lamp;
      && (r.globalScene <==> l.globalScene || Reopens(l, LightTimedOn(acceptOnlyOn, onTime, offWait), raise, io))
      && r.globalState == l.globalState
  {
    hide Power, LightAnswer;
    PowerLatch(l.(timers := l.timers.(onTime := Max(l.timers.onTime, onTime), offWait := offWait)), true, raise, io);
  }

  lemma EffectLatch(l: Lamp, effect: OffEffect, io: Io)
    ensures var r := EffectOff(l, effect, io).lamp;
      if l.globalScene && Reported(l.world).Some? then !r.globalScene && r.globalState == Reported(l.world)
        else SameLatch(l, r)
  {
    hide Runtime.OffWithEffect;
  }

  lemma RecallGlobalLatch(l: Lamp, io: Io)
    ensures var d := RecallGlobal(l, io);
      (d.lamp.globalScene <==> l.globalScene || d.reply == Okay) && d.lamp.globalState == l.globalState
  {
    hide RecallScene;
  }

  lemma LevelStopLatch(l: Lamp, withOnOff: bool, mask: byte, over: byte, io: Io, more: Io)
    ensures SameLatch(l, LevelStop(l, withOnOff, mask, over, io, more).lamp)
  {
    hide Step, Executes;
  }

  lemma LevelToLatch(l: Lamp, raw: byte, withOnOff: bool, ds: Ticks, mask: byte, over: byte, shape: Curve.Shape,
    io: Io, more: Io)
    ensures var d := LevelTo(l, raw, withOnOff, ds, mask, over, shape, io, more);
      && (d.lamp.globalScene <==> l.globalScene || (d.reply == Okay && withOnOff && raw > 1))
      && d.lamp.globalState == l.globalState
  {
    hide Step, CoupledColor, Chosen;
  }

  lemma RecallPartsLatch(l: Lamp, parts: seq<Part>, io: Io)
    ensures var d := RecallParts(l, parts, io);
      && (d.lamp.globalScene <==> l.globalScene || (d.reply == Okay && d.lamp.world.target.on))
      && d.lamp.globalState == l.globalState
  {
    hide Commit, SceneTracks, StageEntries;
    var begun := BeginScene(l);
    if begun.reply == Okay {
      PartsAreEntries(begun.lamp, parts);
      var staged := StageParts(begun.lamp, parts);
      if staged.reply == Okay {
        var draft, w := staged.lamp.draft.value, l.world;
        if draft.durationMs <= Curve.MAX_TRANSITION_MS {
          CommitTarget(if draft.target == w.target then w
            else SceneTracks(w, draft.target, Duration(draft.durationMs)), draft.target, io);
        }
      }
    }
  }

  /**
   * The latch, exactly: open, it is closed by an off effect on a reported state, which it captures, and by nothing
   * else;
   * closed, it keeps its capture and opens at the named steps and at no other.
   */
  lemma LatchStep(l: Lamp, c: LightCommand, more: Io, io: Io)
    ensures var r := LightStep(l, c, more, io);
      if l.globalScene then
        && (!r.globalScene <==> c.LightOffEffect? && Reported(l.world).Some?)
        && r.globalState == (if r.globalScene then l.globalState else Reported(l.world))
      else
        && (r.globalScene <==> Reopens(l, c, more, io))
        && r.globalState == l.globalState
  {
    hide Power, LightModel.Tick, TimedOn, EffectOff, RecallGlobal, LevelTo, LevelMove, LevelStep, LevelStop,
      RecallParts,
      ColorTo, ColorMove, ColorStep, ColorHalt, Step, StepEnd;
    match c
    case LightPower(on) => PowerLatch(l, on, more, io);
    case LightTick(ds) => TickLatch(l, ds, io);
    case LightTimedOn(acceptOnlyOn, onTime, offWait) => TimedOnLatch(l, acceptOnlyOn, onTime, offWait, more, io);
    case LightOffEffect(effect) => EffectLatch(l, effect, io);
    case LightRecallGlobal => RecallGlobalLatch(l, io);
    case LightLevelStop(withOnOff, mask, over) => LevelStopLatch(l, withOnOff, mask, over, io, more);
    case LightRecallParts(parts) => RecallPartsLatch(l, parts, io);
    case LightLevelTo(raw, withOnOff, ds, mask, over) =>
      LevelToLatch(l, raw, withOnOff, ds, mask, over, Curve.Smooth, io, more);
    case LightLevelMove(up, rate, withOnOff, mask, over) =>
      LevelMoveLatch(l, up, rate, withOnOff, mask, over, io, more);
    case LightLevelStep(up, step, ds, withOnOff, mask, over) =>
      LevelStepLatch(l, up, step, ds, withOnOff, mask, over, io, more);
    case LightColorTo(mireds, ds, mask, over) => ColorToKept(None, l, mireds, ds, mask, over, io);
    case LightColorMove(mode, rate, least, most, mask, over) =>
      ColorMoveKept(None, l, mode, rate, least, most, mask, over, io);
    case LightColorStep(up, step, ds, least, most, mask, over) =>
      ColorStepKept(None, l, up, step, ds, least, most, mask, over, io);
    case LightColorHalt(mask, over) => ColorHaltKept(None, l, mask, over, io);
    case _ =>
  }

  lemma LevelMoveLatch(l: Lamp, up: bool, rate: Option<byte>, withOnOff: bool, mask: byte, over: byte, io: Io, more: Io)
    ensures var d := LevelMove(l, up, rate, withOnOff, mask, over, io, more);
      && (d.lamp.globalScene <==> l.globalScene || (d.reply == Okay && withOnOff && up))
      && d.lamp.globalState == l.globalState
  {
    hide LevelTo, MoveTime;
    var speed: byte := if rate.Some? then rate.value else 254;
    if l.world.applied.Some? && speed != 0 {
      var end := MoveEnd(up, withOnOff);
      LevelToLatch(l, end, withOnOff, MoveTime(l.world.applied.value.state.level, end, speed), mask, over,
        Curve.Linear, io, more);
    }
  }

  lemma LevelStepLatch(l: Lamp, up: bool, step: byte, ds: Ticks, withOnOff: bool, mask: byte, over: byte, io: Io,
    more: Io)
    ensures var d := LevelStep(l, up, step, ds, withOnOff, mask, over, io, more);
      && (d.lamp.globalScene <==>
            l.globalScene || (d.reply == Okay && withOnOff && l.world.applied.Some?
              && StepEnd(l.world.applied.value.state.level, up, step, withOnOff) > 1))
      && d.lamp.globalState == l.globalState
  {
    hide LevelTo;
    if l.world.applied.Some? {
      LevelToLatch(l, StepEnd(l.world.applied.value.state.level, up, step, withOnOff), withOnOff, ds, mask, over,
        Curve.Smooth, io, more);
    }
  }

  /** No step of the run is one at which the latch opens. */
  predicate StaysShut(l: Lamp, actions: seq<LightAction>)
    decreases |actions|
  {
    actions != [] ==>
      var a := actions[0];
      !Reopens(l, a.command, a.more, a.io) && StaysShut(LightStep(l, a.command, a.more, a.io), actions[1..])
  }

  /** What can be told from a command alone: these never open the latch. */
  predicate KeepsLatch(c: LightCommand)
  {
    match c
    case LightPower(on) => !on
    case LightTick(_) => true
    case LightOffEffect(_) => true
    case LightLevelTo(raw, withOnOff, _, _, _) => !withOnOff || raw <= 1
    case LightLevelMove(up, _, withOnOff, _, _) => !withOnOff || !up
    case LightLevelStep(_, _, _, withOnOff, _, _) => !withOnOff
    case LightLevelStop(_, _, _) => true
    case LightColorTo(_, _, _, _) => true
    case LightColorMove(_, _, _, _, _, _) => true
    case LightColorStep(_, _, _, _, _, _, _) => true
    case LightColorHalt(_, _) => true
    case LightWrite(_) => true
    case LightRuntime(_) => true
    case _ => false
  }

  lemma {:induction false} KeepersStayShut(l: Lamp, actions: seq<LightAction>)
    requires forall i :: 0 <= i < |actions| ==> KeepsLatch(actions[i].command)
    ensures StaysShut(l, actions)
    decreases |actions|
  {
    hide LightAnswer, LightStep;
    if actions != [] {
      var a := actions[0];
      KeepersStayShut(LightStep(l, a.command, a.more, a.io), actions[1..]);
    }
  }

  /** Over a whole run a closed latch with its capture survives exactly as long as no such step occurs. */
  lemma {:induction false} LatchHolds(l: Lamp, actions: seq<LightAction>)
    requires !l.globalScene && StaysShut(l, actions)
    ensures var v := LightRun(l, actions); !v.globalScene && v.globalState == l.globalState
    decreases |actions|
  {
    hide LightStep, Reopens;
    if actions != [] {
      var a := actions[0];
      LatchStep(l, a.command, a.more, a.io);
      LatchHolds(LightStep(l, a.command, a.more, a.io), actions[1..]);
    }
  }

  /**
   * Off with effect, then any run that does not reopen the latch, then recall: a recall that is accepted makes exactly
   * the light that was reported before the first effect the target again.
   */
  lemma GlobalSceneReturns(l: Lamp, effect: OffEffect, first: Io, actions: seq<LightAction>, io: Io)
    requires l.globalScene && Reported(l.world).Some?
    requires StaysShut(EffectOff(l, effect, first).lamp, actions)
    ensures var dark := LightRun(EffectOff(l, effect, first).lamp, actions); var r := RecallGlobal(dark, io);
      && !dark.globalScene
      && (Blocked(dark.world).None? ==> r.lamp.world.target == l.world.target)
      && (r.reply == Okay ==> r.lamp.globalScene)
      && (Blocked(dark.world).Some? ==> r.lamp == dark && r.reply != Okay)
  {
    hide Runtime.OffWithEffect, LightRun, Commit, SceneTracks, StaysShut;
    var l1 := EffectOff(l, effect, first).lamp;
    LatchHolds(l1, actions);
    var w := LightRun(l1, actions).world;
    var saved := l.world.target;
    CommitTarget(if saved == w.target then w else SceneTracks(w, saved, Duration(0)), saved, io);
  }

  /**
   * Once the latch has been reopened, as by a level command with On/Off above the minimum, recalling the global scene
   * is answered Okay and changes nothing: the captured light does not come back.
   */
  lemma ReopenedRecallsNothing(l: Lamp, raw: byte, ds: Ticks, mask: byte, over: byte, more: Io, first: Io, io: Io)
    requires 1 < raw && LightAnswer(l, LightLevelTo(raw, true, ds, mask, over), more, first).reply == Okay
    ensures var lit := LightStep(l, LightLevelTo(raw, true, ds, mask, over), more, first);
      lit.globalScene && RecallGlobal(lit, io) == LampDone(lit, Okay)
  {
    hide LevelTo;
    LevelToLatch(l, raw, true, ds, mask, over, Curve.Smooth, first, more);
  }

  // ----- level and colour commands

  /** Coupling maps the level range onto the colour range: ends to ends, and never warmer for a higher level. */
  lemma CoupledColorMeaning(a: byte, b: byte)
    requires a <= b < 255
    ensures CoupledColor(b) <= CoupledColor(a)
    ensures CoupledColor(0) == CoupledColor(1) == 344 && CoupledColor(254) == 143
  {
  }

  /** What a level command makes of the light it acts on. */
  function LevelWish(t: LightState, raw: byte, withOnOff: bool, coupled: bool): LightState
    requires raw != 255
  {
    LightState(if withOnOff then raw > 1 else t.on, Max(raw, 1), if coupled then CoupledColor(raw) else t.temperature)
  }

  /**
   * A level command answered Okay either did not apply, and then changed nothing, or has made level, power and coupled
   * colour the durable target and remembers whether the colour is coupled.
   */
  lemma LevelToOutcome(l: Lamp, raw: byte, withOnOff: bool, ds: Ticks, mask: byte, over: byte, shape: Curve.Shape,
    io: Io, more: Io)
    requires Inv(l.world) && LevelTo(l, raw, withOnOff, ds, mask, over, shape, io, more).reply == Okay
    ensures var r := LevelTo(l, raw, withOnOff, ds, mask, over, shape, io, more).lamp;
      var coupled := Chosen(l.levelOptions, mask, over, COUPLE_COLOR);
      if Executes(l, withOnOff, l.levelOptions, mask, over) == Some(false) then r == l
      else
        && r.coupled == coupled && r.world.target == LevelWish(l.world.target, raw, withOnOff, coupled)
        && ReadRecord(r.world.store, true) == Readable(Saved(r.world.target, l.world.startup, false))
  {
    hide Step, Inv, Chosen, CoupledColor;
    if Executes(l, withOnOff, l.levelOptions, mask, over) == Some(true) {
      var c := CmdLevel(raw, withOnOff, 100 * ds, shape);
      SetterOutcome(l.world, c, io);
      StepInv(l.world, c, io);
      var w := Step(l.world, c, io).world;
      SetterOutcome(w, CmdTemperature(CoupledColor(raw), 100 * ds, shape), more);
    }
  }

  /** A move at a rate takes the least whole number of tenths at which it is no faster than that rate. */
  lemma MoveKeepsRate(from: Level, up: bool, rate: byte, withOnOff: bool)
    requires rate > 0
    ensures var end := MoveEnd(up, withOnOff); var ds := MoveTime(from, end, rate);
      10 * Abs(from - end) <= ds * rate < 10 * Abs(from - end) + rate
  {
    hide MoveEnd;
  }

  /**
   * A Stop of a coupled move that is answered Okay leaves the level at rest, and the colour too unless the Stop did
   * not apply and found a stranded colour track.
   */
  lemma CoupledStopHaltsBoth(l: Lamp, withOnOff: bool, mask: byte, over: byte, io: Io, more: Io)
    requires Inv(l.world) && l.coupled && LevelStop(l, withOnOff, mask, over, io, more).reply == Okay
    ensures var r := LevelStop(l, withOnOff, mask, over, io, more).lamp;
      var applies := Executes(l, withOnOff || LevelRemaining(l.world) != 0, l.levelOptions, mask, over) == Some(true);
      && r.world.level.None?
      && (applies || Aligned(l.world) ==> r.world.temperature.None?)
      && (if applies then !r.coupled else r == l)
  {
    hide Commit, Inv, StopTarget, Executes;
    var w := l.world;
    if Executes(l, withOnOff || LevelRemaining(w) != 0, l.levelOptions, mask, over) == Some(true) {
      if w.level.Some? && w.applied.Some? {
        InvLoaded(w);
        Behaviour.CommitOutcome(w.(level := None), StopTarget(w, w.applied.value, w.level.value), io);
      }
      var v := Step(w, CmdStopLevel, io).world;
      if v.temperature.Some? && v.applied.Some? && Blocked(v).None? {
        Behaviour.CommitOutcome(v.(temperature := None), v.target.(temperature := v.applied.value.state.temperature),
          more);
      }
    } else {
      IdleStop(l, withOnOff, mask, over);
    }
  }

  /** A Stop that does not apply finds an Off light without a level track. */
  lemma IdleStop(l: Lamp, withOnOff: bool, mask: byte, over: byte)
    requires Inv(l.world)
    requires Executes(l, withOnOff || LevelRemaining(l.world) != 0, l.levelOptions, mask, over) == Some(false)
    ensures l.world.level.None? && !l.world.target.on
  {
  }

  lemma InvLoaded(w: World)
    requires Inv(w) && w.applied.Some?
    ensures w.loadFault.None?
  {
  }

  // ----- the handler is a client of the runtime

  /** What every reachable world rests on. */
  ghost predicate Sound(initial: Option<seq<byte>>, w: World) { Inv(w) && Traced(initial, w) }

  /** From w to v soundness is kept and no time passes. */
  ghost predicate Kept(initial: Option<seq<byte>>, w: World, v: World)
  {
    Sound(initial, w) ==> Sound(initial, v) && v.now == w.now
  }

  lemma SendKept(initial: Option<seq<byte>>, l: Lamp, c: Command, io: Io)
    requires !c.CmdTick?
    ensures Kept(initial, l.world, Send(l, c, io).lamp.world)
  {
    hide Inv, Step, TraceSays, WroteAhead;
    if Sound(initial, l.world) {
      StepInv(l.world, c, io);
      StepTraced(initial, l.world, c, io);
    }
  }

  lemma SendTwiceKept(initial: Option<seq<byte>>, l: Lamp, c: Command, io: Io, m: Lamp, d: Command, more: Io)
    requires !c.CmdTick? && !d.CmdTick? && m.world == Send(l, c, io).lamp.world
    ensures Kept(initial, l.world, m.world) && Kept(initial, l.world, Send(m, d, more).lamp.world)
  {
    hide Sound, Step;
    SendKept(initial, l, c, io);
    SendKept(initial, m, d, more);
  }

  lemma PowerKept(initial: Option<seq<byte>>, l: Lamp, on: bool, raise: Io, io: Io)
    ensures Kept(initial, l.world, Power(l, on, raise, io).lamp.world)
  {
    hide Kept, SetPower, MoveLevel;
    SendKept(initial, l, CmdPower(on), io);
    if on && Raises(l) {
      var c := CmdLevel(l.onLevel.value, true, 0, Curve.Smooth);
      SendTwiceKept(initial, l, c, raise, Send(l, c, raise).lamp, CmdPower(true), io);
    }
  }

  lemma LevelToKept(initial: Option<seq<byte>>, l: Lamp, raw: byte, withOnOff: bool, ds: Ticks, mask: byte,
    over: byte, shape: Curve.Shape,
                    io: Io, more: Io)
    ensures Kept(initial, l.world, LevelTo(l, raw, withOnOff, ds, mask, over, shape, io, more).lamp.world)
  {
    hide Sound, Step, CoupledColor, Chosen;
    if raw != 255 {
      var c := CmdLevel(raw, withOnOff, 100 * ds, shape);
      SendTwiceKept(initial, l, c, io, Send(l, c, io).lamp.(coupled := false),
        CmdTemperature(CoupledColor(raw), 100 * ds, shape), more);
    }
  }

  /** A recall reaches the runtime as one scene command or not at all. */
  lemma RecallPartsWorld(l: Lamp, parts: seq<Part>, io: Io) returns (t: LightState, ms: nat)
    ensures var w := RecallParts(l, parts, io).lamp.world; w == l.world || w == RecallScene(l.world, t, ms, io).world
  {
    hide RecallScene, StageEntries;
    t, ms := l.world.target, 0;
    var begun := BeginScene(l);
    if begun.reply == Okay {
      PartsAreEntries(begun.lamp, parts);
      var staged := StageParts(begun.lamp, parts);
      if staged.reply == Okay { t, ms := staged.lamp.draft.value.target, staged.lamp.draft.value.durationMs; }
    }
  }

  /** Every step of the handler but the runtime's own tick acts on the runtime through at most two of its commands. */
  lemma LightStepKept(initial: Option<seq<byte>>, l: Lamp, c: LightCommand, more: Io, io: Io)
    requires !(c.LightRuntime? && c.command.CmdTick?)
    ensures Kept(initial, l.world, LightStep(l, c, more, io).world)
  {
    hide Kept, Power, LightModel.Tick, TimedOn, EffectOff, RecallGlobal, RecallParts, LevelTo, LevelMove, LevelStep,
      LevelStop,
      ColorTo, ColorMove, ColorStep, ColorHalt, RecallScene, Step;
    WorldKept(initial, l.world);
    match c
    case LightPower(on) => PowerKept(initial, l, on, more, io);
    case LightTick(ds) => TickKept(initial, l, ds, io);
    case LightTimedOn(acceptOnlyOn, onTime, offWait) =>
      TimedOnKept(initial, l, acceptOnlyOn, onTime, offWait, more, io);
    case LightOffEffect(effect) => EffectKept(initial, l, effect, io);
    case LightRecallGlobal => RecallGlobalKept(initial, l, io);
    case LightRecallParts(parts) =>
      var t, ms := RecallPartsWorld(l, parts, io);
      SceneKept(initial, l, t, ms, io);
    case LightLevelTo(raw, withOnOff, ds, mask, over) =>
      LevelToKept(initial, l, raw, withOnOff, ds, mask, over, Curve.Smooth, io, more);
    case LightLevelMove(up, rate, withOnOff, mask, over) =>
      LevelMoveKept(initial, l, up, rate, withOnOff, mask, over, io, more);
    case LightLevelStep(up, step, ds, withOnOff, mask, over) =>
      LevelStepKept(initial, l, up, step, ds, withOnOff, mask, over, io, more);
    case LightLevelStop(withOnOff, mask, over) => LevelStopKept(initial, l, withOnOff, mask, over, io, more);
    case LightColorTo(mireds, ds, mask, over) => ColorToKept(initial, l, mireds, ds, mask, over, io);
    case LightColorMove(mode, rate, least, most, mask, over) =>
      ColorMoveKept(initial, l, mode, rate, least, most, mask, over, io);
    case LightColorStep(up, step, ds, least, most, mask, over) =>
      ColorStepKept(initial, l, up, step, ds, least, most, mask, over, io);
    case LightColorHalt(mask, over) => ColorHaltKept(initial, l, mask, over, io);
    case LightWrite(_) =>
    case LightRuntime(command) => SendKept(initial, l, command, io);
  }

  lemma TickKept(initial: Option<seq<byte>>, l: Lamp, ds: Ticks, io: Io)
    ensures Kept(initial, l.world, LightModel.Tick(l, ds, io).world)
  {
    hide Kept, Power;
    WorldKept(initial, l.world);
    PowerKept(initial, l.(timers := l.timers.(onTime := SatSub(l.timers.onTime, ds))), false, io, io);
  }

  lemma TimedOnKept(initial: Option<seq<byte>>, l: Lamp, acceptOnlyOn: bool, onTime: Ticks, offWait: Ticks, raise: Io,
    io: Io)
    ensures Kept(initial, l.world, TimedOn(l, acceptOnlyOn, onTime, offWait, raise, io).lamp.world)
  {
    hide Kept, Power;
    WorldKept(initial, l.world);
    PowerKept(initial, l.(timers := l.timers.(onTime := Max(l.timers.onTime, onTime), offWait := offWait)), true,
      raise, io);
  }

  lemma LevelMoveKept(initial: Option<seq<byte>>, l: Lamp, up: bool, rate: Option<byte>, withOnOff: bool, mask: byte,
    over: byte, io: Io, more: Io)
    ensures Kept(initial, l.world, LevelMove(l, up, rate, withOnOff, mask, over, io, more).lamp.world)
  {
    hide Kept, LevelTo, MoveTime, Executes;
    WorldKept(initial, l.world);
    var speed: byte := if rate.Some? then rate.value else 254;
    if l.world.applied.Some? && speed != 0 {
      var end := MoveEnd(up, withOnOff);
      LevelToKept(initial, l, end, withOnOff, MoveTime(l.world.applied.value.state.level, end, speed), mask, over,
        Curve.Linear, io, more);
    }
  }

  lemma LevelStepKept(initial: Option<seq<byte>>, l: Lamp, up: bool, step: byte, ds: Ticks, withOnOff: bool,
    mask: byte, over: byte, io: Io, more: Io)
    ensures Kept(initial, l.world, LevelStep(l, up, step, ds, withOnOff, mask, over, io, more).lamp.world)
  {
    hide Kept, LevelTo, Executes;
    WorldKept(initial, l.world);
    if l.world.applied.Some? {
      LevelToKept(initial, l, StepEnd(l.world.applied.value.state.level, up, step, withOnOff), withOnOff, ds, mask,
        over, Curve.Smooth, io, more);
    }
  }

  lemma LevelStopKept(initial: Option<seq<byte>>, l: Lamp, withOnOff: bool, mask: byte, over: byte, io: Io, more: Io)
    ensures Kept(initial, l.world, LevelStop(l, withOnOff, mask, over, io, more).lamp.world)
  {
    hide Kept, Step, Executes;
    WorldKept(initial, l.world);
    SendTwiceKept(initial, l, CmdStopLevel, io, Send(l, CmdStopLevel, io).lamp.(coupled := false), CmdStopTemperature,
      more);
  }

  lemma EffectKept(initial: Option<seq<byte>>, l: Lamp, effect: OffEffect, io: Io)
    ensures Kept(initial, l.world, EffectOff(l, effect, io).lamp.world)
  {
    hide Sound, Runtime.OffWithEffect;
    SendKept(initial, l, CmdEffect(effect), io);
  }

  lemma SceneKept(initial: Option<seq<byte>>, l: Lamp, t: LightState, ms: nat, io: Io)
    ensures Kept(initial, l.world, RecallScene(l.world, t, ms, io).world)
  {
    hide Kept, RecallScene;
    SendKept(initial, l, CmdScene(t, ms), io);
  }

  lemma RecallGlobalKept(initial: Option<seq<byte>>, l: Lamp, io: Io)
    ensures Kept(initial, l.world, RecallGlobal(l, io).lamp.world)
  {
    hide Sound, RecallScene;
    SceneKept(initial, l, if l.globalState.Some? then l.globalState.value else l.world.target, 0, io);
  }

  lemma ColorToKept(initial: Option<seq<byte>>, l: Lamp, mireds: Ticks, ds: Ticks, mask: byte, over: byte, io: Io)
    ensures var d := ColorTo(l, mireds, ds, mask, over, io);
      Kept(initial, l.world, d.lamp.world) && SameLatch(l, d.lamp)
  {
    hide Sound, Step, Executes;
    SendKept(initial, l, CmdTemperature(ClampColor(mireds), 100 * ds, Curve.Smooth), io);
  }

  lemma ColorMoveKept(initial: Option<seq<byte>>, l: Lamp, mode: ColorMode, rate: Ticks, least: Ticks, most: Ticks,
    mask: byte, over: byte, io: Io)
    ensures var d := ColorMove(l, mode, rate, least, most, mask, over, io);
      Kept(initial, l.world, d.lamp.world) && SameLatch(l, d.lamp)
  {
    hide Kept, Step, Executes, DivCeil, ColorHalt, ColorBounds;
    var bounds := ColorBounds(least, most);
    WorldKept(initial, l.world);
    ColorHaltKept(initial, l, mask, over, io);
    if rate != 0 && bounds.Some? && l.world.applied.Some? {
      var from: int := l.world.applied.value.state.temperature;
      var to := if mode.ColorUp? then bounds.value.1 else bounds.value.0;
      SendKept(initial, l.(coupled := false), CmdTemperature(to, DivCeil(1000 * Abs(from - to), rate), Curve.Linear),
        io);
    }
  }

  lemma ColorStepKept(initial: Option<seq<byte>>, l: Lamp, up: bool, step: Ticks, ds: Ticks, least: Ticks,
    most: Ticks, mask: byte, over: byte, io: Io)
    ensures var d := ColorStep(l, up, step, ds, least, most, mask, over, io);
      Kept(initial, l.world, d.lamp.world) && SameLatch(l, d.lamp)
  {
    hide Kept, ColorTo, Executes;
    var bounds := ColorBounds(least, most);
    WorldKept(initial, l.world);
    if bounds.Some? && l.world.applied.Some? {
      var from: int := l.world.applied.value.state.temperature;
      var to := if up then from + step else from - step;
      ColorToKept(initial, l, Max(bounds.value.0, Min(to, bounds.value.1)), ds, mask, over, io);
    }
  }

  lemma ColorHaltKept(initial: Option<seq<byte>>, l: Lamp, mask: byte, over: byte, io: Io)
    ensures var d := ColorHalt(l, mask, over, io); Kept(initial, l.world, d.lamp.world) && SameLatch(l, d.lamp)
  {
    hide Sound, Step, Executes;
    SendKept(initial, l, CmdStopTemperature, io);
  }

  lemma WorldKept(initial: Option<seq<byte>>, w: World)
    ensures Kept(initial, w, w)
  {
  }

  predicate TimelyLight(now: nat, c: LightCommand) { c.LightRuntime? ==> Timely(now, c.command) }

  predicate TimelyActions(now: nat, actions: seq<LightAction>)
    decreases |actions|
  {
    actions != [] ==>
      var c := actions[0].command;
      TimelyLight(now, c) && TimelyActions(if c.LightRuntime? && c.command.CmdTick? then c.command.now else now,
        actions[1..])
  }

  /** All runs of the handler, from a boot onwards, keep the runtime's invariant and its whole-history promises. */
  lemma {:induction false} LightRunSound(initial: Option<seq<byte>>, l: Lamp, actions: seq<LightAction>)
    requires Sound(initial, l.world) && TimelyActions(l.world.now, actions)
    ensures Sound(initial, LightRun(l, actions).world)
    decreases |actions|
  {
    hide Sound, LightStep;
    if actions != [] {
      var a := actions[0];
      LightStepSound(initial, l, a.command, a.more, a.io);
      LightRunSound(initial, LightStep(l, a.command, a.more, a.io), actions[1..]);
    }
  }

  lemma RuntimeStep(l: Lamp, command: Direct, more: Io, io: Io)
    ensures LightStep(l, LightRuntime(command), more, io).world == Step(l.world, command, io).world
  {
    hide Step;
  }

  lemma LightStepSound(initial: Option<seq<byte>>, l: Lamp, c: LightCommand, more: Io, io: Io)
    requires Sound(initial, l.world) && TimelyLight(l.world.now, c)
    ensures var v := LightStep(l, c, more, io).world;
      Sound(initial, v) && v.now == if c.LightRuntime? && c.command.CmdTick? then c.command.now else l.world.now
  {
    if c.LightRuntime? && c.command.CmdTick? {
      hide Inv, Step, TraceSays, WroteAhead, LightStep;
      RuntimeStep(l, c.command, more, io);
      StepInv(l.world, c.command, io);
      StepTraced(initial, l.world, c.command, io);
    } else {
      hide Sound, LightStep;
      LightStepKept(initial, l, c, more, io);
    }
  }
}
