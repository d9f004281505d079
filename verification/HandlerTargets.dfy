/**
 * What the handler's commands ask for: option bits, levels, colours, rates, timers and scene values, in plain
 * numbers.
 */
module HandlerTargets {
  import opened Basics
  import opened Light
  import opened Record
  import Curve
  import Runtime = RuntimeModel
  import opened RuntimeModel
  import opened RuntimeInvariant
  import opened Commands
  import opened TimedOff
  import opened Scenes
  import opened LightModel

  // ----- option bits and whether a command applies

  /** A command's override decides where its mask is set, the lamp's own option where it is not; bit by bit. */
  lemma ChosenBits(options: byte, mask: byte, over: byte)
    ensures Chosen(options, mask, over, EXECUTE_IF_OFF) <==> (if mask % 2 == 1 then over % 2 == 1 else options % 2 == 1)
    ensures Chosen(options, mask, over, COUPLE_COLOR) <==>
      (if mask / 2 % 2 == 1 then over / 2 % 2 == 1 else options / 2 % 2 == 1)
  {
  }

  /** A command without On/Off passes an Off light by unless the first option bit lets it through. */
  predicate PassesBy(l: Lamp, options: byte, mask: byte, over: byte)
  {
    && Reported(l.world).Some? && !l.world.target.on
    && !(if mask % 2 == 1 then over % 2 == 1 else options % 2 == 1)
  }

  lemma ExecutesMeaning(l: Lamp, always: bool, options: byte, mask: byte, over: byte)
    ensures var e := Executes(l, always, options, mask, over);
      && (e.None? <==> !always && Reported(l.world).None?)
      && (e == Some(false) <==> !always && PassesBy(l, options, mask, over))
  {
  }

  // ----- levels

  /** What a level command without On/Off answers on a light it passes by: Okay, and nothing has changed. */
  lemma LevelPassesBy(l: Lamp, raw: byte, ds: Ticks, mask: byte, over: byte, shape: Curve.Shape, io: Io, more: Io)
    requires raw != 255 && PassesBy(l, l.levelOptions, mask, over)
    ensures LevelTo(l, raw, false, ds, mask, over, shape, io, more) == LampDone(l, Okay)
  {
    hide Step;
  }

  /** A level command that applies and couples no colour is one runtime command, of its own duration. */
  lemma LevelToSends(l: Lamp, raw: byte, withOnOff: bool, ds: Ticks, mask: byte, over: byte, shape: Curve.Shape,
    io: Io, more: Io)
    requires raw != 255 && Executes(l, withOnOff, l.levelOptions, mask, over) == Some(true)
    requires !(if mask / 2 % 2 == 1 then over / 2 % 2 == 1 else l.levelOptions / 2 % 2 == 1)
    ensures var d := LevelTo(l, raw, withOnOff, ds, mask, over, shape, io, more);
      var s := Step(l.world, CmdLevel(raw, withOnOff, 100 * ds, shape), io);
      d.lamp.world == s.world && d.reply == s.reply
  {
    hide Step, Executes;
  }

  /** Coupling adds one colour command of the same duration and kind, once the level has been accepted. */
  lemma LevelToCouples(l: Lamp, raw: byte, withOnOff: bool, ds: Ticks, mask: byte, over: byte, shape: Curve.Shape,
    io: Io, more: Io)
    requires raw != 255 && Executes(l, withOnOff, l.levelOptions, mask, over) == Some(true)
    requires if mask / 2 % 2 == 1 then over / 2 % 2 == 1 else l.levelOptions / 2 % 2 == 1
    ensures var d := LevelTo(l, raw, withOnOff, ds, mask, over, shape, io, more);
      var s := Step(l.world, CmdLevel(raw, withOnOff, 100 * ds, shape), io);
      if s.reply != Okay then d.lamp.world == s.world && d.reply == s.reply
      else var s2 := Step(s.world, CmdTemperature(CoupledColor(raw), 100 * ds, shape), more);
        d.lamp.world == s2.world && d.reply == s2.reply
  {
    hide Step, Executes, CoupledColor;
  }

  /** The coupled colour is the proportional one, rounded towards warm. */
  lemma CoupledColorExact(raw: byte)
    requires 1 <= raw < 255
    ensures 253 * (344 - CoupledColor(raw)) <= 201 * (raw - 1) < 253 * (344 - CoupledColor(raw)) + 253
  {
  }

  /**
   * A step leads from the level shown, up or down by its size, within 254 above and, below, within 1 or, with On/Off,
   * into Off.
   */
  lemma StepEndMeaning(from: Level, step: byte, withOnOff: bool)
    ensures StepEnd(from, true, step, withOnOff) == (if from + step > 254 then 254 else from + step)
    ensures from > step ==> StepEnd(from, false, step, withOnOff) == from - step
    ensures from <= step ==> StepEnd(from, false, step, withOnOff) == (if withOnOff then 0 else 1)
  {
  }

  /** So it makes of the durable target: the stepped level, with On/Off the light On exactly above level 1. */
  lemma LevelStepOutcome(l: Lamp, up: bool, step: byte, ds: Ticks, withOnOff: bool, mask: byte, over: byte, io: Io,
    more: Io)
    requires Inv(l.world) && LevelStep(l, up, step, ds, withOnOff, mask, over, io, more).reply == Okay
    requires withOnOff || !PassesBy(l, l.levelOptions, mask, over)
    ensures l.world.applied.Some?
    ensures var shown := l.world.applied.value.state.level;
      var t := LevelStep(l, up, step, ds, withOnOff, mask, over, io, more).lamp.world.target;
      && t.level == (if up then Min(shown + step, 254) else Max(shown - step, 1))
      && t.on == (if withOnOff then (if up then shown + step > 1 else shown - step > 1) else l.world.target.on)
  {
    hide LevelTo, Executes, Inv, PassesBy;
    ExecutesMeaning(l, withOnOff, l.levelOptions, mask, over);
    var end := StepEnd(l.world.applied.value.state.level, up, step, withOnOff);
    LevelWishes(l, end, withOnOff, ds, mask, over, Curve.Smooth, io, more);
  }

  /** The power and level a level command answered Okay leaves. */
  lemma LevelWishes(l: Lamp, raw: byte, withOnOff: bool, ds: Ticks, mask: byte, over: byte, shape: Curve.Shape,
    io: Io, more: Io)
    requires Inv(l.world) && raw != 255 && Executes(l, withOnOff, l.levelOptions, mask, over) == Some(true)
    requires LevelTo(l, raw, withOnOff, ds, mask, over, shape, io, more).reply == Okay
    ensures var t := LevelTo(l, raw, withOnOff, ds, mask, over, shape, io, more).lamp.world.target;
      t.level == Max(raw, 1) && t.on == (if withOnOff then raw > 1 else l.world.target.on)
  {
    hide Step, Inv, CoupledColor, Executes, Chosen;
    var c := CmdLevel(raw, withOnOff, 100 * ds, shape);
    SetterOutcome(l.world, c, io);
    StepInv(l.world, c, io);
    SetterOutcome(Step(l.world, c, io).world, CmdTemperature(CoupledColor(raw), 100 * ds, shape), more);
  }

  /**
   * A move is a straight level command to the end of the scale, of the least whole number of tenths at which it is no
   * faster than its rate, or than 254 levels a second if it names none.
   */
  lemma LevelMoveSends(l: Lamp, up: bool, rate: Option<byte>, withOnOff: bool, mask: byte, over: byte, io: Io, more: Io)
    returns (end: byte, ds: Ticks)
    requires l.world.applied.Some? && Executes(l, withOnOff, l.levelOptions, mask, over) == Some(true)
      && rate != Some(0)
    ensures end == (if up then 254 else if withOnOff then 0 else 1)
    ensures var speed := if rate.Some? then rate.value else 254;
      var way := 10 * Abs(l.world.applied.value.state.level - end);
      way <= ds * speed < way + speed
    ensures LevelMove(l, up, rate, withOnOff, mask, over, io, more) ==
      LevelTo(l, end, withOnOff, ds, mask, over, Curve.Linear, io, more)
  {
    hide LevelTo, Executes;
    var speed: byte := if rate.Some? then rate.value else 254;
    end := MoveEnd(up, withOnOff);
    ds := MoveTime(l.world.applied.value.state.level, end, speed);
  }

  /** A move at rate zero is refused. */
  lemma StillMoveRefused(l: Lamp, up: bool, withOnOff: bool, mask: byte, over: byte, io: Io, more: Io)
    requires Executes(l, withOnOff, l.levelOptions, mask, over) == Some(true)
    ensures LevelMove(l, up, Some(0), withOnOff, mask, over, io, more) == LampDone(l, InvalidCommand)
  {
    hide Executes, LevelTo;
  }

  // ----- colours

  /** The least and most colour a command leaves a move or step, zero standing for the lamp's own limits. */
  lemma ColorBoundsMeaning(least: Ticks, most: Ticks)
    ensures var lo, hi := if least < 143 then 143 else least, if most == 0 || most > 344 then 344 else most;
      ColorBounds(least, most) == if lo > hi then None else Some((lo, hi))
  {
  }

  /** A colour command answered Okay on a light that is not passed by is one runtime command, and ends any coupling. */
  lemma ColorToSends(l: Lamp, mireds: Ticks, ds: Ticks, mask: byte, over: byte, io: Io)
    requires Executes(l, false, l.colorOptions, mask, over) == Some(true)
    ensures var d := ColorTo(l, mireds, ds, mask, over, io);
      if mireds == 0 || mireds > 65279 then d == LampDone(l, ConstraintError)
      else
        var to := if mireds < 143 then 143 else if mireds > 344 then 344 else mireds;
        var s := Step(l.world, CmdTemperature(to, 100 * ds, Curve.Smooth), io);
        d.lamp.world == s.world && d.reply == s.reply && !d.lamp.coupled
  {
    hide Step, Executes;
  }

  /**
   * A colour move is a straight colour command: up to the most or down to the least mireds allowed, in the least whole
   * number of milliseconds at which it is no faster than its rate.
   */
  lemma ColorMoveSends(l: Lamp, up: bool, rate: Ticks, least: Ticks, most: Ticks, mask: byte, over: byte, io: Io)
    returns (to: Temperature, ms: nat)
    requires Executes(l, false, l.colorOptions, mask, over) == Some(true) && l.world.applied.Some? && rate > 0
    requires var lo, hi := if least < 143 then 143 else least, if most == 0 || most > 344 then 344 else most; lo <= hi
    ensures to == (if up then if most == 0 || most > 344 then 344 else most else if least < 143 then 143 else least)
    ensures var way := 1000 * Abs(l.world.applied.value.state.temperature - to); way <= ms * rate < way + rate
    ensures var d := ColorMove(l, if up then ColorUp else ColorDown, rate, least, most, mask, over, io);
      var s := Step(l.world, CmdTemperature(to, ms, Curve.Linear), io);
      d.lamp.world == s.world && d.reply == s.reply && !d.lamp.coupled
  {
    hide Step, Executes, ColorBounds;
    ColorBoundsMeaning(least, most);
    var from: int := l.world.applied.value.state.temperature;
    to := if up then ColorBounds(least, most).value.1 else ColorBounds(least, most).value.0;
    ms := DivCeil(1000 * Abs(from - to), rate);
  }

  /** A colour step is an eased colour command from the colour shown, up or down by its size, within the bounds. */
  lemma ColorStepSends(l: Lamp, up: bool, step: Ticks, ds: Ticks, least: Ticks, most: Ticks, mask: byte, over: byte,
    io: Io)
    returns (to: Temperature)
    requires Executes(l, false, l.colorOptions, mask, over) == Some(true) && l.world.applied.Some?
    requires var lo, hi := if least < 143 then 143 else least, if most == 0 || most > 344 then 344 else most; lo <= hi
    ensures var lo, hi := if least < 143 then 143 else least, if most == 0 || most > 344 then 344 else most;
      var from: int := l.world.applied.value.state.temperature;
      to == if up then (if from + step > hi then hi else if from + step < lo then lo else from + step)
            else if from - step < lo then lo else if from - step > hi then hi else from - step
    ensures var d := ColorStep(l, up, step, ds, least, most, mask, over, io);
      var s := Step(l.world, CmdTemperature(to, 100 * ds, Curve.Smooth), io);
      d.lamp.world == s.world && d.reply == s.reply && !d.lamp.coupled
  {
    hide Step, Executes, ColorBounds, ColorTo;
    ColorBoundsMeaning(least, most);
    var bounds := ColorBounds(least, most).value;
    var from: int := l.world.applied.value.state.temperature;
    to := Max(bounds.0, Min(if up then from + step else from - step, bounds.1));
    ColorToSends(l, to, ds, mask, over, io);
  }

  /** Bounds that leave nothing are refused. */
  lemma EmptyBoundsRefused(l: Lamp, up: bool, rate: Ticks, least: Ticks, most: Ticks, mask: byte, over: byte, io: Io)
    requires Executes(l, false, l.colorOptions, mask, over) == Some(true) && rate > 0
    requires var lo, hi := if least < 143 then 143 else least, if most == 0 || most > 344 then 344 else most; lo > hi
    ensures ColorMove(l, if up then ColorUp else ColorDown, rate, least, most, mask, over, io) ==
      LampDone(l, ConstraintError)
  {
    hide Step, Executes;
  }

  // ----- power, timers and scenes

  /** On answered Okay makes the target On, at the `OnLevel` if there is one and the light was not reported On. */
  lemma PowerOnOutcome(l: Lamp, raise: Io, io: Io)
    requires Inv(l.world) && Power(l, true, raise, io).reply == Okay
    ensures var t := Power(l, true, raise, io).lamp.world.target;
      var off := Reported(l.world).None? || !l.world.target.on;
      && t.on && t.temperature == l.world.target.temperature
      && t.level == if l.onLevel.Some? && off then Max(l.onLevel.value, 1) else l.world.target.level
  {
    hide Step, Inv, SetPower, MoveLevel;
    if Raises(l) {
      var c := CmdLevel(l.onLevel.value, true, 0, Curve.Smooth);
      SetterOutcome(l.world, c, raise);
      StepInv(l.world, c, raise);
      SendsLevel(l.world, l.onLevel.value, raise);
      SetterOutcome(Step(l.world, c, raise).world, CmdPower(true), io);
      SendsPower(Step(l.world, c, raise).world, true, io);
    } else {
      SetterOutcome(l.world, CmdPower(true), io);
      SendsPower(l.world, true, io);
    }
  }

  lemma SendsLevel(w: World, level: byte, io: Io)
    ensures Step(w, CmdLevel(level, true, 0, Curve.Smooth), io) == MoveLevel(w, level, true, 0, Curve.Smooth, io)
  {
    hide MoveLevel;
  }

  lemma SendsPower(w: World, on: bool, io: Io)
    ensures Step(w, CmdPower(on), io) == SetPower(w, on, io)
  {
    hide SetPower;
  }

  /**
   * Timed On: the endless value is refused; a light that is Off is left alone if only lights that are On may accept;
   * otherwise the longer on-time counts, and the guard is kept for it unless there is no on-time at all.
   */
  lemma TimedOnTimers(l: Lamp, acceptOnlyOn: bool, onTime: Ticks, offWait: Ticks, raise: Io, io: Io)
    ensures var d := TimedOn(l, acceptOnlyOn, onTime, offWait, raise, io);
      && (onTime == 65535 || offWait == 65535 ==> d == LampDone(l, ConstraintError))
      && (onTime < 65535 && offWait < 65535 && Reported(l.world).Some? ==>
            if !l.world.target.on && acceptOnlyOn then d == LampDone(l, Okay)
            else if !l.world.target.on && l.timers.offWait > 0 then
              d.reply == Okay && d.lamp.world == l.world && d.lamp.timers.offWait == Min(l.timers.offWait, offWait)
            else
              && d.lamp.timers.onTime == Max(l.timers.onTime, onTime)
              && d.lamp.timers.offWait == (if Max(l.timers.onTime, onTime) == 0 then 0 else offWait)
              && (l.timers.onTime < 65535 ==> d.lamp.timers.timed))
  {
    hide SetPower, MoveLevel;
  }

  /** An endless on-time never counts: an On leaves no timer running, and time then changes nothing. */
  lemma EndlessOn(l: Lamp, raise: Io, io: Io, ds: Ticks, expiry: Io)
    requires l.timers.onTime == 65535
    ensures var r := Power(l, true, raise, io).lamp; !r.timers.timed && LightModel.Tick(r, ds, expiry) == r
  {
    hide SetPower, MoveLevel;
  }

  /** Off, an off effect and a scene end a coupled move; an off effect starts the guard as an Off does. */
  lemma CouplingEnds(l: Lamp, effect: OffEffect, raise: Io, io: Io)
    ensures !Power(l, false, raise, io).lamp.coupled
    ensures EffectOff(l, effect, io).reply == Okay ==>
      !EffectOff(l, effect, io).lamp.coupled
        && EffectOff(l, effect, io).lamp.timers == Power(l, false, raise, io).lamp.timers
    ensures l.draft.Some? ==> !FinishScene(l, io).lamp.coupled && FinishScene(l, io).lamp.timers == Timers(0, 0, false)
  {
    hide SetPower, Runtime.OffWithEffect, RecallScene;
  }

  /** The global scene comes back over the default 400 milliseconds, as one scene command. */
  lemma RecallGlobalSends(l: Lamp, io: Io)
    requires !l.globalScene && l.globalState.Some?
    ensures var d := RecallGlobal(l, io); var s := Step(l.world, CmdScene(l.globalState.value, 0), io);
      && d.lamp.world == s.world && d.reply == s.reply
      && d.lamp.timers.onTime == l.timers.onTime
      && (d.reply == Okay && l.timers.onTime == 0 ==> d.lamp.timers.offWait == 0)
      && (d.reply != Okay || l.timers.onTime > 0 ==> d.lamp.timers == l.timers)
  {
    hide RecallScene;
  }

  /**
   * What the attributes of a recalled scene mean: cluster 6 attribute 0 is the power, cluster 8 attribute 0 the level,
   * cluster 0x300 attribute 7 the colour; attribute 0x4001 must name the colour temperature mode; nothing else is
   * known.
   */
  lemma RecallShowsValues(l: Lamp, parts: seq<Part>, io: Io, e: Entry)
    requires Inv(l.world) && Committable(l, parts) && e in AllEntries(parts)
    ensures var t := RecallParts(l, parts, io).lamp.world.target;
      if e.cluster == 6 && e.pair.id == 0 then e.pair.unsigned8 == Some(if t.on then 1 else 0)
      else if e.cluster == 8 && e.pair.id == 0 then e.pair.unsigned8 == Some(t.level)
      else if e.cluster == 768 && e.pair.id == 7 then e.pair.unsigned16 == Some(t.temperature)
      else e.cluster == 768 && e.pair.id == 16385 && e.pair.unsigned8 == Some(2)
  {
    hide RecallParts, Inv;
    RecallIsAtomic(l, parts, io);
    assert e in multiset(AllEntries(parts));
    assert Legitimate(e);
    assert Shows(RecallParts(l, parts, io).lamp.world.target, e);
  }

  /** On lets a running on-time run on, with its guard; without one there is neither. */
  lemma PowerOnTimers(l: Lamp, raise: Io, io: Io)
    ensures var t := Power(l, true, raise, io).lamp.timers;
      && t.onTime == l.timers.onTime
      && (l.timers.onTime == 0 ==> t == Timers(0, 0, false))
      && (l.timers.onTime > 0 ==> t.offWait == l.timers.offWait)
      && (0 < l.timers.onTime < 65535 ==> (t.timed <==> l.timers.offWait < 65535))
  {
    hide SetPower, MoveLevel;
  }

  /** One recall at a time; and none on a light that cannot be reported. */
  lemma RecallRefused(l: Lamp, parts: seq<Part>, io: Io)
    ensures l.draft.Some? ==> RecallParts(l, parts, io) == LampDone(l, Busy)
    ensures l.draft.None? && Reported(l.world).None? ==> RecallParts(l, parts, io) == LampDone(l, InvalidState)
  {
  }

  /** What may be written to an attribute, and that a write sets that attribute and nothing else. */
  lemma WriteMeaning(l: Lamp, a: Attribute)
    ensures var d := Write(l, a);
      match a
      case OnLevel(x) =>
        if x.None? || 1 <= x.value <= 254 then d == LampDone(l.(onLevel := x), Okay)
          else d == LampDone(l, ConstraintError)
      case OnTime(x) => d == LampDone(l.(timers := Timers(x, l.timers.offWait, l.timers.timed)), Okay)
      case OffWaitTime(x) => d == LampDone(l.(timers := Timers(l.timers.onTime, x, l.timers.timed)), Okay)
      case LevelOptions(x) =>
        if x <= 3 then d == LampDone(l.(levelOptions := x), Okay) else d == LampDone(l, ConstraintError)
      case ColorOptions(x) =>
        if x <= 1 then d == LampDone(l.(colorOptions := x), Okay) else d == LampDone(l, ConstraintError)
  {
  }
}
