/** The Matter-facing light as an object over the runtime object, proved against LightModel. */
module LightObjects {
  import opened Basics
  import opened Light
  import opened Curve
  import opened RuntimeModel
  import opened RuntimeObjects
  import Model = LightModel
  import opened LightModel

  class LightHandler {
    const runtime: Runtime
    var onLevel: Option<byte>
    var levelOptions: byte
    var colorOptions: byte
    var onTime: Ticks
    var offWait: Ticks
    var timed: bool
    var globalScene: bool
    var globalSceneState: Option<LightState>
    var sceneDraft: Option<SceneDraft>
    var coupledTemperature: bool

    ghost function View(): Lamp
      reads this, runtime, runtime.kv, runtime.controller
    {
      Lamp(runtime.View(), Timers(onTime, offWait, timed), onLevel, levelOptions, colorOptions, globalScene,
           globalSceneState, sceneDraft, coupledTemperature)
    }

    ghost predicate Valid()
      reads this, runtime, runtime.kv, runtime.controller, runtime.hardware, runtime.hardware.bus
    {
      runtime.Valid()
    }

    constructor (runtime: Runtime)
      requires runtime.Valid()
      ensures Valid() && this.runtime == runtime
      ensures View() == Lamp(runtime.View(), NO_TIMERS, None, 0, 0, true, None, None, false)
    {
      this.runtime := runtime;
      onLevel, levelOptions, colorOptions, onTime, offWait, timed := None, 0, 0, 0, 0, false;
      globalScene, globalSceneState, sceneDraft, coupledTemperature := true, None, None, false;
    }

    // ----- writable attributes

    method SetOnLevel(value: Option<byte>) returns (reply: Reply)
      requires Valid()
      modifies this`onLevel
      ensures Valid()
      ensures var d := Write(old(View()), OnLevel(value)); View() == d.lamp && reply == d.reply
    {
      if value == Some(0) || value == Some(255) { return ConstraintError; }
      onLevel := value;
      reply := Okay;
    }

    method SetOnTime(value: Ticks)
      requires Valid()
      modifies this`onTime
      ensures Valid() && View() == Write(old(View()), OnTime(value)).lamp
    {
      onTime := value;
    }

    method SetOffWaitTime(value: Ticks)
      requires Valid()
      modifies this`offWait
      ensures Valid() && View() == Write(old(View()), OffWaitTime(value)).lamp
    {
      offWait := value;
    }

    method SetLevelOptions(value: byte) returns (reply: Reply)
      requires Valid()
      modifies this`levelOptions
      ensures Valid()
      ensures var d := Write(old(View()), LevelOptions(value)); View() == d.lamp && reply == d.reply
    {
      if value / 4 != 0 { return ConstraintError; }
      levelOptions := value;
      reply := Okay;
    }

    method SetColorOptions(value: byte) returns (reply: Reply)
      requires Valid()
      modifies this`colorOptions
      ensures Valid()
      ensures var d := Write(old(View()), ColorOptions(value)); View() == d.lamp && reply == d.reply
    {
      if value / 2 != 0 { return ConstraintError; }
      colorOptions := value;
      reply := Okay;
    }

    // ----- power, timers

    method Power(on: bool) returns (reply: Reply, ghost raise: Io, ghost io: Io)
      requires Valid()
      modifies this, runtime`state, runtime`trace, runtime.kv, runtime.controller, runtime.hardware,
        runtime.hardware.bus
      ensures Valid()
      ensures var d := Model.Power(old(View()), on, raise, io); View() == d.lamp && reply == d.reply
    {
      hide Runtime.Valid, MoveLevel, SetPower;
      raise, io := ALL_WELL, ALL_WELL;
      if on {
        globalScene := true;
        if onTime == 0 { offWait := 0; }
        timed := onTime > 0 && onTime != FOREVER && offWait != FOREVER;
        var reported := runtime.ReportedState();
        if onLevel.Some? && !(reported.Some? && reported.value.on) {
          reply, raise := runtime.MoveLevel(onLevel.value, true, 0, Smooth);
          if reply != Okay { return; }
        }
      } else {
        coupledTemperature := false;
        onTime := 0;
        timed := offWait > 0 && offWait != FOREVER;
      }
      reply, io := runtime.SetPower(on);
    }

    method Tick(deciseconds: Ticks) returns (ghost io: Io)
      requires Valid()
      modifies this, runtime`state, runtime`trace, runtime.kv, runtime.controller, runtime.hardware,
        runtime.hardware.bus
      ensures Valid()
      ensures View() == Model.Tick(old(View()), deciseconds, io)
    {
      hide Runtime.Valid, MoveLevel, SetPower;
      io := ALL_WELL;
      if !timed { return; }
      if runtime.state.target.on {
        onTime := SatSub(onTime, deciseconds);
        if onTime == 0 {
          var reply;
          ghost var raise;
          reply, raise, io := Power(false);
          // An expiry leaves no guard behind, unlike an Off before its time.
          offWait, timed := 0, false;
        }
      } else {
        onTime := 0;
        offWait := SatSub(offWait, deciseconds);
        if offWait == 0 { timed := false; }
      }
    }

    method TimedOn(acceptOnlyOn: bool, time: Ticks, wait: Ticks) returns (reply: Reply, ghost raise: Io, ghost io: Io)
      requires Valid()
      modifies this, runtime`state, runtime`trace, runtime.kv, runtime.controller, runtime.hardware,
        runtime.hardware.bus
      ensures Valid()
      ensures var d := Model.TimedOn(old(View()), acceptOnlyOn, time, wait, raise, io);
        View() == d.lamp && reply == d.reply
    {
      hide Runtime.Valid, MoveLevel, SetPower, Model.Power;
      raise, io := ALL_WELL, ALL_WELL;
      if time == FOREVER || wait == FOREVER { return ConstraintError, raise, io; }
      var reported := runtime.ReportedState();
      if reported.None? { return InvalidState, raise, io; }
      var on := reported.value.on;
      if acceptOnlyOn && !on { return Okay, raise, io; }
      if offWait > 0 && !on {
        offWait := Min(offWait, wait);
        timed := offWait > 0 && offWait != FOREVER;
        return Okay, raise, io;
      }
      onTime := Max(onTime, time);
      offWait := wait;
      reply, raise, io := Power(true);
      timed := onTime != FOREVER && offWait != FOREVER;
    }

    // ----- the global scene

    method OffWithEffect(effect: OffEffect) returns (reply: Reply, ghost io: Io)
      requires Valid()
      modifies this, runtime`state, runtime`trace, runtime.kv, runtime.controller, runtime.hardware,
        runtime.hardware.bus
      ensures Valid()
      ensures var d := EffectOff(old(View()), effect, io); View() == d.lamp && reply == d.reply
    {
      hide Runtime.Valid, RuntimeModel.OffWithEffect;
      io := ALL_WELL;
      if globalScene {
        var reported := runtime.ReportedState();
        if reported.None? { return InvalidState, io; }
        globalSceneState := reported;
        globalScene := false;
      }
      coupledTemperature := false;
      onTime := 0;
      timed := offWait > 0 && offWait != FOREVER;
      reply, io := runtime.OffWithEffect(effect);
    }

    method RecallGlobalScene() returns (reply: Reply, ghost io: Io)
      requires Valid()
      modifies this, runtime`state, runtime`trace, runtime.kv, runtime.controller, runtime.hardware,
        runtime.hardware.bus
      ensures Valid()
      ensures var d := RecallGlobal(old(View()), io); View() == d.lamp && reply == d.reply
    {
      hide Runtime.Valid, RuntimeModel.RecallScene;
      io := ALL_WELL;
      if globalScene { return Okay, io; }
      if globalSceneState.None? { return InvalidState, io; }
      reply, io := runtime.RecallScene(globalSceneState.value, 0);
      if reply != Okay { return; }
      globalScene := true;
      if onTime == 0 { offWait := 0; }
    }

    // ----- level and colour commands

    method Executes(always: bool, options: byte, mask: byte, over: byte) returns (r: Option<bool>)
      requires Valid()
      ensures r == Model.Executes(View(), always, options, mask, over)
    {
      if always { return Some(true); }
      var reported := runtime.ReportedState();
      if reported.None? { return None; }
      r := Some(reported.value.on || Chosen(options, mask, over, EXECUTE_IF_OFF));
    }

    method LevelTo(raw: byte, withOnOff: bool, ds: Ticks, mask: byte, over: byte, shape: Shape)
      returns (reply: Reply, ghost io: Io, ghost more: Io)
      requires Valid()
      modifies this, runtime`state, runtime`trace, runtime.kv, runtime.controller, runtime.hardware,
        runtime.hardware.bus
      ensures Valid()
      ensures var d := Model.LevelTo(old(View()), raw, withOnOff, ds, mask, over, shape, io, more);
        View() == d.lamp && reply == d.reply
    {
      hide Runtime.Valid, Model.Executes, MoveLevel, MoveTemperature, CoupledColor, Chosen, Blocked;
      io, more := ALL_WELL, ALL_WELL;
      if raw == 255 { return ConstraintError, io, more; }
      var executes := Executes(withOnOff, levelOptions, mask, over);
      if executes.None? { return InvalidState, io, more; }
      if !executes.value { return Okay, io, more; }
      reply, io := runtime.MoveLevel(raw, withOnOff, 100 * ds, shape);
      if reply != Okay { return; }
      coupledTemperature := false;
      if Chosen(levelOptions, mask, over, COUPLE_COLOR) {
        reply, more := runtime.MoveTemperature(CoupledColor(raw), 100 * ds, shape);
        if reply != Okay { return; }
        coupledTemperature := true;
      }
      if withOnOff && raw > 1 { globalScene := true; }
    }

    method LevelMove(up: bool, rate: Option<byte>, withOnOff: bool, mask: byte, over: byte)
      returns (reply: Reply, ghost io: Io, ghost more: Io)
      requires Valid()
      modifies this, runtime`state, runtime`trace, runtime.kv, runtime.controller, runtime.hardware,
        runtime.hardware.bus
      ensures Valid()
      ensures var d := Model.LevelMove(old(View()), up, rate, withOnOff, mask, over, io, more);
        View() == d.lamp && reply == d.reply
    {
      hide Runtime.Valid, Model.Executes, Model.LevelTo, MoveTime;
      io, more := ALL_WELL, ALL_WELL;
      var executes := Executes(withOnOff, levelOptions, mask, over);
      if executes.None? { return InvalidState, io, more; }
      if !executes.value { return Okay, io, more; }
      var speed: byte := if rate.Some? then rate.value else 254;
      if speed == 0 { return InvalidCommand, io, more; }
      var applied := runtime.controller.applied;
      if applied.None? { return InvalidState, io, more; }
      var end: byte := if up then 254 else if withOnOff then 0 else 1;
      reply, io, more := LevelTo(end, withOnOff, MoveTime(applied.value.state.level, end, speed), mask, over, Linear);
    }

    method LevelStep(up: bool, step: byte, ds: Ticks, withOnOff: bool, mask: byte, over: byte)
      returns (reply: Reply, ghost io: Io, ghost more: Io)
      requires Valid()
      modifies this, runtime`state, runtime`trace, runtime.kv, runtime.controller, runtime.hardware,
        runtime.hardware.bus
      ensures Valid()
      ensures var d := Model.LevelStep(old(View()), up, step, ds, withOnOff, mask, over, io, more);
        View() == d.lamp && reply == d.reply
    {
      hide Runtime.Valid, Model.Executes, Model.LevelTo;
      io, more := ALL_WELL, ALL_WELL;
      var executes := Executes(withOnOff, levelOptions, mask, over);
      if executes.None? { return InvalidState, io, more; }
      if !executes.value { return Okay, io, more; }
      var applied := runtime.controller.applied;
      if applied.None? { return InvalidState, io, more; }
      var current := applied.value.state.level;
      var end: byte := if up then Min(current + step, 254) else Max(current - step, if withOnOff then 0 else 1);
      reply, io, more := LevelTo(end, withOnOff, ds, mask, over, Smooth);
    }

    method LevelStop(withOnOff: bool, mask: byte, over: byte) returns (reply: Reply, ghost io: Io, ghost more: Io)
      requires Valid()
      modifies this, runtime`state, runtime`trace, runtime.kv, runtime.controller, runtime.hardware,
        runtime.hardware.bus
      ensures Valid()
      ensures var d := Model.LevelStop(old(View()), withOnOff, mask, over, io, more);
        View() == d.lamp && reply == d.reply
    {
      hide Runtime.Valid, Model.Executes, StopLevel, StopTemperature;
      io, more := ALL_WELL, ALL_WELL;
      var track := runtime.state.levelTransition;
      var remaining := if track.Some? then track.value.Remaining(runtime.now) else 0;
      var executes := Executes(withOnOff || remaining != 0, levelOptions, mask, over);
      if executes.None? { return InvalidState, io, more; }
      if !executes.value { return Okay, io, more; }
      reply, io := runtime.StopLevel();
      if reply != Okay || !coupledTemperature { return; }
      coupledTemperature := false;
      reply, more := runtime.StopTemperature();
    }

    method ColorTo(mireds: Ticks, ds: Ticks, mask: byte, over: byte) returns (reply: Reply, ghost io: Io)
      requires Valid()
      modifies this, runtime`state, runtime`trace, runtime.kv, runtime.controller, runtime.hardware,
        runtime.hardware.bus
      ensures Valid()
      ensures var d := Model.ColorTo(old(View()), mireds, ds, mask, over, io); View() == d.lamp && reply == d.reply
    {
      hide Runtime.Valid, Model.Executes, MoveTemperature;
      io := ALL_WELL;
      if mireds == 0 || mireds > 0xfeff { return ConstraintError, io; }
      var executes := Executes(false, colorOptions, mask, over);
      if executes.None? { return InvalidState, io; }
      if !executes.value { return Okay, io; }
      coupledTemperature := false;
      reply, io := runtime.MoveTemperature(ClampColor(mireds), 100 * ds, Smooth);
    }

    method ColorMove(mode: ColorMode, rate: Ticks, least: Ticks, most: Ticks, mask: byte, over: byte)
      returns (reply: Reply, ghost io: Io)
      requires Valid()
      modifies this, runtime`state, runtime`trace, runtime.kv, runtime.controller, runtime.hardware,
        runtime.hardware.bus
      ensures Valid()
      ensures var d := Model.ColorMove(old(View()), mode, rate, least, most, mask, over, io);
        View() == d.lamp && reply == d.reply
    {
      hide Runtime.Valid, Model.Executes, MoveTemperature, Model.ColorHalt, DivCeil;
      io := ALL_WELL;
      if mode.ColorStop? {
        reply, io := ColorHalt(mask, over);
        return;
      }
      if rate == 0 { return InvalidCommand, io; }
      var executes := Executes(false, colorOptions, mask, over);
      if executes.None? { return InvalidState, io; }
      if !executes.value { return Okay, io; }
      var bounds := ColorBounds(least, most);
      if bounds.None? { return ConstraintError, io; }
      var (lo, hi) := bounds.value;
      var applied := runtime.controller.applied;
      if applied.None? { return InvalidState, io; }
      var current: int := applied.value.state.temperature;
      var target := if mode.ColorUp? then hi else lo;
      coupledTemperature := false;
      reply, io := runtime.MoveTemperature(target, DivCeil(1000 * Abs(current - target), rate), Linear);
    }

    method ColorStep(up: bool, step: Ticks, ds: Ticks, least: Ticks, most: Ticks, mask: byte, over: byte)
      returns (reply: Reply, ghost io: Io)
      requires Valid()
      modifies this, runtime`state, runtime`trace, runtime.kv, runtime.controller, runtime.hardware,
        runtime.hardware.bus
      ensures Valid()
      ensures var d := Model.ColorStep(old(View()), up, step, ds, least, most, mask, over, io);
        View() == d.lamp && reply == d.reply
    {
      hide Runtime.Valid, Model.Executes, Model.ColorTo;
      io := ALL_WELL;
      var executes := Executes(false, colorOptions, mask, over);
      if executes.None? { return InvalidState, io; }
      if !executes.value { return Okay, io; }
      var bounds := ColorBounds(least, most);
      if bounds.None? { return ConstraintError, io; }
      var (lo, hi) := bounds.value;
      var applied := runtime.controller.applied;
      if applied.None? { return InvalidState, io; }
      var current := applied.value.state.temperature;
      reply, io := ColorTo(Max(lo, Min(if up then current + step else current - step, hi)), ds, mask, over);
    }

    method ColorHalt(mask: byte, over: byte) returns (reply: Reply, ghost io: Io)
      requires Valid()
      modifies this, runtime`state, runtime`trace, runtime.kv, runtime.controller, runtime.hardware,
        runtime.hardware.bus
      ensures Valid()
      ensures var d := Model.ColorHalt(old(View()), mask, over, io); View() == d.lamp && reply == d.reply
    {
      hide Runtime.Valid, Model.Executes, StopTemperature;
      io := ALL_WELL;
      var executes := Executes(false, colorOptions, mask, over);
      if executes.None? { return InvalidState, io; }
      if !executes.value { return Okay, io; }
      coupledTemperature := false;
      reply, io := runtime.StopTemperature();
    }

    // ----- staged scenes

    method BeginScene() returns (reply: Reply)
      requires Valid()
      modifies this`sceneDraft
      ensures Valid()
      ensures var d := Model.BeginScene(old(View())); View() == d.lamp && reply == d.reply
    {
      if sceneDraft.Some? { return Busy; }
      var reported := runtime.ReportedState();
      if reported.None? { return InvalidState; }
      sceneDraft := Some(SceneDraft(reported.value, 0, {}));
      reply := Okay;
    }

    /** Every attribute is validated on a copy of the draft, which replaces it only when all of them pass. */
    method StageScene(cluster: nat, pairs: seq<Pair>, durationMs: nat) returns (reply: Reply)
      requires Valid()
      modifies this`sceneDraft
      ensures Valid()
      ensures var d := Model.StageScene(old(View()), cluster, pairs, durationMs); View() == d.lamp && reply == d.reply
    {
      hide Runtime.Valid, StageEntry;
      if sceneDraft.None? { return InvalidState; }
      if durationMs > MAX_TRANSITION_MS { return ConstraintError; }
      var draft := sceneDraft.value.(durationMs := durationMs);
      ghost var entries := EntriesOf(cluster, pairs);
      ghost var start := draft;
      assert entries[0..] == entries;
      for i := 0 to |pairs|
        invariant sceneDraft == old(sceneDraft)
        invariant StageEntries(start, entries) == StageEntries(draft, entries[i..])
      {
        assert entries[i..][1..] == entries[i + 1..];
        var staged := StagePair(draft, cluster, pairs[i]);
        if staged.Refused? { return staged.reply; }
        draft := staged.draft;
      }
      sceneDraft := Some(draft);
      reply := Okay;
    }

    /** The body of the loop: one attribute, its value checked before its field. */
    static method StagePair(draft: SceneDraft, cluster: nat, pair: Pair) returns (r: Staged)
      ensures r == StageEntry(draft, Entry(cluster, pair))
    {
      var field;
      var target := draft.target;
      match (cluster, pair.id) {
        case (6, 0) =>
          match pair.unsigned8 {
            case Some(0) => target := target.(on := false);
            case Some(1) => target := target.(on := true);
            case _ => return Refused(ConstraintError);
          }
          field := PowerField;
        case (8, 0) =>
          if pair.unsigned8.None? || !IsLevel(pair.unsigned8.value) { return Refused(ConstraintError); }
          target := target.(level := pair.unsigned8.value);
          field := LevelField;
        case (0x300, 7) =>
          if pair.unsigned16.None? || !IsTemperature(pair.unsigned16.value) { return Refused(ConstraintError); }
          target := target.(temperature := pair.unsigned16.value);
          field := TemperatureField;
        case (0x300, 0x4001) =>
          if pair.unsigned8 != Some(COLOR_TEMPERATURE_MODE) { return Refused(ConstraintError); }
          field := ModeField;
        case _ => return Refused(InvalidCommand);
      }
      if field in draft.fields { return Refused(ConstraintError); }
      r := Staged(draft.(target := target, fields := draft.fields + {field}));
    }

    method FinishScene() returns (reply: Reply, ghost io: Io)
      requires Valid()
      modifies this, runtime`state, runtime`trace, runtime.kv, runtime.controller, runtime.hardware,
        runtime.hardware.bus
      ensures Valid()
      ensures var d := Model.FinishScene(old(View()), io); View() == d.lamp && reply == d.reply
    {
      hide Runtime.Valid, RuntimeModel.RecallScene;
      io := ALL_WELL;
      if sceneDraft.None? { return InvalidState, io; }
      var draft := sceneDraft.value;
      sceneDraft := None;
      coupledTemperature := false;
      onTime, offWait, timed := 0, 0, false;
      reply, io := runtime.RecallScene(draft.target, draft.durationMs);
      if reply != Okay { return; }
      if draft.target.on { globalScene := true; }
    }

    method AbortScene()
      requires Valid()
      modifies this`sceneDraft
      ensures Valid() && View() == Model.AbortScene(old(View()))
    {
      sceneDraft := None;
    }

    /** `AtomicScenes::invoke` for a recall. */
    method RecallScene(parts: seq<Part>) returns (reply: Reply, ghost io: Io)
      requires Valid()
      modifies this, runtime`state, runtime`trace, runtime.kv, runtime.controller, runtime.hardware,
        runtime.hardware.bus
      ensures Valid()
      ensures var d := RecallParts(old(View()), parts, io); View() == d.lamp && reply == d.reply
    {
      io := ALL_WELL;
      reply := BeginScene();
      if reply != Okay { return; }
      ghost var begun := View();
      assert parts[0..] == parts;
      for i := 0 to |parts|
        invariant Valid() && begun == Model.BeginScene(old(View())).lamp && Model.BeginScene(old(View())).reply == Okay
        invariant StageParts(begun, parts) == StageParts(View(), parts[i..])
      {
        assert parts[i..][1..] == parts[i + 1..];
        reply := StageScene(parts[i].cluster, parts[i].pairs, parts[i].durationMs);
        if reply != Okay {
          AbortScene();
          return;
        }
      }
      reply, io := FinishScene();
    }

    // ----- the maintenance loop

    /** One pass: hand whole tenths to the timers, then let the runtime tick. */
    method OnePass(now: Clock, last: nat, ghost delivered: nat) returns (ticks: Ticks, ghost r: Round)
      requires Valid() && last <= now && runtime.now <= now
      modifies this, runtime`state, runtime`now, runtime`trace, runtime.kv, runtime.controller, runtime.hardware,
        runtime.hardware.bus
      ensures Valid() && runtime.now == now == r.now
      ensures Progress(View(), last + 100 * ticks, delivered + ticks) == Pass(Progress(old(View()), last, delivered), r)
    {
      hide Runtime.Valid, RuntimeModel.Tick, Model.Tick;
      var due := (now - last) / 100;
      ticks := if due < U16_MAX then due else U16_MAX;
      ghost var expiry := ALL_WELL;
      if ticks > 0 { expiry := Tick(ticks); }
      ghost var run := runtime.Tick(now);
      r := Round(now, expiry, run);
    }

    /** The loop over the clock readings of its passes; `rounds` pairs each reading with the environment's answers. */
    method Maintenance(start: Clock, readings: seq<Clock>) returns (ghost rounds: seq<Round>, delivered: nat)
      requires Valid() && runtime.now <= start
      requires forall i :: 0 <= i < |readings| ==> start <= readings[i]
      requires forall i, j :: 0 <= i < j < |readings| ==> readings[i] <= readings[j]
      modifies this, runtime, runtime.kv, runtime.controller, runtime.hardware, runtime.hardware.bus
      ensures Valid()
      ensures |rounds| == |readings| && (forall i :: 0 <= i < |readings| ==>
        rounds[i].now == readings[i]) && TimelyRounds(start, rounds)
      ensures var q := Maintain(Progress(old(View()), start, 0), start, rounds);
        View() == q.lamp && delivered == q.delivered
    {
      hide Runtime.Valid, Pass;
      rounds, delivered := [], 0;
      var last: nat := start;
      ghost var begin := Progress(old(View()), start, 0);
      for i := 0 to |readings|
        invariant Valid() && |rounds| == i && forall j :: 0 <= j < i ==> rounds[j].now == readings[j]
        invariant forall j :: i <= j < |readings| ==>
          runtime.now <= readings[j] && last <= readings[j] && EndOf(start, rounds) <= readings[j]
        invariant TimelyRounds(start, rounds)
        invariant Maintain(begin, start, rounds) == Progress(View(), last, delivered)
      {
        var ticks: nat;
        ghost var r;
        ticks, r := OnePass(readings[i], last, delivered);
        last, delivered := last + 100 * ticks, delivered + ticks;
        MaintainSnoc(begin, start, rounds, r);
        rounds := rounds + [r];
      }
    }
  }

  lemma {:induction false} MaintainSnoc(p: Progress, now: nat, rounds: seq<Round>, r: Round)
    requires p.last <= now && TimelyRounds(now, rounds) && EndOf(now, rounds) <= r.now
    ensures TimelyRounds(now, rounds + [r])
    ensures Maintain(p, now, rounds).last <= r.now
    ensures Maintain(p, now, rounds + [r]) == Pass(Maintain(p, now, rounds), r)
    decreases |rounds|
  {
    hide Pass;
    if rounds == [] {
      assert ([r])[1..] == [];
      PassBounded(p, r);
    } else {
      assert (rounds + [r])[1..] == rounds[1..] + [r];
      PassBounded(p, rounds[0]);
      MaintainSnoc(Pass(p, rounds[0]), rounds[0].now, rounds[1..], r);
    }
  }

  lemma PassBounded(p: Progress, r: Round)
    requires p.last <= r.now
    ensures p.last <= Pass(p, r).last <= r.now
  {
  }
}
