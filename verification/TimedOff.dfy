/**
 * Timed Off: how the countdown composes, what its expiry does, what the guard excludes, and the loop that drives it.
 */
module TimedOff {
  import opened Basics
  import opened Light
  import Runtime = RuntimeModel
  import opened RuntimeModel
  import Curve
  import opened Record
  import opened RuntimeInvariant
  import opened Behaviour
  import opened Settling
  import opened LateLoad
  import opened Commands
  import opened LightModel

  // ----- the countdown alone

  predicate Expires(t: Timers, on: bool, ds: nat) { t.timed && on && ds > 0 && t.onTime <= ds }

  /** Where the timers are after any stretch of time, with nothing else happening. */
  function Elapsed(t: Timers, on: bool, ds: nat): Timers
  {
    if !t.timed || ds == 0 then t
    else if on then (if t.onTime <= ds then NO_TIMERS else t.(onTime := t.onTime - ds))
    else if t.offWait <= ds then NO_TIMERS
    else Timers(0, t.offWait - ds, true)
  }

  /** Time may be delivered in any portions: expiry stops the timers, so the second portion finds nothing to count. */
  lemma ElapsedSplits(t: Timers, on: bool, stays: bool, a: nat, b: nat)
    ensures Elapsed(Elapsed(t, on, a), if Expires(t, on, a) then stays else on, b) == Elapsed(t, on, a + b)
    ensures Expires(t, on, a + b) <==> Expires(t, on, a) || Expires(Elapsed(t, on, a), on, b)
  {
  }

  // ----- one delivery of time

  lemma PowerOff(w: World, io: Io)
    ensures var v := SetPower(w, false, io).world;
      && v.target == (if Blocked(w).None? then w.target.(on := false) else w.target)
      && v.loadFault == w.loadFault
      && Blocked(v) == Blocked(w)
  {
    hide SaveIntent, Reconcile;
    if Blocked(w).None? {
      var target := w.target.(on := false);
      CommitTarget(if w.target.on then PowerTracks(w, target) else w, target, io);
    }
  }

  lemma CommitTarget(w: World, target: LightState, io: Io)
    ensures var v := Commit(w, target, io).world;
      v.target == target && v.loadFault == w.loadFault && (w.fault != Rebooting ==> v.fault != Rebooting)
  {
    hide Reconcile, Encode;
    var pending := w.(dirty := w.dirty || w.target != target, target := target, revision := WrapInc(w.revision));
    var saved := SaveIntent(pending, io);
    if saved.reply == Okay {
      ReconcileOutputOnly(saved.world, io);
      ReconcileAnswer(saved.world, io);
    }
  }

  /**
   * A delivery of time moves the timers as the clock alone would, and turns the target Off exactly when the on-time
   * runs out and the runtime accepts commands. The timers are cleared either way, so a refused expiry is not retried.
   */
  lemma TickOutcome(l: Lamp, ds: Ticks, io: Io)
    requires ds > 0
    ensures var r := LightModel.Tick(l, ds, io);
      && r.timers == Elapsed(l.timers, l.world.target.on, ds)
      && (Expires(l.timers, l.world.target.on, ds) ==>
            && r.world == SetPower(l.world, false, io).world
            && (r.world.target.on <==> Blocked(l.world).Some?))
      && (!Expires(l.timers, l.world.target.on, ds) ==> r.world == l.world)
      && Blocked(r.world) == Blocked(l.world) && r.world.loadFault == l.world.loadFault
  {
    hide SetPower;
    PowerOff(l.world, io);
  }

  /**
   * In a reachable light an expiry is refused exactly while a reboot is pending, and then the output is dark already.
   */
  lemma RefusedExpiry(l: Lamp, ds: Ticks, io: Io)
    requires Inv(l.world) && ds > 0 && Expires(l.timers, l.world.target.on, ds)
    ensures var r := LightModel.Tick(l, ds, io);
      && (r.world.target.on <==> l.world.fault == Rebooting)
      && (r.world.target.on ==> r.world == l.world && l.world.applied.None?)
      && r.timers == NO_TIMERS
  {
    hide Commit;
    TickOutcome(l, ds, io);
  }

  /**
   * The refused expiry is lost for good. When the pending reboot is then cancelled by a failed register read, three
   * healthy ticks light the lamp again, at rest on an On target and with no timer left to turn it off.
   */
  lemma LostExpiryRelights(l: Lamp, ds: Ticks, io: Io, sample: Io, first: Clock, second: Clock, third: Clock)
    requires Inv(l.world) && l.world.fault == Rebooting && ds > 0 && Expires(l.timers, l.world.target.on, ds)
      && !sample.check
    requires SatAdd(l.world.now, RETRY_MS) <= first && first + DEFAULT_TRANSITION_MS <= second <= third
    ensures var r := LightModel.Tick(l, ds, io);
      var w := Registers(r.world, sample).world;
      var v := Runtime.Tick(Runtime.Tick(Runtime.Tick(w, first, ALL_WELL), second, ALL_WELL), third, ALL_WELL);
      Settled(v) && v.target.on && v.target == l.world.target && r.timers == NO_TIMERS
  {
    hide Runtime.Tick, Settled, Inv;
    RefusedExpiry(l, ds, io);
    var w := Registers(l.world, sample).world;
    RegistersInv(l.world, sample);
    OnMeansLoaded(l.world);
    RecoverySettles(w, first, second, third);
  }

  lemma OnMeansLoaded(w: World)
    requires Inv(w) && w.target.on
    ensures w.loadFault.None?
  {
  }

  /** A lamp over a first boot. */
  const NEW_LAMP: Lamp := Lamp(Boot(None, ALL_WELL), NO_TIMERS, None, 0, 0, true, None, None, false)

  function Well(c: LightCommand): LightAction { LightAction(c, ALL_WELL, ALL_WELL) }

  /** The corner is reachable from a first boot: timed On for a second, a reboot prepared, the second delivered. */
  lemma LostExpiryReachable()
    ensures var armed := LightRun(NEW_LAMP,
      [Well(LightRuntime(CmdTick(0))), Well(LightTimedOn(false, 10, 0)), Well(LightRuntime(CmdReboot))]);
      && Inv(armed.world) && armed.world.fault == Rebooting && Expires(armed.timers, armed.world.target.on, 10)
      && (var lost := LightModel.Tick(armed, 10, ALL_WELL); lost.world.target.on && lost.timers == NO_TIMERS)
  {
    hide SetPower, Inv, Boot, Runtime.Tick, TimedOn, PrepareReboot, LightModel.Tick, TracksMeetTarget;
    var l1 := NEW_LAMP.(world := Runtime.Tick(NEW_LAMP.world, 0, ALL_WELL));
    BootInv(None, ALL_WELL);
    BootClock();
    TickInv(NEW_LAMP.world, 0, ALL_WELL);
    FirstTick();
    var l2 := TimedOn(l1, false, 10, 0, ALL_WELL, ALL_WELL).lamp;
    ArmFromDark(l1);
    StepInv(l1.world, CmdPower(true), ALL_WELL);
    PrepareRebootInv(l2.world, ALL_WELL);
    Rebooted(l2.world);
    RunThree(NEW_LAMP, Well(LightRuntime(CmdTick(0))), Well(LightTimedOn(false, 10, 0)), Well(LightRuntime(CmdReboot)));
    var l3 := l2.(world := PrepareReboot(l2.world, ALL_WELL).world);
    RefusedExpiry(l3, 10, ALL_WELL);
  }

  /** Timed On for a second, on a lamp reported Off with no timer running. */
  lemma ArmFromDark(l: Lamp)
    requires l.timers == NO_TIMERS && l.onLevel.None? && Blocked(l.world).None? && Reported(l.world).Some?
      && !l.world.target.on
    ensures var r := TimedOn(l, false, 10, 0, ALL_WELL, ALL_WELL).lamp;
      r.world == SetPower(l.world, true, ALL_WELL).world && r.world.target.on && r.timers == Timers(10, 0, true)
  {
    hide SetPower;
    PowerOn(l.world, ALL_WELL);
  }

  lemma Rebooted(w: World)
    ensures var v := PrepareReboot(w, ALL_WELL).world; v.fault == Rebooting && v.target == w.target
  {
  }

  lemma BootClock()
    ensures Boot(None, ALL_WELL).now == 0
  {
  }

  lemma RunThree(l: Lamp, a: LightAction, b: LightAction, c: LightAction)
    ensures LightRun(l, [a, b, c]) ==
            LightStep(LightStep(LightStep(l, a.command, a.more, a.io), b.command, b.more, b.io), c.command, c.more,
              c.io)
  {
    hide LightStep;
    var l1 := LightStep(l, a.command, a.more, a.io);
    var l2 := LightStep(l1, b.command, b.more, b.io);
    assert [a, b, c][1..] == [b, c] && [b, c][1..] == [c] && [c][1..] == [];
    assert LightRun(l2, [c]) == LightStep(l2, c.command, c.more, c.io);
    assert LightRun(l1, [b, c]) == LightRun(l2, [c]);
  }

  /** Two deliveries of time are one: the same light results, whichever of the two reaches the expiry. */
  lemma TickSplits(l: Lamp, a: Ticks, b: Ticks, first: Io, second: Io)
    requires a > 0 && b > 0 && a + b <= FOREVER
    ensures var once := if Expires(l.timers, l.world.target.on, a) then first else second;
      LightModel.Tick(LightModel.Tick(l, a, first), b, second) == LightModel.Tick(l, a + b, once)
  {
    hide SetPower;
  }

  lemma PowerOn(w: World, io: Io)
    ensures var d := SetPower(w, true, io);
      (d.reply == Okay ==> Blocked(w).None?) && (Blocked(w).None? ==> d.world.target.on && Blocked(d.world).None?)
  {
    hide SaveIntent, Reconcile;
    if Blocked(w).None? {
      var target := w.target.(on := true);
      CommitTarget(if w.target.on then w else PowerTracks(w, target), target, io);
    }
  }

  /**
   * An answered timed-on that is not absorbed by a guard lasts for the longer of the running and the new on-time, no
   * less and no more.
   */
  lemma TimedOnLasts(l: Lamp, acceptOnlyOn: bool, onTime: Ticks, offWait: Ticks, raise: Io, io: Io, ds: Ticks,
    expiry: Io)
    requires TimedOn(l, acceptOnlyOn, onTime, offWait, raise, io).reply == Okay
    requires Reported(l.world).Some? && (Reported(l.world).value.on || (!acceptOnlyOn && l.timers.offWait == 0))
    requires l.timers.onTime != FOREVER && ds > 0
    ensures var r := TimedOn(l, acceptOnlyOn, onTime, offWait, raise, io).lamp;
      r.world.target.on && (LightModel.Tick(r, ds, expiry).world.target.on <==> ds < Max(l.timers.onTime, onTime))
  {
    hide SetPower, MoveLevel;
    var world := if Raises(l) then MoveLevel(l.world, l.onLevel.value, true, 0, Curve.Smooth, raise).world else l.world;
    PowerOn(world, io);
    TickOutcome(TimedOn(l, acceptOnlyOn, onTime, offWait, raise, io).lamp, ds, expiry);
  }

  /** An accepted Off before the on-time has run out starts the guard, and its countdown runs. */
  lemma EarlyOffGuards(l: Lamp, raise: Io, io: Io)
    requires Blocked(l.world).None? && 0 < l.timers.offWait < FOREVER
    ensures var r := Power(l, false, raise, io).lamp;
      Guarded(r) && r.timers == Timers(0, l.timers.offWait, true)
  {
    hide SetPower;
    PowerOff(l.world, io);
  }

  // ----- the guard interval

  /** The light is off and its guard is running. */
  predicate Guarded(l: Lamp) { !l.world.target.on && l.timers.offWait > 0 }

  /** What may be attempted during a guard: timed-on commands, the countdown and the runtime's own ticks. */
  predicate DuringGuard(c: LightCommand)
  {
    c.LightTimedOn? || c.LightTick? || (c.LightRuntime? && c.command.CmdTick?)
  }

  function Delivered(c: LightCommand): nat { if c.LightTick? then c.ds else 0 }

  /**
   * During a guard exactly one thing turns the light on: a tick that at last reads a record asking for On. Timed-on
   * commands and the countdown do not reach the runtime at all, nothing lengthens the guard, and a running countdown
   * is never outlived.
   */
  lemma GuardStep(l: Lamp, c: LightCommand, raise: Io, io: Io)
    requires Guarded(l) && DuringGuard(c)
    ensures var r := LightStep(l, c, raise, io);
      && (r.world.target.on <==> c.LightRuntime? && LightsLate(l.world, c.command.now, io))
      && r.timers.offWait <= l.timers.offWait
      && (!c.LightRuntime? ==> r.world == l.world)
      && (l.timers.timed ==> r.timers.offWait <= SatSub(l.timers.offWait, Delivered(c)))
      && (l.timers.timed && r.timers.offWait > 0 ==> r.timers.timed)
  {
    hide SetPower, Runtime.Tick;
    if c.LightRuntime? { TickTarget(l.world, c.command.now, io); }
  }

  /** While the guard runs, some step of the run is such a tick. */
  predicate LitLate(l: Lamp, actions: seq<LightAction>)
    decreases |actions|
  {
    l.timers.offWait > 0 && actions != [] &&
    var a := actions[0];
    (a.command.LightRuntime? && a.command.command.CmdTick? && LightsLate(l.world, a.command.command.now, a.io)) ||
    LitLate(LightStep(l, a.command, a.more, a.io), actions[1..])
  }

  function DeliveredBy(actions: seq<LightAction>): nat
    decreases |actions|
  {
    if actions == [] then 0 else Delivered(actions[0].command) + DeliveredBy(actions[1..])
  }

  /** The guard holds from this light until the end of a run or until it first reaches zero. */
  predicate HeldOff(l: Lamp, actions: seq<LightAction>)
    decreases |actions|
  {
    !l.world.target.on &&
    (l.timers.offWait > 0 && actions != [] ==>
       var next := LightStep(l, actions[0].command, actions[0].more, actions[0].io);
       next.timers.offWait <= l.timers.offWait && HeldOff(next, actions[1..]))
  }

  /** Has the guard reached zero somewhere in the run? */
  predicate GuardEnds(l: Lamp, actions: seq<LightAction>)
    decreases |actions|
  {
    l.timers.offWait == 0 ||
    (actions != [] && GuardEnds(LightStep(l, actions[0].command, actions[0].more, actions[0].io), actions[1..]))
  }

  /**
   * For every run of timed-on commands and ticks the light stays off until the guard has run out, if and only if no
   * tick of it reads a record late that asks for On; and a running guard does run out once its time is delivered.
   */
  lemma {:induction false} GuardRun(l: Lamp, actions: seq<LightAction>)
    requires Guarded(l) && forall i :: 0 <= i < |actions| ==> DuringGuard(actions[i].command)
    ensures HeldOff(l, actions) <==> !LitLate(l, actions)
    ensures HeldOff(l, actions) && l.timers.timed && DeliveredBy(actions) >= l.timers.offWait ==> GuardEnds(l, actions)
    decreases |actions|
  {
    hide LightStep, LightsLate;
    if actions != [] {
      var a := actions[0];
      GuardStep(l, a.command, a.more, a.io);
      var next := LightStep(l, a.command, a.more, a.io);
      if next.timers.offWait > 0 && !next.world.target.on { GuardRun(next, actions[1..]); }
    }
  }

  /** What can be told before the run: a record that is read, or a remembered local Off, rules such a tick out. */
  lemma {:induction false} ReadGuardHolds(l: Lamp, actions: seq<LightAction>)
    requires Guarded(l) && KeptOff(l.world) && forall i :: 0 <= i < |actions| ==> DuringGuard(actions[i].command)
    ensures HeldOff(l, actions)
    decreases |actions|
  {
    hide LightStep;
    if actions != [] {
      var a := actions[0];
      GuardStep(l, a.command, a.more, a.io);
      GuardKeepsOff(l, a.command, a.more, a.io);
      var next := LightStep(l, a.command, a.more, a.io);
      if next.timers.offWait > 0 { ReadGuardHolds(next, actions[1..]); }
    }
  }

  lemma GuardKeepsOff(l: Lamp, c: LightCommand, more: Io, io: Io)
    requires Guarded(l) && KeptOff(l.world) && DuringGuard(c)
    ensures KeptOff(LightStep(l, c, more, io).world)
  {
    hide Runtime.Tick, SetPower;
    if c.LightRuntime? {
      TickTarget(l.world, c.command.now, io);
    } else {
      GuardStep(l, c, more, io);
    }
  }

  /**
   * The exception is real. Over a record saved On that could not be read at boot, a written guard and a refused Off
   * start the guard; the tick that reads the record turns the light On in the middle of it, and the next tenth turns
   * it Off again and overwrites the saved On.
   */
  lemma UnreadGuardLights(s: LightState)
    requires s.on
    ensures var boot := Boot(Some(Encode(s, DEFAULT_STARTUP)), ALL_WELL.(read := false));
      var held := LightRun(NEW_LAMP.(world := boot), [Well(LightWrite(OffWaitTime(100))), Well(LightPower(false))]);
      var lit := LightStep(held, LightRuntime(CmdTick(RETRY_MS)), ALL_WELL, ALL_WELL);
      var lost := LightStep(lit, LightTick(1), ALL_WELL, ALL_WELL);
      && Guarded(held) && held.timers == lit.timers == Timers(0, 100, true) && lit.world.target == s
      && lost.timers == NO_TIMERS && lost.world.target == s.(on := false)
      && ReadRecord(lost.world.store, true) == Readable(Saved(s.(on := false), DEFAULT_STARTUP, false))
  {
    hide Runtime.Tick, SetPower, Inv, LightModel.Tick, Power, Encode;
    var record := Some(Encode(s, DEFAULT_STARTUP));
    var boot := Boot(record, ALL_WELL.(read := false));
    var lamp := NEW_LAMP.(world := boot);
    DecodeEncode(s, DEFAULT_STARTUP);
    BootInv(record, ALL_WELL.(read := false));
    UnreadBoot(record);
    RunPair(lamp, Well(LightWrite(OffWaitTime(100))), Well(LightPower(false)));
    var held := lamp.(timers := Timers(0, 100, true));
    RefusedOff(lamp.(timers := Timers(0, 100, false)));
    var lit := held.(world := Runtime.Tick(boot, RETRY_MS, ALL_WELL));
    TickTarget(boot, RETRY_MS, ALL_WELL);
    TickInv(boot, RETRY_MS, ALL_WELL);
    RecoveryTick(boot, RETRY_MS);
    HealthyOff(lit.world);
    ExpiresAtOnce(lit, 1, ALL_WELL);
  }

  lemma UnreadBoot(record: Option<seq<byte>>)
    requires ReadRecord(record, true).Readable?
    ensures var w := Boot(record, ALL_WELL.(read := false));
      && w.loadFault == Some(StorageFault) && w.fault == StorageFault && !w.target.on && w.applied.None?
      && w.retryAt == RETRY_MS && w.now == 0 && w.store == record && !w.offAfterLoad
  {
  }

  /** A refused Off still starts the guard. */
  lemma RefusedOff(l: Lamp)
    requires Blocked(l.world).Some? && !l.coupled
    ensures Power(l, false, ALL_WELL, ALL_WELL).lamp == l.(timers := TimersOff(l.timers))
  {
    hide Commit;
  }

  lemma HealthyOff(w: World)
    requires Inv(w) && w.applied.Some?
    ensures var v := SetPower(w, false, ALL_WELL).world;
      v.target == w.target.(on := false) && ReadRecord(v.store, true) == Readable(Saved(v.target, w.startup, false))
  {
    hide Commit, PowerTracks;
    var t := w.target.(on := false);
    CommitOutcome(if w.target.on then PowerTracks(w, t) else w, t, ALL_WELL);
    SetterOutcome(w, CmdPower(false), ALL_WELL);
  }

  lemma ExpiresAtOnce(l: Lamp, ds: Ticks, io: Io)
    requires l.timers.timed && l.timers.onTime <= ds && l.world.target.on && ds > 0
    ensures var r := LightModel.Tick(l, ds, io); r.timers == NO_TIMERS && r.world == SetPower(l.world, false, io).world
  {
    hide SetPower;
  }

  lemma RunPair(l: Lamp, a: LightAction, b: LightAction)
    ensures LightRun(l, [a, b]) == LightStep(LightStep(l, a.command, a.more, a.io), b.command, b.more, b.io)
  {
    hide LightStep;
    var l1 := LightStep(l, a.command, a.more, a.io);
    assert [a, b][1..] == [b] && [b][1..] == [];
    assert LightRun(l1, [b]) == LightStep(l1, b.command, b.more, b.io);
  }

  // ----- the maintenance loop

  /** No time is lost and none invented: what was handed over is the distance travelled, in whole tenths. */
  lemma {:induction false} MaintainConserves(p: Progress, now: nat, rounds: seq<Round>)
    requires p.last <= now && TimelyRounds(now, rounds)
    ensures var q := Maintain(p, now, rounds);
      && q.last - p.last == 100 * (q.delivered - p.delivered)
      && q.delivered >= p.delivered
      && q.last <= EndOf(now, rounds)
    decreases |rounds|
  {
    hide LightModel.Tick, Runtime.Tick;
    if rounds != [] { MaintainConserves(Pass(p, rounds[0]), rounds[0].now, rounds[1..]); }
  }

  /** Successive readings are no further apart than one delivery can cover. */
  predicate Prompt(now: nat, rounds: seq<Round>)
    decreases |rounds|
  {
    rounds != [] ==> rounds[0].now <= now + 100 * U16_MAX && Prompt(rounds[0].now, rounds[1..])
  }

  /**
   * Polled at least every 6553 seconds the loop is never a tenth behind, so it has delivered exactly the whole
   * tenths.
   */
  lemma {:induction false} MaintainDelivers(p: Progress, now: nat, rounds: seq<Round>)
    requires p.last <= now < p.last + 100 && TimelyRounds(now, rounds) && Prompt(now, rounds)
    ensures var q := Maintain(p, now, rounds); var end := EndOf(now, rounds);
      && q.last <= end < q.last + 100
      && q.delivered - p.delivered == (end - p.last) / 100
    decreases |rounds|
  {
    hide LightModel.Tick, Runtime.Tick;
    if rounds != [] {
      var r := rounds[0];
      MaintainDelivers(Pass(p, r), r.now, rounds[1..]);
    }
  }

  /** Part of the invariant: an unread record goes with an Off target. */
  predicate UnreadIsOff(w: World) { w.loadFault == Some(StorageFault) ==> !w.target.on }

  /** Some pass of the loop reads a record late that asks for On. */
  predicate PassLights(p: Progress, now: nat, rounds: seq<Round>)
    requires p.last <= now && TimelyRounds(now, rounds)
    decreases |rounds|
  {
    rounds != [] &&
    (LightsLate(p.lamp.world, rounds[0].now, rounds[0].run)
      || PassLights(Pass(p, rounds[0]), rounds[0].now, rounds[1..]))
  }

  /** The target after the timers have been given some time. */
  function TargetAfter(l: Lamp, ds: nat): LightState
  {
    var t := l.world.target;
    if Expires(l.timers, t.on, ds) && Blocked(l.world).None? then t.(on := false) else t
  }

  /**
   * Under every polling schedule and whatever storage and output do, as long as no pass reads a record late that asks
   * for On, the loop leaves the timers where the delivered time alone puts them and the power where the expiry does;
   * once the record is read nothing else of the target changes either.
   */
  lemma {:induction false} MaintainCountsDown(p: Progress, now: nat, rounds: seq<Round>)
    requires p.last <= now && TimelyRounds(now, rounds) && UnreadIsOff(p.lamp.world) && !PassLights(p, now, rounds)
    ensures var q := Maintain(p, now, rounds); var ds := q.delivered - p.delivered;
      && ds >= 0
      && q.lamp.timers == Elapsed(p.lamp.timers, p.lamp.world.target.on, ds)
      && q.lamp.world.target.on == TargetAfter(p.lamp, ds).on
      && (p.lamp.world.loadFault != Some(StorageFault) ==> q.lamp.world.target == TargetAfter(p.lamp, ds))
    decreases |rounds|
  {
    hide LightModel.Tick, Runtime.Tick, Elapsed, Expires, LateTarget, ReadRecord;
    var on := p.lamp.world.target.on;
    if rounds == [] {
      NothingElapsed(p.lamp.timers, on);
    } else {
      var p1 := Pass(p, rounds[0]);
      PassCountsDown(p, rounds[0]);
      MaintainCountsDown(p1, rounds[0].now, rounds[1..]);
      MaintainConserves(p1, rounds[0].now, rounds[1..]);
      var rest := Maintain(p, now, rounds).delivered - p1.delivered;
      ElapsedSplits(p.lamp.timers, on, p1.lamp.world.target.on, TicksDue(p, rounds[0]), rest);
      ExpiredStops(p.lamp.timers, on, TicksDue(p, rounds[0]), p1.lamp.world.target.on, rest);
    }
  }

  /**
   * The other case: the pass that reads the record late turns the light On with the guard still counted down to where
   * it was, and from there the on-time counts: the target is the record's until that expires.
   */
  lemma MaintainAfterLate(p: Progress, now: nat, rounds: seq<Round>)
    requires p.last <= now && TimelyRounds(now, rounds) && UnreadIsOff(p.lamp.world)
    requires rounds != [] && LightsLate(p.lamp.world, rounds[0].now, rounds[0].run)
    ensures var q := Maintain(p, now, rounds); var due := TicksDue(p, rounds[0]);
      var ds := q.delivered - p.delivered - due; var t := Elapsed(p.lamp.timers, false, due);
      var target := LateTarget(p.lamp.world);
      && ds >= 0
      && q.lamp.timers == Elapsed(t, true, ds)
      && q.lamp.world.target == if Expires(t, true, ds) then target.(on := false) else target
  {
    hide LightModel.Tick, Runtime.Tick, Elapsed, Expires;
    var p1 := Pass(p, rounds[0]);
    PassCountsDown(p, rounds[0]);
    ReadOnce(p1, rounds[0].now, rounds[1..]);
    MaintainCountsDown(p1, rounds[0].now, rounds[1..]);
  }

  /**
   * Any run of the loop is one of the two: if some pass lights late, the passes before it are a run in which none
   * does, and the run goes on from there as MaintainAfterLate says.
   */
  lemma {:induction false} MaintainSplitsAtLate(p: Progress, now: nat, rounds: seq<Round>) returns (k: nat)
    requires p.last <= now && TimelyRounds(now, rounds) && UnreadIsOff(p.lamp.world) && PassLights(p, now, rounds)
    ensures k < |rounds| && TimelyRounds(now, rounds[..k]) && TimelyRounds(EndOf(now, rounds[..k]), rounds[k..])
    ensures !PassLights(p, now, rounds[..k])
    ensures var u, end := Maintain(p, now, rounds[..k]), EndOf(now, rounds[..k]);
      && u.last <= end && UnreadIsOff(u.lamp.world) && LightsLate(u.lamp.world, rounds[k].now, rounds[k].run)
      && Maintain(p, now, rounds) == Maintain(u, end, rounds[k..])
    decreases |rounds|
  {
    hide Pass, LightsLate;
    var r, rest := rounds[0], rounds[1..];
    if LightsLate(p.lamp.world, r.now, r.run) {
      k := 0;
      assert rounds[..0] == [] && rounds[0..] == rounds;
    } else {
      PassCountsDown(p, r);
      PassInTime(p, r);
      var j := MaintainSplitsAtLate(Pass(p, r), r.now, rest);
      k := j + 1;
      assert rounds[..k][1..] == rest[..j] && rounds[k..] == rest[j..];
      assert rounds[..k] != [] && rounds[..k][0] == r;
      EndsTogether(now, rounds, k);
    }
  }

  lemma PassInTime(p: Progress, r: Round)
    requires p.last <= r.now
    ensures p.last <= Pass(p, r).last <= r.now
  {
    hide LightModel.Tick, Runtime.Tick;
  }

  lemma EndsTogether(now: nat, rounds: seq<Round>, k: nat)
    requires 0 < k <= |rounds|
    ensures EndOf(now, rounds[..k]) == EndOf(rounds[0].now, rounds[1..][..k - 1])
  {
  }

  /** A record that has been read is not read again. */
  lemma {:induction false} ReadOnce(p: Progress, now: nat, rounds: seq<Round>)
    requires p.last <= now && TimelyRounds(now, rounds) && p.lamp.world.loadFault != Some(StorageFault)
    ensures !PassLights(p, now, rounds)
    decreases |rounds|
  {
    hide LightModel.Tick, Runtime.Tick, Elapsed, Expires;
    if rounds != [] {
      PassCountsDown(p, rounds[0]);
      ReadOnce(Pass(p, rounds[0]), rounds[0].now, rounds[1..]);
    }
  }

  lemma NothingElapsed(t: Timers, on: bool)
    ensures Elapsed(t, on, 0) == t && !Expires(t, on, 0)
  {
  }

  lemma ExpiredStops(t: Timers, on: bool, a: nat, later: bool, b: nat)
    ensures Expires(t, on, a) ==> on && !Expires(Elapsed(t, on, a), later, b)
    ensures !later ==> !Expires(Elapsed(t, on, a), later, b)
    ensures !on ==> !Expires(t, on, a + b)
  {
  }

  lemma PassCountsDown(p: Progress, r: Round)
    requires p.last <= r.now && UnreadIsOff(p.lamp.world)
    ensures var q := Pass(p, r); var w := p.lamp.world;
      && q.lamp.timers == Elapsed(p.lamp.timers, w.target.on, TicksDue(p, r))
      && UnreadIsOff(q.lamp.world)
      && (w.loadFault != Some(StorageFault) ==> q.lamp.world.loadFault == w.loadFault)
      && if LoadsLate(w, r.now, r.run) then
           q.lamp.world.target == LateTarget(w) && q.lamp.world.loadFault.None? && Blocked(q.lamp.world).None?
         else q.lamp.world.target == TargetAfter(p.lamp, TicksDue(p, r)) && Blocked(q.lamp.world) == Blocked(w)
  {
    hide LightModel.Tick, Runtime.Tick, SetPower;
    var ds := TicksDue(p, r);
    var lamp := if ds > 0 then LightModel.Tick(p.lamp, ds, r.expiry) else p.lamp;
    if ds > 0 {
      TickOutcome(p.lamp, ds, r.expiry);
      PowerOff(p.lamp.world, r.expiry);
    }
    TickTarget(lamp.world, r.now, r.run);
  }
}
