/** The periodic readback: that it happens, how often, and how a loss of the registers is found and repaired. */
module Readback {
  import opened Basics
  import opened Light
  import opened Record
  import opened RuntimeModel
  import opened RuntimeInvariant
  import opened Traces
  import opened Settling
  import opened Commands
  import opened LateLoad

  // ----- the schedule

  /** The next readback is never more than five seconds away. */
  predicate CheckSoon(w: World) { w.nextVerify <= SatAdd(w.now, 5_000) }

  /** An operation leaves the schedule alone or starts a new five seconds now. */
  predicate Scheduled(w: World, v: World)
  {
    v.now == w.now && (v.nextVerify == w.nextVerify || v.nextVerify == SatAdd(w.now, 5_000))
  }

  lemma ReconcileSchedules(w: World, io: Io)
    ensures Scheduled(w, Reconcile(w, io).world)
  {
    hide FrameFor, LiveLevel, LiveTemperature;
  }

  lemma SaveSchedules(w: World, io: Io)
    ensures var v := SaveIntent(w, io).world; v.now == w.now && v.nextVerify == w.nextVerify
  {
    hide Encode;
  }

  lemma CommitSchedules(w: World, target: LightState, io: Io)
    ensures Scheduled(w, Commit(w, target, io).world)
  {
    hide SaveIntent, Reconcile;
    var pending := w.(dirty := w.dirty || w.target != target, target := target, revision := WrapInc(w.revision));
    SaveSchedules(pending, io);
    ReconcileSchedules(SaveIntent(pending, io).world, io);
  }

  lemma LocalOffSchedules(w: World, io: Io)
    ensures Scheduled(w, LocalOff(w, io).world)
  {
    hide SaveIntent, Reconcile;
    SaveSchedules(Darken(w, io), io);
    ReconcileSchedules(Repaired(SaveIntent(Darken(w, io), io).world), io);
  }

  lemma TickSchedules(w: World, now: Clock, io: Io)
    ensures Scheduled(w.(now := now), Tick(w, now, io))
  {
    hide TickLoaded;
    var timed := w.(now := now);
    if w.fault == Rebooting || now < w.retryAt {
    } else if w.loadFault == Some(StorageFault) {
      var reading := ReadRecord(w.store, io.read);
      if reading.Readable? { LoadedSchedules(Reload(timed.(trace := w.trace + [Loaded(io.read)]), reading.saved), io); }
    } else if w.loadFault.None? {
      LoadedSchedules(timed, io);
    }
  }

  lemma LoadedSchedules(w: World, io: Io)
    ensures Scheduled(w, TickLoaded(w, io))
  {
    hide SaveIntent, Reconcile, FrameFor, LiveLevel, LiveTemperature;
    SaveSchedules(w, io);
    ReconcileSchedules(SaveIntent(w, io).world, io);
  }

  lemma CheckSoonStep(w: World, c: Command, io: Io)
    requires Inv(w) && CheckSoon(w) && Timely(w.now, c)
    ensures CheckSoon(Step(w, c, io).world)
  {
    if c.CmdTick? {
      hide Tick;
      TickSchedules(w, c.now, io);
    } else if IsSetter(c) {
      hide Step, Commit, Asked, Retracked;
      SetterOutcome(w, c, io);
      if Asked(w, c).Some? {
        SetterCommits(w, c, io);
        CommitSchedules(Retracked(w, c), Asked(w, c).value, io);
      }
    } else if c.CmdLocalOff? {
      hide LocalOff;
      LocalOffSchedules(w, io);
    } else {
      hide Encode;
    }
  }

  /** From any boot, at any later moment, the next readback is at most five seconds away. */
  lemma {:induction false} CheckSoonRun(w: World, actions: seq<Action>)
    requires Inv(w) && CheckSoon(w) && TimelyRun(w.now, actions)
    ensures CheckSoon(Run(w, actions))
    decreases |actions|
  {
    hide Inv, Step, CheckSoon;
    if actions != [] {
      StepInv(w, actions[0].command, actions[0].io);
      CheckSoonStep(w, actions[0].command, actions[0].io);
      CheckSoonRun(Step(w, actions[0].command, actions[0].io).world, actions[1..]);
    }
  }

  lemma CheckSoonFromBoot(store: Option<seq<byte>>, io: Io, actions: seq<Action>)
    requires TimelyRun(0, actions)
    ensures CheckSoon(Run(Boot(store, io), actions))
  {
    hide Inv;
    BootInv(store, io);
    BootSoon(store, io);
    CheckSoonRun(Boot(store, io), actions);
  }

  lemma BootSoon(store: Option<seq<byte>>, io: Io)
    ensures CheckSoon(Boot(store, io)) && Boot(store, io).now == 0
  {
  }

  // ----- the readback itself

  /**
   * When it is due and the right frame is acknowledged, the tick reads that frame back. A match renews the schedule;
   * anything else shuts the output down, withdraws the acknowledgement and schedules a retry.
   */
  lemma PeriodicCheck(w: World, now: Clock, io: Io)
    requires Inv(w) && w.applied.Some? && !w.dirty && w.nextVerify <= now && w.now <= now
    requires w.applied.value == FrameFor(w.target, w.level, w.temperature, now)
    ensures var v := Tick(w, now, io); var read := w.trace + [Checked(w.applied.value, io.check)];
      && v.target == w.target && v.loadFault.None?
      && if io.check then v.trace == read && v.applied == w.applied && v.fault == NoFault
        && v.nextVerify == SatAdd(now, 5_000)
         else v.trace == read + [Parked(io.cleanup)] && v.applied.None? && v.fault == OutputFault
              && v.retryAt == SatAdd(now, 5_000)
  {
    hide FrameFor, LiveLevel, LiveTemperature, Encode, AckCurrent, Durable, TracksMeetTarget;
  }

  /** The output was driven or read back, or the record could not be saved. */
  predicate Attended(e: Event) { e.Applied? || e.Checked? || (e.Stored? && !e.ok) }

  /** No acknowledged output goes unattended: five seconds after any moment the next tick drives it or reads it back. */
  lemma NeverUnattended(w: World, now: Clock, io: Io)
    requires Inv(w) && CheckSoon(w) && w.applied.Some? && w.now + 5_000 <= now
    ensures var v := Tick(w, now, io);
      && w.trace <= v.trace
      && exists i :: |w.trace| <= i < |v.trace| && Attended(v.trace[i])
  {
    hide FrameFor, LiveLevel, LiveTemperature, Encode, AckCurrent, Durable, TracksMeetTarget, TickLoaded, Attended;
    TickOnLoaded(w, now, io);
    LoadedAttends(w.(now := now), io);
  }

  lemma TickOnLoaded(w: World, now: Clock, io: Io)
    requires Inv(w) && w.applied.Some?
    ensures Tick(w, now, io) == TickLoaded(w.(now := now), io) && w.loadFault.None?
  {
    hide FrameFor, TickLoaded, Reload, AckCurrent, Durable, TracksMeetTarget;
  }

  lemma LoadedAttends(w: World, io: Io)
    requires w.applied.Some? && w.nextVerify <= w.now
    ensures var v := TickLoaded(w, io);
      && w.trace <= v.trace
      && exists i :: |w.trace| <= i < |v.trace| && Attended(v.trace[i])
  {
    hide FrameFor, LiveLevel, LiveTemperature, Encode, OutputFailed, Reconcile;
    var saved := SaveIntent(w, io);
    var v := TickLoaded(w, io);
    if saved.reply != Okay {
      assert Attended(v.trace[|w.trace|]);
    } else if saved.world.applied != Some(Effective(saved.world)) {
      ReconcileDrives(saved.world, io);
      assert Attended(v.trace[|saved.world.trace|]);
    } else {
      FailureAppends(ExpireTracks(saved.world).(nextVerify := SatAdd(w.now, RETRY_MS),
        trace := saved.world.trace + [Checked(saved.world.applied.value, io.check)]), io);
      assert Attended(v.trace[|saved.world.trace|]);
    }
  }

  lemma ReconcileDrives(w: World, io: Io)
    requires w.applied.Some? && w.applied != Some(Effective(w))
    ensures var v := Reconcile(w, io).world; w.trace < v.trace && v.trace[|w.trace|].Applied?
  {
    hide FrameFor, LiveLevel, LiveTemperature;
  }

  lemma FailureAppends(w: World, io: Io)
    ensures OutputFailed(w, io).trace == w.trace + [Parked(io.cleanup)]
  {
  }

  /**
   * A lamp at rest whose registers are lost is found out by the first tick at which the readback is due, is reported
   * unavailable, and is brought back to exactly its target by three healthy ticks, from proven zero.
   */
  lemma LostRegistersRepaired(w: World, now: Clock, io: Io, first: Clock, second: Clock, third: Clock)
    requires Inv(w) && Settled(w) && w.now <= now && w.nextVerify <= now && !io.check
    requires SatAdd(now, 5_000) <= first && first + DEFAULT_TRANSITION_MS <= second <= third
    ensures var lost := Tick(w, now, io);
      var v := Tick(Tick(Tick(lost, first, ALL_WELL), second, ALL_WELL), third, ALL_WELL);
      && Reported(lost).None? && lost.applied.None? && Settled(v) && v.target == w.target
  {
    hide Inv, Tick, FrameFor;
    SettledFrame(w.target, now);
    PeriodicCheck(w, now, io);
    TickInv(w, now, io);
    RecoverySettles(Tick(w, now, io), first, second, third);
  }

  // ----- on demand

  /** A readback on demand is the same one; without an acknowledged frame there is nothing to read back. */
  lemma VerifyOnDemand(w: World, io: Io)
    ensures var d := Verify(w, io); var v := d.world;
      if w.applied.None? then v == w && d.reply == InvalidState
      else
        var read := w.trace + [Checked(w.applied.value, io.check)];
        && (d.reply == Okay <==> io.check)
        && if io.check then v == w.(trace := read)
           else v.trace == read + [Parked(io.cleanup)] && v.applied.None? && v.fault == OutputFault
                && v.target == w.target && v.retryAt == SatAdd(w.now, 5_000)
  {
  }

  /** A diagnostic sample of the registers changes nothing unless it fails, which counts as an output failure. */
  lemma SampleOnDemand(w: World, io: Io)
    ensures var d := Registers(w, io); var v := d.world; var sampled := w.trace + [Sampled(io.check)];
      && (d.reply == Okay <==> io.check)
      && if io.check then v == w.(trace := sampled)
         else v.trace == sampled + [Parked(io.cleanup)] && v.applied.None? && v.fault == OutputFault
              && v.target == w.target && v.retryAt == SatAdd(w.now, 5_000)
  {
  }

  /** Preparing a reboot shuts the output down, answers whether that was verified, and keeps the target. */
  lemma RebootPrepared(w: World, io: Io)
    ensures var d := PrepareReboot(w, io); var v := d.world;
      && v.trace == w.trace + [Parked(io.stop)] && (d.reply == Okay <==> io.stop)
      && v.applied.None? && v.fault == Rebooting && v.target == w.target && v.store == w.store
      && Blocked(v) == Some(Busy)
  {
  }

  // ----- retries

  /** Until its retry time a failed runtime leaves storage and output alone. */
  lemma QuietUntilRetry(w: World, now: Clock, io: Io)
    requires now < w.retryAt
    ensures Tick(w, now, io) == w.(now := now)
  {
  }

  /** A tick that fails, at whatever it was doing, sets the retry time five seconds ahead. */
  lemma FailedTickBacksOff(w: World, now: Clock, io: Io)
    requires Inv(w) && w.retryAt <= now && w.fault != Rebooting && w.loadFault != Some(InvalidRecord)
    requires Tick(w, now, io).fault != NoFault
    ensures Tick(w, now, io).retryAt == now + 5_000
  {
    hide TickLoaded, Encode;
    var timed := w.(now := now);
    if w.loadFault == Some(StorageFault) {
      var reading := ReadRecord(w.store, io.read);
      if reading.Readable? {
        FailedLoadedBacksOff(Reload(timed.(trace := w.trace + [Loaded(io.read)]), reading.saved), io);
      }
    } else {
      FailedLoadedBacksOff(timed, io);
    }
  }

  lemma FailedLoadedBacksOff(w: World, io: Io)
    requires w.applied.Some? ==> w.fault == NoFault
    requires TickLoaded(w, io).fault != NoFault
    ensures TickLoaded(w, io).retryAt == w.now + 5_000
  {
    hide SaveIntent, Reconcile, FrameFor, LiveLevel, LiveTemperature;
    SaveAnswer(w, io);
    ReconcileAnswer(SaveIntent(w, io).world, io);
    SaveSchedules(w, io);
    if SaveIntent(w, io).reply == Okay { SaveKeepsApplied(w, io); }
  }

  lemma SaveKeepsApplied(w: World, io: Io)
    requires SaveIntent(w, io).reply == Okay
    ensures SaveIntent(w, io).world.applied == w.applied
  {
    hide Encode;
  }
}
