/** A record that is read late: what it may do to the target, and that a local Off outlasts it. */
module LateLoad {
  import opened Basics
  import opened Light
  import opened Record
  import opened RuntimeModel
  import opened RuntimeInvariant
  import opened Behaviour
  import opened Settling
  import opened Commands

  lemma LoadedTickKeeps(w: World, io: Io)
    requires w.fault != Rebooting
    ensures var v := TickLoaded(w, io);
      v.target == w.target && v.loadFault == w.loadFault && v.offAfterLoad == w.offAfterLoad && v.startup == w.startup
      && v.fault != Rebooting
  {
    hide Reconcile, Encode, FrameFor, LiveLevel, LiveTemperature;
    var saved := SaveIntent(w, io);
    if saved.reply == Okay {
      ReconcileOutputOnly(saved.world, io);
      ReconcileAnswer(saved.world, io);
    }
  }

  /** A tick changes the target exactly by a late load, which also ends the refusal of commands. */
  lemma TickTarget(w: World, now: Clock, io: Io)
    ensures var v := Tick(w, now, io);
      && v.offAfterLoad == w.offAfterLoad
      && if LoadsLate(w, now, io) then
           && v.target == LateTarget(w) && v.startup == ReadRecord(w.store, true).saved.startup
           && v.loadFault.None? && Blocked(v).None?
         else
           && v.target == w.target && Blocked(v) == Blocked(w)
           && (v.loadFault == Some(StorageFault) ==> w.loadFault == Some(StorageFault))
           && (w.loadFault != Some(StorageFault) ==> v.loadFault == w.loadFault)
  {
    hide TickLoaded;
    var timed := w.(now := now);
    if LoadsLate(w, now, io) {
      LoadedTickKeeps(Reload(timed.(trace := w.trace + [Loaded(io.read)]), ReadRecord(w.store, io.read).saved), io);
    } else if w.loadFault.None? && w.fault != Rebooting {
      LoadedTickKeeps(timed, io);
    }
  }

  /** This tick turns the light on: it reads a record that asks for On, and no local Off came first. */
  predicate LightsLate(w: World, now: Clock, io: Io) { LoadsLate(w, now, io) && LateTarget(w).on }

  /** Among the commands that ask for no light, an Off target is turned On by a late load and by nothing else. */
  lemma OffStep(w: World, c: Command, io: Io)
    requires Inv(w) && !w.target.on && AsksNoLight(c)
    ensures Step(w, c, io).world.target.on <==> c.CmdTick? && LightsLate(w, c.now, io)
  {
    if c.CmdTick? {
      hide Tick;
      TickTarget(w, c.now, io);
    } else if IsSetter(c) {
      hide Step;
      SetterOutcome(w, c, io);
    } else if c.CmdLocalOff? {
      hide LocalOff;
      LocalOffShows(w, io);
    } else {
      hide Encode;
    }
  }

  /** Off, with nothing left that could undo it: the record is read, or a local Off is remembered for when it is. */
  predicate KeptOff(w: World) { !w.target.on && (w.loadFault == Some(StorageFault) ==> w.offAfterLoad) }

  lemma KeptOffStep(w: World, c: Command, io: Io)
    requires Inv(w) && KeptOff(w) && AsksNoLight(c)
    ensures KeptOff(Step(w, c, io).world)
  {
    hide Step;
    OffStep(w, c, io);
    RemembersOff(w, c, io);
  }

  /** Nothing forgets a local Off before the record is read, and nothing makes a read record unread. */
  lemma RemembersOff(w: World, c: Command, io: Io)
    requires Inv(w)
    ensures var v := Step(w, c, io).world;
      v.loadFault == Some(StorageFault) ==> w.loadFault == Some(StorageFault) && (w.offAfterLoad ==> v.offAfterLoad)
  {
    if c.CmdTick? {
      hide Tick;
      TickTarget(w, c.now, io);
    } else if IsSetter(c) {
      hide Step;
      SetterOutcome(w, c, io);
    } else if c.CmdLocalOff? {
      hide Reconcile, Encode;
      LocalOffRemembered(w, io);
    } else {
      hide Encode;
    }
  }

  lemma LocalOffRemembered(w: World, io: Io)
    ensures var v := LocalOff(w, io).world;
      v.loadFault == Some(StorageFault) ==> w.loadFault == Some(StorageFault) && v.offAfterLoad
  {
    hide Reconcile, SaveIntent;
    var saved := SaveIntent(Darken(w, io), io).world;
    SaveAnswer(Darken(w, io), io);
    ReconcileOutputOnly(Repaired(saved), io);
  }

  lemma {:induction false} KeptOffRun(w: World, actions: seq<Action>)
    requires Inv(w) && KeptOff(w) && TimelyRun(w.now, actions)
    requires forall i :: 0 <= i < |actions| ==> AsksNoLight(actions[i].command)
    ensures KeptOff(Run(w, actions))
    decreases |actions|
  {
    hide Inv, Step, KeptOff;
    if actions != [] {
      StepInv(w, actions[0].command, actions[0].io);
      KeptOffStep(w, actions[0].command, actions[0].io);
      KeptOffRun(Step(w, actions[0].command, actions[0].io).world, actions[1..]);
    }
  }

  /**
   * A local Off answered Okay over a record that is read or malformed has made Off its content, repairing it, and has
   * proved the output dark; over an unread record it has at least shut the output down.
   */
  lemma LocalOffOutcome(w: World, io: Io)
    requires Inv(w) && LocalOff(w, io).reply == Okay
    ensures var v := LocalOff(w, io).world;
      && v.target == w.target.(on := false) && v.startup == w.startup
      && if w.loadFault == Some(StorageFault) then v.trace == w.trace + [Parked(true)] && v.offAfterLoad
         else
           && v.loadFault.None? && v.applied.Some? && v.applied.value.brightness == 0
           && ReadRecord(v.store, true) == Readable(Saved(v.target, v.startup, false))
  {
    hide Reconcile, SaveIntent;
    LocalOffInv(w, io);
    LocalOffShows(w, io);
    var dark := Darken(w, io);
    SaveAnswer(dark, io);
    if w.loadFault != Some(StorageFault) && SaveIntent(dark, io).reply == Okay {
      ReconcileOutputOnly(Repaired(SaveIntent(dark, io).world), io);
      ReconcileAnswer(Repaired(SaveIntent(dark, io).world), io);
    }
  }

  /**
   * A local Off is final: whether or not the record could be read when it was given, and whatever its own outcome, no
   * later run of ticks and commands that ask for no light turns the target On, however late the record is read.
   */
  lemma LocalOffOutlastsLoad(w: World, io: Io, actions: seq<Action>)
    requires Inv(w) && TimelyRun(w.now, actions)
    requires forall i :: 0 <= i < |actions| ==> AsksNoLight(actions[i].command)
    ensures !Run(LocalOff(w, io).world, actions).target.on
  {
    hide Inv, LocalOff;
    var v := LocalOff(w, io).world;
    LocalOffInv(w, io);
    LocalOffRemembered(w, io);
    LocalOffShows(w, io);
    KeptOffRun(v, actions);
  }
}
