/** Reports: whatever a controller can read changes only together with the revision that makes it look. */
module Reports {
  import opened Basics
  import opened Light
  import opened Record
  import opened RuntimeModel
  import opened RuntimeInvariant
  import opened Settling
  import opened Commands
  import opened LateLoad

  /**
   * Nothing a controller can read has changed: the state reported, or that there is none, and the start-up settings.
   */
  predicate LooksSame(w: World, v: World)
  {
    Reported(v) == Reported(w) && v.startup == w.startup && v.revision == w.revision
  }

  /** The counter has moved by one or two, and so shows a different number. */
  predicate Moved(a: nat, b: nat) { b == WrapInc(a) || b == WrapInc(WrapInc(a)) }

  lemma MovedDiffers(a: nat, b: nat)
    requires a <= U32_MAX && Moved(a, b)
    ensures a != b && b <= U32_MAX
  {
  }

  lemma SaveRevision(w: World, io: Io)
    ensures var d := SaveIntent(w, io); var v := d.world;
      && v.startup == w.startup && v.target == w.target
      && if d.reply == Okay then v.revision == w.revision && v.applied == w.applied && v.fault == w.fault
         else v.revision == WrapInc(w.revision)
  {
    hide Encode;
  }

  /** Driving the output counts exactly when it is found or lost. */
  lemma ReconcileRevision(w: World, io: Io)
    ensures var d := Reconcile(w, io); var v := d.world;
      && v.startup == w.startup && v.target == w.target
      && (d.reply == Okay ==> v.applied.Some? && v.fault == NoFault)
      && v.revision == (if d.reply == Okay && w.applied.Some? then w.revision else WrapInc(w.revision))
  {
    hide FrameFor, LiveLevel, LiveTemperature;
  }

  lemma CommitRevision(w: World, target: LightState, io: Io)
    ensures Moved(w.revision, Commit(w, target, io).world.revision)
  {
    hide SaveIntent, Reconcile;
    var pending := w.(dirty := w.dirty || w.target != target, target := target, revision := WrapInc(w.revision));
    SaveRevision(pending, io);
    ReconcileRevision(SaveIntent(pending, io).world, io);
  }

  lemma SetterRevision(w: World, c: Command, io: Io)
    requires Inv(w) && IsSetter(c)
    ensures var v := Step(w, c, io).world; v == w || Moved(w.revision, v.revision)
  {
    hide Step, Commit, Asked, Retracked, Inv, Moved;
    SetterOutcome(w, c, io);
    if Asked(w, c).Some? {
      SetterCommits(w, c, io);
      CommitRevision(Retracked(w, c), Asked(w, c).value, io);
    }
  }

  lemma LocalOffRevision(w: World, io: Io)
    requires Inv(w)
    ensures var v := LocalOff(w, io).world; LooksSame(w, v) || Moved(w.revision, v.revision)
  {
    hide SaveIntent, Reconcile, Encode;
    SaveRevision(Darken(w, io), io);
    ReconcileRevision(Repaired(SaveIntent(Darken(w, io), io).world), io);
  }

  lemma LoadedRevision(w: World, io: Io)
    ensures var v := TickLoaded(w, io);
      v.startup == w.startup
      && ((Reported(v) == Reported(w) && v.revision == w.revision) || v.revision == WrapInc(w.revision)
          || (w.applied.Some? && w.fault != NoFault))
  {
    hide SaveIntent, Reconcile, FrameFor, LiveLevel, LiveTemperature;
    SaveRevision(w, io);
    ReconcileRevision(SaveIntent(w, io).world, io);
  }

  lemma TickRevision(w: World, now: Clock, io: Io)
    requires Inv(w)
    ensures var v := Tick(w, now, io); LooksSame(w, v) || Moved(w.revision, v.revision)
  {
    hide TickLoaded, AckCurrent, Durable, TracksMeetTarget;
    var timed := w.(now := now);
    if w.fault == Rebooting || now < w.retryAt {
    } else if w.loadFault == Some(StorageFault) {
      var reading := ReadRecord(w.store, io.read);
      if reading.Readable? { LoadedRevision(Reload(timed.(trace := w.trace + [Loaded(io.read)]), reading.saved), io); }
    } else if w.loadFault.None? {
      LoadedRevision(timed, io);
    }
  }

  lemma OtherRevision(w: World, c: Command, io: Io)
    requires Inv(w) && !IsSetter(c) && !c.CmdTick? && !c.CmdLocalOff?
    ensures var v := Step(w, c, io).world; LooksSame(w, v) || Moved(w.revision, v.revision)
  {
    hide Encode, AckCurrent, Durable, TracksMeetTarget;
  }

  /** No operation changes what a controller reads, at success or at any error exit, without moving the revision. */
  lemma NothingChangesSilently(w: World, c: Command, io: Io)
    requires Inv(w) && w.revision <= U32_MAX
    ensures var v := Step(w, c, io).world;
      && v.revision <= U32_MAX
      && (v.revision == w.revision ==> Reported(v) == Reported(w) && v.startup == w.startup)
  {
    hide Step, Inv, Moved, LooksSame;
    var v := Step(w, c, io).world;
    if IsSetter(c) {
      SetterRevision(w, c, io);
      SameLooks(w, v);
    } else if c.CmdTick? {
      TickRevision(w, c.now, io);
      StepTick(w, c.now, io);
    } else if c.CmdLocalOff? {
      LocalOffRevision(w, io);
      StepLocalOff(w, io);
    } else {
      OtherRevision(w, c, io);
    }
    if Moved(w.revision, v.revision) { MovedDiffers(w.revision, v.revision); } else { LooksMeaning(w, v); }
  }

  lemma SameLooks(w: World, v: World)
    requires v == w || Moved(w.revision, v.revision)
    ensures LooksSame(w, v) || Moved(w.revision, v.revision)
  {
  }

  lemma LooksMeaning(w: World, v: World)
    requires LooksSame(w, v)
    ensures Reported(v) == Reported(w) && v.startup == w.startup && v.revision == w.revision
  {
  }

  lemma StepTick(w: World, now: Clock, io: Io)
    ensures Step(w, CmdTick(now), io).world == Tick(w, now, io)
  {
    hide Tick;
  }

  lemma StepLocalOff(w: World, io: Io)
    ensures Step(w, CmdLocalOff, io) == LocalOff(w, io)
  {
    hide LocalOff;
  }

  /** What is reported: the target, exactly while some frame of it is acknowledged. */
  lemma ReportedMeaning(w: World)
    requires Inv(w)
    ensures Reported(w) == if w.applied.Some? then Some(w.target) else None
  {
    hide AckCurrent, Durable, TracksMeetTarget, FrameFor;
  }
}
