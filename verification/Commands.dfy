/** What a command asks for, what its answer means, and that an accepted command is never lost. */
module Commands {
  import opened Basics
  import opened Light
  import opened Curve
  import opened Record
  import opened RuntimeModel
  import opened RuntimeInvariant
  import opened Settling

  predicate IsSetter(c: Command)
  {
    c.CmdPower? || c.CmdLevel? || c.CmdTemperature? || c.CmdScene? || c.CmdEffect? || c.CmdStopLevel?
      || c.CmdStopTemperature?
  }

  /** The state a setter asks for; None if it is refused or, for a Stop, if there is nothing to stop. */
  function Asked(w: World, c: Command): Option<LightState>
  {
    if Blocked(w).Some? then None
    else
      match c
      case CmdPower(on) => Some(w.target.(on := on))
      case CmdLevel(level, withOnOff, ms, _) =>
        if level == 255 || ms > 60_000_000 then None
        else if withOnOff && level <= 1 then Some(w.target.(on := false, level := 1))
        else if withOnOff then Some(w.target.(on := true, level := level))
        else Some(w.target.(level := Max(level, 1)))
      case CmdTemperature(to, ms, _) => if ms > 60_000_000 then None else Some(w.target.(temperature := to))
      case CmdScene(target, ms) => if ms > 60_000_000 then None else Some(target)
      case CmdEffect(_) => Some(w.target.(on := false))
      case CmdStopLevel =>
        if w.level.None? || w.applied.None? then None
        else Some(StopTarget(w, w.applied.value, w.level.value))
      case CmdStopTemperature =>
        if w.temperature.None? || w.applied.None? then None
        else Some(w.target.(temperature := w.applied.value.state.temperature))
      case _ => None
  }

  /** What a commit's answer says, whichever step failed. */
  lemma CommitAnswer(w: World, target: LightState, io: Io)
    requires Blocked(w).None?
    ensures var d := Commit(w, target, io); var v := d.world;
      && v.target == target && v.startup == w.startup && v.now == w.now
      && (d.reply == Okay <==> v.applied.Some?) && (d.reply == Okay ==> !v.dirty)
      && (d.reply != Okay ==> v.retryAt == SatAdd(w.now, RETRY_MS))
      && Recoverable(v) && v.loadFault.None?
  {
    hide SaveIntent, Reconcile;
    var pending := w.(dirty := w.dirty || w.target != target, target := target, revision := WrapInc(w.revision));
    SaveAnswer(pending, io);
    ReconcileOutputOnly(SaveIntent(pending, io).world, io);
    ReconcileAnswer(SaveIntent(pending, io).world, io);
  }

  lemma SaveAnswer(w: World, io: Io)
    ensures var d := SaveIntent(w, io); var v := d.world;
      && v.target == w.target && v.startup == w.startup && v.loadFault == w.loadFault
      && if d.reply == Okay then !v.dirty && v.fault == w.fault
         else v.applied.None? && v.fault == StorageFault && v.retryAt == SatAdd(w.now, RETRY_MS)
  {
    hide Encode;
  }

  lemma ReconcileAnswer(w: World, io: Io)
    ensures var d := Reconcile(w, io); var v := d.world;
      if d.reply == Okay then v.applied.Some? && v.fault == NoFault
      else v.applied.None? && v.fault == OutputFault && v.retryAt == SatAdd(w.now, RETRY_MS)
  {
    hide FrameFor, LiveLevel, LiveTemperature;
  }

  /** The tracks a setter has in place when it commits. */
  function Retracked(w: World, c: Command): (u: World)
    requires IsSetter(c) && Asked(w, c).Some?
    ensures u == w.(level := u.level, temperature := u.temperature)
  {
    var t := Asked(w, c).value;
    match c
    case CmdPower(on) => if on == w.target.on then w else PowerTracks(w, t)
    case CmdLevel(level, withOnOff, ms, shape) =>
      if KeepsLevelTrack(w, t, withOnOff, shape) then w
        else LevelTracks(w, t, if shape == Smooth then Duration(ms) else ms, shape)
    case CmdTemperature(to, ms, shape) => TemperatureTracks(w, to, if shape == Smooth then Duration(ms) else ms, shape)
    case CmdScene(target, ms) => if target == w.target then w else SceneTracks(w, target, Duration(ms))
    case CmdEffect(effect) => EffectTracks(w, effect)
    case CmdStopLevel => w.(level := None)
    case _ => w.(temperature := None)
  }

  /** An accepted setter is a change of tracks followed by a commit of what it asked for. */
  lemma SetterCommits(w: World, c: Command, io: Io)
    requires IsSetter(c) && Asked(w, c).Some?
    ensures Step(w, c, io) == Commit(Retracked(w, c), Asked(w, c).value, io)
  {
    hide Commit, SceneTracks, PowerTracks, EffectTracks, LevelTracks, TemperatureTracks, StopTarget;
  }

  /**
   * Answers mean what they say. A refused setter changes nothing at all. An accepted one makes exactly what it asked
   * for the target; Okay means that it is the record and that a frame is acknowledged; any other answer means that
   * nothing is acknowledged and a retry is scheduled.
   */
  lemma SetterOutcome(w: World, c: Command, io: Io)
    requires Inv(w) && IsSetter(c)
    ensures var d := Step(w, c, io); var v := d.world;
      match Asked(w, c)
      case None => v == w && (d.reply == Okay ==>
        Blocked(w).None? && ((c.CmdStopLevel? && w.level.None?) || (c.CmdStopTemperature? && w.temperature.None?)))
      case Some(t) =>
        && v.target == t && v.startup == w.startup && Recoverable(v) && v.loadFault.None?
        && (d.reply == Okay ==> v.applied.Some? && ReadRecord(v.store, true) == Readable(Saved(t, w.startup, false)))
        && (d.reply != Okay ==> v.applied.None? && v.retryAt == SatAdd(w.now, RETRY_MS))
  {
    if Asked(w, c).Some? {
      hide Step, Asked, Commit, Retracked, TracksMeetTarget, TracksStarted, AckCurrent, AckHealthy, LoadGate;
      SetterCommits(w, c, io);
      AskedUnblocked(w, c);
      CommitAnswer(Retracked(w, c), Asked(w, c).value, io);
      StepInv(w, c, io);
    } else {
      hide Commit;
    }
  }

  lemma AskedUnblocked(w: World, c: Command)
    requires Asked(w, c).Some?
    ensures Blocked(w).None?
  {
  }

  /**
   * An accepted setter is never lost, whatever its own answer was: once storage and output work, three healthy ticks
   * settle the light on exactly what was asked for.
   */
  lemma AcceptedSettles(w: World, c: Command, io: Io, first: Clock, second: Clock, third: Clock)
    requires Inv(w) && IsSetter(c) && Asked(w, c).Some?
    requires var v := Step(w, c, io).world;
      w.now <= first && v.retryAt <= first && (v.applied.Some? ==> Due(v, first))
    requires first + DEFAULT_TRANSITION_MS <= second <= third
    ensures var v := Tick(Tick(Tick(Step(w, c, io).world, first, ALL_WELL), second, ALL_WELL), third, ALL_WELL);
      Settled(v) && v.target == Asked(w, c).value
  {
    hide Step, Asked, Tick, Inv, Settled, Due;
    var v := Step(w, c, io).world;
    SetterOutcome(w, c, io);
    StepInv(w, c, io);
    if v.applied.Some? {
      TwoTicksSettle(v, first, second);
      var settled := Tick(Tick(v, first, ALL_WELL), second, ALL_WELL);
      TickInv(v, first, ALL_WELL);
      TickInv(Tick(v, first, ALL_WELL), second, ALL_WELL);
      SettledStays(settled, third);
    } else {
      RecoverySettles(v, first, second, third);
    }
  }
}
