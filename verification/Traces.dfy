/** What the event trace of a run says: acknowledgement, durable storage and zero-first restarts. */
module Traces {
  import opened Basics
  import opened Light
  import opened Record
  import opened RuntimeModel
  import opened RuntimeInvariant

  /**
   * The acknowledged frame after a trace: set by a successful apply, lost by any shutdown and any failed output
   * operation.
   */
  function Ack(trace: seq<Event>): Option<OutputFrame>
    decreases |trace|
  {
    if trace == [] then None
    else AckStep(Ack(trace[..|trace| - 1]), trace[|trace| - 1])
  }

  function AckStep(before: Option<OutputFrame>, e: Event): Option<OutputFrame>
  {
    match e
    case Stored(_, _) => before
    case Loaded(_) => before
    case Parked(_) => None
    case Applied(f, ok) => if ok then Some(f) else None
    case Checked(_, ok) => if ok then before else None
    case Sampled(ok) => if ok then before else None
  }

  /** The durable record after a trace: only successful writes change it. */
  function StoreAfter(initial: Option<seq<byte>>, trace: seq<Event>): Option<seq<byte>>
    decreases |trace|
  {
    if trace == [] then initial
    else StoreStep(StoreAfter(initial, trace[..|trace| - 1]), trace[|trace| - 1])
  }

  function StoreStep(before: Option<seq<byte>>, e: Event): Option<seq<byte>>
  {
    if e.Stored? && e.ok then Some(e.data) else before
  }

  /** A frame applied without acknowledgement is dark, and directly preceded by a successful shutdown. */
  predicate ZeroFirst(trace: seq<Event>)
  {
    forall i :: 0 <= i < |trace| && trace[i].Applied? && Ack(trace[..i]).None? ==>
      && i > 0 && trace[i - 1] == Parked(true)
      && trace[i].frame.brightness == 0 && !trace[i].frame.state.on
  }

  /** Acknowledgement and record are what the trace says, from the record found at boot, and restarts are zero-first. */
  predicate TraceSays(initial: Option<seq<byte>>, trace: seq<Event>, applied: Option<OutputFrame>,
    store: Option<seq<byte>>)
  {
    Ack(trace) == applied && StoreAfter(initial, trace) == store && ZeroFirst(trace)
  }

  predicate Traced(initial: Option<seq<byte>>, w: World)
  {
    TraceSays(initial, w.trace, w.applied, w.store)
  }

  /**
   * What the events since index n may contain: every successful write carries the given target and settings,
   * and output is only driven when `clean`, that is, when they are durable, and nothing is written afterwards.
   */
  predicate WroteAhead(n: nat, trace: seq<Event>, target: LightState, startup: Settings, clean: bool)
  {
    && n <= |trace|
    && (forall p :: n <= p < |trace| && trace[p].Stored? && trace[p].ok ==> trace[p].data == Encode(target, startup))
    && (forall p :: n <= p < |trace| && trace[p].Applied? ==> clean)
    && (forall p, q :: n <= p < q < |trace| && trace[p].Applied? ==> !trace[q].Stored?)
  }

  predicate Ahead(n: nat, w: World)
  {
    WroteAhead(n, w.trace, w.target, w.startup, !w.dirty && w.loadFault.None?)
  }

  /** No output has been driven since index n. */
  predicate Silent(n: nat, trace: seq<Event>)
  {
    forall p :: n <= p < |trace| ==> !trace[p].Applied?
  }

  /** From w to v the trace grew, v's fields are what it says, and everything since index n was written ahead. */
  predicate Grown(initial: Option<seq<byte>>, n: nat, w: World, v: World)
  {
    Traced(initial, v) && w.trace <= v.trace && Ahead(n, v)
  }

  lemma Append(initial: Option<seq<byte>>, t: seq<Event>, e: Event)
    ensures Ack(t + [e]) == AckStep(Ack(t), e)
    ensures StoreAfter(initial, t + [e]) == StoreStep(StoreAfter(initial, t), e)
  {
    assert (t + [e])[..|t|] == t;
  }

  lemma AppendZeroFirst(t: seq<Event>, e: Event)
    requires ZeroFirst(t)
    requires e.Applied? && Ack(t).None? ==>
      |t| > 0 && t[|t| - 1] == Parked(true) && e.frame.brightness == 0 && !e.frame.state.on
    ensures ZeroFirst(t + [e])
  {
    var u := t + [e];
    forall i | 0 <= i < |u| && u[i].Applied? && Ack(u[..i]).None?
      ensures i > 0 && u[i - 1] == Parked(true) && u[i].frame.brightness == 0 && !u[i].frame.state.on
    {
      if i < |t| { assert u[..i] == t[..i]; } else { assert u[..i] == t; }
    }
  }

  /** One more event, other than driving output, keeps everything the trace says. */
  lemma Extend(initial: Option<seq<byte>>, w: World, v: World, e: Event)
    requires Traced(initial, w) && !e.Applied?
    requires v.trace == w.trace + [e] && v.applied == AckStep(w.applied, e) && v.store == StoreStep(w.store, e)
    requires v.target == w.target && v.startup == w.startup
    ensures Traced(initial, v) && w.trace <= v.trace
  {
    Append(initial, w.trace, e);
    AppendZeroFirst(w.trace, e);
  }

  lemma ExtendAhead(n: nat, w: World, v: World, e: Event)
    requires Ahead(n, w) && !e.Applied? && v.trace == w.trace + [e] && v.target == w.target && v.startup == w.startup
    requires Silent(n, w.trace) || (!e.Stored? && v.dirty == w.dirty && v.loadFault == w.loadFault)
    requires e.Stored? && e.ok ==> e.data == Encode(v.target, v.startup)
    ensures Ahead(n, v)
    ensures Silent(n, w.trace) ==> Silent(n, v.trace)
  {
  }

  lemma SilentStart(trace: seq<Event>, target: LightState, startup: Settings, clean: bool)
    ensures Silent(|trace|, trace) && WroteAhead(|trace|, trace, target, startup, clean)
  {
  }

  lemma BootTraced(store: Option<seq<byte>>, io: Io)
    ensures Traced(store, Boot(store, io))
  {
    var boot := Boot(store, io);
    Append(store, [], Parked(io.stop));
    AppendZeroFirst([], Parked(io.stop));
    assert [] + [Parked(io.stop)] == [Parked(io.stop)];
    Append(store, [Parked(io.stop)], Loaded(io.read));
    AppendZeroFirst([Parked(io.stop)], Loaded(io.read));
    assert [Parked(io.stop)] + [Loaded(io.read)] == boot.trace;
  }

  /** A failed operation ends parked and unacknowledged, whatever was acknowledged before it. */
  lemma OutputFailedTraced(initial: Option<seq<byte>>, n: nat, w: World, before: Option<OutputFrame>, io: Io)
    requires TraceSays(initial, w.trace, before, w.store) && Ahead(n, w)
    ensures Grown(initial, n, w, OutputFailed(w, io))
  {
    hide TraceSays, WroteAhead, Silent;
    Extend(initial, w.(applied := before), OutputFailed(w, io), Parked(io.cleanup));
    ExtendAhead(n, w, OutputFailed(w, io), Parked(io.cleanup));
  }

  lemma SaveIntentTraced(initial: Option<seq<byte>>, n: nat, w: World, io: Io)
    requires Traced(initial, w) && Silent(n, w.trace) && Ahead(n, w)
    ensures var d := SaveIntent(w, io);
      && Grown(initial, n, w, d.world) && Silent(n, d.world.trace)
      && (d.reply == Okay ==> !d.world.dirty && d.world.loadFault == w.loadFault && d.world.applied == w.applied)
  {
    hide TraceSays, WroteAhead, Silent, Encode;
    var data := Encode(w.target, w.startup);
    var v := SaveIntent(w, io).world;
    if w.dirty {
      if io.store {
        Extend(initial, w, v, Stored(data, true));
        ExtendAhead(n, w, v, Stored(data, true));
      } else {
        var unsaved := w.(trace := w.trace + [Stored(data, false)]);
        Extend(initial, w, unsaved, Stored(data, false));
        ExtendAhead(n, w, unsaved, Stored(data, false));
        assert v.trace == unsaved.trace + [Parked(io.guard)];
        Extend(initial, unsaved, v, Parked(io.guard));
        ExtendAhead(n, unsaved, v, Parked(io.guard));
      }
    }
  }

  /** Driving a frame: dark and freshly parked if the acknowledgement was lost, and always written ahead. */
  lemma ExtendApplied(initial: Option<seq<byte>>, n: nat, w: World, v: World, frame: OutputFrame, ok: bool)
    requires Traced(initial, w) && Silent(n, w.trace) && Ahead(n, w) && !w.dirty && w.loadFault.None?
    requires w.applied.None? ==>
      |w.trace| > 0 && w.trace[|w.trace| - 1] == Parked(true) && frame.brightness == 0 && !frame.state.on
    requires v.trace == w.trace + [Applied(frame, ok)] && v.applied == (if ok then Some(frame) else None)
      && v.store == w.store
    requires v.target == w.target && v.startup == w.startup && v.dirty == w.dirty && v.loadFault == w.loadFault
    ensures Grown(initial, n, w, v)
  {
    Append(initial, w.trace, Applied(frame, ok));
    AppendZeroFirst(w.trace, Applied(frame, ok));
  }

  lemma ApplyEffectiveTraced(initial: Option<seq<byte>>, n: nat, w: World, io: Io)
    requires Traced(initial, w) && Silent(n, w.trace) && Ahead(n, w) && !w.dirty && w.loadFault.None?
    requires w.applied.None? ==>
      |w.trace| > 0 && w.trace[|w.trace| - 1] == Parked(true) && Effective(w).brightness == 0 && !Effective(w).state.on
    ensures Grown(initial, n, w, ApplyEffective(w, io).world)
  {
    hide TraceSays, WroteAhead, Silent, FrameFor;
    var frame := Effective(w);
    if w.applied != Some(frame) {
      var driven := w.(intended := frame.state, applied := if io.apply then Some(frame) else None,
                       trace := w.trace + [Applied(frame, io.apply)]);
      ExtendApplied(initial, n, w, driven, frame, io.apply);
      if !io.apply { OutputFailedTraced(initial, n, driven, None, io); }
    }
  }

  /** The ease-in track starts dark, and so does an Off target: the first frame after a park is always zero. */
  lemma EaseInStartsDark(w: World)
    requires w.level == EaseIn(w) && w.temperature.None?
    ensures Effective(w).brightness == 0 && !Effective(w).state.on
  {
    if w.level.Some? { Curve.ValueEndpoints(w.level.value.ramp, w.now); }
  }

  lemma ReconcileTraced(initial: Option<seq<byte>>, n: nat, w: World, io: Io)
    requires Traced(initial, w) && Silent(n, w.trace) && Ahead(n, w) && !w.dirty && w.loadFault.None?
    ensures Grown(initial, n, w, Reconcile(w, io).world)
  {
    hide TraceSays, WroteAhead, Silent, ApplyEffective, OutputFailed, FrameFor;
    if w.applied.Some? {
      ApplyEffectiveTraced(initial, n, w, io);
    } else {
      var parked := w.(trace := w.trace + [Parked(io.park)], level := EaseIn(w), temperature := None);
      Extend(initial, w, parked, Parked(io.park));
      ExtendAhead(n, w, parked, Parked(io.park));
      if io.park {
        EaseInStartsDark(parked);
        ApplyEffectiveTraced(initial, n, parked, io);
      } else {
        OutputFailedTraced(initial, n, w.(trace := w.trace + [Parked(false)]), None, io);
      }
    }
  }

  lemma CommitTraced(initial: Option<seq<byte>>, w: World, target: LightState, io: Io)
    requires Traced(initial, w) && w.loadFault.None?
    ensures Grown(initial, |w.trace|, w, Commit(w, target, io).world)
  {
    hide TraceSays, WroteAhead, Silent, SaveIntent, Reconcile;
    var pending := w.(dirty := w.dirty || w.target != target, target := target, revision := WrapInc(w.revision));
    SilentStart(w.trace, target, w.startup, !pending.dirty);
    SaveIntentTraced(initial, |w.trace|, pending, io);
    var saved := SaveIntent(pending, io);
    if saved.reply == Okay { ReconcileTraced(initial, |w.trace|, saved.world, io); }
  }

  /** A setter only changes tracks before it commits. */
  lemma SetterTraced(initial: Option<seq<byte>>, w: World, c: Command, io: Io)
    requires Traced(initial, w)
    requires c.CmdPower? || c.CmdLevel? || c.CmdTemperature? || c.CmdScene? || c.CmdEffect? || c.CmdStopLevel?
      || c.CmdStopTemperature?
    ensures Grown(initial, |w.trace|, w, Step(w, c, io).world)
  {
    hide TraceSays, WroteAhead, Silent, Commit, FrameFor, SceneTracks, PowerTracks, LevelTracks, TemperatureTracks,
      EffectTracks;
    SilentStart(w.trace, w.target, w.startup, !w.dirty && w.loadFault.None?);
    if Blocked(w).None? {
      forall v: World, target | v == w.(level := v.level, temperature := v.temperature)
        ensures Grown(initial, |w.trace|, w, Commit(v, target, io).world)
      {
        CommitTraced(initial, v, target, io);
      }
    }
  }

  lemma FinishOffTraced(initial: Option<seq<byte>>, n: nat, w: World, io: Io)
    requires Traced(initial, w) && Silent(n, w.trace) && Ahead(n, w) && !w.dirty
    ensures Grown(initial, n, w, FinishOff(w, io).world)
  {
    hide TraceSays, Reconcile, OutputFailed;
    var repaired := Repaired(w);
    if io.stop { ReconcileTraced(initial, n, repaired, io); } else {
      OutputFailedTraced(initial, n, repaired, w.applied, io);
    }
  }

  lemma LocalOffTraced(initial: Option<seq<byte>>, w: World, io: Io)
    requires Traced(initial, w)
    ensures Grown(initial, |w.trace|, w, LocalOff(w, io).world)
  {
    hide TraceSays, WroteAhead, Silent, SaveIntent, FinishOff;
    var dark := Darken(w, io);
    var before := dark.(trace := w.trace, applied := w.applied);
    SilentStart(w.trace, dark.target, w.startup, !dark.dirty && w.loadFault.None?);
    Extend(initial, before, dark, Parked(io.stop));
    ExtendAhead(|w.trace|, before, dark, Parked(io.stop));
    if w.loadFault == Some(StorageFault) {
      var v := LocalOff(w, io).world;
      SilentStart(w.trace, dark.target, w.startup, !v.dirty && v.loadFault.None?);
      ExtendAhead(|w.trace|, v.(trace := w.trace), v, Parked(io.stop));
    } else {
      SaveIntentTraced(initial, |w.trace|, dark, io);
      var saved := SaveIntent(dark, io);
      if saved.reply == Okay { FinishOffTraced(initial, |w.trace|, saved.world, io); }
    }
  }

  /** Looking at the output loses the acknowledgement if it fails, and changes nothing else if it does not. */
  lemma LookTraced(initial: Option<seq<byte>>, n: nat, w: World, e: Event, io: Io)
    requires Traced(initial, w) && Ahead(n, w)
    requires e == Sampled(io.check) || (w.applied.Some? && e == Checked(w.applied.value, io.check))
    ensures var looked := w.(trace := w.trace + [e]);
      Grown(initial, n, w, if io.check then looked else OutputFailed(looked, io))
  {
    hide TraceSays, WroteAhead, Silent, OutputFailed;
    var looked := w.(trace := w.trace + [e]);
    Extend(initial, w, looked.(applied := AckStep(w.applied, e)), e);
    ExtendAhead(n, w, looked, e);
    if !io.check { OutputFailedTraced(initial, n, looked, None, io); }
  }

  lemma ObserveTraced(initial: Option<seq<byte>>, w: World, io: Io)
    requires Traced(initial, w)
    ensures Grown(initial, |w.trace|, w, Verify(w, io).world)
    ensures Grown(initial, |w.trace|, w, Registers(w, io).world)
    ensures Grown(initial, |w.trace|, w, PrepareReboot(w, io).world)
  {
    hide TraceSays, WroteAhead, Silent, OutputFailed;
    SilentStart(w.trace, w.target, w.startup, !w.dirty && w.loadFault.None?);
    if w.applied.Some? { LookTraced(initial, |w.trace|, w, Checked(w.applied.value, io.check), io); }
    LookTraced(initial, |w.trace|, w, Sampled(io.check), io);
    Extend(initial, w, PrepareReboot(w, io).world, Parked(io.stop));
    ExtendAhead(|w.trace|, w, PrepareReboot(w, io).world, Parked(io.stop));
  }

  lemma SaveStartupTraced(initial: Option<seq<byte>>, w: World, startup: Settings, io: Io)
    requires Traced(initial, w)
    ensures Grown(initial, |w.trace|, w, SaveStartup(w, startup, io).world)
  {
    hide TraceSays, WroteAhead, Silent, Encode;
    var v := SaveStartup(w, startup, io).world;
    var e := Stored(Encode(w.target, startup), io.store);
    SilentStart(w.trace, w.target, v.startup, !v.dirty && v.loadFault.None?);
    if v.trace != w.trace {
      Extend(initial, w.(startup := v.startup), v, e);
      ExtendAhead(|w.trace|, v.(trace := w.trace), v, e);
    }
  }

  lemma TickSettledTraced(initial: Option<seq<byte>>, n: nat, w: World, io: Io)
    requires Traced(initial, w) && Ahead(n, w) && w.applied.Some?
    ensures Grown(initial, n, w, TickSettled(w, io))
  {
    hide TraceSays, WroteAhead, Silent, OutputFailed;
    var expired := ExpireTracks(w).(nextVerify := SatAdd(w.now, RETRY_MS));
    LookTraced(initial, n, expired, Checked(w.applied.value, io.check), io);
  }

  lemma TickLoadedTraced(initial: Option<seq<byte>>, n: nat, w: World, io: Io)
    requires Traced(initial, w) && Silent(n, w.trace) && Ahead(n, w) && w.loadFault.None?
    ensures Grown(initial, n, w, TickLoaded(w, io))
  {
    hide TraceSays, WroteAhead, Silent, SaveIntent, Reconcile, TickSettled, FrameFor;
    SaveIntentTraced(initial, n, w, io);
    var saved := SaveIntent(w, io);
    if saved.reply == Okay {
      if saved.world.applied != Some(Effective(saved.world)) {
        ReconcileTraced(initial, n, saved.world, io);
      } else {
        TickSettledTraced(initial, n, saved.world, io);
      }
    }
  }

  lemma TickReloadTraced(initial: Option<seq<byte>>, w: World, v: World, io: Io)
    requires Traced(initial, w) && w.applied.None?
    requires v.trace == w.trace + [Loaded(io.read)] && v.applied.None? && v.store == w.store
    ensures Grown(initial, |w.trace|, w, v) && Silent(|w.trace|, v.trace)
  {
    hide TraceSays, WroteAhead, Silent;
    var before := v.(trace := w.trace);
    SilentStart(w.trace, v.target, v.startup, !v.dirty && v.loadFault.None?);
    Extend(initial, before, v, Loaded(io.read));
    ExtendAhead(|w.trace|, before, v, Loaded(io.read));
  }

  lemma TickTraced(initial: Option<seq<byte>>, w: World, now: Clock, io: Io)
    requires LoadGate(w) && Traced(initial, w)
    ensures Grown(initial, |w.trace|, w, Tick(w, now, io))
  {
    hide TraceSays, WroteAhead, Silent, TickLoaded;
    var timed := w.(now := now);
    SilentStart(w.trace, w.target, w.startup, !w.dirty && w.loadFault.None?);
    if w.fault == Rebooting || now < w.retryAt {
    } else if w.loadFault == Some(StorageFault) {
      var reading := ReadRecord(w.store, io.read);
      if reading.Readable? {
        var reloaded := Reload(timed.(trace := w.trace + [Loaded(io.read)]), reading.saved);
        TickReloadTraced(initial, w, reloaded, io);
        TickLoadedTraced(initial, |w.trace|, reloaded, io);
      } else {
        TickReloadTraced(initial, w, Tick(w, now, io), io);
      }
    } else if w.loadFault.None? {
      TickLoadedTraced(initial, |w.trace|, timed, io);
    }
  }

  /** Every operation writes ahead, keeps its fields equal to what the trace says, and only extends the trace. */
  lemma StepTraced(initial: Option<seq<byte>>, w: World, c: Command, io: Io)
    requires Inv(w) && Traced(initial, w)
    ensures Grown(initial, |w.trace|, w, Step(w, c, io).world)
  {
    hide TraceSays, WroteAhead, Tick, LocalOff, SaveStartup, Verify, Registers, PrepareReboot;
    match c
    case CmdTick(now) => TickTraced(initial, w, now, io);
    case CmdLocalOff => LocalOffTraced(initial, w, io);
    case CmdVerify => ObserveTraced(initial, w, io);
    case CmdRegisters => ObserveTraced(initial, w, io);
    case CmdReboot => ObserveTraced(initial, w, io);
    case CmdStartupPower(policy) => StartupTraced(initial, w, policy, None, io);
    case CmdStartupLevel(level) => StartupTraced(initial, w, None, level, io);
    case CmdStartupTemperature(t) => SaveStartupTraced(initial, w, w.startup.(temperature := t), io);
    case _ => SetterTraced(initial, w, c, io);
  }

  lemma StartupTraced(initial: Option<seq<byte>>, w: World, policy: Option<StartUpOnOff>, level: Option<byte>, io: Io)
    requires Traced(initial, w)
    ensures Grown(initial, |w.trace|, w, SetStartupPower(w, policy, io).world)
    ensures Grown(initial, |w.trace|, w, SetStartupLevel(w, level, io).world)
  {
    hide TraceSays, WroteAhead, SaveStartup;
    SilentStart(w.trace, w.target, w.startup, !w.dirty && w.loadFault.None?);
    SaveStartupTraced(initial, w, w.startup.(power := if policy.Some? then 1 else 0), io);
    if level != Some(255) { SaveStartupTraced(initial, w, w.startup.(level := level), io); }
  }

  /**
   * In every reachable world the acknowledgement and the record are what the trace says, and restarts are zero-first.
   */
  lemma {:induction false} RunTraced(initial: Option<seq<byte>>, w: World, actions: seq<Action>)
    requires Inv(w) && Traced(initial, w) && TimelyRun(w.now, actions)
    ensures Traced(initial, Run(w, actions)) && w.trace <= Run(w, actions).trace
    decreases |actions|
  {
    if actions != [] {
      StepInv(w, actions[0].command, actions[0].io);
      StepTraced(initial, w, actions[0].command, actions[0].io);
      RunTraced(initial, Step(w, actions[0].command, actions[0].io).world, actions[1..]);
    }
  }

  // ----- zero first

  /** Acknowledgement can only come back through a successful apply that found it lost. */
  lemma {:induction false} AckRegained(trace: seq<Event>, i: nat, k: nat) returns (j: nat)
    requires i <= k <= |trace| && Ack(trace[..i]).None? && Ack(trace[..k]).Some?
    ensures i <= j < k && trace[j].Applied? && trace[j].ok && Ack(trace[..j]).None?
    decreases k
  {
    j := k - 1;
    assert trace[..k][..k - 1] == trace[..k - 1];
    if Ack(trace[..j]).Some? { j := AckRegained(trace, i, j); }
  }

  /**
   * Between any loss of acknowledgement and the next acknowledged lit frame of a run there is
   * an acknowledged zero frame directly preceded by a successful shutdown.
   */
  lemma ZeroFirstRestart(initial: Option<seq<byte>>, w: World, lost: nat, lit: nat) returns (zero: nat)
    requires Traced(initial, w)
    requires lost <= lit < |w.trace| && Ack(w.trace[..lost]).None?
    requires w.trace[lit].Applied? && Lit(w.trace[lit].frame)
    ensures lost <= zero < lit && zero > 0
    ensures w.trace[zero - 1] == Parked(true)
    ensures w.trace[zero].Applied? && w.trace[zero].ok && w.trace[zero].frame.brightness == 0
      && !w.trace[zero].frame.state.on
  {
    zero := AckRegained(w.trace, lost, lit);
  }

  // ----- write-ahead crash safety

  /**
   * The record reads back as exactly this target and these settings, so a boot restores that target's start-up
   * intent.
   */
  predicate Restores(record: Option<seq<byte>>, target: LightState, startup: Settings)
  {
    && ReadRecord(record, true) == Readable(Saved(target, startup, false))
    && Boot(record, ALL_WELL).target == StartupIntent(target, startup)
  }

  /** A write succeeded among the events of v from index n up to index cut. */
  predicate SavedBy(n: nat, trace: seq<Event>, cut: nat)
  {
    exists p :: n <= p < cut && p < |trace| && trace[p].Stored? && trace[p].ok
  }

  lemma {:induction false} StoreWithin(initial: Option<seq<byte>>, w: World, v: World, cut: nat)
    requires Grown(initial, |w.trace|, w, v) && Traced(initial, w)
    requires |w.trace| <= cut <= |v.trace|
    ensures StoreAfter(initial, v.trace[..cut]) ==
            if SavedBy(|w.trace|, v.trace, cut) then Some(Encode(v.target, v.startup)) else w.store
    decreases cut
  {
    if cut == |w.trace| {
      assert v.trace[..cut] == w.trace;
    } else {
      assert v.trace[..cut][..cut - 1] == v.trace[..cut - 1];
      StoreWithin(initial, w, v, cut - 1);
    }
  }

  /** Nothing is written once output has been driven, so the record is already the one the operation ends with. */
  lemma {:induction false} StoreAfterOutput(initial: Option<seq<byte>>, w: World, v: World, driven: nat, cut: nat)
    requires Grown(initial, |w.trace|, w, v)
    requires |w.trace| <= driven < |v.trace| && v.trace[driven].Applied? && driven <= cut <= |v.trace|
    ensures StoreAfter(initial, v.trace[..cut]) == v.store
    decreases |v.trace| - cut
  {
    if cut == |v.trace| {
      assert v.trace[..cut] == v.trace;
    } else {
      assert v.trace[..cut + 1][..cut] == v.trace[..cut];
      StoreAfterOutput(initial, w, v, driven, cut + 1);
    }
  }

  /**
   * A power cut anywhere inside any operation leaves either the previous record or the one holding the
   * operation's own target; from the moment a frame is driven it reads back as exactly the latter, and booting from
   * it restores that target's start-up intent. A clean runtime's previous record restores the previous target.
   */
  lemma PowerCut(initial: Option<seq<byte>>, w: World, c: Command, io: Io, cut: nat)
    requires Inv(w) && Traced(initial, w) && Timely(w.now, c)
    requires |w.trace| <= cut <= |Step(w, c, io).world.trace|
    ensures var v := Step(w, c, io).world; var record := StoreAfter(initial, v.trace[..cut]);
      && (record == w.store || (record == Some(Encode(v.target, v.startup)) && Restores(record, v.target, v.startup)))
      && (!w.dirty && w.loadFault.None? && record == w.store ==> Restores(record, w.target, w.startup))
      && (forall driven :: |w.trace| <= driven < |v.trace| && v.trace[driven].Applied? && driven <= cut ==>
            record == v.store && Restores(record, v.target, v.startup))
  {
    hide Step, Inv, Grown, Traced;
    var v := Step(w, c, io).world;
    StepInv(w, c, io);
    StepTraced(initial, w, c, io);
    CutRecord(initial, w, v, cut);
  }

  lemma CutRecord(initial: Option<seq<byte>>, w: World, v: World, cut: nat)
    requires Inv(w) && Inv(v) && Traced(initial, w) && Grown(initial, |w.trace|, w, v)
    requires |w.trace| <= cut <= |v.trace|
    ensures var record := StoreAfter(initial, v.trace[..cut]);
      && (record == w.store || (record == Some(Encode(v.target, v.startup)) && Restores(record, v.target, v.startup)))
      && (!w.dirty && w.loadFault.None? && record == w.store ==> Restores(record, w.target, w.startup))
      && (forall driven :: |w.trace| <= driven < |v.trace| && v.trace[driven].Applied? && driven <= cut ==>
            record == v.store && Restores(record, v.target, v.startup))
  {
    hide Encode, StartupIntent;
    StoreWithin(initial, w, v, cut);
    DecodeEncode(v.target, v.startup);
    forall driven | |w.trace| <= driven < |v.trace| && v.trace[driven].Applied? && driven <= cut
      ensures StoreAfter(initial, v.trace[..cut]) == v.store
    {
      StoreAfterOutput(initial, w, v, driven, cut);
    }
  }

  /** Target and settings of the last operation of a run that wrote the record successfully. */
  function LastSaved(w: World, actions: seq<Action>): Option<(LightState, Settings)>
    decreases |actions|
  {
    if actions == [] then None
    else
      var v := Step(w, actions[0].command, actions[0].io).world;
      var later := LastSaved(v, actions[1..]);
      if later.Some? then later
      else if SavedBy(|w.trace|, v.trace, |v.trace|) then Some((v.target, v.startup))
      else None
  }

  /** Over a whole run the record is the last accepted target that was written, never anything in between. */
  lemma {:induction false} RecordIsLastSaved(initial: Option<seq<byte>>, w: World, actions: seq<Action>)
    requires Inv(w) && Traced(initial, w) && TimelyRun(w.now, actions)
    ensures Run(w, actions).store == Recorded(w, actions)
    decreases |actions|
  {
    hide Step, Inv, Encode;
    if actions != [] {
      var v := Step(w, actions[0].command, actions[0].io).world;
      StepInv(w, actions[0].command, actions[0].io);
      StepTraced(initial, w, actions[0].command, actions[0].io);
      StoreWithin(initial, w, v, |v.trace|);
      assert v.trace[..|v.trace|] == v.trace;
      RecordIsLastSaved(initial, v, actions[1..]);
    }
  }

  /** The record after a whole run, in terms of what was saved. */
  function Recorded(w: World, actions: seq<Action>): Option<seq<byte>>
  {
    match LastSaved(w, actions)
    case None => w.store
    case Some((target, startup)) => Some(Encode(target, startup))
  }

  /**
   * A power cut anywhere in a whole run falls inside one operation, number k. The record is then what the first k or
   * the first k + 1 operations saved last; once operation k has driven a frame it reads back as exactly its target.
   */
  lemma {:induction false} RunPowerCut(initial: Option<seq<byte>>, w: World, actions: seq<Action>, cut: nat)
    returns (k: nat)
    requires Inv(w) && Traced(initial, w) && TimelyRun(w.now, actions) && actions != []
    requires |w.trace| <= cut <= |Run(w, actions).trace|
    ensures k < |actions|
    ensures var trace := Run(w, actions).trace; var u, v := Run(w, actions[..k]), Run(w, actions[..k + 1]);
      var record := StoreAfter(initial, trace[..cut]);
      && |u.trace| <= cut <= |v.trace| && v.trace <= trace
      && (record == u.store == Recorded(w, actions[..k]) || record == v.store == Recorded(w, actions[..k + 1]))
      && (forall driven :: |u.trace| <= driven < |v.trace| && v.trace[driven].Applied? && driven <= cut ==>
            Restores(record, v.target, v.startup))
    decreases |actions|
  {
    hide Step, Inv, Traced, Restores, Recorded;
    k := CutStep(initial, w, actions, cut);
    TimelyPrefix(w.now, actions, k);
    TimelyPrefix(w.now, actions, k + 1);
    PrefixRecorded(initial, w, actions[..k]);
    PrefixRecorded(initial, w, actions[..k + 1]);
  }

  lemma PrefixRecorded(initial: Option<seq<byte>>, w: World, actions: seq<Action>)
    requires Inv(w) && Traced(initial, w) && TimelyRun(w.now, actions)
    ensures Run(w, actions).store == Recorded(w, actions)
  {
    RecordIsLastSaved(initial, w, actions);
  }

  lemma {:induction false} CutStep(initial: Option<seq<byte>>, w: World, actions: seq<Action>, cut: nat)
    returns (k: nat)
    requires Inv(w) && Traced(initial, w) && TimelyRun(w.now, actions) && actions != []
    requires |w.trace| <= cut <= |Run(w, actions).trace|
    ensures k < |actions|
    ensures var trace := Run(w, actions).trace; var u, v := Run(w, actions[..k]), Run(w, actions[..k + 1]);
      var record := StoreAfter(initial, trace[..cut]);
      && |u.trace| <= cut <= |v.trace| && v.trace <= trace
      && (record == u.store || record == v.store)
      && (forall driven :: |u.trace| <= driven < |v.trace| && v.trace[driven].Applied? && driven <= cut ==>
            Restores(record, v.target, v.startup))
    decreases |actions|
  {
    hide Step, Inv, Traced, Restores, Encode;
    var a := actions[0];
    var v := Step(w, a.command, a.io).world;
    StepInv(w, a.command, a.io);
    StepTraced(initial, w, a.command, a.io);
    RunTraced(initial, v, actions[1..]);
    assert [a][1..] == [];
    if cut <= |v.trace| {
      k := 0;
      assert actions[..0] == [] && actions[..1] == [a];
      assert Run(w, actions)== Run(v, actions[1..]);
      assert Run(w, actions).trace[..cut] == v.trace[..cut];
      CutRecord(initial, w, v, cut);
      StoreWithin(initial, w, v, cut);
      StoreWithin(initial, w, v, |v.trace|);
      assert v.trace[..|v.trace|] == v.trace;
      StoreIs(initial, v);
    } else {
      var j := CutStep(initial, v, actions[1..], cut);
      k := j + 1;
      assert actions[..k][1..] == actions[1..][..j];
      assert actions[..k + 1][1..] == actions[1..][..j + 1];
    }
  }

  lemma StoreIs(initial: Option<seq<byte>>, w: World)
    requires Traced(initial, w)
    ensures StoreAfter(initial, w.trace) == w.store
  {
  }

  lemma {:induction false} TimelyPrefix(now: nat, actions: seq<Action>, k: nat)
    requires TimelyRun(now, actions) && k <= |actions|
    ensures TimelyRun(now, actions[..k])
    decreases k
  {
    if k > 0 {
      var c := actions[0].command;
      TimelyPrefix(if c.CmdTick? then c.now else now, actions[1..], k - 1);
      assert actions[..k][1..] == actions[1..][..k - 1];
    }
  }
}
