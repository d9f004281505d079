/** The firmware's stateful objects: controller, record store and runtime, proved against the models. */
module RuntimeObjects {
  import opened Basics
  import opened Light
  import opened Curve
  import opened Record
  import opened Driver = PcaDriver
  import opened RuntimeModel
  import opened RuntimeInvariant
  import opened Traces
  import opened Composition
  import Pca = PcaModel

  datatype ControllerCommand =
    | SetPowerTo(on: bool)
    | SetLevelTo(level: Level)
    | SetTemperatureTo(temperature: Temperature)
    | SelectPreset(second: bool)

  class Controller {
    var intended: LightState
    var applied: Option<OutputFrame>

    constructor (restored: Option<LightState>)
      ensures applied.None? && intended == if restored.Some? then restored.value else DEFAULT_STATE
    {
      intended := if restored.Some? then restored.value else DEFAULT_STATE;
      applied := None;
    }

    /** `Controller::new` assigned over the old value. */
    method Reset(restored: LightState)
      modifies this
      ensures applied.None? && intended == restored
    {
      intended, applied := restored, None;
    }

    method InvalidateApplied()
      modifies this`applied
      ensures applied.None?
    {
      applied := None;
    }

    method Command(command: ControllerCommand) returns (changed: bool)
      modifies this`intended
      ensures intended == (match command
                           case SetPowerTo(on) => old(intended).(on := on)
                           case SetLevelTo(level) => old(intended).(level := level)
                           case SetTemperatureTo(t) => old(intended).(temperature := t)
                           case SelectPreset(second) => old(intended).(temperature := if second then 200 else 303))
      ensures changed <==> intended != old(intended)
    {
      var previous := intended;
      match command {
        case SetPowerTo(on) => intended := intended.(on := on);
        case SetLevelTo(level) => intended := intended.(level := level);
        case SetTemperatureTo(t) => intended := intended.(temperature := t);
        case SelectPreset(second) => intended := intended.(temperature := if second then 200 else 303);
      }
      changed := intended != previous;
    }

    /**
     * Drive a frame that is not already acknowledged. The acknowledgement is withdrawn before the attempt
     * and only a success restores it.
     */
    method ReconcileFrame(output: Pca9635, frame: OutputFrame) returns (ok: bool, written: bool)
      modifies this`applied, output, output.bus
      ensures written <==> old(applied) != Some(frame)
      ensures !written ==>
        ok && applied == old(applied) && output.View() == old(output.View()) && output.bus.log == old(output.bus.log)
      ensures written ==> var r := Pca.ApplyFrame(old(output.View()), frame, output.bus.script);
        && output.View() == r.driver && output.bus.log == old(output.bus.log) + r.events
        && (ok <==> r.status == Pca.Good)
        && applied == if ok then Some(frame) else None
    {
      written := applied != Some(frame);
      ok := true;
      if written {
        applied := None;
        var status := output.ApplyFrame(frame);
        ok := status == Pca.Good;
        if ok { applied := Some(frame); }
      }
    }
  }

  /** Flash behind the record key; which accesses fail is decided elsewhere. Not part of the firmware. */
  class RecordStore {
    const readable: nat -> bool
    const writable: nat -> bool
    var record: Option<seq<byte>>
    var accesses: nat

    constructor (readable: nat -> bool, writable: nat -> bool, record: Option<seq<byte>>)
      ensures this.record == record
    {
      this.readable, this.writable, this.record, this.accesses := readable, writable, record, 0;
    }

    method Load() returns (ok: bool, found: Option<seq<byte>>)
      modifies this`accesses
      ensures found == record
    {
      ok, found := readable(accesses), record;
      accesses := accesses + 1;
    }

    /** A failed write leaves the previous record. */
    method Store(data: seq<byte>) returns (ok: bool)
      modifies this
      ensures record == if ok then Some(data) else old(record)
    {
      ok := writable(accesses);
      if ok { record := Some(data); }
      accesses := accesses + 1;
    }
  }

  /**
   * The plain fields of the state the runtime keeps in its single cell; controller and hardware are objects beside
   * it.
   */
  datatype State = State(
    target: LightState,
    levelTransition: Option<Fade>,
    temperatureTransition: Option<TemperatureFade>,
    fault: Fault,
    dirty: bool,
    startup: Settings,
    loadFault: Option<Fault>,
    offAfterLoad: bool,
    nextVerify: nat,
    retryAt: nat,
    failures: nat,
    storageFailures: nat,
    recoveries: nat,
    revision: nat)

  class Runtime {
    const kv: RecordStore
    const hardware: Pca9635
    const controller: Controller
    var state: State
    var now: Clock
    ghost var trace: seq<Event>
    ghost const initial: Option<seq<byte>>
    ghost const origin: Pca.Driver

    ghost function View(): World
      reads this, kv, controller
    {
      var s := state;
      World(
        s.target, controller.intended, controller.applied, s.levelTransition, s.temperatureTransition, s.fault,
        s.dirty, s.startup, s.loadFault, s.offAfterLoad, s.nextVerify, s.retryAt, s.failures, s.storageFailures,
        s.recoveries, s.revision, now, kv.record, trace)
    }

    /** The driver object is where the trace of calls made to it has brought it, with the outcomes the trace records. */
    ghost predicate Linked()
      reads this`trace, hardware, hardware.bus
    {
      && origin.verifiedOn.None?
      && Agrees(origin, trace, hardware.bus.script)
      && hardware.View() == Pca.Replay(origin, Operations(trace), hardware.bus.script).driver
    }

    ghost predicate Valid()
      reads this, kv, controller, hardware, hardware.bus
    {
      Inv(View()) && Traced(initial, View()) && Linked()
    }

    /** What holds of the objects themselves in every valid state: one acknowledgement across three layers. */
    lemma Acknowledgement()
      requires Valid()
      ensures hardware.verifiedOn == OnPart(controller.applied)
      ensures controller.applied.Some? ==> state.fault == NoFault && state.loadFault.None?
      ensures Faithful(hardware.bus.script) && controller.applied.Some? ==>
        Realised(hardware.bus.Wire(), controller.applied.value)
      ensures state.loadFault.None? && !state.dirty ==>
        ReadRecord(kv.record, true) == Readable(Saved(state.target, state.startup, false))
    {
      DriverFollowsTrace(origin, trace, hardware.bus.script);
    }

    /** `Runtime::load`: shut the output down, read the record, keep nothing in flight. */
    constructor (kv: RecordStore, hardware: Pca9635)
      requires hardware.verifiedOn.None?
      modifies kv, hardware, hardware.bus
      ensures this.kv == kv && this.hardware == hardware && fresh(controller)
      ensures Valid() && |trace| == 2
      ensures View() == Boot(old(kv.record), ALL_WELL.(stop := trace[0].ok, read := trace[1].ok))
    {
      this.kv, this.hardware := kv, hardware;
      controller := new Controller(None);
      state := State(DEFAULT_STATE, None, None, NoFault, false, DEFAULT_STARTUP, None, false, 0, 0, 0, 0, 0, 0);
      now := 0;
      trace, initial, origin := [], kv.record, hardware.View();
      new;
      Load();
    }

    method Load()
      requires Linked() && trace == [] && initial == kv.record && now == 0
      modifies this`state, this`trace, kv`accesses, controller, hardware, hardware.bus
      ensures Valid() && |trace| == 2
      ensures View() == Boot(initial, ALL_WELL.(stop := trace[0].ok, read := trace[1].ok))
    {
      hide Linked, Inv, Traced, Restored;
      var stopped := Shutdown();
      var reading;
      ghost var read;
      reading, read := LoadRecord();
      Restore(stopped, reading);
      ghost var io := ALL_WELL.(stop := stopped, read := read);
      BootInv(initial, io);
      BootTraced(initial, io);
      assert trace == [Parked(stopped)] + [Loaded(read)];
    }

    /** The state `load` builds; nothing is in flight and nothing is acknowledged. */
    method Restore(stopped: bool, reading: Reading)
      requires reading.Readable? ==> reading.saved.startup.Valid()
      requires now == 0
      modifies this`state, controller
      ensures View() == Restored(reading, stopped, kv.record, trace)
    {
      hide StartupIntent;
      var saved := if reading.Readable? then reading.saved else DEFAULT_SAVED;
      var loadFault := if reading.Unreadable? then Some(reading.fault) else None;
      var target := StartupIntent(saved.intended, saved.startup);
      controller.Reset(target);
      state := State(
        target, None, None,
        if loadFault.Some? then loadFault.value else if stopped then NoFault else OutputFault,
        saved.migrated || target != saved.intended,
        saved.startup, loadFault, false, 0,
        if !stopped || loadFault == Some(StorageFault) then RETRY_MS else 0,
        if stopped then 0 else 1,
        if loadFault == Some(StorageFault) then 1 else 0,
        0, 0);
    }

    // ----- hardware calls, each leaving its event in the trace

    lemma LinkExtends(before: seq<Event>, e: Event, d: Pca.Driver)
      requires OperationOf(e).Some?
      requires Agrees(origin, before, hardware.bus.script)
      requires d == Pca.Replay(origin, Operations(before), hardware.bus.script).driver
      requires e.ok <==> Pca.Operate(d, OperationOf(e).value, hardware.bus.script).status == Pca.Good
      ensures Agrees(origin, before + [e], hardware.bus.script)
      ensures Pca.Replay(origin, Operations(before + [e]), hardware.bus.script).driver ==
              Pca.Operate(d, OperationOf(e).value, hardware.bus.script).driver
    {
      hide Pca.Operate, Pca.Replay, Operations, Agrees;
      OneMoreEvent(origin, before, e, hardware.bus.script);
      OneMoreCall(origin, Operations(before), OperationOf(e).value, hardware.bus.script);
    }

    lemma LinkIgnores(before: seq<Event>, e: Event)
      requires OperationOf(e).None?
      requires Agrees(origin, before, hardware.bus.script)
      ensures Agrees(origin, before + [e], hardware.bus.script)
      ensures Operations(before + [e]) == Operations(before)
    {
      hide Pca.Operate, Pca.Replay, Operations, Agrees;
      OneMoreEvent(origin, before, e, hardware.bus.script);
    }

    method Shutdown() returns (ok: bool)
      requires Linked()
      modifies this`trace, hardware, hardware.bus
      ensures Linked() && trace == old(trace) + [Parked(ok)]
    {
      hide Pca.InitializeOff, Pca.ApplyFrame;
      LinkExtendsEither(trace, Parked(true), Parked(false), hardware.View());
      var status := hardware.InitializeOff();
      ok := status == Pca.Good;
      trace := trace + [Parked(ok)];
    }

    /** Whichever outcome the driver produces, recording that one keeps the link. */
    lemma LinkExtendsEither(before: seq<Event>, good: Event, bad: Event, d: Pca.Driver)
      requires OperationOf(good).Some? && OperationOf(bad) == OperationOf(good) && good.ok && !bad.ok
      requires Agrees(origin, before, hardware.bus.script)
      requires d == Pca.Replay(origin, Operations(before), hardware.bus.script).driver
      ensures var r := Pca.Operate(d, OperationOf(good).value, hardware.bus.script);
              var e := if r.status == Pca.Good then good else bad;
        && Agrees(origin, before + [e], hardware.bus.script)
        && Pca.Replay(origin, Operations(before + [e]), hardware.bus.script).driver == r.driver
    {
      hide Pca.Operate;
      var r := Pca.Operate(d, OperationOf(good).value, hardware.bus.script);
      LinkExtends(before, if r.status == Pca.Good then good else bad, d);
    }

    method Check(frame: OutputFrame) returns (ok: bool)
      requires Linked()
      modifies this`trace, hardware, hardware.bus
      ensures Linked() && trace == old(trace) + [Checked(frame, ok)]
    {
      hide Pca.VerifyFrame;
      LinkExtendsEither(trace, Checked(frame, true), Checked(frame, false), hardware.View());
      var status := hardware.VerifyFrame(frame);
      ok := status == Pca.Good;
      trace := trace + [Checked(frame, ok)];
    }

    method Sample() returns (data: Option<Pca.Regs>)
      requires Linked()
      modifies this`trace, hardware, hardware.bus
      ensures Linked() && trace == old(trace) + [Sampled(data.Some?)]
    {
      LinkExtendsEither(trace, Sampled(true), Sampled(false), hardware.View());
      data := hardware.ReadRegisters();
      trace := trace + [Sampled(data.Some?)];
    }

    method Drive(frame: OutputFrame) returns (ok: bool)
      requires Linked()
      modifies this`trace, controller`applied, hardware, hardware.bus
      ensures Linked()
      ensures trace == if old(controller.applied) == Some(frame) then old(trace) else old(trace) + [Applied(frame, ok)]
      ensures controller.applied == if ok then Some(frame) else None
      ensures old(controller.applied) == Some(frame) ==> ok
    {
      hide Pca.ApplyFrame;
      LinkExtendsEither(trace, Applied(frame, true), Applied(frame, false), hardware.View());
      var written;
      ok, written := controller.ReconcileFrame(hardware, frame);
      if written { trace := trace + [Applied(frame, ok)]; }
    }

    method StoreRecord(data: seq<byte>) returns (ok: bool)
      requires Linked()
      modifies this`trace, kv
      ensures Linked() && trace == old(trace) + [Stored(data, ok)]
      ensures kv.record == if ok then Some(data) else old(kv.record)
    {
      LinkIgnores(trace, Stored(data, true));
      LinkIgnores(trace, Stored(data, false));
      ok := kv.Store(data);
      trace := trace + [Stored(data, ok)];
    }

    method LoadRecord() returns (reading: Reading, ghost ok: bool)
      requires Linked()
      modifies this`trace, kv`accesses
      ensures Linked() && trace == old(trace) + [Loaded(ok)]
      ensures reading == ReadRecord(kv.record, ok)
    {
      LinkIgnores(trace, Loaded(true));
      LinkIgnores(trace, Loaded(false));
      var readable, found := kv.Load();
      reading := ReadRecord(found, readable);
      ok := readable;
      trace := trace + [Loaded(readable)];
    }

    // ----- shared machinery

    method OutputFailed(ghost io0: Io) returns (ghost io: Io)
      requires Linked()
      modifies this`state, this`trace, controller`applied, hardware, hardware.bus
      ensures Linked() && io == io0.(cleanup := io.cleanup)
      ensures View() == RuntimeModel.OutputFailed(old(View()), io)
    {
      hide Linked;
      var ok := Shutdown();
      io := io0.(cleanup := ok);
      controller.InvalidateApplied();
      state := state.(fault := OutputFault, failures := SatInc(state.failures),
                      retryAt := SatAdd(now, RETRY_MS), revision := WrapInc(state.revision));
    }

    method SaveFailed(ghost io0: Io) returns (ghost io: Io)
      requires Linked()
      modifies this`state, this`trace, controller`applied, hardware, hardware.bus
      ensures Linked() && io == io0.(guard := io.guard)
      ensures View() == RuntimeModel.SaveFailed(old(View()), io)
    {
      hide Linked;
      state := state.(storageFailures := SatInc(state.storageFailures), fault := StorageFault);
      var parked := Shutdown();
      io := io0.(guard := parked);
      if !parked { state := state.(failures := SatInc(state.failures)); }
      controller.InvalidateApplied();
      state := state.(revision := WrapInc(state.revision), retryAt := SatAdd(now, RETRY_MS));
    }

    method SaveIntent(ghost io0: Io) returns (reply: Reply, ghost io: Io)
      requires Linked()
      modifies this`state, this`trace, kv, controller`applied, hardware, hardware.bus
      ensures Linked() && io == io0.(store := io.store, guard := io.guard)
      ensures var d := RuntimeModel.SaveIntent(old(View()), io); View() == d.world && reply == d.reply
    {
      hide Linked, Encode, RuntimeModel.SaveFailed;
      io, reply := io0, Okay;
      if state.dirty {
        var ok := StoreRecord(Encode(state.target, state.startup));
        io := io.(store := ok);
        if ok {
          state := state.(dirty := false);
        } else {
          io := SaveFailed(io);
          reply := StoreError;
        }
      }
    }

    function EffectiveFrame(): (r: OutputFrame)
      reads this, controller, kv
      ensures r == Effective(View())
    {
      FrameFor(state.target, state.levelTransition, state.temperatureTransition, now)
    }

    method DropFinishedTracks()
      modifies this`state
      ensures View() == ExpireTracks(old(View()))
    {
      var level, temperature := state.levelTransition, state.temperatureTransition;
      if level.Some? && level.value.Remaining(now) == 0 { state := state.(levelTransition := None); }
      if temperature.Some? && temperature.value.Remaining(now) == 0 { state := state.(temperatureTransition := None); }
    }

    method Acknowledge(previous: Option<OutputFrame>)
      modifies this`state
      ensures View() == RuntimeModel.Acknowledge(old(View()), previous)
    {
      hide LiveLevel, LiveTemperature;
      if state.fault == OutputFault { state := state.(recoveries := SatInc(state.recoveries)); }
      state := state.(fault := NoFault, retryAt := 0);
      if previous != controller.applied { state := state.(nextVerify := SatAdd(now, RETRY_MS)); }
      if previous.None? { state := state.(revision := WrapInc(state.revision)); }
      DropFinishedTracks();
    }

    /** The three commands together make the controller intend the frame's whole state. */
    method Intend(wanted: LightState)
      modifies controller`intended
      ensures controller.intended == wanted
    {
      var _ := controller.Command(SetLevelTo(wanted.level));
      var _ := controller.Command(SetTemperatureTo(wanted.temperature));
      var _ := controller.Command(SetPowerTo(wanted.on));
    }

    method ApplyCurrent(ghost io0: Io) returns (reply: Reply, ghost io: Io)
      requires Linked()
      modifies this`state, this`trace, controller, hardware, hardware.bus
      ensures Linked() && io == io0.(apply := io.apply, cleanup := io.cleanup)
      ensures var d := ApplyEffective(old(View()), io); View() == d.world && reply == d.reply
    {
      hide Linked, FrameFor, RuntimeModel.Acknowledge, RuntimeModel.OutputFailed;
      var frame := EffectiveFrame();
      Intend(frame.state);
      var previous := controller.applied;
      var ok := Drive(frame);
      io := io0.(apply := ok);
      if ok {
        Acknowledge(previous);
        reply := Okay;
      } else {
        io := OutputFailed(io);
        reply := Failure;
      }
    }

    /** With nothing acknowledged the output is parked; an On target is given a fresh ramp that begins there. */
    method ParkFirst(ghost io0: Io) returns (ok: bool, ghost io: Io)
      requires Linked()
      modifies this`state, this`trace, controller`applied, hardware, hardware.bus
      ensures Linked() && io == io0.(park := ok, cleanup := io.cleanup)
      ensures ok ==> View() == RuntimeModel.ParkedWorld(old(View()))
      ensures !ok ==> View() == RuntimeModel.OutputFailed(old(View()).(trace := old(trace) + [Parked(false)]), io)
    {
      hide Linked, RuntimeModel.OutputFailed;
      ok := Shutdown();
      io := io0.(park := ok);
      if ok {
        state := state.(
          levelTransition :=
            if state.target.on then
              Some(LevelTrack(Transition(0, FromLevel(state.target.level), now, DEFAULT_TRANSITION_MS, Smooth), None,
                None))
            else None,
          temperatureTransition := None);
      } else {
        io := OutputFailed(io);
      }
    }

    method Restart(ghost io0: Io) returns (reply: Reply, ghost io: Io)
      requires Linked() && controller.applied.None?
      modifies this`state, this`trace, controller, hardware, hardware.bus
      ensures Linked() && io == io0.(park := io.park, apply := io.apply, cleanup := io.cleanup)
      ensures var d := RuntimeModel.Reconcile(old(View()), io); View() == d.world && reply == d.reply
    {
      hide Linked, ApplyEffective, RuntimeModel.OutputFailed, RuntimeModel.ParkedWorld;
      var ok;
      ok, io := ParkFirst(io0);
      if ok {
        reply, io := ApplyCurrent(io);
      } else {
        reply := Failure;
      }
    }

    method Reconcile(ghost io0: Io) returns (reply: Reply, ghost io: Io)
      requires Linked()
      modifies this`state, this`trace, controller, hardware, hardware.bus
      ensures Linked() && io == io0.(park := io.park, apply := io.apply, cleanup := io.cleanup)
      ensures var d := RuntimeModel.Reconcile(old(View()), io); View() == d.world && reply == d.reply
    {
      hide Linked, ApplyEffective, RuntimeModel.OutputFailed, RuntimeModel.ParkedWorld;
      if controller.applied.None? {
        reply, io := Restart(io0);
      } else {
        reply, io := ApplyCurrent(io0);
      }
    }

    method Commit(next: LightState) returns (reply: Reply, ghost io: Io)
      requires Linked()
      modifies this`state, this`trace, kv, controller, hardware, hardware.bus
      ensures Linked()
      ensures var d := RuntimeModel.Commit(old(View()), next, io); View() == d.world && reply == d.reply
    {
      hide Linked, RuntimeModel.SaveIntent, RuntimeModel.Reconcile;
      state := state.(dirty := state.dirty || state.target != next, target := next,
        revision := WrapInc(state.revision));
      ghost var pending := View();
      reply, io := SaveIntent(ALL_WELL);
      if reply == Okay {
        ghost var saved := io;
        reply, io := Reconcile(io);
        SaveUsesOnly(pending, saved, io);
      }
    }

    /** Saving consults only its own two call sites. */
    lemma SaveUsesOnly(w: World, io: Io, io': Io)
      requires io.store == io'.store && io.guard == io'.guard
      ensures RuntimeModel.SaveIntent(w, io) == RuntimeModel.SaveIntent(w, io')
    {
    }

    // ----- public operations; each is one step of the model with some environment answers io

    /** A step of the model taken by the objects keeps everything the objects promise. */
    lemma Revalidate(before: World, c: Command, io: Io)
      requires Inv(before) && Traced(initial, before) && Timely(before.now, c)
      requires View() == Step(before, c, io).world && Linked()
      ensures Valid()
    {
      hide Step, Linked, Inv, TraceSays, WroteAhead;
      StepInv(before, c, io);
      StepTraced(initial, before, c, io);
    }

    lemma StepLevel(w: World, level: byte, withOnOff: bool, ms: nat, shape: Shape, io: Io)
      ensures Step(w, CmdLevel(level, withOnOff, ms, shape), io) ==
        RuntimeModel.MoveLevel(w, level, withOnOff, ms, shape, io)
    {
      hide RuntimeModel.MoveLevel;
    }

    lemma StepEffect(w: World, effect: OffEffect, io: Io)
      ensures Step(w, CmdEffect(effect), io) == RuntimeModel.OffWithEffect(w, effect, io)
    {
      hide RuntimeModel.OffWithEffect;
    }

    function Writable(): (r: Option<Reply>)
      reads this, controller, kv
      ensures r == Blocked(View())
    {
      if state.fault == Rebooting then Some(Busy) else if state.loadFault.Some? then Some(InvalidState) else None
    }

    function Current(): (r: OutputFrame)
      reads this, controller, kv
      ensures r == CurrentFrame(View())
    {
      if controller.applied.Some? then controller.applied.value else FromState(state.target.(on := false))
    }

    function ReportedState(): (r: Option<LightState>)
      reads this, controller, kv
      ensures r == Reported(View())
    {
      if state.fault != NoFault || controller.applied.None? then None else Some(state.target)
    }

    method RecallScene(target: LightState, ms: nat) returns (reply: Reply, ghost io: Io)
      requires Valid()
      modifies this`state, this`trace, kv, controller, hardware, hardware.bus
      ensures Valid()
      ensures var d := RuntimeModel.RecallScene(old(View()), target, ms, io); View() == d.world && reply == d.reply
    {
      hide Linked, Inv, TraceSays, RuntimeModel.Commit;
      ghost var before := View();
      io := ALL_WELL;
      if ms > MAX_TRANSITION_MS { return ConstraintError, io; }
      var blocked := Writable();
      if blocked.Some? { return blocked.value, io; }
      if target != state.target {
        var current := Current();
        var duration := Duration(ms);
        var animate := current.brightness != 0 || target.on;
        state := state.(
          levelTransition :=
            if animate then
              Some(LevelTrack(Transition(current.brightness, FromState(target).brightness, now, duration, Smooth), None,
                              if target.on then None else Some(current.state.temperature)))
            else None,
          temperatureTransition :=
            if animate && target.on then
              Some(Transition(current.state.temperature, target.temperature, now, duration, Smooth))
            else None);
      }
      reply, io := Commit(target);
      Revalidate(before, CmdScene(target, ms), io);
    }

    method SetPower(on: bool) returns (reply: Reply, ghost io: Io)
      requires Valid()
      modifies this`state, this`trace, kv, controller, hardware, hardware.bus
      ensures Valid()
      ensures var d := RuntimeModel.SetPower(old(View()), on, io); View() == d.world && reply == d.reply
    {
      hide Linked, Inv, TraceSays, RuntimeModel.Commit;
      ghost var before := View();
      io := ALL_WELL;
      var blocked := Writable();
      if blocked.Some? { return blocked.value, io; }
      var target := state.target.(on := on);
      if on != state.target.on {
        var current := Current();
        state := state.(
          levelTransition :=
            Some(LevelTrack(Transition(current.brightness, FromState(target).brightness, now, DEFAULT_TRANSITION_MS,
              Smooth), None,
                            if on then None else Some(current.state.temperature))));
        if !on {
          state := state.(temperatureTransition := None);
        } else if current.state.temperature != target.temperature {
          state := state.(temperatureTransition :=
            Some(Transition(current.state.temperature, target.temperature, now, DEFAULT_TRANSITION_MS, Smooth)));
        }
      }
      reply, io := Commit(target);
      Revalidate(before, CmdPower(on), io);
    }

    method OffWithEffect(effect: OffEffect) returns (reply: Reply, ghost io: Io)
      requires Valid()
      modifies this`state, this`trace, kv, controller, hardware, hardware.bus
      ensures Valid()
      ensures var d := RuntimeModel.OffWithEffect(old(View()), effect, io); View() == d.world && reply == d.reply
    {
      hide Linked, Inv, TraceSays, Step, RuntimeModel.Commit;
      ghost var before := View();
      io := ALL_WELL;
      var blocked := Writable();
      if blocked.Some? { return blocked.value, io; }
      var current := Current();
      var (middle, first, last) := EffectLegs(effect, current.brightness);
      var track: Option<Fade> := None;
      if current.brightness != 0 && first != 0 {
        var second: Option<Transition> := if last != 0 then Some(Transition(middle, 0, now + first, last, Smooth))
          else None;
        track := Some(LevelTrack(Transition(current.brightness, middle, now, first, Smooth), second,
          Some(current.state.temperature)));
      }
      state := state.(levelTransition := track, temperatureTransition := None);
      reply, io := Commit(state.target.(on := false));
      StepEffect(before, effect, io);
      Revalidate(before, CmdEffect(effect), io);
    }

    /** `level_transition`, behind both the eased and the rate-based entry point. */
    method MoveLevel(level: byte, withOnOff: bool, ms: nat, shape: Shape) returns (reply: Reply, ghost io: Io)
      requires Valid()
      modifies this`state, this`trace, kv, controller, hardware, hardware.bus
      ensures Valid()
      ensures var d := RuntimeModel.MoveLevel(old(View()), level, withOnOff, ms, shape, io);
        View() == d.world && reply == d.reply
    {
      hide Linked, Inv, TraceSays, Step, RuntimeModel.Commit, LevelTracks;
      ghost var before := View();
      io := ALL_WELL;
      var duration := if shape == Smooth then Duration(ms) else ms;
      if level == 255 || duration > MAX_TRANSITION_MS { return ConstraintError, io; }
      var blocked := Writable();
      if blocked.Some? { return blocked.value, io; }
      var target := LightState(if withOnOff then level > 1 else state.target.on, Max(level, 1),
        state.target.temperature);
      if !((target == state.target && shape == Smooth) || (!target.on && !state.target.on && !withOnOff)) {
        RetrackLevel(target, duration, shape);
      }
      reply, io := Commit(target);
      StepLevel(before, level, withOnOff, ms, shape, io);
      Revalidate(before, CmdLevel(level, withOnOff, ms, shape), io);
    }

    method RetrackLevel(target: LightState, duration: nat, shape: Shape)
      requires duration <= MAX_TRANSITION_MS
      modifies this`state
      ensures View() == LevelTracks(old(View()), target, duration, shape)
    {
      var current := Current();
      var wasOn := state.target.on;
      state := state.(
        levelTransition :=
          if duration != 0 && (current.brightness != 0 || target.on) then
            Some(LevelTrack(Transition(current.brightness, FromState(target).brightness, now, duration, shape), None,
                            if target.on then None else Some(current.state.temperature)))
          else None);
      if !target.on {
        state := state.(temperatureTransition := None);
      } else if !wasOn && current.state.temperature != target.temperature {
        state := state.(temperatureTransition :=
          Some(Transition(current.state.temperature, target.temperature, now, duration, shape)));
      }
    }

    method MoveTemperature(to: Temperature, ms: nat, shape: Shape) returns (reply: Reply, ghost io: Io)
      requires Valid()
      modifies this`state, this`trace, kv, controller, hardware, hardware.bus
      ensures Valid()
      ensures var d := RuntimeModel.MoveTemperature(old(View()), to, ms, shape, io);
        View() == d.world && reply == d.reply
    {
      hide Linked, Inv, TraceSays, RuntimeModel.Commit;
      ghost var before := View();
      io := ALL_WELL;
      var duration := if shape == Smooth then Duration(ms) else ms;
      if duration > MAX_TRANSITION_MS { return ConstraintError, io; }
      var blocked := Writable();
      if blocked.Some? { return blocked.value, io; }
      var current := Current();
      if state.target.on && (to != state.target.temperature || shape == Linear) {
        state := state.(temperatureTransition :=
          if duration != 0 then Some(Transition(current.state.temperature, to, now, duration, shape)) else None);
      }
      reply, io := Commit(state.target.(temperature := to));
      Revalidate(before, CmdTemperature(to, ms, shape), io);
    }

    method StopLevel() returns (reply: Reply, ghost io: Io)
      requires Valid()
      modifies this`state, this`trace, kv, controller, hardware, hardware.bus
      ensures Valid()
      ensures var d := RuntimeModel.StopLevel(old(View()), io); View() == d.world && reply == d.reply
    {
      hide Linked, Inv, TraceSays, RuntimeModel.Commit;
      ghost var before := View();
      io := ALL_WELL;
      var blocked := Writable();
      if blocked.Some? { return blocked.value, io; }
      if state.levelTransition.None? { return Okay, io; }
      if controller.applied.None? { return InvalidState, io; }
      var applied, stopped := controller.applied.value, state.levelTransition.value;
      state := state.(levelTransition := None);
      reply, io := Commit(LightState(
        applied.brightness > DENOMINATOR / 2,
        ToLevelClamped(applied.brightness),
        if stopped.offTemperature.Some? then stopped.offTemperature.value else state.target.temperature));
      Revalidate(before, CmdStopLevel, io);
    }

    method StopTemperature() returns (reply: Reply, ghost io: Io)
      requires Valid()
      modifies this`state, this`trace, kv, controller, hardware, hardware.bus
      ensures Valid()
      ensures var d := RuntimeModel.StopTemperature(old(View()), io); View() == d.world && reply == d.reply
    {
      hide Linked, Inv, TraceSays, RuntimeModel.Commit;
      ghost var before := View();
      io := ALL_WELL;
      var blocked := Writable();
      if blocked.Some? { return blocked.value, io; }
      if state.temperatureTransition.None? { return Okay, io; }
      if controller.applied.None? { return InvalidState, io; }
      state := state.(temperatureTransition := None);
      reply, io := Commit(state.target.(temperature := controller.applied.value.state.temperature));
      Revalidate(before, CmdStopTemperature, io);
    }

    method SaveStartup(startup: Settings) returns (reply: Reply, ghost io: Io)
      requires Linked()
      modifies this`state, this`trace, kv
      ensures Linked()
      ensures var d := RuntimeModel.SaveStartup(old(View()), startup, io); View() == d.world && reply == d.reply
    {
      hide Linked, Encode;
      io := ALL_WELL;
      var blocked := Writable();
      if blocked.Some? { return blocked.value, io; }
      if startup == state.startup && !state.dirty { return Okay, io; }
      var ok := StoreRecord(Encode(state.target, startup));
      io := io.(store := ok);
      if !ok {
        state := state.(storageFailures := SatInc(state.storageFailures));
        return StoreError, io;
      }
      state := state.(startup := startup, dirty := false, revision := WrapInc(state.revision));
      reply := Okay;
    }

    method SetStartupPower(policy: Option<StartUpOnOff>) returns (reply: Reply, ghost io: Io)
      requires Valid()
      modifies this`state, this`trace, kv
      ensures Valid()
      ensures var d := RuntimeModel.SetStartupPower(old(View()), policy, io); View() == d.world && reply == d.reply
    {
      hide Linked, Inv, TraceSays, RuntimeModel.SaveStartup;
      ghost var before := View();
      io := ALL_WELL;
      if policy == Some(StartOn) || policy == Some(StartToggle) { return ConstraintError, io; }
      reply, io := SaveStartup(state.startup.(power := if policy.Some? then 1 else 0));
      Revalidate(before, CmdStartupPower(policy), io);
    }

    method SetStartupLevel(level: Option<byte>) returns (reply: Reply, ghost io: Io)
      requires Valid()
      modifies this`state, this`trace, kv
      ensures Valid()
      ensures var d := RuntimeModel.SetStartupLevel(old(View()), level, io); View() == d.world && reply == d.reply
    {
      hide Linked, Inv, TraceSays, RuntimeModel.SaveStartup;
      ghost var before := View();
      io := ALL_WELL;
      if level == Some(255) { return ConstraintError, io; }
      reply, io := SaveStartup(state.startup.(level := level));
      Revalidate(before, CmdStartupLevel(level), io);
    }

    method SetStartupTemperature(temperature: Option<Temperature>) returns (reply: Reply, ghost io: Io)
      requires Valid()
      modifies this`state, this`trace, kv
      ensures Valid()
      ensures var d := RuntimeModel.SaveStartup(old(View()), old(View()).startup.(temperature := temperature), io);
        View() == d.world && reply == d.reply
    {
      hide Linked, Inv, TraceSays, RuntimeModel.SaveStartup;
      ghost var before := View();
      reply, io := SaveStartup(state.startup.(temperature := temperature));
      Revalidate(before, CmdStartupTemperature(temperature), io);
    }

    /** Local Off: not gated by a pending reboot or an unreadable record. */
    method Off() returns (reply: Reply, ghost io: Io)
      requires Valid()
      modifies this`state, this`trace, kv, controller, hardware, hardware.bus
      ensures Valid()
      ensures var d := LocalOff(old(View()), io); View() == d.world && reply == d.reply
    {
      hide Linked, Inv, TraceSays, RuntimeModel.SaveIntent, FinishOff, Darken;
      ghost var before := View();
      var stopped := GoDark();
      io := ALL_WELL.(stop := stopped);
      DarkenKeeps(before, io);
      if state.loadFault == Some(StorageFault) {
        state := state.(offAfterLoad := true, dirty := false,
                        failures := if stopped then state.failures else SatInc(state.failures));
        reply := if stopped then Okay else Failure;
      } else {
        ghost var dark := View();
        reply, io := SaveIntent(io);
        if reply == Okay {
          ghost var saved := io;
          reply, io := FinishLocalOff(stopped, io);
          SaveUsesOnly(dark, saved, io);
        }
        DarkenUsesOnly(before, ALL_WELL.(stop := stopped), io);
      }
      Revalidate(before, CmdLocalOff, io);
    }

    lemma DarkenKeeps(w: World, io: Io)
      ensures Darken(w, io).loadFault == w.loadFault && Darken(w, io).failures == w.failures
    {
    }

    lemma DarkenUsesOnly(w: World, io: Io, io': Io)
      requires io.stop == io'.stop
      ensures Darken(w, io) == Darken(w, io')
    {
    }

    method GoDark() returns (stopped: bool)
      requires Linked()
      modifies this`state, this`trace, controller`applied, hardware, hardware.bus
      ensures Linked()
      ensures View() == Darken(old(View()), ALL_WELL.(stop := stopped))
    {
      hide Linked;
      stopped := Shutdown();
      controller.InvalidateApplied();
      state := state.(levelTransition := None, temperatureTransition := None,
                      dirty := state.dirty || state.target.on || state.loadFault == Some(InvalidRecord));
      state := state.(target := state.target.(on := false));
    }

    method Repair()
      modifies this`state
      ensures View() == Repaired(old(View()))
    {
      state := state.(loadFault := None, revision := WrapInc(state.revision));
    }

    method FinishLocalOff(stopped: bool, ghost io0: Io) returns (reply: Reply, ghost io: Io)
      requires Linked() && stopped == io0.stop
      modifies this`state, this`trace, controller, hardware, hardware.bus
      ensures Linked() && io == io0.(park := io.park, apply := io.apply, cleanup := io.cleanup)
      ensures var d := FinishOff(old(View()), io); View() == d.world && reply == d.reply
    {
      hide Linked, RuntimeModel.Reconcile, RuntimeModel.OutputFailed, Repaired;
      Repair();
      if stopped {
        reply, io := Reconcile(io0);
      } else {
        io := OutputFailed(io0);
        reply := Failure;
      }
    }

    method Verify() returns (reply: Reply, ghost io: Io)
      requires Valid()
      modifies this`state, this`trace, controller`applied, hardware, hardware.bus
      ensures Valid()
      ensures var d := RuntimeModel.Verify(old(View()), io); View() == d.world && reply == d.reply
    {
      hide Linked, Inv, TraceSays, RuntimeModel.OutputFailed;
      ghost var before := View();
      io := ALL_WELL;
      if controller.applied.None? { return InvalidState, io; }
      var ok := Check(controller.applied.value);
      io := io.(check := ok);
      reply := Okay;
      if !ok {
        io := OutputFailed(io);
        reply := Failure;
      }
      Revalidate(before, CmdVerify, io);
    }

    method Registers() returns (reply: Reply, data: Option<Pca.Regs>, ghost io: Io)
      requires Valid()
      modifies this`state, this`trace, controller`applied, hardware, hardware.bus
      ensures Valid()
      ensures var d := RuntimeModel.Registers(old(View()), io); View() == d.world && reply == d.reply
      ensures data.Some? <==> reply == Okay
    {
      hide Linked, Inv, TraceSays, RuntimeModel.OutputFailed;
      ghost var before := View();
      data := Sample();
      io := ALL_WELL.(check := data.Some?);
      reply := Okay;
      if data.None? {
        io := OutputFailed(io);
        reply := Failure;
      }
      Revalidate(before, CmdRegisters, io);
    }

    method PrepareReboot() returns (verified: bool, ghost io: Io)
      requires Valid()
      modifies this`state, this`trace, controller`applied, hardware, hardware.bus
      ensures Valid()
      ensures var d := RuntimeModel.PrepareReboot(old(View()), io); View() == d.world && verified == (d.reply == Okay)
    {
      hide Linked, Inv, TraceSays;
      ghost var before := View();
      verified := Shutdown();
      io := ALL_WELL.(stop := verified);
      controller.InvalidateApplied();
      state := state.(fault := Rebooting, revision := WrapInc(state.revision));
      Revalidate(before, CmdReboot, io);
    }

    method Tick(at: Clock) returns (ghost io: Io)
      requires Valid() && now <= at
      modifies this`state, this`now, this`trace, kv, controller, hardware, hardware.bus
      ensures Valid() && View() == RuntimeModel.Tick(old(View()), at, io)
    {
      hide Linked, Inv, TraceSays, TickLoaded, Reload;
      ghost var before := View();
      now := at;
      io := ALL_WELL;
      if state.fault == Rebooting || at < state.retryAt {
      } else if state.loadFault == Some(StorageFault) {
        io := TickReload();
      } else if state.loadFault.None? {
        io := TickLive(io);
      }
      Revalidate(before, CmdTick(at), io);
    }

    /** A record that could not be read is tried again; what it holds replaces the placeholder target. */
    method TickReload() returns (ghost io: Io)
      requires Linked() && state.loadFault == Some(StorageFault) && state.fault != Rebooting && now >= state.retryAt
      modifies this`state, this`trace, kv, controller, hardware, hardware.bus
      ensures Linked() && View() == RuntimeModel.Tick(old(View()), now, io)
    {
      hide Linked, TickLoaded, Reload, RuntimeModel.Reconcile;
      ghost var before := View();
      var reading;
      ghost var ok;
      reading, ok := LoadRecord();
      io := ALL_WELL.(read := ok);
      if reading.Readable? {
        Adopt(reading.saved);
        io := TickLive(io);
      } else {
        state := state.(
          loadFault := Some(reading.fault),
          fault := reading.fault,
          storageFailures := if reading.fault == StorageFault then SatInc(state.storageFailures)
            else state.storageFailures,
          retryAt := SatAdd(now, RETRY_MS));
      }
    }

    method Adopt(saved: Saved)
      requires saved.startup.Valid()
      modifies this`state, controller
      ensures View() == Reload(old(View()), saved)
    {
      hide StartupIntent;
      var target := StartupIntent(saved.intended, saved.startup);
      if state.offAfterLoad { target := target.(on := false); }
      controller.Reset(target);
      state := state.(target := target, startup := saved.startup, dirty := saved.migrated || target != saved.intended,
                      loadFault := None, fault := NoFault, revision := WrapInc(state.revision));
    }

    method TickLive(ghost io0: Io) returns (ghost io: Io)
      requires Linked()
      modifies this`state, this`trace, kv, controller, hardware, hardware.bus
      ensures Linked() && io.read == io0.read
      ensures View() == TickLoaded(old(View()), io)
    {
      hide Linked, RuntimeModel.SaveIntent, RuntimeModel.Reconcile, TickSettled, FrameFor, Effective, EffectiveFrame;
      ghost var before := View();
      var reply;
      reply, io := SaveIntent(io0);
      if reply == Okay {
        ghost var saved := io;
        if controller.applied != Some(EffectiveFrame()) {
          reply, io := Reconcile(io);
        } else {
          io := TickQuiet(io);
        }
        SaveUsesOnly(before, saved, io);
      }
    }

    /** The right frame is acknowledged: drop finished tracks and verify when due. */
    method TickQuiet(ghost io0: Io) returns (ghost io: Io)
      requires Linked() && controller.applied.Some?
      modifies this`state, this`trace, controller`applied, hardware, hardware.bus
      ensures Linked() && io == io0.(check := io.check, cleanup := io.cleanup)
      ensures View() == TickSettled(old(View()), io)
    {
      hide Linked, ExpireTracks, CheckDue;
      ghost var before := View();
      io := io0;
      DropFinishedTracks();
      ExpireKeeps(before);
      if now >= state.nextVerify { io := CheckApplied(io); }
    }

    lemma ExpireKeeps(w: World)
      ensures ExpireTracks(w).applied == w.applied && ExpireTracks(w).nextVerify == w.nextVerify
    {
    }

    method CheckApplied(ghost io0: Io) returns (ghost io: Io)
      requires Linked() && controller.applied.Some?
      modifies this`state, this`trace, controller`applied, hardware, hardware.bus
      ensures Linked() && io == io0.(check := io.check, cleanup := io.cleanup)
      ensures View() == CheckDue(old(View()), io)
    {
      hide Linked, RuntimeModel.OutputFailed;
      state := state.(nextVerify := SatAdd(now, RETRY_MS));
      var ok := Check(controller.applied.value);
      io := io0.(check := ok);
      if !ok { io := OutputFailed(io); }
    }
  }
}
