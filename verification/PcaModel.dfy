/**
 * The PCA9635 output driver over an adversarial device: every bus transaction may fail leaving arbitrary
 * registers, the device may reset by itself before any of them, a read may be corrupted and the OE line may stick.
 */
module PcaModel {
  import opened Basics
  import opened Light
  import opened Pwm

  const MODE2: byte := 0x14

  type Regs = s: seq<byte> | |s| == 24 witness seq(24, _ => 0)

  /** What the adversary does to one operation. */
  datatype Glitch = Glitch(
    upset: Option<Regs>,    // the registers change by themselves just before the transaction
    error: Option<Regs>,    // the transaction fails and leaves these registers
    corrupt: Option<Regs>,  // a successful read returns this instead of the registers
    stuck: Option<bool>)    // setting OE fails and leaves the line at this level

  const CALM := Glitch(None, None, None, None)

  /** One entry per operation, in order. */
  type Script = nat -> Glitch

  datatype BusEvent =
    | Oe(disabled: bool, ok: bool)
    | Wrote(bytes: seq<byte>, ok: bool)
    | Read(data: Option<Regs>)
    | Waited(micros: nat)

  /** The device and the OE line, and how many operations have been issued to them. */
  datatype Wire = Wire(regs: Regs, disabled: bool, ops: nat)

  datatype Driver = Driver(verifiedOn: Option<OutputFrame>, wire: Wire)

  datatype Status = Good | BusError | EnableError | ReadbackMismatch

  /** The outcome of a driver operation and the bus events it caused, in order. */
  datatype Ran = Ran(driver: Driver, status: Status, events: seq<BusEvent>)

  datatype Sampled = Sampled(driver: Driver, data: Option<Regs>)

  /** `second` ran right after `first`. */
  function After(first: Ran, second: Ran): Ran { second.(events := first.events + second.events) }

  // ----- the device

  function Upset(w: Wire, g: Glitch): Regs { if g.upset.Some? then g.upset.value else w.regs }

  /** A write addresses register `bytes[0] % 32` and runs on with auto-increment. */
  predicate Fits(bytes: seq<byte>) { |bytes| > 0 && bytes[0] % 32 + |bytes| - 1 <= 24 }

  function Overwrite(regs: Regs, bytes: seq<byte>): Regs
    requires Fits(bytes)
  {
    var start := bytes[0] % 32;
    regs[..start] + bytes[1..] + regs[start + |bytes| - 1..]
  }

  /** The upper MODE1 bits of a readback say how the last access was addressed, not what was written. */
  function ReadBack(regs: Regs): Regs { regs[0 := regs[0] % 32 + 128] }

  function SetDisabled(d: Driver, disabled: bool, script: Script): Ran
  {
    var g := script(d.wire.ops);
    Ran(d.(wire := Wire(d.wire.regs, if g.stuck.Some? then g.stuck.value else disabled, d.wire.ops + 1)),
        if g.stuck.Some? then EnableError else Good,
        [Oe(disabled, g.stuck.None?)])
  }

  function WriteBytes(d: Driver, bytes: seq<byte>, script: Script): Ran
    requires Fits(bytes)
  {
    var g := script(d.wire.ops);
    Ran(d.(wire := Wire(if g.error.Some? then g.error.value else Overwrite(Upset(d.wire, g), bytes), d.wire.disabled,
      d.wire.ops + 1)),
        if g.error.Some? then BusError else Good,
        [Wrote(bytes, g.error.None?)])
  }

  // ----- the driver

  function ReadRegisters(d: Driver, script: Script): Sampled
  {
    var g := script(d.wire.ops);
    var regs := Upset(d.wire, g);
    if g.error.Some? then Sampled(Driver(None, Wire(g.error.value, d.wire.disabled, d.wire.ops + 1)), None)
    else
      Sampled(d.(wire := Wire(regs, d.wire.disabled, d.wire.ops + 1)),
              Some(if g.corrupt.Some? then g.corrupt.value else ReadBack(regs)))
  }

  /** The readback that counts as verification of a frame. */
  predicate Matches(data: Regs, frame: OutputFrame)
  {
    data[0] % 32 == 0 && data[1] == MODE2 && data[2..] == EncodeFrame(frame)
  }

  function VerifyFrame(d: Driver, frame: OutputFrame, script: Script): Ran
  {
    var s := ReadRegisters(d, script);
    var events := [Read(s.data)];
    if s.data.None? then Ran(s.driver, BusError, events)
    else if !Matches(s.data.value, frame) then Ran(s.driver.(verifiedOn := None), ReadbackMismatch, events)
    else Ran(s.driver, Good, events)
  }

  function FrameWrite(frame: OutputFrame): seq<byte> { [0x82] + EncodeFrame(frame) }

  function WriteFrame(d: Driver, frame: OutputFrame, script: Script): Ran
  {
    WriteBytes(d, FrameWrite(frame), script)
  }

  function Finish(r: Ran, script: Script): Ran
  {
    if r.status == Good then r
    else
      var off := SetDisabled(r.driver.(verifiedOn := None), true, script);
      After(r, if off.status != Good then off else off.(status := r.status))
  }

  /** Configure polarity and zero duty before waking, then read everything back. */
  function ParkBody(d: Driver, script: Script): Ran
  {
    var r1 := WriteBytes(d, [0x01, MODE2], script);
    if r1.status != Good then r1 else
    var r2 := After(r1, WriteFrame(r1.driver, DEFAULT_FRAME, script));
    if r2.status != Good then r2 else
    var r3 := After(r2, WriteBytes(r2.driver, [0x00, 0x00], script));
    if r3.status != Good then r3 else
    After(r3.(events := r3.events + [Waited(500)]), VerifyFrame(r3.driver, DEFAULT_FRAME, script))
  }

  function InitializeOff(d: Driver, script: Script): Ran
  {
    var off := SetDisabled(d.(verifiedOn := None), true, script);
    if off.status != Good then off else After(off, Finish(ParkBody(off.driver, script), script))
  }

  /** Write a frame and read it back. */
  function WriteVerified(d: Driver, frame: OutputFrame, script: Script): Ran
  {
    var written := WriteFrame(d, frame, script);
    if written.status != Good then written else After(written, VerifyFrame(written.driver, frame, script))
  }

  /** First or recovering application: park, then for an On frame write, verify and only then enable. */
  function FullPath(d: Driver, frame: OutputFrame, script: Script): Ran
  {
    var parked := InitializeOff(d, script);
    if parked.status != Good || !frame.state.on then parked else
    var verified := After(parked, WriteVerified(parked.driver, frame, script));
    if verified.status != Good then verified else
    var enabled := After(verified, SetDisabled(verified.driver, false, script));
    if enabled.status != Good then enabled else enabled.(driver := enabled.driver.(verifiedOn := Some(frame)))
  }

  /** The previous frame has just been verified: rewrite only what differs, without parking. */
  function FastPath(d: Driver, previous: OutputFrame, frame: OutputFrame, script: Script): Ran
  {
    var verified :=
      if EncodeFrame(previous) == EncodeFrame(frame) then Ran(d, Good, []) else WriteVerified(d, frame, script);
    if verified.status != Good then verified else verified.(driver := verified.driver.(verifiedOn := Some(frame)))
  }

  function ApplyBody(d: Driver, frame: OutputFrame, script: Script): Ran
  {
    if !frame.state.on || d.verifiedOn.None? then FullPath(d, frame, script)
    else
      var seen := VerifyFrame(d, d.verifiedOn.value, script);
      match seen.status
      case Good => After(seen, FastPath(seen.driver, d.verifiedOn.value, frame, script))
      case ReadbackMismatch => After(seen, FullPath(seen.driver, frame, script))
      case _ => seen
  }

  function ApplyFrame(d: Driver, frame: OutputFrame, script: Script): Ran
  {
    Finish(ApplyBody(d, frame, script), script)
  }

  // ----- what the events of an operation show

  /** The events of one complete, successful parked initialization. */
  predicate IsPark(events: seq<BusEvent>)
  {
    && |events| == 6
    && events[0] == Oe(true, true)
    && events[1] == Wrote([0x01, MODE2], true)
    && events[2] == Wrote(FrameWrite(DEFAULT_FRAME), true)
    && events[3] == Wrote([0x00, 0x00], true)
    && events[4] == Waited(500)
    && events[5].Read? && events[5].data.Some? && Matches(events[5].data.value, DEFAULT_FRAME)
  }

  /**
   * The enable at index i directly follows a complete park, the write of a frame and the matching readback of that
   * same frame.
   */
  predicate Earned(log: seq<BusEvent>, i: nat)
    requires i < |log|
  {
    && i >= 8
    && IsPark(log[i - 8..i - 2])
    && log[i - 1].Read? && log[i - 1].data.Some?
    && var data := log[i - 1].data.value;
       data[0] % 32 == 0 && data[1] == MODE2 && log[i - 2] == Wrote([0x82] + data[2..], true)
  }

  predicate EnablesEarned(log: seq<BusEvent>)
  {
    forall i :: 0 <= i < |log| && log[i].Oe? && !log[i].disabled ==> Earned(log, i)
  }

  predicate NoEnable(events: seq<BusEvent>)
  {
    forall i :: 0 <= i < |events| && events[i].Oe? ==> events[i].disabled
  }

  /** The last event is an attempt to disable the output. */
  predicate EndsDisabling(events: seq<BusEvent>)
  {
    |events| > 0 && events[|events| - 1].Oe? && events[|events| - 1].disabled
  }

  /** The last bus transaction is a successful readback of the frame; only the enable of that frame may follow it. */
  predicate EndsVerified(events: seq<BusEvent>, frame: OutputFrame)
  {
    var n := if |events| > 0 && events[|events| - 1] == Oe(false, true) then |events| - 1 else |events|;
    n > 0 && events[n - 1].Read? && events[n - 1].data.Some? && Matches(events[n - 1].data.value, frame)
  }

  lemma EarnedConcat(log: seq<BusEvent>, more: seq<BusEvent>)
    requires EnablesEarned(log) && EnablesEarned(more)
    ensures EnablesEarned(log + more)
  {
    var all := log + more;
    forall i | 0 <= i < |all| && all[i].Oe? && !all[i].disabled
      ensures Earned(all, i)
    {
      if i < |log| {
        assert Earned(log, i);
        assert all[i - 8..i - 2] == log[i - 8..i - 2];
      } else {
        var k := i - |log|;
        assert all[i] == more[k] && Earned(more, k);
        assert all[i - 8..i - 2] == more[k - 8..k - 2];
        assert all[i - 1] == more[k - 1] && all[i - 2] == more[k - 2];
      }
    }
  }

  lemma FinishOutcome(r: Ran, script: Script)
    ensures var f := Finish(r, script);
      && (r.status == Good ==> f == r)
      && (r.status != Good ==>
            && f.status != Good && f.driver.verifiedOn.None? && EndsDisabling(f.events)
            && |f.events| == |r.events| + 1 && r.events <= f.events
            && f.driver.wire.ops == r.driver.wire.ops + 1)
      && (NoEnable(r.events) ==> NoEnable(f.events))
      && (EnablesEarned(r.events) ==> EnablesEarned(f.events))
  {
    if r.status != Good {
      EarnedAppend(r.events, Finish(r, script).events[|r.events|]);
    }
  }

  lemma EarnedAppend(log: seq<BusEvent>, e: BusEvent)
    requires e.Oe? ==> e.disabled
    ensures EnablesEarned(log) ==> EnablesEarned(log + [e])
  {
    if EnablesEarned(log) { EarnedConcat(log, [e]); }
  }

  lemma ParkBodyOutcome(d: Driver, script: Script)
    ensures var r := ParkBody(d, script);
      && NoEnable(r.events) && r.driver.wire.disabled == d.wire.disabled
      && (d.verifiedOn.None? ==> r.driver.verifiedOn.None?)
      && (r.status == Good ==> IsPark([Oe(true, true)] + r.events))
  {
    hide Matches, Overwrite, EncodeFrame;
  }

  /** Parking either completes in full or ends by attempting to disable; it starts by disabling and never enables. */
  lemma ParkOutcome(d: Driver, script: Script)
    ensures var r := InitializeOff(d, script);
      && NoEnable(r.events) && r.driver.verifiedOn.None?
      && |r.events| > 0 && r.events[0].Oe? && r.events[0].disabled
      && (r.status == Good ==> IsPark(r.events) && r.driver.wire.disabled)
      && (r.status != Good ==> EndsDisabling(r.events))
  {
    hide ParkBody, IsPark, Finish;
    var off := SetDisabled(d.(verifiedOn := None), true, script);
    ParkBodyOutcome(off.driver, script);
    FinishOutcome(ParkBody(off.driver, script), script);
  }

  lemma WriteVerifiedOutcome(d: Driver, frame: OutputFrame, script: Script)
    ensures var r := WriteVerified(d, frame, script);
      && NoEnable(r.events) && r.driver.wire.disabled == d.wire.disabled
      && (d.verifiedOn.None? ==> r.driver.verifiedOn.None?)
      && (r.status == Good ==>
            && |r.events| == 2 && r.events[0] == Wrote(FrameWrite(frame), true)
            && r.events[1].Read? && r.events[1].data.Some? && Matches(r.events[1].data.value, frame))
  {
    hide Overwrite, EncodeFrame;
  }

  lemma NoEnableEarned(events: seq<BusEvent>)
    requires NoEnable(events)
    ensures EnablesEarned(events)
  {
  }

  /** The full path enables only as its last act, and only having earned it. */
  lemma FullPathOutcome(d: Driver, frame: OutputFrame, script: Script)
    ensures var r := FullPath(d, frame, script);
      && EnablesEarned(r.events) && |r.events| > 0 && r.events[0].Oe? && r.events[0].disabled
      && (r.status == Good ==>
            && r.driver.verifiedOn == (if frame.state.on then Some(frame) else None)
            && r.driver.wire.disabled == !frame.state.on
            && EndsVerified(r.events, frame))
      && (r.status != Good ==> r.driver.verifiedOn.None?)
  {
    hide InitializeOff, WriteVerified, EncodeFrame, IsPark;
    var parked := InitializeOff(d, script);
    ParkOutcome(d, script);
    NoEnableEarned(parked.events);
    if parked.status == Good {
      ParkVerifies(parked.events, frame);
      if frame.state.on {
        var checked := WriteVerified(parked.driver, frame, script);
        WriteVerifiedOutcome(parked.driver, frame, script);
        NoEnableEarned(parked.events + checked.events);
        if checked.status == Good {
          var enable := SetDisabled(checked.driver, false, script).events[0];
          EnableEarned(parked.events, checked.events, enable, frame);
        }
      }
    }
  }

  /** Any Off frame is encoded as the default one, so a completed park has verified it. */
  lemma ParkVerifies(events: seq<BusEvent>, frame: OutputFrame)
    requires IsPark(events)
    ensures |events| == 6
    ensures !frame.state.on ==> EndsVerified(events, frame)
  {
  }

  lemma EnableEarned(park: seq<BusEvent>, checked: seq<BusEvent>, enable: BusEvent, frame: OutputFrame)
    requires IsPark(park) && NoEnable(park) && NoEnable(checked) && enable.Oe? && !enable.disabled
    requires |checked| == 2 && checked[0] == Wrote(FrameWrite(frame), true)
    requires checked[1].Read? && checked[1].data.Some? && Matches(checked[1].data.value, frame)
    ensures EnablesEarned(park + checked + [enable])
    ensures enable.ok ==> EndsVerified(park + checked + [enable], frame)
  {
    hide IsPark, EncodeFrame;
    var all := park + checked + [enable];
    ParkVerifies(park, frame);
    assert all[..6] == park;
    assert all[8] == enable && all[7] == checked[1] && all[6] == checked[0];
    assert forall k :: 0 <= k < 6 ==> all[k] == park[k];
    forall i | 0 <= i < |all| && all[i].Oe? && !all[i].disabled
      ensures Earned(all, i)
    {
      assert i == 8;
      assert all[i - 8..i - 2] == all[..6];
    }
  }

  lemma FastPathOutcome(d: Driver, previous: OutputFrame, frame: OutputFrame, seen: seq<BusEvent>, script: Script)
    requires EndsVerified(seen, previous) && NoEnable(seen)
    ensures var r := FastPath(d, previous, frame, script);
      && NoEnable(r.events) && r.driver.wire.disabled == d.wire.disabled
      && (r.status == Good ==> r.driver.verifiedOn == Some(frame) && EndsVerified(seen + r.events, frame))
      && (r.events == [] <==> EncodeFrame(previous) == EncodeFrame(frame))
  {
    hide WriteVerified;
    if EncodeFrame(previous) == EncodeFrame(frame) {
      assert seen + [] == seen;
    } else {
      WriteVerifiedOutcome(d, frame, script);
      WriteVerifiedActs(d, frame, script);
      var r := WriteVerified(d, frame, script);
      if r.status == Good {
        var all := seen + r.events;
        assert all[|all| - 1] == r.events[1];
      }
    }
  }

  lemma WriteVerifiedActs(d: Driver, frame: OutputFrame, script: Script)
    ensures |WriteVerified(d, frame, script).events| > 0
  {
  }

  /** What a driver carries between operations: a verified frame is On and the line was left enabled. */
  predicate Sound(d: Driver)
  {
    d.verifiedOn.Some? ==> d.verifiedOn.value.state.on && !d.wire.disabled
  }

  /**
   * Every application, on all four paths and under every glitch: success means the last bus transaction was a
   * readback matching the requested frame, and the line is enabled exactly for On; failure clears the verified
   * frame and ends by attempting to disable; and every enable was earned within the same call.
   */
  lemma ApplyOutcome(d: Driver, frame: OutputFrame, script: Script)
    requires Sound(d)
    ensures var r := ApplyFrame(d, frame, script);
      && Sound(r.driver) && EnablesEarned(r.events)
      && (r.status == Good ==>
            && EndsVerified(r.events, frame)
            && r.driver.verifiedOn == (if frame.state.on then Some(frame) else None)
            && r.driver.wire.disabled == !frame.state.on)
      && (r.status != Good ==> r.driver.verifiedOn.None? && EndsDisabling(r.events))
      && (d.verifiedOn.None? || !frame.state.on ==> |r.events| > 0 && r.events[0].Oe? && r.events[0].disabled)
  {
    hide FullPath, FastPath, Finish, EncodeFrame;
    FinishOutcome(ApplyBody(d, frame, script), script);
    if !frame.state.on || d.verifiedOn.None? {
      FullPathOutcome(d, frame, script);
    } else {
      var previous := d.verifiedOn.value;
      var seen := VerifyFrame(d, previous, script);
      NoEnableEarned(seen.events);
      if seen.status == Good {
        FastPathOutcome(seen.driver, previous, frame, seen.events, script);
        NoEnableEarned(seen.events + FastPath(seen.driver, previous, frame, script).events);
      } else if seen.status == ReadbackMismatch {
        var full := FullPath(seen.driver, frame, script);
        FullPathOutcome(seen.driver, frame, script);
        EarnedConcat(seen.events, full.events);
        if full.status == Good { VerifiedAfter(seen.events, full.events, frame); }
      }
    }
  }

  lemma VerifiedAfter(before: seq<BusEvent>, events: seq<BusEvent>, frame: OutputFrame)
    requires EndsVerified(events, frame)
    ensures EndsVerified(before + events, frame)
  {
    var all, n := before + events, |before|;
    assert all[|all| - 1] == events[|events| - 1];
    if events[|events| - 1] == Oe(false, true) { assert all[|all| - 2] == events[|events| - 2]; }
  }

  // ----- operations as the runtime issues them

  datatype Operation = OpShutdown | OpApply(frame: OutputFrame) | OpVerify(frame: OutputFrame) | OpSample

  function Operate(d: Driver, op: Operation, script: Script): Ran
  {
    match op
    case OpShutdown => InitializeOff(d, script)
    case OpApply(frame) => ApplyFrame(d, frame, script)
    case OpVerify(frame) => VerifyFrame(d, frame, script)
    case OpSample =>
      var s := ReadRegisters(d, script);
      Ran(s.driver, if s.data.None? then BusError else Good, [Read(s.data)])
  }

  /** The driver and the whole bus log after a sequence of operations. */
  datatype History = History(driver: Driver, log: seq<BusEvent>)

  function Replay(d: Driver, ops: seq<Operation>, script: Script): History
    decreases |ops|
  {
    if ops == [] then History(d, [])
    else
      var h := Replay(d, ops[..|ops| - 1], script);
      var r := Operate(h.driver, ops[|ops| - 1], script);
      History(r.driver, h.log + r.events)
  }

  /** The verified frame a successful operation leaves. */
  function VerifiedAfterGood(before: Option<OutputFrame>, op: Operation): Option<OutputFrame>
  {
    match op
    case OpShutdown => None
    case OpApply(frame) => if frame.state.on then Some(frame) else None
    case OpVerify(_) => before
    case OpSample => before
  }

  lemma OperateSound(d: Driver, op: Operation, script: Script)
    requires Sound(d)
    ensures var r := Operate(d, op, script);
      && Sound(r.driver) && EnablesEarned(r.events)
      && (r.status != Good ==> r.driver.verifiedOn.None?)
      && (r.status == Good ==> r.driver.verifiedOn == VerifiedAfterGood(d.verifiedOn, op))
  {
    hide InitializeOff, ApplyFrame, Matches;
    match op
    case OpShutdown => ParkOutcome(d, script); NoEnableEarned(InitializeOff(d, script).events);
    case OpApply(frame) => ApplyOutcome(d, frame, script);
    case OpVerify(frame) =>
    case OpSample =>
  }

  /**
   * OE discipline over whole histories: from a driver that has verified nothing, under any script, every enable
   * anywhere in the log directly follows a complete park, a frame write and the matching readback of that frame.
   */
  lemma {:induction false} EnableDiscipline(d: Driver, ops: seq<Operation>, script: Script)
    requires d.verifiedOn.None?
    ensures var h := Replay(d, ops, script); Sound(h.driver) && EnablesEarned(h.log)
    decreases |ops|
  {
    hide Operate, Earned;
    if ops != [] {
      var before := ops[..|ops| - 1];
      var h := Replay(d, before, script);
      EnableDiscipline(d, before, script);
      OperateSound(h.driver, ops[|ops| - 1], script);
      EarnedConcat(h.log, Operate(h.driver, ops[|ops| - 1], script).events);
    }
  }

  // ----- the fast path refines the full one

  /** From operation n on the device is left alone. */
  ghost predicate CalmFrom(script: Script, n: nat)
  {
    forall k :: k >= n ==> script(k) == CALM
  }

  /** Registers that drive the outputs as a frame asks, whatever the read-only auto-increment bits say. */
  predicate Holds(w: Wire, frame: OutputFrame)
  {
    w.regs[0] % 32 == 0 && w.regs[1] == MODE2 && w.regs[2..] == EncodeFrame(frame)
  }

  lemma CalmWrite(d: Driver, bytes: seq<byte>, script: Script)
    requires Fits(bytes) && CalmFrom(script, d.wire.ops)
    ensures var r := WriteBytes(d, bytes, script);
      r.status == Good && r.driver == d.(wire := Wire(Overwrite(d.wire.regs, bytes), d.wire.disabled, d.wire.ops + 1))
  {
    assert script(d.wire.ops) == CALM;
  }

  lemma CalmVerify(d: Driver, frame: OutputFrame, script: Script)
    requires CalmFrom(script, d.wire.ops)
    ensures var r := VerifyFrame(d, frame, script);
      && r.status == (if Holds(d.wire, frame) then Good else ReadbackMismatch)
      && r.driver.wire == d.wire.(ops := d.wire.ops + 1)
      && (Holds(d.wire, frame) ==> r.driver.verifiedOn == d.verifiedOn)
  {
    hide EncodeFrame;
    assert script(d.wire.ops) == CALM;
    assert ReadBack(d.wire.regs)[2..] == d.wire.regs[2..];
  }

  lemma OverwriteFrame(regs: Regs, frame: OutputFrame)
    ensures var after := Overwrite(regs, FrameWrite(frame));
      after[0] == regs[0] && after[1] == regs[1] && after[2..] == EncodeFrame(frame)
  {
    hide EncodeFrame;
    var after := Overwrite(regs, FrameWrite(frame));
    assert after == regs[..2] + EncodeFrame(frame) + regs[24..];
  }

  lemma CalmWriteVerified(d: Driver, frame: OutputFrame, script: Script)
    requires CalmFrom(script, d.wire.ops) && d.wire.regs[0] % 32 == 0 && d.wire.regs[1] == MODE2
    ensures var r := WriteVerified(d, frame, script);
      && r.status == Good && Holds(r.driver.wire, frame) && r.driver.wire.disabled == d.wire.disabled
      && r.driver.wire.ops >= d.wire.ops
  {
    hide EncodeFrame, Overwrite, VerifyFrame, WriteBytes;
    CalmWrite(d, FrameWrite(frame), script);
    OverwriteFrame(d.wire.regs, frame);
    CalmVerify(WriteFrame(d, frame, script).driver, frame, script);
  }

  lemma OverwriteModes(regs: Regs)
    ensures Overwrite(regs, [0x01, MODE2]) == regs[1 := MODE2]
    ensures Overwrite(regs, [0x00, 0x00]) == regs[0 := 0]
  {
  }

  /** Left alone, parking always succeeds and leaves the device configured, dark and disabled. */
  lemma CalmPark(d: Driver, script: Script)
    requires CalmFrom(script, d.wire.ops)
    ensures var r := InitializeOff(d, script);
      && r.status == Good && Holds(r.driver.wire, DEFAULT_FRAME) && r.driver.wire.disabled && r.driver.verifiedOn.None?
      && r.driver.wire.ops >= d.wire.ops
  {
    hide EncodeFrame, Overwrite, VerifyFrame, WriteBytes;
    assert script(d.wire.ops) == CALM;
    var off := SetDisabled(d.(verifiedOn := None), true, script).driver;
    OverwriteModes(off.wire.regs);
    CalmWrite(off, [0x01, MODE2], script);
    var d1 := WriteBytes(off, [0x01, MODE2], script).driver;
    OverwriteFrame(d1.wire.regs, DEFAULT_FRAME);
    CalmWrite(d1, FrameWrite(DEFAULT_FRAME), script);
    var d2 := WriteFrame(d1, DEFAULT_FRAME, script).driver;
    OverwriteModes(d2.wire.regs);
    CalmWrite(d2, [0x00, 0x00], script);
    var d3 := WriteBytes(d2, [0x00, 0x00], script).driver;
    assert d3.wire.regs[2..] == d2.wire.regs[2..];
    CalmVerify(d3, DEFAULT_FRAME, script);
  }

  lemma CalmFullPath(d: Driver, frame: OutputFrame, script: Script)
    requires CalmFrom(script, d.wire.ops)
    ensures var r := FullPath(d, frame, script);
      && r.status == Good && Holds(r.driver.wire, frame) && r.driver.wire.disabled == !frame.state.on
      && r.driver.verifiedOn == (if frame.state.on then Some(frame) else None)
  {
    hide EncodeFrame, InitializeOff, WriteVerified;
    CalmPark(d, script);
    var parked := InitializeOff(d, script).driver;
    if frame.state.on {
      CalmWriteVerified(parked, frame, script);
      var verified := WriteVerified(parked, frame, script).driver;
      assert script(verified.wire.ops) == CALM;
    } else {
      OffFrames(frame);
    }
  }

  lemma OffFrames(frame: OutputFrame)
    requires !frame.state.on
    ensures EncodeFrame(frame) == EncodeFrame(DEFAULT_FRAME)
  {
  }

  /**
   * Refinement: on a device left alone from now on, whatever its registers have become, applying a frame from any
   * sound driver state ends like the full park-write-verify-enable sequence does: same result, same verified frame,
   * same line level and registers that hold the same output.
   */
  lemma FastPathRefinesFull(d: Driver, frame: OutputFrame, script: Script)
    requires Sound(d) && CalmFrom(script, d.wire.ops)
    ensures var fast, full := ApplyFrame(d, frame, script), FullPath(d, frame, script);
      && fast.status == full.status == Good
      && fast.driver.verifiedOn == full.driver.verifiedOn
      && fast.driver.wire.disabled == full.driver.wire.disabled
      && Holds(fast.driver.wire, frame) && Holds(full.driver.wire, frame)
  {
    hide EncodeFrame, FullPath, VerifyFrame, WriteVerified;
    CalmFullPath(d, frame, script);
    if frame.state.on && d.verifiedOn.Some? {
      var previous := d.verifiedOn.value;
      CalmVerify(d, previous, script);
      var seen := VerifyFrame(d, previous, script).driver;
      if Holds(d.wire, previous) {
        CalmWriteVerified(seen, frame, script);
      } else {
        CalmFullPath(seen, frame, script);
      }
    }
  }

  /** A frame that encodes to the registers already shown costs one readback: no write, no OE activity. */
  lemma QuantizedFrameOnlyReads(d: Driver, frame: OutputFrame, script: Script)
    requires Sound(d) && d.verifiedOn.Some? && frame.state.on
    requires EncodeFrame(d.verifiedOn.value) == EncodeFrame(frame)
    requires VerifyFrame(d, d.verifiedOn.value, script).status == Good
    ensures var r := ApplyFrame(d, frame, script);
      r.status == Good && |r.events| == 1 && r.events[0].Read? && r.driver.verifiedOn == Some(frame)
        && r.driver.wire.disabled == d.wire.disabled
  {
    hide EncodeFrame, Matches;
  }

  /** The registers of a device that shows a frame, in numbers: awake, configured, and the bytes of that frame. */
  lemma HeldRegisters(w: Wire, frame: OutputFrame)
    requires Holds(w, frame)
    ensures w.regs[0] % 32 == 0 && w.regs[1] == 20
    ensures w.regs[2] == EncodeFrame(frame)[0] && w.regs[6] == EncodeFrame(frame)[4]
    ensures forall i :: 2 <= i < 18 && i != 2 && i != 6 ==> w.regs[i] == 0
  {
    BytesLayout(frame);
    assert forall i :: 2 <= i < 24 ==> w.regs[i] == w.regs[2..][i - 2];
  }

  /** A fade does not blink: while the readbacks match, applying an On frame over a verified one never touches OE. */
  lemma FadeKeepsOutput(d: Driver, frame: OutputFrame, script: Script)
    requires Sound(d) && d.verifiedOn.Some? && frame.state.on
    requires VerifyFrame(d, d.verifiedOn.value, script).status == Good && ApplyFrame(d, frame, script).status == Good
    ensures var r := ApplyFrame(d, frame, script);
      && (forall i :: 0 <= i < |r.events| ==> !r.events[i].Oe?)
      && r.driver.wire.disabled == d.wire.disabled
  {
    hide EncodeFrame, Matches;
  }

  /** A bus error while looking is not taken for a reset: the application fails and nothing is driven. */
  lemma BusErrorFailsApply(d: Driver, frame: OutputFrame, script: Script)
    requires d.verifiedOn.Some? && frame.state.on
    requires VerifyFrame(d, d.verifiedOn.value, script).status == BusError
    ensures var r := ApplyFrame(d, frame, script);
      && r.status != Good && r.driver.verifiedOn.None?
      && (forall i :: 0 <= i < |r.events| ==> !r.events[i].Wrote?)
  {
    hide EncodeFrame, Matches, FullPath, FastPath;
  }
}
