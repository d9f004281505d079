/** Runtime, controller and driver together: one acknowledgement seen at three layers. */
module Composition {
  import opened Basics
  import opened Light
  import opened Pwm
  import opened RuntimeModel
  import opened RuntimeInvariant
  import opened Traces
  import Pca = PcaModel

  /** The driver call behind a runtime event; storage events involve none. */
  function OperationOf(e: Event): Option<Pca.Operation>
  {
    match e
    case Stored(_, _) => None
    case Loaded(_) => None
    case Parked(_) => Some(Pca.OpShutdown)
    case Applied(frame, _) => Some(Pca.OpApply(frame))
    case Checked(frame, _) => Some(Pca.OpVerify(frame))
    case Sampled(_) => Some(Pca.OpSample)
  }

  /** The driver calls of a trace, in order. */
  function Operations(trace: seq<Event>): seq<Pca.Operation>
    decreases |trace|
  {
    if trace == [] then []
    else
      var last := OperationOf(trace[|trace| - 1]);
      Operations(trace[..|trace| - 1]) + if last.Some? then [last.value] else []
  }

  /** The outcomes the runtime recorded are the ones the driver produced. */
  predicate Agrees(d: Pca.Driver, trace: seq<Event>, script: Pca.Script)
    decreases |trace|
  {
    trace != [] ==>
      var before, e := trace[..|trace| - 1], trace[|trace| - 1];
      && Agrees(d, before, script)
      && (OperationOf(e).Some? ==>
            var now := Pca.Replay(d, Operations(before), script).driver;
            e.ok <==> Pca.Operate(now, OperationOf(e).value, script).status == Pca.Good)
  }

  /** One more event: the calls it makes, and what it takes to agree. */
  lemma OneMoreEvent(d: Pca.Driver, before: seq<Event>, e: Event, script: Pca.Script)
    ensures Operations(before + [e]) == Operations(before) + if OperationOf(e).Some? then [OperationOf(e).value] else []
    ensures Agrees(d, before + [e], script) <==>
      Agrees(d, before, script) &&
      (OperationOf(e).Some? ==>
         var now := Pca.Replay(d, Operations(before), script).driver;
         e.ok <==> Pca.Operate(now, OperationOf(e).value, script).status == Pca.Good)
  {
    hide Pca.Operate, Pca.Replay;
    assert (before + [e])[..|before|] == before;
  }

  /** One more call. */
  lemma OneMoreCall(d: Pca.Driver, ops: seq<Pca.Operation>, op: Pca.Operation, script: Pca.Script)
    ensures var h := Pca.Replay(d, ops, script);
      Pca.Replay(d, ops + [op], script).driver == Pca.Operate(h.driver, op, script).driver
  {
    hide Pca.Operate;
    assert (ops + [op])[..|ops|] == ops;
  }

  /** The lit part of an acknowledgement, which is what the driver remembers as verified. */
  function OnPart(ack: Option<OutputFrame>): Option<OutputFrame>
  {
    if ack.Some? && ack.value.state.on then ack else None
  }

  /** A device that does not change by itself and whose reads are honest; transactions may still fail. */
  ghost predicate Faithful(script: Pca.Script)
  {
    forall k :: script(k).upset.None? && script(k).corrupt.None?
  }

  /** Registers and line realise an acknowledged frame. */
  predicate Realised(w: Pca.Wire, f: OutputFrame)
  {
    Pca.Holds(w, f) && w.disabled == !f.state.on
  }

  lemma FaithfulVerify(d: Pca.Driver, frame: OutputFrame, script: Pca.Script)
    requires Faithful(script)
    ensures var r := Pca.VerifyFrame(d, frame, script);
      r.status == Pca.Good ==> Pca.Holds(d.wire, frame) && r.driver.wire == d.wire.(ops := d.wire.ops + 1)
  {
    hide EncodeFrame;
    assert script(d.wire.ops).upset.None? && script(d.wire.ops).corrupt.None?;
    assert Pca.ReadBack(d.wire.regs)[2..] == d.wire.regs[2..];
  }

  lemma FaithfulWriteVerified(d: Pca.Driver, frame: OutputFrame, script: Pca.Script)
    requires Faithful(script)
    ensures var r := Pca.WriteVerified(d, frame, script);
      r.status == Pca.Good ==> Pca.Holds(r.driver.wire, frame) && r.driver.wire.disabled == d.wire.disabled
  {
    hide Pca.VerifyFrame, EncodeFrame;
    FaithfulVerify(Pca.WriteFrame(d, frame, script).driver, frame, script);
    Pca.WriteVerifiedOutcome(d, frame, script);
  }

  lemma FaithfulPark(d: Pca.Driver, script: Pca.Script)
    requires Faithful(script)
    ensures var r := Pca.InitializeOff(d, script);
      r.status == Pca.Good ==> Pca.Holds(r.driver.wire, DEFAULT_FRAME) && r.driver.wire.disabled
  {
    hide Pca.VerifyFrame, EncodeFrame, Pca.Overwrite;
    var off := Pca.SetDisabled(d.(verifiedOn := None), true, script).driver;
    var d1 := Pca.WriteBytes(off, [0x01, Pca.MODE2], script).driver;
    var d2 := Pca.WriteFrame(d1, DEFAULT_FRAME, script).driver;
    var d3 := Pca.WriteBytes(d2, [0x00, 0x00], script).driver;
    FaithfulVerify(d3, DEFAULT_FRAME, script);
    Pca.ParkOutcome(d, script);
  }

  lemma FaithfulFullPath(d: Pca.Driver, frame: OutputFrame, script: Pca.Script)
    requires Faithful(script)
    ensures var r := Pca.FullPath(d, frame, script); r.status == Pca.Good ==> Realised(r.driver.wire, frame)
  {
    hide Pca.InitializeOff, Pca.WriteVerified, EncodeFrame;
    FaithfulPark(d, script);
    var parked := Pca.InitializeOff(d, script);
    if parked.status == Pca.Good {
      if frame.state.on {
        FaithfulWriteVerified(parked.driver, frame, script);
        Pca.WriteVerifiedOutcome(parked.driver, frame, script);
      } else {
        Pca.OffFrames(frame);
      }
    }
  }

  lemma FaithfulApply(d: Pca.Driver, frame: OutputFrame, script: Pca.Script)
    requires Faithful(script) && Pca.Sound(d)
    ensures var r := Pca.ApplyFrame(d, frame, script); r.status == Pca.Good ==> Realised(r.driver.wire, frame)
  {
    hide Pca.FullPath, Pca.VerifyFrame, Pca.WriteVerified, Pca.Finish, EncodeFrame;
    Pca.FinishOutcome(Pca.ApplyBody(d, frame, script), script);
    if !frame.state.on || d.verifiedOn.None? {
      FaithfulFullPath(d, frame, script);
    } else {
      var previous := d.verifiedOn.value;
      var seen := Pca.VerifyFrame(d, previous, script);
      FaithfulVerify(d, previous, script);
      if seen.status == Pca.Good {
        FaithfulWriteVerified(seen.driver, frame, script);
      } else if seen.status == Pca.ReadbackMismatch {
        FaithfulFullPath(seen.driver, frame, script);
      }
    }
  }

  lemma FaithfulOperate(d: Pca.Driver, op: Pca.Operation, f: OutputFrame, script: Pca.Script)
    requires Faithful(script) && Pca.Sound(d)
    ensures var r := Pca.Operate(d, op, script);
      r.status == Pca.Good ==>
        && (op.OpApply? ==> Realised(r.driver.wire, op.frame))
        && (!op.OpApply? && !op.OpShutdown? && Realised(d.wire, f) ==> Realised(r.driver.wire, f))
  {
    hide Pca.InitializeOff, Pca.ApplyFrame, EncodeFrame, Pca.Matches;
    match op
    case OpShutdown =>
    case OpApply(frame) => FaithfulApply(d, frame, script);
    case OpVerify(frame) => assert script(d.wire.ops).upset.None?;
    case OpSample => assert script(d.wire.ops).upset.None?;
  }

  /** After any agreeing trace the driver's verified frame is exactly the lit part of the acknowledgement. */
  lemma {:induction false} DriverFollowsTrace(d: Pca.Driver, trace: seq<Event>, script: Pca.Script)
    requires d.verifiedOn.None? && Agrees(d, trace, script)
    ensures var h := Pca.Replay(d, Operations(trace), script);
      && Pca.Sound(h.driver)
      && h.driver.verifiedOn == OnPart(Ack(trace))
      && (Faithful(script) && Ack(trace).Some? ==> Realised(h.driver.wire, Ack(trace).value))
    decreases |trace|
  {
    hide Pca.Operate, Pca.Holds, Pca.Replay, Operations, Agrees;
    if trace == [] {
      NothingReplayed(d, script);
    } else {
      var before, e := trace[..|trace| - 1], trace[|trace| - 1];
      assert trace == before + [e];
      OneMoreEvent(d, before, e, script);
      DriverFollowsTrace(d, before, script);
      if OperationOf(e).Some? {
        var op := OperationOf(e).value;
        var h := Pca.Replay(d, Operations(before), script);
        OneMoreCall(d, Operations(before), op, script);
        Pca.OperateSound(h.driver, op, script);
        if Faithful(script) {
          FaithfulOperate(h.driver, op, if Ack(before).Some? then Ack(before).value else DEFAULT_FRAME, script);
        }
      } else {
        assert Operations(trace) == Operations(before);
      }
    }
  }

  lemma NothingReplayed(d: Pca.Driver, script: Pca.Script)
    ensures Operations([]) == [] && Pca.Replay(d, [], script).driver == d
  {
  }

  /**
   * Three layers, one acknowledgement. In every run of the runtime over a driver and device that produced the
   * recorded outcomes: the frame the controller holds as applied is lit exactly when the driver holds it as
   * verified; holding one excludes every fault; on a faithful device its encoding is in the registers and the
   * output is enabled exactly if it is On; and every enable on the bus was earned by park, write and readback.
   */
  lemma ThreeLayerAcknowledgement(store: Option<seq<byte>>, io: Io, actions: seq<Action>, d: Pca.Driver,
    script: Pca.Script)
    requires TimelyRun(0, actions) && d.verifiedOn.None?
    requires Agrees(d, Run(Boot(store, io), actions).trace, script)
    ensures var w := Run(Boot(store, io), actions); var h := Pca.Replay(d, Operations(w.trace), script);
      && h.driver.verifiedOn == OnPart(w.applied)
      && (w.applied.Some? ==> w.fault == NoFault && w.loadFault.None?)
      && (Faithful(script) && w.applied.Some? ==> Realised(h.driver.wire, w.applied.value))
      && Pca.EnablesEarned(h.log)
  {
    hide Boot, Agrees, Realised, Pca.Replay, Operations, Traced, OnPart;
    BootInv(store, io);
    BootTraced(store, io);
    BootClock(store, io);
    RunInv(Boot(store, io), actions);
    RunTraced(store, Boot(store, io), actions);
    var w := Run(Boot(store, io), actions);
    AckIsApplied(store, w);
    DriverFollowsTrace(d, w.trace, script);
    Pca.EnableDiscipline(d, Operations(w.trace), script);
  }

  lemma BootClock(store: Option<seq<byte>>, io: Io)
    ensures Boot(store, io).now == 0
  {
  }

  lemma AckIsApplied(store: Option<seq<byte>>, w: World)
    requires Traced(store, w)
    ensures Ack(w.trace) == w.applied
  {
  }
}
