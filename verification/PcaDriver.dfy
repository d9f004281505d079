/** The PCA9635 driver as an object over a bus, its OE line and an adversarial script. */
module PcaDriver {
  import opened Basics
  import opened Light
  import opened Pwm
  import Model = PcaModel

  /** The device side: register file, OE line and the script that decides what goes wrong. Not part of the firmware. */
  class Bus {
    const script: Model.Script
    var regs: Model.Regs
    var disabled: bool
    var ops: nat
    ghost var log: seq<Model.BusEvent>

    ghost function Wire(): Model.Wire
      reads this
    {
      Model.Wire(regs, disabled, ops)
    }

    constructor (script: Model.Script, regs: Model.Regs, disabled: bool)
      ensures this.script == script && Wire() == Model.Wire(regs, disabled, 0) && log == []
    {
      this.script := script;
      this.regs, this.disabled, this.ops, this.log := regs, disabled, 0, [];
    }

    method Write(bytes: seq<byte>) returns (ok: bool)
      requires Model.Fits(bytes)
      modifies this
      ensures var r := Model.WriteBytes(Model.Driver(None, old(Wire())), bytes, script);
        Wire() == r.driver.wire && (ok <==> r.status == Model.Good) && log == old(log) + r.events
    {
      var g := script(ops);
      ok := g.error.None?;
      regs := if ok then Model.Overwrite(if g.upset.Some? then g.upset.value else regs, bytes) else g.error.value;
      ops := ops + 1;
      log := log + [Model.Wrote(bytes, ok)];
    }

    method WriteRead(out: array<byte>) returns (ok: bool)
      requires out.Length == 24
      modifies this, out
      ensures var s := Model.ReadRegisters(Model.Driver(None, old(Wire())), script);
        && Wire() == s.driver.wire && (ok <==> s.data.Some?) && (ok ==> out[..] == s.data.value)
        && log == old(log) + [Model.Read(s.data)]
    {
      var g := script(ops);
      ok := g.error.None?;
      if g.upset.Some? { regs := g.upset.value; }
      if ok {
        var data := if g.corrupt.Some? then g.corrupt.value else Model.ReadBack(regs);
        forall i | 0 <= i < 24 { out[i] := data[i]; }
        assert out[..] == data;
        log := log + [Model.Read(Some(data))];
      } else {
        regs := g.error.value;
        log := log + [Model.Read(None)];
      }
      ops := ops + 1;
    }

    method SetDisabled(disable: bool) returns (ok: bool)
      modifies this
      ensures var r := Model.SetDisabled(Model.Driver(None, old(Wire())), disable, script);
        Wire() == r.driver.wire && (ok <==> r.status == Model.Good) && log == old(log) + r.events
    {
      var g := script(ops);
      ok := g.stuck.None?;
      disabled := if ok then disable else g.stuck.value;
      ops := ops + 1;
      log := log + [Model.Oe(disable, ok)];
    }

    method Delay(micros: nat)
      modifies this`log
      ensures log == old(log) + [Model.Waited(micros)]
    {
      log := log + [Model.Waited(micros)];
    }
  }

  class Pca9635 {
    const bus: Bus
    var verifiedOn: Option<OutputFrame>

    ghost function View(): Model.Driver
      reads this, bus
    {
      Model.Driver(verifiedOn, bus.Wire())
    }

    /** The object moved exactly as the model says, and issued exactly the model's bus events. */
    twostate predicate Did(r: Model.Ran, status: Model.Status)
      reads this, bus
    {
      View() == r.driver && status == r.status && bus.log == old(bus.log) + r.events
    }

    constructor (bus: Bus)
      ensures this.bus == bus && verifiedOn.None?
    {
      this.bus := bus;
      verifiedOn := None;
    }

    method SetDisabled(disable: bool) returns (status: Model.Status)
      modifies this, bus
      ensures Did(Model.SetDisabled(old(View()), disable, bus.script), status)
    {
      var ok := bus.SetDisabled(disable);
      status := if ok then Model.Good else Model.EnableError;
    }

    method WriteBytes(bytes: seq<byte>) returns (status: Model.Status)
      requires Model.Fits(bytes)
      modifies this, bus
      ensures Did(Model.WriteBytes(old(View()), bytes, bus.script), status)
    {
      var ok := bus.Write(bytes);
      status := if ok then Model.Good else Model.BusError;
    }

    /** Auto-increment from PWM0; the whole frame goes out in one transaction. */
    method WriteFrame(frame: OutputFrame) returns (status: Model.Status)
      modifies this, bus
      ensures Did(Model.WriteFrame(old(View()), frame, bus.script), status)
    {
      var body := new byte[FRAME_LEN];
      FillFrame(frame, body);
      var bytes := new byte[FRAME_LEN + 1];
      bytes[0] := 0x82;
      forall i | 0 <= i < FRAME_LEN { bytes[i + 1] := body[i]; }
      assert bytes[..] == Model.FrameWrite(frame);
      status := WriteBytes(bytes[..]);
    }

    method ReadRegisters() returns (data: Option<Model.Regs>)
      modifies this, bus
      ensures var s := Model.ReadRegisters(old(View()), bus.script);
        View() == s.driver && data == s.data && bus.log == old(bus.log) + [Model.Read(s.data)]
    {
      var buffer := new byte[24];
      var ok := bus.WriteRead(buffer);
      if ok {
        data := Some(buffer[..]);
      } else {
        verifiedOn := None;
        data := None;
      }
    }

    method VerifyFrame(frame: OutputFrame) returns (status: Model.Status)
      modifies this, bus
      ensures Did(Model.VerifyFrame(old(View()), frame, bus.script), status)
    {
      var data := ReadRegisters();
      if data.None? {
        status := Model.BusError;
      } else if !Model.Matches(data.value, frame) {
        verifiedOn := None;
        status := Model.ReadbackMismatch;
      } else {
        status := Model.Good;
      }
    }

    /** After a failure: forget the verified frame and try to disable the output. */
    method Finish(result: Model.Status, ghost before: Model.Ran) returns (status: Model.Status)
      requires before.driver == View() && before.status == result
      modifies this, bus
      ensures var r := Model.Finish(before, bus.script);
        && View() == r.driver && status == r.status
        && old(bus.log) <= bus.log && before.events + bus.log[|old(bus.log)|..] == r.events
    {
      status := result;
      if result != Model.Good {
        verifiedOn := None;
        var off := SetDisabled(true);
        if off != Model.Good { status := off; }
      } else {
        assert bus.log[|old(bus.log)|..] == [];
      }
    }

    method ParkBody() returns (status: Model.Status)
      modifies this, bus
      ensures Did(Model.ParkBody(old(View()), bus.script), status)
    {
      hide Model.Overwrite, Model.Matches, Model.FrameWrite;
      status := WriteBytes([0x01, Model.MODE2]);
      if status != Model.Good { return; }
      status := WriteFrame(DEFAULT_FRAME);
      if status != Model.Good { return; }
      status := WriteBytes([0x00, 0x00]);
      if status != Model.Good { return; }
      bus.Delay(500);
      status := VerifyFrame(DEFAULT_FRAME);
    }

    method InitializeOff() returns (status: Model.Status)
      modifies this, bus
      ensures Did(Model.InitializeOff(old(View()), bus.script), status)
    {
      hide Model.ParkBody, Model.Finish;
      ghost var start := View();
      verifiedOn := None;
      status := SetDisabled(true);
      if status != Model.Good { return; }
      ghost var off := Model.SetDisabled(start.(verifiedOn := None), true, bus.script);
      label parking:
      status := ParkBody();
      ghost var body := Model.ParkBody(off.driver, bus.script);
      label finishing:
      status := Finish(status, body);
      assert bus.log == old@finishing(bus.log) + bus.log[|old@finishing(bus.log)|..];
      assert old@finishing(bus.log) == old@parking(bus.log) + body.events;
    }

    method WriteVerified(frame: OutputFrame) returns (status: Model.Status)
      modifies this, bus
      ensures Did(Model.WriteVerified(old(View()), frame, bus.script), status)
    {
      hide Model.WriteFrame, Model.VerifyFrame;
      status := WriteFrame(frame);
      if status == Model.Good { status := VerifyFrame(frame); }
    }

    method FullPath(frame: OutputFrame) returns (status: Model.Status)
      modifies this, bus
      ensures Did(Model.FullPath(old(View()), frame, bus.script), status)
    {
      hide Model.InitializeOff, Model.WriteVerified;
      status := InitializeOff();
      if status != Model.Good || !frame.state.on { return; }
      status := WriteVerified(frame);
      if status != Model.Good { return; }
      status := SetDisabled(false);
      if status != Model.Good { return; }
      verifiedOn := Some(frame);
    }

    method ApplyBody(frame: OutputFrame) returns (status: Model.Status)
      modifies this, bus
      ensures Did(Model.ApplyBody(old(View()), frame, bus.script), status)
    {
      hide Model.FullPath, Model.WriteVerified, Model.VerifyFrame, EncodeFrame;
      if frame.state.on && verifiedOn.Some? {
        var previous := verifiedOn.value;
        status := VerifyFrame(previous);
        if status == Model.Good {
          var shown := new byte[FRAME_LEN];
          FillFrame(previous, shown);
          var wanted := new byte[FRAME_LEN];
          FillFrame(frame, wanted);
          if shown[..] != wanted[..] {
            status := WriteVerified(frame);
            if status != Model.Good { return; }
          }
          verifiedOn := Some(frame);
          return;
        } else if status != Model.ReadbackMismatch {
          return;
        }
      }
      status := FullPath(frame);
    }

    method ApplyFrame(frame: OutputFrame) returns (status: Model.Status)
      modifies this, bus
      ensures Did(Model.ApplyFrame(old(View()), frame, bus.script), status)
    {
      hide Model.ApplyBody, Model.Finish;
      ghost var body := Model.ApplyBody(View(), frame, bus.script);
      status := ApplyBody(frame);
      label finishing:
      status := Finish(status, body);
      assert bus.log == old@finishing(bus.log) + bus.log[|old@finishing(bus.log)|..];
    }
  }
}
