/**
 * The driver object (`class UC8151`, UC8151.py:335-474): its configuration,
 * the fixed command sequences of its public operations, and the setup
 * sequence that programs the panel.  Every operation is a program of
 * statements; running it gives the trace of bus events, and the chip's
 * reading of that trace is stated against reference step lists written
 * with the raw opcodes the controller documents.
 */
module Controller {
  import opened Bits
  import opened Wrappers
  import opened Registers
  import opened Profiles
  import opened Transport
  import opened PartialWindow

  /** The driver's state: `update_speed` and `pixel_inverted`. */
  datatype Driver = Driver(updateSpeed: string, pixelInverted: bool)

  /** One statement of a driver method body. */
  datatype Stmt =
    | Send(reg: Reg, data: Payload)   // `self._command(reg, data)`
    | BusyWait                        // `self.busy_wait()`
    | PulseReset                      // reset low, then high (the 10 ms sleeps are not modelled)

  function Perform(s: Stmt): Run
  {
    match s
    case Send(reg, data) => Command(reg, data)
    case BusyWait => Run([WaitReady], None)
    case PulseReset => Run([ResetLow, ResetHigh], None)
  }

  /** A method body run statement by statement; an exception skips the rest. */
  function Exec(p: seq<Stmt>): Run
  {
    if |p| == 0 then Run([], None) else Perform(p[0]).Then(Exec(p[1..]))
  }

  /** A statement that cannot raise: every `_command` payload converts to bytes. */
  predicate Converts(s: Stmt)
  {
    s.Send? ==> Normalize(s.data).Success?
  }

  predicate AllConvert(p: seq<Stmt>)
  {
    forall i | 0 <= i < |p| :: Converts(p[i])
  }

  /** The step a statement that cannot raise puts on the wire. */
  function Lower(s: Stmt): Step
    requires Converts(s)
  {
    match s
    case BusyWait => Wait
    case PulseReset => Pulse
    case Send(reg, data) => Cmd(Opcode(reg), Normalize(data).value)
  }

  /**
   * The steps a program puts on the wire, as the chip sees them: one per
   * statement, up to the first statement whose payload does not convert.
   */
  function Reach(p: seq<Stmt>): (steps: seq<Step>)
    ensures |steps| <= |p|
  {
    if |p| == 0 then []
    else if !Converts(p[0]) then []
    else [Lower(p[0])] + Reach(p[1..])
  }

  /**
   * `Reach` stops exactly at the first statement that raises: every step
   * before it is that statement's own step, and all of the program is
   * reached iff nothing in it raises.
   */
  lemma {:induction false} ReachLowers(p: seq<Stmt>)
    ensures forall i | 0 <= i < |Reach(p)| :: Converts(p[i]) && Reach(p)[i] == Lower(p[i])
    ensures |Reach(p)| == |p| <==> AllConvert(p)
    ensures |Reach(p)| < |p| ==> !Converts(p[|Reach(p)|])
    decreases |p|
  {
    if |p| > 0 && Converts(p[0]) {
      ReachLowers(p[1..]);
      var r := Reach(p);
      assert r == [Lower(p[0])] + Reach(p[1..]);
      forall i | 0 <= i < |r| ensures Converts(p[i]) && r[i] == Lower(p[i]) {
        if i > 0 {
          assert p[i] == p[1..][i - 1];
          assert r[i] == Reach(p[1..])[i - 1];
        }
      }
      if AllConvert(p[1..]) {
        forall i | 0 <= i < |p| ensures Converts(p[i]) {
          if i > 0 { assert p[i] == p[1..][i - 1]; }
        }
      }
      if AllConvert(p) {
        forall i | 0 <= i < |p[1..]| ensures Converts(p[1..][i]) {
          assert p[1..][i] == p[i + 1];
        }
      }
      if |r| < |p| {
        assert p[|r|] == p[1..][|Reach(p[1..])|];
      }
    }
  }

  /**
   * Running a program produces exactly the encoding of the steps it
   * reaches; it raises iff some payload does not convert, and then always
   * with the `bytes()` ValueError.
   */
  lemma {:induction false} ExecReach(p: seq<Stmt>)
    ensures Yields(Exec(p), Reach(p))
    ensures Exec(p).fault.None? <==> |Reach(p)| == |p|
    ensures Exec(p).fault.Some? ==> Exec(p).fault == Some(ByteOutOfRange)
    decreases |p|
  {
    if |p| > 0 {
      ExecReach(p[1..]);
      var head := Perform(p[0]);
      var tail := Exec(p[1..]);
      assert Exec(p) == head.Then(tail);
      if Converts(p[0]) {
        var s := Lower(p[0]);
        assert Reach(p) == [s] + Reach(p[1..]);
        assert Encode([s]) == Transaction(s) + Encode([]);
        assert Yields(head, [s]) && head.fault.None?;
        ThenYields(head, tail, [s], Reach(p[1..]));
      } else {
        assert head == Run([], Some(ByteOutOfRange));
      }
    }
  }

  /** The chip reads back exactly the steps a program reaches. */
  lemma ExecDecodes(p: seq<Stmt>)
    ensures Decode(Exec(p).events) == Some(Reach(p))
  {
    ExecReach(p);
    DecodeEncode(Reach(p));
  }

  /** Every driver trace keeps the chip-select discipline of the bus. */
  lemma ExecDisciplined(p: seq<Stmt>)
    ensures Disciplined(Exec(p).events, false)
  {
    ExecReach(p);
    EncodeDisciplined(Reach(p));
  }

  /** Reaching through a prefix that cannot raise. */
  lemma {:induction false} ReachAppend(a: seq<Stmt>, b: seq<Stmt>)
    requires |Reach(a)| == |a|
    ensures Reach(a + b) == Reach(a) + Reach(b)
    decreases |a|
  {
    if |a| == 0 {
      assert a + b == b;
    } else {
      var s, t := a[0], a[1..];
      assert a == [s] + t;
      assert a + b == [s] + (t + b);
      ReachCons(s, t);
      ReachCons(s, t + b);
      ReachAppend(t, b);
    }
  }

  /** One statement at the front: its step, or nothing if it raises. */
  lemma ReachCons(s: Stmt, rest: seq<Stmt>)
    ensures Converts(s) ==> Reach([s] + rest) == [Lower(s)] + Reach(rest)
    ensures !Converts(s) ==> Reach([s] + rest) == []
  {
    assert ([s] + rest)[0] == s;
    assert ([s] + rest)[1..] == rest;
  }

  /** Four statements that cannot raise reach their four steps. */
  lemma Reach4(a: Stmt, b: Stmt, c: Stmt, d: Stmt, steps: seq<Step>)
    requires Converts(a) && Converts(b) && Converts(c) && Converts(d) && |steps| == 4
    requires Lower(a) == steps[0] && Lower(b) == steps[1] && Lower(c) == steps[2] && Lower(d) == steps[3]
    ensures Reach([a, b, c, d]) == steps
  {
    ReachCons(d, []);
    assert [d] + [] == [d];
    ReachCons(c, [d]);
    assert [c] + [d] == [c, d];
    ReachCons(b, [c, d]);
    assert [b] + [c, d] == [b, c, d];
    ReachCons(a, [b, c, d]);
    assert [a] + [b, c, d] == [a, b, c, d];
    assert steps == [steps[0], steps[1], steps[2], steps[3]];
  }

  /** Six statements that cannot raise reach their six steps. */
  lemma Reach6(a: Stmt, b: Stmt, c: Stmt, d: Stmt, e: Stmt, f: Stmt, steps: seq<Step>)
    requires Converts(a) && Converts(b) && Converts(c) && Converts(d) && Converts(e) && Converts(f)
    requires |steps| == 6
    requires Lower(a) == steps[0] && Lower(b) == steps[1] && Lower(c) == steps[2]
    requires Lower(d) == steps[3] && Lower(e) == steps[4] && Lower(f) == steps[5]
    ensures Reach([a, b, c, d, e, f]) == steps
  {
    Reach4(c, d, e, f, steps[2..]);
    ReachCons(b, [c, d, e, f]);
    assert [b] + [c, d, e, f] == [b, c, d, e, f];
    ReachCons(a, [b, c, d, e, f]);
    assert [a] + [b, c, d, e, f] == [a, b, c, d, e, f];
    assert steps == [steps[0], steps[1]] + steps[2..];
  }

  // ---------------------------------------------------------------------
  // Status, reset and power
  // ---------------------------------------------------------------------

  /** `is_busy`: the busy line is active low. */
  function IsBusy(busyPin: bool): bool
  {
    !busyPin
  }

  /**
   * `busy_wait` over a sequence of samples of the busy line (`true` when the
   * pin reads high): it polls until the first sample that reads ready and
   * returns how many polls it took.  The contract is stated on the raw pin
   * levels, so it also fixes the polarity of `is_busy`: a high pin is ready.
   */
  method SpinUntilReady(samples: seq<bool>) returns (polls: nat)
    requires exists i :: 0 <= i < |samples| && samples[i]
    ensures polls < |samples| && samples[polls]
    ensures forall i :: 0 <= i < polls ==> !samples[i]
  {
    polls := 0;
    while IsBusy(samples[polls])
      invariant 0 <= polls < |samples|
      invariant forall i :: 0 <= i < polls ==> IsBusy(samples[i])
      invariant exists i :: polls <= i < |samples| && !IsBusy(samples[i])
      decreases |samples| - polls
    {
      polls := polls + 1;
    }
  }

  const ResetProgram: seq<Stmt> := [PulseReset, BusyWait]

  const PowerOffProgram: seq<Stmt> := [BusyWait, Send(POF, NoData)]

  lemma ResetReach()
    ensures Reach(ResetProgram) == [Pulse, Wait]
  {
    ReachCons(PulseReset, [BusyWait]);
    ReachCons(BusyWait, []);
    assert [BusyWait] + [] == [BusyWait];
    assert ResetProgram == [PulseReset] + [BusyWait];
  }

  lemma PowerOffReach()
    ensures Reach(PowerOffProgram) == [Wait, Cmd(0x02, [])]
  {
    ReachCons(BusyWait, [Send(POF, NoData)]);
    ReachCons(Send(POF, NoData), []);
    assert [Send(POF, NoData)] + [] == [Send(POF, NoData)];
    assert PowerOffProgram == [BusyWait] + [Send(POF, NoData)];
  }

  /** `reset`: a reset pulse, then wait until the panel is ready. */
  function Reset(): (r: Run)
    ensures r.fault.None? && Decode(r.events) == Some([Pulse, Wait])
  {
    ResetReach();
    ExecDecodes(ResetProgram);
    ExecReach(ResetProgram);
    Exec(ResetProgram)
  }

  /** `power_off`: wait until ready, then the power-off command with no data. */
  function PowerOff(): (r: Run)
    ensures r.fault.None? && Decode(r.events) == Some([Wait, Cmd(0x02, [])])
  {
    PowerOffReach();
    ExecDecodes(PowerOffProgram);
    ExecReach(PowerOffProgram);
    Exec(PowerOffProgram)
  }

  // ---------------------------------------------------------------------
  // Refresh
  // ---------------------------------------------------------------------

  /** Wait for the panel, power it on, and select full or partial mode. */
  function RefreshHead(mode: Reg): seq<Stmt>
  {
    [BusyWait, Send(PON, NoData), Send(mode, NoData)]
  }

  /** Stop the transmission, refresh, and power off when blocking. */
  function RefreshTail(blocking: bool): seq<Stmt>
  {
    [Send(DSP, NoData), Send(DRF, NoData)] + (if blocking then PowerOffProgram else [])
  }

  function UpdateProgram(graphics: Payload, blocking: bool): seq<Stmt>
  {
    RefreshHead(PTOU) + ([Send(DTM2, graphics)] + RefreshTail(blocking))
  }

  function PartialUpdateProgram(graphics: Payload, region: Region, blocking: bool): seq<Stmt>
  {
    RefreshHead(PTIN) + ([Send(PTL, Items(Descriptor(region)))] + ([Send(DTM2, graphics)] + RefreshTail(blocking)))
  }

  /** Stop (0x11) and refresh (0x12), then a wait and power off (0x02) when blocking. */
  function TailSteps(blocking: bool): seq<Step>
  {
    [Cmd(0x11, []), Cmd(0x12, [])] + (if blocking then [Wait, Cmd(0x02, [])] else [])
  }

  /**
   * A full refresh as the controller sees it: wait, power on (0x04), leave
   * partial mode (0x92), the frame (0x13), and the tail.
   */
  function UpdateSteps(frame: seq<byte>, blocking: bool): seq<Step>
  {
    [Wait, Cmd(0x04, []), Cmd(0x92, [])] + ([Cmd(0x13, frame)] + TailSteps(blocking))
  }

  /** A partial refresh: partial mode on (0x91) and the window (0x90) in place of 0x92. */
  function PartialSteps(window: seq<byte>, frame: seq<byte>, blocking: bool): seq<Step>
  {
    [Wait, Cmd(0x04, []), Cmd(0x91, [])] + ([Cmd(0x90, window)] + ([Cmd(0x13, frame)] + TailSteps(blocking)))
  }

  /**
   * `update(graphics, blocking)`.  A frame that converts is sent verbatim
   * and the whole sequence runs; a frame that does not raises in the frame
   * command, after power-on and leaving partial mode.
   */
  function Update(graphics: Payload, blocking: bool): (r: Run)
    ensures r.fault.None? <==> Normalize(graphics).Success?
    ensures r.fault.None? ==>
      Decode(r.events) == Some(UpdateSteps(Normalize(graphics).value, blocking))
    ensures graphics.Buffer? ==> Decode(r.events) == Some(UpdateSteps(graphics.bs, blocking))
    ensures r.fault.Some? ==>
      r.fault == Some(ByteOutOfRange) && Decode(r.events) == Some([Wait, Cmd(0x04, []), Cmd(0x92, [])])
  {
    var p := UpdateProgram(graphics, blocking);
    ExecReach(p);
    ExecDecodes(p);
    UpdateReach(graphics, blocking);
    Exec(p)
  }

  /**
   * `partial_update(graphics, region, blocking)`: as `update`, but partial
   * mode is entered and the window descriptor of the region is sent before
   * the frame.  The descriptor always converts, so only the frame can
   * raise, after the window has been sent.
   */
  function PartialUpdate(graphics: Payload, region: Region, blocking: bool): (r: Run)
    ensures r.fault.None? <==> Normalize(graphics).Success?
    ensures r.fault.None? ==>
      Decode(r.events) == Some(PartialSteps(Descriptor(region), Normalize(graphics).value, blocking))
    ensures r.fault.Some? ==>
      && r.fault == Some(ByteOutOfRange)
      && Decode(r.events) == Some([Wait, Cmd(0x04, []), Cmd(0x91, []), Cmd(0x90, Descriptor(region))])
  {
    var p := PartialUpdateProgram(graphics, region, blocking);
    ExecReach(p);
    ExecDecodes(p);
    PartialUpdateReach(graphics, region, blocking);
    Exec(p)
  }

  lemma RefreshHeadReach(mode: Reg)
    ensures Reach(RefreshHead(mode)) == [Wait, Cmd(0x04, []), Cmd(Opcode(mode), [])]
  {
    ReachCons(BusyWait, [Send(PON, NoData), Send(mode, NoData)]);
    ReachCons(Send(PON, NoData), [Send(mode, NoData)]);
    ReachCons(Send(mode, NoData), []);
    assert RefreshHead(mode) == [BusyWait] + ([Send(PON, NoData)] + ([Send(mode, NoData)] + []));
  }

  lemma RefreshTailReach(blocking: bool)
    ensures Reach(RefreshTail(blocking)) == TailSteps(blocking)
  {
    var off := if blocking then PowerOffProgram else [];
    ReachCons(Send(DSP, NoData), [Send(DRF, NoData)] + off);
    ReachCons(Send(DRF, NoData), off);
    assert RefreshTail(blocking) == [Send(DSP, NoData)] + ([Send(DRF, NoData)] + off);
    if blocking { PowerOffReach(); }
  }

  /** The frame command and the refresh tail: everything, or nothing if the frame raises. */
  lemma FrameReach(graphics: Payload, blocking: bool)
    ensures Normalize(graphics).Success? ==>
      Reach([Send(DTM2, graphics)] + RefreshTail(blocking)) ==
      [Cmd(0x13, Normalize(graphics).value)] + TailSteps(blocking)
    ensures Normalize(graphics).Failure? ==> Reach([Send(DTM2, graphics)] + RefreshTail(blocking)) == []
  {
    ReachCons(Send(DTM2, graphics), RefreshTail(blocking));
    RefreshTailReach(blocking);
  }

  lemma UpdateReach(graphics: Payload, blocking: bool)
    ensures Normalize(graphics).Success? ==>
      Reach(UpdateProgram(graphics, blocking)) == UpdateSteps(Normalize(graphics).value, blocking)
    ensures Normalize(graphics).Failure? ==>
      Reach(UpdateProgram(graphics, blocking)) == [Wait, Cmd(0x04, []), Cmd(0x92, [])]
  {
    var head: seq<Step> := [Wait, Cmd(0x04, []), Cmd(0x92, [])];
    assert Reach(RefreshHead(PTOU)) == head by { RefreshHeadReach(PTOU); }
    ReachAppend(RefreshHead(PTOU), [Send(DTM2, graphics)] + RefreshTail(blocking));
    FrameReach(graphics, blocking);
    assert head + [] == head;
  }

  /** The window command always converts, so it is always sent. */
  lemma WindowReach(region: Region, rest: seq<Stmt>)
    ensures Reach([Send(PTL, Items(Descriptor(region)))] + rest) == [Cmd(0x90, Descriptor(region))] + Reach(rest)
  {
    assert Normalize(Items(Descriptor(region))) == Success(Descriptor(region));
    ReachCons(Send(PTL, Items(Descriptor(region))), rest);
  }

  lemma PartialUpdateReach(graphics: Payload, region: Region, blocking: bool)
    ensures Normalize(graphics).Success? ==>
      Reach(PartialUpdateProgram(graphics, region, blocking))
      == PartialSteps(Descriptor(region), Normalize(graphics).value, blocking)
    ensures Normalize(graphics).Failure? ==>
      Reach(PartialUpdateProgram(graphics, region, blocking))
      == [Wait, Cmd(0x04, []), Cmd(0x91, []), Cmd(0x90, Descriptor(region))]
  {
    var head: seq<Step> := [Wait, Cmd(0x04, []), Cmd(0x91, [])];
    var window := [Cmd(0x90, Descriptor(region))];
    var rest := [Send(DTM2, graphics)] + RefreshTail(blocking);
    assert Reach(RefreshHead(PTIN)) == head by { RefreshHeadReach(PTIN); }
    ReachAppend(RefreshHead(PTIN), [Send(PTL, Items(Descriptor(region)))] + rest);
    WindowReach(region, rest);
    FrameReach(graphics, blocking);
    assert window + [] == window;
    assert head + window == [Wait, Cmd(0x04, []), Cmd(0x91, []), Cmd(0x90, Descriptor(region))];
  }

  /** The two refreshes differ only in the mode command and the window. */
  lemma PartialDiffersInMode(window: seq<byte>, frame: seq<byte>, blocking: bool)
    ensures PartialSteps(window, frame, blocking) ==
      UpdateSteps(frame, blocking)[..2] + [Cmd(0x91, []), Cmd(0x90, window)]
      + UpdateSteps(frame, blocking)[3..]
    ensures UpdateSteps(frame, blocking)[2] == Cmd(0x92, [])
  {
    var u := UpdateSteps(frame, blocking);
    var t := [Cmd(0x13, frame)] + TailSteps(blocking);
    assert u[3..] == t;
    assert u[..2] == [Wait, Cmd(0x04, [])];
  }

  /** Only a blocking refresh ends by powering the panel off. */
  lemma RefreshPowerOff(window: seq<byte>, frame: seq<byte>, blocking: bool)
    ensures var u := UpdateSteps(frame, blocking);
      u[|u| - 1] == Cmd(0x02, []) <==> blocking
    ensures var q := PartialSteps(window, frame, blocking);
      q[|q| - 1] == Cmd(0x02, []) <==> blocking
  {
    var t := TailSteps(blocking);
    assert t[|t| - 1] == Cmd(0x02, []) <==> blocking;
  }

  // ---------------------------------------------------------------------
  // Setup
  // ---------------------------------------------------------------------

  /**
   * The panel-setting byte of `_setup`, summed from flags exactly as the
   * driver does: 128x296, black/white, booster on, no soft reset, the OTP
   * lookup tables for the default profile and the register tables for any
   * other name, shift left, scan up.
   */
  function PsrSetting(speed: string): (psr: byte)
    ensures psr == (if speed == "default" then 0x9B else 0xBB)
    ensures (psr / 0x20) % 2 == 1 <==> speed != "default"
  {
    var base := PsrRes128x296 + PsrFormatBw + PsrBoosterOn + PsrResetNone;
    var withLut := base + (if speed == "default" then PsrLutOtp else PsrLutReg);
    withLut + (PsrShiftLeft + PsrScanUp)
  }

  /** The flags occupy disjoint bits, so summing them is the same as or-ing them. */
  lemma PsrFlagsDisjoint(speed: string)
    ensures PsrSetting(speed) == Or(Or(Or(Or(Or(Or(PsrRes128x296, PsrFormatBw), PsrBoosterOn),
      PsrResetNone), if speed == "default" then PsrLutOtp else PsrLutReg), PsrShiftLeft), PsrScanUp)
  {
    var base := Or(Or(Or(PsrRes128x296, PsrFormatBw), PsrBoosterOn), PsrResetNone);
    PsrBaseBits();
    var lut := if speed == "default" then PsrLutOtp else PsrLutReg;
    PsrLutBit(lut);
    PsrScanBits(Or(base, lut));
  }

  lemma PsrBaseBits()
    ensures Or(Or(Or(PsrRes128x296, PsrFormatBw), PsrBoosterOn), PsrResetNone) == 0x93
  {
    var a: int := PsrRes128x296;
    assert Pow2(4) == 16 && Pow2(1) == 2 && Pow2(0) == 1;
    OrBit(a, 4);
    OrBit(a + 16, 1);
    OrBit(a + 18, 0);
  }

  lemma PsrLutBit(lut: byte)
    requires lut == PsrLutOtp || lut == PsrLutReg
    ensures Or(0x93, lut) == 0x93 + lut
  {
    var a: int := 0x93;
    if lut == PsrLutReg {
      assert Pow2(5) == 32;
      OrBit(a, 5);
    }
  }

  lemma PsrScanBits(a: int)
    requires a == 0x93 || a == 0xB3
    ensures Or(Or(a, PsrShiftLeft), PsrScanUp) == a + 8
  {
    assert Pow2(3) == 8;
    OrBit(a, 3);
  }

  /** The entries of one waveform, in the table's insertion order. */
  function TableProgram(w: Waveform): seq<Stmt>
  {
    [Send(LUT_VCOM, Buffer(w.vcom)), Send(LUT_WW, Buffer(w.ww)), Send(LUT_BW, Buffer(w.bw)),
     Send(LUT_WB, Buffer(w.wb)), Send(LUT_BB, Buffer(w.bb)), Send(PLL, Scalar(w.pll))]
  }

  /** `for reg, data in LUTS.get(update_speed, {}).items()`: nothing for an unknown name. */
  function LutProgram(speed: string): seq<Stmt>
  {
    match Waveforms(speed)
    case None => []
    case Some(w) => TableProgram(w)
  }

  /** Power settings, power on and wait, booster soft start. */
  const PowerUpProgram: seq<Stmt> := [
    Send(PWR, Items([PwrVdsInternal + PwrVdgInternal, PwrVcomVd + PwrVghl16V, 0x2B, 0x2B, 0x2B])),
    Send(PON, NoData),
    BusyWait,
    Send(BTST, Items([BoosterStart10ms + BoosterStrength3 + BoosterOff6_58us,
                      BoosterStart10ms + BoosterStrength3 + BoosterOff6_58us,
                      BoosterStart10ms + BoosterStrength3 + BoosterOff6_58us]))]

  /** Power-off sequence, temperature sensor, timing, VCOM and data interval. */
  function TuneProgram(pixelInverted: bool): seq<Stmt>
  {
    [Send(PFS, Scalar(PfsFrames1)),
     Send(TSE, Scalar(TseTempInternal + TseOffset0)),
     Send(TCON, Scalar(0x22)),
     Send(CDI, Scalar(if pixelInverted then 0x9C else 0x4C))]
  }

  function SetupProgram(d: Driver): seq<Stmt>
  {
    ResetProgram
    + ([Send(PSR, Scalar(PsrSetting(d.updateSpeed)))]
    + (LutProgram(d.updateSpeed)
    + (PowerUpProgram
    + (TuneProgram(d.pixelInverted)
    + PowerOffProgram))))
  }

  /**
   * The lookup tables of one waveform as the controller receives them:
   * VCOM (0x20), the four transition tables (0x21-0x24) and the frame rate
   * (0x30).
   */
  function TableSteps(w: Waveform): seq<Step>
  {
    [Cmd(0x20, w.vcom), Cmd(0x21, w.ww), Cmd(0x22, w.bw), Cmd(0x23, w.wb), Cmd(0x24, w.bb),
     Cmd(0x30, [w.pll])]
  }

  /** The tables of a profile, or none for a name the table does not know. */
  function LutSteps(speed: string): seq<Step>
  {
    match Waveforms(speed)
    case None => []
    case Some(w) => TableSteps(w)
  }

  /** Power setting (0x01), power on (0x04) and wait, booster soft start (0x06). */
  const PowerUpSteps: seq<Step> :=
    [Cmd(0x01, [0x03, 0x00, 0x2B, 0x2B, 0x2B]), Cmd(0x04, []), Wait, Cmd(0x06, [0x17, 0x17, 0x17])]

  /** Power-off sequence (0x03), temperature sensor (0x41), TCON (0x60), VCOM and data interval (0x50). */
  function TuneSteps(pixelInverted: bool): seq<Step>
  {
    [Cmd(0x03, [0x00]), Cmd(0x41, [0x00]), Cmd(0x60, [0x22]), Cmd(0x50, [if pixelInverted then 0x9C else 0x4C])]
  }

  /**
   * The setup sequence as the controller sees it: reset and wait, panel
   * setting (0x00), the profile's tables, power-up, tuning, and a wait and
   * power off (0x02).
   */
  function SetupSteps(speed: string, pixelInverted: bool): seq<Step>
  {
    [Pulse, Wait]
    + ([Cmd(0x00, [if speed == "default" then 0x9B else 0xBB])]
    + (LutSteps(speed)
    + (PowerUpSteps
    + (TuneSteps(pixelInverted)
    + [Wait, Cmd(0x02, [])]))))
  }

  lemma TableReach(w: Waveform)
    ensures Reach(TableProgram(w)) == TableSteps(w)
  {
    var p := TableProgram(w);
    Reach6(p[0], p[1], p[2], p[3], p[4], p[5], TableSteps(w));
  }

  lemma LutReach(speed: string)
    ensures Reach(LutProgram(speed)) == LutSteps(speed)
  {
    match Waveforms(speed)
    case None =>
    case Some(w) => TableReach(w);
  }

  lemma PowerUpReach()
    ensures Reach(PowerUpProgram) == PowerUpSteps
  {
    var p := PowerUpProgram;
    assert Normalize(p[0].data) == Success([0x03, 0x00, 0x2B, 0x2B, 0x2B]);
    assert Normalize(p[3].data) == Success([0x17, 0x17, 0x17]);
    Reach4(p[0], p[1], p[2], p[3], PowerUpSteps);
  }

  lemma TuneReach(pixelInverted: bool)
    ensures Reach(TuneProgram(pixelInverted)) == TuneSteps(pixelInverted)
  {
    var p := TuneProgram(pixelInverted);
    TuneLowers(pixelInverted);
    Reach4(p[0], p[1], p[2], p[3], TuneSteps(pixelInverted));
  }

  lemma TuneLowers(pixelInverted: bool)
    ensures forall i | 0 <= i < 4 ::
      Converts(TuneProgram(pixelInverted)[i]) && Lower(TuneProgram(pixelInverted)[i]) == TuneSteps(pixelInverted)[i]
  {
    var p, s := TuneProgram(pixelInverted), TuneSteps(pixelInverted);
    assert Converts(p[0]) && Lower(p[0]) == s[0];
    assert Converts(p[1]) && Lower(p[1]) == s[1];
    assert Converts(p[2]) && Lower(p[2]) == s[2];
    assert Converts(p[3]) && Lower(p[3]) == s[3];
  }

  lemma SetupReach(d: Driver)
    ensures Reach(SetupProgram(d)) == SetupSteps(d.updateSpeed, d.pixelInverted)
    ensures |Reach(SetupProgram(d))| == |SetupProgram(d)|
  {
    var speed := d.updateSpeed;
    var psr := Send(PSR, Scalar(PsrSetting(speed)));
    var p4 := TuneProgram(d.pixelInverted) + PowerOffProgram;
    var p3 := PowerUpProgram + p4;
    var p2 := LutProgram(speed) + p3;
    ResetReach();
    PowerOffReach();
    PowerUpReach();
    TuneReach(d.pixelInverted);
    LutReach(speed);
    ReachCons(psr, p2);
    ReachAppend(TuneProgram(d.pixelInverted), PowerOffProgram);
    ReachAppend(PowerUpProgram, p4);
    ReachAppend(LutProgram(speed), p3);
    ReachAppend(ResetProgram, [psr] + p2);
  }

  /**
   * `_setup`: reset, panel setting, the profile's lookup tables, power-up,
   * tuning and power off.  Every payload of the sequence converts, so setup
   * never raises, whatever the speed name.
   */
  function Setup(d: Driver): (r: Run)
    ensures r.fault.None?
    ensures Decode(r.events) == Some(SetupSteps(d.updateSpeed, d.pixelInverted))
    ensures Disciplined(r.events, false)
  {
    var p := SetupProgram(d);
    SetupReach(d);
    ExecReach(p);
    ExecDecodes(p);
    ExecDisciplined(p);
    Exec(p)
  }

  /**
   * `UC8151(spi)`: the default profile with inverted pixels; chip select and
   * reset are driven high (inactive), then setup runs.
   */
  function Construct(): (r: (Driver, Run))
    ensures r.0 == Driver("default", true)
    ensures r.1.fault.None?
    ensures |r.1.events| >= 2 && r.1.events[..2] == [CsHigh, ResetHigh]
    ensures Decode(r.1.events[2..]) == Some(SetupSteps("default", true))
  {
    var d := Driver("default", true);
    var s := Setup(d);
    var pins := Run([CsHigh, ResetHigh], None);
    DropFront(pins.events, s.events);
    (d, pins.Then(s))
  }

  lemma DropFront(a: seq<Event>, b: seq<Event>)
    ensures (a + b)[|a|..] == b
  {
  }

  /** `set_update_speed`: store the name, whatever it is, and run setup again. */
  function SetUpdateSpeed(d: Driver, speed: string): (r: (Driver, Run))
    ensures r.0.updateSpeed == speed && r.0.pixelInverted == d.pixelInverted
    ensures r.1.fault.None?
    ensures Decode(r.1.events) == Some(SetupSteps(speed, d.pixelInverted))
  {
    var next := d.(updateSpeed := speed);
    (next, Setup(next))
  }

  /** `get_update_speed`: storing the name it returns leaves the driver as it was. */
  function GetUpdateSpeed(d: Driver): (speed: string)
    ensures SetUpdateSpeed(d, speed).0 == d
  {
    d.updateSpeed
  }

  /**
   * `get_update_time`: the nominal refresh duration of the current profile;
   * the default profile's 4500 ms for it and for any unknown name.
   */
  function GetUpdateTime(d: Driver): (ms: nat)
    ensures ms in {4500, 2000, 800, 250}
    ensures ms == 4500 <==> d.updateSpeed == "default" || d.updateSpeed !in KnownSpeeds
  {
    UpdateTime(d.updateSpeed)
  }

  /** The speed reads back as set, and so does its duration; the pixel setting is kept. */
  lemma SpeedRoundTrip(d: Driver, speed: string)
    ensures GetUpdateSpeed(SetUpdateSpeed(d, speed).0) == speed
    ensures GetUpdateTime(SetUpdateSpeed(d, speed).0) == UpdateTime(speed)
    ensures SetUpdateSpeed(d, speed).0.pixelInverted == d.pixelInverted
    ensures SetUpdateSpeed(SetUpdateSpeed(d, speed).0, GetUpdateSpeed(d)).0 == d
  {
  }

  // ---------------------------------------------------------------------
  // Lookup tables and the panel setting
  // ---------------------------------------------------------------------

  /** A step that writes a lookup table or the frame rate: opcodes 0x20-0x24 and 0x30. */
  predicate IsTableWrite(s: Step)
  {
    s.Cmd? && (0x20 <= s.op <= 0x24 || s.op == 0x30)
  }

  predicate WritesTables(steps: seq<Step>)
  {
    exists i | 0 <= i < |steps| :: IsTableWrite(steps[i])
  }

  lemma WritesTablesAppend(a: seq<Step>, b: seq<Step>)
    ensures WritesTables(a + b) <==> WritesTables(a) || WritesTables(b)
  {
    if WritesTables(a + b) {
      var i :| 0 <= i < |a + b| && IsTableWrite((a + b)[i]);
      if i >= |a| {
        assert b[i - |a|] == (a + b)[i];
      }
    }
    if WritesTables(b) {
      var i :| 0 <= i < |b| && IsTableWrite(b[i]);
      assert (a + b)[|a| + i] == b[i];
    }
    if WritesTables(a) {
      var i :| 0 <= i < |a| && IsTableWrite(a[i]);
      assert (a + b)[i] == a[i];
    }
  }

  /** The steps around the tables write none. */
  lemma FixedStepsWriteNoTables(speed: string, pixelInverted: bool)
    ensures !WritesTables([Pulse, Wait])
    ensures !WritesTables([Cmd(0x00, [if speed == "default" then 0x9B else 0xBB])])
    ensures !WritesTables(PowerUpSteps)
    ensures !WritesTables(TuneSteps(pixelInverted))
    ensures !WritesTables([Wait, Cmd(0x02, [])])
  {
  }

  /**
   * For a known profile the tables go out in the table's order: VCOM (44
   * bytes), the four transition tables (42 bytes each, white-to-white equal
   * to black-to-white and white-to-black equal to black-to-black), and the
   * 100 Hz frame rate.
   */
  lemma KnownSpeedTables(speed: string)
    requires speed in KnownSpeeds
    ensures |LutSteps(speed)| == 6
    ensures forall i | 0 <= i < 5 :: LutSteps(speed)[i].Cmd? && LutSteps(speed)[i].op == 0x20 + i
    ensures |LutSteps(speed)[0].data| == 44
    ensures forall i | 1 <= i < 5 :: |LutSteps(speed)[i].data| == 42
    ensures LutSteps(speed)[1].data == LutSteps(speed)[2].data
    ensures LutSteps(speed)[3].data == LutSteps(speed)[4].data
    ensures LutSteps(speed)[5] == Cmd(0x30, [0x3A])
  {
  }

  /** Setup writes lookup tables iff the speed name is one the table knows. */
  lemma SetupWritesTablesIffKnown(speed: string, pixelInverted: bool)
    ensures WritesTables(SetupSteps(speed, pixelInverted)) <==> speed in KnownSpeeds
  {
    var lut := LutSteps(speed);
    var p := PowerUpSteps;
    var t := TuneSteps(pixelInverted);
    var o: seq<Step> := [Wait, Cmd(0x02, [])];
    var psr: seq<Step> := [Cmd(0x00, [if speed == "default" then 0x9B else 0xBB])];
    FixedStepsWriteNoTables(speed, pixelInverted);
    WritesTablesAppend(t, o);
    WritesTablesAppend(p, t + o);
    WritesTablesAppend(lut, p + (t + o));
    WritesTablesAppend(psr, lut + (p + (t + o)));
    WritesTablesAppend([Pulse, Wait], psr + (lut + (p + (t + o))));
    if speed in KnownSpeeds {
      assert IsTableWrite(lut[0]);
    }
  }

  /**
   * The panel setting and the tables disagree for an unknown name: bit 5
   * (register tables) is set, yet no table is written, so the panel
   * refreshes with whatever its table registers hold.
   */
  lemma UnknownSpeedQuirk(speed: string, pixelInverted: bool)
    requires speed !in KnownSpeeds
    ensures (PsrSetting(speed) / 0x20) % 2 == 1
    ensures SetupSteps(speed, pixelInverted)[2] == Cmd(0x00, [PsrSetting(speed)])
    ensures !WritesTables(SetupSteps(speed, pixelInverted))
  {
    SetupWritesTablesIffKnown(speed, pixelInverted);
  }
}
