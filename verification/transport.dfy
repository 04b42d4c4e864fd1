/**
 * The bus protocol of the driver (`_command`, `_read`, `_data`,
 * UC8151.py:477-514).  A call is observed as the pin transitions and SPI
 * transfers it performs, in order: a trace of `Event`s.  The chip groups
 * those events back into `Step`s; `Decode` is that chip-side reading and
 * `Encode` the wire format the driver produces, and the two are inverse.
 */
module Transport {
  import opened Bits
  import opened Wrappers
  import opened Registers

  /** One observable action on the control lines or the SPI bus. */
  datatype Event =
    | CsLow | CsHigh         // chip select (active low)
    | DcLow | DcHigh         // command (low) / data (high) select
    | Write(bytes: seq<byte>) // one `spi.write`
    | Read(count: nat)       // one `spi.read`; the bytes come from the device
    | ResetLow | ResetHigh   // reset line
    | WaitReady              // `busy_wait`: returns once the busy line reads ready

  /** What the chip sees: one chip-select-bounded transaction or one synchronisation step. */
  datatype Step =
    | Cmd(op: byte, data: seq<byte>)   // opcode, then data only if non-empty
    | Query(op: byte, count: nat)      // opcode, then `count` bytes read back
    | Raw(data: seq<byte>)             // data phase without an opcode
    | Pulse                            // reset pulse
    | Wait                             // wait until not busy

  /**
   * The shapes a payload argument takes in the driver: `None`, an `int`, a
   * list or tuple of ints, or an object that already is a byte buffer
   * (`bytes`/`bytearray`, e.g. the frame buffer).
   */
  datatype Payload = NoData | Scalar(v: int) | Items(xs: seq<int>) | Buffer(bs: seq<byte>)

  /** Exceptions a call can raise. */
  datatype Fault =
    | ByteOutOfRange   // `bytes(...)` of an int outside 0..255 (ValueError)
    | NotABuffer       // `spi.write(None)`

  /** A trace together with the exception that ended it, if any. */
  datatype Run = Run(events: seq<Event>, fault: Option<Fault>) {
    /** Python statement sequencing: a raised exception skips everything after it. */
    function Then(next: Run): Run
    {
      if fault.Some? then this else Run(events + next.events, next.fault)
    }
  }

  /** The wire format of one step. */
  function Transaction(s: Step): seq<Event>
  {
    match s
    case Cmd(op, data) =>
      [CsLow, DcLow, Write([op])] + (if |data| > 0 then [DcHigh, Write(data)] else []) + [CsHigh]
    case Query(op, n) => [CsLow, DcLow, Write([op]), DcHigh, Read(n), CsHigh]
    case Raw(data) => [CsLow, DcHigh, Write(data), CsHigh]
    case Pulse => [ResetLow, ResetHigh]
    case Wait => [WaitReady]
  }

  function Encode(steps: seq<Step>): seq<Event>
  {
    if |steps| == 0 then [] else Transaction(steps[0]) + Encode(steps[1..])
  }

  /** The chip reading the opcode of a command phase: a one-byte write. */
  predicate IsOpcodeWrite(e: Event)
  {
    e.Write? && |e.bytes| == 1
  }

  /**
   * The chip parsing the step at the front of a trace, and how many events
   * it spans; nothing when the front is not a well-formed step.
   */
  function Next(es: seq<Event>): (r: Option<(Step, nat)>)
    requires |es| > 0
    ensures r.Some? ==> 1 <= r.value.1 <= |es| && es[..r.value.1] == Transaction(r.value.0)
  {
    match es[0]
    case WaitReady => Some((Wait, 1))
    case ResetLow => if |es| >= 2 && es[1] == ResetHigh then Some((Pulse, 2)) else None
    case CsLow =>
      if |es| >= 4 && es[1] == DcLow && IsOpcodeWrite(es[2]) && es[3] == CsHigh then
        var op := es[2].bytes[0];
        assert es[2] == Write([op]);
        assert es[..4] == Transaction(Cmd(op, []));
        Some((Cmd(op, []), 4))
      else if |es| >= 6 && es[1] == DcLow && IsOpcodeWrite(es[2]) && es[3] == DcHigh
           && es[4].Write? && |es[4].bytes| > 0 && es[5] == CsHigh then
        var op := es[2].bytes[0];
        assert es[2] == Write([op]);
        assert es[..6] == Transaction(Cmd(op, es[4].bytes));
        Some((Cmd(op, es[4].bytes), 6))
      else if |es| >= 6 && es[1] == DcLow && IsOpcodeWrite(es[2]) && es[3] == DcHigh
           && es[4].Read? && es[5] == CsHigh then
        var op := es[2].bytes[0];
        assert es[2] == Write([op]);
        assert es[..6] == Transaction(Query(op, es[4].count));
        Some((Query(op, es[4].count), 6))
      else if |es| >= 4 && es[1] == DcHigh && es[2].Write? && es[3] == CsHigh then
        assert es[..4] == Transaction(Raw(es[2].bytes));
        Some((Raw(es[2].bytes), 4))
      else None
    case _ => None
  }

  /** The chip's reading of a whole trace; nothing if any part is malformed. */
  function Decode(es: seq<Event>): Option<seq<Step>>
    decreases |es|
  {
    if |es| == 0 then Some([])
    else match Next(es)
      case None => None
      case Some((s, n)) =>
        match Decode(es[n..])
        case None => None
        case Some(rest) => Some([s] + rest)
  }

  /**
   * The bus discipline every driver trace keeps: chip select alternates,
   * DC changes and SPI transfers happen only while the chip is selected,
   * reset pulses and busy waits only while it is not, and the trace ends
   * with the chip deselected.
   */
  predicate Disciplined(es: seq<Event>, selected: bool)
    decreases |es|
  {
    if |es| == 0 then !selected
    else match es[0]
      case CsLow => !selected && Disciplined(es[1..], true)
      case CsHigh => selected && Disciplined(es[1..], false)
      case DcLow => selected && Disciplined(es[1..], true)
      case DcHigh => selected && Disciplined(es[1..], true)
      case Write(_) => selected && Disciplined(es[1..], true)
      case Read(_) => selected && Disciplined(es[1..], true)
      case _ => !selected && Disciplined(es[1..], false)
  }

  /** `bytes(xs)`: every element must be in 0..255, else ValueError. */
  function ToBytes(xs: seq<int>): (r: Result<seq<byte>, Fault>)
    ensures r.Success? <==> forall i :: 0 <= i < |xs| ==> 0 <= xs[i] < 256
    ensures r.Success? ==> r.value == xs
    ensures r.Failure? ==> r.error == ByteOutOfRange
  {
    if |xs| == 0 then Success([])
    else if !(0 <= xs[0] < 256) then Failure(ByteOutOfRange)
    else match ToBytes(xs[1..])
      case Failure(e) => Failure(e)
      case Success(tail) => Success([xs[0] as byte] + tail)
  }

  /**
   * The payload normalisation at the top of `_command`: no data for `None`,
   * a single byte for an int, the bytes of a list or tuple, a buffer as is.
   */
  function Normalize(p: Payload): (r: Result<seq<byte>, Fault>)
    ensures p.NoData? ==> r == Success([])
    ensures p.Scalar? ==> (r.Success? <==> 0 <= p.v < 256) && (r.Success? ==> r.value == [p.v])
    ensures p.Items? ==> (r.Success? <==> forall i :: 0 <= i < |p.xs| ==> 0 <= p.xs[i] < 256)
    ensures p.Items? && r.Success? ==> r.value == p.xs
    ensures p.Buffer? ==> r == Success(p.bs)
    ensures r.Failure? ==> r.error == ByteOutOfRange
  {
    match p
    case NoData => Success([])
    case Scalar(v) => ToBytes([v])
    case Items(xs) => ToBytes(xs)
    case Buffer(bs) => Success(bs)
  }

  /**
   * `_command(reg, data)`: one transaction.  A payload that does not convert
   * raises before any pin moves.  Otherwise chip select goes low, DC low,
   * the opcode is written, DC goes high and the data is written only when
   * the normalised payload is non-empty, and chip select goes high.
   */
  function Command(reg: Reg, data: Payload): (r: Run)
    ensures Normalize(data).Failure? ==> r == Run([], Some(ByteOutOfRange))
    ensures Normalize(data).Success? ==> r.fault.None?
    ensures r.fault.None? ==>
      && |r.events| >= 4
      && r.events[0] == CsLow && r.events[|r.events| - 1] == CsHigh
      && r.events[1] == DcLow && r.events[2] == Write([Opcode(reg)])
      && CsLow !in r.events[1..] && CsHigh !in r.events[..|r.events| - 1]
    ensures r.fault.None? ==> (DcHigh in r.events <==> |Normalize(data).value| > 0)
    ensures r.fault.None? && |Normalize(data).value| > 0 ==>
      r.events[3..] == [DcHigh, Write(Normalize(data).value), CsHigh]
    ensures r.fault.None? && |Normalize(data).value| == 0 ==> |r.events| == 4
  {
    match Normalize(data)
    case Failure(e) => Run([], Some(e))
    case Success(bytes) => Run(Transaction(Cmd(Opcode(reg), bytes)), None)
  }

  /**
   * `_read(reg, n)`: the opcode under DC low, then DC high and an `n`-byte
   * read, bounded by chip select.  The bytes read are the device's and are
   * not modelled.
   */
  function ReadRegister(reg: Reg, count: nat): (r: Run)
    ensures r.fault.None?
    ensures Decode(r.events) == Some([Query(Opcode(reg), count)])
  {
    var q := Query(Opcode(reg), count);
    assert Encode([q]) == Transaction(q) + Encode([]);
    DecodeEncode([q]);
    Run(Transaction(q), None)
  }

  /**
   * `_data(data)`: a data phase with no opcode.  Unlike `_command` it has no
   * `None` case and no emptiness test: an empty buffer is still written, and
   * `None` reaches `spi.write` with chip select already low.
   */
  function WriteData(data: Payload): (r: Run)
    ensures DcLow !in r.events
    ensures data.NoData? ==> r == Run([CsLow, DcHigh], Some(NotABuffer))
    ensures !data.NoData? && Normalize(data).Failure? ==> r == Run([], Some(ByteOutOfRange))
    ensures !data.NoData? && Normalize(data).Success? ==>
      r.fault.None? && Decode(r.events) == Some([Raw(Normalize(data).value)])
  {
    match data
    case NoData => Run([CsLow, DcHigh], Some(NotABuffer))
    case _ =>
      match Normalize(data)
      case Failure(e) => Run([], Some(e))
      case Success(bytes) =>
        assert Encode([Raw(bytes)]) == Transaction(Raw(bytes)) + Encode([]);
        DecodeEncode([Raw(bytes)]);
        Run(Transaction(Raw(bytes)), None)
  }

  // ---------------------------------------------------------------------
  // The wire format and the chip's reading of it
  // ---------------------------------------------------------------------

  lemma {:induction false} EncodeAppend(a: seq<Step>, b: seq<Step>)
    ensures Encode(a + b) == Encode(a) + Encode(b)
    decreases |a|
  {
    if |a| == 0 {
      assert a + b == b;
    } else {
      assert (a + b)[0] == a[0];
      assert (a + b)[1..] == a[1..] + b;
      EncodeAppend(a[1..], b);
      calc {
        Encode(a + b);
        Transaction(a[0]) + Encode(a[1..] + b);
        Transaction(a[0]) + (Encode(a[1..]) + Encode(b));
        (Transaction(a[0]) + Encode(a[1..])) + Encode(b);
      }
    }
  }

  /** The chip parses each transaction back from the front of any trace. */
  lemma NextTransaction(s: Step, rest: seq<Event>)
    ensures Next(Transaction(s) + rest) == Some((s, |Transaction(s)|))
  {
    var es := Transaction(s) + rest;
    match s
    case Cmd(op, data) =>
      if |data| > 0 {
        assert es[..6] == [CsLow, DcLow, Write([op]), DcHigh, Write(data), CsHigh];
      } else {
        assert es[..4] == [CsLow, DcLow, Write([op]), CsHigh];
      }
    case Query(op, n) =>
      assert es[..6] == [CsLow, DcLow, Write([op]), DcHigh, Read(n), CsHigh];
    case Raw(data) =>
      assert es[..4] == [CsLow, DcHigh, Write(data), CsHigh];
    case Pulse =>
    case Wait =>
  }

  /** Round trip: the chip reads back exactly the steps the driver encoded. */
  lemma {:induction false} DecodeEncode(steps: seq<Step>)
    ensures Decode(Encode(steps)) == Some(steps)
    decreases |steps|
  {
    if |steps| > 0 {
      var t := Transaction(steps[0]);
      var es := Encode(steps);
      assert es == t + Encode(steps[1..]);
      NextTransaction(steps[0], Encode(steps[1..]));
      assert es[|t|..] == Encode(steps[1..]);
      DecodeEncode(steps[1..]);
      assert [steps[0]] + steps[1..] == steps;
    }
  }

  /** The chip accepts only canonical encodings: a decoded trace is re-encoded exactly. */
  lemma {:induction false} EncodeDecode(es: seq<Event>, steps: seq<Step>)
    requires Decode(es) == Some(steps)
    ensures Encode(steps) == es
    decreases |es|
  {
    if |es| > 0 {
      var (s, n) := Next(es).value;
      var rest := Decode(es[n..]).value;
      EncodeDecode(es[n..], rest);
      assert steps == [s] + rest;
      assert steps[0] == s && steps[1..] == rest;
      assert es == es[..n] + es[n..];
    }
  }

  /** The wire format and the chip's reading determine each other. */
  lemma DecodeIffEncode(es: seq<Event>, steps: seq<Step>)
    ensures Decode(es) == Some(steps) <==> es == Encode(steps)
  {
    if Decode(es) == Some(steps) {
      EncodeDecode(es, steps);
    }
    if es == Encode(steps) {
      DecodeEncode(steps);
    }
  }

  lemma {:induction false} DisciplinedAppend(a: seq<Event>, b: seq<Event>, selected: bool)
    requires Disciplined(a, selected) && Disciplined(b, false)
    ensures Disciplined(a + b, selected)
    decreases |a|
  {
    if |a| == 0 {
      assert a + b == b;
    } else {
      assert (a + b)[0] == a[0];
      assert (a + b)[1..] == a[1..] + b;
      match a[0]
      case CsLow => DisciplinedAppend(a[1..], b, true);
      case CsHigh => DisciplinedAppend(a[1..], b, false);
      case DcLow => DisciplinedAppend(a[1..], b, true);
      case DcHigh => DisciplinedAppend(a[1..], b, true);
      case Write(_) => DisciplinedAppend(a[1..], b, true);
      case Read(_) => DisciplinedAppend(a[1..], b, true);
      case _ => DisciplinedAppend(a[1..], b, false);
    }
  }

  /** Each single transaction keeps the bus discipline. */
  lemma TransactionDisciplined(s: Step)
    ensures Disciplined(Transaction(s), false)
  {
    var t := Transaction(s);
    match s
    case Cmd(op, data) =>
      if |data| > 0 {
        assert t[5..] == [CsHigh];
        assert Disciplined(t[5..], true);
        assert t[4..][1..] == t[5..];
        assert Disciplined(t[4..], true);
        assert t[3..][1..] == t[4..];
        assert Disciplined(t[3..], true);
        assert t[2..][1..] == t[3..];
        assert Disciplined(t[2..], true);
        assert t[1..][1..] == t[2..];
        assert Disciplined(t[1..], true);
      } else {
        assert t[3..] == [CsHigh];
        assert Disciplined(t[3..], true);
        assert t[2..][1..] == t[3..];
        assert Disciplined(t[2..], true);
        assert t[1..][1..] == t[2..];
        assert Disciplined(t[1..], true);
      }
    case Query(op, n) =>
      assert t[5..] == [CsHigh];
      assert Disciplined(t[5..], true);
      assert t[4..][1..] == t[5..];
      assert Disciplined(t[4..], true);
      assert t[3..][1..] == t[4..];
      assert Disciplined(t[3..], true);
      assert t[2..][1..] == t[3..];
      assert Disciplined(t[2..], true);
      assert t[1..][1..] == t[2..];
      assert Disciplined(t[1..], true);
    case Raw(data) =>
      assert t[3..] == [CsHigh];
      assert Disciplined(t[3..], true);
      assert t[2..][1..] == t[3..];
      assert Disciplined(t[2..], true);
      assert t[1..][1..] == t[2..];
      assert Disciplined(t[1..], true);
    case Pulse =>
    case Wait =>
  }

  /** Every encoded trace keeps the bus discipline. */
  lemma {:induction false} EncodeDisciplined(steps: seq<Step>)
    ensures Disciplined(Encode(steps), false)
    decreases |steps|
  {
    if |steps| > 0 {
      EncodeDisciplined(steps[1..]);
      var t := Transaction(steps[0]);
      TransactionDisciplined(steps[0]);
      DisciplinedAppend(t, Encode(steps[1..]), false);
    }
  }

  // ---------------------------------------------------------------------
  // Composing runs
  // ---------------------------------------------------------------------

  /** A run whose trace is the encoding of `steps` (whether or not it raised at the end). */
  predicate Yields(r: Run, steps: seq<Step>)
  {
    r.events == Encode(steps)
  }

  /** Sequencing composes the encodings, and the later run decides the outcome. */
  lemma ThenYields(a: Run, b: Run, x: seq<Step>, y: seq<Step>)
    requires a.fault.None? && Yields(a, x) && Yields(b, y)
    ensures Yields(a.Then(b), x + y) && a.Then(b).fault == b.fault
  {
    EncodeAppend(x, y);
  }

  /** A run that raised is unaffected by what was to follow it. */
  lemma ThenStops(a: Run, b: Run)
    requires a.fault.Some?
    ensures a.Then(b) == a
  {
  }

  /** A command with a convertible payload is one `Cmd` step on the wire. */
  lemma CommandYields(reg: Reg, data: Payload)
    requires Normalize(data).Success?
    ensures Yields(Command(reg, data), [Cmd(Opcode(reg), Normalize(data).value)])
  {
    var s := Cmd(Opcode(reg), Normalize(data).value);
    assert Encode([s]) == Transaction(s) + Encode([]);
  }

  /** The chip sees exactly one command with the normalised payload, or nothing at all. */
  lemma CommandDecodes(reg: Reg, data: Payload)
    ensures Normalize(data).Success? ==>
      Decode(Command(reg, data).events) == Some([Cmd(Opcode(reg), Normalize(data).value)])
    ensures Normalize(data).Failure? ==> Decode(Command(reg, data).events) == Some([])
  {
    if Normalize(data).Success? {
      CommandYields(reg, data);
      DecodeEncode([Cmd(Opcode(reg), Normalize(data).value)]);
    }
  }

  /** `None`, an empty list and an empty tuple all give a command-only transaction. */
  lemma CommandOnly(reg: Reg, data: Payload)
    requires data == NoData || data == Items([]) || data == Buffer([])
    ensures Command(reg, data) == Run([CsLow, DcLow, Write([Opcode(reg)]), CsHigh], None)
  {
  }

  /** An int payload, zero included, is exactly one data byte. */
  lemma ScalarIsOneByte(reg: Reg, v: int)
    requires 0 <= v < 256
    ensures Command(reg, Scalar(v)) ==
      Run([CsLow, DcLow, Write([Opcode(reg)]), DcHigh, Write([v]), CsHigh], None)
  {
  }
}
