# UC8151 e-paper driver: command protocol model

A Dafny model of the MicroPython driver for the UC8151 e-paper controller
(`UC8151.py`). The driver talks to the panel through four pins (chip select,
data/command select, reset, busy) and an SPI bus. Everything it does can be
observed as an ordered trace of pin transitions, SPI writes and busy waits.
The model makes each driver operation a pure function that returns such a
trace, together with the Python exception that cut it short, if any.

Modules:

- `Wrappers`: `Option` and `Result`.
- `Bits`: the byte type, and Python's `&`, `|` and `>>` on unbounded integers
  (floor semantics for negative operands). Lemmas give their closed forms
  for the masks the driver uses.
- `Registers`: the register catalogue (`REG`) as a datatype with its opcode
  bytes, the controller's opcode-to-register reading, and the flag constants
  (`PSR_FLAGS`, `PWR_FLAGS_*`, `BOOSTER_FLAGS`, `PFS_FLAGS`, `TSE_FLAGS`,
  `PLL_FLAGS`).
- `Profiles`: the waveform table `LUTS` and the refresh durations `UPDATE_TIME`.
- `Transport`: bus events and the driver's bus calls `_command`, `_read` and
  `_data`. Payload normalisation (`None`, `int`, list or tuple, byte buffer)
  can raise `ValueError` from `bytes()`. The module also holds the wire
  format `Encode` of chip-level steps and the chip-side reader `Decode`,
  proved inverse to each other.
- `PartialWindow`: the 7-byte window descriptor of `partial_update`.
- `Controller`: the driver object. It covers the constructor, `reset`,
  `power_off`, `busy_wait`, `update`, `partial_update`, `_setup`, and the
  speed setter and getters.

Each method body is a list of statements (`Send`, `BusyWait`, `PulseReset`).
Running it sequences the statements with Python's exception semantics: a
`_command` whose payload does not convert raises before any pin moves, and
nothing after it runs. Every operation is specified by what the controller
reads from its trace (`Decode`). That reading is compared with reference
step lists written out with the controller's raw opcodes (`0x04` power on,
`0x92` partial mode off, and so on). The reference lists are independent of
the `Reg` datatype and its opcode table.

The window bytes are defined in floor-division arithmetic.
`PartialWindow.WindowIsBitwise` proves them equal, for every integer, to the
`&`, `|` and `>>` expressions the driver evaluates.

## Model

| member | source | states |
|---|---|---|
| Registers.Opcode | UC8151.py:7-47 | each register's `REG` opcode byte, which the controller reads back as that same register |
| Registers.RegOfOpcode | UC8151.py:7-47 | every assigned opcode byte is the opcode of the register it reads as |
| Registers.OpcodeInjective | UC8151.py:7-47 | two registers share an opcode iff they are the same register |
| Bits.And | UC8151.py:391-396 | Python's `a & m` for a mask `m >= 0`: the result lies in 0..m, and is at most `a` when `a >= 0` |
| Bits.Or | UC8151.py:392 | Python's `a \| m` for a mask `m >= 0`: the result is at least `a`, and at least `m` when `a >= 0` |
| Bits.OrAndSum | UC8151.py:391-396 | `(a \| m) + (a & m) == a + m` for every integer `a`, relating the two operations bit by bit |
| Bits.Shr | UC8151.py:393-395 | Python's `a >> n` is floor division by 2^n: `2^n * r <= a < 2^n * r + 2^n`, for negative `a` too |
| Bits.AndFF | UC8151.py:392-396 | `a & 0xFF` is the low byte `a mod 256`, for negative `a` too |
| Bits.AndF8 | UC8151.py:391 | `a & 0xF8` is the low byte of `a` rounded down to a multiple of 8 |
| Bits.OrThree | UC8151.py:392 | `a \| 3` sets the two low bits: `a / 4 * 4 + 3` |
| Bits.OrBit | UC8151.py:429-436 | or-ing a bit that is clear adds its weight, so `+` on disjoint flags equals `\|` |
| Profiles.Waveforms | UC8151.py:151-328 | `LUTS.get` yields a waveform iff the name is one of the four profiles; every waveform has a 44-byte VCOM table, four 42-byte tables with WW = BW and WB = BB, and PLL 100 Hz (0x3A) |
| Profiles.UpdateTime | UC8151.py:329-334 | 4500, 2000, 800 and 250 ms for default, medium, fast and turbo; 4500 for any other name |
| Profiles.TablesAgree | UC8151.py:151-334 | both tables are keyed by exactly the same four names |
| Profiles.FasterIsShorter | UC8151.py:329-334 | turbo < fast < medium < default in refresh time |
| Profiles.LongestIsDefault | UC8151.py:329-334 | among the known profiles, only `default` has the fallback duration |
| Transport.Normalize | UC8151.py:487-494 | `None` gives no data, an int gives one byte, a list or tuple gives its elements, a buffer passes through; conversion fails (ValueError) iff some element is outside 0..255 |
| Transport.ToBytes | UC8151.py:492-493 | `bytes(xs)` succeeds iff every element is in 0..255, and then holds exactly `xs` |
| Transport.Command | UC8151.py:486-504 | a failing payload raises with no pin event; otherwise CS low first and CS high last with no other CS edge, DC low, then the opcode write; DC high occurs iff the normalised payload is non-empty, followed by exactly that data and CS high |
| Transport.CommandOnly | UC8151.py:486-504 | `None`, an empty list and an empty buffer give the 4-event command-only transaction |
| Transport.ScalarIsOneByte | UC8151.py:490-491 | an int payload, 0 included, is exactly one data byte |
| Transport.CommandDecodes | UC8151.py:486-504 | the chip reads a command as one `Cmd(opcode, data)` step, or nothing if the payload raised |
| Transport.ReadRegister | UC8151.py:477-484 | `_read` is read by the chip as one query of `n` bytes for the register's opcode |
| Transport.WriteData | UC8151.py:506-514 | `_data` never drives DC low; `None` reaches `spi.write` after CS low and DC high and fails there; a convertible payload is one data-only transaction, even when empty |
| Transport.Next | UC8151.py:486-514 | each step the chip parses spans exactly the events of that step's encoding |
| Transport.DecodeEncode | UC8151.py:486-514 | the chip reads back exactly the steps the driver encoded |
| Transport.EncodeDecode | UC8151.py:486-514 | the chip accepts only canonical encodings: whatever it reads re-encodes to the same trace |
| Transport.DecodeIffEncode | UC8151.py:486-514 | `Decode(es) == Some(steps)` iff `es == Encode(steps)` |
| Transport.EncodeDisciplined | UC8151.py:477-514 | every encoded trace alternates chip select, moves DC and the bus only while selected, pulses reset and waits only while deselected, and ends deselected |
| Transport.ThenYields | UC8151.py:375-385 | sequencing two statements concatenates their encodings when the first does not raise |
| Transport.ThenStops | UC8151.py:375-385 | a statement that raised is not followed by anything |
| PartialWindow.Descriptor | UC8151.py:390-398 | the descriptor has 7 bytes, bytes 2 and 4 are in {0, 1} and byte 6 is 0x01 |
| PartialWindow.WindowIsBitwise | UC8151.py:390-398 | every descriptor byte equals the driver's `&`, `\|`, `>>` expression, for any integer coordinates |
| PartialWindow.DescriptorRows | UC8151.py:391-392 | byte 0 is a multiple of 8 and, for 0 <= y < 256, lies in (y-8, y]; byte 1 is 3 mod 4 and, for a last line in 0..255, lies in [last, last+4) |
| PartialWindow.DescriptorColumns | UC8151.py:393-396 | bytes 2 and 3, and 4 and 5, reassemble x and x+w-1 modulo 512, so exactly for 0..511 |
| PartialWindow.OriginTile | UC8151.py:390-398 | region (0, 0, 8, 8) gives `[0x00, 0x07, 0x00, 0x00, 0x00, 0x07, 0x01]` |
| Controller.ExecReach | UC8151.py:486-494 | a method body's trace is the encoding of the steps up to the first statement that raises; it raises iff some payload fails to convert, and then with ValueError |
| Controller.ReachLowers | UC8151.py:486-494 | the steps reached are, one for one, the statements' own steps, and all statements are reached iff none raises |
| Controller.ExecDisciplined | UC8151.py:477-514 | every trace a method body produces keeps the chip-select discipline |
| Controller.SpinUntilReady | UC8151.py:356-361 | `is_busy` is the negated busy pin, so `busy_wait` returns at the first sample where the pin reads high, after polling only samples that read low |
| Controller.Reset | UC8151.py:363-368 | `reset` is read as a reset pulse and then a wait, and never raises |
| Controller.PowerOff | UC8151.py:370-372 | `power_off` is read as a wait and then POF (0x02) with no data |
| Controller.Update | UC8151.py:375-385 | `update` raises iff the frame does not convert; otherwise it is read as wait, 0x04, 0x92, 0x13 with the frame verbatim, 0x11, 0x12, then wait and 0x02 iff blocking; a failing frame raises after wait, 0x04, 0x92 |
| Controller.PartialUpdate | UC8151.py:387-409 | as `update` with 0x91 and 0x90 carrying the region's descriptor in place of 0x92; a failing frame raises after the window was sent |
| Controller.PartialDiffersInMode | UC8151.py:375-409 | a partial refresh is a full refresh with 0x92 replaced by 0x91 followed by the window command |
| Controller.RefreshPowerOff | UC8151.py:375-409 | both refreshes end with power off iff blocking |
| Controller.PsrSetting | UC8151.py:429-437 | the panel setting is 0x9B for `default` and 0xBB for any other name; bit 5 (register tables) is set iff the name is not `default` |
| Controller.PsrFlagsDisjoint | UC8151.py:429-436 | summing the PSR flags equals or-ing them |
| Controller.Setup | UC8151.py:425-474 | `_setup` never raises, keeps the bus discipline, and is read as reset pulse, wait, PSR, the profile's tables, PWR `[0x03, 0x00, 0x2B, 0x2B, 0x2B]`, 0x04, wait, BTST `[0x17, 0x17, 0x17]`, PFS `[0x00]`, TSE `[0x00]`, TCON `[0x22]`, CDI `[0x9C]` or `[0x4C]` by pixel inversion, wait, 0x02 |
| Controller.SetupReach | UC8151.py:425-474 | the setup statements reach the reference step list, all of them |
| Controller.KnownSpeedTables | UC8151.py:439-442 | for a known profile the tables go out as 0x20-0x24 in order (44 bytes, then 42 each, WW = BW, WB = BB), then 0x30 with `[0x3A]` |
| Controller.SetupWritesTablesIffKnown | UC8151.py:439-442 | setup writes a lookup-table or PLL command iff the speed name is one of the four profiles |
| Controller.UnknownSpeedQuirk | UC8151.py:434-442 | for an unknown name the panel setting selects register tables (bit 5 set) and yet no table is written |
| Controller.Construct | UC8151.py:336-353 | the constructor starts with profile `default` and inverted pixels, drives CS and reset high, then runs setup without raising |
| Controller.SetUpdateSpeed | UC8151.py:412-414 | `set_update_speed` stores any name, keeps the pixel setting and emits the full setup trace for the new name |
| Controller.GetUpdateSpeed | UC8151.py:416-417 | `get_update_speed` returns the stored name: setting the speed to what it returns leaves the driver unchanged |
| Controller.GetUpdateTime | UC8151.py:419-422 | one of 4500, 2000, 800 and 250 ms; 4500 exactly for `default` and unknown names |
| Controller.SpeedRoundTrip | UC8151.py:412-422 | the speed reads back as set, its duration is the profile's, and setting the old speed back restores the driver |

## Left out

- Pin and SPI object construction, pin numbers and the `machine` module: pins appear only as trace events.
- `sleep_ms` delays in `reset`: timing is not modelled; the pulse is the two reset events.
- Termination of `busy_wait`. It depends on the external busy pin. `busy_wait` inside a trace is the abstract `WaitReady` event. `SpinUntilReady` models the loop over a given sequence of pin samples that contains a ready sample.
- The bytes returned by `_read`: they come from the device; only the framing is modelled.
- The waveform bytes themselves: `Profiles` copies them verbatim, but nothing is proved about them beyond lengths, equalities between tables and the PLL byte.
- Frame-buffer layout: the frame is passed through verbatim.
- Region bounds checking and rejection of unknown speed names: the driver does neither, so the model does not either. `set_update_speed` stores any name (UC8151.py:412-414), setup skips the tables for an unknown one (UC8151.py:440), and the descriptor is computed from any integers (UC8151.py:389-398). `Controller.UnknownSpeedQuirk` states what an unknown name does.
- Exceptions other than the `bytes()` ValueError and `spi.write(None)`. For example, `partial_update` with a region that is not a 4-tuple, or non-integer coordinates, raises a Python error; these are outside the typed model.
- `TSE_FLAGS` offsets other than `OFFSET_0`: the driver never uses them.
- Controller.SpinUntilReady: requires that some sample reads ready. With no ready sample the driver spins forever, and a terminating method cannot express that.
- Controller.KnownSpeedTables: the six table commands are in the key order of the `LUTS` dict literal (VCOM, WW, BW, WB, BB, PLL). This assumes `dict.items()` iterates in insertion order, as Python 3.7 and later guarantee. On a MicroPython build whose plain `dict` iterates in hash-slot order, the six commands could be sent in another order.
- Controller.Setup: the same insertion-order assumption fixes the order of the table commands inside the setup trace (UC8151.py:440-442); the commands before and after them do not depend on it.
