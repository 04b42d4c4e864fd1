/**
 * The UC8151 register (command) catalogue and the bit-flag groups the driver
 * composes register bytes from (UC8151.py:7-149).
 */
module Registers {
  import opened Bits
  import opened Wrappers

  /** Every command register of the controller; the opcode is one byte. */
  datatype Reg =
    | PSR | PWR | POF | PFS | PON | PMES | BTST | DSLP
    | DTM1 | DSP | DRF | DTM2
    | LUT_VCOM | LUT_WW | LUT_BW | LUT_WB | LUT_BB
    | PLL | TSC | TSE | TSR | TSW
    | CDI | LPD | TCON | TRES | REV | FLG
    | AMV | VV | VDCS | PTL | PTIN | PTOU
    | PGM | APG | ROTP | CCSET | PWS | TSSET

  /** The opcode byte written in the command phase; the controller reads it back as `r`. */
  function Opcode(r: Reg): (op: byte)
    ensures RegOf(op) == Some(r)
  {
    match r
    case PSR => 0x00
    case PWR => 0x01
    case POF => 0x02
    case PFS => 0x03
    case PON => 0x04
    case PMES => 0x05
    case BTST => 0x06
    case DSLP => 0x07
    case DTM1 => 0x10
    case DSP => 0x11
    case DRF => 0x12
    case DTM2 => 0x13
    case LUT_VCOM => 0x20
    case LUT_WW => 0x21
    case LUT_BW => 0x22
    case LUT_WB => 0x23
    case LUT_BB => 0x24
    case PLL => 0x30
    case TSC => 0x40
    case TSE => 0x41
    case TSR => 0x43
    case TSW => 0x42
    case CDI => 0x50
    case LPD => 0x51
    case TCON => 0x60
    case TRES => 0x61
    case REV => 0x70
    case FLG => 0x71
    case AMV => 0x80
    case VV => 0x81
    case VDCS => 0x82
    case PTL => 0x90
    case PTIN => 0x91
    case PTOU => 0x92
    case PGM => 0xA0
    case APG => 0xA1
    case ROTP => 0xA2
    case CCSET => 0xE0
    case PWS => 0xE3
    case TSSET => 0xE5
  }

  /** How the controller interprets a command byte; `None` for an unassigned opcode. */
  function RegOf(op: byte): Option<Reg>
  {
    match op
    case 0x00 => Some(PSR)
    case 0x01 => Some(PWR)
    case 0x02 => Some(POF)
    case 0x03 => Some(PFS)
    case 0x04 => Some(PON)
    case 0x05 => Some(PMES)
    case 0x06 => Some(BTST)
    case 0x07 => Some(DSLP)
    case 0x10 => Some(DTM1)
    case 0x11 => Some(DSP)
    case 0x12 => Some(DRF)
    case 0x13 => Some(DTM2)
    case 0x20 => Some(LUT_VCOM)
    case 0x21 => Some(LUT_WW)
    case 0x22 => Some(LUT_BW)
    case 0x23 => Some(LUT_WB)
    case 0x24 => Some(LUT_BB)
    case 0x30 => Some(PLL)
    case 0x40 => Some(TSC)
    case 0x41 => Some(TSE)
    case 0x42 => Some(TSW)
    case 0x43 => Some(TSR)
    case 0x50 => Some(CDI)
    case 0x51 => Some(LPD)
    case 0x60 => Some(TCON)
    case 0x61 => Some(TRES)
    case 0x70 => Some(REV)
    case 0x71 => Some(FLG)
    case 0x80 => Some(AMV)
    case 0x81 => Some(VV)
    case 0x82 => Some(VDCS)
    case 0x90 => Some(PTL)
    case 0x91 => Some(PTIN)
    case 0x92 => Some(PTOU)
    case 0xA0 => Some(PGM)
    case 0xA1 => Some(APG)
    case 0xA2 => Some(ROTP)
    case 0xE0 => Some(CCSET)
    case 0xE3 => Some(PWS)
    case 0xE5 => Some(TSSET)
    case _ => None
  }

  /** Conversely to `Opcode`'s contract, every assigned opcode is the opcode of the register it decodes to. */
  lemma RegOfOpcode(op: byte)
    ensures RegOf(op).Some? ==> Opcode(RegOf(op).value) == op
  {
    if op < 0x08 {
    } else if op < 0x20 {
    } else if op < 0x40 {
    } else if op < 0x60 {
    } else if op < 0x80 {
    } else if op < 0xA0 {
    } else {
    }
  }

  /** No two registers share an opcode. */
  lemma OpcodeInjective(a: Reg, b: Reg)
    ensures Opcode(a) == Opcode(b) <==> a == b
  {
  }

  // Panel setting (PSR) flags.
  const PsrRes96x230: byte := 0x00
  const PsrRes96x252: byte := 0x40
  const PsrRes128x296: byte := 0x80
  const PsrRes160x296: byte := 0xC0
  const PsrLutOtp: byte := 0x00
  const PsrLutReg: byte := 0x20
  const PsrFormatBwr: byte := 0x00
  const PsrFormatBw: byte := 0x10
  const PsrScanDown: byte := 0x00
  const PsrScanUp: byte := 0x08
  const PsrShiftLeft: byte := 0x00
  const PsrShiftRight: byte := 0x04
  const PsrBoosterOff: byte := 0x00
  const PsrBoosterOn: byte := 0x02
  const PsrResetSoft: byte := 0x00
  const PsrResetNone: byte := 0x01

  // Power setting (PWR) flags, first and second byte.
  const PwrVdsExternal: byte := 0x00
  const PwrVdsInternal: byte := 0x02
  const PwrVdgExternal: byte := 0x00
  const PwrVdgInternal: byte := 0x01
  const PwrVcomVd: byte := 0x00
  const PwrVcomVg: byte := 0x04
  const PwrVghl16V: byte := 0x00
  const PwrVghl15V: byte := 0x01
  const PwrVghl14V: byte := 0x02
  const PwrVghl13V: byte := 0x03

  // Booster soft-start (BTST) fields: start period, drive strength, off time.
  const BoosterStart10ms: byte := 0x00
  const BoosterStart20ms: byte := 0x40
  const BoosterStart30ms: byte := 0x80
  const BoosterStart40ms: byte := 0xC0
  const BoosterStrength1: byte := 0x00
  const BoosterStrength2: byte := 0x08
  const BoosterStrength3: byte := 0x10
  const BoosterStrength4: byte := 0x18
  const BoosterStrength5: byte := 0x20
  const BoosterStrength6: byte := 0x28
  const BoosterStrength7: byte := 0x30
  const BoosterStrength8: byte := 0x38
  const BoosterOff0_27us: byte := 0x00
  const BoosterOff0_34us: byte := 0x01
  const BoosterOff0_40us: byte := 0x02
  const BoosterOff0_54us: byte := 0x03
  const BoosterOff0_80us: byte := 0x04
  const BoosterOff1_54us: byte := 0x05
  const BoosterOff3_34us: byte := 0x06
  const BoosterOff6_58us: byte := 0x07

  // Power-off sequence (PFS) frame counts.
  const PfsFrames1: byte := 0x00
  const PfsFrames2: byte := 0x10
  const PfsFrames3: byte := 0x20
  const PfsFrames4: byte := 0x30

  // Temperature sensor (TSE): source and offset.
  const TseTempInternal: byte := 0x00
  const TseTempExternal: byte := 0x80
  const TseOffset0: byte := 0x00

  // PLL (frame rate) selectors.
  const PllHz29: byte := 0x3F
  const PllHz33: byte := 0x3E
  const PllHz40: byte := 0x3D
  const PllHz50: byte := 0x3C
  const PllHz67: byte := 0x3B
  const PllHz100: byte := 0x3A
  const PllHz150: byte := 0x29
  const PllHz200: byte := 0x39
}
