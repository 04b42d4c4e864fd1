/**
 * The static waveform table (`LUTS`, UC8151.py:151-328) and the nominal
 * refresh durations (`UPDATE_TIME`, UC8151.py:329-334).  Both tables are
 * keyed by the update-speed name, a plain string: nothing restricts the
 * driver's `update_speed` to the four names the tables know.
 */
module Profiles {
  import opened Bits
  import opened Wrappers
  import opened Registers

  /** One entry of `LUTS`: the five lookup tables and the PLL selector. */
  datatype Waveform = Waveform(
    vcom: seq<byte>,
    ww: seq<byte>,
    bw: seq<byte>,
    wb: seq<byte>,
    bb: seq<byte>,
    pll: byte)

  /** The names both tables are keyed by. */
  const KnownSpeeds: set<string> := {"default", "medium", "fast", "turbo"}

  /**
   * The shape every entry of the table has: a VCOM table of seven 6-byte
   * groups plus two bytes, four transition tables of seven 6-byte groups,
   * white-to-white equal to black-to-white, white-to-black equal to
   * black-to-black, and a 100 Hz frame rate.
   */
  predicate Uniform(w: Waveform)
  {
    && |w.vcom| == 7 * 6 + 2
    && |w.ww| == 7 * 6 && |w.bw| == 7 * 6 && |w.wb| == 7 * 6 && |w.bb| == 7 * 6
    && w.ww == w.bw
    && w.wb == w.bb
    && w.pll == PllHz100
  }

  const Luts: map<string, Waveform> := map[
    "default" := Waveform(DefaultVcom, DefaultWw, DefaultBw, DefaultWb, DefaultBb, PllHz100),
    "medium" := Waveform(MediumVcom, MediumWw, MediumBw, MediumWb, MediumBb, PllHz100),
    "fast" := Waveform(FastVcom, FastWw, FastBw, FastWb, FastBb, PllHz100),
    "turbo" := Waveform(TurboVcom, TurboWw, TurboBw, TurboWb, TurboBb, PllHz100)
  ]

  const UpdateTimes: map<string, nat> := map[
    "default" := 4500,
    "medium" := 2000,
    "fast" := 800,
    "turbo" := 250
  ]

  /**
   * `LUTS.get(speed)`: the waveform for a known speed name, nothing for any
   * other name (the caller then writes no lookup tables at all).
   */
  function Waveforms(speed: string): (r: Option<Waveform>)
    ensures r.Some? <==> speed in KnownSpeeds
    ensures r.Some? ==> Uniform(r.value)
  {
    if speed in Luts then Some(Luts[speed]) else None
  }

  /**
   * `UPDATE_TIME.get(speed, UPDATE_TIME['default'])`: the nominal refresh
   * duration in milliseconds, with the default profile's duration for any
   * name the table does not know.
   */
  function UpdateTime(speed: string): (ms: nat)
    ensures speed == "default" ==> ms == 4500
    ensures speed == "medium" ==> ms == 2000
    ensures speed == "fast" ==> ms == 800
    ensures speed == "turbo" ==> ms == 250
    ensures speed !in KnownSpeeds ==> ms == 4500
  {
    if speed in UpdateTimes then UpdateTimes[speed] else UpdateTimes["default"]
  }

  /** Both tables are keyed by exactly the four known names. */
  lemma TablesAgree()
    ensures Luts.Keys == UpdateTimes.Keys == KnownSpeeds
    ensures |KnownSpeeds| == 4
  {
  }

  /** Faster profiles trade quality for strictly shorter refreshes. */
  lemma FasterIsShorter()
    ensures UpdateTime("turbo") < UpdateTime("fast") < UpdateTime("medium") < UpdateTime("default")
  {
  }

  /** Only the default profile takes the longest (fallback) duration. */
  lemma LongestIsDefault(speed: string)
    requires speed in KnownSpeeds
    ensures UpdateTime(speed) == UpdateTime("default") <==> speed == "default"
  {
  }

  // default profile (UC8151.py:152)
  const DefaultVcom: seq<byte> := [
    0x00, 0x64, 0x64, 0x37, 0x00, 0x01,
    0x00, 0x8C, 0x8C, 0x00, 0x00, 0x04,
    0x00, 0x64, 0x64, 0x37, 0x00, 0x01,
    0x00, 0x00, 0x00, 0x00, 0x00, 0x00,
    0x00, 0x00, 0x00, 0x00, 0x00, 0x00,
    0x00, 0x00, 0x00, 0x00, 0x00, 0x00,
    0x00, 0x00, 0x00, 0x00, 0x00, 0x00,
    0x00, 0x00
  ]

  const DefaultWw: seq<byte> := [
    0x54, 0x64, 0x64, 0x37, 0x00, 0x01,
    0x60, 0x8C, 0x8C, 0x00, 0x00, 0x04,
    0xA8, 0x64, 0x64, 0x37, 0x00, 0x01,
    0x00, 0x00, 0x00, 0x00, 0x00, 0x00,
    0x00, 0x00, 0x00, 0x00, 0x00, 0x00,
    0x00, 0x00, 0x00, 0x00, 0x00, 0x00,
    0x00, 0x00, 0x00, 0x00, 0x00, 0x00
  ]

  const DefaultBw: seq<byte> := [
    0x54, 0x64, 0x64, 0x37, 0x00, 0x01,
    0x60, 0x8C, 0x8C, 0x00, 0x00, 0x04,
    0xA8, 0x64, 0x64, 0x37, 0x00, 0x01,
    0x00, 0x00, 0x00, 0x00, 0x00, 0x00,
    0x00, 0x00, 0x00, 0x00, 0x00, 0x00,
    0x00, 0x00, 0x00, 0x00, 0x00, 0x00,
    0x00, 0x00, 0x00, 0x00, 0x00, 0x00
  ]

  const DefaultWb: seq<byte> := [
    0xA8, 0x64, 0x64, 0x37, 0x00, 0x01,
    0x60, 0x8C, 0x8C, 0x00, 0x00, 0x04,
    0x54, 0x64, 0x64, 0x37, 0x00, 0x01,
    0x00, 0x00, 0x00, 0x00, 0x00, 0x00,
    0x00, 0x00, 0x00, 0x00, 0x00, 0x00,
    0x00, 0x00, 0x00, 0x00, 0x00, 0x00,
    0x00, 0x00, 0x00, 0x00, 0x00, 0x00
  ]

  const DefaultBb: seq<byte> := [
    0xA8, 0x64, 0x64, 0x37, 0x00, 0x01,
    0x60, 0x8C, 0x8C, 0x00, 0x00, 0x04,
    0x54, 0x64, 0x64, 0x37, 0x00, 0x01,
    0x00, 0x00, 0x00, 0x00, 0x00, 0x00,
    0x00, 0x00, 0x00, 0x00, 0x00, 0x00,
    0x00, 0x00, 0x00, 0x00, 0x00, 0x00,
    0x00, 0x00, 0x00, 0x00, 0x00, 0x00
  ]

  // medium profile (UC8151.py:196)
  const MediumVcom: seq<byte> := [
    0x00, 0x16, 0x16, 0x0D, 0x00, 0x01,
    0x00, 0x23, 0x23, 0x00, 0x00, 0x02,
    0x00, 0x16, 0x16, 0x0D, 0x00, 0x01,
    0x00, 0x00, 0x00, 0x00, 0x00, 0x00,
    0x00, 0x00, 0x00, 0x00, 0x00, 0x00,
    0x00, 0x00, 0x00, 0x00, 0x00, 0x00,
    0x00, 0x00, 0x00, 0x00, 0x00, 0x00,
    0x00, 0x00
  ]

  const MediumWw: seq<byte> := [
    0x54, 0x16, 0x16, 0x0D, 0x00, 0x01,
    0x60, 0x23, 0x23, 0x00, 0x00, 0x02,
    0xA8, 0x16, 0x16, 0x0D, 0x00, 0x01,
    0x00, 0x00, 0x00, 0x00, 0x00, 0x00,
    0x00, 0x00, 0x00, 0x00, 0x00, 0x00,
    0x00, 0x00, 0x00, 0x00, 0x00, 0x00,
    0x00, 0x00, 0x00, 0x00, 0x00, 0x00
  ]

  const MediumBw: seq<byte> := [
    0x54, 0x16, 0x16, 0x0D, 0x00, 0x01,
    0x60, 0x23, 0x23, 0x00, 0x00, 0x02,
    0xA8, 0x16, 0x16, 0x0D, 0x00, 0x01,
    0x00, 0x00, 0x00, 0x00, 0x00, 0x00,
    0x00, 0x00, 0x00, 0x00, 0x00, 0x00,
    0x00, 0x00, 0x00, 0x00, 0x00, 0x00,
    0x00, 0x00, 0x00, 0x00, 0x00, 0x00
  ]

  const MediumWb: seq<byte> := [
    0xA8, 0x16, 0x16, 0x0D, 0x00, 0x01,
    0x60, 0x23, 0x23, 0x00, 0x00, 0x02,
    0x54, 0x16, 0x16, 0x0D, 0x00, 0x01,
    0x00, 0x00, 0x00, 0x00, 0x00, 0x00,
    0x00, 0x00, 0x00, 0x00, 0x00, 0x00,
    0x00, 0x00, 0x00, 0x00, 0x00, 0x00,
    0x00, 0x00, 0x00, 0x00, 0x00, 0x00
  ]

  const MediumBb: seq<byte> := [
    0xA8, 0x16, 0x16, 0x0D, 0x00, 0x01,
    0x60, 0x23, 0x23, 0x00, 0x00, 0x02,
    0x54, 0x16, 0x16, 0x0D, 0x00, 0x01,
    0x00, 0x00, 0x00, 0x00, 0x00, 0x00,
    0x00, 0x00, 0x00, 0x00, 0x00, 0x00,
    0x00, 0x00, 0x00, 0x00, 0x00, 0x00,
    0x00, 0x00, 0x00, 0x00, 0x00, 0x00
  ]

  // fast profile (UC8151.py:240)
  const FastVcom: seq<byte> := [
    0x00, 0x04, 0x04, 0x07, 0x00, 0x01,
    0x00, 0x0C, 0x0C, 0x00, 0x00, 0x02,
    0x00, 0x04, 0x04, 0x07, 0x00, 0x02,
    0x00, 0x00, 0x00, 0x00, 0x00, 0x00,
    0x00, 0x00, 0x00, 0x00, 0x00, 0x00,
    0x00, 0x00, 0x00, 0x00, 0x00, 0x00,
    0x00, 0x00, 0x00, 0x00, 0x00, 0x00,
    0x00, 0x00
  ]

  const FastWw: seq<byte> := [
    0x54, 0x04, 0x04, 0x07, 0x00, 0x01,
    0x60, 0x0C, 0x0C, 0x00, 0x00, 0x02,
    0xA8, 0x04, 0x04, 0x07, 0x00, 0x02,
    0x00, 0x00, 0x00, 0x00, 0x00, 0x00,
    0x00, 0x00, 0x00, 0x00, 0x00, 0x00,
    0x00, 0x00, 0x00, 0x00, 0x00, 0x00,
    0x00, 0x00, 0x00, 0x00, 0x00, 0x00
  ]

  const FastBw: seq<byte> := [
    0x54, 0x04, 0x04, 0x07, 0x00, 0x01,
    0x60, 0x0C, 0x0C, 0x00, 0x00, 0x02,
    0xA8, 0x04, 0x04, 0x07, 0x00, 0x02,
    0x00, 0x00, 0x00, 0x00, 0x00, 0x00,
    0x00, 0x00, 0x00, 0x00, 0x00, 0x00,
    0x00, 0x00, 0x00, 0x00, 0x00, 0x00,
    0x00, 0x00, 0x00, 0x00, 0x00, 0x00
  ]

  const FastWb: seq<byte> := [
    0xA8, 0x04, 0x04, 0x07, 0x00, 0x01,
    0x60, 0x0C, 0x0C, 0x00, 0x00, 0x02,
    0x54, 0x04, 0x04, 0x07, 0x00, 0x02,
    0x00, 0x00, 0x00, 0x00, 0x00, 0x00,
    0x00, 0x00, 0x00, 0x00, 0x00, 0x00,
    0x00, 0x00, 0x00, 0x00, 0x00, 0x00,
    0x00, 0x00, 0x00, 0x00, 0x00, 0x00
  ]

  const FastBb: seq<byte> := [
    0xA8, 0x04, 0x04, 0x07, 0x00, 0x01,
    0x60, 0x0C, 0x0C, 0x00, 0x00, 0x02,
    0x54, 0x04, 0x04, 0x07, 0x00, 0x02,
    0x00, 0x00, 0x00, 0x00, 0x00, 0x00,
    0x00, 0x00, 0x00, 0x00, 0x00, 0x00,
    0x00, 0x00, 0x00, 0x00, 0x00, 0x00,
    0x00, 0x00, 0x00, 0x00, 0x00, 0x00
  ]

  // turbo profile (UC8151.py:284)
  const TurboVcom: seq<byte> := [
    0x00, 0x01, 0x01, 0x02, 0x00, 0x01,
    0x00, 0x02, 0x02, 0x00, 0x00, 0x02,
    0x00, 0x02, 0x02, 0x03, 0x00, 0x02,
    0x00, 0x00, 0x00, 0x00, 0x00, 0x00,
    0x00, 0x00, 0x00, 0x00, 0x00, 0x00,
    0x00, 0x00, 0x00, 0x00, 0x00, 0x00,
    0x00, 0x00, 0x00, 0x00, 0x00, 0x00,
    0x00, 0x00
  ]

  const TurboWw: seq<byte> := [
    0x54, 0x01, 0x01, 0x02, 0x00, 0x01,
    0x60, 0x02, 0x02, 0x00, 0x00, 0x02,
    0xA8, 0x02, 0x02, 0x03, 0x00, 0x02,
    0x00, 0x00, 0x00, 0x00, 0x00, 0x00,
    0x00, 0x00, 0x00, 0x00, 0x00, 0x00,
    0x00, 0x00, 0x00, 0x00, 0x00, 0x00,
    0x00, 0x00, 0x00, 0x00, 0x00, 0x00
  ]

  const TurboBw: seq<byte> := [
    0x54, 0x01, 0x01, 0x02, 0x00, 0x01,
    0x60, 0x02, 0x02, 0x00, 0x00, 0x02,
    0xA8, 0x02, 0x02, 0x03, 0x00, 0x02,
    0x00, 0x00, 0x00, 0x00, 0x00, 0x00,
    0x00, 0x00, 0x00, 0x00, 0x00, 0x00,
    0x00, 0x00, 0x00, 0x00, 0x00, 0x00,
    0x00, 0x00, 0x00, 0x00, 0x00, 0x00
  ]

  const TurboWb: seq<byte> := [
    0xA8, 0x01, 0x01, 0x02, 0x00, 0x01,
    0x60, 0x02, 0x02, 0x00, 0x00, 0x02,
    0x54, 0x02, 0x02, 0x03, 0x00, 0x02,
    0x00, 0x00, 0x00, 0x00, 0x00, 0x00,
    0x00, 0x00, 0x00, 0x00, 0x00, 0x00,
    0x00, 0x00, 0x00, 0x00, 0x00, 0x00,
    0x00, 0x00, 0x00, 0x00, 0x00, 0x00
  ]

  const TurboBb: seq<byte> := [
    0xA8, 0x01, 0x01, 0x02, 0x00, 0x01,
    0x60, 0x02, 0x02, 0x00, 0x00, 0x02,
    0x54, 0x02, 0x02, 0x03, 0x00, 0x02,
    0x00, 0x00, 0x00, 0x00, 0x00, 0x00,
    0x00, 0x00, 0x00, 0x00, 0x00, 0x00,
    0x00, 0x00, 0x00, 0x00, 0x00, 0x00,
    0x00, 0x00, 0x00, 0x00, 0x00, 0x00
  ]
}
