/** The wire-level contract with the AS5013: the two slave addresses, the
    register map and the fixed command bytes the driver writes, plus the two
    value tables the API documentation gives (low-power timebase and scaling). */
module Registers {

  /** Slave address with jumper J1 in position 0. */
  const I2cAddress0: bv8 := 0x40
  /** Slave address with jumper J1 in position 1. */
  const I2cAddress1: bv8 := 0x41

  // Register map
  const IdCode: bv8 := 0x0C
  const IdVersion: bv8 := 0x0D
  const SilRev: bv8 := 0x0E
  const Control1: bv8 := 0x0F
  const Control2: bv8 := 0x2E
  const X: bv8 := 0x10
  const YResInt: bv8 := 0x11
  const XP: bv8 := 0x12
  const XN: bv8 := 0x13
  const YP: bv8 := 0x14
  const YN: bv8 := 0x15
  const Agc: bv8 := 0x2A
  const MCtrl: bv8 := 0x2B
  const JCtrl: bv8 := 0x2C
  const TCtrl: bv8 := 0x2D

  // Command bytes
  const Control2TestCmd: bv8 := 0x84
  const AgcMaxSensitivityCmd: bv8 := 0x3F
  const TCtrlScaling908Cmd: bv8 := 0x0A
  const TCtrlScaling100Cmd: bv8 := 0x09
  const Control1ResetCmd: bv8 := 0x88
  const InvertSpinningCmd: bv8 := 0x86

  /** The two addresses the board jumper can select. */
  predicate DocumentedSlave(a: bv8) {
    a == I2cAddress0 || a == I2cAddress1
  }

  /** The registers the named configuration operations may write. */
  const ConfigRegisters: set<bv8> := {Control1, Control2, Agc, TCtrl}

  /** Low-power timebase, in milliseconds, indexed by the 3-bit timing code. */
  const LowPowerTimingsMs: seq<int> := [20, 40, 80, 100, 140, 200, 260, 320]

  /** Scale factor of T_CTRL in tenths of a percent, indexed by code; code 0 is
      not documented and is held as 0 here. */
  const ScalingTenthsPercent: seq<int> :=
    [0, 5000, 3334, 2500, 2000, 1666, 1428, 1250, 1111, 1000, 908,
     834, 770, 715, 666, 625, 588, 555, 525, 500, 477,
     455, 436, 416, 400, 385, 371, 357, 346, 334, 322, 313]

  /** The timebase selected by a timing code, after the driver's `% 8`. */
  function LowPowerTimingMs(timings: bv8): (ms: int)
    ensures ms in LowPowerTimingsMs
    ensures 20 <= ms <= 320
  {
    LowPowerTimingsMs[(timings % 8) as int]
  }

  /** The documented scale factor of a T_CTRL code, if it has one. */
  function ScalingOf(code: bv8): (tenths: int)
    ensures 1 <= code < 32 <==> tenths > 0
    ensures 1 <= code < 32 ==> 313 <= tenths <= 5000
  {
    if 1 <= code < 32 then ScalingTenthsPercent[code as int] else 0
  }

  /** There are exactly eight timings, one per value of a three-bit field,
      and a larger code selects a strictly longer period. */
  lemma TimingTableShape()
    ensures |LowPowerTimingsMs| == 8
    ensures forall i, j :: 0 <= i < j < 8 ==> LowPowerTimingsMs[i] < LowPowerTimingsMs[j]
  {
  }

  /** Code 9 is the 100 % command and code 10 the 90.8 % command. */
  lemma ScalingCommands()
    ensures ScalingOf(TCtrlScaling100Cmd) == 1000
    ensures ScalingOf(TCtrlScaling908Cmd) == 908
  {
  }

  /** Adjacent documented codes have strictly decreasing scale factors. */
  lemma ScalingStepsDown(i: int)
    requires 1 <= i < 31
    ensures ScalingTenthsPercent[i] > ScalingTenthsPercent[i + 1]
  {
  }

  /** Over all documented codes, a larger code selects a strictly smaller
      scale factor. */
  lemma {:induction false} ScalingDecreasing(i: int, j: int)
    requires 1 <= i < j < 32
    ensures ScalingTenthsPercent[i] > ScalingTenthsPercent[j]
    decreases j - i
  {
    ScalingStepsDown(i);
    if i + 1 < j {
      ScalingDecreasing(i + 1, j);
    }
  }
}
