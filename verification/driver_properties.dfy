/** Properties that relate several driver calls, or a driver call to the
    documented tables. */
module DriverProperties {
  import opened Bytes
  import opened Registers
  import opened Bus
  import opened Driver

  /** On the abstract device, which changes a register only when the driver
      writes it, a register read after a write of the same register returns
      the written bits, and the C caller sees them as the matching signed
      byte. */
  lemma ReadAfterWrite(s: Session, d: Device, a: bv8, v: bv8)
    ensures ReadByte(s, WriteByte(s, d, a, v), a).0 == v
    ensures ToSigned(ReadByte(s, WriteByte(s, d, a, v), a).0) % 256 == v as int
  {
  }

  /** The default configuration is the three fixed writes followed by exactly
      the soft-reset sequence. */
  lemma DefaultConfigurationEndsWithSoftReset(s: Session, d: Device)
    ensures SetDefaultConfiguration(s, d)
         == SoftReset(s, WriteByte(s, WriteByte(s, WriteByte(s, d, Control2, 0x84), Agc, 0x3F), TCtrl, 0x0A))
  {
  }

  /** On the abstract device, which applies no soft reset of its own, the
      default configuration leaves the documented 90.8 % scale selected. */
  lemma DefaultConfigurationScale(s: Session, d: Device)
    ensures ScalingOf(Peek(SetDefaultConfiguration(s, d).regs, TCtrl)) == 908
  {
  }

  /** Soft reset is idempotent on the register file. */
  lemma SoftResetIdempotent(s: Session, d: Device)
    ensures SoftReset(s, SoftReset(s, d)).regs == SoftReset(s, d).regs
  {
  }

  /** The timing argument only matters modulo 8: the three-bit timebase
      field has exactly the eight documented settings. */
  lemma LowPowerModeWraps(s: Session, d: Device, timings: bv8)
    ensures SetLowPowerMode(s, d, timings) == SetLowPowerMode(s, d, timings % 8)
    ensures SetLowPowerMode(s, d, 10) == SetLowPowerMode(s, d, 2)
  {
  }

  /** When the timebase field reads as 0, the field written selects exactly
      the documented timing of the argument. */
  lemma LowPowerModeFromClearedField(s: Session, d: Device, timings: bv8)
    requires Field4to6(Peek(d.regs, Control1)) == 0
    ensures LowPowerTimingsMs[Field4to6(Peek(SetLowPowerMode(s, d, timings).regs, Control1)) as int]
         == LowPowerTimingMs(timings)
  {
  }

  /** Because the timing is ORed into the field, a Control 1 holding its
      documented reset value 0xF0 ends with the slowest timebase, 320 ms,
      whatever timing is asked for. */
  lemma LowPowerModeAfterResetValue(s: Session, d: Device, timings: bv8)
    requires Peek(d.regs, Control1) == 0xF0
    ensures Field4to6(Peek(SetLowPowerMode(s, d, timings).regs, Control1)) == 7
    ensures LowPowerTimingsMs[Field4to6(Peek(SetLowPowerMode(s, d, timings).regs, Control1)) as int] == 320
  {
  }

  /** Every factor of 32 or more behaves exactly like the 100 % code 9. */
  lemma ScalingFactorSaturates(s: Session, d: Device, scalingFactor: bv8)
    requires scalingFactor >= 32
    ensures SetScalingFactor(s, d, scalingFactor) == SetScalingFactor(s, d, TCtrlScaling100Cmd)
  {
  }

  /** On the abstract device, which applies no soft reset of its own,
      disabling the interrupt right after enabling it leaves bit 2 of
      Control 1 set: the disable path writes bit 2 as read instead of
      clearing it. */
  lemma EnableThenDisableKeepsBit2(s: Session, d: Device)
    ensures Peek(DisabledInterrupt(s, EnabledInterrupt(s, d)).regs, Control1) == 0x8C
  {
  }

  /** Enabling the interrupt twice writes the same Control 1 value as once. */
  lemma EnabledInterruptIdempotent(s: Session, d: Device)
    ensures EnabledInterrupt(s, EnabledInterrupt(s, d)).regs == EnabledInterrupt(s, d).regs
  {
  }

  /** The identity checks distinguish the bit pattern, not just the signed
      value: 0x8C is negative as a signed byte and fails the check. */
  lemma IdCheckExamples(s: Session, d: Device)
    ensures Peek(d.regs, IdCode) == 0x0C ==> CheckIdCode(s, d).0 == 1
    ensures Peek(d.regs, IdCode) == 0x8C ==> CheckIdCode(s, d).0 == 0
    ensures Peek(d.regs, IdVersion) == 0x0D ==> CheckIdVersion(s, d).0 == 1
  {
  }

  /** The default configuration writes neither axis result register, so on
      the abstract device the position read after it is the position read
      before it. */
  lemma ConfigurationKeepsPosition(s: Session, d: Device)
    ensures GetPosition(s, SetDefaultConfiguration(s, d)).0 == GetPosition(s, d).0
  {
  }
}
