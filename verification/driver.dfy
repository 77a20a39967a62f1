/** The register driver: the two framing primitives and the named operations
    built on them. Each operation takes the bound session and the device and
    returns the device after its transactions; operations with a C return
    value return it first in a pair. */
module Driver {
  import opened Bytes
  import opened Registers
  import opened Bus
  import Position

  /** `joystick_i2cDriverInit`: binds the slave address every later
      transaction uses. The address is stored as given. */
  function I2cDriverInit(slave: bv8): (s: Session)
    ensures s.slave == slave
  {
    Session(slave)
  }

  /** `joystick_writeByte`: one START and one two-byte write, ended by STOP,
      after which the device holds `dataWrite` in `registerAddress`. */
  function WriteByte(s: Session, d: Device, registerAddress: bv8, dataWrite: bv8): (d': Device)
    ensures d'.trace == d.trace + WriteFrame(s.slave, registerAddress, dataWrite)
    ensures Peek(d'.regs, registerAddress) == dataWrite
    ensures forall a :: a != registerAddress ==> Peek(d'.regs, a) == Peek(d.regs, a)
  {
    var buffer := [registerAddress, dataWrite];
    Device(Store(d.regs, registerAddress, dataWrite), d.trace + [Start, Write(s.slave, buffer, Stop)])
  }

  /** `joystick_readByte`: START, a one-byte address write ended by a
      repeated START, and a one-byte read ended by STOP. The result is the
      register's bit pattern; the C function's `int8_t` value is
      `ToSigned` of it. */
  function ReadByte(s: Session, d: Device, registerAddress: bv8): (r: (bv8, Device))
    ensures r.0 == Peek(d.regs, registerAddress)
    ensures r.1.regs == d.regs
    ensures r.1.trace == d.trace + ReadFrame(s.slave, registerAddress)
  {
    var writeReg := [registerAddress];
    var trace := d.trace + [Start, Write(s.slave, writeReg, Restart), Read(s.slave, 1, Stop)];
    (Peek(d.regs, registerAddress), Device(d.regs, trace))
  }

  /** `joystick_softReset`: read Control 1, keep bit 0 and write it back
      together with the reset command bits 3 and 7; all other bits are
      cleared. */
  function SoftReset(s: Session, d: Device): (d': Device)
    ensures var r := Peek(d.regs, Control1); var w := Peek(d'.regs, Control1);
      w & 0x01 == r & 0x01 && w & 0x88 == 0x88 && w & 0x76 == 0
    ensures forall a :: a != Control1 ==> Peek(d'.regs, a) == Peek(d.regs, a)
    ensures d'.trace == d.trace + ReadFrame(s.slave, Control1)
      + WriteFrame(s.slave, Control1, Peek(d'.regs, Control1))
  {
    var (buffer, d1) := ReadByte(s, d, Control1);
    WriteByte(s, d1, Control1, Control1ResetCmd | (buffer & 0x01))
  }

  /** `joystick_setDefaultConfiguration`: the Control 2 test bits, maximum AGC
      sensitivity and the 90.8 % scale, then a soft reset of Control 1. The
      three writes do not touch Control 1, so the bit 0 that survives is the
      one the device held on entry. */
  function SetDefaultConfiguration(s: Session, d: Device): (d': Device)
    ensures Peek(d'.regs, Control2) == 0x84
    ensures Peek(d'.regs, Agc) == 0x3F
    ensures Peek(d'.regs, TCtrl) == 0x0A
    ensures Peek(d'.regs, Control1) == 0x88 | (Peek(d.regs, Control1) & 0x01)
    ensures forall a :: a !in ConfigRegisters ==> Peek(d'.regs, a) == Peek(d.regs, a)
    ensures d'.trace == d.trace
      + WriteFrame(s.slave, Control2, 0x84)
      + WriteFrame(s.slave, Agc, 0x3F)
      + WriteFrame(s.slave, TCtrl, 0x0A)
      + ReadFrame(s.slave, Control1)
      + WriteFrame(s.slave, Control1, 0x88 | (Peek(d.regs, Control1) & 0x01))
  {
    var d1 := WriteByte(s, d, Control2, Control2TestCmd);
    var d2 := WriteByte(s, d1, Agc, AgcMaxSensitivityCmd);
    var d3 := WriteByte(s, d2, TCtrl, TCtrlScaling908Cmd);
    var (tempData, d4) := ReadByte(s, d3, Control1);
    WriteByte(s, d4, Control1, Control1ResetCmd | (tempData & 0x01))
  }

  /** `joystick_checkIdCode`: 1 when the ID code register reads back as its
      own address 0x0C, else 0. The C code compares the signed read with the
      constant; the two agree exactly when the bits are 0x0C. */
  function CheckIdCode(s: Session, d: Device): (r: (int, Device))
    ensures r.0 == 0 || r.0 == 1
    ensures r.0 == 1 <==> Peek(d.regs, IdCode) == 0x0C
    ensures r.1.regs == d.regs
    ensures r.1.trace == d.trace + ReadFrame(s.slave, IdCode)
  {
    var (v, d1) := ReadByte(s, d, IdCode);
    (if ToSigned(v) == IdCode as int then 1 else 0, d1)
  }

  /** `joystick_checkIdVersion`: 1 when the ID version register reads back as
      its own address 0x0D, else 0. */
  function CheckIdVersion(s: Session, d: Device): (r: (int, Device))
    ensures r.0 == 0 || r.0 == 1
    ensures r.0 == 1 <==> Peek(d.regs, IdVersion) == 0x0D
    ensures r.1.regs == d.regs
    ensures r.1.trace == d.trace + ReadFrame(s.slave, IdVersion)
  {
    var (v, d1) := ReadByte(s, d, IdVersion);
    (if ToSigned(v) == IdVersion as int then 1 else 0, d1)
  }

  /** `joystick_setLowPowerMode`: the timing is taken modulo 8, bit 7 of
      Control 1 is cleared, bits 0..3 are kept, and the timing is ORed into
      bits 4..6 on top of what they already held. */
  function SetLowPowerMode(s: Session, d: Device, timings: bv8): (d': Device)
    ensures var r := Peek(d.regs, Control1); var w := Peek(d'.regs, Control1);
      w & 0x80 == 0 && w & 0x0F == r & 0x0F && Field4to6(w) == Field4to6(r) | (timings % 8)
    ensures forall a :: a != Control1 ==> Peek(d'.regs, a) == Peek(d.regs, a)
    ensures d'.trace == d.trace + ReadFrame(s.slave, Control1)
      + WriteFrame(s.slave, Control1, Peek(d'.regs, Control1))
  {
    var t := timings % 8;
    var (tempData, d1) := ReadByte(s, d, Control1);
    var updated := (tempData & 0x7F) | (t << 4);
    WriteByte(s, d1, Control1, updated)
  }

  /** `joystick_setScalingFactor`: a factor below 32 goes to T_CTRL as given;
      anything larger is replaced by the 100 % code 9. */
  function SetScalingFactor(s: Session, d: Device, scalingFactor: bv8): (d': Device)
    ensures Peek(d'.regs, TCtrl) < 32
    ensures scalingFactor < 32 ==> Peek(d'.regs, TCtrl) == scalingFactor
    ensures scalingFactor >= 32 ==> ScalingOf(Peek(d'.regs, TCtrl)) == 1000
    ensures forall a :: a != TCtrl ==> Peek(d'.regs, a) == Peek(d.regs, a)
    ensures d'.trace == d.trace + WriteFrame(s.slave, TCtrl, Peek(d'.regs, TCtrl))
  {
    if scalingFactor < 32 then
      WriteByte(s, d, TCtrl, scalingFactor)
    else
      WriteByte(s, d, TCtrl, TCtrlScaling100Cmd)
  }

  /** `joystick_disabledInterrupt`: Control 1 is rewritten with bits 3 and 7
      set, bit 2 as it was read, and every other bit cleared. */
  function DisabledInterrupt(s: Session, d: Device): (d': Device)
    ensures var r := Peek(d.regs, Control1); var w := Peek(d'.regs, Control1);
      w & 0x04 == r & 0x04 && w & 0x88 == 0x88 && w & 0x73 == 0
    ensures forall a :: a != Control1 ==> Peek(d'.regs, a) == Peek(d.regs, a)
    ensures d'.trace == d.trace + ReadFrame(s.slave, Control1)
      + WriteFrame(s.slave, Control1, Peek(d'.regs, Control1))
  {
    var (tempData, d1) := ReadByte(s, d, Control1);
    WriteByte(s, d1, Control1, Control1ResetCmd | (tempData & 0x04))
  }

  /** `joystick_enabledInterrupt`: Control 1 is rewritten with bits 2, 3 and
      7 set and every other bit as it was read. */
  function EnabledInterrupt(s: Session, d: Device): (d': Device)
    ensures var r := Peek(d.regs, Control1); var w := Peek(d'.regs, Control1);
      w & 0x8C == 0x8C && w & 0x73 == r & 0x73
    ensures forall a :: a != Control1 ==> Peek(d'.regs, a) == Peek(d.regs, a)
    ensures d'.trace == d.trace + ReadFrame(s.slave, Control1)
      + WriteFrame(s.slave, Control1, Peek(d'.regs, Control1))
  {
    var (tempData, d1) := ReadByte(s, d, Control1);
    WriteByte(s, d1, Control1, Control1ResetCmd | (tempData | 0x04))
  }

  /** `joystick_invertSpinning`: a single write of the invert command 0x86 to
      Control 2. */
  function InvertSpinning(s: Session, d: Device): (d': Device)
    ensures Peek(d'.regs, Control2) == 0x86
    ensures forall a :: a != Control2 ==> Peek(d'.regs, a) == Peek(d.regs, a)
    ensures d'.trace == d.trace + WriteFrame(s.slave, Control2, 0x86)
  {
    WriteByte(s, d, Control2, InvertSpinningCmd)
  }

  /** `joystick_getPosition`: read X, then Y_RES_INT, each as a signed byte,
      and classify the pair. */
  function GetPosition(s: Session, d: Device): (r: (int, Device))
    ensures 0 <= r.0 <= 8
    ensures r.0 == Position.Classify(ToSigned(Peek(d.regs, X)), ToSigned(Peek(d.regs, YResInt)))
    ensures r.1.regs == d.regs
    ensures r.1.trace == d.trace + ReadFrame(s.slave, X) + ReadFrame(s.slave, YResInt)
  {
    var (rx, d1) := ReadByte(s, d, X);
    var (ry, d2) := ReadByte(s, d1, YResInt);
    (Position.Classify(ToSigned(rx), ToSigned(ry)), d2)
  }
}
