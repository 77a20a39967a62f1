/** A session of driver calls: any sequence of the public register
    operations, run one after another against the same device. This is where
    the properties that hold for every transaction of a session are proved. */
module Commands {
  import opened Bytes
  import opened Registers
  import opened Bus
  import D = Driver

  /** One public driver call, with its arguments. */
  datatype Command =
    | WriteByte(registerAddress: bv8, dataWrite: bv8)
    | ReadByte(registerAddress: bv8)
    | SetDefaultConfiguration
    | CheckIdCode
    | CheckIdVersion
    | SetLowPowerMode(timings: bv8)
    | SetScalingFactor(scalingFactor: bv8)
    | DisabledInterrupt
    | EnabledInterrupt
    | InvertSpinning
    | GetPosition
    | SoftReset

  /** The registers a call may write. */
  function Touches(c: Command): set<bv8> {
    match c
    case WriteByte(a, _) => {a}
    case SetDefaultConfiguration => ConfigRegisters
    case SetLowPowerMode(_) => {Control1}
    case DisabledInterrupt => {Control1}
    case EnabledInterrupt => {Control1}
    case SoftReset => {Control1}
    case SetScalingFactor(_) => {TCtrl}
    case InvertSpinning => {Control2}
    case _ => {}
  }

  /** The values the API documents for a call's C return value (0 for the
      `void` calls): a signed byte, an OK/ERROR flag, or a position code. */
  predicate Documented(c: Command, v: int) {
    match c
    case ReadByte(_) => -128 <= v <= 127
    case CheckIdCode => v == 0 || v == 1
    case CheckIdVersion => v == 0 || v == 1
    case GetPosition => 0 <= v <= 8
    case _ => v == 0
  }

  /** One call: its C return value and the device after it. The value is in
      the call's documented range and no register outside `Touches(c)` is
      written. */
  function Step(s: Session, d: Device, c: Command): (r: (int, Device))
    ensures Documented(c, r.0)
    ensures forall a :: a !in Touches(c) ==> Peek(r.1.regs, a) == Peek(d.regs, a)
  {
    match c
    case WriteByte(a, v) => (0, D.WriteByte(s, d, a, v))
    case ReadByte(a) =>
      var (b, d') := D.ReadByte(s, d, a);
      (ToSigned(b), d')
    case SetDefaultConfiguration => (0, D.SetDefaultConfiguration(s, d))
    case CheckIdCode => D.CheckIdCode(s, d)
    case CheckIdVersion => D.CheckIdVersion(s, d)
    case SetLowPowerMode(timings) => (0, D.SetLowPowerMode(s, d, timings))
    case SetScalingFactor(f) => (0, D.SetScalingFactor(s, d, f))
    case DisabledInterrupt => (0, D.DisabledInterrupt(s, d))
    case EnabledInterrupt => (0, D.EnabledInterrupt(s, d))
    case InvertSpinning => (0, D.InvertSpinning(s, d))
    case GetPosition => D.GetPosition(s, d)
    case SoftReset => (0, D.SoftReset(s, d))
  }

  /** Every call adds only whole transactions, all addressed to the bound
      slave. */
  lemma StepExtends(s: Session, d: Device, c: Command)
    ensures Extends(s.slave, d.trace, Step(s, d, c).1.trace)
  {
    var t := d.trace;
    match c
    case WriteByte(a, v) =>
      ExtendsByWrite(s.slave, t, a, v);
    case ReadByte(a) =>
      ExtendsByRead(s.slave, t, a);
    case SetDefaultConfiguration =>
      DefaultConfigurationExtends(s, d);
    case CheckIdCode =>
      ExtendsByRead(s.slave, t, IdCode);
    case CheckIdVersion =>
      ExtendsByRead(s.slave, t, IdVersion);
    case SetLowPowerMode(timings) =>
      Control1Update(s.slave, t, Peek(D.SetLowPowerMode(s, d, timings).regs, Control1));
    case SetScalingFactor(f) =>
      ExtendsByWrite(s.slave, t, TCtrl, Peek(D.SetScalingFactor(s, d, f).regs, TCtrl));
    case DisabledInterrupt =>
      Control1Update(s.slave, t, Peek(D.DisabledInterrupt(s, d).regs, Control1));
    case EnabledInterrupt =>
      Control1Update(s.slave, t, Peek(D.EnabledInterrupt(s, d).regs, Control1));
    case InvertSpinning =>
      ExtendsByWrite(s.slave, t, Control2, 0x86);
    case GetPosition =>
      GetPositionExtends(s, d);
    case SoftReset =>
      Control1Update(s.slave, t, Peek(D.SoftReset(s, d).regs, Control1));
  }

  /** The default configuration adds five whole transactions. */
  lemma DefaultConfigurationExtends(s: Session, d: Device)
    ensures Extends(s.slave, d.trace, D.SetDefaultConfiguration(s, d).trace)
  {
    var t := d.trace;
    var w := 0x88 | (Peek(d.regs, Control1) & 0x01);
    var t1 := t + WriteFrame(s.slave, Control2, 0x84);
    var t2 := t1 + WriteFrame(s.slave, Agc, 0x3F);
    var t3 := t2 + WriteFrame(s.slave, TCtrl, 0x0A);
    var t4 := t3 + ReadFrame(s.slave, Control1);
    ExtendsByWrite(s.slave, t, Control2, 0x84);
    ExtendsByWrite(s.slave, t1, Agc, 0x3F);
    ExtendsTrans(s.slave, t, t1, t2);
    ExtendsByWrite(s.slave, t2, TCtrl, 0x0A);
    ExtendsTrans(s.slave, t, t2, t3);
    ExtendsByRead(s.slave, t3, Control1);
    ExtendsTrans(s.slave, t, t3, t4);
    ExtendsByWrite(s.slave, t4, Control1, w);
    ExtendsTrans(s.slave, t, t4, t4 + WriteFrame(s.slave, Control1, w));
  }

  /** Reading the position adds two whole read transactions. */
  lemma GetPositionExtends(s: Session, d: Device)
    ensures Extends(s.slave, d.trace, D.GetPosition(s, d).1.trace)
  {
    var t1 := d.trace + ReadFrame(s.slave, X);
    ExtendsByRead(s.slave, d.trace, X);
    ExtendsByRead(s.slave, t1, YResInt);
    ExtendsTrans(s.slave, d.trace, t1, t1 + ReadFrame(s.slave, YResInt));
  }

  /** A read of Control 1 followed by a write of it extends a trace. */
  lemma Control1Update(slave: bv8, t: seq<Event>, w: bv8)
    ensures Extends(slave, t, t + ReadFrame(slave, Control1) + WriteFrame(slave, Control1, w))
  {
    ExtendsByRead(slave, t, Control1);
    ExtendsByWrite(slave, t + ReadFrame(slave, Control1), Control1, w);
    ExtendsTrans(slave, t, t + ReadFrame(slave, Control1), t + ReadFrame(slave, Control1) + WriteFrame(slave, Control1, w));
  }

  /** The registers a sequence of calls may write. */
  function Touched(cmds: seq<Command>): set<bv8>
    decreases |cmds|
  {
    if cmds == [] then {} else Touches(cmds[0]) + Touched(cmds[1..])
  }

  /** A session: the calls run in order against the same device, returning
      each call's C return value and the final device. Whatever the calls,
      every value is in its documented range, the trace only grows, and what
      it grows by is whole transactions addressed to the bound slave. */
  function Run(s: Session, d: Device, cmds: seq<Command>): (r: (seq<int>, Device))
    ensures |r.0| == |cmds|
    ensures forall i :: 0 <= i < |cmds| ==> Documented(cmds[i], r.0[i])
    ensures Extends(s.slave, d.trace, r.1.trace)
    ensures forall a :: a !in Touched(cmds) ==> Peek(r.1.regs, a) == Peek(d.regs, a)
    decreases |cmds|
  {
    if cmds == [] then
      assert d.trace[|d.trace|..] == [];
      ([], d)
    else
      var (v, d1) := Step(s, d, cmds[0]);
      var (vs, d2) := Run(s, d1, cmds[1..]);
      StepExtends(s, d, cmds[0]);
      ExtendsTrans(s.slave, d.trace, d1.trace, d2.trace);
      ([v] + vs, d2)
  }

  /** A call other than a raw register write. */
  predicate Named(c: Command) {
    !c.WriteByte?
  }

  /** Named calls only ever write the four configuration registers. */
  lemma {:induction false} NamedCallsTouchConfigOnly(cmds: seq<Command>)
    requires forall i :: 0 <= i < |cmds| ==> Named(cmds[i])
    ensures Touched(cmds) <= ConfigRegisters
    decreases |cmds|
  {
    if cmds != [] {
      NamedCallsTouchConfigOnly(cmds[1..]);
    }
  }

  /** A session of named calls writes no register outside the four
      configuration registers; on the abstract device those keep their
      values. The four named clauses are instances of the first, kept so
      the identity and axis registers can be read off directly. */
  lemma {:induction false} NamedCallsKeepMeasurements(s: Session, d: Device, cmds: seq<Command>)
    requires forall i :: 0 <= i < |cmds| ==> Named(cmds[i])
    ensures forall a :: a !in ConfigRegisters ==> Peek(Run(s, d, cmds).1.regs, a) == Peek(d.regs, a)
    ensures Peek(Run(s, d, cmds).1.regs, X) == Peek(d.regs, X)
    ensures Peek(Run(s, d, cmds).1.regs, YResInt) == Peek(d.regs, YResInt)
    ensures Peek(Run(s, d, cmds).1.regs, IdCode) == Peek(d.regs, IdCode)
    ensures Peek(Run(s, d, cmds).1.regs, IdVersion) == Peek(d.regs, IdVersion)
  {
    NamedCallsTouchConfigOnly(cmds);
  }

  /** Every transaction of a session goes to the address bound at init. The
      second clause follows from the first and the documented address; it
      is kept to spell out the two addresses. */
  lemma SessionUsesBoundAddress(slave: bv8, d: Device, cmds: seq<Command>)
    requires DocumentedSlave(slave)
    ensures var t := Run(D.I2cDriverInit(slave), d, cmds).1.trace;
      AddressedTo(t[|d.trace|..], slave)
      && (forall i :: |d.trace| <= i < |t| && !t[i].Start? ==> t[i].slave == I2cAddress0 || t[i].slave == I2cAddress1)
  {
    var t := Run(D.I2cDriverInit(slave), d, cmds).1.trace;
    forall i | |d.trace| <= i < |t| && !t[i].Start?
      ensures t[i].slave == I2cAddress0 || t[i].slave == I2cAddress1
    {
      assert t[|d.trace|..][i - |d.trace|] == t[i];
    }
  }
}
