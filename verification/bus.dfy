/** The I2C side of the driver, seen from outside: the session bound at
    initialisation, the bus events the hardware layer puts on the wire, and an
    abstract device that answers register reads and stores register writes. */
module Bus {

  /** How a hardware-layer write or read ends: with a STOP condition, or with
      a repeated START that keeps the bus for the next phase. */
  datatype EndMode = Stop | Restart

  /** One bus event. `Start` is the START condition issued before every
      transaction; `Write` and `Read` are one addressed phase each. */
  datatype Event =
    | Start
    | Write(slave: bv8, bytes: seq<bv8>, end: EndMode)
    | Read(slave: bv8, count: nat, end: EndMode)

  /** The driver's file-scope state: the slave address bound at init. */
  datatype Session = Session(slave: bv8)

  /** The device's register file, keyed by register address as a number,
      together with the bus trace so far. */
  datatype Device = Device(regs: map<int, bv8>, trace: seq<Event>)

  /** What a read of an address the register file does not hold returns: the
      pulled-up, undriven data line. */
  const Undriven: bv8 := 0xFF

  /** The byte the device answers for register `a`. */
  function Peek(regs: map<int, bv8>, a: bv8): bv8 {
    if a as int in regs then regs[a as int] else Undriven
  }

  /** The register file after the device stores `v` in register `a`. */
  function Store(regs: map<int, bv8>, a: bv8, v: bv8): (regs': map<int, bv8>)
    ensures Peek(regs', a) == v
    ensures forall b :: b != a ==> Peek(regs', b) == Peek(regs, b)
  {
    regs[a as int := v]
  }

  /** The events of one register write: START, then the address and data
      bytes in a single write ended by STOP. */
  function WriteFrame(slave: bv8, registerAddress: bv8, dataWrite: bv8): seq<Event> {
    [Start, Write(slave, [registerAddress, dataWrite], Stop)]
  }

  /** The events of one register read: START, a one-byte address write ended
      by a repeated START, then a one-byte read ended by STOP. */
  function ReadFrame(slave: bv8, registerAddress: bv8): seq<Event> {
    [Start, Write(slave, [registerAddress], Restart), Read(slave, 1, Stop)]
  }

  /** A trace that splits into whole register transactions: each is either a
      two-byte write ended by STOP, or a one-byte address write ended by a
      repeated START followed by a one-byte read of the same slave ended by
      STOP. In particular no read ever follows a STOP directly. */
  predicate Framed(t: seq<Event>)
    decreases |t|
  {
    if t == [] then true
    else if |t| >= 2 && t[0].Start? && t[1].Write? && |t[1].bytes| == 2 && t[1].end == Stop then
      Framed(t[2..])
    else if |t| >= 3 && t[0].Start? && t[1].Write? && |t[1].bytes| == 1 && t[1].end == Restart
      && t[2] == Read(t[1].slave, 1, Stop) then
      Framed(t[3..])
    else false
  }

  /** Every addressed event of `t` goes to `slave`. */
  predicate AddressedTo(t: seq<Event>, slave: bv8) {
    forall i :: 0 <= i < |t| ==> t[i].Start? || t[i].slave == slave
  }

  /** A write frame is one whole transaction to its slave. */
  lemma WriteFrameWellFormed(slave: bv8, registerAddress: bv8, dataWrite: bv8)
    ensures Framed(WriteFrame(slave, registerAddress, dataWrite))
    ensures AddressedTo(WriteFrame(slave, registerAddress, dataWrite), slave)
  {
    assert WriteFrame(slave, registerAddress, dataWrite)[2..] == [];
  }

  /** A read frame is one whole transaction to its slave. */
  lemma ReadFrameWellFormed(slave: bv8, registerAddress: bv8)
    ensures Framed(ReadFrame(slave, registerAddress))
    ensures AddressedTo(ReadFrame(slave, registerAddress), slave)
  {
    assert ReadFrame(slave, registerAddress)[3..] == [];
  }

  /** Whole transactions followed by whole transactions are whole
      transactions. */
  lemma {:induction false} FramedAppend(a: seq<Event>, b: seq<Event>)
    requires Framed(a) && Framed(b)
    ensures Framed(a + b)
    decreases |a|
  {
    if a == [] {
      assert a + b == b;
    } else if |a| >= 2 && a[0].Start? && a[1].Write? && |a[1].bytes| == 2 && a[1].end == Stop {
      FramedAppend(a[2..], b);
      assert (a + b)[2..] == a[2..] + b;
    } else {
      FramedAppend(a[3..], b);
      assert (a + b)[3..] == a[3..] + b;
    }
  }

  /** Addressing is preserved by concatenation. */
  lemma AddressedAppend(a: seq<Event>, b: seq<Event>, slave: bv8)
    requires AddressedTo(a, slave) && AddressedTo(b, slave)
    ensures AddressedTo(a + b, slave)
  {
    forall i | 0 <= i < |a + b|
      ensures (a + b)[i].Start? || (a + b)[i].slave == slave
    {
      if i >= |a| {
        assert (a + b)[i] == b[i - |a|];
      }
    }
  }

  /** Every read phase of a framed trace directly follows a one-byte address
      write to the same slave that ended with a repeated START, never a STOP. */
  lemma {:induction false} FramedReadsFollowRestart(t: seq<Event>, i: int)
    requires Framed(t)
    requires 0 <= i < |t| && t[i].Read?
    ensures i >= 1 && t[i - 1].Write? && t[i - 1].end == Restart
    ensures |t[i - 1].bytes| == 1 && t[i - 1].slave == t[i].slave
    ensures t[i].count == 1 && t[i].end == Stop
    decreases |t|
  {
    if |t| >= 2 && t[0].Start? && t[1].Write? && |t[1].bytes| == 2 && t[1].end == Stop {
      assert i >= 2;
      FramedReadsFollowRestart(t[2..], i - 2);
    } else {
      if i >= 3 {
        FramedReadsFollowRestart(t[3..], i - 3);
      }
    }
  }

  /** `t'` is `t` followed by whole transactions addressed to `slave`. */
  predicate Extends(slave: bv8, t: seq<Event>, t': seq<Event>) {
    t <= t' && Framed(t'[|t|..]) && AddressedTo(t'[|t|..], slave)
  }

  /** Appending one register write extends a trace. */
  lemma ExtendsByWrite(slave: bv8, t: seq<Event>, registerAddress: bv8, dataWrite: bv8)
    ensures Extends(slave, t, t + WriteFrame(slave, registerAddress, dataWrite))
  {
    WriteFrameWellFormed(slave, registerAddress, dataWrite);
    assert (t + WriteFrame(slave, registerAddress, dataWrite))[|t|..] == WriteFrame(slave, registerAddress, dataWrite);
  }

  /** Appending one register read extends a trace. */
  lemma ExtendsByRead(slave: bv8, t: seq<Event>, registerAddress: bv8)
    ensures Extends(slave, t, t + ReadFrame(slave, registerAddress))
  {
    ReadFrameWellFormed(slave, registerAddress);
    assert (t + ReadFrame(slave, registerAddress))[|t|..] == ReadFrame(slave, registerAddress);
  }

  /** Extension is transitive. */
  lemma ExtendsTrans(slave: bv8, t1: seq<Event>, t2: seq<Event>, t3: seq<Event>)
    requires Extends(slave, t1, t2) && Extends(slave, t2, t3)
    ensures Extends(slave, t1, t3)
  {
    assert t3[|t1|..] == t2[|t1|..] + t3[|t2|..];
    FramedAppend(t2[|t1|..], t3[|t2|..]);
    AddressedAppend(t2[|t1|..], t3[|t2|..], slave);
  }
}
