# AS5013 joystick driver — Dafny model

This project models the core of the Joystick click driver for the AS5013
Hall-effect joystick IC: the I2C register driver and the position classifier
in `library/__joystick_driver.c`, with the API contracts documented in
`library/__joystick_driver.h`.

- `bytes.dfy` (`Bytes`): C's `int8_t` as the subset type `Int8`, and the
  `uint8_t` to `int8_t` reinterpretation `ToSigned`. The driver's read
  primitive returns `int8_t`. Every caller except the classifier and the two
  ID checks stores the result straight back into a `uint8_t`. That round trip keeps the bits,
  so the model keeps register contents as `bv8`. It reads them as signed
  only where the C code compares or classifies the signed value.
- `registers.dfy` (`Registers`): the two slave addresses, the 15 register
  addresses, the six command bytes, and the documented low-power timebase
  and T_CTRL scaling tables.
- `bus.dfy` (`Bus`): the bound session, the bus events (`Start`, one
  addressed `Write` or `Read` phase with its `Stop`/`Restart` ending), and an
  abstract device. The device is a register file plus the trace of events
  so far. A register write stores the byte. A register read answers with the
  stored byte; for an address the file does not hold it answers 0xFF, the
  value of an undriven, pulled-up data line. `Framed` says a trace splits
  into whole register transactions.
- `driver.dfy` (`Driver`): `joystick_writeByte`, `joystick_readByte` and every
  named operation as a pure function from session and device to device (and
  the C return value, where there is one).
- `position.dfy` (`Position`): the classifier over two signed readings. Codes
  are plain numbers 0..8, and the model does not name them as directions.
  The code comments call 6 top-left and 8 bottom-left, while the header's
  code table says the opposite.
- `driver_properties.dfy` (`DriverProperties`): properties that relate
  several calls, or a call to the documented tables.
- `commands.dfy` (`Commands`): a session as any sequence of public calls, and
  the properties every session has.

Points where the header documentation and the code differ; the model follows
the code:
- `joystick_setLowPowerMode` is declared without a parameter but defined
  with `uint8_t timings`.
- The timing is ORed into bits 4..6 of Control 1, not written over them.
  After the documented Control 1 reset value 0xF0, every timing therefore
  selects field value 7 (320 ms); see `LowPowerModeAfterResetValue`.
- `joystick_disabledInterrupt` is documented to disable the interrupt
  output. The value it writes to Control 1 has bit 2 equal to the bit it
  read, not cleared (`Driver.DisabledInterrupt`).
- The comment on the 0x09 scaling command says 90.8 %, but the header's
  table gives code 9 as 100 % (`ScalingCommands`).
- The ID checks compare the register with its own address (0x0C, 0x0D). The
  C code compares the signed read with the unsigned constant, and that
  matches exactly when the bits equal the constant.

## Model

| member | source | states |
|---|---|---|
| Bytes.ToSigned | library/__joystick_driver.c:146-161 | the `int8_t` a read returns is the unique value in -128..127 (its result type) with the register's residue mod 256; it is negative exactly when bit 7 is set |
| Registers.LowPowerTimingMs | library/__joystick_driver.h:173-183 | the timebase selected by any timing argument, after the `% 8` reduction, is one of the eight documented timings, 20..320 ms |
| Registers.ScalingOf | library/__joystick_driver.h:186-224 | a T_CTRL code has a documented scale factor exactly when it is 1..31, and that factor lies between 31.3 % and 500 % |
| Registers.TimingTableShape | library/__joystick_driver.h:173-183 | there are exactly eight timebase settings, one per value of a 3-bit field, strictly increasing with the code |
| Registers.ScalingCommands | library/__joystick_driver.c:70-73 | the 0x09 command is the 100 % setting and the 0x0A command the 90.8 % setting of the documented table |
| Registers.ScalingStepsDown | library/__joystick_driver.h:193-223 | each documented code scales strictly less than the code below it |
| Registers.ScalingDecreasing | library/__joystick_driver.h:193-223 | over all documented codes, a larger code selects a strictly smaller scale factor |
| Bus.FramedReadsFollowRestart | library/__joystick_driver.c:154-156 | in a trace of whole transactions, every read phase directly follows a one-byte address write to the same slave ended by a repeated START, and is a one-byte read ended by STOP |
| Driver.I2cDriverInit | library/__joystick_driver.c:105-112 | the session binds exactly the slave address given, stored as any byte without a check; only `Commands.SessionUsesBoundAddress` restricts it to 0x40/0x41 |
| Driver.WriteByte | library/__joystick_driver.c:134-143 | one START and one two-byte write `[address, data]` to the bound slave ended by STOP; afterwards the register holds the data and no other register changed |
| Driver.ReadByte | library/__joystick_driver.c:146-161 | one address write ended by RESTART then a one-byte read ended by STOP, both to the bound slave; returns the register's bits (the C caller sees `ToSigned` of them) and changes no register |
| Driver.SoftReset | library/__joystick_driver.c:331-339 | Control 1 is read and rewritten with bits 3 and 7 set, bit 0 as read, every other bit cleared; nothing else is written |
| Driver.SetDefaultConfiguration | library/__joystick_driver.c:164-178 | emits, in order, writes (0x2E,0x84), (0x2A,0x3F), (0x2D,0x0A), a read of 0x0F and a write of 0x88 with the original bit 0 of Control 1; only the four configuration registers change |
| Driver.CheckIdCode | library/__joystick_driver.c:181-184 | returns only 1 or 0, and 1 exactly when register 0x0C holds 0x0C; one read transaction, no register changes |
| Driver.CheckIdVersion | library/__joystick_driver.c:187-190 | returns only 1 or 0, and 1 exactly when register 0x0D holds 0x0D; one read transaction, no register changes |
| Driver.SetLowPowerMode | library/__joystick_driver.c:193-204 | the Control 1 value written has bit 7 clear, bits 0..3 as read, and bits 4..6 equal to the bits read ORed with the timing mod 8 |
| Driver.SetScalingFactor | library/__joystick_driver.c:207-213 | T_CTRL always receives a value below 32: the factor itself when it is below 32, otherwise the 100 % code; one write, nothing else changes |
| Driver.DisabledInterrupt | library/__joystick_driver.c:216-224 | the Control 1 value written has bits 3 and 7 set, bit 2 equal to the bit read (kept, not cleared), and every other bit clear |
| Driver.EnabledInterrupt | library/__joystick_driver.c:227-235 | the Control 1 value written has bits 2, 3 and 7 set and every other bit as read, so no set bit is lost |
| Driver.InvertSpinning | library/__joystick_driver.c:238-241 | a single write of 0x86 to Control 2 and no other register change |
| Driver.GetPosition | library/__joystick_driver.c:244-316 | reads X then Y_RES_INT, each as a signed byte, returns the classifier's code for that pair (always 0..8) and changes no register |
| Position.Classify | library/__joystick_driver.c:250-313 | always 0..8; ox <= -60 gives 3 and ox >= 60 gives 7 for any oy; -60 < ox < -20 gives 2 if oy > 20 else 4; 20 < ox < 60 gives 6 if oy < -20 else 8; the top band needs -20 <= ox < 20, the bottom band -20 <= ox <= 20; the centre box gives 0 |
| Position.RulesDisjoint | library/__joystick_driver.c:257-313 | the six rule guards are pairwise disjoint, so at most one assignment fires |
| Position.SequentialIsExclusive | library/__joystick_driver.c:257-313 | the independent `if` rules give the same code as an `else if` chain on every pair of readings |
| Position.ClassifyIsZone | library/__joystick_driver.c:250-313 | the result is `c` if and only if the readings lie in zone `c`; code 0 is the centre box plus the column ox = 20, oy >= 60 |
| Position.ZonesPartition | library/__joystick_driver.c:250-313 | the nine zones cover the whole 256 x 256 domain with no overlap |
| Position.VerticalBandsAsymmetric | library/__joystick_driver.c:269-285 | (20, 70) gives 0, (20, -70) gives 5, (-20, 70) gives 1 and (-20, -70) gives 5 |
| Position.DiagonalsIgnoreMagnitude | library/__joystick_driver.c:287-313 | outside -20..20 in x, the code depends on oy only through which side of +-20 it lies |
| DriverProperties.ReadAfterWrite | library/__joystick_driver.c:134-161 | on the abstract device, which changes a register only when the driver writes it, reading a register just written returns the written bits, and its signed value has the same residue mod 256 |
| DriverProperties.DefaultConfigurationEndsWithSoftReset | library/__joystick_driver.c:164-178 | the default configuration is the three fixed writes followed by exactly the soft-reset sequence |
| DriverProperties.DefaultConfigurationScale | library/__joystick_driver.h:132-141 | on the abstract device, which stores writes and applies no soft reset of its own, the default configuration leaves T_CTRL at the documented 90.8 % scale |
| DriverProperties.SoftResetIdempotent | library/__joystick_driver.c:331-339 | a second soft reset leaves the register file as the first one left it |
| DriverProperties.LowPowerModeWraps | library/__joystick_driver.c:193-204 | `setLowPowerMode(t)` and `setLowPowerMode(t % 8)` give the same device, for example 10 and 2 |
| DriverProperties.LowPowerModeFromClearedField | library/__joystick_driver.c:193-204 | when the timebase field reads 0, the field written selects exactly the documented timing of the argument |
| DriverProperties.LowPowerModeAfterResetValue | library/__joystick_driver.c:199-201 | from the documented reset value 0xF0 of Control 1, any timing argument leaves the field at 7, the 320 ms timebase |
| DriverProperties.ScalingFactorSaturates | library/__joystick_driver.c:207-213 | every factor of 32 or more gives the same device as factor 9 |
| DriverProperties.EnableThenDisableKeepsBit2 | library/__joystick_driver.c:216-235 | on the abstract device, which stores writes and applies no soft reset of its own, disabling right after enabling leaves Control 1 at 0x8C, with bit 2 still set |
| DriverProperties.EnabledInterruptIdempotent | library/__joystick_driver.c:227-235 | enabling twice leaves the register file as enabling once |
| DriverProperties.IdCheckExamples | library/__joystick_driver.c:181-190 | 0x0C in the ID code register passes, 0x8C (negative when signed) fails, and 0x0D in the ID version register passes |
| DriverProperties.ConfigurationKeepsPosition | library/__joystick_driver.c:164-178 | the default configuration writes neither X nor Y_RES_INT, so on the abstract device the position read after it equals the one read before |
| Commands.Step | library/__joystick_driver.c:133-339 | every public call returns a value in its documented range (signed byte, 0/1 flag, code 0..8, or nothing) and writes only the registers it names |
| Commands.StepExtends | library/__joystick_driver.c:133-339 | every public call appends only whole transactions addressed to the bound slave |
| Commands.DefaultConfigurationExtends | library/__joystick_driver.c:164-178 | the default configuration appends five whole transactions to the bound slave |
| Commands.GetPositionExtends | library/__joystick_driver.c:252-254 | reading the position appends two whole read transactions to the bound slave |
| Commands.Run | library/__joystick_driver.c:133-339 | for any sequence of calls: one return value per call, each in its documented range; the trace only grows, by whole transactions to the bound slave; registers no call names keep their value |
| Commands.NamedCallsTouchConfigOnly | library/__joystick_driver.c:164-241 | the named operations write no register outside Control 1, Control 2, AGC and T_CTRL |
| Commands.NamedCallsKeepMeasurements | library/__joystick_driver.c:164-241 | a session of named calls writes no register outside the four configuration registers; in particular the driver writes none of X, Y_RES_INT, ID_CODE, ID_VERSION |
| Commands.SessionUsesBoundAddress | library/__joystick_driver.c:105-112 | after init with 0x40 or 0x41, every addressed event of any session goes to that address |

## Left out

- The hardware layer (`hal_i2cStart`, `hal_i2cWrite`, `hal_i2cRead`, the GPIO maps): it is not part of this model. Its effect is modelled as bus events on an abstract device. Bus failures are not modelled, because the driver never observes them.
- `joystick_getInterrupt`, `joystick_pressButton` and `joystick_hardwareReset`: these only read or toggle a pin, with a fixed delay, and hold no logic.
- The `Delay_10us` calls in `joystick_getPosition`: timing does not affect the result.
- The SPI and UART init functions: they are empty placeholders behind compile-time switches.
- The GPIO mapping and reset-pin setting in `joystick_i2cDriverInit`: only the slave binding is modelled (`Driver.I2cDriverInit`).
- The device's own reset behaviour: this is silicon behaviour, not driver code, and the abstract device simply stores what is written. On the chip, a write with bit 7 (Soft_rst) set reloads Control 1 with 0xF0 and every internal register with its reset value, and then the bit clears itself. Every Control 1 write of the soft reset, the default configuration and both interrupt calls sets that bit. So the properties that compose those calls (`DriverProperties.EnableThenDisableKeepsBit2`, `DriverProperties.DefaultConfigurationScale`, `DriverProperties.DefaultConfigurationEndsWithSoftReset`, `DriverProperties.SoftResetIdempotent`, `DriverProperties.EnabledInterruptIdempotent`) hold of the abstract device. On the chip, only the per-call facts about the byte written carry over.
- The demonstration application (`example/c/PIC32/Click_Joystick_PIC32.c`): board setup, UART logging and the polling loop with its change detection.
- The sensor's own register updates: the abstract device never changes a register on its own (X and Y_RES_INT are not refreshed with new measurements) and it stores writes even to read-only registers such as ID_CODE and ID_VERSION. Properties that compare register contents across calls (`DriverProperties.ReadAfterWrite`, `DriverProperties.ConfigurationKeepsPosition`, `Commands.NamedCallsKeepMeasurements`) therefore hold of this abstraction; on the chip they mean only that the driver itself does not write those registers.
- Register contents of addresses the device does not hold: the abstract device answers 0xFF for them, an assumption of the model.
- The register file is keyed by the address as a number rather than as a byte; `Peek` and `Store` convert.
